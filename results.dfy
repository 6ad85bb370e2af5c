/**
 * The results view of src/pages/Results.tsx: read-only projections of the
 * navigation payload and of a fixed itinerary fixture.
 */
module Results {
  import opened Wrappers
  import TripForm
  import JsText

  /** A map coordinate, latitude and longitude in units of 10^-4 degree (opaque to the view). */
  datatype Coord = Coord(lat: int, lng: int)

  datatype Activity = Activity(
    time: string,
    title: string,
    description: string,
    duration: string,
    coordinates: Coord,
    kind: string)

  datatype Day = Day(day: nat, date: string, activities: seq<Activity>)

  /** An entry of `allLocations`: the activity together with its map position. */
  datatype Marker = Marker(activity: Activity, position: Coord)

  /** The fields of the navigation state that the view reads; any of them may be missing. */
  datatype Payload = Payload(
    destination: Option<string>,
    budget: Option<seq<int>>,
    interests: Option<seq<string>>)

  datatype Summary = Summary(budget: int, durationDays: nat, activities: nat, badges: seq<string>)

  /** What the view shows: the empty-state prompt, or the trip page. */
  datatype View =
    | EmptyState(action: string)
    | TripView(heading: string, markers: seq<Marker>, itinerary: seq<Day>, summary: Summary)

  const DefaultDestination: string := "Paris, France"
  const DefaultBudget: int := 1000
  const PlanRoute: string := "/plan"

  /** The fixture itinerary (`tripData.itinerary`). */
  const Itinerary: seq<Day> := [
    Day(1, "March 15, 2024", [
      Activity("09:00 AM", "Eiffel Tower Visit",
        "Start your Paris adventure with the iconic Eiffel Tower. Take the elevator to the top for breathtaking views.",
        "2 hours", Coord(488584, 22945), "Sightseeing"),
      Activity("12:00 PM", "Seine River Cruise",
        "Enjoy a relaxing boat ride along the Seine, passing by Notre-Dame and other landmarks.",
        "1.5 hours", Coord(488566, 23522), "Activity"),
      Activity("02:30 PM", "Louvre Museum",
        "Explore the world's largest art museum and see the Mona Lisa.",
        "3 hours", Coord(488606, 23376), "Culture"),
      Activity("07:00 PM", "French Dinner at Le Comptoir du Relais",
        "Experience authentic French cuisine in the heart of Saint-Germain.",
        "2 hours", Coord(488502, 23439), "Food")
    ]),
    Day(2, "March 16, 2024", [
      Activity("10:00 AM", "Montmartre & Sacré-Cœur",
        "Explore the artistic neighborhood of Montmartre and visit the beautiful basilica.",
        "3 hours", Coord(488867, 23431), "Sightseeing"),
      Activity("02:00 PM", "Latin Quarter Walking Tour",
        "Discover the historic Latin Quarter with its narrow streets and cafés.",
        "2 hours", Coord(488506, 23444), "Culture"),
      Activity("05:00 PM", "Shopping at Champs-Élysées",
        "Stroll down the famous avenue and enjoy some retail therapy.",
        "2 hours", Coord(488698, 23076), "Shopping")
    ])
  ]

  /** The wizard's draft as the results view receives it. */
  function FromDraft(f: TripForm.FormData): (p: Payload)
    ensures p.destination == Some(f.destination)
    ensures p.budget == Some(f.budget) && p.interests == Some(f.interests)
  {
    Payload(Some(f.destination), Some(f.budget), Some(f.interests))
  }

  /** `formData?.destination || "Paris, France"`: never empty, and either the payload's own text or the fallback. */
  function DisplayDestination(state: Option<Payload>): (r: string)
    ensures r != ""
    ensures state.Some? && state.value.destination.Some? && state.value.destination.value != "" ==>
      r == state.value.destination.value
    ensures r == DefaultDestination || (state.Some? && state.value.destination == Some(r))
  {
    match state
    case Some(Payload(Some(d), _, _)) => if d != "" then d else DefaultDestination
    case _ => DefaultDestination
  }

  /** `formData.budget?.[0] || 1000`: never zero, and either the first slider value or the fallback. */
  function DisplayBudget(p: Payload): (r: int)
    ensures r != 0
    ensures p.budget.Some? && |p.budget.value| > 0 && p.budget.value[0] != 0 ==> r == p.budget.value[0]
    ensures r == DefaultBudget || (p.budget.Some? && |p.budget.value| > 0 && p.budget.value[0] == r)
  {
    match p.budget
    case Some(b) => if |b| > 0 && b[0] != 0 then b[0] else DefaultBudget
    case None => DefaultBudget
  }

  /** `formData.interests?.map(...)`: one badge per entry, in list order; none when the field is missing. */
  function Badges(p: Payload): (r: seq<string>)
    ensures p.interests.None? ==> r == []
    ensures p.interests.Some? ==> |r| == |p.interests.value|
    ensures p.interests.Some? ==> forall i :: 0 <= i < |r| ==> r[i] == p.interests.value[i]
  {
    p.interests.GetOr([])
  }

  /** `{...activity, position: activity.coordinates}`. */
  function ToMarker(a: Activity): (m: Marker)
    ensures m.activity == a && m.position == a.coordinates
  {
    Marker(a, a.coordinates)
  }

  /** `day.activities.map(...)`. */
  function DayMarkers(d: Day): seq<Marker> {
    seq(|d.activities|, j requires 0 <= j < |d.activities| => ToMarker(d.activities[j]))
  }

  /** The number of activities over all days, counted from the first day on. */
  function TotalActivities(days: seq<Day>): nat {
    if days == [] then 0 else |days[0].activities| + TotalActivities(days[1..])
  }

  /** `allLocations`: the flatMap of every day's markers; one marker per activity. */
  function AllLocations(days: seq<Day>): (r: seq<Marker>)
    ensures |r| == TotalActivities(days)
  {
    if days == [] then [] else DayMarkers(days[0]) + AllLocations(days[1..])
  }

  /** `itinerary.reduce((acc, day) => acc + day.activities.length, acc)`, a left fold: its seed plus the activity total. */
  function ActivityReduce(days: seq<Day>, acc: int): (r: int)
    ensures r == acc + TotalActivities(days)
  {
    if days == [] then acc else ActivityReduce(days[1..], acc + |days[0].activities|)
  }

  /** The activities of the days before `i` come first. */
  lemma {:induction false} PrefixTotal(days: seq<Day>, i: nat)
    requires i < |days|
    ensures TotalActivities(days[..i]) + |days[i].activities| <= TotalActivities(days)
  {
    if i > 0 {
      assert days[..i][1..] == days[1..][..i - 1];
      PrefixTotal(days[1..], i - 1);
    }
  }

  /**
   * Markers are in day order, then activity order: activity `j` of day `i`
   * is the marker after all the activities of the earlier days plus `j`.
   */
  lemma {:induction false} MarkerAt(days: seq<Day>, i: nat, j: nat)
    requires i < |days| && j < |days[i].activities|
    ensures TotalActivities(days[..i]) + j < |AllLocations(days)|
    ensures AllLocations(days)[TotalActivities(days[..i]) + j] == ToMarker(days[i].activities[j])
  {
    PrefixTotal(days, i);
    if i > 0 {
      assert days[..i][1..] == days[1..][..i - 1];
      MarkerAt(days[1..], i - 1, j);
    }
  }

  /**
   * The view: without a payload only the prompt back to the wizard;
   * otherwise the trip page, whose marker count equals the activity count
   * in the summary and whose duration is the number of days.
   */
  function Render(state: Option<Payload>): (v: View)
    ensures v.EmptyState? <==> state.None?
    ensures v.EmptyState? ==> v.action == PlanRoute
    ensures v.TripView? ==> v.itinerary == Itinerary && v.markers == AllLocations(Itinerary)
    ensures v.TripView? ==> |v.markers| == v.summary.activities && v.summary.durationDays == |v.itinerary|
    ensures state.Some? ==>
      v.TripView? && v.heading == DisplayDestination(state) &&
      v.summary.budget == DisplayBudget(state.value) && v.summary.badges == Badges(state.value)
  {
    match state
    case None => EmptyState(PlanRoute)
    case Some(p) =>
      TripView(
        DisplayDestination(state),
        AllLocations(Itinerary),
        Itinerary,
        Summary(DisplayBudget(p), |Itinerary|, ActivityReduce(Itinerary, 0), Badges(p)))
  }

  /** The fixture has two days and 4 + 3 = 7 activities, so seven markers. */
  lemma FixtureCounts()
    ensures |Itinerary| == 2
    ensures |Itinerary[0].activities| == 4 && |Itinerary[1].activities| == 3
    ensures ActivityReduce(Itinerary, 0) == 7 && |AllLocations(Itinerary)| == 7
  {
    assert Itinerary[1..][1..] == [];
  }

  /**
   * A payload the wizard emits is shown as entered: its destination heads the
   * page (the fallback never fires), its interests are the badges in order,
   * and a first budget value other than 0 is shown as is.
   */
  lemma WizardPayloadShown(f: TripForm.FormData)
    requires TripForm.Complete(f)
    ensures Render(Some(FromDraft(f))).TripView?
    ensures Render(Some(FromDraft(f))).heading == f.destination
    ensures Render(Some(FromDraft(f))).summary.badges == f.interests
    ensures |f.budget| > 0 && f.budget[0] != 0 ==> Render(Some(FromDraft(f))).summary.budget == f.budget[0]
    ensures |f.budget| == 0 ==> Render(Some(FromDraft(f))).summary.budget == DefaultBudget
  {
    TripForm.CompleteIff(f);
    assert f.destination != "";
  }

  /**
   * Toggling an interest on the wizard moves the page's badges the same way:
   * a new label becomes the last badge after the others, and a selected one
   * loses its badge while the rest keep their order.
   */
  lemma ToggleBadges(f: TripForm.FormData, x: string)
    ensures x !in f.interests ==>
      Render(Some(FromDraft(f.(interests := TripForm.Toggle(f.interests, x))))).summary.badges
        == Render(Some(FromDraft(f))).summary.badges + [x]
    ensures x in f.interests ==>
      Render(Some(FromDraft(f.(interests := TripForm.Toggle(f.interests, x))))).summary.badges
        == TripForm.RemoveAll(Render(Some(FromDraft(f))).summary.badges, x)
  {
  }

  /** The draft of the example session below. */
  const ExampleDraft: TripForm.FormData := TripForm.FormData(
    "Paris, France", Some(TripForm.Date(1710460800000)), Some(TripForm.Date(1710633600000)),
    ["Culture", "Food"], [2500], "08:00", "20:00")

  /** The example draft's trip page: budget 2500, badges Culture and Food, two days, seven activities. */
  lemma ExampleShown()
    ensures Render(Some(FromDraft(ExampleDraft))).TripView?
    ensures Render(Some(FromDraft(ExampleDraft))).heading == "Paris, France"
    ensures Render(Some(FromDraft(ExampleDraft))).summary == Summary(2500, 2, 7, ["Culture", "Food"])
  {
    FixtureCounts();
  }

  /**
   * A whole session: Paris, France from 15 to 17 March 2024, interests Culture
   * and Food, budget 2500, 08:00 to 20:00. The wizard hands over exactly
   * what was entered.
   */
  method ExampleSession() returns (payload: Option<TripForm.FormData>)
    ensures payload == Some(ExampleDraft)
  {
    var w := new TripForm.Wizard();
    w.SetDestination("Paris, France");
    assert TripForm.CanProceed(0, w.formData) by {
      assert !JsText.IsWhitespace("Paris, France"[0]);
      TripForm.CanProceedDestination(w.formData);
    }
    payload := w.PressNext();
    w.SetStartDate(TripForm.Date(1710460800000));
    payload := w.PressNext();
    w.SetEndDate(TripForm.Date(1710633600000));
    payload := w.PressNext();
    assert w.currentStep == 3 && w.formData.interests == [];
    ChooseInterests(w);
    payload := w.PressNext();
    w.SetBudget([2500]);
    payload := w.PressNext();
    w.SetStartTime("08:00");
    w.SetEndTime("20:00");
    assert w.currentStep == 5 && w.formData == ExampleDraft;
    payload := w.PressNext();
  }

  /** The interests step of the example session: Culture, then Food. */
  method ChooseInterests(w: TripForm.Wizard)
    requires w.Valid() && w.currentStep == TripForm.InterestsStep && w.formData.interests == []
    modifies w
    ensures w.Valid() && w.currentStep == TripForm.InterestsStep
    ensures w.formData == old(w.formData).(interests := ["Culture", "Food"])
  {
    w.ToggleInterest("Culture");
    assert w.formData.interests == ["Culture"];
    w.ToggleInterest("Food");
  }
}
