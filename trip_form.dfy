/**
 * The trip-intake wizard of src/pages/TripForm.tsx: six steps, each gated by
 * a validation predicate, over a draft record that accumulates the answers.
 */
module TripForm {
  import opened Wrappers
  import JsText

  /** A day chosen in a date picker; a JavaScript Date is a millisecond timestamp. */
  datatype Date = Date(epochMillis: int)

  /** The draft (`formData`). A date is None while it is still `null`. */
  datatype FormData = FormData(
    destination: string,
    startDate: Option<Date>,
    endDate: Option<Date>,
    interests: seq<string>,
    budget: seq<int>,
    startTime: string,
    endTime: string)

  /** `steps.length`, and the index of each step in `steps`. */
  const StepCount: nat := 6
  const LastStep: nat := StepCount - 1
  const DestinationStep: nat := 0
  const StartDateStep: nat := 1
  const EndDateStep: nat := 2
  const InterestsStep: nat := 3
  const BudgetStep: nat := 4
  const TimeStep: nat := 5

  /** The draft the wizard opens with. */
  const Initial: FormData := FormData("", None, None, [], [1000], "09:00", "18:00")

  /** The twelve interest labels offered as badges on the interests step. */
  const Catalog: seq<string> := [
    "Adventure", "Culture", "Food", "History", "Nature", "Shopping",
    "Nightlife", "Art", "Museums", "Beach", "Mountains", "Architecture"
  ]

  /** `canProceed()`: may the wizard leave `step` forward with draft `f`? */
  predicate CanProceed(step: int, f: FormData)
    ensures CanProceed(step, f) ==> 0 <= step <= LastStep
    ensures step == BudgetStep || step == TimeStep ==> CanProceed(step, f)
  {
    match step
    case 0 => JsText.Trim(f.destination) != ""
    case 1 => f.startDate.Some?
    case 2 => f.endDate.Some?
    case 3 => |f.interests| > 0
    case 4 => true
    case 5 => true
    case _ => false
  }

  /** A draft every step accepts: what the wizard may hand to the results view. */
  predicate Complete(f: FormData) {
    forall k :: 0 <= k < StepCount ==> CanProceed(k, f)
  }

  /** Non-whitespace text: what the destination step asks for. */
  predicate HasVisibleText(s: string) {
    exists i :: 0 <= i < |s| && !JsText.IsWhitespace(s[i])
  }

  /** Each label occurs at most once. */
  ghost predicate Distinct(xs: seq<string>) {
    forall y :: multiset(xs)[y] <= 1
  }

  /** `xs.filter(i => i !== x)`: no occurrence of `x` is left. */
  function RemoveAll(xs: seq<string>, x: string): (r: seq<string>)
    ensures x !in r
    ensures |r| <= |xs|
  {
    if xs == [] then []
    else if xs[0] == x then RemoveAll(xs[1..], x)
    else [xs[0]] + RemoveAll(xs[1..], x)
  }

  /** The filter keeps every other label as often as it occurs, and drops exactly the occurrences of `x`. */
  lemma {:induction false} RemoveAllCounts(xs: seq<string>, x: string)
    ensures forall y :: y != x ==> multiset(RemoveAll(xs, x))[y] == multiset(xs)[y]
    ensures |RemoveAll(xs, x)| == |xs| - multiset(xs)[x]
  {
    if xs != [] {
      assert xs == [xs[0]] + xs[1..];
      RemoveAllCounts(xs[1..], x);
    }
  }

  /** The new `interests` list of `handleInterestToggle(x)`. */
  function Toggle(xs: seq<string>, x: string): (r: seq<string>)
    ensures x in r <==> x !in xs
    ensures forall y :: y != x ==> (y in r <==> y in xs)
    ensures forall y :: y != x ==> multiset(r)[y] == multiset(xs)[y]
    ensures x !in xs ==> r == xs + [x]
    ensures x in xs ==> r == RemoveAll(xs, x)
  {
    RemoveAllCounts(xs, x);
    var r := if x in xs then RemoveAll(xs, x) else xs + [x];
    assert forall y :: y != x ==> (y in r <==> multiset(r)[y] > 0) && (y in xs <==> multiset(xs)[y] > 0);
    r
  }

  // Properties of the gate

  /** The destination step opens exactly when the destination holds a non-whitespace character. */
  lemma CanProceedDestination(f: FormData)
    ensures CanProceed(DestinationStep, f) <==> HasVisibleText(f.destination)
  {
    if !HasVisibleText(f.destination) {
      assert JsText.AllWhitespace(f.destination);
    }
  }

  /** A complete draft is exactly one with a visible destination, both dates and an interest. */
  lemma CompleteIff(f: FormData)
    ensures Complete(f) <==>
      HasVisibleText(f.destination) && f.startDate.Some? && f.endDate.Some? && |f.interests| > 0
  {
    CanProceedDestination(f);
    if HasVisibleText(f.destination) && f.startDate.Some? && f.endDate.Some? && |f.interests| > 0 {
      forall k | 0 <= k < StepCount ensures CanProceed(k, f) {
        if k == 0 { assert CanProceed(DestinationStep, f); }
      }
    }
    if Complete(f) {
      assert CanProceed(0, f) && CanProceed(1, f) && CanProceed(2, f) && CanProceed(3, f);
    }
  }

  /** The opening draft is stopped at the destination step, and so at every later gate that needs an answer. */
  lemma InitialBlocked()
    ensures !CanProceed(DestinationStep, Initial)
    ensures !CanProceed(StartDateStep, Initial) && !CanProceed(EndDateStep, Initial)
    ensures !CanProceed(InterestsStep, Initial)
    ensures CanProceed(BudgetStep, Initial) && CanProceed(TimeStep, Initial)
  {
    assert JsText.AllWhitespace(Initial.destination);
  }

  // Properties of the toggle

  /** Filtering distributes over concatenation, so the kept entries stay in their original order. */
  lemma {:induction false} RemoveAllConcat(a: seq<string>, b: seq<string>, x: string)
    ensures RemoveAll(a + b, x) == RemoveAll(a, x) + RemoveAll(b, x)
  {
    if a == [] {
      assert a + b == b;
    } else {
      var head := if a[0] == x then [] else [a[0]];
      calc {
        RemoveAll(a + b, x);
        { assert (a + b)[0] == a[0] && (a + b)[1..] == a[1..] + b; }
        head + RemoveAll(a[1..] + b, x);
        { RemoveAllConcat(a[1..], b, x); }
        head + (RemoveAll(a[1..], x) + RemoveAll(b, x));
        (head + RemoveAll(a[1..], x)) + RemoveAll(b, x);
        RemoveAll(a, x) + RemoveAll(b, x);
      }
    }
  }

  /** Filtering out a label that is not there changes nothing. */
  lemma {:induction false} RemoveAllAbsent(xs: seq<string>, x: string)
    requires x !in xs
    ensures RemoveAll(xs, x) == xs
  {
    if xs != [] {
      RemoveAllAbsent(xs[1..], x);
    }
  }

  /** Toggling a label that is not selected twice restores the list exactly. */
  lemma ToggleTwiceAbsent(xs: seq<string>, x: string)
    requires x !in xs
    ensures Toggle(Toggle(xs, x), x) == xs
  {
    RemoveAllConcat(xs, [x], x);
    RemoveAllAbsent(xs, x);
    assert RemoveAll([x], x) == [];
  }

  /**
   * Toggling a selected label twice keeps the same members but moves the label
   * to the end and collapses its duplicates.
   */
  lemma ToggleTwicePresent(xs: seq<string>, x: string)
    requires x in xs
    ensures Toggle(Toggle(xs, x), x) == RemoveAll(xs, x) + [x]
    ensures forall y :: y in Toggle(Toggle(xs, x), x) <==> y in xs
  {
    var once := Toggle(xs, x);
    forall y ensures y in Toggle(once, x) <==> y in xs {
      if y != x {
        assert multiset(Toggle(once, x))[y] == multiset(xs)[y];
      }
    }
  }

  /** A list without duplicates stays without duplicates. */
  lemma ToggleKeepsDistinct(xs: seq<string>, x: string)
    requires Distinct(xs)
    ensures Distinct(Toggle(xs, x))
  {
    var r := Toggle(xs, x);
    forall y ensures multiset(r)[y] <= 1 {
      if y == x && x !in xs {
        assert multiset(r) == multiset(xs) + multiset{x};
      }
    }
  }

  /** Distinct labels drawn from the catalog number at most twelve. */
  lemma CatalogBound(xs: seq<string>)
    requires Distinct(xs)
    requires forall s :: s in xs ==> s in Catalog
    ensures |xs| <= |Catalog|
  {
    SetOfSeqCard(Catalog);
    DistinctWithin(xs, set s | s in Catalog);
  }

  lemma {:induction false} DistinctWithin(xs: seq<string>, allowed: set<string>)
    requires Distinct(xs)
    requires forall s :: s in xs ==> s in allowed
    ensures |xs| <= |allowed|
  {
    if xs != [] {
      var t := xs[1..];
      assert xs == [xs[0]] + t;
      assert multiset(xs) == multiset{xs[0]} + multiset(t);
      assert Distinct(t) by {
        forall y ensures multiset(t)[y] <= 1 {
          assert multiset(t)[y] <= multiset(xs)[y];
        }
      }
      assert xs[0] !in t by {
        assert multiset(xs)[xs[0]] == 1 + multiset(t)[xs[0]];
      }
      DistinctWithin(t, allowed - {xs[0]});
    }
  }

  lemma {:induction false} SetOfSeqCard(xs: seq<string>)
    ensures |set s | s in xs| <= |xs|
  {
    if xs != [] {
      var t := xs[1..];
      assert xs == [xs[0]] + t;
      SetOfSeqCard(t);
      assert (set s | s in xs) == {xs[0]} + (set s | s in t);
    }
  }

  /** Each gate reads only the field of its own step. */
  lemma GateReadsOwnField(k: int, f: FormData, g: FormData)
    requires k == DestinationStep ==> f.destination == g.destination
    requires k == StartDateStep ==> f.startDate == g.startDate
    requires k == EndDateStep ==> f.endDate == g.endDate
    requires k == InterestsStep ==> f.interests == g.interests
    ensures CanProceed(k, f) == CanProceed(k, g)
  {
  }

  /**
   * The wizard component: the step index and the draft, updated by the
   * button and field handlers.
   */
  class Wizard {
    var currentStep: int
    var formData: FormData

    /**
     * The index is a step, every step already passed still accepts the draft
     * (each field's input is shown only on its own step), and the selected
     * interests are distinct catalog labels.
     */
    ghost predicate Valid()
      reads this
    {
      0 <= currentStep <= LastStep
      && (forall k :: 0 <= k < currentStep ==> CanProceed(k, formData))
      && Distinct(formData.interests)
      && (forall s :: s in formData.interests ==> s in Catalog)
    }

    constructor ()
      ensures Valid()
      ensures currentStep == DestinationStep && formData == Initial
    {
      currentStep := 0;
      formData := Initial;
    }

    /**
     * `handleNext`, reached only through the enabled Next button: below the
     * last step it moves one step forward; on the last step it stays and
     * hands the draft over as the results payload.
     */
    method HandleNext() returns (payload: Option<FormData>)
      requires Valid()
      requires CanProceed(currentStep, formData)
      modifies this`currentStep
      ensures Valid()
      ensures formData == old(formData)
      ensures old(currentStep) < LastStep ==> currentStep == old(currentStep) + 1 && payload == None
      ensures old(currentStep) == LastStep ==> currentStep == LastStep && payload == Some(formData)
      ensures payload.Some? ==> Complete(payload.value)
    {
      if currentStep < StepCount - 1 {
        currentStep := currentStep + 1;
        payload := None;
      } else {
        payload := Some(formData);
      }
    }

    /** A press of the Next button, which is disabled while the current step rejects the draft. */
    method PressNext() returns (payload: Option<FormData>)
      requires Valid()
      modifies this`currentStep
      ensures Valid()
      ensures formData == old(formData)
      ensures !CanProceed(old(currentStep), formData) ==> currentStep == old(currentStep) && payload == None
      ensures CanProceed(old(currentStep), formData) && old(currentStep) < LastStep ==>
        currentStep == old(currentStep) + 1 && payload == None
      ensures CanProceed(old(currentStep), formData) && old(currentStep) == LastStep ==>
        currentStep == LastStep && payload == Some(formData)
      ensures payload.Some? ==> Complete(payload.value)
    {
      if CanProceed(currentStep, formData) {
        payload := HandleNext();
      } else {
        payload := None;
      }
    }

    /**
     * `handlePrevious` (the Previous button, disabled on the first step):
     * one step back, never gated by validation, a no-op on the first step.
     */
    method HandlePrevious()
      requires Valid()
      modifies this`currentStep
      ensures Valid()
      ensures formData == old(formData)
      ensures currentStep == if old(currentStep) > 0 then old(currentStep) - 1 else old(currentStep)
    {
      if currentStep > 0 {
        currentStep := currentStep - 1;
      }
    }

    /** The destination input's change handler. */
    method SetDestination(value: string)
      requires Valid() && currentStep == DestinationStep
      modifies this`formData
      ensures Valid() && currentStep == old(currentStep)
      ensures formData == old(formData).(destination := value)
    {
      formData := formData.(destination := value);
    }

    /** The start-date picker's select handler. */
    method SetStartDate(date: Date)
      requires Valid() && currentStep == StartDateStep
      modifies this`formData
      ensures Valid() && currentStep == old(currentStep)
      ensures formData == old(formData).(startDate := Some(date))
    {
      var before := formData;
      formData := formData.(startDate := Some(date));
      forall k | 0 <= k < currentStep ensures CanProceed(k, formData) {
        GateReadsOwnField(k, before, formData);
      }
    }

    /** The end-date picker's select handler; it does not compare with the start date. */
    method SetEndDate(date: Date)
      requires Valid() && currentStep == EndDateStep
      modifies this`formData
      ensures Valid() && currentStep == old(currentStep)
      ensures formData == old(formData).(endDate := Some(date))
    {
      var before := formData;
      formData := formData.(endDate := Some(date));
      forall k | 0 <= k < currentStep ensures CanProceed(k, formData) {
        GateReadsOwnField(k, before, formData);
      }
    }

    /** `handleInterestToggle`, wired to each catalog badge. */
    method ToggleInterest(interest: string)
      requires Valid() && currentStep == InterestsStep
      requires interest in Catalog
      modifies this`formData
      ensures Valid() && currentStep == old(currentStep)
      ensures formData == old(formData).(interests := Toggle(old(formData).interests, interest))
      ensures interest in formData.interests <==> interest !in old(formData).interests
    {
      ToggleKeepsDistinct(formData.interests, interest);
      var before := formData;
      formData := formData.(interests := Toggle(formData.interests, interest));
      forall k | 0 <= k < currentStep ensures CanProceed(k, formData) {
        GateReadsOwnField(k, before, formData);
      }
    }

    /** The budget slider's change handler; the slider reports its thumb values as a list. */
    method SetBudget(value: seq<int>)
      requires Valid() && currentStep == BudgetStep
      modifies this`formData
      ensures Valid() && currentStep == old(currentStep)
      ensures formData == old(formData).(budget := value)
    {
      var before := formData;
      formData := formData.(budget := value);
      forall k | 0 <= k < currentStep ensures CanProceed(k, formData) {
        GateReadsOwnField(k, before, formData);
      }
    }

    /** The start-time input's change handler. */
    method SetStartTime(value: string)
      requires Valid() && currentStep == TimeStep
      modifies this`formData
      ensures Valid() && currentStep == old(currentStep)
      ensures formData == old(formData).(startTime := value)
    {
      var before := formData;
      formData := formData.(startTime := value);
      forall k | 0 <= k < currentStep ensures CanProceed(k, formData) {
        GateReadsOwnField(k, before, formData);
      }
    }

    /** The end-time input's change handler. */
    method SetEndTime(value: string)
      requires Valid() && currentStep == TimeStep
      modifies this`formData
      ensures Valid() && currentStep == old(currentStep)
      ensures formData == old(formData).(endTime := value)
    {
      var before := formData;
      formData := formData.(endTime := value);
      forall k | 0 <= k < currentStep ensures CanProceed(k, formData) {
        GateReadsOwnField(k, before, formData);
      }
    }
  }
}
