# Trip planner: intake wizard and results view

A model of the two pages of a travel-planning front end that hold logic:

- **The trip-intake wizard** (`TripForm`, `trip_form.dfy`). Six steps (destination, start date,
  end date, interests, budget, daily times) over a draft record. Next is enabled only when the
  current step's gate (`canProceed`) accepts the draft; on the last step Next hands the draft to
  the results view. Previous moves back one step without a gate and does nothing on the first step.
  Each input handler replaces one field of the draft. The interest badges toggle a label in the
  selected list. The wizard is a class, `Wizard`, with the two pieces of component state as fields
  (`currentStep`, `formData`). Its invariant `Valid()` says three things: the index is a step;
  every step already passed still accepts the draft; the selected interests are distinct catalog
  labels. Because of the second part, the draft handed over at the end is `Complete`.
- **The results view** (`Results`, `results.dfy`). A pure projection of the navigation payload and
  of a fixed itinerary fixture. Without a payload it shows only the prompt back to `/plan`.
  Otherwise it shows:
  - the destination heading, with a `"Paris, France"` fallback;
  - one map marker per fixture activity, in day order and then activity order;
  - the summary budget, with a 1000 fallback;
  - the number of days and the number of activities;
  - one badge per selected interest.
- **String trimming** (`JsText`, `js_text.dfy`). The gate on the destination step calls JavaScript's
  `String.prototype.trim`, so the set of characters ECMAScript counts as WhiteSpace or
  LineTerminator is written out.
- `wrappers.dfy` holds the `Option` type, which stands for `null`, `undefined` and missing fields.

Modelling notes:

- Each field handler requires that the wizard is on that field's step. The input for a field is
  rendered only in its step's branch of `renderStepContent` (src/pages/TripForm.tsx:122-276). The
  model assumes each edit happens on its own step; "## Left out" says what that leaves aside.
- `ToggleInterest` requires a catalog label, because the handler is wired only to the twelve
  catalog badges (src/pages/TripForm.tsx:202-215).
- `HandleNext` requires the current step to accept the draft. It is reached only through the Next
  button, which is disabled otherwise. `PressNext` models the button itself: a press while the
  gate is closed does nothing.
- Facts about the code that the model keeps:
  - the interests are a list, kept free of duplicates only by the toggle;
  - the budget is the slider's list of values, not a single number;
  - the destination is stored untrimmed; the gate trims it only to test it;
  - Previous on the first step is a handled no-op;
  - nothing checks that the end date is on or after the start date.
- `HandleNext` returns the payload; navigation itself is not modelled. The results view receives
  the draft as `FromDraft(f)`, a record of the three fields it reads.
- Dates are millisecond timestamps. Coordinates are integers in units of 10^-4 degree; every
  fixture coordinate has four decimals, so this is exact.

## Model

| member | source | states |
|---|---|---|
| `TripForm.Wizard.constructor` | src/pages/TripForm.tsx:29-38 | The wizard opens on step 0 with destination `""`, no dates, no interests, budget `[1000]`, times `09:00` and `18:00`, and the invariant holds. |
| `TripForm.CanProceed` | src/pages/TripForm.tsx:110-120 | The gate is closed for every index outside 0 to 5, and always open on the budget and time steps. |
| `TripForm.InitialBlocked` | src/pages/TripForm.tsx:110-120 | The opening draft is stopped at steps 0 to 3 (no destination, dates or interests); steps 4 and 5 accept it. |
| `TripForm.CanProceedDestination` | src/pages/TripForm.tsx:112 | Step 0 accepts exactly when the destination holds a character that is not whitespace, so an all-whitespace destination blocks. |
| `TripForm.GateReadsOwnField` | src/pages/TripForm.tsx:110-120 | Each gate depends only on its own step's field; steps 4 and 5 and indices outside 0 to 5 depend on nothing. |
| `TripForm.CompleteIff` | src/pages/TripForm.tsx:110-120 | All six gates accept exactly when the destination has visible text, both dates are set and at least one interest is selected. |
| `TripForm.Wizard.HandleNext` | src/pages/TripForm.tsx:86-93 | Below the last step the index goes up by exactly one and no payload is emitted. On the last step the index stays and the payload is the current draft, which is complete. The draft never changes. |
| `TripForm.Wizard.PressNext` | src/pages/TripForm.tsx:350-353 | While the current step rejects the draft, a press changes nothing and emits nothing; otherwise it acts as `HandleNext`. Any emitted payload is complete. |
| `TripForm.Wizard.HandlePrevious` | src/pages/TripForm.tsx:95-99 | The index goes down by one when it is above 0 and stays at 0 otherwise. No gate is consulted and the draft never changes. The button's disabled state on step 0 (lines 340-344) adds nothing. |
| `TripForm.Wizard.SetDestination` | src/pages/TripForm.tsx:130 | Replaces only the destination; the index is unchanged and the invariant holds. |
| `TripForm.Wizard.SetStartDate` | src/pages/TripForm.tsx:158 | Replaces only the start date; the index is unchanged and the invariant holds. |
| `TripForm.Wizard.SetEndDate` | src/pages/TripForm.tsx:189 | Replaces only the end date, with no comparison against the start date; the index is unchanged and the invariant holds. |
| `TripForm.Wizard.ToggleInterest` | src/pages/TripForm.tsx:101-108 | Replaces only the interests, by the toggle; the label's membership flips; the list stays distinct and within the catalog. |
| `TripForm.Wizard.SetBudget` | src/pages/TripForm.tsx:233 | Replaces only the budget list; the index is unchanged and the invariant holds. |
| `TripForm.Wizard.SetStartTime` | src/pages/TripForm.tsx:256 | Replaces only the start time; the index is unchanged and the invariant holds. |
| `TripForm.Wizard.SetEndTime` | src/pages/TripForm.tsx:266 | Replaces only the end time; the index is unchanged and the invariant holds. |
| `TripForm.RemoveAll` | src/pages/TripForm.tsx:105 | The filter leaves no occurrence of the label and never lengthens the list. |
| `TripForm.RemoveAllCounts` | src/pages/TripForm.tsx:105 | Every other label keeps its number of occurrences, and the length drops by exactly the label's count. |
| `TripForm.RemoveAllConcat` | src/pages/TripForm.tsx:105 | Filtering distributes over concatenation, so kept entries keep their relative order. |
| `TripForm.RemoveAllAbsent` | src/pages/TripForm.tsx:105 | Filtering out a label that is absent returns the list unchanged. |
| `TripForm.Toggle` | src/pages/TripForm.tsx:101-108 | The toggled label is in the result exactly when it was not in the list. Other labels keep their membership and their count. An absent label is appended at the end. |
| `TripForm.ToggleTwiceAbsent` | src/pages/TripForm.tsx:101-108 | Toggling an absent label twice restores the list exactly. |
| `TripForm.ToggleTwicePresent` | src/pages/TripForm.tsx:101-108 | Toggling a present label twice keeps the same members, but moves the label to the end with a single occurrence. |
| `TripForm.ToggleKeepsDistinct` | src/pages/TripForm.tsx:101-108 | A list without duplicates stays without duplicates. |
| `TripForm.CatalogBound` | src/pages/TripForm.tsx:40-43 | Distinct labels from the twelve-label catalog number at most twelve, so the invariant bounds the selection. |
| `JsText.IsWhitespace` | src/pages/TripForm.tsx:112 | The characters trim strips are the ECMAScript WhiteSpace and LineTerminator code points, all at or below U+FEFF. |
| `JsText.LeadingWhitespace` | src/pages/TripForm.tsx:112 | The leading run measured for trimming is all whitespace and is followed by a non-whitespace character or the end. |
| `JsText.TrailingWhitespace` | src/pages/TripForm.tsx:112 | The trailing run measured for trimming is all whitespace and is preceded by a non-whitespace character or the start. |
| `JsText.Trim` | src/pages/TripForm.tsx:112 | The result is empty exactly when the input is all whitespace; otherwise it starts and ends with a non-whitespace character. |
| `JsText.TrimDecomposes` | src/pages/TripForm.tsx:112 | The trimmed text is the slice of the input that starts after the leading whitespace run, and everything after it is whitespace. |
| `Results.DisplayDestination` | src/pages/Results.tsx:39 | The heading is never empty. A non-empty payload destination is shown as it is; otherwise (missing payload, missing field or empty string) the heading is the `"Paris, France"` fallback. |
| `Results.DisplayBudget` | src/pages/Results.tsx:355 | The summary budget is never 0. A non-zero first budget value is shown as it is; otherwise (missing list, empty list or 0) the budget is the 1000 fallback. |
| `Results.AllLocations` | src/pages/Results.tsx:119-124 | The markers are built from each day's `DayMarkers` list; their number equals the total number of activities over all days (their order and content are stated by `MarkerAt`). |
| `Results.ActivityReduce` | src/pages/Results.tsx:364 | The activity count from the left fold equals its seed plus the total activity count. |
| `Results.PrefixTotal` | src/pages/Results.tsx:119-124 | The activities of the days before day `i`, plus those of day `i`, do not exceed the total. |
| `Results.MarkerAt` | src/pages/Results.tsx:119-124 | Markers come in day order, then activity order. Activity `j` of day `i` is the marker at position (activities of earlier days) + `j`, and that marker (`ToMarker`) holds the whole activity at the activity's own coordinates. |
| `Results.Render` | src/pages/Results.tsx:126-374 | With no payload only the prompt back to `/plan` is shown, and only then. Otherwise the page shows the fixture itinerary and its markers; the marker count equals the activity count in the summary, and the duration is the number of days. The heading and budget come from `DisplayDestination` and `DisplayBudget`, the badges from `Badges`. |
| `Results.FixtureCounts` | src/pages/Results.tsx:47-116 | The fixture has 2 days with 4 and 3 activities: 7 activities and 7 markers. |
| `Results.WizardPayloadShown` | src/pages/TripForm.tsx:91 | A complete draft handed over by the wizard (as `FromDraft`, the record of the fields it passes) is shown as entered. Its destination heads the page, so the fallback never fires. Its interests are the badges, in order. A first budget value other than 0 is shown as is, and an empty budget list shows 1000. |
| `Results.ToggleBadges` | src/pages/TripForm.tsx:101-108 | Toggling an interest moves the page's badges the same way: a new label becomes the last badge, and a selected label loses its badges while the others keep their order. |
| `Results.ExampleShown` | src/pages/Results.tsx:353-375 | For Paris, France with Culture and Food and budget 2500, the summary shows 2500, 2 days, 7 activities and the badges Culture and Food. |
| `Results.ExampleSession` | src/pages/TripForm.tsx:86-93 | Entering the example answers step by step and pressing Next six times hands over exactly the draft that was entered. |

## Left out

- Rendering, animation, CSS classes, and the step titles, subtitles and icons: presentation only.
- The progress percentage and its rounding (src/pages/TripForm.tsx:84, 293): floating-point display arithmetic.
- The Leaflet map, its centre, the tile server and the marker icon URLs (src/pages/Results.tsx:24-30, 40, 194-214): a foreign library and network I/O. Only the marker list it is given is modelled.
- Weather and hotels (src/pages/Results.tsx:41-46, 286-340): static display data with a fractional rating, not read by any logic.
- Budget clamping to 100..10000 in steps of 100: the unseen `Slider` component does it. `SetBudget` accepts any list.
- The date pickers' `disabled` predicates (src/pages/TripForm.tsx:159, 190): they read the wall clock and restrict the widget. The model therefore claims no ordering between the two dates.
- The value a date picker reports when its selected day is deselected: the `Calendar` component is not part of this model, and the model's picker always delivers a date.
- Date formatting with `date-fns`, and navigation mechanics. The hand-over is the payload that `HandleNext` returns; the "Back to Home" and "Home" buttons only navigate.
- Results receives an untyped navigation state. The model distinguishes only an absent state from a record whose three read fields may each be missing. Other falsy states, such as `0` or `""`, also take the empty-state branch and are not modelled. A `NaN` budget is not modelled either.
- JavaScript strings are UTF-16. Dafny characters are code points. All whitespace that trim strips lies in the Basic Multilingual Plane, so the gate is unaffected.
- The Share and Export buttons (src/pages/Results.tsx:163-170): they have no behaviour.
- TripForm.Wizard.SetDestination, SetStartDate, SetEndDate, ToggleInterest, SetBudget, SetStartTime, SetEndTime: each requires the wizard to be on its field's step. The model therefore does not capture an edit made after that step's gate has been passed. Such an edit could come from the leaving step's input while `AnimatePresence mode="wait"` (src/pages/TripForm.tsx:324-335) keeps it mounted through its exit animation; framer-motion is not part of this model. For the same reason, `HandleNext`'s promise that the emitted payload is `Complete` holds only if every edit happens on its own step.
- src/pages/Home.tsx: static cards and a theme toggle whose state lives in an unseen provider.
