# AI trip planner: form, mock trip and page navigation

A model of the two pieces of logic in the trip planner web application:

- **The trip planner form** (`src/components/TripPlannerForm.tsx`). Eight text fields are kept in one
  record, updated one field at a time. Submitting checks four required fields (destination,
  days, budget, travelers). When they are all filled in, a mock trip is built by templating:
  - labels copied from the form;
  - a dates label with a `"Flexible dates"` fallback;
  - `parseInt(days) || 3` days, each with the same four activities;
  - two hotels.
  While the trip is built, an `isGenerating` flag is set.
- **The page** (`src/pages/Index.tsx`). Two pieces of state, `showPlanner` and `generatedTrip`,
  select one of three views: the itinerary, the form, or home. Four handlers change the state.

Modules:

- `Wrappers`: `Option` and `Result`.
- `JsNumbers`: the JavaScript built-ins the templating relies on.
  - `parseInt` with no radix, as ECMAScript section 19.2.5 defines it: leading white space
    skipped, an optional sign, a `0x` prefix switching to radix 16, the longest digit run,
    `NaN` when there is none.
  - The decimal text of a non-negative integer, as a template literal renders it.
- `TripPlannerForm`: the form record and `SetField`, the validation gate `HasRequiredFields`, the
  trip datatypes, and `Synthesize` and `Generate`. The class `PlannerForm` holds `formData` and
  `isGenerating`; its methods are `InputChange` and `Submit`. `Submit` hands a complete form to
  `GenerateTrip`, which writes the flag through `SetGenerating` and builds the trip with `Build`.
- `IndexPage`: the page state `Screen`, the view selection `ViewOf`, and the four handlers as
  functions. The class `Page` applies them in place. A model of what a user can click
  (`Event`, `Enabled`, `Run`) shows which states can be reached.

Facts the model makes explicit:

- **`parseInt(days) || 3`.** `NaN` and `0` are both falsy, so both give 3 days. A negative count
  is truthy and is kept; `Array.from` then treats the negative length as 0, so the itinerary is
  empty. Text after the number is ignored (`"3x"` gives 3).
- **Very large day counts.** A count above 2^32 - 1 makes `Array.from` throw a `RangeError`. The
  `catch` at TripPlannerForm.tsx:114-115 turns that into the failure toast. So that branch can be
  reached, but only with a days value the select never offers. The model has it as
  `Failure(InvalidArrayLength)`.
- **Back from the itinerary.** It clears only the trip. `showPlanner` stays true. So when the trip
  is delivered while the form is shown (a submission taken as atomic), the next view is the form,
  not home.

## Model

| member | source | states |
|---|---|---|
| JsNumbers.TrimStart | src/components/TripPlannerForm.tsx:54 | the result is a suffix of the input; everything dropped is white space, and the result does not start with white space |
| JsNumbers.DigitRun | src/components/TripPlannerForm.tsx:54 | the count is the longest prefix of digits of the radix: every character before it is a digit, the one at it is not |
| JsNumbers.NatToString | src/components/TripPlannerForm.tsx:56 | the text of a number is a non-empty run of decimal digits that starts with `0` only for 0 |
| JsNumbers.DigitsValueOfNatToString | src/components/TripPlannerForm.tsx:56 | reading the decimal text of n back as digits gives n |
| JsNumbers.DigitRunOfDigitsThen | src/components/TripPlannerForm.tsx:54 | a digit run followed by a non-digit ends exactly at the non-digit |
| JsNumbers.ParseUnsigned | src/components/TripPlannerForm.tsx:54 | a number is read only from text that starts with a decimal digit; the decimal and `0x` cases are stated by ParseUnsignedOfDecimalPrefix |
| JsNumbers.ParseInt | src/components/TripPlannerForm.tsx:54 | `parseInt` yields a number only for text holding a decimal digit; what it yields is stated by ParseIntOfDecimalPrefix, ParseIntOfNatToString, ParseIntOfNegated and ParseIntWithoutDigits |
| JsNumbers.ParseUnsignedOfDecimalPrefix | src/components/TripPlannerForm.tsx:54 | the unsigned part reads a decimal numeral and ignores a non-digit tail, unless that tail turns `0` into a `0x` prefix |
| JsNumbers.ParseIntStartingWithDigit | src/components/TripPlannerForm.tsx:54 | text that starts with a digit is read without skipping white space or a sign |
| JsNumbers.ParseIntOfDecimalPrefix | src/components/TripPlannerForm.tsx:54 | `parseInt` of a decimal numeral followed by a non-digit tail (as in `"3x"`) is that number |
| JsNumbers.ParseIntOfNatToString | src/components/TripPlannerForm.tsx:54 | round trip: `parseInt(String(n)) == n` |
| JsNumbers.NatToStringInjective | src/components/TripPlannerForm.tsx:56 | distinct numbers have distinct decimal texts |
| JsNumbers.ParseIntWithoutDigits | src/components/TripPlannerForm.tsx:54 | text without a decimal digit, the empty string among them, parses to `NaN` |
| JsNumbers.ParseIntOfNegated | src/components/TripPlannerForm.tsx:54 | a leading minus sign negates the value read |
| TripPlannerForm.SetField | src/components/TripPlannerForm.tsx:30-32 | the named field takes the new value and every other field keeps its old one |
| TripPlannerForm.FormsEqualByFields | src/components/TripPlannerForm.tsx:18-27 | the eight fields determine the form record |
| TripPlannerForm.SetFieldToSameValue | src/components/TripPlannerForm.tsx:30-32 | writing a field's own value back leaves the form unchanged |
| TripPlannerForm.HasRequiredFields | src/components/TripPlannerForm.tsx:36 | the gate; stated by HasRequiredFieldsIff and GateIgnoresOptionalFields |
| TripPlannerForm.HasRequiredFieldsIff | src/components/TripPlannerForm.tsx:36 | the gate fails exactly when one of destination, days, budget, travelers is empty |
| TripPlannerForm.GateIgnoresOptionalFields | src/components/TripPlannerForm.tsx:36 | changing startDate, endDate, interests or accommodationType never changes the gate's verdict |
| TripPlannerForm.EmptyFormFailsGate | src/components/TripPlannerForm.tsx:18-39 | the initial, all-empty form is refused |
| TripPlannerForm.DatesLabel | src/components/TripPlannerForm.tsx:53 | the dates label; stated by DatesLabelIsFallbackIff |
| TripPlannerForm.DatesLabelIsFallbackIff | src/components/TripPlannerForm.tsx:53 | the dates label is `"Flexible dates"` if and only if a date is empty, and otherwise is `start + " to " + end` |
| TripPlannerForm.DayCount | src/components/TripPlannerForm.tsx:54 | the count fails exactly when `parseInt` yields a number above 2^32 - 1, and then with the array-length failure; a count is at most 2^32 - 1; the cases are stated by DayCountCases |
| TripPlannerForm.DayCountCases | src/components/TripPlannerForm.tsx:54 | by what `parseInt` yields: NaN or 0 give 3, a negative number 0, a positive one itself, one above 2^32 - 1 the array-length failure |
| TripPlannerForm.DayCountOfDecimal | src/components/TripPlannerForm.tsx:54 | a positive decimal count, even with a non-digit tail, gives that many days |
| TripPlannerForm.DayCountOfSelectValues | src/components/TripPlannerForm.tsx:170-177 | each value of the day select ("1" to "5", "7", "10", "14") gives that many days |
| TripPlannerForm.DayCountOfZero | src/components/TripPlannerForm.tsx:54 | `"0"` gives 3 days, not 0 |
| TripPlannerForm.DayCountWithoutDigits | src/components/TripPlannerForm.tsx:54 | text without digits gives 3 days |
| TripPlannerForm.DayCountOfNegative | src/components/TripPlannerForm.tsx:54 | a negative count gives an empty itinerary, not 3 days |
| TripPlannerForm.DayCountTooLarge | src/components/TripPlannerForm.tsx:54 | a count above 2^32 - 1 makes the construction fail |
| TripPlannerForm.DayActivities | src/components/TripPlannerForm.tsx:57-90 | the four activities of a day; stated by TripActivities and ActivitiesDifferOnlyInMorningTitle |
| TripPlannerForm.DayPlanAt | src/components/TripPlannerForm.tsx:55-90 | the day at a 0-based position; stated by TripDays and DayTitlesDistinct |
| TripPlannerForm.Itinerary | src/components/TripPlannerForm.tsx:54-91 | `Array.from` of length n: n days, day i numbered i + 1, each with the day's four activities |
| TripPlannerForm.Hotels | src/components/TripPlannerForm.tsx:92-109 | the two hotels; stated by TripHotels |
| TripPlannerForm.Synthesize | src/components/TripPlannerForm.tsx:48-110 | the trip is built exactly when the day count is valid, and fails only with the array-length failure; the trip has the day count's days and two hotels |
| TripPlannerForm.Generate | src/components/TripPlannerForm.tsx:36-54 | a submission is refused as incomplete exactly when the gate fails; it fails on the array length exactly when the gate passes and the day count fails; past the gate the outcome is `Synthesize`'s |
| TripPlannerForm.GenerateSucceedsIff | src/components/TripPlannerForm.tsx:36-54 | a trip is built exactly when the gate passes and the day count is a valid array length |
| TripPlannerForm.TripLabels | src/components/TripPlannerForm.tsx:49-53 | destination, budget, travelers copied verbatim; duration is `days + " days"`; dates label as above |
| TripPlannerForm.TripDays | src/components/TripPlannerForm.tsx:54-56 | the itinerary has the day count's length; day i (0-based) is numbered i + 1 and titled `"Day " + (i + 1) + " in " + destination` |
| TripPlannerForm.TripActivities | src/components/TripPlannerForm.tsx:57-90 | every day has the same four activities, at 9:00 AM, 1:00 PM, 4:00 PM, 7:00 PM, of kinds sightseeing, dining, culture, entertainment in that order; the first is titled after the destination |
| TripPlannerForm.ActivitiesDifferOnlyInMorningTitle | src/components/TripPlannerForm.tsx:57-90 | for two destinations, the activities differ only in the first activity's title |
| TripPlannerForm.DayTitlesDistinct | src/components/TripPlannerForm.tsx:55-56 | two different days never share a title |
| TripPlannerForm.TripHotels | src/components/TripPlannerForm.tsx:92-109 | exactly two hotels, `"Luxury Stay " + destination` rated 4.5 and `"Boutique Hotel " + destination` rated 4.2 |
| TripPlannerForm.TripIgnoresPreferences | src/components/TripPlannerForm.tsx:48-110 | itinerary and hotels depend only on destination and days, not on budget, travelers, interests or accommodation type |
| TripPlannerForm.NoticeFor | src/components/TripPlannerForm.tsx:36-118 | the success toast exactly when a trip is built; the required-fields toast exactly when the gate fails; the failure toast otherwise |
| TripPlannerForm.Delivered | src/components/TripPlannerForm.tsx:113 | `onTripGenerated` receives a trip exactly when one was built, and it is that trip |
| TripPlannerForm.PlannerForm.constructor | src/components/TripPlannerForm.tsx:18-28 | all fields empty, `isGenerating` false |
| TripPlannerForm.PlannerForm.InputChange | src/components/TripPlannerForm.tsx:30-32 | `formData` becomes `SetField(old formData, field, value)`; the flag is untouched |
| TripPlannerForm.PlannerForm.SetGenerating | src/components/TripPlannerForm.tsx:41 | `setIsGenerating`: the flag takes the value and the value is appended to the record of writes |
| TripPlannerForm.PlannerForm.Build | src/components/TripPlannerForm.tsx:48-110 | runs only while the flag is up; the outcome is `Synthesize(formData)` |
| TripPlannerForm.PlannerForm.GenerateTrip | src/components/TripPlannerForm.tsx:41-118 | the try/finally of a complete submission: the flag is written true, the trip is built while it is up, then the flag is written false; the notice and the delivered trip are those of `Synthesize(formData)`, and the form is unchanged |
| TripPlannerForm.PlannerForm.Submit | src/components/TripPlannerForm.tsx:34-119 | the form is unchanged; the page receives `Generate(formData)`'s trip exactly when it succeeds; an incomplete form never writes the flag; a complete one writes true, builds the trip (which requires the flag up), then writes false, so the flag is false afterwards whether or not the construction failed |
| IndexPage.ViewOf | src/pages/Index.tsx:17-25 | itinerary exactly when a trip is stored, whatever `showPlanner` is; form exactly when no trip and `showPlanner`; home exactly when neither |
| IndexPage.InitialIsHome | src/pages/Index.tsx:10-25 | the initial state shows home |
| IndexPage.Started | src/pages/Index.tsx:46 | `setShowPlanner(true)`; stated by StartedShowsPlanner |
| IndexPage.LeftForm | src/pages/Index.tsx:22 | `setShowPlanner(false)`; stated by LeftFormGoesHome |
| IndexPage.WithTrip | src/pages/Index.tsx:13-15 | `handleTripGenerated`; stated by WithTripShowsTrip |
| IndexPage.LeftItinerary | src/pages/Index.tsx:18 | `setGeneratedTrip(null)`; stated by LeftItineraryKeepsPlanner |
| IndexPage.StartedShowsPlanner | src/pages/Index.tsx:46 | both home buttons set `showPlanner`; doing it twice is doing it once; with no trip the form is shown |
| IndexPage.WithTripShowsTrip | src/pages/Index.tsx:13-19 | the handed-over trip is stored and shown unchanged; `showPlanner` is kept |
| IndexPage.LeftFormGoesHome | src/pages/Index.tsx:22 | leaving the form with no trip stored shows home |
| IndexPage.LeftItineraryKeepsPlanner | src/pages/Index.tsx:18 | leaving the itinerary keeps `showPlanner`; the view is the form if it is set, home otherwise |
| IndexPage.StepPreservesConsistent | src/pages/Index.tsx:17-23 | a handler clicked in the view that renders it, with the trip delivered while the form is shown (submission taken as atomic), keeps "a stored trip implies `showPlanner`" |
| IndexPage.RunPreservesConsistent | src/pages/Index.tsx:17-23 | every sequence of such clicks keeps that invariant |
| IndexPage.BackFromReachedItineraryShowsPlanner | src/pages/Index.tsx:17-23 | when the trip is delivered while the form is shown (submission taken as atomic), every reached itinerary's back button leads to the form, never home |
| IndexPage.Page.constructor | src/pages/Index.tsx:10-11 | `showPlanner` false, no trip |
| IndexPage.Page.Start | src/pages/Index.tsx:142 | the state becomes `Started(old state)` |
| IndexPage.Page.BackFromForm | src/pages/Index.tsx:22 | the state becomes `LeftForm(old state)` |
| IndexPage.Page.HandleTripGenerated | src/pages/Index.tsx:13-15 | the state becomes `WithTrip(old state, trip)` |
| IndexPage.Page.BackFromItinerary | src/pages/Index.tsx:18 | the state becomes `LeftItinerary(old state)` |
| IndexPage.PlanThenGoBack | src/pages/Index.tsx:17-22 | page and form wired together: a three-day request yields a three-day trip shown on the itinerary, and going back shows the form |

## Left out

- Rendering: all JSX, styling, icons and the landing page's text, and `src/components/TripItinerary.tsx`, which only renders a trip.
- The three-second `setTimeout` before the trip is built. Synthesis is one atomic step here, so `isGenerating` is false between user actions. While the wait lasts, the form's back button stays enabled. A trip that arrives after the user has left the form is still stored, with `showPlanner` false; back from that itinerary then shows home. This race is not modelled.
- StepPreservesConsistent, RunPreservesConsistent and BackFromReachedItineraryShowsPlanner hold only under that atomic abstraction: they assume a trip is delivered while the form is shown.
- Toasts: `Notice` records which of the three messages would be raised, not its text or display.
- React mechanics: the page's state and the form's state are plain fields. A form that is unmounted and mounted again starts from an empty record; this is not modelled (`PlanThenGoBack` keeps using one form object).
- `handleInputChange` accepts any string as a field name. The widgets pass only the eight names, so `Field` is an enumeration of them.
- `parseInt` is stated by lemmas (ParseIntOfDecimalPrefix, ParseIntOfNatToString, ParseIntOfNegated, ParseIntWithoutDigits) for decimal text; the lemmas say nothing about hexadecimal text, which the definition still reads.
- Numbers are unbounded integers, not doubles. Rounding to a double keeps the sign and the order against 2^32 - 1, so the day count comes out the same. More than 20 significant digits may be approximated by `parseInt`; that is not modelled.
- An itinerary of up to 2^32 - 1 days is built in the model; a real browser would run out of memory first.
- Ratings are `real` values; the activity's `type` field is called `kind`, because `type` is a Dafny keyword.
- The `catch` branch is reached only by the array-length failure. Nothing else in the construction throws.
