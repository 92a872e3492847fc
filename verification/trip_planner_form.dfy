/**
 * The trip planner form: the form record and its one-field update, the gate on the
 * four required fields, the templated trip built from a form that passes it, and the
 * form object whose `isGenerating` flag brackets that construction.
 */
module TripPlannerForm {
  import opened Wrappers
  import JsNumbers

  // ---------------------------------------------------------------------------
  // The form record

  datatype FormData = FormData(
    destination: string,
    days: string,
    startDate: string,
    endDate: string,
    budget: string,
    travelers: string,
    interests: string,
    accommodationType: string)

  /** Every field starts out as the empty string. */
  const EmptyForm := FormData("", "", "", "", "", "", "", "")

  /** The names the form's widgets pass to the field update. */
  datatype Field =
    | Destination | Days | StartDate | EndDate | Budget | Travelers | Interests | AccommodationType

  function GetField(f: FormData, field: Field): string
  {
    match field
    case Destination => f.destination
    case Days => f.days
    case StartDate => f.startDate
    case EndDate => f.endDate
    case Budget => f.budget
    case Travelers => f.travelers
    case Interests => f.interests
    case AccommodationType => f.accommodationType
  }

  /** `{ ...prev, [field]: value }`: the named field takes the value, every other field keeps its own. */
  function SetField(f: FormData, field: Field, value: string): (r: FormData)
    ensures GetField(r, field) == value
    ensures forall other :: other != field ==> GetField(r, other) == GetField(f, other)
  {
    match field
    case Destination => f.(destination := value)
    case Days => f.(days := value)
    case StartDate => f.(startDate := value)
    case EndDate => f.(endDate := value)
    case Budget => f.(budget := value)
    case Travelers => f.(travelers := value)
    case Interests => f.(interests := value)
    case AccommodationType => f.(accommodationType := value)
  }

  /** Two forms that agree on every field are the same form. */
  lemma FormsEqualByFields(f: FormData, g: FormData)
    requires forall field :: GetField(f, field) == GetField(g, field)
    ensures f == g
  {
    assert GetField(f, Destination) == GetField(g, Destination);
    assert GetField(f, Days) == GetField(g, Days);
    assert GetField(f, StartDate) == GetField(g, StartDate);
    assert GetField(f, EndDate) == GetField(g, EndDate);
    assert GetField(f, Budget) == GetField(g, Budget);
    assert GetField(f, Travelers) == GetField(g, Travelers);
    assert GetField(f, Interests) == GetField(g, Interests);
    assert GetField(f, AccommodationType) == GetField(g, AccommodationType);
  }

  /** Setting a field to the value it already holds leaves the form as it was. */
  lemma SetFieldToSameValue(f: FormData, field: Field)
    ensures SetField(f, field, GetField(f, field)) == f
  {
    FormsEqualByFields(SetField(f, field, GetField(f, field)), f);
  }

  // ---------------------------------------------------------------------------
  // The validation gate

  /** The fields the gate checks; the dates, interests and accommodation type are optional. */
  predicate IsRequired(field: Field)
  {
    field == Destination || field == Days || field == Budget || field == Travelers
  }

  /** A string is truthy in JavaScript exactly when it is not empty. */
  predicate HasRequiredFields(f: FormData)
  {
    f.destination != "" && f.days != "" && f.budget != "" && f.travelers != ""
  }

  /** The gate fails exactly when some required field is empty. */
  lemma HasRequiredFieldsIff(f: FormData)
    ensures !HasRequiredFields(f) <==> exists field :: IsRequired(field) && GetField(f, field) == ""
  {
    if !HasRequiredFields(f) {
      var field :=
        if f.destination == "" then Destination
        else if f.days == "" then Days
        else if f.budget == "" then Budget
        else Travelers;
      assert IsRequired(field) && GetField(f, field) == "";
    }
  }

  /** Changing an optional field never changes the gate's verdict. */
  lemma GateIgnoresOptionalFields(f: FormData, field: Field, value: string)
    requires !IsRequired(field)
    ensures HasRequiredFields(SetField(f, field, value)) == HasRequiredFields(f)
  {
    var g := SetField(f, field, value);
    assert GetField(g, Destination) == GetField(f, Destination);
    assert GetField(g, Days) == GetField(f, Days);
    assert GetField(g, Budget) == GetField(f, Budget);
    assert GetField(g, Travelers) == GetField(f, Travelers);
  }

  /** The freshly mounted form does not pass the gate. */
  lemma EmptyFormFailsGate()
    ensures !HasRequiredFields(EmptyForm)
  {
  }

  // ---------------------------------------------------------------------------
  // The generated trip

  datatype Activity = Activity(
    time: string,
    title: string,
    description: string,
    kind: string,  // the `type` field of the source
    estimatedCost: string,
    duration: string)

  datatype DayPlan = DayPlan(day: nat, title: string, activities: seq<Activity>)

  datatype Hotel = Hotel(
    name: string,
    rating: real,
    pricePerNight: string,
    amenities: seq<string>,
    location: string,
    description: string)

  datatype Trip = Trip(
    destination: string,
    duration: string,
    budget: string,
    travelers: string,
    dates: string,
    itinerary: seq<DayPlan>,
    hotels: seq<Hotel>)

  /** Why no trip reaches the page. */
  datatype Failure =
    | MissingRequiredFields  // the gate refused the form
    | InvalidArrayLength     // `Array.from` threw a RangeError: the day count is too large

  /** The largest length an array can have, 2^32 - 1. */
  const MaxArrayLength: nat := 0xFFFF_FFFF

  const FlexibleDates := "Flexible dates"

  /** The dates label: the range when both dates are set, the fallback otherwise. */
  function DatesLabel(startDate: string, endDate: string): (r: string)
  {
    if startDate != "" && endDate != "" then startDate + " to " + endDate else FlexibleDates
  }

  /** The fallback appears exactly when a date is missing: a range always holds an "o", the fallback none. */
  lemma DatesLabelIsFallbackIff(startDate: string, endDate: string)
    ensures DatesLabel(startDate, endDate) == FlexibleDates <==> startDate == "" || endDate == ""
    ensures startDate != "" && endDate != "" ==> DatesLabel(startDate, endDate) == startDate + " to " + endDate
  {
    if startDate != "" && endDate != "" {
      var r := startDate + " to " + endDate;
      assert r[|startDate| + 2] == 'o';
      assert forall i :: 0 <= i < |FlexibleDates| ==> FlexibleDates[i] != 'o';
      assert r != FlexibleDates;
    }
  }

  /**
   * The number of days: `parseInt(days) || 3`, where `NaN` and 0 are falsy, then the
   * length `Array.from` takes from it (a negative length becomes 0, a length above
   * 2^32 - 1 throws).
   */
  function DayCount(days: string): (r: Result<nat, Failure>)
    ensures r.Failure? <==> JsNumbers.ParseInt(days).Some? && JsNumbers.ParseInt(days).value > MaxArrayLength
    ensures r.Failure? ==> r.error == InvalidArrayLength
    ensures r.Success? ==> r.value <= MaxArrayLength
  {
    var requested: int :=
      match JsNumbers.ParseInt(days)
      case None => 3
      case Some(n) => if n == 0 then 3 else n;
    var length: nat := if requested < 0 then 0 else requested;
    if length > MaxArrayLength then Failure(InvalidArrayLength) else Success(length)
  }

  /** The cases of the day count, by what `parseInt` yields. */
  lemma DayCountCases(days: string)
    ensures JsNumbers.ParseInt(days) == None ==> DayCount(days) == Success(3)
    ensures JsNumbers.ParseInt(days) == Some(0) ==> DayCount(days) == Success(3)
    ensures forall n :: JsNumbers.ParseInt(days) == Some(n) && n < 0 ==> DayCount(days) == Success(0)
    ensures forall n :: JsNumbers.ParseInt(days) == Some(n) && 0 < n <= MaxArrayLength ==> DayCount(days) == Success(n)
    ensures forall n :: JsNumbers.ParseInt(days) == Some(n) && n > MaxArrayLength ==> DayCount(days) == Failure(InvalidArrayLength)
  {
  }

  /** A positive decimal count, possibly followed by text that does not continue it, is taken as is. */
  lemma DayCountOfDecimal(n: nat, rest: string)
    requires 0 < n <= MaxArrayLength
    requires rest == [] || !JsNumbers.IsDecimalDigit(rest[0])
    ensures DayCount(JsNumbers.NatToString(n) + rest) == Success(n)
  {
    JsNumbers.ParseIntOfDecimalPrefix(n, rest);
  }

  /** The values of the day select ("1" to "5", "7", "10", "14") each give that many days. */
  lemma DayCountOfSelectValues(n: nat)
    requires n in {1, 2, 3, 4, 5, 7, 10, 14}
    ensures DayCount(JsNumbers.NatToString(n)) == Success(n)
  {
    JsNumbers.ParseIntOfNatToString(n);
  }

  /** "0" is falsy after parsing: it falls back to 3 days, not 0. */
  lemma DayCountOfZero()
    ensures DayCount("0") == Success(3)
  {
    JsNumbers.ParseIntOfNatToString(0);
    assert JsNumbers.NatToString(0) == "0";
  }

  /** Text without a digit parses to `NaN`, which is falsy: 3 days. */
  lemma DayCountWithoutDigits(days: string)
    requires forall i :: 0 <= i < |days| ==> !JsNumbers.IsDecimalDigit(days[i])
    ensures DayCount(days) == Success(3)
  {
    JsNumbers.ParseIntWithoutDigits(days);
  }

  /** A negative count is truthy, so it is kept, and `Array.from` makes it an empty itinerary. */
  lemma DayCountOfNegative(n: nat)
    requires n > 0
    ensures DayCount("-" + JsNumbers.NatToString(n)) == Success(0)
  {
    JsNumbers.ParseIntOfNegated(n);
  }

  /** A count beyond 2^32 - 1 makes `Array.from` throw. */
  lemma DayCountTooLarge(n: nat)
    requires n > MaxArrayLength
    ensures DayCount(JsNumbers.NatToString(n)) == Failure(InvalidArrayLength)
  {
    JsNumbers.ParseIntOfNatToString(n);
  }

  const MorningDescription := "Start your day with a visit to the city's most iconic landmarks and attractions."
  const LunchDescription := "Enjoy authentic local dishes at a highly-rated restaurant recommended by locals."
  const CultureDescription := "Visit museums, galleries, or cultural sites that showcase the local heritage."
  const EveningDescription := "Experience the nightlife or attend a local performance."

  /** The four activities of every day; only the morning title mentions the destination. */
  function DayActivities(destination: string): (r: seq<Activity>)
  {
    [ Activity("9:00 AM", "Morning exploration of " + destination, MorningDescription, "sightseeing", "$25", "3 hours"),
      Activity("1:00 PM", "Local cuisine experience", LunchDescription, "dining", "$40", "2 hours"),
      Activity("4:00 PM", "Cultural immersion", CultureDescription, "culture", "$20", "2 hours"),
      Activity("7:00 PM", "Evening entertainment", EveningDescription, "entertainment", "$35", "3 hours") ]
  }

  /** The day at 0-based position `i`: numbered from 1 and titled after its number and the destination. */
  function DayPlanAt(destination: string, i: nat): (r: DayPlan)
  {
    DayPlan(i + 1, "Day " + JsNumbers.NatToString(i + 1) + " in " + destination, DayActivities(destination))
  }

  /** `Array.from({ length: n }, (_, i) => ...)`: the days at positions 0 to n - 1. */
  function Itinerary(destination: string, n: nat): (r: seq<DayPlan>)
    ensures |r| == n
    ensures forall i :: 0 <= i < n ==> r[i].day == i + 1 && r[i].activities == DayActivities(destination)
  {
    seq(n, i requires 0 <= i => DayPlanAt(destination, i))
  }

  const LuxuryDescription := "A perfect blend of comfort and luxury in the heart of the city."
  const BoutiqueDescription := "Charming boutique hotel with unique character and excellent service."

  /** The two hotels; only their names mention the destination. */
  function Hotels(destination: string): (r: seq<Hotel>)
  {
    [ Hotel("Luxury Stay " + destination, 4.5, "$150", ["WiFi", "Pool", "Spa", "Restaurant"],
            "City Center", LuxuryDescription),
      Hotel("Boutique Hotel " + destination, 4.2, "$120", ["WiFi", "Breakfast", "Gym", "Bar"],
            "Historic District", BoutiqueDescription) ]
  }

  /** The mock trip built from a form; it fails only when `Array.from` rejects the day count. */
  function Synthesize(f: FormData): (r: Result<Trip, Failure>)
    ensures r.Success? <==> DayCount(f.days).Success?
    ensures r.Failure? ==> r.error == InvalidArrayLength
    ensures r.Success? ==> |r.value.itinerary| == DayCount(f.days).value && |r.value.hotels| == 2
  {
    match DayCount(f.days)
    case Failure(e) => Failure(e)
    case Success(n) =>
      Success(Trip(
        f.destination,
        f.days + " days",
        f.budget,
        f.travelers,
        DatesLabel(f.startDate, f.endDate),
        Itinerary(f.destination, n),
        Hotels(f.destination)))
  }

  /** What a submission produces: the gate first, then the construction. */
  function Generate(f: FormData): (r: Result<Trip, Failure>)
    ensures r == Failure(MissingRequiredFields) <==> !HasRequiredFields(f)
    ensures r == Failure(InvalidArrayLength) <==> HasRequiredFields(f) && DayCount(f.days).Failure?
    ensures HasRequiredFields(f) ==> r == Synthesize(f)
  {
    if !HasRequiredFields(f) then Failure(MissingRequiredFields) else Synthesize(f)
  }

  /** A form that passes the gate yields a trip unless the day count is too large for an array. */
  lemma GenerateSucceedsIff(f: FormData)
    ensures Generate(f).Success? <==> HasRequiredFields(f) && DayCount(f.days).Success?
  {
  }

  /** The labels of the trip: copied from the form, the duration suffixed, the dates label as above. */
  lemma TripLabels(f: FormData, t: Trip)
    requires Generate(f) == Success(t)
    ensures t.destination == f.destination && t.budget == f.budget && t.travelers == f.travelers
    ensures t.duration == f.days + " days"
    ensures t.dates == FlexibleDates <==> f.startDate == "" || f.endDate == ""
    ensures f.startDate != "" && f.endDate != "" ==> t.dates == f.startDate + " to " + f.endDate
  {
    DatesLabelIsFallbackIff(f.startDate, f.endDate);
  }

  /** The itinerary has as many days as the day count, numbered 1 to n in order. */
  lemma TripDays(f: FormData, t: Trip)
    requires Generate(f) == Success(t)
    ensures DayCount(f.days) == Success(|t.itinerary|)
    ensures forall i :: 0 <= i < |t.itinerary| ==>
      && t.itinerary[i].day == i + 1
      && t.itinerary[i].title == "Day " + JsNumbers.NatToString(i + 1) + " in " + f.destination
  {
  }

  /** Every day holds the same four activities, in the order of their time slots and kinds. */
  lemma TripActivities(f: FormData, t: Trip)
    requires Generate(f) == Success(t)
    ensures forall i :: 0 <= i < |t.itinerary| ==> t.itinerary[i].activities == DayActivities(f.destination)
    ensures forall i :: 0 <= i < |t.itinerary| ==>
      var a := t.itinerary[i].activities;
      && |a| == 4
      && [a[0].time, a[1].time, a[2].time, a[3].time] == ["9:00 AM", "1:00 PM", "4:00 PM", "7:00 PM"]
      && [a[0].kind, a[1].kind, a[2].kind, a[3].kind] == ["sightseeing", "dining", "culture", "entertainment"]
      && a[0].title == "Morning exploration of " + f.destination
  {
  }

  /** Only the first activity's title depends on the destination. */
  lemma ActivitiesDifferOnlyInMorningTitle(d1: string, d2: string)
    ensures |DayActivities(d1)| == |DayActivities(d2)| == 4
    ensures forall k :: 1 <= k < 4 ==> DayActivities(d1)[k] == DayActivities(d2)[k]
    ensures DayActivities(d2)[0] == DayActivities(d1)[0].(title := "Morning exploration of " + d2)
  {
  }

  /** Two distinct days of one itinerary never share a title. */
  lemma DayTitlesDistinct(destination: string, i: nat, j: nat)
    requires i != j
    ensures DayPlanAt(destination, i).title != DayPlanAt(destination, j).title
  {
    var a := JsNumbers.NatToString(i + 1);
    var b := JsNumbers.NatToString(j + 1);
    var suffix := " in " + destination;
    var ta := DayPlanAt(destination, i).title;
    var tb := DayPlanAt(destination, j).title;
    assert ta == "Day " + (a + suffix);
    assert tb == "Day " + (b + suffix);
    if ta == tb {
      assert a == ta[4..|ta| - |suffix|];
      assert b == tb[4..|tb| - |suffix|];
      JsNumbers.NatToStringInjective(i + 1, j + 1);
    }
  }

  /** Exactly two hotels, named after the destination, rated 4.5 and 4.2. */
  lemma TripHotels(f: FormData, t: Trip)
    requires Generate(f) == Success(t)
    ensures |t.hotels| == 2
    ensures t.hotels[0].name == "Luxury Stay " + f.destination && t.hotels[0].rating == 4.5
    ensures t.hotels[1].name == "Boutique Hotel " + f.destination && t.hotels[1].rating == 4.2
  {
  }

  /**
   * The hotels and the itinerary read only the destination and the day count: the budget,
   * the travelers, the interests and the accommodation type change nothing but the labels.
   */
  lemma TripIgnoresPreferences(f: FormData, g: FormData)
    requires f.destination == g.destination && f.days == g.days
    requires HasRequiredFields(f) && HasRequiredFields(g)
    ensures Generate(f).Success? == Generate(g).Success?
    ensures Generate(f).Success? ==>
      && Generate(f).value.itinerary == Generate(g).value.itinerary
      && Generate(f).value.hotels == Generate(g).value.hotels
  {
  }

  // ---------------------------------------------------------------------------
  // The form object

  /** The toast a submission raises. */
  datatype Notice =
    | FillInRequiredFields  // the gate refused the form
    | TripGenerated         // the trip was handed to the page
    | GenerationFailed      // the construction threw

  /** The toast for the outcome of a submission. */
  function NoticeFor(r: Result<Trip, Failure>): (n: Notice)
    ensures n == TripGenerated <==> r.Success?
    ensures n == FillInRequiredFields <==> r == Failure(MissingRequiredFields)
  {
    match r
    case Success(_) => TripGenerated
    case Failure(MissingRequiredFields) => FillInRequiredFields
    case Failure(InvalidArrayLength) => GenerationFailed
  }

  /** What `onTripGenerated` receives: the trip when one was built, nothing otherwise. */
  function Delivered(r: Result<Trip, Failure>): (d: Option<Trip>)
    ensures d.Some? <==> r.Success?
    ensures d.Some? ==> d.value == r.value
  {
    if r.Success? then Some(r.value) else None
  }

  /** Two writes of the flag, one after the other, appear in the record in that order. */
  lemma RaisedThenLowered(writes: seq<bool>)
    ensures writes + [true] + [false] == writes + [true, false]
  {
  }

  class PlannerForm {
    var formData: FormData
    var isGenerating: bool
    /** Every value written to `isGenerating`, in order. */
    ghost var flagWrites: seq<bool>

    /** The flag holds the last value written to it, and starts out false. */
    ghost predicate Valid()
      reads this
    {
      isGenerating == (flagWrites != [] && flagWrites[|flagWrites| - 1])
    }

    constructor ()
      ensures Valid()
      ensures formData == EmptyForm && !isGenerating && flagWrites == []
    {
      formData := EmptyForm;
      isGenerating := false;
      flagWrites := [];
    }

    /** `handleInputChange(field, value)`. */
    method InputChange(field: Field, value: string)
      requires Valid()
      modifies this
      ensures Valid()
      ensures formData == SetField(old(formData), field, value)
      ensures isGenerating == old(isGenerating) && flagWrites == old(flagWrites)
    {
      formData := SetField(formData, field, value);
    }

    /** `setIsGenerating(value)`. */
    method SetGenerating(value: bool)
      requires Valid()
      modifies this
      ensures Valid()
      ensures isGenerating == value && flagWrites == old(flagWrites) + [value]
      ensures formData == old(formData)
    {
      isGenerating := value;
      flagWrites := flagWrites + [value];
    }

    /** The construction of the mock trip, which runs only while the flag is up. */
    method Build() returns (outcome: Result<Trip, Failure>)
      requires isGenerating
      ensures outcome == Synthesize(formData)
      ensures outcome.Success? ==> outcome.value.destination == formData.destination
    {
      outcome := Synthesize(formData);
    }

    /**
     * `generateTrip`, with the three-second wait taken as one atomic step. `delivered` is
     * what `onTripGenerated` receives, if it is called.
     */
    method Submit() returns (notice: Notice, delivered: Option<Trip>)
      requires Valid()
      modifies this
      ensures Valid()
      ensures formData == old(formData)
      ensures notice == NoticeFor(Generate(formData))
      ensures delivered == Delivered(Generate(formData))
      ensures !HasRequiredFields(formData) ==> flagWrites == old(flagWrites) && isGenerating == old(isGenerating)
      ensures HasRequiredFields(formData) ==> flagWrites == old(flagWrites) + [true, false] && !isGenerating
    {
      if !HasRequiredFields(formData) {
        notice, delivered := FillInRequiredFields, None;
        return;
      }
      notice, delivered := GenerateTrip();
    }

    /** The part of `generateTrip` past the gate: raise the flag, build the trip, lower the flag. */
    method GenerateTrip() returns (notice: Notice, delivered: Option<Trip>)
      requires Valid()
      modifies this
      ensures Valid()
      ensures formData == old(formData)
      ensures notice == NoticeFor(Synthesize(formData))
      ensures delivered == Delivered(Synthesize(formData))
      ensures flagWrites == old(flagWrites) + [true, false] && !isGenerating
    {
      ghost var form, writes := formData, flagWrites;
      SetGenerating(true);
      var outcome := Build();
      ghost var built := Synthesize(form);
      assert outcome == built;
      notice, delivered := NoticeFor(outcome), Delivered(outcome);
      SetGenerating(false);
      RaisedThenLowered(writes);
    }
  }
}
