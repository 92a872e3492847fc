/**
 * The page that switches between the home screen, the planner form and the itinerary:
 * two pieces of state, the view they select, and the handlers that change them.
 */
module IndexPage {
  import opened Wrappers
  import TripPlannerForm
  import JsNumbers

  type Trip = TripPlannerForm.Trip

  /** The page state: whether the planner was opened, and the trip handed back by the form. */
  datatype Screen = Screen(showPlanner: bool, generatedTrip: Option<Trip>)

  /** Both pieces of state start unset. */
  const Initial := Screen(false, None)

  datatype View = Home | Planner | Itinerary(trip: Trip)

  /** The view: the itinerary whenever a trip is stored, else the form if it was opened, else home. */
  function ViewOf(s: Screen): (v: View)
    ensures v.Itinerary? <==> s.generatedTrip.Some?
    ensures v.Itinerary? ==> s.generatedTrip == Some(v.trip)
    ensures v == Planner <==> s.generatedTrip == None && s.showPlanner
    ensures v == Home <==> s.generatedTrip == None && !s.showPlanner
  {
    match s.generatedTrip
    case Some(t) => Itinerary(t)
    case None => if s.showPlanner then Planner else Home
  }

  // ---------------------------------------------------------------------------
  // The handlers, as functions of the state

  /** Either button of the home screen. */
  function Started(s: Screen): Screen { s.(showPlanner := true) }

  /** The form's back button. */
  function LeftForm(s: Screen): Screen { s.(showPlanner := false) }

  /** `handleTripGenerated`: the form hands over a trip. */
  function WithTrip(s: Screen, t: Trip): Screen { s.(generatedTrip := Some(t)) }

  /** The itinerary's back button. */
  function LeftItinerary(s: Screen): Screen { s.(generatedTrip := None) }

  lemma InitialIsHome()
    ensures ViewOf(Initial) == Home
  {
  }

  /** Opening the planner is idempotent and shows the form unless a trip is stored. */
  lemma StartedShowsPlanner(s: Screen)
    ensures Started(Started(s)) == Started(s)
    ensures s.generatedTrip == None ==> ViewOf(Started(s)) == Planner
    ensures s.generatedTrip.Some? ==> ViewOf(Started(s)) == ViewOf(s)
  {
  }

  /** A stored trip is shown unchanged, whatever `showPlanner` holds, and `showPlanner` is kept. */
  lemma WithTripShowsTrip(s: Screen, t: Trip)
    ensures ViewOf(WithTrip(s, t)) == Itinerary(t)
    ensures WithTrip(s, t).showPlanner == s.showPlanner
  {
  }

  /** Leaving the form goes home when no trip is stored. */
  lemma LeftFormGoesHome(s: Screen)
    requires s.generatedTrip == None
    ensures ViewOf(LeftForm(s)) == Home
  {
  }

  /** Leaving the itinerary clears the trip only: the view falls back on `showPlanner`. */
  lemma LeftItineraryKeepsPlanner(s: Screen)
    ensures LeftItinerary(s).showPlanner == s.showPlanner
    ensures ViewOf(LeftItinerary(s)) == if s.showPlanner then Planner else Home
  {
  }

  // ---------------------------------------------------------------------------
  // What a user can do: each handler is reachable only from the view that renders it,
  // and a trip is delivered only while the form is shown

  datatype Event = StartClicked | FormBackClicked | TripDelivered(trip: Trip) | ItineraryBackClicked

  function Step(s: Screen, e: Event): Screen
  {
    match e
    case StartClicked => Started(s)
    case FormBackClicked => LeftForm(s)
    case TripDelivered(t) => WithTrip(s, t)
    case ItineraryBackClicked => LeftItinerary(s)
  }

  /** The home buttons are on the home screen, the form's two exits on the form, the back button on the itinerary. */
  predicate Enabled(s: Screen, e: Event)
  {
    match ViewOf(s)
    case Home => e == StartClicked
    case Planner => e == FormBackClicked || e.TripDelivered?
    case Itinerary(_) => e == ItineraryBackClicked
  }

  /** The state after the events, applied from the first. */
  function Run(s: Screen, events: seq<Event>): Screen
    decreases |events|
  {
    if events == [] then s else Run(Step(s, events[0]), events[1..])
  }

  /** Every event is enabled in the state it meets. */
  predicate EnabledRun(s: Screen, events: seq<Event>)
    decreases |events|
  {
    events == [] || (Enabled(s, events[0]) && EnabledRun(Step(s, events[0]), events[1..]))
  }

  /**
   * A stored trip comes with the planner flag set. This holds when the trip is delivered
   * while the form is shown, as it is when a submission is one atomic step.
   */
  predicate Consistent(s: Screen)
  {
    s.generatedTrip.Some? ==> s.showPlanner
  }

  lemma StepPreservesConsistent(s: Screen, e: Event)
    requires Consistent(s) && Enabled(s, e)
    ensures Consistent(Step(s, e))
  {
  }

  /** Every state a user can reach from the initial one is consistent. */
  lemma {:induction false} RunPreservesConsistent(s: Screen, events: seq<Event>)
    requires Consistent(s) && EnabledRun(s, events)
    ensures Consistent(Run(s, events))
    decreases |events|
  {
    if events != [] {
      StepPreservesConsistent(s, events[0]);
      RunPreservesConsistent(Step(s, events[0]), events[1..]);
    }
  }

  /**
   * When every trip is delivered while the form is shown (a submission taken as atomic),
   * the itinerary's back button lands on the form, never on home.
   */
  lemma BackFromReachedItineraryShowsPlanner(events: seq<Event>)
    requires EnabledRun(Initial, events)
    requires ViewOf(Run(Initial, events)).Itinerary?
    ensures ViewOf(LeftItinerary(Run(Initial, events))) == Planner
  {
    RunPreservesConsistent(Initial, events);
  }

  // ---------------------------------------------------------------------------
  // The page object

  class Page {
    var showPlanner: bool
    var generatedTrip: Option<Trip>

    function State(): Screen
      reads this
    {
      Screen(showPlanner, generatedTrip)
    }

    /** The view rendered for the current state. */
    function CurrentView(): View
      reads this
    {
      ViewOf(State())
    }

    constructor ()
      ensures State() == Initial
    {
      showPlanner := false;
      generatedTrip := None;
    }

    /** `setShowPlanner(true)`, from either button of the home screen. */
    method Start()
      modifies this
      ensures State() == Started(old(State()))
    {
      showPlanner := true;
    }

    /** `setShowPlanner(false)`, the form's back button. */
    method BackFromForm()
      modifies this
      ensures State() == LeftForm(old(State()))
    {
      showPlanner := false;
    }

    /** `handleTripGenerated(tripData)`. */
    method HandleTripGenerated(t: Trip)
      modifies this
      ensures State() == WithTrip(old(State()), t)
    {
      generatedTrip := Some(t);
    }

    /** `setGeneratedTrip(null)`, the itinerary's back button. */
    method BackFromItinerary()
      modifies this
      ensures State() == LeftItinerary(old(State()))
    {
      generatedTrip := None;
    }
  }

  /**
   * The page and the form wired together: open the planner, fill in the four required
   * fields with a three-day trip, submit, hand the trip to the page, go back. The trip
   * has three days, and going back shows the form again.
   */
  method PlanThenGoBack(destination: string) returns (days: nat, shown: View, after: View)
    requires destination != ""
    ensures days == 3
    ensures shown.Itinerary? && shown.trip.destination == destination
    ensures after == Planner
  {
    var page := new Page();
    page.Start();
    var form := new TripPlannerForm.PlannerForm();
    form.InputChange(TripPlannerForm.Destination, destination);
    form.InputChange(TripPlannerForm.Days, "3");
    form.InputChange(TripPlannerForm.Budget, "moderate");
    form.InputChange(TripPlannerForm.Travelers, "2");
    TripPlannerForm.DayCountOfSelectValues(3);
    assert JsNumbers.NatToString(3) == "3";
    var notice, delivered := form.Submit();
    var trip := delivered.value;
    page.HandleTripGenerated(trip);
    days := |trip.itinerary|;
    shown := page.CurrentView();
    page.BackFromItinerary();
    after := page.CurrentView();
  }
}
