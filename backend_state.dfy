/**
 * The graph's state record and its merge policy. A step returns a partial update:
 * keys it omits keep their value, `messages` is merged with `add_messages`, and
 * every other key it writes is replaced by the written value. A key of the state
 * may also be missing altogether, which the steps read with a default.
 */
module BackendState {
  import opened Wrappers
  import opened PyValues
  import opened Messages
  import opened Schemas

  datatype TravelState = TravelState(
    messages: seq<Message>,
    destination: Key<Option<string>>,
    travelDates: Key<PyValue>,
    preferences: Key<PyValue>,
    tripPlan: Key<Option<Trip>>,
    attractionsInfo: Key<Option<string>>,
    weatherInfo: Key<Option<string>>,
    hotelInfo: Key<Option<string>>,
    budget: Key<Option<string>>,
    budgetStatus: Key<Option<string>>,
    plannerFeedback: Key<Option<string>>,
    userFeedback: Key<Option<string>>,
    planningRetries: Key<int>)

  /** A partial update: the dict a step returns. */
  datatype Update = Update(
    messages: Key<seq<Message>> := Absent,
    destination: Key<Option<string>> := Absent,
    travelDates: Key<PyValue> := Absent,
    preferences: Key<PyValue> := Absent,
    tripPlan: Key<Option<Trip>> := Absent,
    attractionsInfo: Key<Option<string>> := Absent,
    weatherInfo: Key<Option<string>> := Absent,
    hotelInfo: Key<Option<string>> := Absent,
    budget: Key<Option<string>> := Absent,
    budgetStatus: Key<Option<string>> := Absent,
    plannerFeedback: Key<Option<string>> := Absent,
    userFeedback: Key<Option<string>> := Absent,
    planningRetries: Key<int> := Absent)

  datatype Field =
    | Transcript | Destination | TravelDates | Preferences | TripPlan
    | AttractionsInfo | WeatherInfo | HotelInfo | Budget | BudgetStatus
    | PlannerFeedback | UserFeedback | PlanningRetries

  /** The dict key of each field. */
  function KeyName(f: Field): string
  {
    match f
    case Transcript => "messages"
    case Destination => "destination"
    case TravelDates => "travel_dates"
    case Preferences => "preferences"
    case TripPlan => "trip_plan"
    case AttractionsInfo => "attractions_info"
    case WeatherInfo => "weather_info"
    case HotelInfo => "hotel_info"
    case Budget => "budget"
    case BudgetStatus => "budget_status"
    case PlannerFeedback => "planner_feedback"
    case UserFeedback => "user_feedback"
    case PlanningRetries => "planning_retries"
  }

  /** The keys of the record. */
  function FieldNames(): set<string>
  {
    set f: Field :: KeyName(f)
  }

  /** Whether an update writes field `f`. */
  predicate Writes(u: Update, f: Field)
  {
    match f
    case Transcript => u.messages.Present?
    case Destination => u.destination.Present?
    case TravelDates => u.travelDates.Present?
    case Preferences => u.preferences.Present?
    case TripPlan => u.tripPlan.Present?
    case AttractionsInfo => u.attractionsInfo.Present?
    case WeatherInfo => u.weatherInfo.Present?
    case HotelInfo => u.hotelInfo.Present?
    case Budget => u.budget.Present?
    case BudgetStatus => u.budgetStatus.Present?
    case PlannerFeedback => u.plannerFeedback.Present?
    case UserFeedback => u.userFeedback.Present?
    case PlanningRetries => u.planningRetries.Present?
  }

  /** The keys an update writes. */
  function Keys(u: Update): set<Field>
  {
    set f: Field | Writes(u, f)
  }

  /** The replace policy: a written key takes the written value, an omitted one keeps its own. */
  function Replace<T>(current: Key<T>, written: Key<T>): (r: Key<T>)
    ensures written.Present? ==> r == written
    ensures written.Absent? ==> r == current
  {
    if written.Present? then written else current
  }

  /** The state after a step's update is applied. */
  function Merge(s: TravelState, u: Update): (r: TravelState)
    ensures u.messages.Present? ==> r.messages == AddMessages(s.messages, u.messages.value)
    ensures u.messages.Absent? ==> r.messages == s.messages
    ensures |r.messages| >= |s.messages|
    ensures u.destination.Absent? ==> r.destination == s.destination
    ensures u.destination.Present? ==> r.destination == u.destination
    ensures u.travelDates.Absent? ==> r.travelDates == s.travelDates
    ensures u.travelDates.Present? ==> r.travelDates == u.travelDates
    ensures u.preferences.Absent? ==> r.preferences == s.preferences
    ensures u.preferences.Present? ==> r.preferences == u.preferences
    ensures u.tripPlan.Absent? ==> r.tripPlan == s.tripPlan
    ensures u.tripPlan.Present? ==> r.tripPlan == u.tripPlan
    ensures u.attractionsInfo.Absent? ==> r.attractionsInfo == s.attractionsInfo
    ensures u.attractionsInfo.Present? ==> r.attractionsInfo == u.attractionsInfo
    ensures u.weatherInfo.Absent? ==> r.weatherInfo == s.weatherInfo
    ensures u.weatherInfo.Present? ==> r.weatherInfo == u.weatherInfo
    ensures u.hotelInfo.Absent? ==> r.hotelInfo == s.hotelInfo
    ensures u.hotelInfo.Present? ==> r.hotelInfo == u.hotelInfo
    ensures u.budget.Absent? ==> r.budget == s.budget
    ensures u.budget.Present? ==> r.budget == u.budget
    ensures u.budgetStatus.Absent? ==> r.budgetStatus == s.budgetStatus
    ensures u.budgetStatus.Present? ==> r.budgetStatus == u.budgetStatus
    ensures u.plannerFeedback.Absent? ==> r.plannerFeedback == s.plannerFeedback
    ensures u.plannerFeedback.Present? ==> r.plannerFeedback == u.plannerFeedback
    ensures u.userFeedback.Absent? ==> r.userFeedback == s.userFeedback
    ensures u.userFeedback.Present? ==> r.userFeedback == u.userFeedback
    ensures u.planningRetries.Absent? ==> r.planningRetries == s.planningRetries
    ensures u.planningRetries.Present? ==> r.planningRetries == u.planningRetries
  {
    TravelState(
      if u.messages.Present? then AddMessages(s.messages, u.messages.value) else s.messages,
      Replace(s.destination, u.destination),
      Replace(s.travelDates, u.travelDates),
      Replace(s.preferences, u.preferences),
      Replace(s.tripPlan, u.tripPlan),
      Replace(s.attractionsInfo, u.attractionsInfo),
      Replace(s.weatherInfo, u.weatherInfo),
      Replace(s.hotelInfo, u.hotelInfo),
      Replace(s.budget, u.budget),
      Replace(s.budgetStatus, u.budgetStatus),
      Replace(s.plannerFeedback, u.plannerFeedback),
      Replace(s.userFeedback, u.userFeedback),
      Replace(s.planningRetries, u.planningRetries))
  }

  /** Whether two states hold the same value for field `f`. */
  predicate SameField(a: TravelState, b: TravelState, f: Field)
  {
    match f
    case Transcript => a.messages == b.messages
    case Destination => a.destination == b.destination
    case TravelDates => a.travelDates == b.travelDates
    case Preferences => a.preferences == b.preferences
    case TripPlan => a.tripPlan == b.tripPlan
    case AttractionsInfo => a.attractionsInfo == b.attractionsInfo
    case WeatherInfo => a.weatherInfo == b.weatherInfo
    case HotelInfo => a.hotelInfo == b.hotelInfo
    case Budget => a.budget == b.budget
    case BudgetStatus => a.budgetStatus == b.budgetStatus
    case PlannerFeedback => a.plannerFeedback == b.plannerFeedback
    case UserFeedback => a.userFeedback == b.userFeedback
    case PlanningRetries => a.planningRetries == b.planningRetries
  }

  /** Every key an update omits keeps its value. */
  lemma OmittedKeysUnchanged(s: TravelState, u: Update, f: Field)
    requires f !in Keys(u)
    ensures SameField(s, Merge(s, u), f)
  {
  }

  /** The update that writes nothing leaves the state as it is. */
  lemma MergeNothing(s: TravelState)
    ensures Merge(s, Update()) == s
  {
  }

  /** The state before any step ran: an empty transcript and no other key. */
  function Initial(): TravelState
  {
    TravelState([], Absent, Absent, Absent, Absent, Absent, Absent, Absent, Absent,
                 Absent, Absent, Absent, Absent)
  }

  /** A step that returns the state it was given returns every key the state has. */
  function AsUpdate(s: TravelState): (u: Update)
    ensures Writes(u, Transcript)
  {
    Update(Present(s.messages), s.destination, s.travelDates, s.preferences, s.tripPlan,
           s.attractionsInfo, s.weatherInfo, s.hotelInfo, s.budget, s.budgetStatus,
           s.plannerFeedback, s.userFeedback, s.planningRetries)
  }

  /**
   * Returning the incoming state, as the failure paths of the steps do, leaves the
   * state unchanged: the transcript is merged by id, so it is not duplicated.
   */
  lemma MergeOwnState(s: TravelState)
    requires UniqueIds(s.messages)
    ensures Merge(s, AsUpdate(s)) == s
  {
    AddMessagesSelf(s.messages);
  }

  /** A one-message update with a new id appends that message to the transcript. */
  lemma MergeAppendsMessage(s: TravelState, m: Message)
    requires m.id !in Ids(s.messages)
    ensures Merge(s, Update(messages := Present([m]))).messages == s.messages + [m]
  {
    AppendsFresh(s.messages, m);
  }

  /** Merging keeps the transcript's ids unique. */
  lemma MergeKeepsUniqueIds(s: TravelState, u: Update)
    requires UniqueIds(s.messages)
    ensures UniqueIds(Merge(s, u).messages)
  {
    if u.messages.Present? {
      AddMessagesKeepsUnique(s.messages, u.messages.value);
    }
  }

  lemma NotBothWrite(u1: Update, u2: Update, f: Field)
    requires Keys(u1) !! Keys(u2)
    ensures !(Writes(u1, f) && Writes(u2, f))
  {
    assert Writes(u1, f) ==> f in Keys(u1);
    assert Writes(u2, f) ==> f in Keys(u2);
  }

  lemma ReplaceCommutes<T>(c: Key<T>, a: Key<T>, b: Key<T>)
    requires !(a.Present? && b.Present?)
    ensures Replace(Replace(c, a), b) == Replace(Replace(c, b), a)
  {
  }

  /**
   * Updates that write disjoint keys can be applied in either order: the three
   * fan-out siblings, which write `attractions_info`, `weather_info` and
   * `hotel_info` respectively, may be merged in any fixed order.
   */
  lemma DisjointUpdatesCommute(s: TravelState, u1: Update, u2: Update)
    requires Keys(u1) !! Keys(u2)
    ensures Merge(Merge(s, u1), u2) == Merge(Merge(s, u2), u1)
  {
    var a, b := Merge(Merge(s, u1), u2), Merge(Merge(s, u2), u1);
    assert a.messages == b.messages by { NotBothWrite(u1, u2, Transcript); }
    assert a.destination == b.destination by { NotBothWrite(u1, u2, Destination); }
    assert a.travelDates == b.travelDates by { NotBothWrite(u1, u2, TravelDates); }
    assert a.preferences == b.preferences by { NotBothWrite(u1, u2, Preferences); }
    assert a.tripPlan == b.tripPlan by { NotBothWrite(u1, u2, TripPlan); }
    assert a.attractionsInfo == b.attractionsInfo by { NotBothWrite(u1, u2, AttractionsInfo); }
    assert a.weatherInfo == b.weatherInfo by { NotBothWrite(u1, u2, WeatherInfo); }
    assert a.hotelInfo == b.hotelInfo by { NotBothWrite(u1, u2, HotelInfo); }
    assert a.budget == b.budget by { NotBothWrite(u1, u2, Budget); }
    assert a.budgetStatus == b.budgetStatus by { NotBothWrite(u1, u2, BudgetStatus); }
    assert a.plannerFeedback == b.plannerFeedback by { NotBothWrite(u1, u2, PlannerFeedback); }
    assert a.userFeedback == b.userFeedback by { NotBothWrite(u1, u2, UserFeedback); }
    assert a.planningRetries == b.planningRetries by { NotBothWrite(u1, u2, PlanningRetries); }
  }

  /** The record has the keys `messages`, `destination`, `travel_dates` and `preferences`, among others. */
  lemma RecordKeys()
    ensures {"messages", "destination", "travel_dates", "preferences", "trip_plan"} <= FieldNames()
  {
    assert KeyName(Transcript) in FieldNames();
    assert KeyName(Destination) in FieldNames();
    assert KeyName(TravelDates) in FieldNames();
    assert KeyName(Preferences) in FieldNames();
    assert KeyName(TripPlan) in FieldNames();
  }
}
