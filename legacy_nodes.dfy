/**
 * The earlier graph's steps: input processing and the response are placeholders that
 * hand back the state they receive; the planner calls the model with the
 * three-argument prompt and returns the plan under `trip_plan`.
 */
module LegacyNodes {
  import opened Wrappers
  import opened PyValues
  import opened Messages
  import opened Schemas
  import opened LegacyState
  import P = BackendPrompts
  import LegacyPrompts
  import BackendNodes

  /** What a step returns: the state it was given, or a dict holding only `trip_plan`. */
  datatype StepResult = ReturnedState(state: TravelState) | TripPlanUpdate(plan: Trip)

  /** `process_input`: returns its input. */
  function ProcessInput(s: TravelState): (r: StepResult)
    ensures r == ReturnedState(s)
  {
    ReturnedState(s)
  }

  /** `generate_response`: returns its input. */
  function GenerateResponse(s: TravelState): (r: StepResult)
    ensures r == ReturnedState(s)
  {
    ReturnedState(s)
  }

  /** Handing back the state, merged as an update, changes nothing. */
  lemma PlaceholdersChangeNothing(s: TravelState)
    requires UniqueIds(s.messages)
    ensures Merge(s, AsUpdate(ProcessInput(s).state)) == s
    ensures Merge(s, AsUpdate(GenerateResponse(s).state)) == s
  {
    MergeOwnState(s);
  }

  function PlannerPrompt(s: TravelState): seq<P.Section>
  {
    LegacyPrompts.PlannerSections(GetStr(s.destination, BackendNodes.DefaultDestination), GetDict(s.travelDates), GetDict(s.preferences))
  }

  /** `plan_itinerary`: the plan on success, the incoming state when the call fails. */
  function PlanItinerary(s: TravelState, planner: (string, string) -> Result<Trip>): (r: StepResult)
    ensures var reply := planner(LegacyPrompts.PlannerSystemPrompt, P.Assemble(PlannerPrompt(s)));
      && (reply.Ok? ==> r == TripPlanUpdate(reply.value))
      && (reply.Err? ==> r == ReturnedState(s))
  {
    match planner(LegacyPrompts.PlannerSystemPrompt, P.Assemble(PlannerPrompt(s)))
    case Ok(plan) => TripPlanUpdate(plan)
    case Err(_) => ReturnedState(s)
  }

  /**
   * Here the preferences reach the prompt's preferences line: it is present exactly
   * when the stored preferences are truthy, and there is no budget line.
   */
  lemma PreferencesInTheirSlot(s: TravelState)
    ensures var secs := PlannerPrompt(s);
      && (P.HasKind(secs, P.PreferencesLine) <==> Truthy(GetDict(s.preferences)))
      && (P.HasKind(secs, P.DatesLine) <==> Truthy(GetDict(s.travelDates)))
      && !P.HasKind(secs, P.BudgetLine)
  {
    LegacyPrompts.LaterBuilderWithoutBudgetOrFeedback(GetStr(s.destination, BackendNodes.DefaultDestination), GetDict(s.travelDates), GetDict(s.preferences));
  }

  /** The key the planner writes is not one of this record's keys. */
  lemma TripPlanIsNotAKeyOfThisRecord()
    ensures "trip_plan" !in FieldNames()
  {
  }
}
