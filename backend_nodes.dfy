/**
 * The three steps of the backend graph whose bodies are known: input extraction,
 * itinerary planning and the final response. Each language-model call is a function
 * parameter taking the system prompt and the user prompt; a call that raises is an
 * `Err` result. Extraction and planning catch that error and return the incoming
 * state; the response step lets it propagate. A step returns a partial update of the
 * state record.
 */
module BackendNodes {
  import opened Wrappers
  import opened Text
  import opened PyValues
  import opened Messages
  import opened Schemas
  import opened BackendState
  import P = BackendPrompts

  /** The structured record the extraction call returns. */
  datatype Extraction = Extraction(
    destination: Option<string>,
    startDate: Option<string>,
    endDate: Option<string>,
    interests: Option<seq<string>>,
    budget: Option<string>)

  /** Truthiness of an optional string: present and non-empty. */
  predicate Filled(o: Option<string>)
  {
    o.Some? && o.value != ""
  }

  /** The transcript as `type: content` lines. */
  function History(msgs: seq<Message>): (r: string)
    ensures msgs == [] ==> r == ""
    ensures |msgs| == 1 ==> r == TypeName(msgs[0].role) + ": " + msgs[0].content
  {
    Join(seq(|msgs|, i requires 0 <= i < |msgs| => TypeName(msgs[i].role) + ": " + msgs[i].content), "\n")
  }

  function ExtractionPrompt(s: TravelState): string
  {
    "Conversation History:\n" + History(s.messages)
  }

  function DatesValue(start: string, end: string): PyValue
  {
    PyDict([("start", PyStr(start)), ("end", PyStr(end))])
  }

  function InterestsValue(interests: seq<string>): PyValue
  {
    PyDict([("interests", StrList(interests))])
  }

  /**
   * The update built from an extraction: `destination` when the extracted one is
   * non-empty, `travel_dates` when both dates are, `preferences` when the interests
   * are, and no other key; the extracted budget is never stored.
   */
  function ExtractedUpdate(e: Extraction): (u: Update)
    ensures Keys(u) <= {Destination, TravelDates, Preferences}
    ensures Writes(u, Destination) <==> Filled(e.destination)
    ensures Writes(u, TravelDates) <==> Filled(e.startDate) && Filled(e.endDate)
    ensures Writes(u, Preferences) <==> e.interests.Some? && e.interests.value != []
    ensures Filled(e.destination) ==> u.destination == Present(Some(e.destination.value))
    ensures Filled(e.startDate) && Filled(e.endDate) ==>
              u.travelDates == Present(DatesValue(e.startDate.value, e.endDate.value))
    ensures e.interests.Some? && e.interests.value != [] ==>
              u.preferences == Present(InterestsValue(e.interests.value))
  {
    var u := Update(
      destination := if Filled(e.destination) then Present(Some(e.destination.value)) else Absent,
      travelDates := if Filled(e.startDate) && Filled(e.endDate)
                     then Present(DatesValue(e.startDate.value, e.endDate.value)) else Absent,
      preferences := if e.interests.Some? && e.interests.value != []
                     then Present(InterestsValue(e.interests.value)) else Absent);
    assert forall f :: f in Keys(u) ==> f in {Destination, TravelDates, Preferences} by {
      forall f | f in Keys(u) ensures f in {Destination, TravelDates, Preferences} {
        assert Writes(u, f);
      }
    }
    u
  }

  /** What `process_input` returns: the extracted keys, or the incoming state when the call fails. */
  function ProcessInputUpdate(s: TravelState, extract: (string, string) -> Result<Extraction>): Update
  {
    match extract(P.InputExtractionSystemPrompt, ExtractionPrompt(s))
    case Ok(e) => ExtractedUpdate(e)
    case Err(_) => AsUpdate(s)
  }

  /** `process_input`: the update dict is filled one key at a time. */
  method ProcessInput(s: TravelState, extract: (string, string) -> Result<Extraction>) returns (u: Update)
    ensures u == ProcessInputUpdate(s, extract)
  {
    var history := History(s.messages);
    var reply := extract(P.InputExtractionSystemPrompt, "Conversation History:\n" + history);
    if reply.Err? {
      return AsUpdate(s);
    }
    var e := reply.value;
    u := Update();
    if Filled(e.destination) {
      u := u.(destination := Present(Some(e.destination.value)));
    }
    if Filled(e.startDate) && Filled(e.endDate) {
      u := u.(travelDates := Present(DatesValue(e.startDate.value, e.endDate.value)));
    }
    if e.interests.Some? && e.interests.value != [] {
      u := u.(preferences := Present(InterestsValue(e.interests.value)));
    }
  }

  /** A failed extraction leaves the state exactly as it was. */
  lemma ProcessInputFailureKeepsState(s: TravelState, extract: (string, string) -> Result<Extraction>)
    requires extract(P.InputExtractionSystemPrompt, ExtractionPrompt(s)).Err?
    requires UniqueIds(s.messages)
    ensures Merge(s, ProcessInputUpdate(s, extract)) == s
  {
    MergeOwnState(s);
  }

  /** A successful extraction changes nothing but `destination`, `travel_dates` and `preferences`. */
  lemma ProcessInputTouchesOnlyExtractedKeys(s: TravelState, extract: (string, string) -> Result<Extraction>, f: Field)
    requires extract(P.InputExtractionSystemPrompt, ExtractionPrompt(s)).Ok?
    requires f !in {Destination, TravelDates, Preferences}
    ensures SameField(s, Merge(s, ProcessInputUpdate(s, extract)), f)
  {
    var u := ProcessInputUpdate(s, extract);
    assert f !in Keys(u);
    OmittedKeysUnchanged(s, u, f);
  }

  /** The destination both planner steps, this one and the earlier one, fall back on. */
  const DefaultDestination: PyValue := PyStr("determined by the AI")

  /**
   * The planner prompt as the step builds it: the preferences are passed as the third
   * positional argument, which is the builder's `budget` parameter.
   */
  function PlannerPromptAsWritten(s: TravelState): seq<P.Section>
  {
    P.PlannerSections(GetStr(s.destination, DefaultDestination), GetDict(s.travelDates), GetDict(s.preferences), PyNone, PyNone)
  }

  /** The planner prompt with every argument in its own slot, budget and feedback included. */
  function PlannerPromptIntended(s: TravelState): seq<P.Section>
  {
    P.PlannerSections(GetStr(s.destination, DefaultDestination), GetDict(s.travelDates), GetStr(s.budget, PyNone),
                      GetDict(s.preferences), GetStr(s.plannerFeedback, PyNone))
  }

  function PlanUpdate(s: TravelState, reply: Result<Trip>): (u: Update)
    ensures reply.Ok? ==> u == Update(tripPlan := Present(Some(reply.value)))
    ensures reply.Err? ==> u == AsUpdate(s)
  {
    match reply
    case Ok(plan) => Update(tripPlan := Present(Some(plan)))
    case Err(_) => AsUpdate(s)
  }

  /** `plan_itinerary` as written. */
  function PlanItinerary(s: TravelState, planner: (string, string) -> Result<Trip>): Update
  {
    PlanUpdate(s, planner(P.PlannerSystemPrompt, P.Assemble(PlannerPromptAsWritten(s))))
  }

  /** `plan_itinerary` with the prompt arguments passed by keyword. */
  function PlanItineraryIntended(s: TravelState, planner: (string, string) -> Result<Trip>): Update
  {
    PlanUpdate(s, planner(P.PlannerSystemPrompt, P.Assemble(PlannerPromptIntended(s))))
  }

  /**
   * A successful plan writes exactly `trip_plan`; a failed one leaves the state as it was.
   */
  lemma PlanItineraryOutcome(s: TravelState, planner: (string, string) -> Result<Trip>)
    ensures var reply := planner(P.PlannerSystemPrompt, P.Assemble(PlannerPromptAsWritten(s)));
      && (reply.Ok? ==> Keys(PlanItinerary(s, planner)) == {TripPlan}
                        && Merge(s, PlanItinerary(s, planner)).tripPlan == Present(Some(reply.value)))
      && (reply.Err? && UniqueIds(s.messages) ==> Merge(s, PlanItinerary(s, planner)) == s)
  {
    var reply := planner(P.PlannerSystemPrompt, P.Assemble(PlannerPromptAsWritten(s)));
    if reply.Ok? {
      var u := PlanItinerary(s, planner);
      assert Writes(u, TripPlan);
      assert forall f :: f in Keys(u) ==> f == TripPlan by {
        forall f | f in Keys(u) ensures f == TripPlan { assert Writes(u, f); }
      }
    } else if UniqueIds(s.messages) {
      MergeOwnState(s);
    }
  }

  /**
   * As written, the planner prompt never carries a feedback or preferences section,
   * and it has a budget line exactly when the stored preferences are truthy.
   */
  lemma PlannerPromptDropsFeedback(s: TravelState)
    ensures var secs := PlannerPromptAsWritten(s);
      && !P.HasKind(secs, P.FeedbackBlock)
      && !P.HasKind(secs, P.PreferencesLine)
      && (P.HasKind(secs, P.BudgetLine) <==> Truthy(GetDict(s.preferences)))
  {
    P.SectionPresence(GetStr(s.destination, DefaultDestination), GetDict(s.travelDates), GetDict(s.preferences), PyNone, PyNone);
  }

  /** With the arguments in their slots, stored feedback always reaches the prompt. */
  lemma IntendedPromptCarriesFeedback(s: TravelState)
    ensures var secs := PlannerPromptIntended(s);
      && (P.HasKind(secs, P.FeedbackBlock) <==> s.plannerFeedback.Present? && Filled(s.plannerFeedback.value))
      && (P.HasKind(secs, P.PreferencesLine) <==> Truthy(GetDict(s.preferences)))
      && (P.HasKind(secs, P.BudgetLine) <==> s.budget.Present? && Filled(s.budget.value))
  {
    P.SectionPresence(GetStr(s.destination, DefaultDestination), GetDict(s.travelDates), GetStr(s.budget, PyNone),
                      GetDict(s.preferences), GetStr(s.plannerFeedback, PyNone));
  }

  /** A retry state: a budget, feedback from the failed attempt and an interest. */
  function RetryState(): TravelState
  {
    Merge(Initial(), Update(
      destination := Present(Some("Paris")),
      preferences := Present(InterestsValue(["art"])),
      budget := Present(Some("500")),
      plannerFeedback := Present(Some("Over budget"))))
  }

  /**
   * On a retry with feedback, the prompt as written has no feedback block and prints the
   * preferences as the budget, while the intended prompt carries the feedback.
   */
  lemma RetryPromptLosesFeedback()
    ensures var secs := PlannerPromptAsWritten(RetryState());
      && !P.HasKind(secs, P.FeedbackBlock)
      && P.Assemble(secs) == "Destination: Paris\nBudget: {'interests': ['art']}\n"
    ensures P.HasKind(PlannerPromptIntended(RetryState()), P.FeedbackBlock)
  {
    var s := RetryState();
    PlannerPromptDropsFeedback(s);
    IntendedPromptCarriesFeedback(s);
    DictReprExample();
    assert GetDict(s.preferences) == InterestsValue(["art"]);
    assert Truthy(InterestsValue(["art"]));
    var secs := PlannerPromptAsWritten(s);
    assert GetStr(s.destination, DefaultDestination) == PyStr("Paris");
    assert GetDict(s.travelDates) == PyDict([]);
    assert P.Line(P.DatesLine, "Dates: ", PyDict([])) == [];
    var t := Str(InterestsValue(["art"]));
    assert t == "{'interests': ['art']}";
    BudgetLineText(t);
    assert P.Line(P.BudgetLine, "Budget: ", InterestsValue(["art"]))
        == [P.Section(P.BudgetLine, "Budget: {'interests': ['art']}\n")];
    assert P.Line(P.PreferencesLine, "Preferences: ", PyNone) == [];
    assert P.Feedback(PyNone) == [];
    assert secs == [P.Header(PyStr("Paris")), P.Section(P.BudgetLine, "Budget: {'interests': ['art']}\n")];
    assert P.Assemble(secs[..1]) == "Destination: Paris\n" by { assert secs[..1][..0] == []; }
    assert secs[..|secs| - 1] == secs[..1];
    RetryPromptText(P.Assemble(secs[..1]), secs[1].text);
  }

  /*
   * The two string equations of the example, stated apart: proved inside the lemma
   * above, with its whole context in scope, they exceed the resource limit.
   */
  lemma BudgetLineText(t: string)
    requires t == "{'interests': ['art']}"
    ensures "Budget: " + t + "\n" == "Budget: {'interests': ['art']}\n"
  {
  }

  lemma RetryPromptText(a: string, b: string)
    requires a == "Destination: Paris\n" && b == "Budget: {'interests': ['art']}\n"
    ensures a + b == "Destination: Paris\nBudget: {'interests': ['art']}\n"
  {
  }

  const Apology: string := "I'm sorry, I couldn't generate a travel plan for you at this time."

  /**
   * `generate_response`: the fixed apology when there is no plan, otherwise the model's
   * reply to the plan's JSON. `freshId` is the id the apology receives when merged;
   * `dumpJson` is the plan's JSON rendering. Unlike the other two steps, this one does
   * not catch a failing model call: an `Err` from `respond` is an exception that leaves
   * the step, and so the whole invocation, with no update.
   */
  function GenerateResponse(s: TravelState, freshId: string, dumpJson: Trip -> string,
                            respond: (string, string) -> Result<Message>): (r: Result<Update>)
    ensures r.Ok? ==> Keys(r.value) == {Transcript} && r.value.messages.Present? && |r.value.messages.value| == 1
    ensures (s.tripPlan.Absent? || s.tripPlan == Present(None)) ==>
              r.Ok? && r.value.messages.value[0] == Message(freshId, AI, Apology)
    ensures s.tripPlan.Present? && s.tripPlan.value.Some? ==>
              var reply := respond(P.ResponseSystemPrompt, "Here is the trip plan:\n" + dumpJson(s.tripPlan.value.value));
              (reply.Ok? ==> r.Ok? && r.value.messages.value[0] == reply.value)
              && (reply.Err? ==> r == Err(reply.error))
  {
    if s.tripPlan.Present? && s.tripPlan.value.Some? then
      match respond(P.ResponseSystemPrompt, "Here is the trip plan:\n" + dumpJson(s.tripPlan.value.value))
      case Err(e) => Err(e)
      case Ok(m) => Ok(MessageUpdate(m))
    else
      Ok(MessageUpdate(Message(freshId, AI, Apology)))
  }

  /** The update `{"messages": [m]}`. */
  function MessageUpdate(m: Message): (u: Update)
    ensures Keys(u) == {Transcript} && u.messages == Present([m])
  {
    var u := Update(messages := Present([m]));
    assert Writes(u, Transcript);
    assert forall f :: f in Keys(u) ==> f == Transcript by {
      forall f | f in Keys(u) ensures f == Transcript { assert Writes(u, f); }
    }
    u
  }

  /** A response that was produced is appended to the transcript, and nothing else changes. */
  lemma ResponseAppended(s: TravelState, freshId: string, dumpJson: Trip -> string,
                         respond: (string, string) -> Result<Message>)
    requires GenerateResponse(s, freshId, dumpJson, respond).Ok?
    requires GenerateResponse(s, freshId, dumpJson, respond).value.messages.value[0].id !in Ids(s.messages)
    ensures var u := GenerateResponse(s, freshId, dumpJson, respond).value;
      var r := Merge(s, u);
      && r.messages == s.messages + [u.messages.value[0]]
      && r.(messages := s.messages) == s
  {
    var u := GenerateResponse(s, freshId, dumpJson, respond).value;
    MergeAppendsMessage(s, u.messages.value[0]);
    assert u == Update(messages := Present([u.messages.value[0]]));
  }
}
