/**
 * The earlier planner prompt builder: a destination line, then dates and preferences
 * lines when truthy. It has no budget or feedback section.
 */
module LegacyPrompts {
  import opened PyValues
  import B = BackendPrompts

  const PlannerSystemPrompt: string :=
    "You are an expert travel assistant. Create a detailed travel itinerary "
    + "based on the user's destination, dates, and preferences. "
    + "Ensure the response follows the given schema."

  /** The sections the three-argument `get_planner_user_prompt` emits. */
  function PlannerSections(destination: PyValue, dates: PyValue, preferences: PyValue): seq<B.Section>
  {
    [B.Header(destination)]
    + B.Line(B.DatesLine, "Dates: ", dates)
    + B.Line(B.PreferencesLine, "Preferences: ", preferences)
  }

  /**
   * The earlier builder is the later one called without budget and feedback: it never
   * writes a budget or feedback section, and writes the dates and preferences lines
   * exactly when those are truthy.
   */
  lemma LaterBuilderWithoutBudgetOrFeedback(destination: PyValue, dates: PyValue, preferences: PyValue)
    ensures PlannerSections(destination, dates, preferences)
            == B.PlannerSections(destination, dates, PyNone, preferences, PyNone)
    ensures var secs := PlannerSections(destination, dates, preferences);
      && !B.HasKind(secs, B.BudgetLine) && !B.HasKind(secs, B.FeedbackBlock)
      && (B.HasKind(secs, B.DatesLine) <==> Truthy(dates))
      && (B.HasKind(secs, B.PreferencesLine) <==> Truthy(preferences))
  {
    var secs := PlannerSections(destination, dates, preferences);
    assert B.Line(B.BudgetLine, "Budget: ", PyNone) == [];
    assert B.Feedback(PyNone) == [];
    assert secs == B.PlannerSections(destination, dates, PyNone, preferences, PyNone);
    B.SectionPresence(destination, dates, PyNone, preferences, PyNone);
  }

  /** `get_planner_user_prompt` of the earlier module, appending each line in turn. */
  method GetPlannerUserPrompt(destination: PyValue, dates: PyValue, preferences: PyValue) returns (p: string)
    ensures p == B.Assemble(PlannerSections(destination, dates, preferences))
  {
    ghost var secs := [B.Header(destination)];
    p := "Destination: " + Str(destination) + "\n";
    assert p == B.Assemble(secs) by { assert secs[..0] == []; }
    ghost var next := B.Line(B.DatesLine, "Dates: ", dates);
    if Truthy(dates) {
      p := p + ("Dates: " + Str(dates) + "\n");
    }
    B.AssembleSnoc(secs, next, "Dates: " + Str(dates) + "\n");
    secs := secs + next;
    next := B.Line(B.PreferencesLine, "Preferences: ", preferences);
    if Truthy(preferences) {
      p := p + ("Preferences: " + Str(preferences) + "\n");
    }
    B.AssembleSnoc(secs, next, "Preferences: " + Str(preferences) + "\n");
    secs := secs + next;
  }
}
