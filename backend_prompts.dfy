/**
 * The planner's user prompt: a destination line followed by optional sections, each
 * present exactly when its argument is truthy, always in the order dates, budget,
 * preferences, feedback. The prompt is modelled as its list of sections and the
 * string they spell.
 */
module BackendPrompts {
  import opened PyValues

  const PlannerSystemPrompt: string :=
    "You are an expert travel assistant. Create a detailed travel itinerary "
    + "based on the user's destination, dates, and preferences. "
    + "Ensure the response follows the given schema. "
    + "Keep descriptions concise and to the point to ensure the full itinerary fits within the response limit."

  const InputExtractionSystemPrompt: string :=
    "You are a helpful travel assistant. Your goal is to extract travel details "
    + "from the conversation history. Extract the destination, travel dates, budget, and interests. "
    + "IMPORTANT: Convert all dates to YYYY-MM-DD format. If relative dates like 'next week' are used, "
    + "calculate them based on the current context or assume upcoming dates. "
    + "If any information is missing, leave it as null."

  const ResponseSystemPrompt: string :=
    "You are a helpful travel assistant. Your goal is to present the propose itinerary "
    + "to the user in an engaging and easy-to-read format. "
    + "Summarize the daily activities and highlight key experiences. "
    + "Be enthusiastic but concise."

  const FeedbackHeading: string := "IMPORTANT FEEDBACK FROM PREVIOUS ATTEMPT:\n"

  datatype SectionKind = DestinationLine | DatesLine | BudgetLine | PreferencesLine | FeedbackBlock

  /** The position of each kind of section in a prompt. */
  function Rank(k: SectionKind): nat
  {
    match k
    case DestinationLine => 0
    case DatesLine => 1
    case BudgetLine => 2
    case PreferencesLine => 3
    case FeedbackBlock => 4
  }

  datatype Section = Section(kind: SectionKind, text: string)

  /** The string a list of sections spells. */
  function Assemble(secs: seq<Section>): string
  {
    if secs == [] then "" else Assemble(secs[..|secs| - 1]) + secs[|secs| - 1].text
  }

  lemma {:induction false} AssembleAppend(a: seq<Section>, b: seq<Section>)
    ensures Assemble(a + b) == Assemble(a) + Assemble(b)
    decreases |b|
  {
    if b == [] {
      assert a + b == a;
    } else {
      assert (a + b)[..|a + b| - 1] == a + b[..|b| - 1];
      AssembleAppend(a, b[..|b| - 1]);
    }
  }

  predicate HasKind(secs: seq<Section>, k: SectionKind)
  {
    exists i :: 0 <= i < |secs| && secs[i].kind == k
  }

  function Header(destination: PyValue): Section
  {
    Section(DestinationLine, "Destination: " + Str(destination) + "\n")
  }

  /** A `label: value` line when the value is truthy, nothing otherwise. */
  function Line(kind: SectionKind, tag: string, v: PyValue): seq<Section>
  {
    if Truthy(v) then [Section(kind, tag + Str(v) + "\n")] else []
  }

  function Feedback(feedback: PyValue): seq<Section>
  {
    if Truthy(feedback) then [Section(FeedbackBlock, "\n" + FeedbackHeading + Str(feedback) + "\n")] else []
  }

  /** The sections `get_planner_user_prompt` emits for its five arguments. */
  function PlannerSections(destination: PyValue, dates: PyValue, budget: PyValue,
                           preferences: PyValue, feedback: PyValue): seq<Section>
  {
    [Header(destination)]
    + Line(DatesLine, "Dates: ", dates)
    + Line(BudgetLine, "Budget: ", budget)
    + Line(PreferencesLine, "Preferences: ", preferences)
    + Feedback(feedback)
  }

  lemma HasKindConcat(a: seq<Section>, b: seq<Section>, k: SectionKind)
    ensures HasKind(a + b, k) <==> HasKind(a, k) || HasKind(b, k)
  {
    if HasKind(a + b, k) {
      var i :| 0 <= i < |a + b| && (a + b)[i].kind == k;
      if i < |a| { assert a[i] == (a + b)[i]; } else { assert b[i - |a|] == (a + b)[i]; }
    }
    if HasKind(a, k) {
      var i :| 0 <= i < |a| && a[i].kind == k;
      assert (a + b)[i] == a[i];
    }
    if HasKind(b, k) {
      var i :| 0 <= i < |b| && b[i].kind == k;
      assert (a + b)[|a| + i] == b[i];
    }
  }

  lemma LineKind(kind: SectionKind, tag: string, v: PyValue, k: SectionKind)
    ensures HasKind(Line(kind, tag, v), k) <==> Truthy(v) && k == kind
  {
    if Truthy(v) { assert Line(kind, tag, v)[0].kind == kind; }
  }

  lemma ConcatKinds(h: seq<Section>, d: seq<Section>, b: seq<Section>, p: seq<Section>, f: seq<Section>,
                    k: SectionKind)
    ensures HasKind(h + d + b + p + f, k)
            <==> HasKind(h, k) || HasKind(d, k) || HasKind(b, k) || HasKind(p, k) || HasKind(f, k)
  {
    HasKindConcat(h, d, k);
    HasKindConcat(h + d, b, k);
    HasKindConcat(h + d + b, p, k);
    HasKindConcat(h + d + b + p, f, k);
  }

  /** Which kinds of section the prompt holds: the header always, each other kind when its argument is truthy. */
  lemma KindPresent(destination: PyValue, dates: PyValue, budget: PyValue,
                    preferences: PyValue, feedback: PyValue, k: SectionKind)
    ensures HasKind(PlannerSections(destination, dates, budget, preferences, feedback), k)
            <==> match k
                 case DestinationLine => true
                 case DatesLine => Truthy(dates)
                 case BudgetLine => Truthy(budget)
                 case PreferencesLine => Truthy(preferences)
                 case FeedbackBlock => Truthy(feedback)
  {
    var h := [Header(destination)];
    var d := Line(DatesLine, "Dates: ", dates);
    var b := Line(BudgetLine, "Budget: ", budget);
    var p := Line(PreferencesLine, "Preferences: ", preferences);
    var f := Feedback(feedback);
    assert HasKind(h, k) <==> k == DestinationLine by { assert h[0].kind == DestinationLine; }
    LineKind(DatesLine, "Dates: ", dates, k);
    LineKind(BudgetLine, "Budget: ", budget, k);
    LineKind(PreferencesLine, "Preferences: ", preferences, k);
    assert HasKind(f, k) <==> Truthy(feedback) && k == FeedbackBlock by {
      if Truthy(feedback) { assert f[0].kind == FeedbackBlock; }
    }
    ConcatKinds(h, d, b, p, f, k);
  }

  /** Each optional section is there exactly when its argument is truthy; the destination line always is. */
  lemma SectionPresence(destination: PyValue, dates: PyValue, budget: PyValue,
                        preferences: PyValue, feedback: PyValue)
    ensures var secs := PlannerSections(destination, dates, budget, preferences, feedback);
      && HasKind(secs, DestinationLine)
      && (HasKind(secs, DatesLine) <==> Truthy(dates))
      && (HasKind(secs, BudgetLine) <==> Truthy(budget))
      && (HasKind(secs, PreferencesLine) <==> Truthy(preferences))
      && (HasKind(secs, FeedbackBlock) <==> Truthy(feedback))
  {
    KindPresent(destination, dates, budget, preferences, feedback, DestinationLine);
    KindPresent(destination, dates, budget, preferences, feedback, DatesLine);
    KindPresent(destination, dates, budget, preferences, feedback, BudgetLine);
    KindPresent(destination, dates, budget, preferences, feedback, PreferencesLine);
    KindPresent(destination, dates, budget, preferences, feedback, FeedbackBlock);
  }

  predicate Ordered(secs: seq<Section>)
  {
    forall i, j :: 0 <= i < j < |secs| ==> Rank(secs[i].kind) < Rank(secs[j].kind)
  }

  /** Appending at most one section of rank `r` after sections of lower rank keeps the order. */
  lemma OrderedSnoc(a: seq<Section>, x: seq<Section>, r: nat)
    requires Ordered(a) && forall i :: 0 <= i < |a| ==> Rank(a[i].kind) < r
    requires |x| <= 1 && (x != [] ==> Rank(x[0].kind) == r)
    ensures Ordered(a + x) && forall i :: 0 <= i < |a + x| ==> Rank((a + x)[i].kind) <= r
  {
    if x == [] {
      assert a + x == a;
    } else {
      assert forall i :: 0 <= i < |a| ==> (a + x)[i] == a[i];
      assert (a + x)[|a|] == x[0];
    }
  }

  lemma OrderedParts(h: seq<Section>, d: seq<Section>, b: seq<Section>, p: seq<Section>, f: seq<Section>)
    requires |h| == 1 && Rank(h[0].kind) == 0
    requires |d| <= 1 && (d != [] ==> Rank(d[0].kind) == 1)
    requires |b| <= 1 && (b != [] ==> Rank(b[0].kind) == 2)
    requires |p| <= 1 && (p != [] ==> Rank(p[0].kind) == 3)
    requires |f| <= 1 && (f != [] ==> Rank(f[0].kind) == 4)
    ensures Ordered(h + d + b + p + f)
  {
    OrderedSnoc(h, d, 1);
    OrderedSnoc(h + d, b, 2);
    OrderedSnoc(h + d + b, p, 3);
    OrderedSnoc(h + d + b + p, f, 4);
  }

  /** The sections come in the fixed order destination, dates, budget, preferences, feedback. */
  lemma SectionsInOrder(destination: PyValue, dates: PyValue, budget: PyValue,
                        preferences: PyValue, feedback: PyValue)
    ensures var secs := PlannerSections(destination, dates, budget, preferences, feedback);
      && secs[0] == Header(destination)
      && Ordered(secs)
  {
    var h := [Header(destination)];
    var d := Line(DatesLine, "Dates: ", dates);
    var b := Line(BudgetLine, "Budget: ", budget);
    var p := Line(PreferencesLine, "Preferences: ", preferences);
    var f := Feedback(feedback);
    assert |d| <= 1 && (d != [] ==> Rank(d[0].kind) == 1);
    assert |b| <= 1 && (b != [] ==> Rank(b[0].kind) == 2);
    assert |p| <= 1 && (p != [] ==> Rank(p[0].kind) == 3);
    assert |f| <= 1 && (f != [] ==> Rank(f[0].kind) == 4);
    assert Rank(h[0].kind) == 0;
    OrderedParts(h, d, b, p, f);
    assert (h + d + b + p + f)[0] == h[0];
  }

  predicate NewlineTerminated(secs: seq<Section>)
  {
    forall i :: 0 <= i < |secs| ==> secs[i].text != "" && secs[i].text[|secs[i].text| - 1] == '\n'
  }

  lemma TerminatedAppend(a: seq<Section>, b: seq<Section>)
    requires NewlineTerminated(a) && NewlineTerminated(b)
    ensures NewlineTerminated(a + b)
  {
    forall i | 0 <= i < |a + b|
      ensures (a + b)[i].text != "" && (a + b)[i].text[|(a + b)[i].text| - 1] == '\n'
    {
      if i < |a| { assert (a + b)[i] == a[i]; } else { assert (a + b)[i] == b[i - |a|]; }
    }
  }

  lemma TerminatedSections(destination: PyValue, dates: PyValue, budget: PyValue,
                           preferences: PyValue, feedback: PyValue)
    ensures NewlineTerminated(PlannerSections(destination, dates, budget, preferences, feedback))
  {
    var h := [Header(destination)];
    var d := Line(DatesLine, "Dates: ", dates);
    var b := Line(BudgetLine, "Budget: ", budget);
    var p := Line(PreferencesLine, "Preferences: ", preferences);
    var f := Feedback(feedback);
    assert NewlineTerminated(h) by { var t := h[0].text; assert t[|t| - 1] == '\n'; }
    assert NewlineTerminated(d) by { if d != [] { var t := d[0].text; assert t[|t| - 1] == '\n'; } }
    assert NewlineTerminated(b) by { if b != [] { var t := b[0].text; assert t[|t| - 1] == '\n'; } }
    assert NewlineTerminated(p) by { if p != [] { var t := p[0].text; assert t[|t| - 1] == '\n'; } }
    assert NewlineTerminated(f) by { if f != [] { var t := f[0].text; assert t[|t| - 1] == '\n'; } }
    TerminatedAppend(h, d);
    TerminatedAppend(h + d, b);
    TerminatedAppend(h + d + b, p);
    TerminatedAppend(h + d + b + p, f);
  }

  /** Newline-terminated sections spell a string that ends in a newline. */
  lemma AssembleEndsWithNewline(secs: seq<Section>)
    requires secs != [] && NewlineTerminated(secs)
    ensures var s := Assemble(secs); s != "" && s[|s| - 1] == '\n'
  {
    var last := secs[|secs| - 1].text;
    var rest := Assemble(secs[..|secs| - 1]);
    assert Assemble(secs) == rest + last;
    assert (rest + last)[|rest + last| - 1] == last[|last| - 1];
  }

  /** Every section of the planner prompt ends in a newline, so the prompt does too. */
  lemma EndsWithNewline(destination: PyValue, dates: PyValue, budget: PyValue,
                        preferences: PyValue, feedback: PyValue)
    ensures var p := Assemble(PlannerSections(destination, dates, budget, preferences, feedback));
      p != "" && p[|p| - 1] == '\n'
  {
    TerminatedSections(destination, dates, budget, preferences, feedback);
    AssembleEndsWithNewline(PlannerSections(destination, dates, budget, preferences, feedback));
  }

  /** The prompt always begins with the destination line. */
  lemma StartsWithDestination(destination: PyValue, dates: PyValue, budget: PyValue,
                              preferences: PyValue, feedback: PyValue)
    ensures Header(destination).text <= Assemble(PlannerSections(destination, dates, budget, preferences, feedback))
  {
    var secs := PlannerSections(destination, dates, budget, preferences, feedback);
    AssembleAppend([Header(destination)], secs[1..]);
    assert [Header(destination)] + secs[1..] == secs;
    assert Assemble([Header(destination)]) == Header(destination).text;
  }

  /** With every optional argument falsy the prompt is the destination line alone. */
  lemma BareDestination(destination: PyValue, dates: PyValue, budget: PyValue,
                        preferences: PyValue, feedback: PyValue)
    requires !Truthy(dates) && !Truthy(budget) && !Truthy(preferences) && !Truthy(feedback)
    ensures Assemble(PlannerSections(destination, dates, budget, preferences, feedback))
            == "Destination: " + Str(destination) + "\n"
  {
    assert PlannerSections(destination, dates, budget, preferences, feedback) == [Header(destination)];
  }

  /** A block appended after newline-terminated sections follows a newline. */
  lemma AfterNewline(earlier: seq<Section>, block: Section)
    requires earlier != [] && NewlineTerminated(earlier)
    ensures exists before: string :: Assemble(earlier + [block]) == before + "\n" + block.text
  {
    AssembleEndsWithNewline(earlier);
    var e := Assemble(earlier);
    var before := e[..|e| - 1];
    assert e == before + "\n";
    assert (earlier + [block])[..|earlier + [block]| - 1] == earlier;
    assert Assemble(earlier + [block]) == before + "\n" + block.text;
  }

  /** The feedback block closes the prompt and is preceded by a blank line. */
  lemma FeedbackAfterBlankLine(destination: PyValue, dates: PyValue, budget: PyValue,
                               preferences: PyValue, feedback: PyValue)
    requires Truthy(feedback)
    ensures exists before: string ::
      Assemble(PlannerSections(destination, dates, budget, preferences, feedback))
      == before + "\n" + ("\n" + FeedbackHeading + Str(feedback) + "\n")
  {
    var earlier := PlannerSections(destination, dates, budget, preferences, PyNone);
    var block := Section(FeedbackBlock, "\n" + FeedbackHeading + Str(feedback) + "\n");
    assert PlannerSections(destination, dates, budget, preferences, feedback) == earlier + [block];
    TerminatedSections(destination, dates, budget, preferences, PyNone);
    AfterNewline(earlier, block);
  }

  lemma AssembleSnoc(secs: seq<Section>, extra: seq<Section>, text: string)
    requires extra == [] || (|extra| == 1 && extra[0].text == text)
    ensures Assemble(secs + extra) == if extra == [] then Assemble(secs) else Assemble(secs) + text
  {
    if extra == [] {
      assert secs + extra == secs;
    } else {
      assert (secs + extra)[..|secs + extra| - 1] == secs;
    }
  }

  /** One `if v: user_prompt += ...` step: the section's text is appended exactly when it is emitted. */
  method AppendIf(p: string, ghost secs: seq<Section>, emit: bool, text: string, ghost next: seq<Section>)
    returns (q: string)
    requires p == Assemble(secs)
    requires if emit then |next| == 1 && next[0].text == text else next == []
    ensures q == Assemble(secs + next)
  {
    q := p;
    if emit {
      q := q + text;
    }
    AssembleSnoc(secs, next, text);
  }

  /** `get_planner_user_prompt`: the prompt is built by appending each section in turn. */
  method GetPlannerUserPrompt(destination: PyValue, dates: PyValue, budget: PyValue,
                              preferences: PyValue, feedback: PyValue) returns (p: string)
    ensures p == Assemble(PlannerSections(destination, dates, budget, preferences, feedback))
  {
    ghost var h := [Header(destination)];
    p := "Destination: " + Str(destination) + "\n";
    assert p == Assemble(h) by { assert h[..0] == []; }
    ghost var d := Line(DatesLine, "Dates: ", dates);
    p := AppendIf(p, h, Truthy(dates), "Dates: " + Str(dates) + "\n", d);
    ghost var b := Line(BudgetLine, "Budget: ", budget);
    p := AppendIf(p, h + d, Truthy(budget), "Budget: " + Str(budget) + "\n", b);
    ghost var pr := Line(PreferencesLine, "Preferences: ", preferences);
    p := AppendIf(p, h + d + b, Truthy(preferences), "Preferences: " + Str(preferences) + "\n", pr);
    ghost var f := Feedback(feedback);
    p := AppendIf(p, h + d + b + pr, Truthy(feedback), "\n" + FeedbackHeading + Str(feedback) + "\n", f);
  }
}
