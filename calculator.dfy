/**
 * Budget arithmetic over trip plans: turning a free-text cost into an amount and
 * summing the amounts of every activity of every day. Amounts are exact reals;
 * digits are the ASCII digits.
 */
module Calculator {
  import opened Wrappers
  import opened Schemas

  predicate IsDigit(c: char) { '0' <= c <= '9' }

  /** The characters `[\d.]` the cleaning step keeps. */
  predicate IsCostChar(c: char) { IsDigit(c) || c == '.' }

  /** `re.sub(r'[^\d.]', '', s)`: the digits and dots of `s`, in their original order. */
  function Clean(s: string): (r: string)
    ensures |r| <= |s|
    ensures forall i :: 0 <= i < |r| ==> IsCostChar(r[i])
  {
    if s == [] then [] else (if IsCostChar(s[0]) then [s[0]] else []) + Clean(s[1..])
  }

  lemma {:induction false} CleanAppend(a: string, b: string)
    ensures Clean(a + b) == Clean(a) + Clean(b)
  {
    if a == [] {
      assert a + b == b;
    } else {
      assert (a + b)[1..] == a[1..] + b;
      CleanAppend(a[1..], b);
    }
  }

  /** A string made only of digits and dots comes through cleaning unchanged. */
  lemma {:induction false} CleanKeepsCostChars(s: string)
    requires forall i :: 0 <= i < |s| ==> IsCostChar(s[i])
    ensures Clean(s) == s
  {
    if s != [] {
      CleanKeepsCostChars(s[1..]);
    }
  }

  /** A string with no digit and no dot cleans to the empty string. */
  lemma {:induction false} CleanDropsNoise(s: string)
    requires forall i :: 0 <= i < |s| ==> !IsCostChar(s[i])
    ensures Clean(s) == ""
  {
    if s != [] {
      CleanDropsNoise(s[1..]);
    }
  }

  /** Cleaning is idempotent. */
  lemma CleanIdempotent(s: string)
    ensures Clean(Clean(s)) == Clean(s)
  {
    CleanKeepsCostChars(Clean(s));
  }

  function DotCount(t: string): nat
  {
    if t == [] then 0 else (if t[0] == '.' then 1 else 0) + DotCount(t[1..])
  }

  /**
   * Whether Python's `float` accepts a string of digits and dots: at least one digit
   * and at most one dot ("5.", ".5" and "5" are accepted, "", "." and "1.2.3" are not).
   */
  predicate ValidDecimal(t: string)
  {
    DotCount(t) <= 1 && exists i :: 0 <= i < |t| && IsDigit(t[i])
  }

  /** The index of the first dot of `t`, or `|t|` when there is none. */
  function DotIndex(t: string): (k: nat)
    ensures k <= |t|
    ensures forall i :: 0 <= i < k ==> t[i] != '.'
    ensures k < |t| ==> t[k] == '.'
  {
    if t == [] || t[0] == '.' then 0 else 1 + DotIndex(t[1..])
  }

  /** The number a string of decimal digits denotes (0 for the empty string). */
  function DigitsValue(ds: string): nat
  {
    if ds == [] then 0
    else
      var last := ds[|ds| - 1];
      DigitsValue(ds[..|ds| - 1]) * 10 + (if IsDigit(last) then (last as int - '0' as int) else 0)
  }

  function Pow10(n: nat): (r: nat)
    ensures r >= 1
  {
    if n == 0 then 1 else 10 * Pow10(n - 1)
  }

  /** The exact value of a decimal literal `int.frac`, either part possibly empty. */
  function DecimalValue(t: string): real
  {
    var k := DotIndex(t);
    var whole := DigitsValue(t[..k]) as real;
    if k == |t| then whole
    else whole + DigitsValue(t[k + 1..]) as real / Pow10(|t| - k - 1) as real
  }

  /**
   * `parse_cost`: `None` and `""` cost nothing; otherwise the cleaned string is read
   * as a decimal, and a string `float` would reject costs nothing too.
   */
  function ParseCost(cost: Option<string>): (r: real)
    ensures r >= 0.0
    ensures cost == None || cost == Some("") ==> r == 0.0
    ensures cost.Some? && !ValidDecimal(Clean(cost.value)) ==> r == 0.0
    ensures cost.Some? && ValidDecimal(Clean(cost.value)) ==> r == DecimalValue(Clean(cost.value))
  {
    match cost
    case None => 0.0
    case Some(s) =>
      if s == "" then 0.0
      else
        var cleaned := Clean(s);
        if ValidDecimal(cleaned) then DecimalValue(cleaned) else 0.0
  }

  /** Characters other than digits and dots never change the parsed cost. */
  lemma NoiseInsensitive(a: string, c: char, b: string)
    requires !IsCostChar(c)
    ensures ParseCost(Some(a + [c] + b)) == ParseCost(Some(a + b))
  {
    assert [c][1..] == [];
    assert Clean([c]) == [];
    CleanAppend(a, [c]);
    CleanAppend(a + [c], b);
    CleanAppend(a, b);
    assert Clean(a + [c] + b) == Clean(a + b);
  }

  /** The decimal digits of `n`, most significant first. */
  function NatDigits(n: nat): (ds: string)
    ensures ds != []
    ensures forall i :: 0 <= i < |ds| ==> IsDigit(ds[i])
  {
    if n < 10 then [('0' as int + n) as char]
    else NatDigits(n / 10) + [('0' as int + n % 10) as char]
  }

  lemma {:induction false} NatDigitsRoundTrip(n: nat)
    ensures DigitsValue(NatDigits(n)) == n
  {
    var ds := NatDigits(n);
    if n >= 10 {
      assert ds[..|ds| - 1] == NatDigits(n / 10);
      NatDigitsRoundTrip(n / 10);
    }
  }

  lemma {:induction false} NoDotCount(t: string)
    requires forall i :: 0 <= i < |t| ==> t[i] != '.'
    ensures DotCount(t) == 0
  {
    if t != [] {
      NoDotCount(t[1..]);
    }
  }

  /**
   * An integer amount surrounded by text without digits or dots ("$100",
   * "approx 200 EUR") parses to that integer.
   */
  lemma ParseCostOfInteger(before: string, n: nat, after: string)
    requires forall i :: 0 <= i < |before| ==> !IsCostChar(before[i])
    requires forall i :: 0 <= i < |after| ==> !IsCostChar(after[i])
    ensures ParseCost(Some(before + NatDigits(n) + after)) == n as real
  {
    var ds := NatDigits(n);
    CleanAppend(before + ds, after);
    CleanAppend(before, ds);
    CleanDropsNoise(before);
    CleanDropsNoise(after);
    CleanKeepsCostChars(ds);
    ParseCostOfCleanInteger(before + ds + after, n);
  }

  /** A cost whose digits and dots are exactly the digits of `n` parses to `n`. */
  lemma ParseCostOfCleanInteger(s: string, n: nat)
    requires Clean(s) == NatDigits(n)
    ensures ParseCost(Some(s)) == n as real
  {
    var ds := NatDigits(n);
    assert |s| >= |Clean(s)| > 0;
    NoDotCount(ds);
    assert IsDigit(ds[0]);
    assert ValidDecimal(ds);
    assert DotIndex(ds) == |ds|;
    assert ds[..|ds|] == ds;
    NatDigitsRoundTrip(n);
    assert DecimalValue(ds) == n as real;
  }

  /** The worked examples: "$100" is 100, "approx 200 EUR" is 200 and "-50" is 50. */
  lemma IntegerExamples()
    ensures ParseCost(Some("$100")) == 100.0
    ensures ParseCost(Some("approx 200 EUR")) == 200.0
    ensures ParseCost(Some("-50")) == 50.0
  {
    assert NatDigits(100) == "100";
    ParseCostOfInteger("$", 100, "");
    assert "$" + "100" + "" == "$100";
    assert NatDigits(200) == "200";
    ParseCostOfInteger("approx ", 200, " EUR");
    assert "approx " + "200" + " EUR" == "approx 200 EUR";
    assert NatDigits(50) == "50";
    ParseCostOfInteger("-", 50, "");
    assert "-" + "50" + "" == "-50";
  }

  /** "500.50" is 500.5. */
  lemma FractionExample()
    ensures ParseCost(Some("500.50")) == 500.5
  {
    CleanKeepsCostChars("500.50");
    assert DotCount("500.50") == 1;
    assert IsDigit("500.50"[0]);
    assert DotIndex("500.50") == 3;
    assert "500.50"[..3] == NatDigits(500);
    assert "500.50"[4..] == NatDigits(50);
    NatDigitsRoundTrip(500);
    NatDigitsRoundTrip(50);
    assert ValidDecimal("500.50");
    assert Pow10(2) == 100;
    assert DecimalValue("500.50") == 500.0 + 50.0 / 100.0;
  }

  /** Text without digits costs nothing: "Free" is 0, and so are `None` and "". */
  lemma NoDigitExamples()
    ensures ParseCost(Some("Free")) == 0.0
    ensures ParseCost(None) == 0.0
    ensures ParseCost(Some("")) == 0.0
  {
    CleanDropsNoise("Free");
  }

  /** Digits of separate numbers run together: "1,000" is 1000. */
  lemma ThousandsSeparatorExample()
    ensures ParseCost(Some("1,000")) == 1000.0
  {
    NoiseInsensitive("1", ',', "000");
    assert "1" + [','] + "000" == "1,000";
    assert "1" + "000" == NatDigits(1000);
    ParseCostOfInteger("", 1000, "");
    assert "" + NatDigits(1000) + "" == NatDigits(1000);
  }

  /** Digits of separate numbers run together: "$5-$10" is 510. */
  lemma PriceRangeExample()
    ensures ParseCost(Some("$5-$10")) == 510.0
  {
    CleanPriceRange();
    assert NatDigits(510) == "510";
    ParseCostOfCleanInteger("$5-$10", 510);
  }

  lemma CleanPriceRange()
    ensures Clean("$5-$10") == "510"
  {
    CleanAppend("$5", "-$10");
    assert "$5" + "-$10" == "$5-$10";
    CleanAppend("-$", "10");
    assert "-$" + "10" == "-$10";
    CleanDropsNoise("-$");
    CleanKeepsCostChars("10");
    CleanAppend("$", "5");
    assert "$" + "5" == "$5";
    CleanDropsNoise("$");
    CleanKeepsCostChars("5");
  }

  /** The nodes of every day, day by day, in order. */
  function AllNodes(days: seq<DailyItinerary>): seq<TripNode>
  {
    if days == [] then [] else AllNodes(days[..|days| - 1]) + days[|days| - 1].nodes
  }

  /** The sum of the parsed costs of `nodes`. */
  function NodesCost(nodes: seq<TripNode>): real
  {
    if nodes == [] then 0.0 else NodesCost(nodes[..|nodes| - 1]) + ParseCost(nodes[|nodes| - 1].cost)
  }

  lemma {:induction false} NodesCostAppend(a: seq<TripNode>, b: seq<TripNode>)
    ensures NodesCost(a + b) == NodesCost(a) + NodesCost(b)
    decreases |b|
  {
    if b == [] {
      assert a + b == a;
    } else {
      assert (a + b)[..|a + b| - 1] == a + b[..|b| - 1];
      NodesCostAppend(a, b[..|b| - 1]);
    }
  }

  lemma {:induction false} NodesCostNonNegative(nodes: seq<TripNode>)
    ensures NodesCost(nodes) >= 0.0
  {
    if nodes != [] {
      NodesCostNonNegative(nodes[..|nodes| - 1]);
    }
  }

  /** One more node adds its parsed cost to the running sum. */
  lemma NodesCostSnoc(nodes: seq<TripNode>, j: nat)
    requires j < |nodes|
    ensures NodesCost(nodes[..j + 1]) == NodesCost(nodes[..j]) + ParseCost(nodes[j].cost)
  {
    assert nodes[..j + 1][..j] == nodes[..j];
  }

  /** One more day adds its nodes after those of the earlier days. */
  lemma AllNodesSnoc(days: seq<DailyItinerary>, i: nat)
    requires i < |days|
    ensures AllNodes(days[..i + 1]) == AllNodes(days[..i]) + days[i].nodes
  {
    assert days[..i + 1][..i] == days[..i];
  }

  /**
   * `calculate_itinerary_cost`: the running total over the nested loops ends as the
   * sum of the parsed cost of every node of every day.
   */
  method CalculateItineraryCost(trip: Trip) returns (total: real)
    ensures total == NodesCost(AllNodes(trip.itinerary))
    ensures total >= 0.0
  {
    total := 0.0;
    var i := 0;
    while i < |trip.itinerary|
      invariant 0 <= i <= |trip.itinerary|
      invariant total == NodesCost(AllNodes(trip.itinerary[..i]))
    {
      var day := trip.itinerary[i];
      ghost var before := total;
      var j := 0;
      while j < |day.nodes|
        invariant 0 <= j <= |day.nodes|
        invariant total == before + NodesCost(day.nodes[..j])
      {
        NodesCostSnoc(day.nodes, j);
        total := total + ParseCost(day.nodes[j].cost);
        j := j + 1;
      }
      assert day.nodes[..j] == day.nodes;
      AllNodesSnoc(trip.itinerary, i);
      NodesCostAppend(AllNodes(trip.itinerary[..i]), day.nodes);
      i := i + 1;
    }
    assert trip.itinerary[..i] == trip.itinerary;
    NodesCostNonNegative(AllNodes(trip.itinerary));
  }

  /** An itinerary with no days costs nothing. */
  lemma EmptyItineraryCostsNothing(destination: string)
    ensures NodesCost(AllNodes(Trip(destination).itinerary)) == 0.0
  {
  }

  lemma TwoDayExampleCosts()
    ensures ParseCost(Some("$200")) == 200.0
    ensures ParseCost(Some("50")) == 50.0
    ensures ParseCost(Some("20 EUR")) == 20.0
  {
    assert NatDigits(200) == "200";
    assert "$" + "200" + "" == "$200";
    ParseCostOfInteger("$", 200, "");
    assert NatDigits(50) == "50";
    assert "" + "50" + "" == "50";
    ParseCostOfInteger("", 50, "");
    assert NatDigits(20) == "20";
    assert "" + "20" + " EUR" == "20 EUR";
    ParseCostOfInteger("", 20, " EUR");
  }

  /** Two days contribute their nodes in day order. */
  lemma AllNodesOfTwoDays(d1: DailyItinerary, d2: DailyItinerary)
    ensures AllNodes([d1, d2]) == d1.nodes + d2.nodes
  {
    assert [d1][..0] == [];
    assert AllNodes([d1]) == d1.nodes;
    assert [d1, d2][..1] == [d1];
  }

  /** Three nodes cost the sum of their three parsed costs. */
  lemma NodesCostOfThree(a: TripNode, b: TripNode, c: TripNode)
    ensures NodesCost([a, b, c]) == ParseCost(a.cost) + ParseCost(b.cost) + ParseCost(c.cost)
  {
    assert [a][..0] == [];
    assert NodesCost([a]) == ParseCost(a.cost);
    assert [a, b][..1] == [a];
    assert NodesCost([a, b]) == ParseCost(a.cost) + ParseCost(b.cost);
    assert [a, b, c][..2] == [a, b];
  }

  /** The source's two-day example: "$200" and "50" on day 1, "20 EUR" on day 2. */
  lemma TwoDayExample()
    ensures NodesCost(AllNodes([
      DailyItinerary(1, "Day 1", nodes := [TripNode("Hotel", "Stay", cost := Some("$200")),
                                           TripNode("Lunch", "Food", cost := Some("50"))]),
      DailyItinerary(2, "Day 2", nodes := [TripNode("Museum", "Art", cost := Some("20 EUR"))])
    ])) == 270.0
  {
    var hotel := TripNode("Hotel", "Stay", cost := Some("$200"));
    var lunch := TripNode("Lunch", "Food", cost := Some("50"));
    var museum := TripNode("Museum", "Art", cost := Some("20 EUR"));
    AllNodesOfTwoDays(DailyItinerary(1, "Day 1", nodes := [hotel, lunch]),
                      DailyItinerary(2, "Day 2", nodes := [museum]));
    assert [hotel, lunch] + [museum] == [hotel, lunch, museum];
    NodesCostOfThree(hotel, lunch, museum);
    TwoDayExampleCosts();
  }
}
