/**
 * The travel workflow: its topology, built by a sequence of builder calls, the
 * replanning router, and a superstep interpreter. In each superstep every active
 * node reads the same snapshot of the state, their updates are merged in node order,
 * and the next active nodes are the targets of the active nodes' edges, the router's
 * choice included. The run stops when no node is active, or with a recursion-limit
 * outcome when its superstep budget is spent. The node bodies are parameters.
 */
module Workflow {
  import opened Wrappers
  import opened BackendState
  import BackendNodes
  import Schemas
  import Messages

  datatype Node =
    | ProcessInput | AttractionSearchAgent | WeatherQueryAgent | HotelInfoAgent
    | RefineItinerary | PlanItinerary | ValidateBudget | GenerateResponse

  function Name(n: Node): string
  {
    match n
    case ProcessInput => "process_input"
    case AttractionSearchAgent => "attraction_search_agent"
    case WeatherQueryAgent => "weather_query_agent"
    case HotelInfoAgent => "hotel_info_agent"
    case RefineItinerary => "refine_itinerary"
    case PlanItinerary => "plan_itinerary"
    case ValidateBudget => "validate_budget"
    case GenerateResponse => "generate_response"
  }

  datatype Target = To(node: Node) | End

  /** A compiled graph: its nodes in insertion order, entry point, static edges, and the nodes routed by `should_replan`. */
  datatype Graph = Graph(nodes: seq<Node>, entry: Node, edges: seq<(Node, Target)>, routed: seq<Node>)

  /** Every edge and router leaves from, and every edge leads to, a declared node. */
  predicate WellFormed(nodes: seq<Node>, entry: Node, edges: seq<(Node, Target)>, routed: seq<Node>)
  {
    && entry in nodes
    && (forall e :: e in edges ==> e.0 in nodes && (e.1.To? ==> e.1.node in nodes))
    && (forall n :: n in routed ==> n in nodes)
  }

  class GraphBuilder {
    var nodes: seq<Node>
    var entry: Option<Node>
    var edges: seq<(Node, Target)>
    var routed: seq<Node>

    constructor()
      ensures nodes == [] && entry == None && edges == [] && routed == []
    {
      nodes, entry, edges, routed := [], None, [], [];
    }

    /** `add_node`: a name already declared is refused. */
    method AddNode(n: Node) returns (ok: bool)
      modifies this
      ensures ok <==> n !in old(nodes)
      ensures nodes == if ok then old(nodes) + [n] else old(nodes)
      ensures entry == old(entry) && edges == old(edges) && routed == old(routed)
    {
      ok := n !in nodes;
      if ok {
        nodes := nodes + [n];
      }
    }

    method SetEntryPoint(n: Node)
      modifies this
      ensures entry == Some(n)
      ensures nodes == old(nodes) && edges == old(edges) && routed == old(routed)
    {
      entry := Some(n);
    }

    method AddEdge(from: Node, to: Target)
      modifies this
      ensures edges == old(edges) + [(from, to)]
      ensures nodes == old(nodes) && entry == old(entry) && routed == old(routed)
    {
      edges := edges + [(from, to)];
    }

    /** `add_conditional_edges(n, should_replan)`: the router's answer names the next node. */
    method AddConditionalEdges(n: Node)
      modifies this
      ensures routed == old(routed) + [n]
      ensures nodes == old(nodes) && entry == old(entry) && edges == old(edges)
    {
      routed := routed + [n];
    }

    /** `compile`: refuses a graph without an entry point or with an edge to or from an undeclared node. */
    function Compile(): (g: Option<Graph>)
      reads this
      ensures g.Some? <==> entry.Some? && WellFormed(nodes, entry.value, edges, routed)
      ensures g.Some? ==> g.value == Graph(nodes, entry.value, edges, routed)
    {
      if entry.Some? && WellFormed(nodes, entry.value, edges, routed)
      then Some(Graph(nodes, entry.value, edges, routed))
      else None
    }
  }

  /** The nodes in the order they are added. */
  const TravelNodes: seq<Node> :=
    [ProcessInput, AttractionSearchAgent, WeatherQueryAgent, HotelInfoAgent,
     RefineItinerary, PlanItinerary, ValidateBudget, GenerateResponse]

  /** The graph the module body builds. */
  function TravelGraph(): Graph
  {
    Graph(
      TravelNodes,
      ProcessInput,
      [(ProcessInput, To(PlanItinerary)),
       (PlanItinerary, To(AttractionSearchAgent)),
       (PlanItinerary, To(WeatherQueryAgent)),
       (PlanItinerary, To(HotelInfoAgent)),
       (AttractionSearchAgent, To(RefineItinerary)),
       (WeatherQueryAgent, To(RefineItinerary)),
       (HotelInfoAgent, To(RefineItinerary)),
       (RefineItinerary, To(ValidateBudget)),
       (GenerateResponse, End)],
      [ValidateBudget])
  }

  method AddTravelNodes(b: GraphBuilder)
    modifies b
    requires b.nodes == []
    ensures b.nodes == TravelGraph().nodes
    ensures b.entry == old(b.entry) && b.edges == old(b.edges) && b.routed == old(b.routed)
  {
    NextTravelNode(0);
    var ok := b.AddNode(ProcessInput);
    NextTravelNode(1);
    ok := b.AddNode(AttractionSearchAgent);
    NextTravelNode(2);
    ok := b.AddNode(WeatherQueryAgent);
    NextTravelNode(3);
    ok := b.AddNode(HotelInfoAgent);
    NextTravelNode(4);
    ok := b.AddNode(RefineItinerary);
    NextTravelNode(5);
    ok := b.AddNode(PlanItinerary);
    NextTravelNode(6);
    ok := b.AddNode(ValidateBudget);
    NextTravelNode(7);
    ok := b.AddNode(GenerateResponse);
    assert TravelNodes[..8] == TravelNodes;
  }

  /** The `k`-th node is new when it is added, after the ones before it. */
  lemma NextTravelNode(k: nat)
    requires k < |TravelNodes|
    ensures TravelNodes[k] !in TravelNodes[..k]
    ensures TravelNodes[..k + 1] == TravelNodes[..k] + [TravelNodes[k]]
  {
    assert forall i, j :: 0 <= i < j < |TravelNodes| ==> TravelNodes[i] != TravelNodes[j];
  }

  method AddTravelEdges(b: GraphBuilder)
    modifies b
    requires b.edges == [] && b.routed == []
    ensures b.edges == TravelGraph().edges && b.routed == TravelGraph().routed
    ensures b.nodes == old(b.nodes) && b.entry == old(b.entry)
  {
    b.AddEdge(ProcessInput, To(PlanItinerary));
    b.AddEdge(PlanItinerary, To(AttractionSearchAgent));
    b.AddEdge(PlanItinerary, To(WeatherQueryAgent));
    b.AddEdge(PlanItinerary, To(HotelInfoAgent));
    b.AddEdge(AttractionSearchAgent, To(RefineItinerary));
    b.AddEdge(WeatherQueryAgent, To(RefineItinerary));
    b.AddEdge(HotelInfoAgent, To(RefineItinerary));
    b.AddEdge(RefineItinerary, To(ValidateBudget));
    b.AddConditionalEdges(ValidateBudget);
    b.AddEdge(GenerateResponse, End);
  }

  /** The module body: eight nodes, the entry point, nine edges and the router, then compile. */
  method BuildTravelGraph() returns (g: Option<Graph>)
    ensures g == Some(TravelGraph())
  {
    var b := new GraphBuilder();
    AddTravelNodes(b);
    b.SetEntryPoint(ProcessInput);
    AddTravelEdges(b);
    TravelGraphWellFormed();
    g := b.Compile();
  }

  lemma TravelGraphWellFormed()
    ensures var g := TravelGraph(); WellFormed(g.nodes, g.entry, g.edges, g.routed)
  {
    var g := TravelGraph();
    forall e | e in g.edges ensures e.0 in g.nodes && (e.1.To? ==> e.1.node in g.nodes) {
      assert forall n: Node :: n in g.nodes by {
        forall n: Node ensures n in g.nodes {
          match n
          case ProcessInput => assert g.nodes[0] == n;
          case AttractionSearchAgent => assert g.nodes[1] == n;
          case WeatherQueryAgent => assert g.nodes[2] == n;
          case HotelInfoAgent => assert g.nodes[3] == n;
          case RefineItinerary => assert g.nodes[4] == n;
          case PlanItinerary => assert g.nodes[5] == n;
          case ValidateBudget => assert g.nodes[6] == n;
          case GenerateResponse => assert g.nodes[7] == n;
        }
      }
    }
  }

  /** `state.get("planning_retries", 0)`. */
  function Retries(s: TravelState): int
  {
    if s.planningRetries.Present? then s.planningRetries.value else 0
  }

  /** `should_replan`. */
  function ShouldReplan(s: TravelState): (n: Node)
    ensures n == PlanItinerary || n == GenerateResponse
    ensures n == PlanItinerary <==> s.budgetStatus == Present(Some("OVER_BUDGET")) && Retries(s) < 3
    ensures s.planningRetries.Absent? && s.budgetStatus == Present(Some("OVER_BUDGET")) ==> n == PlanItinerary
    ensures Retries(s) >= 3 ==> n == GenerateResponse
  {
    if s.budgetStatus == Present(Some("OVER_BUDGET")) && Retries(s) < 3 then PlanItinerary else GenerateResponse
  }

  /** The targets of the static edges leaving `n`. */
  function Successors(g: Graph, n: Node): set<Target>
  {
    set e | e in g.edges && e.0 == n :: e.1
  }

  lemma SuccessorsOf(g: Graph, n: Node, expected: set<Target>)
    requires forall e | e in g.edges && e.0 == n :: e.1 in expected
    requires forall t | t in expected :: (n, t) in g.edges
    ensures Successors(g, n) == expected
  {
    forall t | t in Successors(g, n) ensures t in expected {
      var e :| e in g.edges && e.0 == n && e.1 == t;
    }
  }

  /** The entry point is `process_input`, whose only successor is the planner. */
  lemma EntryLeadsToPlanner()
    ensures TravelGraph().entry == ProcessInput
    ensures Successors(TravelGraph(), ProcessInput) == {To(PlanItinerary)}
  {
    SuccessorsOf(TravelGraph(), ProcessInput, {To(PlanItinerary)});
  }

  /** The planner fans out to exactly the three agents. */
  lemma PlannerFansOut()
    ensures Successors(TravelGraph(), PlanItinerary)
            == {To(AttractionSearchAgent), To(WeatherQueryAgent), To(HotelInfoAgent)}
  {
    SuccessorsOf(TravelGraph(), PlanItinerary, {To(AttractionSearchAgent), To(WeatherQueryAgent), To(HotelInfoAgent)});
  }

  /** Each agent's only successor is `refine_itinerary`. */
  lemma AgentsJoinAtRefine(a: Node)
    requires a in Agents
    ensures Successors(TravelGraph(), a) == {To(RefineItinerary)}
  {
    SuccessorsOf(TravelGraph(), a, {To(RefineItinerary)});
  }

  /** `refine_itinerary` leads only to `validate_budget`. */
  lemma RefineLeadsToValidation()
    ensures Successors(TravelGraph(), RefineItinerary) == {To(ValidateBudget)}
  {
    SuccessorsOf(TravelGraph(), RefineItinerary, {To(ValidateBudget)});
  }

  /**
   * `validate_budget` has no static edge and is the one routed node; `generate_response`
   * leads only to the end.
   */
  lemma ValidationIsRoutedAndResponseEnds()
    ensures Successors(TravelGraph(), ValidateBudget) == {} && TravelGraph().routed == [ValidateBudget]
    ensures Successors(TravelGraph(), GenerateResponse) == {End}
  {
    SuccessorsOf(TravelGraph(), ValidateBudget, {});
    SuccessorsOf(TravelGraph(), GenerateResponse, {End});
  }

  /** A node's depth in the workflow; the end is deepest. */
  function Depth(n: Node): nat
  {
    match n
    case ProcessInput => 0
    case PlanItinerary => 1
    case AttractionSearchAgent => 2
    case WeatherQueryAgent => 2
    case HotelInfoAgent => 2
    case RefineItinerary => 3
    case ValidateBudget => 4
    case GenerateResponse => 5
  }

  function TargetDepth(t: Target): nat
  {
    if t.End? then 6 else Depth(t.node)
  }

  /**
   * Every static edge goes deeper, so the one way back is the router sending
   * `validate_budget` to `plan_itinerary`.
   */
  lemma OnlyBackEdgeIsTheRouter(s: TravelState)
    ensures forall e :: e in TravelGraph().edges ==> Depth(e.0) < TargetDepth(e.1)
    ensures Depth(ShouldReplan(s)) < Depth(ValidateBudget) <==> ShouldReplan(s) == PlanItinerary
  {
    EdgesGoDeeper();
  }

  lemma EdgesGoDeeper()
    ensures forall e :: e in TravelGraph().edges ==> Depth(e.0) < TargetDepth(e.1)
  {
    var es := TravelGraph().edges;
    assert forall i :: 0 <= i < |es| ==> Depth(es[i].0) < TargetDepth(es[i].1);
  }

  /** The node bodies. */
  datatype Steps = Steps(
    processInput: TravelState -> Update,
    attractionSearchAgent: TravelState -> Update,
    weatherQueryAgent: TravelState -> Update,
    hotelInfoAgent: TravelState -> Update,
    refineItinerary: TravelState -> Update,
    planItinerary: TravelState -> Update,
    validateBudget: TravelState -> Update,
    generateResponse: TravelState -> Update)

  function StepOf(steps: Steps, n: Node): TravelState -> Update
  {
    match n
    case ProcessInput => steps.processInput
    case AttractionSearchAgent => steps.attractionSearchAgent
    case WeatherQueryAgent => steps.weatherQueryAgent
    case HotelInfoAgent => steps.hotelInfoAgent
    case RefineItinerary => steps.refineItinerary
    case PlanItinerary => steps.planItinerary
    case ValidateBudget => steps.validateBudget
    case GenerateResponse => steps.generateResponse
  }

  /** The writes of one superstep: each active node's update, computed from `snapshot`, merged in order into `s`. */
  function ApplyAll(steps: Steps, active: seq<Node>, snapshot: TravelState, s: TravelState): TravelState
    decreases |active|
  {
    if active == [] then s
    else ApplyAll(steps, active[1..], snapshot, Merge(s, StepOf(steps, active[0])(snapshot)))
  }

  /** Whether `a`, having run, triggers `n`: by a static edge, or by the router's answer on `s`. */
  predicate Leads(g: Graph, a: Node, s: TravelState, n: Node)
  {
    (a, To(n)) in g.edges || (a in g.routed && ShouldReplan(s) == n)
  }

  predicate AnyLeads(g: Graph, active: seq<Node>, s: TravelState, n: Node)
    ensures AnyLeads(g, active, s, n) <==> exists a :: a in active && Leads(g, a, s, n)
  {
    active != [] && (Leads(g, active[0], s, n) || AnyLeads(g, active[1..], s, n))
  }

  /** The nodes of `ns` from position `i` on that the active set triggers, in `ns` order. */
  function Triggered(g: Graph, ns: seq<Node>, i: nat, active: seq<Node>, s: TravelState): (r: seq<Node>)
    requires i <= |ns|
    ensures forall n :: n in r <==> n in ns[i..] && AnyLeads(g, active, s, n)
    decreases |ns| - i
  {
    if i == |ns| then []
    else
      var rest := Triggered(g, ns, i + 1, active, s);
      assert ns[i..] == [ns[i]] + ns[i + 1..];
      (if AnyLeads(g, active, s, ns[i]) then [ns[i]] else []) + rest
  }

  /** The nodes active in the next superstep: those triggered, in declaration order. */
  function NextActive(g: Graph, active: seq<Node>, s: TravelState): seq<Node>
  {
    Triggered(g, g.nodes, 0, active, s)
  }

  /** How a run ends, with the state reached and the active set of every superstep taken. */
  datatype Outcome =
    | Finished(state: TravelState, trace: seq<seq<Node>>)
    | RecursionLimit(state: TravelState, trace: seq<seq<Node>>)

  function Prepend(active: seq<Node>, o: Outcome): (r: Outcome)
    ensures r.Finished? == o.Finished? && r.state == o.state && r.trace == [active] + o.trace
  {
    if o.Finished? then Finished(o.state, [active] + o.trace) else RecursionLimit(o.state, [active] + o.trace)
  }

  lemma PrependCounts(active: seq<Node>, o: Outcome, n: Node)
    ensures |Prepend(active, o).trace| == 1 + |o.trace|
    ensures Count(Prepend(active, o).trace, n) == (if n in active then 1 else 0) + Count(o.trace, n)
  {
    CountPrepend(active, o.trace, n);
  }

  /** Running from an active set with at most `fuel` supersteps. */
  function Run(g: Graph, steps: Steps, active: seq<Node>, s: TravelState, fuel: nat): (o: Outcome)
    ensures |o.trace| <= fuel
    ensures o.RecursionLimit? ==> |o.trace| == fuel
    decreases fuel
  {
    if active == [] then Finished(s, [])
    else if fuel == 0 then RecursionLimit(s, [])
    else
      var next := ApplyAll(steps, active, s, s);
      Prepend(active, Run(g, steps, NextActive(g, active, next), next, fuel - 1))
  }

  /** `graph.invoke(input)` with a recursion limit. */
  function Invoke(g: Graph, steps: Steps, input: Update, limit: nat): Outcome
  {
    Run(g, steps, [g.entry], Merge(Initial(), input), limit)
  }

  /** The number of supersteps in which `n` ran. */
  function Count(trace: seq<seq<Node>>, n: Node): nat
  {
    if trace == [] then 0 else (if n in trace[0] then 1 else 0) + Count(trace[1..], n)
  }

  lemma CountPrepend(active: seq<Node>, trace: seq<seq<Node>>, n: Node)
    ensures Count([active] + trace, n) == (if n in active then 1 else 0) + Count(trace, n)
  {
    assert ([active] + trace)[1..] == trace;
  }

  const Agents: seq<Node> := [AttractionSearchAgent, WeatherQueryAgent, HotelInfoAgent]

  /** The nodes of `ns` from position `i` on that belong to `xs`, in `ns` order. */
  function Keep(ns: seq<Node>, i: nat, xs: set<Node>): seq<Node>
    requires i <= |ns|
    decreases |ns| - i
  {
    if i == |ns| then [] else (if ns[i] in xs then [ns[i]] else []) + Keep(ns, i + 1, xs)
  }

  lemma {:induction false} TriggeredKeeps(g: Graph, ns: seq<Node>, i: nat, active: seq<Node>, s: TravelState, xs: set<Node>)
    requires i <= |ns|
    requires forall n :: AnyLeads(g, active, s, n) <==> n in xs
    ensures Triggered(g, ns, i, active, s) == Keep(ns, i, xs)
    decreases |ns| - i
  {
    if i < |ns| {
      TriggeredKeeps(g, ns, i + 1, active, s, xs);
    }
  }

  lemma LeadsInTravelGraph(a: Node, s: TravelState, n: Node)
    ensures Leads(TravelGraph(), a, s, n) <==> To(n) in Successors(TravelGraph(), a) || (a == ValidateBudget && ShouldReplan(s) == n)
  {
    var g := TravelGraph();
    if (a, To(n)) in g.edges {
      assert To(n) in Successors(g, a);
    }
  }

  function Pick(n: Node, xs: set<Node>): seq<Node>
  {
    if n in xs then [n] else []
  }

  /** The nodes of the travel graph that belong to `xs`, in declaration order. */
  lemma KeepTravelNodes(xs: set<Node>)
    ensures Keep(TravelNodes, 0, xs) == Pick(ProcessInput, xs) + (Pick(AttractionSearchAgent, xs) + (Pick(WeatherQueryAgent, xs) + (Pick(HotelInfoAgent, xs) + (Pick(RefineItinerary, xs) + (Pick(PlanItinerary, xs) + (Pick(ValidateBudget, xs) + Pick(GenerateResponse, xs)))))))
  {
    var ns := TravelNodes;
    assert Keep(ns, 8, xs) == [];
    assert Keep(ns, 7, xs) == Pick(GenerateResponse, xs) + [];
    assert Keep(ns, 6, xs) == Pick(ValidateBudget, xs) + Pick(GenerateResponse, xs);
    assert Keep(ns, 5, xs) == Pick(PlanItinerary, xs) + (Pick(ValidateBudget, xs) + Pick(GenerateResponse, xs));
    assert Keep(ns, 4, xs) == Pick(RefineItinerary, xs) + (Pick(PlanItinerary, xs) + (Pick(ValidateBudget, xs) + Pick(GenerateResponse, xs)));
    assert Keep(ns, 3, xs) == Pick(HotelInfoAgent, xs) + (Pick(RefineItinerary, xs) + (Pick(PlanItinerary, xs) + (Pick(ValidateBudget, xs) + Pick(GenerateResponse, xs))));
    assert Keep(ns, 2, xs) == Pick(WeatherQueryAgent, xs) + (Pick(HotelInfoAgent, xs) + (Pick(RefineItinerary, xs) + (Pick(PlanItinerary, xs) + (Pick(ValidateBudget, xs) + Pick(GenerateResponse, xs)))));
    assert Keep(ns, 1, xs) == Pick(AttractionSearchAgent, xs) + (Pick(WeatherQueryAgent, xs) + (Pick(HotelInfoAgent, xs) + (Pick(RefineItinerary, xs) + (Pick(PlanItinerary, xs) + (Pick(ValidateBudget, xs) + Pick(GenerateResponse, xs))))));
  }

  lemma NextIs(active: seq<Node>, s: TravelState, xs: set<Node>, expected: seq<Node>)
    requires forall n :: AnyLeads(TravelGraph(), active, s, n) <==> n in xs
    requires Keep(TravelNodes, 0, xs) == expected
    ensures NextActive(TravelGraph(), active, s) == expected
  {
    TriggeredKeeps(TravelGraph(), TravelNodes, 0, active, s, xs);
  }

  lemma TriggeredAfterInput(s: TravelState)
    ensures forall n :: AnyLeads(TravelGraph(), [ProcessInput], s, n) <==> n in {PlanItinerary}
  {
    EntryLeadsToPlanner();
    forall n ensures AnyLeads(TravelGraph(), [ProcessInput], s, n) <==> n in {PlanItinerary} {
      LeadsInTravelGraph(ProcessInput, s, n);
    }
  }

  lemma KeepAfterInput()
    ensures Keep(TravelNodes, 0, {PlanItinerary}) == [PlanItinerary]
  {
    var xs := {PlanItinerary};
    KeepTravelNodes(xs);
    assert Pick(ProcessInput, xs) == [] && Pick(AttractionSearchAgent, xs) == [] && Pick(WeatherQueryAgent, xs) == [] && Pick(HotelInfoAgent, xs) == [] && Pick(RefineItinerary, xs) == [] && Pick(PlanItinerary, xs) == [PlanItinerary] && Pick(ValidateBudget, xs) == [] && Pick(GenerateResponse, xs) == [];
  }

  /** After `process_input` only the planner runs. */
  lemma NextAfterInput(s: TravelState)
    ensures NextActive(TravelGraph(), [ProcessInput], s) == [PlanItinerary]
  {
    TriggeredAfterInput(s);
    KeepAfterInput();
    NextIs([ProcessInput], s, {PlanItinerary}, [PlanItinerary]);
  }

  lemma TriggeredAfterPlanner(s: TravelState)
    ensures forall n :: AnyLeads(TravelGraph(), [PlanItinerary], s, n) <==> n in {AttractionSearchAgent, WeatherQueryAgent, HotelInfoAgent}
  {
    PlannerFansOut();
    forall n ensures AnyLeads(TravelGraph(), [PlanItinerary], s, n) <==> n in {AttractionSearchAgent, WeatherQueryAgent, HotelInfoAgent} {
      LeadsInTravelGraph(PlanItinerary, s, n);
    }
  }

  lemma KeepAfterPlanner()
    ensures Keep(TravelNodes, 0, {AttractionSearchAgent, WeatherQueryAgent, HotelInfoAgent}) == Agents
  {
    var xs := {AttractionSearchAgent, WeatherQueryAgent, HotelInfoAgent};
    KeepTravelNodes(xs);
    assert Pick(ProcessInput, xs) == [] && Pick(AttractionSearchAgent, xs) == [AttractionSearchAgent] && Pick(WeatherQueryAgent, xs) == [WeatherQueryAgent] && Pick(HotelInfoAgent, xs) == [HotelInfoAgent] && Pick(RefineItinerary, xs) == [] && Pick(PlanItinerary, xs) == [] && Pick(ValidateBudget, xs) == [] && Pick(GenerateResponse, xs) == [];
  }

  /** After the planner the three agents run together. */
  lemma NextAfterPlanner(s: TravelState)
    ensures NextActive(TravelGraph(), [PlanItinerary], s) == Agents
  {
    TriggeredAfterPlanner(s);
    KeepAfterPlanner();
    NextIs([PlanItinerary], s, {AttractionSearchAgent, WeatherQueryAgent, HotelInfoAgent}, Agents);
  }

  lemma TriggeredAfterAgents(s: TravelState)
    ensures forall n :: AnyLeads(TravelGraph(), Agents, s, n) <==> n in {RefineItinerary}
  {
    AgentsJoinAtRefine(AttractionSearchAgent);
    AgentsJoinAtRefine(WeatherQueryAgent);
    AgentsJoinAtRefine(HotelInfoAgent);
    forall n ensures AnyLeads(TravelGraph(), Agents, s, n) <==> n in {RefineItinerary} {
      LeadsInTravelGraph(AttractionSearchAgent, s, n);
      LeadsInTravelGraph(WeatherQueryAgent, s, n);
      LeadsInTravelGraph(HotelInfoAgent, s, n);
    }
  }

  lemma KeepAfterAgents()
    ensures Keep(TravelNodes, 0, {RefineItinerary}) == [RefineItinerary]
  {
    var xs := {RefineItinerary};
    KeepTravelNodes(xs);
    assert Pick(ProcessInput, xs) == [] && Pick(AttractionSearchAgent, xs) == [] && Pick(WeatherQueryAgent, xs) == [] && Pick(HotelInfoAgent, xs) == [] && Pick(RefineItinerary, xs) == [RefineItinerary] && Pick(PlanItinerary, xs) == [] && Pick(ValidateBudget, xs) == [] && Pick(GenerateResponse, xs) == [];
  }

  /** After the agents `refine_itinerary` runs, once. */
  lemma NextAfterAgents(s: TravelState)
    ensures NextActive(TravelGraph(), Agents, s) == [RefineItinerary]
  {
    TriggeredAfterAgents(s);
    KeepAfterAgents();
    NextIs(Agents, s, {RefineItinerary}, [RefineItinerary]);
  }

  lemma TriggeredAfterRefine(s: TravelState)
    ensures forall n :: AnyLeads(TravelGraph(), [RefineItinerary], s, n) <==> n in {ValidateBudget}
  {
    RefineLeadsToValidation();
    forall n ensures AnyLeads(TravelGraph(), [RefineItinerary], s, n) <==> n in {ValidateBudget} {
      LeadsInTravelGraph(RefineItinerary, s, n);
    }
  }

  lemma KeepAfterRefine()
    ensures Keep(TravelNodes, 0, {ValidateBudget}) == [ValidateBudget]
  {
    var xs := {ValidateBudget};
    KeepTravelNodes(xs);
    assert Pick(ProcessInput, xs) == [] && Pick(AttractionSearchAgent, xs) == [] && Pick(WeatherQueryAgent, xs) == [] && Pick(HotelInfoAgent, xs) == [] && Pick(RefineItinerary, xs) == [] && Pick(PlanItinerary, xs) == [] && Pick(ValidateBudget, xs) == [ValidateBudget] && Pick(GenerateResponse, xs) == [];
  }

  /** After `refine_itinerary` comes `validate_budget`. */
  lemma NextAfterRefine(s: TravelState)
    ensures NextActive(TravelGraph(), [RefineItinerary], s) == [ValidateBudget]
  {
    TriggeredAfterRefine(s);
    KeepAfterRefine();
    NextIs([RefineItinerary], s, {ValidateBudget}, [ValidateBudget]);
  }

  lemma TriggeredAfterRespond(s: TravelState)
    ensures forall n :: AnyLeads(TravelGraph(), [GenerateResponse], s, n) <==> n in {}
  {
    ValidationIsRoutedAndResponseEnds();
    forall n ensures AnyLeads(TravelGraph(), [GenerateResponse], s, n) <==> n in {} {
      LeadsInTravelGraph(GenerateResponse, s, n);
    }
  }

  lemma KeepAfterRespond()
    ensures Keep(TravelNodes, 0, {}) == []
  {
    var xs := {};
    KeepTravelNodes(xs);
    assert Pick(ProcessInput, xs) == [] && Pick(AttractionSearchAgent, xs) == [] && Pick(WeatherQueryAgent, xs) == [] && Pick(HotelInfoAgent, xs) == [] && Pick(RefineItinerary, xs) == [] && Pick(PlanItinerary, xs) == [] && Pick(ValidateBudget, xs) == [] && Pick(GenerateResponse, xs) == [];
  }

  /** Nothing runs after `generate_response`. */
  lemma NextAfterRespond(s: TravelState)
    ensures NextActive(TravelGraph(), [GenerateResponse], s) == []
  {
    TriggeredAfterRespond(s);
    KeepAfterRespond();
    NextIs([GenerateResponse], s, {}, []);
  }

  lemma TriggeredAfterReplan(s: TravelState)
    requires ShouldReplan(s) == PlanItinerary
    ensures forall n :: AnyLeads(TravelGraph(), [ValidateBudget], s, n) <==> n in {PlanItinerary}
  {
    ValidationIsRoutedAndResponseEnds();
    forall n ensures AnyLeads(TravelGraph(), [ValidateBudget], s, n) <==> n in {PlanItinerary} {
      LeadsInTravelGraph(ValidateBudget, s, n);
    }
  }

  lemma KeepAfterReplan()
    ensures Keep(TravelNodes, 0, {PlanItinerary}) == [PlanItinerary]
  {
    var xs := {PlanItinerary};
    KeepTravelNodes(xs);
    assert Pick(ProcessInput, xs) == [] && Pick(AttractionSearchAgent, xs) == [] && Pick(WeatherQueryAgent, xs) == [] && Pick(HotelInfoAgent, xs) == [] && Pick(RefineItinerary, xs) == [] && Pick(PlanItinerary, xs) == [PlanItinerary] && Pick(ValidateBudget, xs) == [] && Pick(GenerateResponse, xs) == [];
  }

  /** After `validate_budget`, the planner runs again when the router says so. */
  lemma ReplanAfterValidate(s: TravelState)
    requires ShouldReplan(s) == PlanItinerary
    ensures NextActive(TravelGraph(), [ValidateBudget], s) == [PlanItinerary]
  {
    TriggeredAfterReplan(s);
    KeepAfterReplan();
    NextIs([ValidateBudget], s, {PlanItinerary}, [PlanItinerary]);
  }

  lemma TriggeredAfterFinish(s: TravelState)
    requires ShouldReplan(s) == GenerateResponse
    ensures forall n :: AnyLeads(TravelGraph(), [ValidateBudget], s, n) <==> n in {GenerateResponse}
  {
    ValidationIsRoutedAndResponseEnds();
    forall n ensures AnyLeads(TravelGraph(), [ValidateBudget], s, n) <==> n in {GenerateResponse} {
      LeadsInTravelGraph(ValidateBudget, s, n);
    }
  }

  lemma KeepAfterFinish()
    ensures Keep(TravelNodes, 0, {GenerateResponse}) == [GenerateResponse]
  {
    var xs := {GenerateResponse};
    KeepTravelNodes(xs);
    assert Pick(ProcessInput, xs) == [] && Pick(AttractionSearchAgent, xs) == [] && Pick(WeatherQueryAgent, xs) == [] && Pick(HotelInfoAgent, xs) == [] && Pick(RefineItinerary, xs) == [] && Pick(PlanItinerary, xs) == [] && Pick(ValidateBudget, xs) == [] && Pick(GenerateResponse, xs) == [GenerateResponse];
  }

  /** Otherwise `generate_response` runs. */
  lemma RespondAfterValidate(s: TravelState)
    requires ShouldReplan(s) == GenerateResponse
    ensures NextActive(TravelGraph(), [ValidateBudget], s) == [GenerateResponse]
  {
    TriggeredAfterFinish(s);
    KeepAfterFinish();
    NextIs([ValidateBudget], s, {GenerateResponse}, [GenerateResponse]);
  }

  /** After `validate_budget` only the router's choice runs. */
  lemma NextAfterValidate(s: TravelState)
    ensures NextActive(TravelGraph(), [ValidateBudget], s) == [ShouldReplan(s)]
  {
    if ShouldReplan(s) == PlanItinerary {
      ReplanAfterValidate(s);
    } else {
      RespondAfterValidate(s);
    }
  }
  /** A step that writes `planning_retries` only with the value it read. */
  ghost predicate KeepsRetries(f: TravelState -> Update)
  {
    forall st :: f(st).planningRetries.Absent? || f(st).planningRetries == st.planningRetries
  }

  /** Validation sends the run back to the planner only after raising the retry count. */
  ghost predicate RaisesRetriesOnReplan(f: TravelState -> Update)
  {
    forall st :: ShouldReplan(Merge(st, f(st))) == PlanItinerary ==> Retries(Merge(st, f(st))) > Retries(st)
  }

  /** Only validation touches the retry count, and it raises it before each replan. */
  ghost predicate CountsRetries(steps: Steps)
  {
    && KeepsRetries(steps.processInput)
    && KeepsRetries(steps.attractionSearchAgent)
    && KeepsRetries(steps.weatherQueryAgent)
    && KeepsRetries(steps.hotelInfoAgent)
    && KeepsRetries(steps.refineItinerary)
    && KeepsRetries(steps.planItinerary)
    && KeepsRetries(steps.generateResponse)
    && RaisesRetriesOnReplan(steps.validateBudget)
  }

  lemma {:induction false} ApplyAllKeepsRetries(steps: Steps, active: seq<Node>, snapshot: TravelState, s: TravelState)
    requires CountsRetries(steps) && ValidateBudget !in active
    requires s.planningRetries == snapshot.planningRetries
    ensures ApplyAll(steps, active, snapshot, s).planningRetries == snapshot.planningRetries
    decreases |active|
  {
    if active != [] {
      var n := active[0];
      assert n != ValidateBudget by { assert n in active; }
      assert KeepsRetries(StepOf(steps, n));
      var u := StepOf(steps, n)(snapshot);
      assert ValidateBudget !in active[1..] by { assert forall m :: m in active[1..] ==> m in active; }
      ApplyAllKeepsRetries(steps, active[1..], snapshot, Merge(s, u));
    }
  }

  /** The planning rounds the retry ceiling still allows. */
  function RoundsLeft(s: TravelState): nat
  {
    if Retries(s) >= 3 then 0 else 3 - Retries(s)
  }

  /** The replans the retry ceiling still allows. */
  function Replans(s: TravelState): nat
  {
    if RoundsLeft(s) == 0 then 0 else RoundsLeft(s) - 1
  }

  /** One superstep of a run that still has active nodes and fuel. */
  lemma RunStep(g: Graph, steps: Steps, active: seq<Node>, s: TravelState, fuel: nat)
    requires active != [] && fuel > 0
    ensures var next := ApplyAll(steps, active, s, s);
      Run(g, steps, active, s, fuel) == Prepend(active, Run(g, steps, NextActive(g, active, next), next, fuel - 1))
  {
  }

  /** One planning round: planner, agents, refinement, each in its own superstep. */
  lemma PlanningRound(steps: Steps, s: TravelState, fuel: nat) returns (next: TravelState)
    requires CountsRetries(steps)
    requires fuel >= 3
    ensures Retries(next) == Retries(s)
    ensures var o := Run(TravelGraph(), steps, [PlanItinerary], s, fuel);
      var rest := Run(TravelGraph(), steps, [ValidateBudget], next, fuel - 3);
      && o.Finished? == rest.Finished?
      && o.trace == [[PlanItinerary]] + ([Agents] + ([[RefineItinerary]] + rest.trace))
  {
    var g := TravelGraph();
    var s2 := ApplyAll(steps, [PlanItinerary], s, s);
    ApplyAllKeepsRetries(steps, [PlanItinerary], s, s);
    NextAfterPlanner(s2);
    RunStep(g, steps, [PlanItinerary], s, fuel);
    var s3 := ApplyAll(steps, Agents, s2, s2);
    ApplyAllKeepsRetries(steps, Agents, s2, s2);
    NextAfterAgents(s3);
    RunStep(g, steps, Agents, s2, fuel - 1);
    next := ApplyAll(steps, [RefineItinerary], s3, s3);
    ApplyAllKeepsRetries(steps, [RefineItinerary], s3, s3);
    NextAfterRefine(next);
    RunStep(g, steps, [RefineItinerary], s3, fuel - 2);
  }

  /**
   * From validation, the run finishes within `4 * Replans(s) + 2` supersteps and runs
   * the planner at most `Replans(s)` more times.
   */
  lemma {:induction false} FromValidation(steps: Steps, s: TravelState, fuel: nat)
    requires CountsRetries(steps)
    requires fuel >= 4 * Replans(s) + 2
    ensures var o := Run(TravelGraph(), steps, [ValidateBudget], s, fuel);
      && o.Finished?
      && |o.trace| <= 4 * Replans(s) + 2
      && Count(o.trace, PlanItinerary) <= Replans(s)
    decreases RoundsLeft(s), 2
  {
    var g := TravelGraph();
    var s1 := ApplyAll(steps, [ValidateBudget], s, s);
    var f := fuel - 1;
    var o1 := Run(g, steps, [ShouldReplan(s1)], s1, f);
    assert Run(g, steps, [ValidateBudget], s, fuel) == Prepend([ValidateBudget], o1) by {
      NextAfterValidate(s1);
      RunStep(g, steps, [ValidateBudget], s, fuel);
    }
    if ShouldReplan(s1) == PlanItinerary {
      ReplanRound(steps, s, f);
    } else {
      RespondAndStop(steps, s1, f);
    }
    CountPrepend([ValidateBudget], o1.trace, PlanItinerary);
  }

  /** A superstep of a single node merges that node's update into the state. */
  lemma ApplyOne(steps: Steps, n: Node, s: TravelState)
    ensures ApplyAll(steps, [n], s, s) == Merge(s, StepOf(steps, n)(s))
  {
    assert [n][1..] == [];
  }

  /** A replan leaves the retry count raised but still under the ceiling of 3. */
  lemma ValidationRaises(steps: Steps, s: TravelState)
    requires RaisesRetriesOnReplan(steps.validateBudget)
    requires ShouldReplan(ApplyAll(steps, [ValidateBudget], s, s)) == PlanItinerary
    ensures Retries(s) < Retries(ApplyAll(steps, [ValidateBudget], s, s)) < 3
  {
    var s1 := ApplyAll(steps, [ValidateBudget], s, s);
    ApplyOne(steps, ValidateBudget, s);
    assert Retries(s1) < 3;
    assert ShouldReplan(Merge(s, steps.validateBudget(s))) == PlanItinerary;
  }

  /** After validation asked for a replan: one more planning round, then validation again. */
  lemma {:induction false} ReplanRound(steps: Steps, s: TravelState, fuel: nat)
    requires CountsRetries(steps)
    requires var s1 := ApplyAll(steps, [ValidateBudget], s, s); ShouldReplan(s1) == PlanItinerary
    requires fuel + 1 >= 4 * Replans(s) + 2
    ensures var s1 := ApplyAll(steps, [ValidateBudget], s, s);
      var o := Run(TravelGraph(), steps, [PlanItinerary], s1, fuel);
      && o.Finished?
      && |o.trace| + 1 <= 4 * Replans(s) + 2
      && Count(o.trace, PlanItinerary) <= Replans(s)
    decreases RoundsLeft(s), 1
  {
    var s1 := ApplyAll(steps, [ValidateBudget], s, s);
    ValidationRaises(steps, s);
    var s4 := PlanningRound(steps, s1, fuel);
    ReplansDrop(s, s1, s4);
    ReplanTail(steps, s, s1, s4, fuel);
  }

  /** The rest of a replan: validation again, with one replan fewer left. */
  lemma {:induction false} ReplanTail(steps: Steps, s: TravelState, s1: TravelState, s4: TravelState, fuel: nat)
    requires CountsRetries(steps)
    requires RoundsLeft(s4) < RoundsLeft(s) && Replans(s4) + 1 <= Replans(s)
    requires fuel >= 3 && fuel + 1 >= 4 * Replans(s) + 2
    requires var o := Run(TravelGraph(), steps, [PlanItinerary], s1, fuel);
      var rest := Run(TravelGraph(), steps, [ValidateBudget], s4, fuel - 3);
      && o.Finished? == rest.Finished?
      && o.trace == [[PlanItinerary]] + ([Agents] + ([[RefineItinerary]] + rest.trace))
    ensures var o := Run(TravelGraph(), steps, [PlanItinerary], s1, fuel);
      && o.Finished?
      && |o.trace| + 1 <= 4 * Replans(s) + 2
      && Count(o.trace, PlanItinerary) <= Replans(s)
    decreases RoundsLeft(s), 0
  {
    var f := fuel - 3;
    FromValidation(steps, s4, f);
    var rest := Run(TravelGraph(), steps, [ValidateBudget], s4, f);
    RoundTrace(rest.trace);
  }

  /** A planning round adds three supersteps and one planner run to what follows it. */
  lemma RoundTrace(rest: seq<seq<Node>>)
    ensures var trace := [[PlanItinerary]] + ([Agents] + ([[RefineItinerary]] + rest));
      |trace| == 3 + |rest| && Count(trace, PlanItinerary) == 1 + Count(rest, PlanItinerary)
  {
    CountPrepend([RefineItinerary], rest, PlanItinerary);
    CountPrepend(Agents, [[RefineItinerary]] + rest, PlanItinerary);
    CountPrepend([PlanItinerary], [Agents] + ([[RefineItinerary]] + rest), PlanItinerary);
  }

  /** `generate_response` runs alone in the last superstep. */
  lemma RespondAndStop(steps: Steps, s: TravelState, fuel: nat)
    requires fuel >= 1
    ensures var o := Run(TravelGraph(), steps, [GenerateResponse], s, fuel);
      o.Finished? && o.trace == [[GenerateResponse]] && Count(o.trace, PlanItinerary) == 0
  {
    var s2 := ApplyAll(steps, [GenerateResponse], s, s);
    NextAfterRespond(s2);
    RunStep(TravelGraph(), steps, [GenerateResponse], s, fuel);
    CountPrepend([GenerateResponse], [], PlanItinerary);
  }

  lemma ReplansDrop(s: TravelState, s1: TravelState, s4: TravelState)
    requires Retries(s) < Retries(s1) < 3 && Retries(s4) == Retries(s1)
    ensures RoundsLeft(s4) < RoundsLeft(s) && Replans(s4) + 1 <= Replans(s)
  {
  }

  /**
   * Whatever the validation decides, an invocation finishes within
   * `4 * Replans + 6` supersteps and calls the planner at most `Replans + 1` times.
   */
  lemma InvocationFinishes(steps: Steps, input: Update, limit: nat)
    requires CountsRetries(steps)
    requires limit >= 4 * Replans(Merge(Initial(), input)) + 6
    ensures var o := Invoke(TravelGraph(), steps, input, limit);
      && o.Finished?
      && |o.trace| <= 4 * Replans(Merge(Initial(), input)) + 6
      && Count(o.trace, PlanItinerary) <= Replans(Merge(Initial(), input)) + 1
  {
    FromInput(steps, Merge(Initial(), input), limit);
    InvokeStartsAtInput(steps, input, limit);
  }

  /** A run from `process_input` on any state: one superstep, then the first planning round. */
  lemma FromInput(steps: Steps, s0: TravelState, limit: nat)
    requires CountsRetries(steps)
    requires limit >= 4 * Replans(s0) + 6
    ensures var o := Run(TravelGraph(), steps, [ProcessInput], s0, limit);
      && o.Finished?
      && |o.trace| <= 4 * Replans(s0) + 6
      && Count(o.trace, PlanItinerary) <= Replans(s0) + 1
  {
    var g := TravelGraph();
    var s1 := ApplyAll(steps, [ProcessInput], s0, s0);
    var f := limit - 1;
    var o1 := Run(g, steps, [PlanItinerary], s1, f);
    assert Run(g, steps, [ProcessInput], s0, limit) == Prepend([ProcessInput], o1) by {
      NextAfterInput(s1);
      RunStep(g, steps, [ProcessInput], s0, limit);
    }
    ApplyAllKeepsRetries(steps, [ProcessInput], s0, s0);
    var s4 := PlanningRound(steps, s1, f);
    FirstRound(steps, s0, s1, s4, f);
    PrependCounts([ProcessInput], o1, PlanItinerary);
  }

  /** An invocation of the travel graph starts with `process_input` alone. */
  lemma InvokeStartsAtInput(steps: Steps, input: Update, limit: nat)
    ensures Invoke(TravelGraph(), steps, input, limit) == Run(TravelGraph(), steps, [ProcessInput], Merge(Initial(), input), limit)
  {
    assert TravelGraph().entry == ProcessInput;
  }

  /** The first planning round followed by validation, however many replans come after. */
  lemma FirstRound(steps: Steps, s0: TravelState, s1: TravelState, s4: TravelState, fuel: nat)
    requires CountsRetries(steps)
    requires Retries(s4) == Retries(s0)
    requires fuel >= 3 && fuel + 1 >= 4 * Replans(s0) + 6
    requires var o := Run(TravelGraph(), steps, [PlanItinerary], s1, fuel);
      var rest := Run(TravelGraph(), steps, [ValidateBudget], s4, fuel - 3);
      && o.Finished? == rest.Finished?
      && o.trace == [[PlanItinerary]] + ([Agents] + ([[RefineItinerary]] + rest.trace))
    ensures var o := Run(TravelGraph(), steps, [PlanItinerary], s1, fuel);
      && o.Finished?
      && |o.trace| + 1 <= 4 * Replans(s0) + 6
      && Count(o.trace, PlanItinerary) <= Replans(s0) + 1
  {
    var f := fuel - 3;
    FromValidation(steps, s4, f);
    var rest := Run(TravelGraph(), steps, [ValidateBudget], s4, f);
    RoundTrace(rest.trace);
  }

  /**
   * With a non-negative starting retry count the run needs at most 14 supersteps, well
   * under the default recursion limit of 25, and the planner runs at most 3 times.
   */
  lemma DefaultLimitSuffices(steps: Steps, input: Update)
    requires CountsRetries(steps)
    requires input.planningRetries.Present? ==> input.planningRetries.value >= 0
    ensures var o := Invoke(TravelGraph(), steps, input, 25);
      o.Finished? && |o.trace| <= 14 && Count(o.trace, PlanItinerary) <= 3
  {
    InvocationFinishes(steps, input, 25);
  }
}
