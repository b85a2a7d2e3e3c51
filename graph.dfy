/**
 * The issue workflow: the graph `build_issue_workflow` assembles, the rule that picks the next
 * node after each stage, and a run of the compiled graph from its entry node until it ends.
 */
module Graph {
  import opened Wrappers
  import M = AgentModels
  import A = Agents

  /** The workflow's nodes; `End` is the graph's terminal marker. */
  datatype Node = Guardrail | IssueSearch | Classification | Recommendation | End

  /** The labels `guardrail_condition` returns. */
  datatype Route = Pass | Block

  /**
   * An outgoing edge: a fixed successor, or a branch whose label is chosen by
   * `guardrail_condition` (the only routing function the workflow uses) and looked up in `targets`.
   */
  datatype Edge = Direct(target: Node) | Conditional(targets: map<Route, Node>)

  /** A compiled graph: its entry node, its stage nodes and each node's outgoing edge. */
  datatype CompiledGraph = CompiledGraph(entry: Node, nodes: set<Node>, edges: map<Node, Edge>)

  /** Every edge leaves a declared node and leads to a declared node or to `End`; the entry is declared. */
  predicate WellFormed(g: CompiledGraph) {
    && g.entry in g.nodes
    && End !in g.nodes
    && (forall n :: n in g.edges ==> n in g.nodes)
    && (forall n :: n in g.edges && g.edges[n].Direct? ==> g.edges[n].target in g.nodes + {End})
    && (forall n, l :: n in g.edges && g.edges[n].Conditional? && l in g.edges[n].targets ==>
                       g.edges[n].targets[l] in g.nodes + {End})
  }

  /** The graph under construction: a set of nodes, and at most one outgoing edge per node (a later edge replaces it). */
  class StateGraph {
    var entry: Option<Node>
    var nodes: set<Node>
    var edges: map<Node, Edge>

    constructor ()
      ensures entry == None && nodes == {} && edges == map[]
    {
      entry, nodes, edges := None, {}, map[];
    }

    method SetEntryPoint(n: Node)
      modifies this
      ensures entry == Some(n) && nodes == old(nodes) && edges == old(edges)
    {
      entry := Some(n);
    }

    method AddNode(n: Node)
      modifies this
      ensures nodes == old(nodes) + {n} && entry == old(entry) && edges == old(edges)
    {
      nodes := nodes + {n};
    }

    method AddEdge(source: Node, target: Node)
      modifies this
      ensures edges == old(edges)[source := Direct(target)] && entry == old(entry) && nodes == old(nodes)
    {
      edges := edges[source := Direct(target)];
    }

    method AddConditionalEdges(source: Node, pathMap: map<Route, Node>)
      modifies this
      ensures edges == old(edges)[source := Conditional(pathMap)] && entry == old(entry) && nodes == old(nodes)
    {
      edges := edges[source := Conditional(pathMap)];
    }

    function Compile(): CompiledGraph
      requires entry.Some?
      reads this
    {
      CompiledGraph(entry.value, nodes, edges)
    }
  }

  /** The graph `build_issue_workflow` produces, compiled. */
  function IssueWorkflow(): (g: CompiledGraph)
    ensures WellFormed(g) && g.entry == Guardrail
    ensures g.nodes == {Guardrail, IssueSearch, Classification, Recommendation}
    ensures forall n :: n in g.nodes ==> n in g.edges
  {
    CompiledGraph(
      Guardrail,
      {Guardrail, IssueSearch, Classification, Recommendation},
      map[
        Guardrail := Conditional(map[Pass := IssueSearch, Block := End]),
        IssueSearch := Direct(Classification),
        Classification := Direct(Recommendation),
        Recommendation := Direct(End)])
  }

  /** `build_issue_workflow`: the builder calls, in the source's order. */
  method BuildIssueWorkflow() returns (builder: StateGraph)
    ensures fresh(builder) && builder.entry.Some?
    ensures builder.Compile() == IssueWorkflow()
    ensures WellFormed(builder.Compile())
  {
    builder := new StateGraph();
    builder.SetEntryPoint(Guardrail);
    builder.AddNode(Guardrail);
    builder.AddNode(IssueSearch);
    builder.AddNode(Classification);
    builder.AddNode(Recommendation);
    builder.AddConditionalEdges(Guardrail, map[Pass := IssueSearch, Block := End]);
    builder.AddEdge(IssueSearch, Classification);
    builder.AddEdge(Classification, Recommendation);
    builder.AddEdge(Recommendation, End);
  }

  /** `guardrail_condition`: "pass" exactly when `blocked` is absent or false. */
  function GuardrailCondition(blocked: Option<bool>): (route: Route)
    ensures route == Pass <==> (blocked == None || blocked == Some(false))
  {
    if blocked.Some? && blocked.value then Block else Pass
  }

  /**
   * The node after `n`, given the state `n` produced. Going to `End` when `n` has no edge, or when
   * the route label is missing from the branch's targets, is this model's convention for cases the
   * issue workflow never reaches: `IssueWorkflow` gives every node an edge, and its branch maps both
   * labels `GuardrailCondition` returns.
   */
  function Next(g: CompiledGraph, n: Node, r: M.IssueRecord): (m: Node)
    ensures WellFormed(g) ==> m in g.nodes + {End}
    ensures n !in g.edges ==> m == End
  {
    if n !in g.edges then End
    else
      match g.edges[n]
      case Direct(t) => t
      case Conditional(targets) =>
        var route := GuardrailCondition(r.blocked);
        if route in targets then targets[route] else End
  }

  /** What running node `n` does to the state. */
  function Execute(n: Node, r: M.IssueRecord, svc: A.Services): (r': M.IssueRecord)
    ensures r'.title == r.title && r'.body == r.body
    ensures n == End ==> r' == r
  {
    match n
    case Guardrail => A.GuardrailStep(r, svc.guard)
    case IssueSearch => A.SearchStep(r, svc.search)
    case Classification => A.ClassifyStep(r, svc.classify)
    case Recommendation => A.RecommendStep(r, svc.summarize)
    case End => r
  }

  /** A node's distance from `End` along the workflow's longest path. */
  function Rank(n: Node): nat {
    match n
    case Guardrail => 4
    case IssueSearch => 3
    case Classification => 2
    case Recommendation => 1
    case End => 0
  }

  /**
   * The workflow's routing: after the guardrail, on to the search or to the end as
   * `guardrail_condition` says; then search, classification and recommendation in a fixed line.
   */
  lemma WorkflowNext(n: Node, r: M.IssueRecord)
    ensures Next(IssueWorkflow(), n, r) ==
              match n
              case Guardrail => if GuardrailCondition(r.blocked) == Pass then IssueSearch else End
              case IssueSearch => Classification
              case Classification => Recommendation
              case Recommendation => End
              case End => End
  {
  }

  /** Every edge of the workflow goes down in rank, so the graph has no cycle. */
  lemma NextDescends(n: Node, r: M.IssueRecord)
    requires n != End
    ensures Rank(Next(IssueWorkflow(), n, r)) < Rank(n)
  {
    WorkflowNext(n, r);
  }

  /** The final state of a run and the nodes it executed, in order. */
  datatype RunResult = RunResult(final: M.IssueRecord, visited: seq<Node>)

  /** Running the workflow from node `n` on state `r` until `End`. */
  function RunFrom(n: Node, r: M.IssueRecord, svc: A.Services): RunResult
    decreases Rank(n)
  {
    if n == End then RunResult(r, [])
    else
      var r' := Execute(n, r, svc);
      var n' := Next(IssueWorkflow(), n, r');
      NextDescends(n, r');
      var rest := RunFrom(n', r', svc);
      RunResult(rest.final, [n] + rest.visited)
  }

  /** A run of the compiled workflow from its entry node. */
  function Run(r: M.IssueRecord, svc: A.Services): RunResult {
    RunFrom(IssueWorkflow().entry, r, svc)
  }

  /** When the guardrail blocks, the run ends after it: no search, classification or recommendation runs. */
  lemma BlockedRunStops(r: M.IssueRecord, svc: A.Services)
    requires GuardrailCondition(A.GuardrailStep(r, svc.guard).blocked) == Block
    ensures Run(r, svc).visited == [Guardrail]
    ensures Run(r, svc).final == A.GuardrailStep(r, svc.guard)
  {
    WorkflowNext(Guardrail, A.GuardrailStep(r, svc.guard));
    RunFromUnfold(Guardrail, r, svc);
  }

  /** One step of a run: execute `n`, then run on from the node its outgoing edge picks. */
  lemma RunFromUnfold(n: Node, r: M.IssueRecord, svc: A.Services)
    requires n != End
    ensures var r' := Execute(n, r, svc);
            var rest := RunFrom(Next(IssueWorkflow(), n, r'), r', svc);
            RunFrom(n, r, svc) == RunResult(rest.final, [n] + rest.visited)
  {
  }

  lemma RunFromRecommendation(r: M.IssueRecord, svc: A.Services)
    ensures RunFrom(Recommendation, r, svc) == RunResult(A.RecommendStep(r, svc.summarize), [Recommendation])
  {
    WorkflowNext(Recommendation, A.RecommendStep(r, svc.summarize));
    RunFromUnfold(Recommendation, r, svc);
  }

  lemma RunFromClassification(r: M.IssueRecord, svc: A.Services)
    ensures RunFrom(Classification, r, svc) ==
              RunResult(A.RecommendStep(A.ClassifyStep(r, svc.classify), svc.summarize), [Classification, Recommendation])
  {
    WorkflowNext(Classification, A.ClassifyStep(r, svc.classify));
    RunFromUnfold(Classification, r, svc);
    RunFromRecommendation(A.ClassifyStep(r, svc.classify), svc);
  }

  lemma RunFromIssueSearch(r: M.IssueRecord, svc: A.Services)
    ensures RunFrom(IssueSearch, r, svc) ==
              RunResult(A.RecommendStep(A.ClassifyStep(A.SearchStep(r, svc.search), svc.classify), svc.summarize),
                        [IssueSearch, Classification, Recommendation])
  {
    WorkflowNext(IssueSearch, A.SearchStep(r, svc.search));
    RunFromUnfold(IssueSearch, r, svc);
    RunFromClassification(A.SearchStep(r, svc.search), svc);
  }

  /**
   * When the guardrail passes, search, classification and recommendation each run once, in that
   * order, whatever each stage's call returns: a failed stage does not end the run.
   */
  lemma PassingRunVisitsEveryStage(r: M.IssueRecord, svc: A.Services)
    requires GuardrailCondition(A.GuardrailStep(r, svc.guard).blocked) == Pass
    ensures Run(r, svc).visited == [Guardrail, IssueSearch, Classification, Recommendation]
    ensures Run(r, svc).final ==
              A.RecommendStep(A.ClassifyStep(A.SearchStep(A.GuardrailStep(r, svc.guard), svc.search), svc.classify), svc.summarize)
  {
    var g := A.GuardrailStep(r, svc.guard);
    WorkflowNext(Guardrail, g);
    RunFromUnfold(Guardrail, r, svc);
    RunFromIssueSearch(g, svc);
  }

  /** From node `n`, a run executes at most `Rank(n)` nodes, none of them `End`. */
  lemma {:induction false} RunFromIsShort(n: Node, r: M.IssueRecord, svc: A.Services)
    ensures var v := RunFrom(n, r, svc).visited;
            |v| <= Rank(n) && forall k :: 0 <= k < |v| ==> v[k] != End
    decreases Rank(n)
  {
    if n != End {
      var r' := Execute(n, r, svc);
      var n' := Next(IssueWorkflow(), n, r');
      RunFromUnfold(n, r, svc);
      NextDescends(n, r');
      RunFromIsShort(n', r', svc);
    }
  }

  /** Every run starts at the guardrail, executes at most four stages and never executes `End`. */
  lemma RunIsShort(r: M.IssueRecord, svc: A.Services)
    ensures var v := Run(r, svc).visited;
            && 1 <= |v| <= 4
            && v[0] == Guardrail
            && forall k :: 0 <= k < |v| ==> v[k] != End
  {
    RunFromUnfold(Guardrail, r, svc);
    RunFromIsShort(Guardrail, r, svc);
  }

  /** How many of the stages from `n` on may log an error: all but the guardrail. */
  function LoggingStages(n: Node): nat {
    if n == Guardrail then 3 else Rank(n)
  }

  /** Executing one node keeps the error log's earlier entries and adds at most one. */
  lemma ExecuteKeepsErrors(n: Node, r: M.IssueRecord, svc: A.Services)
    ensures var e := Execute(n, r, svc).Errors();
            |r.Errors()| <= |e| <= |r.Errors()| + (if n == Guardrail || n == End then 0 else 1)
            && e[..|r.Errors()|] == r.Errors()
  {
    match n
    case Guardrail =>
    case IssueSearch =>
      var r' := A.SearchStep(r, svc.search);
      assert r'.Errors()[..|r.Errors()|] == r.Errors();
    case Classification =>
      var r' := A.ClassifyStep(r, svc.classify);
      assert r'.Errors()[..|r.Errors()|] == r.Errors();
    case Recommendation =>
      var r' := A.RecommendStep(r, svc.summarize);
      assert r'.Errors()[..|r.Errors()|] == r.Errors();
    case End =>
  }

  /** From node `n`, a run only appends to `errors`, at most one entry per logging stage. */
  lemma {:induction false} RunFromKeepsErrors(n: Node, r: M.IssueRecord, svc: A.Services)
    ensures var e := RunFrom(n, r, svc).final.Errors();
            |r.Errors()| <= |e| <= |r.Errors()| + LoggingStages(n) && e[..|r.Errors()|] == r.Errors()
    decreases Rank(n)
  {
    if n != End {
      var r' := Execute(n, r, svc);
      var n' := Next(IssueWorkflow(), n, r');
      RunFromUnfold(n, r, svc);
      NextDescends(n, r');
      WorkflowNext(n, r');
      ExecuteKeepsErrors(n, r, svc);
      RunFromKeepsErrors(n', r', svc);
      var e := RunFrom(n, r, svc).final.Errors();
      assert e[..|r'.Errors()|] == r'.Errors();
      assert e[..|r.Errors()|] == r'.Errors()[..|r.Errors()|];
    }
  }

  /** A run only appends to `errors`: earlier entries survive, and each stage adds at most one. */
  lemma RunKeepsErrors(r: M.IssueRecord, svc: A.Services)
    ensures var e := Run(r, svc).final.Errors();
            |r.Errors()| <= |e| <= |r.Errors()| + 3 && e[..|r.Errors()|] == r.Errors()
  {
    RunFromKeepsErrors(Guardrail, r, svc);
  }

  /** The graph's executor for one node: the stage method the node was registered with. */
  method ExecuteNode(state: M.IssueState, n: Node, svc: A.Services)
    modifies state
    ensures state.Record() == Execute(n, old(state.Record()), svc)
  {
    match n
    case Guardrail => A.GuardrailAgent(state, svc.guard);
    case IssueSearch => A.IssueSearchAgent(state, svc.search);
    case Classification => A.ClassificationAgent(state, svc.classify);
    case Recommendation => A.RecommendationAgent(state, svc.summarize);
    case End =>
  }

  /** One iteration of the executor's loop keeps it on course for the run it started. */
  lemma RunStep(n: Node, before: M.IssueRecord, after: M.IssueRecord, visited: seq<Node>, goal: RunResult, svc: A.Services)
    requires n != End && after == Execute(n, before, svc)
    requires RunFrom(n, before, svc).final == goal.final
    requires visited + RunFrom(n, before, svc).visited == goal.visited
    ensures var n' := Next(IssueWorkflow(), n, after);
            && Rank(n') < Rank(n)
            && RunFrom(n', after, svc).final == goal.final
            && (visited + [n]) + RunFrom(n', after, svc).visited == goal.visited
  {
    NextDescends(n, after);
    RunFromUnfold(n, before, svc);
  }

  /** Runs the compiled workflow on `state`, one node at a time, and reports the nodes executed. */
  method RunWorkflow(g: CompiledGraph, state: M.IssueState, svc: A.Services) returns (visited: seq<Node>)
    requires g == IssueWorkflow()
    modifies state
    ensures RunResult(state.Record(), visited) == Run(old(state.Record()), svc)
  {
    var node := g.entry;
    visited := [];
    ghost var goal := Run(state.Record(), svc);
    while node != End
      invariant RunFrom(node, state.Record(), svc).final == goal.final
      invariant visited + RunFrom(node, state.Record(), svc).visited == goal.visited
      decreases Rank(node)
    {
      ghost var before := state.Record();
      ExecuteNode(state, node, svc);
      RunStep(node, before, state.Record(), visited, goal, svc);
      visited := visited + [node];
      node := Next(g, node, state.Record());
    }
  }

  /** `graph.ainvoke({"title": title, "body": body})`: a fresh state run through the workflow. */
  method ProcessIssue(title: string, body: string, svc: A.Services) returns (state: M.IssueState, visited: seq<Node>)
    ensures fresh(state)
    ensures RunResult(state.Record(), visited) ==
              Run(M.IssueRecord(Some(title), Some(body), None, None, None, None, None, None), svc)
  {
    var builder := BuildIssueWorkflow();
    var graph := builder.Compile();
    state := new M.IssueState(title, body);
    visited := RunWorkflow(graph, state, svc);
  }
}
