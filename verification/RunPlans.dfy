/** The compiled run plan of a resolved asset set (src/compiler/materialization.rs). */
module RunPlans {
  import opened Sequences
  import opened Wrappers
  import opened Text
  import opened Normalizers
  import opened AssetPaths
  import opened CompilerContracts
  import opened PlanContracts
  import opened GraphCompilation
  import opened Assets
  import opened AssetReuse
  import opened Materialization
  import CapabilityGrants
  import TerminalActions

  /** The selected workflow primitives that reach into graphs. */
  datatype Primitives = Primitives(bundle: TerminalActions.Bundle, lanes: map<Plane, string>, profiles: set<string>)

  datatype Extras = Extras(primitives: Primitives, learningRules: seq<LearningRule>)

  /** Token rules, class rules, the contracts of the extras, and the digest that names a plan. */
  datatype Env = Env(
    t: Tokens,
    c: ClassesRule,
    x: Extras -> Normalized<Extras>,
    planId: (string, map<Plane, string>, map<Plane, FrozenGraph>, seq<LearningRule>) -> string)

  // ---------------------------------------------------------------- authority over nodes

  /** The terminal actions of a node, when every class it ends in has one. */
  ghost function ActionsOf(b: TerminalActions.Bundle, f: FrozenGraph, nodeId: string): Option<map<string, string>> {
    if exists m :: TerminalActions.MapsActions(m, b, f.terminalStates, f.transitions, nodeId) then
      var m :| TerminalActions.MapsActions(m, b, f.terminalStates, f.transitions, nodeId);
      Some(m)
    else None
  }

  function ProfileOf(p: Primitives, n: MaterializedNode): Option<string> {
    if n.stageKindId + ".default" in p.profiles then Some(n.stageKindId + ".default")
    else if n.plane == Learning && "learning.default" in p.profiles then Some("learning.default")
    else None
  }

  function RuleIds(rules: seq<TerminalActions.EffectRule>, nodeId: string): seq<string> {
    if rules == [] then []
    else (if rules[0].sourceNodeId == nodeId then [rules[0].ruleId] else []) + RuleIds(rules[1..], nodeId)
  }

  ghost function Empowered(p: Primitives, f: FrozenGraph, n: MaterializedNode): MaterializedNode {
    n.(laneId := if f.plane in p.lanes then Some(p.lanes[f.plane]) else None,
       contextProfileId := ProfileOf(p, n),
       effectRules := RuleIds(p.bundle.rules, n.nodeId),
       terminalActions := ActionsOf(p.bundle, f, n.nodeId).GetOr(map[]))
  }

  ghost function EmpoweredNodes(p: Primitives, f: FrozenGraph): (nodes: seq<MaterializedNode>)
    ensures |nodes| == |f.nodes| && forall i :: 0 <= i < |nodes| ==> nodes[i] == Empowered(p, f, f.nodes[i])
  {
    seq(|f.nodes|, i requires 0 <= i < |f.nodes| => Empowered(p, f, f.nodes[i]))
  }

  ghost function WithAuthority(e: Env, p: Primitives, f: FrozenGraph): Result<FrozenGraph, CompileError> {
    if exists n :: n in f.nodes && ActionsOf(p.bundle, f, n.nodeId).None? then Err(ContractFailed)
    else Contract(NormalFrozen(e.t, e.c, f.(nodes := EmpoweredNodes(p, f))))
  }

  // ---------------------------------------------------------------- the plan

  ghost function PlannedGraph(e: Env, s: Selection, p: Primitives, config: Config, g: GraphAsset):
      Result<FrozenGraph, CompileError>
  {
    var frozen :- GraphPlan(e.t, e.c, g.graph, s.mode, config, KindMap(s.kinds));
    WithAuthority(e, p, frozen)
  }

  ghost function GraphPlanner(e: Env, s: Selection, p: Primitives, config: Config):
      GraphAsset -> Result<FrozenGraph, CompileError>
  {
    (g: GraphAsset) => PlannedGraph(e, s, p, config, g)
  }

  function ByPlane(graphs: seq<FrozenGraph>): map<Plane, FrozenGraph> {
    if graphs == [] then map[]
    else ByPlane(graphs[..|graphs| - 1])[graphs[|graphs| - 1].plane := graphs[|graphs| - 1]]
  }

  predicate RunsStage(nodes: seq<(Plane, Node)>, stage: string) {
    exists i :: 0 <= i < |nodes| && nodes[i].1.stageKindId == stage
  }

  /** Triggers join stages of the selected loops, and the curator is given a destination. */
  predicate TriggersHold(rules: seq<LearningRule>, nodes: seq<(Plane, Node)>) {
    forall r :: r in rules ==>
      && RunsStage(nodes, r.sourceStage) && RunsStage(nodes, r.targetStage)
      && (r.targetStage == "curator" ==> r.targetSkill.Some? || r.outputPaths != [])
  }

  function AllGrants(graphs: seq<FrozenGraph>): seq<CapabilityGrants.Grant> {
    if graphs == [] then [] else GrantsOf(graphs[0].nodes) + AllGrants(graphs[1..])
  }

  function LoopRefs(graphs: map<Plane, FrozenGraph>, plane: Plane): seq<string> {
    if plane in graphs then ["graph_loop:" + graphs[plane].loopId] else []
  }

  function SourceRefs(modeId: string, graphs: map<Plane, FrozenGraph>): seq<string> {
    ["mode:" + modeId] + LoopRefs(graphs, Execution) + LoopRefs(graphs, Learning) + LoopRefs(graphs, Planning)
    + (if Planning in graphs && graphs[Planning].completion.Some?
       then ["graph_completion_behavior:" + graphs[Planning].loopId] else [])
    + ["workflow_primitives:v0.20", "workspace_schema_epoch:v0.20"]
  }

  /** The plan around its graphs, before validation. */
  function PlanAround(e: Env, r: Resolved<Primitives>, graphs: seq<FrozenGraph>, compiledAt: string): RunPlan<Extras>
    requires var m, p := r.selection.mode, ByPlane(graphs);
             Execution in m.loopIds && Planning in m.loopIds && Execution in p && Planning in p
             && (Learning in m.loopIds ==> Learning in p)
  {
    var mode, byPlane := r.selection.mode, ByPlane(graphs);
    var learning := Learning in mode.loopIds;
    RunPlan(true, e.planId(r.modeId, mode.loopIds, byPlane, mode.learningRules), r.fingerprint, r.modeId, mode.loopIds,
            mode.loopIds[Execution], mode.loopIds[Planning], if learning then Some(mode.loopIds[Learning]) else None,
            byPlane, byPlane[Execution], byPlane[Planning], if learning then Some(byPlane[Learning]) else None,
            mode.learningRules != [], CapabilityGrants.SummaryOf(AllGrants(graphs)),
            map plane | plane in byPlane :: byPlane[plane].summary,
            Extras(r.primitives, mode.learningRules), compiledAt, r.refs, SourceRefs(r.modeId, byPlane))
  }

  predicate PlanesBound(mode: Mode, graphs: map<Plane, FrozenGraph>) {
    && Execution in mode.loopIds && Planning in mode.loopIds
    && Execution in graphs && Planning in graphs && (Learning in mode.loopIds ==> Learning in graphs)
  }

  /** The validated plan of the planned graphs. */
  function Assembled(e: Env, r: Resolved<Primitives>, graphs: seq<FrozenGraph>, compiledAt: string):
      Result<RunPlan<Extras>, CompileError>
  {
    if !TriggersHold(r.selection.mode.learningRules, Nodes(r.selection.graphs)) then Err(InvalidLearningTrigger)
    else if !PlanesBound(r.selection.mode, ByPlane(graphs)) then Err(MissingGraph)
    else Contract(NormalPlan(FrozenRule(e.t, e.c), e.x, PlanAround(e, r, graphs, compiledAt)))
  }

  ghost function Materialize(e: Env, r: Resolved<Primitives>, compiledAt: string):
      Result<RunPlan<Extras>, CompileError>
  {
    var graphs :- Each(GraphPlanner(e, r.selection, r.primitives, r.config), r.selection.graphs);
    Assembled(e, r, graphs, compiledAt)
  }

  /** A plan compiled at another time. */
  function At(r: Result<RunPlan<Extras>, CompileError>, compiledAt: string): Result<RunPlan<Extras>, CompileError> {
    match r
    case Ok(p) => Ok(p.(compiledAt := compiledAt))
    case Err(e) => Err(e)
  }

  lemma ChecksIgnoreTime<X>(p: RunPlan<X>, time: string)
    ensures IdentitiesHold(p.(compiledAt := time)) == IdentitiesHold(p)
    ensures AliasesHold(p.(compiledAt := time)) == AliasesHold(p)
  {}

  lemma ValidationIgnoresTime<X>(graph: FrozenGraph -> Normalized<FrozenGraph>, x: X -> Normalized<X>, p: RunPlan<X>,
                                 time: string)
    ensures NormalPlan(graph, x, p.(compiledAt := time)) ==
              match NormalPlan(graph, x, p) case Ok(q) => Ok(q.(compiledAt := time)) case Err(e) => Err(e)
  {
    var later := p.(compiledAt := time);
    ChecksIgnoreTime(p, time);
    var parts := PlanParts(graph, x, p);
    assert PlanParts(graph, x, later) ==
      match parts case Ok(q) => Ok(q.(compiledAt := time)) case Err(e) => Err(e);
    if parts.Ok? { ChecksIgnoreTime(parts.value, time); }
  }

  lemma AroundAnotherTime(e: Env, r: Resolved<Primitives>, graphs: seq<FrozenGraph>, first: string, second: string)
    requires PlanesBound(r.selection.mode, ByPlane(graphs))
    ensures PlanAround(e, r, graphs, second) == PlanAround(e, r, graphs, first).(compiledAt := second)
  {}

  lemma ContractAtAnotherTime(e: Env, p: RunPlan<Extras>, time: string)
    ensures Contract(NormalPlan(FrozenRule(e.t, e.c), e.x, p.(compiledAt := time)))
            == At(Contract(NormalPlan(FrozenRule(e.t, e.c), e.x, p)), time)
  {
    ValidationIgnoresTime(FrozenRule(e.t, e.c), e.x, p, time);
  }

  lemma AssembledAtAnotherTime(e: Env, r: Resolved<Primitives>, graphs: seq<FrozenGraph>, first: string, second: string)
    ensures Assembled(e, r, graphs, second) == At(Assembled(e, r, graphs, first), second)
  {
    if PlanesBound(r.selection.mode, ByPlane(graphs)) {
      AroundAnotherTime(e, r, graphs, first, second);
      ContractAtAnotherTime(e, PlanAround(e, r, graphs, first), second);
    }
  }

  /** Main result: a plan depends on the time of the compile in its `compiled_at` only. */
  lemma OnlyTheTimeDiffers(e: Env, r: Resolved<Primitives>, first: string, second: string)
    ensures Materialize(e, r, second) == At(Materialize(e, r, first), second)
  {
    var graphs := Each(GraphPlanner(e, r.selection, r.primitives, r.config), r.selection.graphs);
    if graphs.Ok? { AssembledAtAnotherTime(e, r, graphs.value, first, second); }
  }

  // ---------------------------------------------------------------- the graphs of a plan

  lemma {:induction false} ByPlaneAre(graphs: seq<FrozenGraph>)
    ensures forall plane :: plane in ByPlane(graphs) ==>
              ByPlane(graphs)[plane] in graphs && ByPlane(graphs)[plane].plane == plane
  {
    if graphs != [] {
      ByPlaneAre(graphs[..|graphs| - 1]);
      assert graphs[|graphs| - 1] in graphs;
    }
  }

  /** The graphs of a plan are the planned ones, and its assets the resolved ones. */
  lemma PlanKeepsGraphs(e: Env, r: Resolved<Primitives>, time: string, p: RunPlan<Extras>)
    returns (graphs: seq<FrozenGraph>)
    requires Materialize(e, r, time) == Ok(p)
    ensures Each(GraphPlanner(e, r.selection, r.primitives, r.config), r.selection.graphs) == Ok(graphs)
    ensures p.graphs == ByPlane(graphs) && p.assets == r.refs
  {
    graphs := Each(GraphPlanner(e, r.selection, r.primitives, r.config), r.selection.graphs).value;
    NormalPlanAgrees(FrozenRule(e.t, e.c), e.x, PlanAround(e, r, graphs, time));
  }

  lemma AuthorityKeepsFlow(e: Env, p: Primitives, g: GraphLoop, frozen: FrozenGraph, f: FrozenGraph)
    requires StableTokens(e.t) && NormalGraph(e.t, g) == Ok(g) && Flows(frozen, g)
    requires WithAuthority(e, p, frozen) == Ok(f)
    ensures Flows(f, g)
  {
    ValidationKeepsFlow(e.t, e.c, g, frozen.(nodes := EmpoweredNodes(p, frozen)), f);
  }

  lemma PlannedGraphFlows(e: Env, s: Selection, p: Primitives, config: Config, g: GraphAsset, f: FrozenGraph)
    requires StableTokens(e.t) && NormalGraph(e.t, g.graph) == Ok(g.graph) && PlannedGraph(e, s, p, config, g) == Ok(f)
    ensures Flows(f, g.graph) && SemanticsHold(KindMap(s.kinds), g.graph)
  {
    var frozen := GraphPlan(e.t, e.c, g.graph, s.mode, config, KindMap(s.kinds)).value;
    var _, _ := GraphPlanParts(e.t, e.c, g.graph, s.mode, config, KindMap(s.kinds), frozen);
    GraphPlanKeepsFlow(e.t, e.c, g.graph, s.mode, config, KindMap(s.kinds), frozen);
    AuthorityKeepsFlow(e, p, g.graph, frozen, f);
  }

  /** Every graph of the selection is validated. */
  ghost predicate Validated(t: Tokens, s: Selection) {
    forall g :: g in s.graphs ==> NormalGraph(t, g.graph) == Ok(g.graph)
  }

  lemma PlannedFrom(e: Env, r: Resolved<Primitives>, time: string, p: RunPlan<Extras>, plane: Plane)
    returns (a: GraphAsset)
    requires StableTokens(e.t) && Validated(e.t, r.selection) && Materialize(e, r, time) == Ok(p) && plane in p.graphs
    ensures a in r.selection.graphs && a.graph.plane == plane
    ensures Flows(p.graphs[plane], a.graph) && SemanticsHold(KindMap(r.selection.kinds), a.graph)
  {
    var graphs := PlanKeepsGraphs(e, r, time, p);
    ByPlaneAre(graphs);
    var planner := GraphPlanner(e, r.selection, r.primitives, r.config);
    EachValue(planner, r.selection.graphs);
    var i :| 0 <= i < |graphs| && graphs[i] == p.graphs[plane];
    a := r.selection.graphs[i];
    assert planner(a) == Ok(graphs[i]);
    PlannedGraphFlows(e, r.selection, r.primitives, r.config, a, graphs[i]);
  }

  /** Graphs are parsed and then validated in place, as every contract is that is loaded. */
  ghost predicate LoadsGraphs<P>(d: Decoders<P>, t: Tokens, parse: Content -> Option<GraphLoop>) {
    forall content ::
      d.graph(content) == match parse(content) case Some(g) => ToOption(NormalGraph(t, g)) case None => None
  }

  function ToOption<T>(r: Normalized<T>): Option<T> {
    match r
    case Ok(x) => Some(x)
    case Err(_) => None
  }

  lemma LoadedIsValidated<P>(w: Workspace, d: Decoders<P>, t: Tokens, parse: Content -> Option<GraphLoop>, plane: Plane,
                             loopId: string)
    requires StableTokens(t) && LoadsGraphs(d, t, parse) && LoadGraph(w, d, plane, loopId).Ok?
    ensures var g := LoadGraph(w, d, plane, loopId).value.graph; NormalGraph(t, g) == Ok(g)
  {
    var a := LoadGraph(w, d, plane, loopId).value;
    var content := w.files[a.path];
    assert d.graph(content) == Some(a.graph);
    GraphStable(t, parse(content).value);
  }

  lemma SelectionIsValidated<P>(w: Workspace, d: Decoders<P>, t: Tokens, parse: Content -> Option<GraphLoop>,
                                modeId: string, s: Selection)
    requires StableTokens(t) && LoadsGraphs(d, t, parse) && Select(w, d, modeId) == Ok(s)
    ensures Validated(t, s)
  {
    SelectedParts(w, d, modeId, s);
    var loops := SortedLoops(s.mode.loopIds);
    EachValue(GraphLoader(w, d), loops);
    forall i | 0 <= i < |loops| ensures NormalGraph(t, s.graphs[i].graph) == Ok(s.graphs[i].graph) {
      assert GraphLoader(w, d)(loops[i]) == Ok(s.graphs[i]);
      LoadedIsValidated(w, d, t, parse, loops[i].0, loops[i].1);
    }
  }

  lemma SameFlowSameMeaning(t: Tokens, g: GraphLoop, kinds: map<string, StageKind>, f: FrozenGraph)
    requires StableTokens(t) && NormalGraph(t, g) == Ok(g) && SemanticsHold(kinds, g) && Flows(f, g)
    ensures forall s :: GraphSteps(g.edges, s) <==> ExportedSteps(ExportGraph(f).edges, s)
    ensures forall start, walk :: IsWalk(Exported(f), start, walk) ==>
              forall i :: 0 <= i < |walk| ==> GoodStep(kinds, g, walk[i])
  {
    FlowKeepsMeaning(t, g, kinds, f, "", []);
    forall start, walk | IsWalk(Exported(f), start, walk)
      ensures forall i :: 0 <= i < |walk| ==> GoodStep(kinds, g, walk[i])
    {
      FlowKeepsMeaning(t, g, kinds, f, start, walk);
    }
  }

  /** Main result: in the plan compiled from a workspace, the export of every plane's graph shows exactly
      the steps that one of the loaded graph loops of that plane declares, and every walk through it, of
      any length, takes known nodes on legal outcomes, ends in known terminal states, and on a Recon
      handoff outcome leads from a Recon node to no node. */
  lemma PlanKeepsMeaning(w: Workspace, d: Decoders<Primitives>, parse: Content -> Option<GraphLoop>, modeId: string,
                         config: Config, e: Env, r: Resolved<Primitives>, time: string, p: RunPlan<Extras>,
                         plane: Plane)
    returns (a: GraphAsset)
    requires StableTokens(e.t) && LoadsGraphs(d, e.t, parse) && ResolveMode(w, d, modeId, config) == Ok(r)
    requires Materialize(e, r, time) == Ok(p) && plane in p.graphs
    ensures a in r.selection.graphs && a.graph.plane == plane
    ensures forall s :: GraphSteps(a.graph.edges, s) <==> ExportedSteps(ExportGraph(p.graphs[plane]).edges, s)
    ensures forall start, walk :: IsWalk(Exported(p.graphs[plane]), start, walk) ==>
              forall i :: 0 <= i < |walk| ==> GoodStep(KindMap(r.selection.kinds), a.graph, walk[i])
  {
    ResolvedParts(w, d, modeId, config, r);
    SelectionIsValidated(w, d, e.t, parse, modeId, r.selection);
    a := PlannedFrom(e, r, time, p, plane);
    SameFlowSameMeaning(e.t, a.graph, KindMap(r.selection.kinds), p.graphs[plane]);
  }
}
