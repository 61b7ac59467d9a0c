/** Freezing resolved assets into a compiled run plan (src/compiler/materialization.rs). */
module Materialization {
  import opened Sequences
  import opened Wrappers
  import opened Text
  import opened Normalizers
  import opened CompilerContracts
  import opened PlanContracts
  import opened GraphCompilation
  import opened Assets
  import Capabilities
  import CapabilityGrants
  import TerminalActions

  datatype CompileError =
    | UnknownStageKind
    | UnknownEntryNode
    | UnknownCompletionTarget
    | InvalidStageKindReference
    | InvalidLearningTrigger
    | MissingGraph
    | RejectedGrant
    | ContractFailed

  // ---------------------------------------------------------------- nodes

  const DEFAULT_TIMEOUT: nat := 3600

  function FrameworkRequest(nodeId: string, idPart: string, capability: Capabilities.CapabilityId,
                            access: Capabilities.Access, scope: Capabilities.Scope): Capabilities.Request
  {
    Capabilities.Request(nodeId + ".framework." + idPart, capability, access, scope, true, false,
                         "default framework capability required to dispatch a stage", "stage_kind_default",
                         Some("stage_kind_default"))
  }

  function FrameworkRequests(nodeId: string, runner: Option<string>): seq<Capabilities.Request> {
    [FrameworkRequest(nodeId, "runner_invoke", Capabilities.RunnerInvoke, Capabilities.Execute,
                      Capabilities.Scope(Capabilities.Runner, runner.GetOr("default"), "")),
     FrameworkRequest(nodeId, "workspace_read", Capabilities.WorkspaceRead, Capabilities.Read,
                      Capabilities.Scope(Capabilities.Workspace, "workspace", "")),
     FrameworkRequest(nodeId, "artifact_write", Capabilities.ArtifactWrite, Capabilities.Write,
                      Capabilities.Scope(Capabilities.ArtifactKind, "stage_result", ""))]
  }

  function StageEntry<V>(m: map<string, seq<V>>, node: Node): seq<V> {
    if Overrides(m, node) then m[node.stageKindId] else []
  }

  function GrantSources(mode: Mode, kind: StageKind, node: Node, runner: Option<string>): CapabilityGrants.Sources {
    CapabilityGrants.Sources(
      FrameworkRequests(node.nodeId, runner), kind.requests, node.requests, mode.requests,
      StageEntry(mode.stageRequests, node), kind.overrides, mode.policies, StageEntry(mode.stageOverrides, node),
      node.policies, node.overrides)
  }

  /** The node's own setting, then the configuration's for its stage, then the mode's. */
  function Layered(own: Option<string>, configured: Option<string>, m: map<string, string>, node: Node):
      Option<string>
  {
    if Overrides(m, node) then Some(m[node.stageKindId]) else if configured.Some? then configured else own
  }

  const NO_STAGE_CONFIG := StageConfig(None, None, None, None)

  function StageConfigOf(config: Config, node: Node): StageConfig {
    if node.stageKindId in config.stages then config.stages[node.stageKindId] else NO_STAGE_CONFIG
  }

  function ThinkingOf(mode: Mode, config: Config, node: Node): Option<string> {
    if Overrides(mode.thinking, node) then mode.thinking[node.stageKindId]
    else
      var configured := StageConfigOf(config, node).thinkingLevel;
      if configured.Some? then configured else node.thinkingLevel
  }

  /** `values` with the further ones that are not in it yet. */
  function PushUnique(values: seq<string>, more: seq<string>): seq<string> {
    if more == [] then values
    else
      var earlier, last := PushUnique(values, more[..|more| - 1]), more[|more| - 1];
      if last in earlier then earlier else earlier + [last]
  }

  /** A node as its layers make it, before validation. */
  function LayeredNode(node: Node, plane: Plane, mode: Mode, config: Config, kind: StageKind,
                       grants: seq<CapabilityGrants.Grant>): MaterializedNode
  {
    var settings := StageConfigOf(config, node);
    var runner := Layered(node.runnerName, settings.runner, mode.runners, node);
    var thinking := ThinkingOf(mode, config, node);
    MaterializedNode(
      node.nodeId, node.stageKindId, plane, None, EntrypointOf(mode, kind, node), Some(node.nodeId + ".contract.v1"),
      kind.outcomes.runningMarker, kind.outcomes.classes, kind.details.outputArtifacts, kind.details.requiredSkills,
      PushUnique(node.attachedSkills, StageEntry(mode.skills, node)), runner,
      Layered(node.modelName, settings.model, mode.models, node), thinking,
      if runner == Some("codex_cli") then thinking else None,
      settings.timeoutSeconds.GetOr(node.timeoutSeconds.GetOr(DEFAULT_TIMEOUT)), grants, None, map[], [])
  }

  function Contract<T>(r: Normalized<T>): Result<T, CompileError> {
    match r
    case Ok(x) => Ok(x)
    case Err(_) => Err(ContractFailed)
  }

  function NodePlan(t: Tokens, c: ClassesRule, node: Node, plane: Plane, mode: Mode, config: Config,
                    kinds: map<string, StageKind>): Result<MaterializedNode, CompileError>
  {
    if node.stageKindId !in kinds then Err(UnknownStageKind)
    else
      var kind := kinds[node.stageKindId];
      var runner := Layered(node.runnerName, StageConfigOf(config, node).runner, mode.runners, node);
      match CapabilityGrants.CompiledGrants(node.nodeId, GrantSources(mode, kind, node, runner), config.capabilities)
      case Err(_) => Err(RejectedGrant)
      case Ok(grants) => Contract(NormalMaterialized(t, c, LayeredNode(node, plane, mode, config, kind, grants)))
  }

  /** One layer after another overwrites the settings of a node. */
  method LayerSettings(node: Node, mode: Mode, config: Config, kind: StageKind)
    returns (entrypoint: string, runner: Option<string>, model: Option<string>, thinking: Option<string>, timeout: nat)
    ensures entrypoint == EntrypointOf(mode, kind, node)
    ensures runner == Layered(node.runnerName, StageConfigOf(config, node).runner, mode.runners, node)
    ensures model == Layered(node.modelName, StageConfigOf(config, node).model, mode.models, node)
    ensures thinking == ThinkingOf(mode, config, node)
    ensures timeout == StageConfigOf(config, node).timeoutSeconds.GetOr(node.timeoutSeconds.GetOr(DEFAULT_TIMEOUT))
  {
    var settings := StageConfigOf(config, node);
    entrypoint := kind.details.defaultEntrypoint;
    if node.entrypointPath.Some? { entrypoint := node.entrypointPath.value; }
    if Overrides(mode.entrypoints, node) { entrypoint := mode.entrypoints[node.stageKindId]; }
    runner := node.runnerName;
    if settings.runner.Some? { runner := settings.runner; }
    if Overrides(mode.runners, node) { runner := Some(mode.runners[node.stageKindId]); }
    model := node.modelName;
    if settings.model.Some? { model := settings.model; }
    if Overrides(mode.models, node) { model := Some(mode.models[node.stageKindId]); }
    thinking := node.thinkingLevel;
    if settings.thinkingLevel.Some? { thinking := settings.thinkingLevel; }
    if Overrides(mode.thinking, node) { thinking := mode.thinking[node.stageKindId]; }
    timeout := node.timeoutSeconds.GetOr(DEFAULT_TIMEOUT);
    if settings.timeoutSeconds.Some? { timeout := settings.timeoutSeconds.value; }
  }

  method AttachSkills(values: seq<string>, more: seq<string>) returns (skills: seq<string>)
    ensures skills == PushUnique(values, more)
  {
    skills := values;
    for i := 0 to |more|
      invariant skills == PushUnique(values, more[..i])
    {
      assert more[..i + 1][..i] == more[..i];
      if more[i] !in skills { skills := skills + [more[i]]; }
    }
    assert more[..|more|] == more;
  }

  method MaterializeNode(t: Tokens, c: ClassesRule, node: Node, plane: Plane, mode: Mode, config: Config,
                         kinds: map<string, StageKind>) returns (r: Result<MaterializedNode, CompileError>)
    ensures r == NodePlan(t, c, node, plane, mode, config, kinds)
  {
    if node.stageKindId !in kinds { return Err(UnknownStageKind); }
    var kind := kinds[node.stageKindId];
    var entrypoint, runner, model, thinking, timeout := LayerSettings(node, mode, config, kind);
    var skills := AttachSkills(node.attachedSkills, StageEntry(mode.skills, node));
    var grants := CapabilityGrants.CompileCapabilityContext(
      node.nodeId, GrantSources(mode, kind, node, runner), config.capabilities);
    if grants.Err? { return Err(RejectedGrant); }
    var plan := MaterializedNode(
      node.nodeId, node.stageKindId, plane, None, entrypoint, Some(node.nodeId + ".contract.v1"),
      kind.outcomes.runningMarker, kind.outcomes.classes, kind.details.outputArtifacts, kind.details.requiredSkills,
      skills, runner, model, thinking, if runner == Some("codex_cli") then thinking else None, timeout, grants.value,
      None, map[], []);
    assert plan == LayeredNode(node, plane, mode, config, kind, grants.value);
    return Contract(NormalMaterialized(t, c, plan));
  }

  // ---------------------------------------------------------------- graphs

  function NodePlanner(t: Tokens, c: ClassesRule, plane: Plane, mode: Mode, config: Config,
                       kinds: map<string, StageKind>):
      Node -> Result<MaterializedNode, CompileError>
  {
    (n: Node) => NodePlan(t, c, n, plane, mode, config, kinds)
  }

  /** The stage kind of the last node of an id. */
  function KindOf(nodes: seq<MaterializedNode>, nodeId: string): Option<string> {
    if nodes == [] then None
    else if nodes[|nodes| - 1].nodeId == nodeId then Some(nodes[|nodes| - 1].stageKindId)
    else KindOf(nodes[..|nodes| - 1], nodeId)
  }

  function EntryPlanner(nodes: seq<MaterializedNode>, plane: Plane): Entry -> Result<CompiledEntry, CompileError> {
    (e: Entry) =>
      match KindOf(nodes, e.nodeId)
      case None => Err(UnknownEntryNode)
      case Some(kindId) => Ok(CompiledEntry(e.key, e.nodeId, kindId, plane))
  }

  function CompletionPlan(g: GraphLoop, nodes: seq<MaterializedNode>): Result<Option<CompletionEntry>, CompileError> {
    match g.completion
    case None => Ok(None)
    case Some(b) =>
      match KindOf(nodes, b.targetNodeId)
      case None => Err(UnknownCompletionTarget)
      case Some(kindId) =>
        Ok(Some(CompletionEntry(ClosureTarget, b.targetNodeId, kindId, g.plane, b.literalsHold, b.onPass, b.onGap,
                                b.skipIfAlreadyClosed, b.incidentOnGap)))
  }

  /** The configured limit a threshold policy counts up to. */
  function ThresholdOf(p: ThresholdPolicy, config: Config): nat {
    match p.counter
    case FixCycleCount => config.maxFixCycles
    case TroubleshootAttemptCount => config.maxTroubleshootAttempts
    case MechanicAttemptCount => config.maxMechanicAttempts
  }

  function Thresholds(policies: seq<ThresholdPolicy>, config: Config): (compiled: seq<ThresholdPolicy>)
    ensures |compiled| == |policies|
    ensures forall i :: 0 <= i < |policies| ==>
              compiled[i] == policies[i].(threshold := ThresholdOf(policies[i], config))
  {
    seq(|policies|, i requires 0 <= i < |policies| => policies[i].(threshold := ThresholdOf(policies[i], config)))
  }

  function GrantsOf(nodes: seq<MaterializedNode>): seq<CapabilityGrants.Grant> {
    if nodes == [] then [] else nodes[0].grants + GrantsOf(nodes[1..])
  }

  /** A graph plan around its materialized nodes, before validation. */
  function FrozenAround(g: GraphLoop, config: Config, nodes: seq<MaterializedNode>, entries: seq<CompiledEntry>,
                        completion: Option<CompletionEntry>): FrozenGraph
  {
    FrozenGraph(g.loopId, g.plane, nodes, g.entries, g.edges, entries, completion, Transitions(g.edges),
                g.resumePolicies, Thresholds(g.thresholdPolicies, config), g.terminalStates, g.completion,
                CapabilityGrants.SummaryOf(GrantsOf(nodes)))
  }

  function GraphPlan(t: Tokens, c: ClassesRule, g: GraphLoop, mode: Mode, config: Config,
                     kinds: map<string, StageKind>):
      Result<FrozenGraph, CompileError>
  {
    if !SemanticsHold(kinds, g) then Err(InvalidStageKindReference)
    else
      var nodes :- Each(NodePlanner(t, c, g.plane, mode, config, kinds), g.nodes);
      var entries :- Each(EntryPlanner(nodes, g.plane), g.entries);
      var completion :- CompletionPlan(g, nodes);
      Contract(NormalFrozen(t, c, FrozenAround(g, config, nodes, entries, completion)))
  }

  // ---------------------------------------------------------------- transitions survive validation

  /** The parts of a validated edge are normal, and so are the transitions made of it. */
  lemma TransitionIsNormal(t: Tokens, e: Edge, outcome: string)
    requires StableTokens(t) && NormalEdge(t, e) == Ok(e) && outcome in e.onOutcomes
    ensures NormalTransition(t, EdgeTransition(e, outcome)) == Ok(EdgeTransition(e, outcome))
  {
    EachIsNormal(t.status, e.onOutcomes);
    DedupeKeeps(Each(t.status, e.onOutcomes).value);
  }

  lemma {:induction false} TransitionsAreNormal(t: Tokens, edges: seq<Edge>)
    requires StableTokens(t) && forall e :: e in edges ==> NormalEdge(t, e) == Ok(e)
    ensures forall x :: x in Transitions(edges) ==> NormalTransition(t, x) == Ok(x)
  {
    if edges != [] {
      var n := |edges| - 1;
      var last := edges[n];
      assert last in edges;
      TransitionsAreNormal(t, edges[..n]);
      forall i | 0 <= i < |last.onOutcomes|
        ensures NormalTransition(t, EdgeTransition(last, last.onOutcomes[i]))
                == Ok(EdgeTransition(last, last.onOutcomes[i]))
      {
        TransitionIsNormal(t, last, last.onOutcomes[i]);
      }
    }
  }

  lemma ValidatedParts(r: GraphRules, g: GraphLoop)
    requires GraphParts(r, g) == Ok(g)
    ensures Each(r.edge, g.edges) == Ok(g.edges) && Each(r.entry, g.entries) == Ok(g.entries)
    ensures Each(r.state, g.terminalStates) == Ok(g.terminalStates)
  {}

  lemma ValidatedEdge(t: Tokens, e: Edge)
    requires NormalEdge(t, e) == Ok(e)
    ensures TargetShape(e.kind, e.toNodeId, e.terminalStateId, e.maxAttempts)
  {}

  lemma ValidatedEdges(t: Tokens, edges: seq<Edge>)
    requires StableTokens(t) && Each(EdgeRule(t), edges) == Ok(edges)
    ensures forall e :: e in edges ==> NormalEdge(t, e) == Ok(e)
    ensures ShapesHold(edges)
  {
    PartsStable(t);
    EachIsNormal(EdgeRule(t), edges);
    forall e | e in edges
      ensures NormalEdge(t, e) == Ok(e) && TargetShape(e.kind, e.toNodeId, e.terminalStateId, e.maxAttempts)
    {
      assert EdgeRule(t)(e) == Ok(e);
      ValidatedEdge(t, e);
    }
  }

  /** What validation leaves of a graph plan. */
  lemma FrozenFlow(r: FrozenRules, f: FrozenGraph, normal: FrozenGraph)
    requires FrozenParts(r, f) == Ok(normal)
    ensures Each(r.transition, f.transitions) == Ok(normal.transitions)
    ensures Each(r.graph.edge, f.edges) == Ok(normal.edges) && Each(r.graph.entry, f.entries) == Ok(normal.entries)
    ensures Each(r.graph.state, f.terminalStates) == Ok(normal.terminalStates)
    ensures Each(r.node, f.nodes) == Ok(normal.nodes) && normal.plane == f.plane
  {}

  /** The plan moves as the graph does. */
  ghost predicate Flows(f: FrozenGraph, g: GraphLoop) {
    && f.plane == g.plane && f.transitions == Transitions(g.edges) && f.edges == g.edges && f.entries == g.entries
    && f.terminalStates == g.terminalStates
  }

  lemma ValidationKeepsFlow(t: Tokens, c: ClassesRule, g: GraphLoop, before: FrozenGraph, f: FrozenGraph)
    requires StableTokens(t) && NormalGraph(t, g) == Ok(g) && Flows(before, g) && NormalFrozen(t, c, before) == Ok(f)
    ensures Flows(f, g)
  {
    ValidatedParts(GraphRulesOf(t), g);
    ValidatedEdges(t, g.edges);
    TransitionsAreNormal(t, g.edges);
    NormalStays(TransitionRule(t), Transitions(g.edges));
    FrozenFlow(FrozenRulesOf(t, c), before, f);
  }

  lemma GraphPlanParts(t: Tokens, c: ClassesRule, g: GraphLoop, mode: Mode, config: Config,
                       kinds: map<string, StageKind>, f: FrozenGraph)
    returns (nodes: seq<MaterializedNode>, before: FrozenGraph)
    requires GraphPlan(t, c, g, mode, config, kinds) == Ok(f)
    ensures Each(NodePlanner(t, c, g.plane, mode, config, kinds), g.nodes) == Ok(nodes)
    ensures before.nodes == nodes && Flows(before, g) && NormalFrozen(t, c, before) == Ok(f) && SemanticsHold(kinds, g)
  {
    nodes := Each(NodePlanner(t, c, g.plane, mode, config, kinds), g.nodes).value;
    before := FrozenAround(g, config, nodes, Each(EntryPlanner(nodes, g.plane), g.entries).value,
                           CompletionPlan(g, nodes).value);
  }

  /** Main result: the plan of a validated graph has exactly the compiled transitions of its edges, and
      its edges, entries and terminal states unchanged. */
  lemma GraphPlanKeepsFlow(t: Tokens, c: ClassesRule, g: GraphLoop, mode: Mode, config: Config,
                           kinds: map<string, StageKind>, f: FrozenGraph)
    requires StableTokens(t) && NormalGraph(t, g) == Ok(g) && GraphPlan(t, c, g, mode, config, kinds) == Ok(f)
    ensures Flows(f, g)
  {
    var _, before := GraphPlanParts(t, c, g, mode, config, kinds, f);
    ValidationKeepsFlow(t, c, g, before, f);
  }

  /** Main result: the export of a plan that moves as a validated graph does shows exactly the steps the
      graph declares, and every walk through it keeps to known places, legal outcomes and ended handoffs. */
  lemma FlowKeepsMeaning(t: Tokens, g: GraphLoop, kinds: map<string, StageKind>, f: FrozenGraph, start: string,
                         walk: seq<Step>)
    requires StableTokens(t) && NormalGraph(t, g) == Ok(g) && SemanticsHold(kinds, g) && Flows(f, g)
    ensures forall s :: GraphSteps(g.edges, s) <==> ExportedSteps(ExportGraph(f).edges, s)
    ensures IsWalk(Exported(f), start, walk) ==> forall i :: 0 <= i < |walk| ==> GoodStep(kinds, g, walk[i])
  {
    forall s ensures GraphSteps(g.edges, s) <==> ExportedSteps(ExportGraph(f).edges, s) {
      CompilingKeepsSteps(g.edges, s);
      ExportKeepsSteps(f, s);
    }
    ValidatedParts(GraphRulesOf(t), g);
    ValidatedEdges(t, g.edges);
    if IsWalk(Exported(f), start, walk) { ExportedWalksAreGood(kinds, g, f, start, walk); }
  }
}
