/** The graph, stage-kind and plan contracts of src/compiler/contracts.rs, normalised in place. */
module CompilerContracts {
  import opened Sequences
  import opened Wrappers
  import opened Text
  import opened Normalizers
  import Capabilities
  import CapabilityGrants

  datatype Plane = Execution | Planning | Learning

  datatype EdgeKind = NormalKind | RetryKind | EscalationKind | HandoffKind | TerminalKind

  datatype EntryKey =
    | TaskEntry | ProbeEntry | SpecEntry | IncidentEntry | BlueprintDraftEntry | ClosureTarget | LearningRequestEntry

  datatype TerminalClass = SuccessClass | NoOpClass | FollowupNeededClass | BlockedClass | EscalatePlanningClass

  datatype Counter = FixCycleCount | TroubleshootAttemptCount | MechanicAttemptCount

  datatype Node = Node(
    nodeId: string,
    stageKindId: string,
    entrypointPath: Option<string>,
    attachedSkills: seq<string>,
    runnerName: Option<string>,
    modelName: Option<string>,
    thinkingLevel: Option<string>,
    timeoutSeconds: Option<nat>,
    requests: seq<Capabilities.Request>,
    policies: seq<CapabilityGrants.PolicyOverride>,
    overrides: seq<CapabilityGrants.PolicyOverride>)

  datatype Entry = Entry(key: EntryKey, nodeId: string)

  datatype TerminalState = TerminalState(
    stateId: string, terminalClass: TerminalClass, writesStatus: string, emitsArtifacts: seq<string>,
    endsPlaneRun: bool)

  datatype Edge = Edge(
    edgeId: string,
    fromNodeId: string,
    toNodeId: Option<string>,
    terminalStateId: Option<string>,
    onOutcomes: seq<string>,
    kind: EdgeKind,
    priority: int,
    description: Option<string>,
    maxAttempts: Option<nat>)

  /** The six literals of a completion behaviour are compared, not normalised. */
  datatype Completion = Completion(
    literalsHold: bool, targetNodeId: string, onPass: string, onGap: string, skipIfAlreadyClosed: bool,
    incidentOnGap: bool)

  datatype ResumePolicy = ResumePolicy(
    policyId: string, sourceNodeId: string, onOutcome: string, defaultTarget: string, stageKeys: seq<string>,
    disallowedTargets: seq<string>)

  datatype ThresholdPolicy = ThresholdPolicy(
    policyId: string, sourceNodeIds: seq<string>, onOutcome: string, counter: Counter, threshold: nat,
    exhaustedTarget: Option<string>, exhaustedTerminal: Option<string>)

  datatype GraphLoop = GraphLoop(
    literalsHold: bool,
    loopId: string,
    plane: Plane,
    nodes: seq<Node>,
    edges: seq<Edge>,
    entries: seq<Entry>,
    terminalStates: seq<TerminalState>,
    resumePolicies: seq<ResumePolicy>,
    thresholdPolicies: seq<ThresholdPolicy>,
    completion: Option<Completion>)

  // ---------------------------------------------------------------- tokens

  /** The normalisers of single values. */
  datatype Tokens = Tokens(
    id: string -> Normalized<string>,
    status: string -> Normalized<string>,
    overrideName: string -> Normalized<string>,
    text: string -> Normalized<string>,
    entrypoint: string -> Normalized<string>,
    skill: string -> Normalized<string>,
    stagePlane: string -> Option<Plane>)

  /** The plane a built-in stage belongs to. */
  function StagePlane(stage: string): Option<Plane> {
    if stage in {"builder", "integrator", "checker", "fixer", "doublechecker", "updater", "troubleshooter",
                 "consultant"}
    then Some(Execution)
    else if stage in {"recon", "planner", "manager", "manager_blueprint", "contractor_blueprint",
                      "evaluator_blueprint", "mechanic", "mechanic_blueprint", "auditor", "arbiter"}
    then Some(Planning)
    else if stage in {"analyst", "professor", "curator", "librarian"} then Some(Learning)
    else None
  }

  const TOKENS := Tokens(CanonicalId, Status, OverrideName, NonEmptyText, MarkdownPath(ENTRYPOINTS),
                         MarkdownPath(SKILLS), StagePlane)

  ghost predicate StableTokens(t: Tokens) {
    && Stable(t.id) && Stable(t.status) && Stable(t.overrideName)
    && Stable(t.text) && Stable(t.entrypoint) && Stable(t.skill)
  }

  lemma TokensStable()
    ensures StableTokens(TOKENS)
  {
    CanonicalIdStable();
    StatusStable();
    OverrideNameStable();
    NonEmptyTextStable();
    MarkdownPathStable(ENTRYPOINTS);
    MarkdownPathStable(SKILLS);
  }

  // ---------------------------------------------------------------- the parts of a graph

  predicate NotBlank(value: Option<string>) { value.Some? ==> !IsBlank(value.value) }

  predicate RequestsHold(requests: seq<Capabilities.Request>) {
    forall r :: r in requests ==> CapabilityGrants.ValidRequest(r) && !IsBlank(r.requestedBy)
  }

  predicate OverridesHold(overrides: seq<CapabilityGrants.PolicyOverride>) {
    forall o :: o in overrides ==> o.scope.Some? ==> CapabilityGrants.ValidScope(o.scope.value)
  }

  function NormalNode(t: Tokens, n: Node): Normalized<Node> {
    var nodeId :- t.id(n.nodeId);
    var stageKindId :- t.id(n.stageKindId);
    var entrypoint :- Optionally(t.entrypoint, n.entrypointPath);
    var skills :- EachOnce(t.skill, n.attachedSkills);
    var _ :- Check(NotBlank(n.runnerName) && NotBlank(n.modelName) && NotBlank(n.thinkingLevel)
                   && n.timeoutSeconds != Some(0) && RequestsHold(n.requests) && OverridesHold(n.policies)
                   && OverridesHold(n.overrides), InvalidField);
    Ok(n.(nodeId := nodeId, stageKindId := stageKindId, entrypointPath := entrypoint, attachedSkills := skills))
  }

  function NormalEntry(t: Tokens, e: Entry): Normalized<Entry> {
    var nodeId :- t.id(e.nodeId);
    Ok(e.(nodeId := nodeId))
  }

  function NormalTerminalState(t: Tokens, s: TerminalState): Normalized<TerminalState> {
    var stateId :- t.id(s.stateId);
    var writesStatus :- t.status(s.writesStatus);
    var artifacts :- EachOnce(t.id, s.emitsArtifacts);
    Ok(s.(stateId := stateId, writesStatus := writesStatus, emitsArtifacts := artifacts))
  }

  /** One target; a terminal edge ends in a terminal state; attempts are limited on retries only. */
  predicate TargetShape(kind: EdgeKind, node: Option<string>, terminal: Option<string>, maxAttempts: Option<nat>) {
    && (node.Some? <==> terminal.None?)
    && (kind == TerminalKind ==> terminal.Some?)
    && (kind == RetryKind <==> maxAttempts.Some?)
  }

  function NormalEdge(t: Tokens, e: Edge): Normalized<Edge> {
    var edgeId :- t.id(e.edgeId);
    var fromNodeId :- t.id(e.fromNodeId);
    var toNodeId :- Optionally(t.id, e.toNodeId);
    var terminal :- Optionally(t.id, e.terminalStateId);
    var outcomes :- EachOnce(t.status, e.onOutcomes);
    var description :- Optionally(t.text, e.description);
    var _ :- Check(outcomes != [] && e.maxAttempts != Some(0), InvalidField);
    var _ :- Check(TargetShape(e.kind, toNodeId, terminal, e.maxAttempts), InvalidDocument);
    Ok(e.(edgeId := edgeId, fromNodeId := fromNodeId, toNodeId := toNodeId, terminalStateId := terminal,
          onOutcomes := outcomes, description := description))
  }

  function NormalCompletion(t: Tokens, c: Completion): Normalized<Completion> {
    var _ :- Check(c.literalsHold, InvalidLiteral);
    var target :- t.id(c.targetNodeId);
    var onPass :- t.id(c.onPass);
    var onGap :- t.id(c.onGap);
    var _ :- Check(onPass != onGap, InvalidDocument);
    Ok(c.(targetNodeId := target, onPass := onPass, onGap := onGap))
  }

  function NormalResume(t: Tokens, p: ResumePolicy): Normalized<ResumePolicy> {
    var policyId :- t.id(p.policyId);
    var source :- t.id(p.sourceNodeId);
    var outcome :- t.status(p.onOutcome);
    var target :- t.id(p.defaultTarget);
    var keys :- EachOnce(t.id, p.stageKeys);
    var disallowed :- EachOnce(t.id, p.disallowedTargets);
    Ok(ResumePolicy(policyId, source, outcome, target, keys, disallowed))
  }

  function NormalThreshold(t: Tokens, p: ThresholdPolicy): Normalized<ThresholdPolicy> {
    var policyId :- t.id(p.policyId);
    var sources :- EachOnce(t.id, p.sourceNodeIds);
    var outcome :- t.status(p.onOutcome);
    var target :- Optionally(t.id, p.exhaustedTarget);
    var terminal :- Optionally(t.id, p.exhaustedTerminal);
    var _ :- Check(sources != [] && p.threshold != 0, InvalidField);
    var _ :- Check(target.Some? <==> terminal.None?, InvalidDocument);
    Ok(p.(policyId := policyId, sourceNodeIds := sources, onOutcome := outcome, exhaustedTarget := target,
          exhaustedTerminal := terminal))
  }

  lemma NodeStable(t: Tokens, n: Node)
    requires StableTokens(t) && NormalNode(t, n).Ok?
    ensures NormalNode(t, NormalNode(t, n).value) == NormalNode(t, n)
  {
    OptionallyStable(t.entrypoint, n.entrypointPath);
    EachOnceStable(t.skill, n.attachedSkills);
  }

  lemma EntryStable(t: Tokens, e: Entry)
    requires StableTokens(t) && NormalEntry(t, e).Ok?
    ensures NormalEntry(t, NormalEntry(t, e).value) == NormalEntry(t, e)
  {}

  lemma TerminalStateStable(t: Tokens, s: TerminalState)
    requires StableTokens(t) && NormalTerminalState(t, s).Ok?
    ensures NormalTerminalState(t, NormalTerminalState(t, s).value) == NormalTerminalState(t, s)
  {
    EachOnceStable(t.id, s.emitsArtifacts);
  }

  lemma EdgeStable(t: Tokens, e: Edge)
    requires StableTokens(t) && NormalEdge(t, e).Ok?
    ensures NormalEdge(t, NormalEdge(t, e).value) == NormalEdge(t, e)
  {
    OptionallyStable(t.id, e.toNodeId);
    OptionallyStable(t.id, e.terminalStateId);
    EachOnceStable(t.status, e.onOutcomes);
    OptionallyStable(t.text, e.description);
  }

  lemma CompletionStable(t: Tokens, c: Completion)
    requires StableTokens(t) && NormalCompletion(t, c).Ok?
    ensures NormalCompletion(t, NormalCompletion(t, c).value) == NormalCompletion(t, c)
  {}

  lemma ResumeStable(t: Tokens, p: ResumePolicy)
    requires StableTokens(t) && NormalResume(t, p).Ok?
    ensures NormalResume(t, NormalResume(t, p).value) == NormalResume(t, p)
  {
    EachOnceStable(t.id, p.stageKeys);
    EachOnceStable(t.id, p.disallowedTargets);
  }

  lemma ThresholdStable(t: Tokens, p: ThresholdPolicy)
    requires StableTokens(t) && NormalThreshold(t, p).Ok?
    ensures NormalThreshold(t, NormalThreshold(t, p).value) == NormalThreshold(t, p)
  {
    EachOnceStable(t.id, p.sourceNodeIds);
    OptionallyStable(t.id, p.exhaustedTarget);
    OptionallyStable(t.id, p.exhaustedTerminal);
  }

  // ---------------------------------------------------------------- graph loops

  function NodeIds(nodes: seq<Node>): (ids: seq<string>)
    ensures |ids| == |nodes| && forall i :: 0 <= i < |nodes| ==> ids[i] == nodes[i].nodeId
  {
    seq(|nodes|, i requires 0 <= i < |nodes| => nodes[i].nodeId)
  }

  function StateIds(states: seq<TerminalState>): (ids: seq<string>)
    ensures |ids| == |states| && forall i :: 0 <= i < |states| ==> ids[i] == states[i].stateId
  {
    seq(|states|, i requires 0 <= i < |states| => states[i].stateId)
  }

  predicate KnownIn(id: Option<string>, ids: seq<string>) { id.Some? ==> id.value in ids }

  predicate IsHandoff(outcome: string) { outcome == "RECON_TO_EXECUTION" || outcome == "RECON_TO_PLANNING" }

  /** No edge from a Recon node to a node carries a handoff outcome. */
  predicate HandoffsEnd(nodes: seq<Node>, edges: seq<Edge>) {
    forall e, n :: e in edges && n in nodes && n.stageKindId == "recon" && n.nodeId == e.fromNodeId ==>
      e.toNodeId.Some? ==> forall o :: o in e.onOutcomes ==> !IsHandoff(o)
  }

  predicate DistinctPolicies(resume: seq<ResumePolicy>, threshold: seq<ThresholdPolicy>) {
    && (forall i, j :: 0 <= i < j < |resume| ==> resume[i].policyId != resume[j].policyId)
    && (forall i, j :: 0 <= i < j < |threshold| ==> threshold[i].policyId != threshold[j].policyId)
    && (forall i, j :: 0 <= i < |resume| && 0 <= j < |threshold| ==> resume[i].policyId != threshold[j].policyId)
  }

  predicate DistinctIds(g: GraphLoop) {
    && Distinct(NodeIds(g.nodes)) && Distinct(StateIds(g.terminalStates))
    && (forall i, j :: 0 <= i < j < |g.edges| ==> g.edges[i].edgeId != g.edges[j].edgeId)
    && (forall i, j :: 0 <= i < j < |g.entries| ==> g.entries[i].key != g.entries[j].key)
    && DistinctPolicies(g.resumePolicies, g.thresholdPolicies)
  }

  /** Every reference names a node or a terminal state of the graph. */
  predicate ReferencesKnown(g: GraphLoop) {
    var nodes, states := NodeIds(g.nodes), StateIds(g.terminalStates);
    && (forall e :: e in g.entries ==> e.nodeId in nodes)
    && (forall e :: e in g.edges ==>
          e.fromNodeId in nodes && KnownIn(e.toNodeId, nodes) && KnownIn(e.terminalStateId, states))
    && (forall p :: p in g.resumePolicies ==>
          && p.sourceNodeId in nodes && p.defaultTarget in nodes
          && forall d :: d in p.disallowedTargets ==> d in nodes)
    && (forall p :: p in g.thresholdPolicies ==>
          && (forall n :: n in p.sourceNodeIds ==> n in nodes)
          && KnownIn(p.exhaustedTarget, nodes) && KnownIn(p.exhaustedTerminal, states))
    && (g.completion.Some? ==>
          var c := g.completion.value; c.targetNodeId in nodes && c.onPass in states && c.onGap in states)
  }

  predicate GraphHolds(g: GraphLoop) {
    DistinctIds(g) && ReferencesKnown(g) && HandoffsEnd(g.nodes, g.edges)
  }

  function NodeRule(t: Tokens): Node -> Normalized<Node> { (n: Node) => NormalNode(t, n) }

  function EntryRule(t: Tokens): Entry -> Normalized<Entry> { (e: Entry) => NormalEntry(t, e) }

  function EdgeRule(t: Tokens): Edge -> Normalized<Edge> { (e: Edge) => NormalEdge(t, e) }

  function TerminalStateRule(t: Tokens): TerminalState -> Normalized<TerminalState> {
    (s: TerminalState) => NormalTerminalState(t, s)
  }

  function ResumeRule(t: Tokens): ResumePolicy -> Normalized<ResumePolicy> { (p: ResumePolicy) => NormalResume(t, p) }

  function ThresholdRule(t: Tokens): ThresholdPolicy -> Normalized<ThresholdPolicy> {
    (p: ThresholdPolicy) => NormalThreshold(t, p)
  }

  function CompletionRule(t: Tokens): Completion -> Normalized<Completion> { (c: Completion) => NormalCompletion(t, c) }

  /** The normalisers of the parts of a graph. */
  datatype GraphRules = GraphRules(
    id: string -> Normalized<string>,
    node: Node -> Normalized<Node>,
    entry: Entry -> Normalized<Entry>,
    edge: Edge -> Normalized<Edge>,
    state: TerminalState -> Normalized<TerminalState>,
    resume: ResumePolicy -> Normalized<ResumePolicy>,
    threshold: ThresholdPolicy -> Normalized<ThresholdPolicy>,
    completion: Completion -> Normalized<Completion>)

  function GraphRulesOf(t: Tokens): GraphRules {
    GraphRules(t.id, NodeRule(t), EntryRule(t), EdgeRule(t), TerminalStateRule(t), ResumeRule(t), ThresholdRule(t),
               CompletionRule(t))
  }

  ghost predicate StableRules(r: GraphRules) {
    && Stable(r.id) && Stable(r.node) && Stable(r.entry) && Stable(r.edge) && Stable(r.state) && Stable(r.resume)
    && Stable(r.threshold) && Stable(r.completion)
  }

  /** The graph with all its parts normalised. */
  function GraphParts(r: GraphRules, g: GraphLoop): Normalized<GraphLoop> {
    var _ :- Check(g.literalsHold, InvalidLiteral);
    var loopId :- r.id(g.loopId);
    var _ :- Check(g.nodes != [] && g.edges != [] && g.entries != [] && g.terminalStates != [], InvalidField);
    var nodes :- Each(r.node, g.nodes);
    var entries :- Each(r.entry, g.entries);
    var edges :- Each(r.edge, g.edges);
    var states :- Each(r.state, g.terminalStates);
    var resume :- Each(r.resume, g.resumePolicies);
    var threshold :- Each(r.threshold, g.thresholdPolicies);
    var completion :- Optionally(r.completion, g.completion);
    Ok(GraphLoop(true, loopId, g.plane, nodes, edges, entries, states, resume, threshold, completion))
  }

  function NormalGraph(t: Tokens, g: GraphLoop): Normalized<GraphLoop> {
    var normal :- GraphParts(GraphRulesOf(t), g);
    var _ :- Check(GraphHolds(normal), InvalidDocument);
    Ok(normal)
  }

  lemma PartsStable(t: Tokens)
    requires StableTokens(t)
    ensures StableRules(GraphRulesOf(t))
  {
    forall x | NodeRule(t)(x).Ok? ensures NodeRule(t)(NodeRule(t)(x).value) == NodeRule(t)(x) { NodeStable(t, x); }
    forall x | EntryRule(t)(x).Ok? ensures EntryRule(t)(EntryRule(t)(x).value) == EntryRule(t)(x) { EntryStable(t, x); }
    forall x | EdgeRule(t)(x).Ok? ensures EdgeRule(t)(EdgeRule(t)(x).value) == EdgeRule(t)(x) { EdgeStable(t, x); }
    forall x | TerminalStateRule(t)(x).Ok?
      ensures TerminalStateRule(t)(TerminalStateRule(t)(x).value) == TerminalStateRule(t)(x)
    {
      TerminalStateStable(t, x);
    }
    forall x | ResumeRule(t)(x).Ok? ensures ResumeRule(t)(ResumeRule(t)(x).value) == ResumeRule(t)(x) {
      ResumeStable(t, x);
    }
    forall x | ThresholdRule(t)(x).Ok? ensures ThresholdRule(t)(ThresholdRule(t)(x).value) == ThresholdRule(t)(x) {
      ThresholdStable(t, x);
    }
    forall x | CompletionRule(t)(x).Ok? ensures CompletionRule(t)(CompletionRule(t)(x).value) == CompletionRule(t)(x) {
      CompletionStable(t, x);
    }
  }

  /** Normalising a list keeps how long it is, and normalising it again changes nothing. */
  lemma ListStable<T(!new)>(normalize: T -> Normalized<T>, values: seq<T>)
    requires Stable(normalize) && Each(normalize, values).Ok?
    ensures Each(normalize, Each(normalize, values).value) == Each(normalize, values)
    ensures |Each(normalize, values).value| == |values|
  {
    EachStable(normalize, values);
    EachIsNormal(normalize, values);
  }

  lemma GraphPartsStable(r: GraphRules, g: GraphLoop)
    requires StableRules(r) && GraphParts(r, g).Ok?
    ensures GraphParts(r, GraphParts(r, g).value) == GraphParts(r, g)
  {
    ListStable(r.node, g.nodes);
    ListStable(r.entry, g.entries);
    ListStable(r.edge, g.edges);
    ListStable(r.state, g.terminalStates);
    ListStable(r.resume, g.resumePolicies);
    ListStable(r.threshold, g.thresholdPolicies);
    OptionallyStable(r.completion, g.completion);
  }

  /** Main result: a validated graph is left unchanged by validating it again. */
  lemma GraphStable(t: Tokens, g: GraphLoop)
    requires StableTokens(t) && NormalGraph(t, g).Ok?
    ensures NormalGraph(t, NormalGraph(t, g).value) == NormalGraph(t, g)
  {
    PartsStable(t);
    GraphPartsStable(GraphRulesOf(t), g);
  }

  // ---------------------------------------------------------------- stage kinds

  datatype StageDetails = StageDetails(
    stageKindId: string,
    displayName: string,
    defaultEntrypoint: string,
    requiredSkills: seq<string>,
    suggestedSkills: seq<string>,
    inputArtifacts: seq<string>,
    outputArtifacts: seq<string>,
    families: seq<string>,
    allowedOverrides: seq<string>)

  datatype StageOutcomes = StageOutcomes(
    runningMarker: string,
    legal: seq<string>,
    success: seq<string>,
    failure: seq<string>,
    classes: Classes)

  datatype StageKind = StageKind(
    literalsHold: bool,
    plane: Plane,
    details: StageDetails,
    outcomes: StageOutcomes,
    requests: seq<Capabilities.Request>,
    overrides: seq<CapabilityGrants.PolicyOverride>,
    closureRole: bool)

  /** Success and failure outcomes are legal, every legal outcome has its result classes and no other
      has, only BLOCKED may have several, and only success outcomes may count as success. */
  predicate OutcomesHold(k: StageOutcomes) {
    && (forall o :: o in k.success ==> o in k.legal)
    && (forall o :: o in k.failure ==> o in k.legal)
    && (forall o :: o in k.classes.Keys ==> o in k.legal)
    && (forall o :: o in k.legal ==> o in k.classes)
    && (forall o :: o in k.classes.Keys ==>
          if o == "BLOCKED" then
            k.classes[o] != [] && forall c :: c in k.classes[o] ==> c == Blocked || c == RecoverableFailure
          else |k.classes[o]| == 1)
    && (forall o :: o in k.success && o in k.classes ==> Success in k.classes[o])
    && (forall o :: o in k.failure && o in k.classes ==> Success !in k.classes[o])
  }

  function NormalDetails(t: Tokens, k: StageDetails): Normalized<StageDetails> {
    var stageKindId :- t.id(k.stageKindId);
    var displayName :- t.text(k.displayName);
    var entrypoint :- t.entrypoint(k.defaultEntrypoint);
    var required :- EachOnce(t.skill, k.requiredSkills);
    var suggested :- EachOnce(t.skill, k.suggestedSkills);
    var inputs :- EachOnce(t.id, k.inputArtifacts);
    var outputs :- EachOnce(t.id, k.outputArtifacts);
    var families :- EachOnce(t.id, k.families);
    var names :- EachOnce(t.overrideName, k.allowedOverrides);
    var _ :- Check(required != [], InvalidField);
    Ok(StageDetails(stageKindId, displayName, entrypoint, required, suggested, inputs, outputs, families, names))
  }

  /** How result classes are normalised. */
  type ClassesRule = Classes -> Normalized<Classes>

  ghost function StatusClasses(): ClassesRule { (m: Classes) => NormalClasses(Status, m) }

  function NormalOutcomes(t: Tokens, c: ClassesRule, k: StageOutcomes): Normalized<StageOutcomes> {
    var marker :- t.status(k.runningMarker);
    var legal :- EachOnce(t.status, k.legal);
    var success :- EachOnce(t.status, k.success);
    var failure :- EachOnce(t.status, k.failure);
    var _ :- Check(legal != [], InvalidField);
    var classes :- c(k.classes);
    Ok(StageOutcomes(marker, legal, success, failure, classes))
  }

  /** A built-in stage belongs to its own plane. */
  predicate OnPlane(t: Tokens, stage: string, plane: Plane) {
    t.stagePlane(stage).Some? ==> t.stagePlane(stage).value == plane
  }

  function NormalStageKind(t: Tokens, c: ClassesRule, k: StageKind): Normalized<StageKind> {
    var _ :- Check(k.literalsHold, InvalidLiteral);
    var id :- t.id(k.details.stageKindId);
    var _ :- Check(OnPlane(t, id, k.plane), InvalidDocument);
    var details :- NormalDetails(t, k.details);
    var _ :- Check(RequestsHold(k.requests) && OverridesHold(k.overrides), InvalidField);
    var outcomes :- NormalOutcomes(t, c, k.outcomes);
    var _ :- Check(OutcomesHold(outcomes), InvalidDocument);
    Ok(k.(details := details, outcomes := outcomes))
  }

  lemma DetailsStable(t: Tokens, k: StageDetails)
    requires StableTokens(t) && NormalDetails(t, k).Ok?
    ensures NormalDetails(t, NormalDetails(t, k).value) == NormalDetails(t, k)
  {
    EachOnceStable(t.skill, k.requiredSkills);
    EachOnceStable(t.skill, k.suggestedSkills);
    EachOnceStable(t.id, k.inputArtifacts);
    EachOnceStable(t.id, k.outputArtifacts);
    EachOnceStable(t.id, k.families);
    EachOnceStable(t.overrideName, k.allowedOverrides);
  }

  lemma OutcomesStable(t: Tokens, c: ClassesRule, k: StageOutcomes)
    requires StableTokens(t) && Stable(c) && NormalOutcomes(t, c, k).Ok?
    ensures NormalOutcomes(t, c, NormalOutcomes(t, c, k).value) == NormalOutcomes(t, c, k)
  {
    EachOnceStable(t.status, k.legal);
    EachOnceStable(t.status, k.success);
    EachOnceStable(t.status, k.failure);
  }

  lemma ClassesStable()
    ensures Stable(StatusClasses())
  {
    StatusStable();
    forall m | NormalClasses(Status, m).Ok?
      ensures NormalClasses(Status, NormalClasses(Status, m).value) == NormalClasses(Status, m)
    {
      NormalClassesStable(Status, m);
    }
  }

  lemma DetailsId(t: Tokens, k: StageDetails)
    requires NormalDetails(t, k).Ok?
    ensures t.id(k.stageKindId) == Ok(NormalDetails(t, k).value.stageKindId)
  {}

  lemma StageKindParts(t: Tokens, c: ClassesRule, k: StageKind)
    requires NormalStageKind(t, c, k).Ok?
    ensures var q := NormalStageKind(t, c, k).value;
            && q == k.(details := q.details, outcomes := q.outcomes) && k.literalsHold
            && OnPlane(t, q.details.stageKindId, k.plane) && NormalDetails(t, k.details) == Ok(q.details)
            && RequestsHold(k.requests) && OverridesHold(k.overrides)
            && NormalOutcomes(t, c, k.outcomes) == Ok(q.outcomes) && OutcomesHold(q.outcomes)
  {
    DetailsId(t, k.details);
  }

  lemma StageKindStays(t: Tokens, c: ClassesRule, k: StageKind)
    requires k.literalsHold && OnPlane(t, k.details.stageKindId, k.plane)
    requires NormalDetails(t, k.details) == Ok(k.details)
    requires RequestsHold(k.requests) && OverridesHold(k.overrides)
    requires NormalOutcomes(t, c, k.outcomes) == Ok(k.outcomes) && OutcomesHold(k.outcomes)
    ensures NormalStageKind(t, c, k) == Ok(k)
  {
    DetailsId(t, k.details);
  }

  /** Main result: a validated stage kind is left unchanged by validating it again. */
  lemma StageKindStable(t: Tokens, c: ClassesRule, k: StageKind)
    requires StableTokens(t) && Stable(c) && NormalStageKind(t, c, k).Ok?
    ensures NormalStageKind(t, c, NormalStageKind(t, c, k).value) == NormalStageKind(t, c, k)
  {
    StageKindParts(t, c, k);
    DetailsStable(t, k.details);
    OutcomesStable(t, c, k.outcomes);
    StageKindStays(t, c, NormalStageKind(t, c, k).value);
  }

  // ---------------------------------------------------------------- frozen plans

  datatype MaterializedNode = MaterializedNode(
    nodeId: string,
    stageKindId: string,
    plane: Plane,
    laneId: Option<string>,
    entrypointPath: string,
    contractId: Option<string>,
    runningMarker: string,
    classes: Classes,
    outputArtifacts: seq<string>,
    requiredSkills: seq<string>,
    attachedSkills: seq<string>,
    runnerName: Option<string>,
    modelName: Option<string>,
    thinkingLevel: Option<string>,
    reasoningEffort: Option<string>,
    timeoutSeconds: nat,
    grants: seq<CapabilityGrants.Grant>,
    contextProfileId: Option<string>,
    terminalActions: map<string, string>,
    effectRules: seq<string>)

  datatype CompiledEntry = CompiledEntry(key: EntryKey, nodeId: string, stageKindId: string, plane: Plane)

  datatype CompletionEntry = CompletionEntry(
    key: EntryKey, nodeId: string, stageKindId: string, plane: Plane, literalsHold: bool, onPass: string, onGap: string,
    skipIfAlreadyClosed: bool, incidentOnGap: bool)

  datatype Transition = Transition(
    edgeId: string, sourceNodeId: string, outcome: string, targetNodeId: Option<string>,
    terminalStateId: Option<string>, kind: EdgeKind, priority: int, maxAttempts: Option<nat>)

  datatype FrozenGraph = FrozenGraph(
    loopId: string,
    plane: Plane,
    nodes: seq<MaterializedNode>,
    entries: seq<Entry>,
    edges: seq<Edge>,
    compiledEntries: seq<CompiledEntry>,
    completionEntry: Option<CompletionEntry>,
    transitions: seq<Transition>,
    resumePolicies: seq<ResumePolicy>,
    thresholdPolicies: seq<ThresholdPolicy>,
    terminalStates: seq<TerminalState>,
    completion: Option<Completion>,
    summary: CapabilityGrants.Summary)

  predicate NotBlankMap(m: map<string, string>) {
    forall k :: k in m.Keys ==> !IsBlank(k) && !IsBlank(m[k])
  }

  /** What is checked of a node plan and not normalised. */
  predicate MaterializedHolds(n: MaterializedNode) {
    && NotBlank(n.laneId) && NotBlank(n.contractId) && NotBlank(n.runnerName) && NotBlank(n.modelName)
    && NotBlank(n.thinkingLevel) && NotBlank(n.reasoningEffort) && NotBlank(n.contextProfileId)
    && NotBlankMap(n.terminalActions)
    && forall g :: g in n.grants ==> CapabilityGrants.ValidGrant(g)
  }

  function NormalMaterialized(t: Tokens, c: ClassesRule, n: MaterializedNode): Normalized<MaterializedNode> {
    var nodeId :- t.id(n.nodeId);
    var stageKindId :- t.id(n.stageKindId);
    var entrypoint :- t.entrypoint(n.entrypointPath);
    var marker :- t.status(n.runningMarker);
    var classes :- c(n.classes);
    var outputs :- EachOnce(t.id, n.outputArtifacts);
    var required :- EachOnce(t.skill, n.requiredSkills);
    var attached :- EachOnce(t.skill, n.attachedSkills);
    var rules :- EachOnce(t.id, n.effectRules);
    var _ :- Check(MaterializedHolds(n), InvalidField);
    Ok(n.(nodeId := nodeId, stageKindId := stageKindId, entrypointPath := entrypoint, runningMarker := marker,
          classes := classes, outputArtifacts := outputs, requiredSkills := required, attachedSkills := attached,
          effectRules := rules))
  }

  lemma ChecksStay(n: MaterializedNode, normal: MaterializedNode)
    requires MaterializedHolds(n)
    requires normal == n.(nodeId := normal.nodeId, stageKindId := normal.stageKindId,
                          entrypointPath := normal.entrypointPath, runningMarker := normal.runningMarker,
                          classes := normal.classes, outputArtifacts := normal.outputArtifacts,
                          requiredSkills := normal.requiredSkills, attachedSkills := normal.attachedSkills,
                          effectRules := normal.effectRules)
    ensures MaterializedHolds(normal)
  {}

  /** Validation gives the normal forms of the parts of a node plan. */
  lemma MaterializedParts(t: Tokens, c: ClassesRule, n: MaterializedNode)
    requires NormalMaterialized(t, c, n).Ok?
    ensures var q := NormalMaterialized(t, c, n).value;
            && MaterializedHolds(q) && t.id(n.nodeId) == Ok(q.nodeId) && t.id(n.stageKindId) == Ok(q.stageKindId)
            && t.entrypoint(n.entrypointPath) == Ok(q.entrypointPath)
            && t.status(n.runningMarker) == Ok(q.runningMarker)
            && c(n.classes) == Ok(q.classes) && EachOnce(t.id, n.outputArtifacts) == Ok(q.outputArtifacts)
            && EachOnce(t.skill, n.requiredSkills) == Ok(q.requiredSkills)
            && EachOnce(t.skill, n.attachedSkills) == Ok(q.attachedSkills)
            && EachOnce(t.id, n.effectRules) == Ok(q.effectRules)
  {
    ChecksStay(n, NormalMaterialized(t, c, n).value);
  }

  lemma NormalMaterializedStays(t: Tokens, c: ClassesRule, n: MaterializedNode)
    requires MaterializedHolds(n) && t.id(n.nodeId) == Ok(n.nodeId) && t.id(n.stageKindId) == Ok(n.stageKindId)
    requires t.entrypoint(n.entrypointPath) == Ok(n.entrypointPath) && t.status(n.runningMarker) == Ok(n.runningMarker)
    requires c(n.classes) == Ok(n.classes) && EachOnce(t.id, n.outputArtifacts) == Ok(n.outputArtifacts)
    requires EachOnce(t.skill, n.requiredSkills) == Ok(n.requiredSkills)
    requires EachOnce(t.skill, n.attachedSkills) == Ok(n.attachedSkills)
    requires EachOnce(t.id, n.effectRules) == Ok(n.effectRules)
    ensures NormalMaterialized(t, c, n) == Ok(n)
  {}

  lemma MaterializedStable(t: Tokens, c: ClassesRule, n: MaterializedNode)
    requires StableTokens(t) && Stable(c) && NormalMaterialized(t, c, n).Ok?
    ensures NormalMaterialized(t, c, NormalMaterialized(t, c, n).value) == NormalMaterialized(t, c, n)
  {
    MaterializedParts(t, c, n);
    EachOnceStable(t.id, n.outputArtifacts);
    EachOnceStable(t.skill, n.requiredSkills);
    EachOnceStable(t.skill, n.attachedSkills);
    EachOnceStable(t.id, n.effectRules);
    NormalMaterializedStays(t, c, NormalMaterialized(t, c, n).value);
  }

  function NormalCompiledEntry(t: Tokens, e: CompiledEntry): Normalized<CompiledEntry> {
    var nodeId :- t.id(e.nodeId);
    var stageKindId :- t.id(e.stageKindId);
    Ok(e.(nodeId := nodeId, stageKindId := stageKindId))
  }

  function NormalCompletionEntry(t: Tokens, e: CompletionEntry): Normalized<CompletionEntry> {
    var _ :- Check(e.key == ClosureTarget && e.literalsHold, InvalidLiteral);
    var nodeId :- t.id(e.nodeId);
    var stageKindId :- t.id(e.stageKindId);
    var onPass :- t.id(e.onPass);
    var onGap :- t.id(e.onGap);
    var _ :- Check(onPass != onGap, InvalidDocument);
    Ok(e.(nodeId := nodeId, stageKindId := stageKindId, onPass := onPass, onGap := onGap))
  }

  function NormalTransition(t: Tokens, x: Transition): Normalized<Transition> {
    var edgeId :- t.id(x.edgeId);
    var source :- t.id(x.sourceNodeId);
    var outcome :- t.status(x.outcome);
    var target :- Optionally(t.id, x.targetNodeId);
    var terminal :- Optionally(t.id, x.terminalStateId);
    var _ :- Check(x.maxAttempts != Some(0), InvalidField);
    var _ :- Check(TargetShape(x.kind, target, terminal, x.maxAttempts), InvalidDocument);
    Ok(x.(edgeId := edgeId, sourceNodeId := source, outcome := outcome, targetNodeId := target,
          terminalStateId := terminal))
  }

  lemma TransitionStable(t: Tokens, x: Transition)
    requires StableTokens(t) && NormalTransition(t, x).Ok?
    ensures NormalTransition(t, NormalTransition(t, x).value) == NormalTransition(t, x)
  {
    OptionallyStable(t.id, x.targetNodeId);
    OptionallyStable(t.id, x.terminalStateId);
  }
}
