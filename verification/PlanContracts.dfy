/** Frozen graph plans and the compiled run plan, and the contract objects that are validated in place
    (src/compiler/contracts.rs). */
module PlanContracts {
  import opened Sequences
  import opened Wrappers
  import opened Text
  import opened Normalizers
  import opened CompilerContracts
  import Capabilities
  import CapabilityGrants

  // ---------------------------------------------------------------- frozen graphs

  function MaterializedRule(t: Tokens, c: ClassesRule): MaterializedNode -> Normalized<MaterializedNode> {
    (n: MaterializedNode) => NormalMaterialized(t, c, n)
  }

  function CompiledEntryRule(t: Tokens): CompiledEntry -> Normalized<CompiledEntry> {
    (e: CompiledEntry) => NormalCompiledEntry(t, e)
  }

  function CompletionEntryRule(t: Tokens): CompletionEntry -> Normalized<CompletionEntry> {
    (e: CompletionEntry) => NormalCompletionEntry(t, e)
  }

  function TransitionRule(t: Tokens): Transition -> Normalized<Transition> {
    (x: Transition) => NormalTransition(t, x)
  }

  /** Every part belongs to the plane of the graph, the completion entry targets what the completion
      behaviour does, and the summary adds up. */
  predicate FrozenHolds(g: FrozenGraph) {
    && (forall n :: n in g.nodes ==> n.plane == g.plane)
    && (forall e :: e in g.compiledEntries ==> e.plane == g.plane)
    && (g.completionEntry.Some? ==> g.completionEntry.value.plane == g.plane)
    && CapabilityGrants.SummaryHolds(g.summary)
    && (g.completion.Some? <==> g.completionEntry.Some?)
    && (g.completion.Some? ==> g.completion.value.targetNodeId == g.completionEntry.value.nodeId)
  }

  predicate FrozenComplete(g: FrozenGraph) {
    && g.nodes != [] && g.entries != [] && g.edges != [] && g.compiledEntries != [] && g.transitions != []
    && g.terminalStates != []
  }

  /** The normalisers of the parts of a graph plan. */
  datatype FrozenRules = FrozenRules(
    graph: GraphRules,
    node: MaterializedNode -> Normalized<MaterializedNode>,
    compiledEntry: CompiledEntry -> Normalized<CompiledEntry>,
    completionEntry: CompletionEntry -> Normalized<CompletionEntry>,
    transition: Transition -> Normalized<Transition>)

  function FrozenRulesOf(t: Tokens, c: ClassesRule): FrozenRules {
    FrozenRules(GraphRulesOf(t), MaterializedRule(t, c), CompiledEntryRule(t), CompletionEntryRule(t),
                TransitionRule(t))
  }

  /** The graph plan with all its parts normalised. */
  function FrozenParts(r: FrozenRules, g: FrozenGraph): Normalized<FrozenGraph> {
    var loopId :- r.graph.id(g.loopId);
    var _ :- Check(FrozenComplete(g), InvalidField);
    var nodes :- Each(r.node, g.nodes);
    var entries :- Each(r.graph.entry, g.entries);
    var edges :- Each(r.graph.edge, g.edges);
    var compiledEntries :- Each(r.compiledEntry, g.compiledEntries);
    var completionEntry :- Optionally(r.completionEntry, g.completionEntry);
    var transitions :- Each(r.transition, g.transitions);
    var resume :- Each(r.graph.resume, g.resumePolicies);
    var threshold :- Each(r.graph.threshold, g.thresholdPolicies);
    var states :- Each(r.graph.state, g.terminalStates);
    var completion :- Optionally(r.graph.completion, g.completion);
    Ok(FrozenGraph(loopId, g.plane, nodes, entries, edges, compiledEntries, completionEntry, transitions, resume,
                   threshold, states, completion, g.summary))
  }

  function NormalFrozen(t: Tokens, c: ClassesRule, g: FrozenGraph): Normalized<FrozenGraph> {
    var normal :- FrozenParts(FrozenRulesOf(t, c), g);
    var _ :- Check(FrozenHolds(normal), InvalidDocument);
    Ok(normal)
  }

  lemma CompiledEntryRuleStable(t: Tokens)
    requires StableTokens(t)
    ensures Stable(CompiledEntryRule(t))
  {}

  lemma CompletionEntryStable(t: Tokens, e: CompletionEntry)
    requires StableTokens(t) && NormalCompletionEntry(t, e).Ok?
    ensures NormalCompletionEntry(t, NormalCompletionEntry(t, e).value) == NormalCompletionEntry(t, e)
  {}

  lemma CompletionEntryRuleStable(t: Tokens)
    requires StableTokens(t)
    ensures Stable(CompletionEntryRule(t))
  {
    forall e | NormalCompletionEntry(t, e).Ok?
      ensures NormalCompletionEntry(t, NormalCompletionEntry(t, e).value) == NormalCompletionEntry(t, e)
    {
      CompletionEntryStable(t, e);
    }
  }

  lemma MaterializedRuleStable(t: Tokens, c: ClassesRule)
    requires StableTokens(t) && Stable(c)
    ensures Stable(MaterializedRule(t, c))
  {
    forall n | NormalMaterialized(t, c, n).Ok?
      ensures NormalMaterialized(t, c, NormalMaterialized(t, c, n).value) == NormalMaterialized(t, c, n)
    {
      MaterializedStable(t, c, n);
    }
  }

  lemma TransitionRuleStable(t: Tokens)
    requires StableTokens(t)
    ensures Stable(TransitionRule(t))
  {
    forall x | NormalTransition(t, x).Ok?
      ensures NormalTransition(t, NormalTransition(t, x).value) == NormalTransition(t, x)
    {
      TransitionStable(t, x);
    }
  }

  lemma FrozenPartsStable(r: FrozenRules, g: FrozenGraph)
    requires StableRules(r.graph) && Stable(r.node) && Stable(r.compiledEntry) && Stable(r.completionEntry)
    requires Stable(r.transition) && FrozenParts(r, g).Ok?
    ensures FrozenParts(r, FrozenParts(r, g).value) == FrozenParts(r, g)
  {
    ListStable(r.node, g.nodes);
    ListStable(r.graph.entry, g.entries);
    ListStable(r.graph.edge, g.edges);
    ListStable(r.compiledEntry, g.compiledEntries);
    OptionallyStable(r.completionEntry, g.completionEntry);
    ListStable(r.transition, g.transitions);
    ListStable(r.graph.resume, g.resumePolicies);
    ListStable(r.graph.threshold, g.thresholdPolicies);
    ListStable(r.graph.state, g.terminalStates);
    OptionallyStable(r.graph.completion, g.completion);
  }

  /** Main result: a validated graph plan is left unchanged by validating it again. */
  lemma FrozenStable(t: Tokens, c: ClassesRule, g: FrozenGraph)
    requires StableTokens(t) && Stable(c) && NormalFrozen(t, c, g).Ok?
    ensures NormalFrozen(t, c, NormalFrozen(t, c, g).value) == NormalFrozen(t, c, g)
  {
    PartsStable(t);
    CompiledEntryRuleStable(t);
    CompletionEntryRuleStable(t);
    MaterializedRuleStable(t, c);
    TransitionRuleStable(t);
    FrozenPartsStable(FrozenRulesOf(t, c), g);
  }

  // ---------------------------------------------------------------- the run plan

  datatype InputFingerprint = InputFingerprint(modeId: string, config: string, assets: string)

  datatype AssetRef = AssetRef(family: string, logicalId: string, path: string, token: string)

  /** `X` stands for the workflow primitives, trigger rules, scheduler policy and other parts that are
      validated by contracts of their own; of the trigger rules the plan checks whether there are any. */
  datatype RunPlan<X> = RunPlan(
    literalsHold: bool,
    planId: string,
    fingerprint: InputFingerprint,
    modeId: string,
    loopIds: map<Plane, string>,
    executionLoopId: string,
    planningLoopId: string,
    learningLoopId: Option<string>,
    graphs: map<Plane, FrozenGraph>,
    executionGraph: FrozenGraph,
    planningGraph: FrozenGraph,
    learningGraph: Option<FrozenGraph>,
    hasTriggers: bool,
    summary: CapabilityGrants.Summary,
    summaries: map<Plane, CapabilityGrants.Summary>,
    extras: X,
    compiledAt: string,
    assets: seq<AssetRef>,
    sourceRefs: seq<string>)

  predicate IdentitiesHold<X>(p: RunPlan<X>) {
    && !IsBlank(p.planId) && !IsBlank(p.modeId) && !IsBlank(p.executionLoopId) && !IsBlank(p.planningLoopId)
    && NotBlank(p.learningLoopId)
    && !IsBlank(p.fingerprint.modeId) && !IsBlank(p.fingerprint.config) && !IsBlank(p.fingerprint.assets)
    && (forall a :: a in p.assets ==>
          !IsBlank(a.family) && !IsBlank(a.logicalId) && !IsBlank(a.path) && !IsBlank(a.token))
    && (forall r :: r in p.sourceRefs ==> !IsBlank(r))
  }

  predicate Bound<V(==)>(m: map<Plane, V>, plane: Plane, value: Option<V>) {
    if value.Some? then plane in m && m[plane] == value.value else plane !in m
  }

  /** The loop ids and graphs by plane agree with the aliases of each plane, and so do the summaries. */
  predicate AliasesHold<X>(p: RunPlan<X>) {
    && Bound(p.loopIds, Execution, Some(p.executionLoopId))
    && Bound(p.loopIds, Planning, Some(p.planningLoopId))
    && Bound(p.loopIds, Learning, p.learningLoopId)
    && p.executionGraph.plane == Execution && p.executionGraph.loopId == p.executionLoopId
    && p.planningGraph.plane == Planning && p.planningGraph.loopId == p.planningLoopId
    && (p.learningGraph.Some? ==>
          p.learningGraph.value.plane == Learning && Some(p.learningGraph.value.loopId) == p.learningLoopId)
    && Bound(p.graphs, Execution, Some(p.executionGraph))
    && Bound(p.graphs, Planning, Some(p.planningGraph))
    && Bound(p.graphs, Learning, p.learningGraph) && (p.hasTriggers ==> p.learningGraph.Some?)
    && CapabilityGrants.SummaryHolds(p.summary)
    && (forall plane :: plane in p.summaries.Keys ==>
          && CapabilityGrants.SummaryHolds(p.summaries[plane])
          && plane in p.graphs && p.summaries[plane] == p.graphs[plane].summary)
  }

  function FrozenRule(t: Tokens, c: ClassesRule): FrozenGraph -> Normalized<FrozenGraph> {
    (g: FrozenGraph) => NormalFrozen(t, c, g)
  }

  lemma FrozenRuleStable(t: Tokens, c: ClassesRule)
    requires StableTokens(t) && Stable(c)
    ensures Stable(FrozenRule(t, c))
  {
    forall g | NormalFrozen(t, c, g).Ok?
      ensures NormalFrozen(t, c, NormalFrozen(t, c, g).value) == NormalFrozen(t, c, g)
    {
      FrozenStable(t, c, g);
    }
  }

  /** The plan with its parts validated. */
  function PlanParts<X>(graph: FrozenGraph -> Normalized<FrozenGraph>, x: X -> Normalized<X>, p: RunPlan<X>):
      Normalized<RunPlan<X>>
  {
    var execution :- graph(p.executionGraph);
    var planning :- graph(p.planningGraph);
    var learning :- Optionally(graph, p.learningGraph);
    var extras :- x(p.extras);
    Ok(p.(executionGraph := execution, planningGraph := planning, learningGraph := learning,
          extras := extras, sourceRefs := Dedupe(p.sourceRefs)))
  }

  function NormalPlan<X>(graph: FrozenGraph -> Normalized<FrozenGraph>, x: X -> Normalized<X>, p: RunPlan<X>):
      Normalized<RunPlan<X>>
  {
    var _ :- Check(p.literalsHold, InvalidLiteral);
    var _ :- Check(IdentitiesHold(p), InvalidField);
    var normal :- PlanParts(graph, x, p);
    var _ :- Check(AliasesHold(normal), InvalidDocument);
    Ok(normal)
  }

  lemma NormalPlanStays<X>(graph: FrozenGraph -> Normalized<FrozenGraph>, x: X -> Normalized<X>, p: RunPlan<X>)
    requires p.literalsHold && IdentitiesHold(p) && AliasesHold(p) && Dedupe(p.sourceRefs) == p.sourceRefs
    requires graph(p.executionGraph) == Ok(p.executionGraph) && graph(p.planningGraph) == Ok(p.planningGraph)
    requires Optionally(graph, p.learningGraph) == Ok(p.learningGraph) && x(p.extras) == Ok(p.extras)
    ensures NormalPlan(graph, x, p) == Ok(p)
  {
    assert p == p.(executionGraph := p.executionGraph, sourceRefs := p.sourceRefs);
  }

  lemma NormalPlanHolds<X>(graph: FrozenGraph -> Normalized<FrozenGraph>, x: X -> Normalized<X>, p: RunPlan<X>)
    requires NormalPlan(graph, x, p).Ok?
    ensures var q := NormalPlan(graph, x, p).value;
            && q.sourceRefs == Dedupe(p.sourceRefs)
            && Ok(q.executionGraph) == graph(p.executionGraph) && Ok(q.planningGraph) == graph(p.planningGraph)
            && Ok(q.learningGraph) == Optionally(graph, p.learningGraph) && Ok(q.extras) == x(p.extras)
  {}

  lemma NormalPlanAgrees<X>(graph: FrozenGraph -> Normalized<FrozenGraph>, x: X -> Normalized<X>, p: RunPlan<X>)
    requires NormalPlan(graph, x, p).Ok?
    ensures var q := NormalPlan(graph, x, p).value;
            q.literalsHold && AliasesHold(q) && IdentitiesHold(p) && SameIdentities(p, q)
  {}

  ghost predicate SameIdentities<X>(p: RunPlan<X>, q: RunPlan<X>) {
    q == p.(executionGraph := q.executionGraph, planningGraph := q.planningGraph, learningGraph := q.learningGraph,
            extras := q.extras, sourceRefs := q.sourceRefs)
  }

  lemma IdentitiesKept<X>(p: RunPlan<X>, q: RunPlan<X>)
    requires IdentitiesHold(p) && SameIdentities(p, q) && forall r :: r in q.sourceRefs ==> r in p.sourceRefs
    ensures IdentitiesHold(q)
  {}

  lemma NormalPlanStable<X(!new)>(graph: FrozenGraph -> Normalized<FrozenGraph>, x: X -> Normalized<X>, p: RunPlan<X>)
    requires Stable(graph) && Stable(x) && NormalPlan(graph, x, p).Ok?
    ensures NormalPlan(graph, x, NormalPlan(graph, x, p).value) == NormalPlan(graph, x, p)
  {
    NormalPlanHolds(graph, x, p);
    NormalPlanAgrees(graph, x, p);
    OptionallyStable(graph, p.learningGraph);
    DedupeKeeps(p.sourceRefs);
    DistinctStays(Dedupe(p.sourceRefs));
    IdentitiesKept(p, NormalPlan(graph, x, p).value);
    NormalPlanStays(graph, x, NormalPlan(graph, x, p).value);
  }

  /** A plan as it is validated when built, saved and loaded. */
  ghost function ValidatedPlan<X>(x: X -> Normalized<X>, p: RunPlan<X>): Normalized<RunPlan<X>> {
    NormalPlan(FrozenRule(TOKENS, StatusClasses()), x, p)
  }

  /** Main result: a validated run plan is left unchanged by the validation on save and on load, the
      parts with contracts of their own being left unchanged by theirs. */
  lemma PlanStable<X(!new)>(x: X -> Normalized<X>, p: RunPlan<X>)
    requires Stable(x) && ValidatedPlan(x, p).Ok?
    ensures ValidatedPlan(x, ValidatedPlan(x, p).value) == ValidatedPlan(x, p)
  {
    TokensStable();
    ClassesStable();
    FrozenRuleStable(TOKENS, StatusClasses());
    NormalPlanStable(FrozenRule(TOKENS, StatusClasses()), x, p);
  }

  // ---------------------------------------------------------------- contract objects

  /** A graph loop definition whose `validate` rewrites its fields in place. */
  class GraphDefinition {
    const literalsHold: bool
    var loopId: string
    const plane: Plane
    var nodes: seq<Node>
    var edges: seq<Edge>
    var entries: seq<Entry>
    var terminalStates: seq<TerminalState>
    var resumePolicies: seq<ResumePolicy>
    var thresholdPolicies: seq<ThresholdPolicy>
    var completion: Option<Completion>

    constructor (g: GraphLoop)
      ensures Contents() == g
    {
      literalsHold, loopId, plane, nodes, edges := g.literalsHold, g.loopId, g.plane, g.nodes, g.edges;
      entries, terminalStates, resumePolicies := g.entries, g.terminalStates, g.resumePolicies;
      thresholdPolicies, completion := g.thresholdPolicies, g.completion;
    }

    function Contents(): GraphLoop
      reads this
    {
      GraphLoop(literalsHold, loopId, plane, nodes, edges, entries, terminalStates, resumePolicies,
                thresholdPolicies, completion)
    }

    method NormalizeParts(t: Tokens) returns (r: Result<(), ContractError>)
      modifies `nodes, `entries, `edges, `terminalStates
      ensures r.Ok? ==> Each(NodeRule(t), old(nodes)) == Ok(nodes) && Each(EntryRule(t), old(entries)) == Ok(entries)
      ensures r.Ok? ==> Each(EdgeRule(t), old(edges)) == Ok(edges)
                        && Each(TerminalStateRule(t), old(terminalStates)) == Ok(terminalStates)
      ensures r.Err? ==> FirstError(Each(NodeRule(t), old(nodes)), Each(EntryRule(t), old(entries)),
                                    Each(EdgeRule(t), old(edges)), Each(TerminalStateRule(t), old(terminalStates))) == r
    {
      nodes :- NormalizeEach(NodeRule(t), nodes);
      entries :- NormalizeEach(EntryRule(t), entries);
      edges :- NormalizeEach(EdgeRule(t), edges);
      terminalStates :- NormalizeEach(TerminalStateRule(t), terminalStates);
      return Ok(());
    }

    method NormalizePolicies(t: Tokens) returns (r: Result<(), ContractError>)
      modifies `resumePolicies, `thresholdPolicies, `completion
      ensures r.Ok? ==> Each(ResumeRule(t), old(resumePolicies)) == Ok(resumePolicies)
                        && Each(ThresholdRule(t), old(thresholdPolicies)) == Ok(thresholdPolicies)
                        && Optionally(CompletionRule(t), old(completion)) == Ok(completion)
      ensures r.Err? ==> FirstError(Each(ResumeRule(t), old(resumePolicies)),
                                    Each(ThresholdRule(t), old(thresholdPolicies)),
                                    Optionally(CompletionRule(t), old(completion)), Ok(())) == r
    {
      resumePolicies :- NormalizeEach(ResumeRule(t), resumePolicies);
      thresholdPolicies :- NormalizeEach(ThresholdRule(t), thresholdPolicies);
      completion :- Optionally(CompletionRule(t), completion);
      return Ok(());
    }

    /** Succeeds with the normalised graph, which a second call leaves unchanged. */
    method Validate(t: Tokens) returns (r: Result<(), ContractError>)
      requires StableTokens(t)
      modifies this
      ensures r.Ok? ==> NormalGraph(t, old(Contents())) == Ok(Contents()) == NormalGraph(t, Contents())
      ensures r.Err? ==> NormalGraph(t, old(Contents())) == Err(r.error)
    {
      ghost var before := Contents();
      var _ :- Check(literalsHold, InvalidLiteral);
      loopId :- t.id(loopId);
      var _ :- Check(nodes != [] && edges != [] && entries != [] && terminalStates != [], InvalidField);
      var _ :- NormalizeParts(t);
      var _ :- NormalizePolicies(t);
      var _ :- Check(GraphHolds(Contents()), InvalidDocument);
      GraphStable(t, before);
      return Ok(());
    }
  }

  /** The first of four failures. */
  function FirstError<A, B, C, D>(a: Normalized<A>, b: Normalized<B>, c: Normalized<C>, d: Normalized<D>):
      Result<(), ContractError>
  {
    if a.Err? then Err(a.error) else if b.Err? then Err(b.error) else if c.Err? then Err(c.error)
    else if d.Err? then Err(d.error) else Ok(())
  }

  /** A stage kind definition whose `validate` rewrites its fields in place. */
  class StageKindDefinition {
    const literalsHold: bool
    const plane: Plane
    var details: StageDetails
    var outcomes: StageOutcomes
    const requests: seq<Capabilities.Request>
    const overrides: seq<CapabilityGrants.PolicyOverride>
    const closureRole: bool

    constructor (k: StageKind)
      ensures Contents() == k
    {
      literalsHold, plane, details, outcomes := k.literalsHold, k.plane, k.details, k.outcomes;
      requests, overrides, closureRole := k.requests, k.overrides, k.closureRole;
    }

    function Contents(): StageKind
      reads this
    {
      StageKind(literalsHold, plane, details, outcomes, requests, overrides, closureRole)
    }

    /** Normalises a list in place and drops what occurs earlier. */
    method NormalizeOnce(normalize: string -> Normalized<string>, values: seq<string>)
      returns (r: Normalized<seq<string>>)
      ensures r == EachOnce(normalize, values)
    {
      var normalized :- NormalizeEach(normalize, values);
      var kept := DedupeValues(normalized);
      return Ok(kept);
    }

    method NormalizeOutcomes(t: Tokens) returns (r: Result<(), ContractError>)
      requires t.status == Status
      modifies this`outcomes
      ensures r.Ok? ==> NormalOutcomes(t, StatusClasses(), old(outcomes)) == Ok(outcomes)
      ensures r.Err? ==> NormalOutcomes(t, StatusClasses(), old(outcomes)).Err?
      ensures r.Err? ==> NormalOutcomes(t, StatusClasses(), old(outcomes)) == Err(r.error)
                         || FailsBothWays(Status, old(outcomes).classes)
    {
      var marker :- t.status(outcomes.runningMarker);
      var legal :- NormalizeOnce(t.status, outcomes.legal);
      var success :- NormalizeOnce(t.status, outcomes.success);
      var failure :- NormalizeOnce(t.status, outcomes.failure);
      var _ :- Check(legal != [], InvalidField);
      var classes :- NormalizeMap(Status, Dedupe<ResultClass>, outcomes.classes);
      outcomes := StageOutcomes(marker, legal, success, failure, classes);
      return Ok(());
    }

    method NormalizeDetails(t: Tokens) returns (r: Result<(), ContractError>)
      modifies this`details
      ensures r.Ok? ==> NormalDetails(t, old(details)) == Ok(details)
      ensures r.Err? ==> NormalDetails(t, old(details)) == Err(r.error)
    {
      var stageKindId :- t.id(details.stageKindId);
      var displayName :- t.text(details.displayName);
      var entrypoint :- t.entrypoint(details.defaultEntrypoint);
      var required :- NormalizeOnce(t.skill, details.requiredSkills);
      var suggested :- NormalizeOnce(t.skill, details.suggestedSkills);
      var inputs :- NormalizeOnce(t.id, details.inputArtifacts);
      var outputs :- NormalizeOnce(t.id, details.outputArtifacts);
      var families :- NormalizeOnce(t.id, details.families);
      var names :- NormalizeOnce(t.overrideName, details.allowedOverrides);
      var _ :- Check(required != [], InvalidField);
      details := StageDetails(stageKindId, displayName, entrypoint, required, suggested, inputs, outputs, families,
                              names);
      return Ok(());
    }

    /** Succeeds with the normalised stage kind, which a second call leaves unchanged. Fails with its error,
        unless the result classes fail in both ways at once. */
    method Validate() returns (r: Result<(), ContractError>)
      modifies this
      ensures r.Ok? ==> NormalStageKind(TOKENS, StatusClasses(), old(Contents())) == Ok(Contents())
      ensures r.Ok? ==> NormalStageKind(TOKENS, StatusClasses(), Contents()) == Ok(Contents())
      ensures r.Err? ==> NormalStageKind(TOKENS, StatusClasses(), old(Contents())).Err?
      ensures r.Err? ==> NormalStageKind(TOKENS, StatusClasses(), old(Contents())) == Err(r.error)
                         || FailsBothWays(Status, old(outcomes).classes)
    {
      ghost var before := Contents();
      var _ :- Check(literalsHold, InvalidLiteral);
      var stageKindId :- TOKENS.id(details.stageKindId);
      var _ :- Check(OnPlane(TOKENS, stageKindId, plane), InvalidDocument);
      var _ :- NormalizeDetails(TOKENS);
      var _ :- Check(RequestsHold(requests) && OverridesHold(overrides), InvalidField);
      var _ :- NormalizeOutcomes(TOKENS);
      var _ :- Check(OutcomesHold(outcomes), InvalidDocument);
      TokensStable();
      ClassesStable();
      StageKindStable(TOKENS, StatusClasses(), before);
      return Ok(());
    }
  }
}
