/** What decoding a persisted plan does to it: the grants of its nodes come back trimmed
    (src/contracts/capabilities.rs). */
module PlanDecoding {
  import opened Sequences
  import opened Wrappers
  import opened Text
  import opened Normalizers
  import opened CompilerContracts
  import opened PlanContracts
  import Capabilities
  import CapabilityGrants

  // ---------------------------------------------------------------- grants

  function DecodedScope(s: Capabilities.Scope): Capabilities.Scope { s.(value := Trim(s.value)) }

  function DecodedReason(r: CapabilityGrants.DecisionReason): CapabilityGrants.DecisionReason {
    match r
    case Given(text) => CapabilityGrants.Given(Trim(text))
    case Composed(_, _) => r
  }

  /** Request id, scope value and reason are trimmed; what the compiler composes has nothing to trim. */
  function DecodedGrant(g: CapabilityGrants.Grant): CapabilityGrants.Grant {
    g.(requestId := Trim(g.requestId), scope := DecodedScope(g.scope), reason := DecodedReason(g.reason))
  }

  /** A grant with nothing to trim. */
  predicate PlainGrant(g: CapabilityGrants.Grant) {
    Trimmed(g.requestId) && Trimmed(g.scope.value) && (g.reason.Given? ==> Trimmed(g.reason.text))
  }

  lemma GrantDecodes(g: CapabilityGrants.Grant)
    ensures DecodedGrant(g) == g <==> PlainGrant(g)
    ensures PlainGrant(DecodedGrant(g))
  {
    TrimTrims(g.requestId);
    TrimTrims(g.scope.value);
    if g.reason.Given? { TrimTrims(g.reason.text); }
  }

  /** A scope decoded earlier, or that of a runner. */
  predicate SealedScope(s: Capabilities.Scope) { s.kind == Capabilities.Runner || Trimmed(s.value) }

  /** A valid grant with such a scope passes its contract when it is decoded. */
  lemma SealedGrantStaysValid(g: CapabilityGrants.Grant)
    requires CapabilityGrants.ValidGrant(g) && SealedScope(g.scope)
    ensures CapabilityGrants.ValidGrant(DecodedGrant(g))
  {
    TrimTrims(g.requestId);
    TrimTrims(Trim(g.requestId));
    TrimTrims(g.scope.value);
    TrimTrims(Trim(g.scope.value));
    if g.reason.Given? {
      TrimTrims(g.reason.text);
      TrimTrims(Trim(g.reason.text));
    }
  }

  // ---------------------------------------------------------------- nodes, graphs and plans

  function DecodedGrants(grants: seq<CapabilityGrants.Grant>): (decoded: seq<CapabilityGrants.Grant>)
    ensures |decoded| == |grants| && forall i :: 0 <= i < |grants| ==> decoded[i] == DecodedGrant(grants[i])
  {
    seq(|grants|, i requires 0 <= i < |grants| => DecodedGrant(grants[i]))
  }

  function DecodedNode(n: MaterializedNode): MaterializedNode { n.(grants := DecodedGrants(n.grants)) }

  function DecodedNodes(nodes: seq<MaterializedNode>): (decoded: seq<MaterializedNode>)
    ensures |decoded| == |nodes| && forall i :: 0 <= i < |nodes| ==> decoded[i] == DecodedNode(nodes[i])
  {
    seq(|nodes|, i requires 0 <= i < |nodes| => DecodedNode(nodes[i]))
  }

  function DecodedGraph(g: FrozenGraph): FrozenGraph { g.(nodes := DecodedNodes(g.nodes)) }

  function DecodedPlan<X>(p: RunPlan<X>): RunPlan<X> {
    p.(graphs := map plane | plane in p.graphs :: DecodedGraph(p.graphs[plane]),
       executionGraph := DecodedGraph(p.executionGraph),
       planningGraph := DecodedGraph(p.planningGraph),
       learningGraph := match p.learningGraph case Some(g) => Some(DecodedGraph(g)) case None => None)
  }

  predicate PlainNode(n: MaterializedNode) { forall g :: g in n.grants ==> PlainGrant(g) }

  predicate PlainGraph(g: FrozenGraph) { forall n :: n in g.nodes ==> PlainNode(n) }

  /** No grant of any node has anything to trim. */
  predicate PlainPlan<X>(p: RunPlan<X>) { forall plane :: plane in p.graphs.Keys ==> PlainGraph(p.graphs[plane]) }

  lemma NodeDecodes(n: MaterializedNode)
    ensures DecodedNode(n) == n <==> PlainNode(n)
    ensures PlainNode(DecodedNode(n))
  {
    forall g ensures DecodedGrant(g) == g <==> PlainGrant(g) { GrantDecodes(g); }
    forall i | 0 <= i < |n.grants| ensures PlainGrant(DecodedGrants(n.grants)[i]) { GrantDecodes(n.grants[i]); }
    if DecodedNode(n) == n {
      forall g | g in n.grants ensures PlainGrant(g) {
        var i :| 0 <= i < |n.grants| && n.grants[i] == g;
        assert DecodedGrants(n.grants)[i] == g;
      }
    }
    if PlainNode(n) { assert DecodedGrants(n.grants) == n.grants; }
  }

  lemma GraphDecodes(f: FrozenGraph)
    ensures DecodedGraph(f) == f <==> PlainGraph(f)
    ensures PlainGraph(DecodedGraph(f))
  {
    forall n ensures DecodedNode(n) == n <==> PlainNode(n) { NodeDecodes(n); }
    forall i | 0 <= i < |f.nodes| ensures PlainNode(DecodedNodes(f.nodes)[i]) { NodeDecodes(f.nodes[i]); }
    if DecodedGraph(f) == f {
      forall n | n in f.nodes ensures PlainNode(n) {
        var i :| 0 <= i < |f.nodes| && f.nodes[i] == n;
        assert DecodedNodes(f.nodes)[i] == n;
      }
    }
    if PlainGraph(f) { assert DecodedNodes(f.nodes) == f.nodes; }
  }

  /** The graph aliases of a plan are its graphs by plane. */
  ghost predicate Aliased<X>(p: RunPlan<X>) {
    && Bound(p.graphs, Execution, Some(p.executionGraph)) && Bound(p.graphs, Planning, Some(p.planningGraph))
    && Bound(p.graphs, Learning, p.learningGraph)
  }

  lemma ValidPlanIsAliased<X>(p: RunPlan<X>)
    requires AliasesHold(p)
    ensures Aliased(p)
  {}

  lemma PlainPlanStays<X>(p: RunPlan<X>)
    requires Aliased(p) && PlainPlan(p)
    ensures DecodedPlan(p) == p
  {
    GraphDecodes(p.executionGraph);
    GraphDecodes(p.planningGraph);
    if p.learningGraph.Some? { GraphDecodes(p.learningGraph.value); }
    forall plane | plane in p.graphs ensures DecodedGraph(p.graphs[plane]) == p.graphs[plane] {
      GraphDecodes(p.graphs[plane]);
    }
    assert DecodedPlan(p).graphs == p.graphs;
  }

  lemma DecodedIsPlain<X>(p: RunPlan<X>)
    ensures PlainPlan(DecodedPlan(p))
  {
    forall plane | plane in p.graphs ensures PlainGraph(DecodedGraph(p.graphs[plane])) {
      GraphDecodes(p.graphs[plane]);
    }
  }

  /** Main result: decoding a plan changes it exactly when some grant has something to trim. */
  lemma PlanDecodes<X>(p: RunPlan<X>)
    requires AliasesHold(p)
    ensures DecodedPlan(p) == p <==> PlainPlan(p)
    ensures PlainPlan(DecodedPlan(p))
  {
    ValidPlanIsAliased(p);
    DecodedIsPlain(p);
    if PlainPlan(p) { PlainPlanStays(p); }
  }

  // ---------------------------------------------------------------- decoded plans are valid

  /** Every grant passes its contract when it is decoded. */
  predicate Reloads(n: MaterializedNode) {
    forall g :: g in n.grants ==> CapabilityGrants.ValidGrant(DecodedGrant(g))
  }

  predicate GraphReloads(f: FrozenGraph) { forall n :: n in f.nodes ==> Reloads(n) }

  lemma OtherGrants(t: Tokens, c: ClassesRule, n: MaterializedNode, grants: seq<CapabilityGrants.Grant>)
    requires NormalMaterialized(t, c, n) == Ok(n) && forall g :: g in grants ==> CapabilityGrants.ValidGrant(g)
    ensures NormalMaterialized(t, c, n.(grants := grants)) == Ok(n.(grants := grants))
  {}

  lemma NodeStaysValid(t: Tokens, c: ClassesRule, n: MaterializedNode)
    requires NormalMaterialized(t, c, n) == Ok(n) && Reloads(n)
    ensures NormalMaterialized(t, c, DecodedNode(n)) == Ok(DecodedNode(n))
  {
    forall g | g in DecodedGrants(n.grants) ensures CapabilityGrants.ValidGrant(g) {
      var i :| 0 <= i < |n.grants| && DecodedGrants(n.grants)[i] == g;
      assert n.grants[i] in n.grants;
    }
    OtherGrants(t, c, n, DecodedGrants(n.grants));
  }

  lemma NodesStayValid(t: Tokens, c: ClassesRule, nodes: seq<MaterializedNode>)
    requires Each(MaterializedRule(t, c), nodes) == Ok(nodes) && forall n :: n in nodes ==> Reloads(n)
    ensures Each(MaterializedRule(t, c), DecodedNodes(nodes)) == Ok(DecodedNodes(nodes))
  {
    EachValue(MaterializedRule(t, c), nodes);
    forall i | 0 <= i < |nodes|
      ensures MaterializedRule(t, c)(DecodedNodes(nodes)[i]) == Ok(DecodedNodes(nodes)[i])
    {
      assert MaterializedRule(t, c)(nodes[i]) == Ok(nodes[i]) && nodes[i] in nodes;
      NodeStaysValid(t, c, nodes[i]);
    }
    NormalStays(MaterializedRule(t, c), DecodedNodes(nodes));
  }

  /** Every part of a graph plan is normal. */
  ghost predicate NormalParts(r: FrozenRules, f: FrozenGraph) {
    && r.graph.id(f.loopId) == Ok(f.loopId) && FrozenComplete(f)
    && Each(r.node, f.nodes) == Ok(f.nodes) && Each(r.graph.entry, f.entries) == Ok(f.entries)
    && Each(r.graph.edge, f.edges) == Ok(f.edges) && Each(r.compiledEntry, f.compiledEntries) == Ok(f.compiledEntries)
    && Optionally(r.completionEntry, f.completionEntry) == Ok(f.completionEntry)
    && Each(r.transition, f.transitions) == Ok(f.transitions)
    && Each(r.graph.resume, f.resumePolicies) == Ok(f.resumePolicies)
    && Each(r.graph.threshold, f.thresholdPolicies) == Ok(f.thresholdPolicies)
    && Each(r.graph.state, f.terminalStates) == Ok(f.terminalStates)
    && Optionally(r.graph.completion, f.completion) == Ok(f.completion)
  }

  lemma PartsAreNormal(r: FrozenRules, f: FrozenGraph)
    requires FrozenParts(r, f) == Ok(f)
    ensures NormalParts(r, f)
  {}

  lemma NormalPartsStay(r: FrozenRules, f: FrozenGraph)
    requires NormalParts(r, f)
    ensures FrozenParts(r, f) == Ok(f)
  {}

  lemma OtherNodes(r: FrozenRules, f: FrozenGraph, nodes: seq<MaterializedNode>)
    requires NormalParts(r, f) && Each(r.node, nodes) == Ok(nodes) && nodes != []
    ensures NormalParts(r, f.(nodes := nodes))
  {}

  lemma DecodedHolds(f: FrozenGraph)
    requires FrozenHolds(f)
    ensures FrozenHolds(DecodedGraph(f))
  {
    forall n | n in DecodedNodes(f.nodes) ensures n.plane == f.plane {
      var i :| 0 <= i < |f.nodes| && DecodedNodes(f.nodes)[i] == n;
      assert f.nodes[i] in f.nodes;
    }
  }

  lemma GraphStaysValid(t: Tokens, c: ClassesRule, f: FrozenGraph)
    requires NormalFrozen(t, c, f) == Ok(f) && GraphReloads(f)
    ensures NormalFrozen(t, c, DecodedGraph(f)) == Ok(DecodedGraph(f))
  {
    var r := FrozenRulesOf(t, c);
    PartsAreNormal(r, f);
    NodesStayValid(t, c, f.nodes);
    OtherNodes(r, f, DecodedNodes(f.nodes));
    NormalPartsStay(r, DecodedGraph(f));
    DecodedHolds(f);
  }

  lemma DecodedAliases<X>(p: RunPlan<X>)
    requires AliasesHold(p)
    ensures AliasesHold(DecodedPlan(p))
  {}

  lemma ValidPlanParts<X>(graph: FrozenGraph -> Normalized<FrozenGraph>, x: X -> Normalized<X>, p: RunPlan<X>)
    requires NormalPlan(graph, x, p) == Ok(p)
    ensures p.literalsHold && IdentitiesHold(p) && AliasesHold(p) && Dedupe(p.sourceRefs) == p.sourceRefs
    ensures graph(p.executionGraph) == Ok(p.executionGraph) && graph(p.planningGraph) == Ok(p.planningGraph)
    ensures Optionally(graph, p.learningGraph) == Ok(p.learningGraph) && x(p.extras) == Ok(p.extras)
  {}

  /** Every graph of a plan reloads. */
  predicate PlanReloads<X>(p: RunPlan<X>) { forall plane :: plane in p.graphs.Keys ==> GraphReloads(p.graphs[plane]) }

  lemma DecodedIdentities<X>(p: RunPlan<X>)
    requires IdentitiesHold(p)
    ensures IdentitiesHold(DecodedPlan(p))
  {}

  /** Main result: decoding a valid plan whose grants reload gives a valid plan. */
  lemma DecodedPlanIsValid<X>(t: Tokens, c: ClassesRule, x: X -> Normalized<X>, p: RunPlan<X>)
    requires NormalPlan(FrozenRule(t, c), x, p) == Ok(p) && PlanReloads(p)
    ensures NormalPlan(FrozenRule(t, c), x, DecodedPlan(p)) == Ok(DecodedPlan(p))
  {
    ValidPlanParts(FrozenRule(t, c), x, p);
    ValidPlanIsAliased(p);
    assert FrozenRule(t, c)(p.executionGraph) == NormalFrozen(t, c, p.executionGraph);
    assert FrozenRule(t, c)(p.planningGraph) == NormalFrozen(t, c, p.planningGraph);
    GraphStaysValid(t, c, p.executionGraph);
    GraphStaysValid(t, c, p.planningGraph);
    if p.learningGraph.Some? {
      assert FrozenRule(t, c)(p.learningGraph.value) == NormalFrozen(t, c, p.learningGraph.value);
      GraphStaysValid(t, c, p.learningGraph.value);
    }
    DecodedIdentities(p);
    DecodedAliases(p);
    NormalPlanStays(FrozenRule(t, c), x, DecodedPlan(p));
  }
}
