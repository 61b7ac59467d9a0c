/** The grants of a compiled plan pass their contract when the plan is decoded: their scopes are those of
    decoded requests, or name a runner. */
module SealedGrants {
  import opened Sequences
  import opened Wrappers
  import opened Text
  import opened Normalizers
  import opened CompilerContracts
  import opened PlanContracts
  import opened PlanDecoding
  import opened Assets
  import opened AssetReuse
  import opened Materialization
  import opened RunPlans
  import opened NodeInvariants
  import Capabilities
  import CapabilityGrants

  // ---------------------------------------------------------------- requests are decoded

  /** Requests as decoding leaves them. */
  predicate PlainRequests(requests: seq<Capabilities.Request>) {
    forall r :: r in requests ==> Trimmed(r.requestId) && Trimmed(r.scope.value)
  }

  predicate PlainMode(m: Mode) {
    PlainRequests(m.requests) && forall stage :: stage in m.stageRequests.Keys ==> PlainRequests(m.stageRequests[stage])
  }

  predicate PlainLoop(g: GraphLoop) { forall n :: n in g.nodes ==> PlainRequests(n.requests) }

  /** Decoding trims the ids and scopes of requests. */
  ghost predicate DecodesRequests<P>(d: Decoders<P>) {
    && (forall content :: d.mode(content).Some? ==> PlainMode(d.mode(content).value))
    && (forall content :: d.graph(content).Some? ==> PlainLoop(d.graph(content).value))
    && (forall content :: d.kind(content).Some? ==> PlainRequests(d.kind(content).value.requests))
  }

  ghost predicate PlainSelection(s: Selection) {
    && PlainMode(s.mode) && (forall g :: g in s.graphs ==> PlainLoop(g.graph))
    && forall k :: k in s.kinds ==> PlainRequests(k.kind.requests)
  }

  lemma LoadedGraphIsPlain<P>(w: Workspace, d: Decoders<P>, plane: Plane, loopId: string)
    requires DecodesRequests(d) && LoadGraph(w, d, plane, loopId).Ok?
    ensures PlainLoop(LoadGraph(w, d, plane, loopId).value.graph)
  {
    var a := LoadGraph(w, d, plane, loopId).value;
    assert d.graph(w.files[a.path]) == Some(a.graph);
  }

  lemma LoadedKindIsPlain<P>(w: Workspace, d: Decoders<P>, plane: Plane, kindId: string)
    requires DecodesRequests(d) && LoadKind(w, d, plane, kindId).Ok?
    ensures PlainRequests(LoadKind(w, d, plane, kindId).value.kind.requests)
  {
    var a := LoadKind(w, d, plane, kindId).value;
    assert d.kind(w.files[a.path]) == Some(a.kind);
  }

  lemma LoadedModeIsPlain<P>(w: Workspace, d: Decoders<P>, modeId: string)
    requires DecodesRequests(d) && LoadMode(w, d, modeId).Ok?
    ensures PlainMode(LoadMode(w, d, modeId).value.1)
  {
    var (path, mode) := LoadMode(w, d, modeId).value;
    assert d.mode(w.files[path]) == Some(mode);
  }

  lemma SelectionIsPlain<P>(w: Workspace, d: Decoders<P>, modeId: string, s: Selection)
    requires DecodesRequests(d) && Select(w, d, modeId) == Ok(s)
    ensures PlainSelection(s)
  {
    SelectedParts(w, d, modeId, s);
    LoadedModeIsPlain(w, d, modeId);
    var loops, used := SortedLoops(s.mode.loopIds), UsedKinds(Nodes(s.graphs));
    EachValue(GraphLoader(w, d), loops);
    forall i | 0 <= i < |loops| ensures PlainLoop(s.graphs[i].graph) {
      assert GraphLoader(w, d)(loops[i]) == Ok(s.graphs[i]);
      LoadedGraphIsPlain(w, d, loops[i].0, loops[i].1);
    }
    EachValue(KindLoader(w, d), used);
    forall i | 0 <= i < |used| ensures PlainRequests(s.kinds[i].kind.requests) {
      assert KindLoader(w, d)(used[i]) == Ok(s.kinds[i]);
      LoadedKindIsPlain(w, d, used[i].0, used[i].1);
    }
  }

  lemma {:induction false} KindsAre(kinds: seq<KindAsset>, id: string)
    requires id in KindMap(kinds)
    ensures exists k :: k in kinds && k.kind == KindMap(kinds)[id]
  {
    var n := |kinds| - 1;
    assert kinds[n] in kinds;
    if kinds[n].kindId != id {
      KindsAre(kinds[..n], id);
      var k :| k in kinds[..n] && k.kind == KindMap(kinds[..n])[id];
      assert k in kinds;
    }
  }

  // ---------------------------------------------------------------- scopes of grants

  ghost predicate SealedRequests(requests: seq<Capabilities.Request>) {
    forall i :: 0 <= i < |requests| ==> SealedScope(requests[i].scope)
  }

  lemma {:induction false} MergingKeepsScopes(requests: seq<Capabilities.Request>)
    requires SealedRequests(requests)
    ensures SealedRequests(Capabilities.Dedupe(requests))
  {
    if requests != [] { MergingKeepsScopes(requests[..|requests| - 1]); }
  }

  lemma SealedTogether(a: seq<Capabilities.Request>, b: seq<Capabilities.Request>)
    requires SealedRequests(a) && SealedRequests(b)
    ensures SealedRequests(a + b)
  {}

  lemma StampedAreSealed(requests: seq<Capabilities.Request>, source: string)
    requires PlainRequests(requests)
    ensures SealedRequests(CapabilityGrants.Stamped(requests, source))
  {
    forall i | 0 <= i < |requests| ensures SealedScope(CapabilityGrants.Stamped(requests, source)[i].scope) {
      assert requests[i] in requests;
    }
  }

  lemma FrameworkIsSealed(nodeId: string, runner: Option<string>)
    ensures SealedRequests(FrameworkRequests(nodeId, runner))
  {
    var workspace, result := "workspace", "stage_result";
    assert Trimmed(workspace) && Trimmed(result);
  }

  lemma AllRequestsAreSealed(node: Node, mode: Mode, kind: StageKind, runner: Option<string>)
    requires PlainRequests(node.requests) && PlainRequests(kind.requests) && PlainMode(mode)
    ensures SealedRequests(CapabilityGrants.AllRequests(GrantSources(mode, kind, node, runner)))
  {
    var s := GrantSources(mode, kind, node, runner);
    assert node.stageKindId in mode.stageRequests ==> node.stageKindId in mode.stageRequests.Keys;
    FrameworkIsSealed(node.nodeId, runner);
    StampedAreSealed(s.stageKindRequests, "stage_kind");
    StampedAreSealed(s.nodeRequests, "graph_node");
    StampedAreSealed(s.modeRequests, "mode");
    StampedAreSealed(s.modeStageRequests, "mode");
    SealedTogether(s.framework, CapabilityGrants.Stamped(s.stageKindRequests, "stage_kind"));
    var two := s.framework + CapabilityGrants.Stamped(s.stageKindRequests, "stage_kind");
    SealedTogether(two, CapabilityGrants.Stamped(s.nodeRequests, "graph_node"));
    var three := two + CapabilityGrants.Stamped(s.nodeRequests, "graph_node");
    SealedTogether(three, CapabilityGrants.Stamped(s.modeRequests, "mode"));
    SealedTogether(three + CapabilityGrants.Stamped(s.modeRequests, "mode"),
                   CapabilityGrants.Stamped(s.modeStageRequests, "mode"));
  }

  lemma ResolvedReloads(nodeId: string, r: Capabilities.Request, policies: seq<CapabilityGrants.Candidate>,
                        config: CapabilityGrants.Config, index: nat)
    requires SealedScope(r.scope) && CapabilityGrants.Resolved(nodeId, r, policies, config, index).Ok?
    ensures var g := CapabilityGrants.Resolved(nodeId, r, policies, config, index).value;
            CapabilityGrants.ValidGrant(DecodedGrant(g))
  {
    CapabilityGrants.ResolutionIsTotal(nodeId, r, policies, config, index);
    SealedGrantStaysValid(CapabilityGrants.Resolved(nodeId, r, policies, config, index).value);
  }

  lemma CompiledReload(nodeId: string, s: CapabilityGrants.Sources, config: CapabilityGrants.Config)
    requires SealedRequests(CapabilityGrants.AllRequests(s)) && CapabilityGrants.CompiledGrants(nodeId, s, config).Ok?
    ensures forall g :: g in CapabilityGrants.CompiledGrants(nodeId, s, config).value ==>
              CapabilityGrants.ValidGrant(DecodedGrant(g))
  {
    if config.enabled {
      var requests := Capabilities.Dedupe(CapabilityGrants.AllRequests(s));
      var grants := CapabilityGrants.CompiledGrants(nodeId, s, config).value;
      MergingKeepsScopes(CapabilityGrants.AllRequests(s));
      CapabilityGrants.CompiledGrantsPerKey(nodeId, s, config);
      forall i | 0 <= i < |grants| ensures CapabilityGrants.ValidGrant(DecodedGrant(grants[i])) {
        ResolvedReloads(nodeId, requests[i], CapabilityGrants.AllPolicies(s), config, i);
      }
    }
  }

  // ---------------------------------------------------------------- plans

  ghost function Reloading(): MaterializedNode -> bool { (n: MaterializedNode) => Reloads(n) }

  lemma ValidationKeepsGrants(t: Tokens, c: ClassesRule, n: MaterializedNode)
    requires NormalMaterialized(t, c, n).Ok?
    ensures NormalMaterialized(t, c, n).value.grants == n.grants
  {}

  lemma ReloadingSurvives(t: Tokens, c: ClassesRule)
    ensures SurvivesValidation(t, c, Reloading()) && SurvivesAuthority(Reloading())
  {
    forall n | Reloading()(n) && NormalMaterialized(t, c, n).Ok?
      ensures Reloading()(NormalMaterialized(t, c, n).value)
    {
      ValidationKeepsGrants(t, c, n);
    }
  }

  lemma NodePlanReloads(t: Tokens, c: ClassesRule, node: Node, plane: Plane, mode: Mode, config: Config,
                        kinds: map<string, StageKind>)
    requires NodePlan(t, c, node, plane, mode, config, kinds).Ok? && PlainRequests(node.requests) && PlainMode(mode)
    requires forall id :: id in kinds.Keys ==> PlainRequests(kinds[id].requests)
    ensures Reloads(NodePlan(t, c, node, plane, mode, config, kinds).value)
  {
    var kind := kinds[node.stageKindId];
    var runner := Layered(node.runnerName, StageConfigOf(config, node).runner, mode.runners, node);
    var sources := GrantSources(mode, kind, node, runner);
    AllRequestsAreSealed(node, mode, kind, runner);
    CompiledReload(node.nodeId, sources, config.capabilities);
    var grants := CapabilityGrants.CompiledGrants(node.nodeId, sources, config.capabilities).value;
    ValidationKeepsGrants(t, c, LayeredNode(node, plane, mode, config, kind, grants));
  }

  lemma ReloadingWhenMade(e: Env, s: Selection, config: Config, g: GraphAsset)
    requires PlainSelection(s) && g in s.graphs
    ensures HoldsWhenMade(e, s, config, g, Reloading())
  {
    forall id | id in KindMap(s.kinds).Keys ensures PlainRequests(KindMap(s.kinds)[id].requests) {
      KindsAre(s.kinds, id);
    }
    forall n | n in g.graph.nodes && NodePlan(e.t, e.c, n, g.graph.plane, s.mode, config, KindMap(s.kinds)).Ok?
      ensures Reloading()(NodePlan(e.t, e.c, n, g.graph.plane, s.mode, config, KindMap(s.kinds)).value)
    {
      NodePlanReloads(e.t, e.c, n, g.graph.plane, s.mode, config, KindMap(s.kinds));
    }
  }

  /** Main result: every grant of a compiled plan passes its contract when the plan is decoded. */
  lemma CompiledPlanReloads(w: Workspace, d: Decoders<Primitives>, modeId: string, config: Config,
                            r: Resolved<Primitives>, e: Env, time: string, p: RunPlan<Extras>)
    requires DecodesRequests(d) && ResolveMode(w, d, modeId, config) == Ok(r) && Materialize(e, r, time) == Ok(p)
    ensures PlanReloads(p)
  {
    ResolvedParts(w, d, modeId, config, r);
    SelectionIsPlain(w, d, modeId, r.selection);
    forall g | g in r.selection.graphs ensures HoldsWhenMade(e, r.selection, r.config, g, Reloading()) {
      ReloadingWhenMade(e, r.selection, r.config, g);
    }
    ReloadingSurvives(e.t, e.c);
    PlanNodes(e, r, time, p, Reloading());
    forall plane | plane in p.graphs ensures GraphReloads(p.graphs[plane]) {
      assert AllNodes(Reloading(), p.graphs[plane].nodes);
    }
  }

  // ---------------------------------------------------------------- grants that decoding changes

  const OPEN_CONFIG := CapabilityGrants.Config(true, map[], CapabilityGrants.Deny, true, false)

  /** Decoding changes a valid grant whose scope or given reason has something to trim. */
  lemma PaddedGrantChanges(g: CapabilityGrants.Grant)
    requires !Trimmed(g.scope.value) || (g.reason.Given? && !Trimmed(g.reason.text))
    ensures DecodedGrant(g) != g
  {
    GrantDecodes(g);
  }

  function RunnerRequest(nodeId: string, runner: Option<string>): Capabilities.Request {
    FrameworkRequests(nodeId, runner)[0]
  }

  lemma RunnerRequestIsValid(nodeId: string, runner: Option<string>)
    requires runner.Some? ==> !IsBlank(runner.value)
    ensures CapabilityGrants.ValidRequest(RunnerRequest(nodeId, runner))
  {
    var named := "default";
    TrimTrims(named);
    FrameworkIdIsNamed(nodeId, "runner_invoke");
  }

  function NodeOverride(reason: string): CapabilityGrants.Candidate {
    CapabilityGrants.Candidate(
      CapabilityGrants.GraphNode,
      CapabilityGrants.PolicyOverride(Capabilities.RunnerInvoke, CapabilityGrants.Allow, None, reason))
  }

  lemma OnlyOverrideDecides(r: Capabilities.Request, reason: string)
    requires r.capability == Capabilities.RunnerInvoke && !IsBlank(reason)
    ensures CapabilityGrants.ResolveDecision(r, [NodeOverride(reason)], OPEN_CONFIG).reason
            == CapabilityGrants.Given(reason)
  {}

  /** The grant for invoking a runner under an override with the reason ` x`. */
  lemma PaddedReasonIsTrimmed(nodeId: string)
    ensures
      var grant := CapabilityGrants.Resolved(nodeId, RunnerRequest(nodeId, None), [NodeOverride(" x")], OPEN_CONFIG, 0);
      grant.Ok? && CapabilityGrants.ValidGrant(grant.value) && DecodedGrant(grant.value) != grant.value
  {
    var request := RunnerRequest(nodeId, None);
    NamedAndPadded("x");
    assert " " + "x" == " x";
    RunnerRequestIsValid(nodeId, None);
    OnlyOverrideDecides(request, " x");
    CapabilityGrants.ResolutionIsTotal(nodeId, request, [NodeOverride(" x")], OPEN_CONFIG, 0);
    PaddedGrantChanges(CapabilityGrants.Resolved(nodeId, request, [NodeOverride(" x")], OPEN_CONFIG, 0).value);
  }

  /** The grant for invoking the runner ` codex_cli`. */
  lemma PaddedRunnerIsTrimmed(nodeId: string)
    ensures
      var grant := CapabilityGrants.Resolved(nodeId, RunnerRequest(nodeId, Some(" codex_cli")), [], OPEN_CONFIG, 0);
      grant.Ok? && CapabilityGrants.ValidGrant(grant.value) && DecodedGrant(grant.value) != grant.value
  {
    var request := RunnerRequest(nodeId, Some(" codex_cli"));
    NamedAndPadded("codex_cli");
    assert " " + "codex_cli" == " codex_cli";
    RunnerRequestIsValid(nodeId, Some(" codex_cli"));
    CapabilityGrants.ResolutionIsTotal(nodeId, request, [], OPEN_CONFIG, 0);
    PaddedGrantChanges(CapabilityGrants.Resolved(nodeId, request, [], OPEN_CONFIG, 0).value);
  }

  lemma NamedAndPadded(name: string)
    requires name != "" && !IsSpace(name[0]) && !IsSpace(name[|name| - 1])
    ensures !IsBlank(" " + name) && !Trimmed(" " + name)
  {
    TrimSpaces(name);
  }

  lemma FrameworkIdIsNamed(nodeId: string, part: string)
    requires part != "" && !IsSpace(part[|part| - 1])
    ensures !IsBlank(nodeId + ".framework." + part)
  {
    var id := nodeId + ".framework." + part;
    assert id[|id| - 1] == part[|part| - 1];
    LastIsKept(id);
  }

  lemma {:induction false} LastIsKept(s: string)
    requires s != "" && !IsSpace(s[|s| - 1])
    ensures !IsBlank(s)
  {
    if IsSpace(s[0]) { LastIsKept(s[1..]); }
  }
}
