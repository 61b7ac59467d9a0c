/** Resolving capability requests into grants (src/compiler/materialization.rs) under the grant contract
    of src/contracts/capabilities.rs. */
module CapabilityGrants {
  import opened Sequences
  import opened Wrappers
  import opened Text
  import opened Capabilities

  datatype PolicyDecision = Allow | Deny | NeedsApproval

  datatype Source = StageKind | GraphNode | Mode

  datatype PolicyOverride = PolicyOverride(
    capability: CapabilityId, decision: PolicyDecision, scope: Option<Scope>, reason: string)

  datatype Candidate = Candidate(source: Source, override: PolicyOverride)

  datatype Config = Config(
    enabled: bool,
    defaults: map<CapabilityId, PolicyDecision>,
    defaultUnknown: PolicyDecision,
    allowAdvisory: bool,
    failRequiredAdvisory: bool)

  datatype Resolver = RuntimeConfig | ByOverride(source: Source) | StageKindDefault

  /** Why a decision was taken: a message the compiler composes, or the override's own reason. */
  datatype DecisionReason = Composed(resolver: Resolver, decision: PolicyDecision) | Given(text: string)

  datatype Decision = Decision(decision: PolicyDecision, resolvedBy: Resolver, reason: DecisionReason)

  // ---------------------------------------------------------------- the precedence of policies

  predicate ScopeMatches(o: PolicyOverride, r: Request) {
    match o.scope
    case Some(scope) => scope.kind == r.scope.kind && scope.value == r.scope.value
    case None => true
  }

  predicate Applies(c: Candidate, source: Source, r: Request) {
    c.source == source && c.override.capability == r.capability && ScopeMatches(c.override, r)
  }

  /** `policies.iter().rev().find(…)`. */
  function LastOf(policies: seq<Candidate>, source: Source, r: Request): Option<Candidate> {
    if policies == [] then None
    else if Applies(policies[|policies| - 1], source, r) then Some(policies[|policies| - 1])
    else LastOf(policies[..|policies| - 1], source, r)
  }

  function ByCandidate(c: Candidate): Decision {
    Decision(c.override.decision, ByOverride(c.source),
             if IsBlank(c.override.reason) then Composed(ByOverride(c.source), c.override.decision)
             else Given(c.override.reason))
  }

  predicate IsFrameworkRequest(r: Request) {
    r.policySource == Some("stage_kind_default") && r.capability in {RunnerInvoke, WorkspaceRead, ArtifactWrite}
  }

  function FirstOverride(policies: seq<Candidate>, r: Request): Option<Candidate> {
    match LastOf(policies, GraphNode, r)
    case Some(c) => Some(c)
    case None =>
      match LastOf(policies, Mode, r)
      case Some(c) => Some(c)
      case None => LastOf(policies, StageKind, r)
  }

  function ResolveDecision(r: Request, policies: seq<Candidate>, config: Config): Decision {
    if r.capability in config.defaults then
      var decision := config.defaults[r.capability];
      Decision(decision, RuntimeConfig, Composed(RuntimeConfig, decision))
    else
      match FirstOverride(policies, r)
      case Some(c) => ByCandidate(c)
      case None =>
        if IsFrameworkRequest(r) then Decision(Allow, StageKindDefault, Composed(StageKindDefault, Allow))
        else Decision(config.defaultUnknown, RuntimeConfig, Composed(RuntimeConfig, config.defaultUnknown))
  }

  /** No override from `source` applies at or behind position `from`. */
  ghost predicate NoneFrom(policies: seq<Candidate>, source: Source, r: Request, from: nat) {
    forall i :: from <= i < |policies| ==> !Applies(policies[i], source, r)
  }

  /** `c` is the last override from `source` that applies. */
  ghost predicate IsLast(policies: seq<Candidate>, source: Source, r: Request, c: Candidate) {
    exists k :: 0 <= k < |policies| && policies[k] == c && Applies(c, source, r) && NoneFrom(policies, source, r, k + 1)
  }

  lemma {:induction false} LastOfIsLast(policies: seq<Candidate>, source: Source, r: Request)
    ensures LastOf(policies, source, r).None? ==> NoneFrom(policies, source, r, 0)
    ensures LastOf(policies, source, r).Some? ==> IsLast(policies, source, r, LastOf(policies, source, r).value)
  {
    if policies != [] {
      var n := |policies| - 1;
      if Applies(policies[n], source, r) {
        assert NoneFrom(policies, source, r, n + 1);
      } else {
        LastOfIsLast(policies[..n], source, r);
        var found := LastOf(policies[..n], source, r);
        if found.Some? {
          var k :| 0 <= k < n && policies[..n][k] == found.value && Applies(found.value, source, r)
                   && NoneFrom(policies[..n], source, r, k + 1);
          forall i | k + 1 <= i < |policies| ensures !Applies(policies[i], source, r) {
            assert i == n || policies[..n][i] == policies[i];
          }
          assert NoneFrom(policies, source, r, k + 1);
        } else {
          assert forall i :: 0 <= i < n ==> policies[..n][i] == policies[i];
        }
      }
    }
  }

  /** The precedence: the config default, else the last override of the graph node, else of the mode,
      else of the stage kind, else the framework default, else the default for unknown capabilities. */
  ghost predicate FollowsPrecedence(d: Decision, r: Request, policies: seq<Candidate>, config: Config) {
    if r.capability in config.defaults then
      d.decision == config.defaults[r.capability] && d.resolvedBy == RuntimeConfig
    else if exists source :: !NoneFrom(policies, source, r, 0) then
      exists c :: d == ByCandidate(c) && IsLast(policies, c.source, r, c)
                  && (c.source != GraphNode ==> NoneFrom(policies, GraphNode, r, 0))
                  && (c.source == StageKind ==> NoneFrom(policies, Mode, r, 0))
    else if IsFrameworkRequest(r) then d.decision == Allow && d.resolvedBy == StageKindDefault
    else d.decision == config.defaultUnknown && d.resolvedBy == RuntimeConfig
  }

  lemma FirstOverrideIsFirst(policies: seq<Candidate>, r: Request)
    ensures FirstOverride(policies, r).None? ==> forall source :: NoneFrom(policies, source, r, 0)
    ensures FirstOverride(policies, r).Some? ==>
              var c := FirstOverride(policies, r).value;
              && IsLast(policies, c.source, r, c)
              && (c.source != GraphNode ==> NoneFrom(policies, GraphNode, r, 0))
              && (c.source == StageKind ==> NoneFrom(policies, Mode, r, 0))
  {
    LastOfIsLast(policies, GraphNode, r);
    LastOfIsLast(policies, Mode, r);
    LastOfIsLast(policies, StageKind, r);
    forall source ensures LastOf(policies, source, r).None? ==> NoneFrom(policies, source, r, 0) {
      LastOfIsLast(policies, source, r);
    }
  }

  lemma DecisionFollowsPrecedence(r: Request, policies: seq<Candidate>, config: Config)
    ensures FollowsPrecedence(ResolveDecision(r, policies, config), r, policies, config)
  {
    FirstOverrideIsFirst(policies, r);
    var found := FirstOverride(policies, r);
    if found.Some? {
      var c := found.value;
      var k :| 0 <= k < |policies| && policies[k] == c && Applies(c, c.source, r);
      assert !NoneFrom(policies, c.source, r, 0);
    }
  }

  // ---------------------------------------------------------------- grants

  datatype DecisionState = Granted | Denied | ApprovalRequired | Unsupported

  datatype Enforcement = RuntimeEnforced | AdvisoryOnly | NotApplicable

  datatype EvidenceStatus = NotRequired | Pending

  datatype Evidence = RunnerInvocation | RunnerCompletion | CapabilityEvidence

  /** `operator.<capability>`, gating the stage, without expiration, decided by `approved`. */
  datatype ApprovalPolicyRef = ApprovalPolicyRef(capability: CapabilityId)

  /** `grant-<node>-<capability>-<index>`. */
  datatype GrantId = GrantId(nodeId: string, capability: CapabilityId, index: nat)

  datatype Grant = Grant(
    grantId: GrantId,
    requestId: string,
    capability: CapabilityId,
    access: Access,
    scope: Scope,
    required: bool,
    state: DecisionState,
    enforcement: Enforcement,
    approval: Option<ApprovalPolicyRef>,
    evidence: seq<Evidence>,
    evidenceStatus: EvidenceStatus,
    reason: DecisionReason,
    resolvedBy: Resolver)

  datatype GrantError = RequiredAdvisoryRejected | ContractViolated

  /** A path that starts at the root or steps out of the workspace. */
  predicate LeavesWorkspace(path: string) {
    (path != "" && path[0] == '/') || HasParentPart(path)
  }

  /** One part between slashes is `..`. */
  predicate HasParentPart(path: string)
    decreases |path|
  {
    match SplitOnce(path, '/')
    case None => path == ".."
    case Some((part, rest)) =>
      SplitOnceParts(path, '/');
      part == ".." || HasParentPart(rest)
  }

  predicate IsRuntimeAction(value: string) {
    value in {"enqueue", "pause", "resume", "cancel", "retry", "repair", "approve", "deny", "reload_config"}
  }

  predicate ValidScope(scope: Scope) {
    && !IsBlank(scope.value)
    && (scope.kind == WorkspacePath ==> !LeavesWorkspace(scope.value))
    && (scope.kind == RuntimeAction ==> IsRuntimeAction(scope.value))
  }

  /** The contract of a request that a grant takes over. */
  predicate ValidRequest(r: Request) { !IsBlank(r.requestId) && ValidScope(r.scope) }

  /** The contract every grant must pass. */
  predicate ValidGrant(g: Grant) {
    && !IsBlank(g.requestId)
    && ValidScope(g.scope)
    && (g.state == ApprovalRequired ==> g.approval.Some?)
    && (g.state != Granted ==> g.enforcement == NotApplicable)
    && (g.reason.Given? ==> !IsBlank(g.reason.text))
  }

  predicate IsRuntimeEnforced(capability: CapabilityId) {
    capability in {RunnerInvoke, ArtifactRead, ArtifactWrite, EvidenceEmit, RuntimeControl}
  }

  function StateOf(decision: PolicyDecision): DecisionState {
    match decision
    case Allow => Granted
    case Deny => Denied
    case NeedsApproval => ApprovalRequired
  }

  function EvidenceFor(r: Request, enforcement: Enforcement): seq<Evidence> {
    if enforcement == NotApplicable then []
    else if r.requiresEnforcement then [RunnerInvocation, RunnerCompletion, CapabilityEvidence]
    else [RunnerInvocation, RunnerCompletion]
  }

  /** A granted capability that nothing but advice would enforce, though the request requires it. */
  predicate RequiredAdvisory(r: Request, decision: PolicyDecision) {
    decision == Allow && !IsRuntimeEnforced(r.capability) && r.required
  }

  predicate EnforcementDemanded(r: Request, config: Config) {
    r.requiresEnforcement || config.failRequiredAdvisory
  }

  /** The grant for one request, resolved step by step. */
  method ResolveGrant(nodeId: string, r: Request, policies: seq<Candidate>, config: Config, index: nat)
    returns (grant: Result<Grant, GrantError>)
    ensures grant == Resolved(nodeId, r, policies, config, index)
  {
    var decision := ResolveDecision(r, policies, config);
    var state := StateOf(decision.decision);
    var enforcement := NotApplicable;
    if state == Granted {
      enforcement := if IsRuntimeEnforced(r.capability) then RuntimeEnforced else AdvisoryOnly;
    }
    var approval := None;
    if state == ApprovalRequired { approval := Some(ApprovalPolicyRef(r.capability)); }
    if state == Granted && enforcement == AdvisoryOnly && r.required
       && (r.requiresEnforcement || config.failRequiredAdvisory) {
      return Err(RequiredAdvisoryRejected);
    }
    if state == Granted && enforcement == AdvisoryOnly && r.required && !config.allowAdvisory {
      state, enforcement := Unsupported, NotApplicable;
    }
    var g := Grant(GrantId(nodeId, r.capability, index), r.requestId, r.capability, r.access, r.scope, r.required,
                   state, enforcement, approval, EvidenceFor(r, enforcement), NotRequired, decision.reason,
                   decision.resolvedBy);
    if g.state == Granted && g.evidence != [] { g := g.(evidenceStatus := Pending); }
    if !ValidGrant(g) { return Err(ContractViolated); }
    return Ok(g);
  }

  /** The state and enforcement a decision leads to, once required advice has been ruled on. */
  function Outcome(r: Request, decision: PolicyDecision, config: Config): (DecisionState, Enforcement) {
    if decision != Allow then (StateOf(decision), NotApplicable)
    else if IsRuntimeEnforced(r.capability) then (Granted, RuntimeEnforced)
    else if r.required && !config.allowAdvisory then (Unsupported, NotApplicable)
    else (Granted, AdvisoryOnly)
  }

  function Resolved(nodeId: string, r: Request, policies: seq<Candidate>, config: Config, index: nat):
      Result<Grant, GrantError>
  {
    var d := ResolveDecision(r, policies, config);
    var (state, enforcement) := Outcome(r, d.decision, config);
    if RequiredAdvisory(r, d.decision) && EnforcementDemanded(r, config) then Err(RequiredAdvisoryRejected)
    else if !ValidRequest(r) then Err(ContractViolated)
    else
      Ok(Grant(GrantId(nodeId, r.capability, index), r.requestId, r.capability, r.access, r.scope, r.required,
               state, enforcement,
               if d.decision == NeedsApproval then Some(ApprovalPolicyRef(r.capability)) else None,
               EvidenceFor(r, enforcement), if state == Granted then Pending else NotRequired,
               d.reason, d.resolvedBy))
  }

  /** Main result: a valid request fails to resolve exactly when a required grant would be advisory
      only and enforcement is demanded. What resolves passes the grant contract, has evidence pending
      exactly when it is granted, carries an approval reference exactly when it needs approval, and
      was decided under the precedence. */
  lemma ResolutionIsTotal(nodeId: string, r: Request, policies: seq<Candidate>, config: Config, index: nat)
    requires ValidRequest(r)
    ensures
      var resolved, d := Resolved(nodeId, r, policies, config, index), ResolveDecision(r, policies, config);
      && FollowsPrecedence(d, r, policies, config)
      && (resolved.Err? <==> RequiredAdvisory(r, d.decision) && EnforcementDemanded(r, config))
      && (resolved.Ok? ==>
            var g := resolved.value;
            && ValidGrant(g)
            && (g.evidenceStatus == Pending <==> g.state == Granted)
            && (g.evidence != [] <==> g.state == Granted)
            && (g.approval.Some? <==> g.state == ApprovalRequired)
            && (g.state == Unsupported <==> RequiredAdvisory(r, d.decision) && !config.allowAdvisory)
            && g.resolvedBy == d.resolvedBy && g.reason == d.reason)
  {
    DecisionFollowsPrecedence(r, policies, config);
  }

  // ---------------------------------------------------------------- the context of one node

  /** Where requests and policies of one node come from. */
  datatype Sources = Sources(
    framework: seq<Request>,
    stageKindRequests: seq<Request>,
    nodeRequests: seq<Request>,
    modeRequests: seq<Request>,
    modeStageRequests: seq<Request>,
    stageKindOverrides: seq<PolicyOverride>,
    modePolicies: seq<PolicyOverride>,
    modeStageOverrides: seq<PolicyOverride>,
    nodePolicies: seq<PolicyOverride>,
    nodeOverrides: seq<PolicyOverride>)

  function Stamped(requests: seq<Request>, source: string): (stamped: seq<Request>)
    ensures |stamped| == |requests|
  {
    seq(|requests|, i requires 0 <= i < |requests| =>
      requests[i].(requestedBy := if requests[i].requestedBy == "stage" then source else requests[i].requestedBy,
                   policySource := if requests[i].policySource.None? then Some(source) else requests[i].policySource))
  }

  function FromSource(overrides: seq<PolicyOverride>, source: Source): (candidates: seq<Candidate>)
    ensures |candidates| == |overrides|
  {
    seq(|overrides|, i requires 0 <= i < |overrides| => Candidate(source, overrides[i]))
  }

  function AllRequests(s: Sources): seq<Request> {
    s.framework + Stamped(s.stageKindRequests, "stage_kind") + Stamped(s.nodeRequests, "graph_node")
    + Stamped(s.modeRequests, "mode") + Stamped(s.modeStageRequests, "mode")
  }

  function AllPolicies(s: Sources): seq<Candidate> {
    FromSource(s.stageKindOverrides, StageKind) + FromSource(s.modePolicies, Mode)
    + FromSource(s.modeStageOverrides, Mode) + FromSource(s.nodePolicies, GraphNode)
    + FromSource(s.nodeOverrides, GraphNode)
  }

  /** A result as it is. */
  function Same<T, E>(r: Result<T, E>): Result<T, E> { r }

  lemma {:induction false} AllSucceed<T, E>(results: seq<Result<T, E>>)
    ensures Each(Same<T, E>, results).Ok? <==> forall i :: 0 <= i < |results| ==> results[i].Ok?
  {
    if results != [] {
      var n := |results| - 1;
      AllSucceed(results[..n]);
      assert forall i :: 0 <= i < n ==> results[i] == results[..n][i];
    }
  }

  /** What each request of a node resolves to. */
  function Resolutions(nodeId: string, requests: seq<Request>, policies: seq<Candidate>, config: Config):
      (results: seq<Result<Grant, GrantError>>)
    ensures |results| == |requests|
    ensures forall i :: 0 <= i < |requests| ==> results[i] == Resolved(nodeId, requests[i], policies, config, i)
  {
    seq(|requests|, i requires 0 <= i < |requests| => Resolved(nodeId, requests[i], policies, config, i))
  }

  /** The grants of a node: none when capabilities are switched off. */
  function CompiledGrants(nodeId: string, s: Sources, config: Config): Result<seq<Grant>, GrantError> {
    if !config.enabled then Ok([])
    else Each(Same<Grant, GrantError>, Resolutions(nodeId, Dedupe(AllRequests(s)), AllPolicies(s), config))
  }

  method ResolveAll(nodeId: string, requests: seq<Request>, policies: seq<Candidate>, config: Config)
    returns (r: Result<seq<Grant>, GrantError>)
    ensures r == Each(Same<Grant, GrantError>, Resolutions(nodeId, requests, policies, config))
  {
    ghost var results := Resolutions(nodeId, requests, policies, config);
    var grants := [];
    for i := 0 to |requests|
      invariant Each(Same<Grant, GrantError>, results[..i]) == Ok(grants)
    {
      var grant := ResolveGrant(nodeId, requests[i], policies, config, i);
      assert results[..i + 1][..i] == results[..i];
      if grant.Err? {
        FirstFailureStays(Same<Grant, GrantError>, results, i + 1);
        return Err(grant.error);
      }
      grants := grants + [grant.value];
    }
    assert results[..|requests|] == results;
    return Ok(grants);
  }

  method CompileCapabilityContext(nodeId: string, s: Sources, config: Config)
    returns (r: Result<seq<Grant>, GrantError>)
    ensures r == CompiledGrants(nodeId, s, config)
  {
    if !config.enabled { return Ok([]); }
    var requests := DedupeCapabilityRequests(AllRequests(s));
    r := ResolveAll(nodeId, requests, AllPolicies(s), config);
  }

  /** One grant per distinct request key, in the order the keys first occur, or an error exactly when
      one of them does not resolve. */
  lemma CompiledGrantsPerKey(nodeId: string, s: Sources, config: Config)
    requires config.enabled
    ensures
      var requests, grants := Dedupe(AllRequests(s)), CompiledGrants(nodeId, s, config);
      && Keys(requests) == FirstKeys(AllRequests(s))
      && (grants.Ok? <==> forall i :: 0 <= i < |requests| ==>
            Resolved(nodeId, requests[i], AllPolicies(s), config, i).Ok?)
      && (grants.Ok? ==> |grants.value| == |requests| && forall i :: 0 <= i < |requests| ==>
            Ok(grants.value[i]) == Resolved(nodeId, requests[i], AllPolicies(s), config, i))
  {
    DedupeIsGrouping(AllRequests(s));
    var results := Resolutions(nodeId, Dedupe(AllRequests(s)), AllPolicies(s), config);
    AllSucceed(results);
    if CompiledGrants(nodeId, s, config).Ok? { EachValue(Same<Grant, GrantError>, results); }
  }

  // ---------------------------------------------------------------- summaries

  datatype Summary = Summary(total: nat, byDecision: map<DecisionState, nat>, byEnforcement: map<Enforcement, nat>)

  function Count<K>(counts: map<K, nat>, key: K): nat { if key in counts then counts[key] else 0 }

  /** How many of the grants have a state. */
  function InState(grants: seq<Grant>, state: DecisionState): nat {
    if grants == [] then 0
    else InState(grants[..|grants| - 1], state) + (if grants[|grants| - 1].state == state then 1 else 0)
  }

  function Enforced(grants: seq<Grant>, enforcement: Enforcement): nat {
    if grants == [] then 0
    else
      Enforced(grants[..|grants| - 1], enforcement)
      + (if grants[|grants| - 1].enforcement == enforcement then 1 else 0)
  }

  /** A summary that counts exactly these grants. */
  ghost predicate Summarizes(s: Summary, grants: seq<Grant>) {
    && s.total == |grants|
    && (forall state :: Count(s.byDecision, state) == InState(grants, state))
    && (forall enforcement :: Count(s.byEnforcement, enforcement) == Enforced(grants, enforcement))
  }

  function Counted(s: Summary, g: Grant): Summary {
    Summary(s.total + 1,
            s.byDecision[g.state := Count(s.byDecision, g.state) + 1],
            s.byEnforcement[g.enforcement := Count(s.byEnforcement, g.enforcement) + 1])
  }

  function SummaryOf(grants: seq<Grant>): Summary {
    if grants == [] then Summary(0, map[], map[])
    else Counted(SummaryOf(grants[..|grants| - 1]), grants[|grants| - 1])
  }

  method Summarize(grants: seq<Grant>) returns (s: Summary)
    ensures s == SummaryOf(grants) && Summarizes(s, grants)
  {
    s := Summary(0, map[], map[]);
    for i := 0 to |grants|
      invariant s == SummaryOf(grants[..i])
    {
      assert grants[..i + 1][..i] == grants[..i];
      s := Counted(s, grants[i]);
    }
    assert grants[..|grants|] == grants;
    SummaryCounts(grants);
  }

  lemma {:induction false} SummaryCounts(grants: seq<Grant>)
    ensures Summarizes(SummaryOf(grants), grants)
  {
    if grants != [] { SummaryCounts(grants[..|grants| - 1]); }
  }

  /** The contract of a summary: both maps of counts sum to the total. */
  predicate SummaryHolds(s: Summary) {
    && Count(s.byDecision, Granted) + Count(s.byDecision, Denied) + Count(s.byDecision, ApprovalRequired)
       + Count(s.byDecision, Unsupported) == s.total
    && Count(s.byEnforcement, RuntimeEnforced) + Count(s.byEnforcement, AdvisoryOnly)
       + Count(s.byEnforcement, NotApplicable) == s.total
  }

  lemma {:induction false} CountsAdd(a: seq<Grant>, b: seq<Grant>, state: DecisionState, enforcement: Enforcement)
    ensures InState(a + b, state) == InState(a, state) + InState(b, state)
    ensures Enforced(a + b, enforcement) == Enforced(a, enforcement) + Enforced(b, enforcement)
  {
    if b == [] {
      assert a + b == a;
    } else {
      var n := |b| - 1;
      assert (a + b)[..|a + b| - 1] == a + b[..n] && (a + b)[|a + b| - 1] == b[n];
      CountsAdd(a, b[..n], state, enforcement);
    }
  }

  lemma {:induction false} CountsCover(grants: seq<Grant>)
    ensures InState(grants, Granted) + InState(grants, Denied) + InState(grants, ApprovalRequired)
            + InState(grants, Unsupported) == |grants|
    ensures Enforced(grants, RuntimeEnforced) + Enforced(grants, AdvisoryOnly) + Enforced(grants, NotApplicable)
            == |grants|
  {
    if grants != [] { CountsCover(grants[..|grants| - 1]); }
  }

  /** Main result: a summary passes its own contract (its counts sum to its total), and summaries of
      parts add up to the summary of the whole. */
  lemma SummariesConserve(a: seq<Grant>, b: seq<Grant>, s: Summary, t: Summary, whole: Summary)
    requires Summarizes(s, a) && Summarizes(t, b) && Summarizes(whole, a + b)
    ensures whole.total == s.total + t.total
    ensures forall state :: Count(whole.byDecision, state) == Count(s.byDecision, state) + Count(t.byDecision, state)
    ensures forall e :: Count(whole.byEnforcement, e) == Count(s.byEnforcement, e) + Count(t.byEnforcement, e)
    ensures SummaryHolds(s) && SummaryHolds(t) && SummaryHolds(whole)
  {
    forall state, e
      ensures InState(a + b, state) == InState(a, state) + InState(b, state)
      ensures Enforced(a + b, e) == Enforced(a, e) + Enforced(b, e)
    {
      CountsAdd(a, b, state, e);
    }
    CountsCover(a);
    CountsCover(b);
  }
}
