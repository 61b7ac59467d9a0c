/** Execution capabilities: merging requests, resolving grants under a precedence of policies, and
    summing them up (src/compiler/materialization.rs and src/contracts/capabilities.rs). */
module Capabilities {
  import opened Wrappers
  import opened Text

  datatype CapabilityId =
    | WorkspaceRead | WorkspaceWrite | ArtifactRead | ArtifactWrite | RunnerInvoke | ShellRun | GitRead
    | GitMutate | PackageInstall | NetworkAccess | ApprovalRequest | EvidenceEmit | RuntimeControl

  datatype Access = Read | Write | Execute | Mutate | AskFor | Emit

  datatype ScopeKind =
    | Workspace | WorkspacePath | ArtifactKind | ArtifactRef | Runner | CommandClass | GitAction
    | PackageManager | NetworkClass | ApprovalPolicy | RuntimeAction

  datatype Scope = Scope(kind: ScopeKind, value: string, metadata: string)

  datatype Request = Request(
    requestId: string,
    capability: CapabilityId,
    access: Access,
    scope: Scope,
    required: bool,
    requiresEnforcement: bool,
    reason: string,
    requestedBy: string,
    policySource: Option<string>)

  // ---------------------------------------------------------------- merging requests

  datatype Key = Key(capability: CapabilityId, access: Access, scopeKind: ScopeKind, scopeValue: string)

  function KeyOf(r: Request): Key { Key(r.capability, r.access, r.scope.kind, r.scope.value) }

  /** `existing` with what a later request for the same key adds. */
  function Absorb(existing: Request, r: Request): Request {
    existing.(required := existing.required || r.required,
              requiresEnforcement := existing.requiresEnforcement || r.requiresEnforcement,
              reason := if IsBlank(existing.reason) && !IsBlank(r.reason) then r.reason else existing.reason,
              policySource := if existing.policySource.None? then r.policySource else existing.policySource)
  }

  function IndexOf(deduped: seq<Request>, key: Key): (i: nat)
    ensures i <= |deduped|
    ensures i < |deduped| ==> KeyOf(deduped[i]) == key
    ensures forall j :: 0 <= j < i ==> KeyOf(deduped[j]) != key
  {
    if deduped == [] || KeyOf(deduped[0]) == key then 0 else 1 + IndexOf(deduped[1..], key)
  }

  function Merge(deduped: seq<Request>, r: Request): seq<Request> {
    var i := IndexOf(deduped, KeyOf(r));
    if i < |deduped| then deduped[i := Absorb(deduped[i], r)] else deduped + [r]
  }

  function MergeAll(deduped: seq<Request>, requests: seq<Request>): seq<Request> {
    if requests == [] then deduped
    else Merge(MergeAll(deduped, requests[..|requests| - 1]), requests[|requests| - 1])
  }

  function Dedupe(requests: seq<Request>): seq<Request> { MergeAll([], requests) }

  /** The loop edits the earlier entry of the same key in place, or pushes a new one. */
  method DedupeCapabilityRequests(requests: seq<Request>) returns (deduped: seq<Request>)
    ensures deduped == Dedupe(requests)
  {
    deduped := [];
    for n := 0 to |requests|
      invariant deduped == Dedupe(requests[..n])
    {
      var request := requests[n];
      var i := 0;
      while i < |deduped| && KeyOf(deduped[i]) != KeyOf(request)
        invariant i <= |deduped|
        invariant forall j :: 0 <= j < i ==> KeyOf(deduped[j]) != KeyOf(request)
      {
        i := i + 1;
      }
      assert requests[..n + 1][..n] == requests[..n];
      assert i == IndexOf(deduped, KeyOf(request));
      if i < |deduped| {
        var existing := deduped[i];
        existing := existing.(required := existing.required || request.required);
        existing := existing.(requiresEnforcement := existing.requiresEnforcement || request.requiresEnforcement);
        if IsBlank(existing.reason) && !IsBlank(request.reason) {
          existing := existing.(reason := request.reason);
        }
        if existing.policySource.None? {
          existing := existing.(policySource := request.policySource);
        }
        deduped := deduped[i := existing];
      } else {
        deduped := deduped + [request];
      }
    }
    assert requests[..|requests|] == requests;
  }

  predicate DistinctKeys(requests: seq<Request>) {
    forall i, j :: 0 <= i < j < |requests| ==> KeyOf(requests[i]) != KeyOf(requests[j])
  }

  /** The requests of one key, in order. */
  function Group(requests: seq<Request>, key: Key): seq<Request> {
    if requests == [] then []
    else
      var n := |requests| - 1;
      Group(requests[..n], key) + (if KeyOf(requests[n]) == key then [requests[n]] else [])
  }

  /** The keys of a request list, each where it first occurs. */
  function FirstKeys(requests: seq<Request>): seq<Key> {
    if requests == [] then []
    else
      var n := |requests| - 1;
      var earlier, key := FirstKeys(requests[..n]), KeyOf(requests[n]);
      if key in earlier then earlier else earlier + [key]
  }

  /** `s` is what a group of requests amounts to: the first request, required or enforced when any is,
      with the first reason that is not blank and the first policy source there is. */
  ghost predicate Sums(s: Request, group: seq<Request>) {
    && group != []
    && s == group[0].(required := s.required, requiresEnforcement := s.requiresEnforcement,
                      reason := s.reason, policySource := s.policySource)
    && (s.required <==> exists r :: r in group && r.required)
    && (s.requiresEnforcement <==> exists r :: r in group && r.requiresEnforcement)
    && FirstReason(s.reason, group)
    && FirstSource(s.policySource, group)
  }

  ghost predicate FirstReason(reason: string, group: seq<Request>)
    requires group != []
  {
    if forall r :: r in group ==> IsBlank(r.reason) then reason == group[0].reason
    else exists i :: 0 <= i < |group| && !IsBlank(group[i].reason) && reason == group[i].reason
                     && forall j :: 0 <= j < i ==> IsBlank(group[j].reason)
  }

  ghost predicate FirstSource(source: Option<string>, group: seq<Request>) {
    if forall r :: r in group ==> r.policySource.None? then source.None?
    else exists i :: 0 <= i < |group| && group[i].policySource.Some? && source == group[i].policySource
                     && forall j :: 0 <= j < i ==> group[j].policySource.None?
  }

  lemma ReasonGrows(s: Request, group: seq<Request>, r: Request)
    requires group != [] && FirstReason(s.reason, group)
    ensures FirstReason(Absorb(s, r).reason, group + [r])
  {
    var grown := group + [r];
    if forall q :: q in group ==> IsBlank(q.reason) {
      assert grown[|group|] == r;
      if IsBlank(r.reason) {
        assert forall q :: q in grown ==> IsBlank(q.reason);
      } else {
        assert IsBlank(s.reason);
        assert r in grown;
      }
    } else {
      var i :| 0 <= i < |group| && !IsBlank(group[i].reason) && s.reason == group[i].reason
               && forall j :: 0 <= j < i ==> IsBlank(group[j].reason);
      assert grown[i] in grown && forall j :: 0 <= j < i ==> grown[j] == group[j];
    }
  }

  lemma SourceGrows(s: Request, group: seq<Request>, r: Request)
    requires FirstSource(s.policySource, group)
    ensures FirstSource(Absorb(s, r).policySource, group + [r])
  {
    var grown := group + [r];
    if forall q :: q in group ==> q.policySource.None? {
      assert grown[|group|] == r;
      if r.policySource.None? {
        assert forall q :: q in grown ==> q.policySource.None?;
      } else {
        assert r in grown;
      }
    } else {
      var i :| 0 <= i < |group| && group[i].policySource.Some? && s.policySource == group[i].policySource
               && forall j :: 0 <= j < i ==> group[j].policySource.None?;
      assert grown[i] in grown && forall j :: 0 <= j < i ==> grown[j] == group[j];
    }
  }

  lemma FlagsGrow(s: Request, group: seq<Request>, r: Request)
    requires s.required <==> exists q :: q in group && q.required
    requires s.requiresEnforcement <==> exists q :: q in group && q.requiresEnforcement
    ensures Absorb(s, r).required <==> exists q :: q in group + [r] && q.required
    ensures Absorb(s, r).requiresEnforcement <==> exists q :: q in group + [r] && q.requiresEnforcement
  {
    assert forall q :: q in group + [r] <==> q in group || q == r;
  }

  lemma SumsGrows(s: Request, group: seq<Request>, r: Request)
    requires Sums(s, group)
    ensures Sums(Absorb(s, r), group + [r])
  {
    ReasonGrows(s, group, r);
    SourceGrows(s, group, r);
    FlagsGrow(s, group, r);
  }

  lemma SumsAlone(r: Request)
    ensures Sums(r, [r])
  {
    assert r in [r];
    if !IsBlank(r.reason) { assert [r][0].reason == r.reason; }
    if r.policySource.Some? { assert [r][0].policySource == r.policySource; }
  }

  function Keys(requests: seq<Request>): (keys: seq<Key>)
    ensures |keys| == |requests| && forall i :: 0 <= i < |requests| ==> keys[i] == KeyOf(requests[i])
  {
    seq(|requests|, i requires 0 <= i < |requests| => KeyOf(requests[i]))
  }

  lemma {:induction false} NewKeyHasNoGroup(requests: seq<Request>, key: Key)
    requires key !in FirstKeys(requests)
    ensures Group(requests, key) == []
  {
    if requests != [] { NewKeyHasNoGroup(requests[..|requests| - 1], key); }
  }

  lemma GroupStep(requests: seq<Request>, r: Request, key: Key)
    ensures Group(requests + [r], key) == Group(requests, key) + (if KeyOf(r) == key then [r] else [])
  {
    assert (requests + [r])[..|requests|] == requests;
  }

  lemma MergeKeys(requests: seq<Request>, deduped: seq<Request>, r: Request)
    requires Keys(deduped) == FirstKeys(requests) && DistinctKeys(deduped)
    ensures Keys(Merge(deduped, r)) == FirstKeys(requests + [r]) && DistinctKeys(Merge(deduped, r))
  {
    var k := IndexOf(deduped, KeyOf(r));
    assert (requests + [r])[..|requests|] == requests;
    if k < |deduped| {
      assert Keys(deduped)[k] == KeyOf(r);
    } else {
      assert KeyOf(r) !in Keys(deduped);
    }
  }

  /** Every entry of a list that sums up the requests sums up its group. */
  ghost predicate SumsGroups(deduped: seq<Request>, requests: seq<Request>) {
    forall i :: 0 <= i < |deduped| ==> Sums(deduped[i], Group(requests, KeyOf(deduped[i])))
  }

  /** One more request, merged into a list that already sums up the earlier ones. */
  lemma MergeSums(requests: seq<Request>, deduped: seq<Request>, r: Request)
    requires Keys(deduped) == FirstKeys(requests) && DistinctKeys(deduped) && SumsGroups(deduped, requests)
    ensures SumsGroups(Merge(deduped, r), requests + [r])
  {
    var merged, k := Merge(deduped, r), IndexOf(deduped, KeyOf(r));
    forall i | 0 <= i < |merged| ensures Sums(merged[i], Group(requests + [r], KeyOf(merged[i]))) {
      GroupStep(requests, r, KeyOf(merged[i]));
      if i == k < |deduped| {
        SumsGrows(deduped[k], Group(requests, KeyOf(r)), r);
      } else if i == k {
        assert KeyOf(r) !in Keys(deduped);
        NewKeyHasNoGroup(requests, KeyOf(r));
        SumsAlone(r);
        assert [] + [r] == [r];
      } else {
        assert Group(requests, KeyOf(deduped[i])) + [] == Group(requests, KeyOf(deduped[i]));
      }
    }
  }

  /** What deduping makes of requests. */
  ghost predicate Groups(deduped: seq<Request>, requests: seq<Request>) {
    Keys(deduped) == FirstKeys(requests) && DistinctKeys(deduped) && SumsGroups(deduped, requests)
  }

  lemma MergeGroups(requests: seq<Request>, deduped: seq<Request>, r: Request)
    requires Groups(deduped, requests)
    ensures Groups(Merge(deduped, r), requests + [r])
  {
    MergeKeys(requests, deduped, r);
    MergeSums(requests, deduped, r);
  }

  /** Main result: deduping groups the requests by key, in the order the keys first occur. */
  lemma {:induction false} DedupeIsGrouping(requests: seq<Request>)
    ensures Groups(Dedupe(requests), requests)
  {
    if requests != [] {
      var n := |requests| - 1;
      DedupeIsGrouping(requests[..n]);
      MergeGroups(requests[..n], Dedupe(requests[..n]), requests[n]);
      assert requests[..n] + [requests[n]] == requests;
    }
  }

  lemma {:induction false} MergeAllAppends(deduped: seq<Request>, a: seq<Request>, b: seq<Request>)
    ensures MergeAll(MergeAll(deduped, a), b) == MergeAll(deduped, a + b)
  {
    if b == [] {
      assert a + b == a;
    } else {
      var n := |b| - 1;
      MergeAllAppends(deduped, a, b[..n]);
      assert (a + b)[..|a + b| - 1] == a + b[..n] && (a + b)[|a + b| - 1] == b[n];
    }
  }

  lemma {:induction false} DistinctRequestsStay(requests: seq<Request>)
    requires DistinctKeys(requests)
    ensures Dedupe(requests) == requests
  {
    if requests != [] {
      var n := |requests| - 1;
      DistinctRequestsStay(requests[..n]);
      assert requests == requests[..n] + [requests[n]];
    }
  }

  /** Main result: what is already merged may be merged again with more. */
  lemma DedupeAbsorbs(a: seq<Request>, b: seq<Request>)
    ensures Dedupe(Dedupe(a) + b) == Dedupe(a + b)
  {
    DedupeIsGrouping(a);
    DistinctRequestsStay(Dedupe(a));
    MergeAllAppends([], Dedupe(a), b);
    MergeAllAppends([], a, b);
  }
}
