/** Runs of compile attempts over one plan store, with inputs edited in between. */
module CompileRuns {
  import opened Wrappers
  import opened Text
  import opened Normalizers
  import opened AssetPaths
  import opened CompilerContracts
  import opened PlanContracts
  import opened Assets
  import opened AssetReuse
  import opened PlanDecoding
  import opened RecompiledAssets
  import opened SealedGrants
  import opened Materialization
  import opened RunPlans
  import opened Persistence

  // ---------------------------------------------------------------- what a compiler promises

  /** The plan of a resolution: validated, also when decoded, with its assets, fingerprint, mode and time. */
  ghost predicate PlanOf(c: Compiler, r: Resolved<Primitives>, time: string, p: Plan) {
    && c.validate(p) == Ok(p) && c.validate(c.decode(p)) == Ok(c.decode(p))
    && p.assets == r.refs && p.fingerprint == r.fingerprint && p.modeId == r.modeId && p.compiledAt == time
  }

  /** A resolution records the fingerprint of the assets it lists. */
  ghost predicate Resolves(c: Compiler) {
    forall w, modeId, config :: c.resolve(w, modeId, config).Ok? ==>
      c.fingerprint(w, modeId, config, c.resolve(w, modeId, config).value.refs)
        == Ok(c.resolve(w, modeId, config).value.fingerprint)
  }

  /** Decoding leaves assets, fingerprint and time alone. */
  ghost predicate DecodesWell(c: Compiler) {
    forall p ::
      && c.decode(p).assets == p.assets && c.decode(p).fingerprint == p.fingerprint
      && c.decode(p).compiledAt == p.compiledAt
  }

  /** What is resolved and materialized is a plan of the resolution. */
  ghost predicate Plans(c: Compiler) {
    forall w, modeId, config, time ::
      c.resolve(w, modeId, config).Ok? && c.materialize(c.resolve(w, modeId, config).value, time).Ok? ==>
        PlanOf(c, c.resolve(w, modeId, config).value, time,
               c.materialize(c.resolve(w, modeId, config).value, time).value)
  }

  ghost predicate Sound(c: Compiler) {
    && Resolves(c) && DecodesWell(c) && Plans(c) && Stable(c.validate)
    && (forall p :: c.validate(p).Ok? ==> !IsBlank(p.modeId) && !IsBlank(p.planId) && FingerprintHolds(p.fingerprint))
    && (forall r, first, second :: c.materialize(r, second) == At(c.materialize(r, first), second))
  }

  /** Resolves and fingerprints with the given decoders and digests. */
  ghost predicate Reads(c: Compiler, d: Decoders<Primitives>) {
    && (forall w, modeId, config :: c.resolve(w, modeId, config) == ResolveMode(w, d, modeId, config))
    && (forall w, modeId, config, refs ::
          c.fingerprint(w, modeId, config, refs) == Fingerprint(w, d, config, modeId, refs))
    && (forall config :: c.configDigest(config) == d.configDigest(config))
  }

  /** Materializes, validates and decodes in the given environment. */
  ghost predicate Builds(c: Compiler, e: Env) {
    && (forall p :: c.validate(p) == NormalPlan(FrozenRule(e.t, e.c), e.x, p))
    && (forall r, time :: c.materialize(r, time) == Materialize(e, r, time))
    && (forall p :: c.decode(p) == DecodedPlan(p))
  }

  ghost predicate StableEnv(e: Env) { StableTokens(e.t) && Stable(e.c) && Stable(e.x) }

  /** The compiler of the repository with its decoders and environment. */
  ghost predicate Implements(c: Compiler, d: Decoders<Primitives>, e: Env) {
    StableEnv(e) && DecodesRequests(d) && Reads(c, d) && Builds(c, e)
  }

  lemma PlanIsValidated(e: Env, r: Resolved<Primitives>, time: string)
    requires StableEnv(e) && Materialize(e, r, time).Ok?
    ensures var p := Materialize(e, r, time).value;
            && NormalPlan(FrozenRule(e.t, e.c), e.x, p) == Ok(p)
            && p.assets == r.refs && p.fingerprint == r.fingerprint && p.modeId == r.modeId && p.compiledAt == time
  {
    var graphs := PlanKeepsGraphs(e, r, time, Materialize(e, r, time).value);
    var before := PlanAround(e, r, graphs, time);
    FrozenRuleStable(e.t, e.c);
    NormalPlanStable(FrozenRule(e.t, e.c), e.x, before);
    NormalPlanAgrees(FrozenRule(e.t, e.c), e.x, before);
  }

  lemma CompilesToPlan(c: Compiler, d: Decoders<Primitives>, e: Env, w: Workspace, modeId: string, config: Config,
                       r: Resolved<Primitives>, time: string)
    requires Implements(c, d, e) && ResolveMode(w, d, modeId, config) == Ok(r) && Materialize(e, r, time).Ok?
    ensures PlanOf(c, r, time, Materialize(e, r, time).value)
  {
    var p := Materialize(e, r, time).value;
    PlanIsValidated(e, r, time);
    CompiledPlanReloads(w, d, modeId, config, r, e, time, p);
    DecodedPlanIsValid(e.t, e.c, e.x, p);
  }

  lemma CompilerPlans(c: Compiler, d: Decoders<Primitives>, e: Env)
    requires Implements(c, d, e)
    ensures Plans(c) && Resolves(c)
  {
    forall w, modeId, config, time |
      c.resolve(w, modeId, config).Ok? && c.materialize(c.resolve(w, modeId, config).value, time).Ok?
      ensures PlanOf(c, c.resolve(w, modeId, config).value, time,
                     c.materialize(c.resolve(w, modeId, config).value, time).value)
    {
      CompilesToPlan(c, d, e, w, modeId, config, c.resolve(w, modeId, config).value, time);
    }
    forall w, modeId, config | c.resolve(w, modeId, config).Ok?
      ensures c.fingerprint(w, modeId, config, c.resolve(w, modeId, config).value.refs)
                == Ok(c.resolve(w, modeId, config).value.fingerprint)
    {
      ResolvedParts(w, d, modeId, config, c.resolve(w, modeId, config).value);
    }
  }

  /** Main result: the compiler of the repository is sound, given that the contracts of the extras are
      stable. */
  lemma CompilerIsSound(c: Compiler, d: Decoders<Primitives>, e: Env)
    requires Implements(c, d, e)
    ensures Sound(c)
  {
    CompilerPlans(c, d, e);
    FrozenRuleStable(e.t, e.c);
    forall p | c.validate(p).Ok?
      ensures c.validate(c.validate(p).value) == c.validate(p)
      ensures !IsBlank(p.modeId) && !IsBlank(p.planId) && FingerprintHolds(p.fingerprint)
    {
      NormalPlanStable(FrozenRule(e.t, e.c), e.x, p);
      NormalPlanAgrees(FrozenRule(e.t, e.c), e.x, p);
    }
    forall r, first, second ensures c.materialize(r, second) == At(c.materialize(r, first), second) {
      OnlyTheTimeDiffers(e, r, first, second);
    }
  }

  // ---------------------------------------------------------------- one attempt

  lemma ModeIsNamed(requested: Option<string>, config: Option<Config>)
    ensures !IsBlank(CompileModeId(requested, config))
  {
    var name := DEFAULT_MODE;
    assert !IsSpace(name[0]) && !IsSpace(name[|name| - 1]);
    TrimTrims(name);
    if requested.Some? {
      TrimTrims(requested.value);
      TrimTrims(Trim(requested.value));
    }
    if config.Some? {
      TrimTrims(config.value.defaultMode);
      TrimTrims(Trim(config.value.defaultMode));
    }
  }

  /** A full compile saves the plan it returns, and loading decodes it. */
  lemma FullCompileIsSaved(c: Compiler, a: Attempt)
    requires Sound(c) && FullCompile(c, a).Ok?
    ensures var (plan, fingerprint) := FullCompile(c, a).value;
            && c.validate(plan) == Ok(plan) && plan.fingerprint == fingerprint && !IsBlank(plan.modeId)
            && LastKnownGood(c, Holding(plan)) == Some(c.decode(plan))
  {
    var r := c.resolve(a.inputs.w, ModeIdOf(a.inputs), a.inputs.config.value).value;
    assert PlanOf(c, r, a.compiledAt, c.materialize(r, a.compiledAt).value);
  }

  /** Main result: no attempt fails to save what it must. */
  lemma AttemptsSucceed(c: Compiler, s: Store, a: Attempt)
    requires Sound(c)
    ensures Attempted(c, s, a).1.Ok?
  {
    ModeIsNamed(a.inputs.requested, a.inputs.config);
    if FullCompile(c, a).Ok? { FullCompileIsSaved(c, a); }
  }

  /** The attempt compiles in full, and succeeds. */
  predicate Compiles(c: Compiler, s: Store, a: Attempt) { !Reuses(c, s.planFile, a) && FullCompile(c, a).Ok? }

  /** The plan file changes with a full successful compile only, and the diagnostics with one that is
      not reuse only. */
  lemma AttemptKeeps(c: Compiler, s: Store, a: Attempt)
    requires Sound(c)
    ensures Attempted(c, s, a).1.Ok?
    ensures Attempted(c, s, a).0.planFile ==
              if Compiles(c, s, a) then Holding(FullCompile(c, a).value.0) else s.planFile
    ensures Attempted(c, s, a).0.diagnostics ==
              if Compiles(c, s, a) || (!Reuses(c, s.planFile, a) && a.keepFailures)
              then Some(Attempted(c, s, a).1.value.diagnostics) else s.diagnostics
  {
    AttemptsSucceed(c, s, a);
    if FullCompile(c, a).Ok? { FullCompileIsSaved(c, a); }
  }

  /** Main result: with stale plans refused, whatever plan an attempt returns has the fingerprint of the
      inputs the attempt found. */
  lemma ReturnedPlanIsCurrent(c: Compiler, s: Store, a: Attempt)
    requires Sound(c) && a.refuseStale && Attempted(c, s, a).1.Ok? && Attempted(c, s, a).1.value.activePlan.Some?
    ensures var plan := Attempted(c, s, a).1.value.activePlan;
            PresentFingerprint(c, a.inputs, plan) == Some(plan.value.fingerprint)
  {
    if Compiles(c, s, a) {
      var r := c.resolve(a.inputs.w, ModeIdOf(a.inputs), a.inputs.config.value).value;
      assert PlanOf(c, r, a.compiledAt, c.materialize(r, a.compiledAt).value);
    }
  }

  /** A failed attempt returns the last known good plan exactly when it is not refused as stale. */
  lemma FallbackIsLastKnownGood(c: Compiler, s: Store, a: Attempt)
    requires Sound(c) && !Reuses(c, s.planFile, a) && FullCompile(c, a).Err?
    ensures var known, r := LastKnownGood(c, s.planFile), Attempted(c, s, a).1;
            && r.Ok? && r.value.usedLastKnownGood == r.value.activePlan.Some?
            && (r.value.activePlan.Some? <==>
                  && known.Some?
                  && (a.refuseStale ==> PresentFingerprint(c, a.inputs, known) == Some(known.value.fingerprint)))
            && (r.value.activePlan.Some? ==> r.value.activePlan == known)
  {
    ModeIsNamed(a.inputs.requested, a.inputs.config);
  }

  // ---------------------------------------------------------------- runs

  /** The stores before the first and after each attempt; in between, the inputs change as they like. */
  ghost predicate IsRun(c: Compiler, stores: seq<Store>, attempts: seq<Attempt>) {
    && |stores| == |attempts| + 1
    && forall i :: 0 <= i < |attempts| ==> stores[i + 1] == Attempted(c, stores[i], attempts[i]).0
  }

  /** Where a value that changes at some steps only was last changed. */
  lemma {:induction false} LastChange<T>(values: seq<T>, changed: seq<bool>, made: seq<T>) returns (last: int)
    requires |values| == |changed| + 1 && |made| == |changed|
    requires forall i :: 0 <= i < |changed| ==> values[i + 1] == if changed[i] then made[i] else values[i]
    ensures -1 <= last < |changed| && forall i :: last < i < |changed| ==> !changed[i]
    ensures values[|changed|] == if last == -1 then values[0] else made[last]
    ensures last >= 0 ==> changed[last]
  {
    last := |changed| - 1;
    while last >= 0 && !changed[last]
      invariant -1 <= last < |changed| && forall i :: last < i < |changed| ==> !changed[i]
      invariant values[last + 1] == values[|changed|]
    {
      assert values[last + 1] == values[last];
      last := last - 1;
    }
  }

  /** What a full compile leaves in the plan file. */
  function PlanFileOf(c: Compiler, a: Attempt): PlanFile {
    match FullCompile(c, a)
    case Ok((plan, _)) => Holding(plan)
    case Err(_) => NoFile
  }

  /** How the plan file changes along a run. */
  ghost predicate PlanFilesChange(c: Compiler, stores: seq<Store>, attempts: seq<Attempt>) {
    && |stores| == |attempts| + 1
    && forall i :: 0 <= i < |attempts| ==>
         stores[i + 1].planFile ==
           if Compiles(c, stores[i], attempts[i]) then PlanFileOf(c, attempts[i]) else stores[i].planFile
  }

  lemma RunsChangePlanFiles(c: Compiler, stores: seq<Store>, attempts: seq<Attempt>)
    requires Sound(c) && IsRun(c, stores, attempts)
    ensures PlanFilesChange(c, stores, attempts)
  {
    forall i | 0 <= i < |attempts|
      ensures stores[i + 1].planFile ==
                if Compiles(c, stores[i], attempts[i]) then PlanFileOf(c, attempts[i]) else stores[i].planFile
    {
      AttemptKeeps(c, stores[i], attempts[i]);
    }
  }

  /** The plan file at the end is that of the last attempt, at `last`, that compiled in full, or the first. */
  ghost predicate LastCompile(c: Compiler, stores: seq<Store>, attempts: seq<Attempt>, last: int)
    requires |stores| == |attempts| + 1
  {
    && -1 <= last < |attempts| && (forall i :: last < i < |attempts| ==> !Compiles(c, stores[i], attempts[i]))
    && (last >= 0 ==> Compiles(c, stores[last], attempts[last]))
    && stores[|attempts|].planFile == if last == -1 then stores[0].planFile else PlanFileOf(c, attempts[last])
  }

  lemma FindLastCompile(c: Compiler, stores: seq<Store>, attempts: seq<Attempt>) returns (last: int)
    requires PlanFilesChange(c, stores, attempts)
    ensures LastCompile(c, stores, attempts, last)
  {
    var n := |attempts|;
    var changed := seq(n, i requires 0 <= i < n => Compiles(c, stores[i], attempts[i]));
    last := LastChange(seq(n + 1, i requires 0 <= i <= n => stores[i].planFile), changed,
                       seq(n, i requires 0 <= i < n => PlanFileOf(c, attempts[i])));
    forall i | last < i < n ensures !Compiles(c, stores[i], attempts[i]) { assert !changed[i]; }
  }

  /** Main result: after any run, over any inputs, the persisted plan is that of the last attempt that
      compiled in full and succeeded, or the initial one when none did. */
  lemma PersistedIsLastSuccess(c: Compiler, stores: seq<Store>, attempts: seq<Attempt>) returns (last: int)
    requires Sound(c) && IsRun(c, stores, attempts)
    ensures LastCompile(c, stores, attempts, last)
  {
    RunsChangePlanFiles(c, stores, attempts);
    last := FindLastCompile(c, stores, attempts);
  }

  /** Main result: a run in which no attempt compiles leaves the plan file as it was. */
  lemma FailuresKeepPlan(c: Compiler, stores: seq<Store>, attempts: seq<Attempt>)
    requires Sound(c) && IsRun(c, stores, attempts) && forall a :: a in attempts ==> FullCompile(c, a).Err?
    ensures stores[|attempts|].planFile == stores[0].planFile
  {
    var last := PersistedIsLastSuccess(c, stores, attempts);
    forall i | 0 <= i < |attempts| ensures !Compiles(c, stores[i], attempts[i]) { assert attempts[i] in attempts; }
    assert last == -1;
  }

  // ---------------------------------------------------------------- reuse

  /** The resolution behind a successful full compile. */
  function ResolutionOf(c: Compiler, a: Attempt): Resolved<Primitives>
    requires FullCompile(c, a).Ok?
  {
    c.resolve(a.inputs.w, ModeIdOf(a.inputs), a.inputs.config.value).value
  }

  lemma CompiledParts(c: Compiler, a: Attempt)
    requires Sound(c) && FullCompile(c, a).Ok?
    ensures var r, plan := ResolutionOf(c, a), FullCompile(c, a).value.0;
            && PlanOf(c, r, a.compiledAt, plan) && c.materialize(r, a.compiledAt) == Ok(plan)
            && c.resolve(a.inputs.w, ModeIdOf(a.inputs), a.inputs.config.value) == Ok(r)
  {
    var r := ResolutionOf(c, a);
    assert c.materialize(r, a.compiledAt).Ok?;
  }

  /** When the present inputs resolve to the same as an earlier compile's, compiling again gives the same
      plan but for its time. */
  lemma SameResolutionSamePlan(c: Compiler, earlier: Attempt, now: Attempt)
    requires Sound(c) && FullCompile(c, earlier).Ok? && now.inputs.config.Some?
    requires c.resolve(now.inputs.w, ModeIdOf(now.inputs), now.inputs.config.value)
             == Ok(ResolutionOf(c, earlier))
    ensures FullCompile(c, now) ==
              Ok((FullCompile(c, earlier).value.0.(compiledAt := now.compiledAt), FullCompile(c, earlier).value.1))
  {
    var r := ResolutionOf(c, earlier);
    CompiledParts(c, earlier);
    assert c.materialize(r, now.compiledAt) == At(c.materialize(r, earlier.compiledAt), now.compiledAt);
  }

  /** An attempt that reuses the plan of an earlier compile finds its fingerprint. */
  lemma ReuseMeans(c: Compiler, earlier: Attempt, now: Attempt)
    requires Sound(c) && FullCompile(c, earlier).Ok? && Reuses(c, PlanFileOf(c, earlier), now)
    ensures now.inputs.config.Some?
    ensures var r, present := ResolutionOf(c, earlier), now.inputs.config.value;
            c.fingerprint(now.inputs.w, ModeIdOf(now.inputs), present, r.refs) == Ok(r.fingerprint)
  {
    CompiledParts(c, earlier);
    FullCompileIsSaved(c, earlier);
  }

  /** Under the recorded fingerprint, resolving again lists the same exactly when every id is still
      located, and then it is the same. */
  lemma ResolveAgain(c: Compiler, d: Decoders<Primitives>, v: Workspace, modeId: string, config: Config,
                     w: Workspace, otherMode: string, other: Config, r: Resolved<Primitives>)
    requires Reads(c, d) && ValidDigests(d) && NormalPrimitives(d) && c.resolve(v, modeId, config) == Ok(r)
    requires c.fingerprint(w, otherMode, other, r.refs) == Ok(r.fingerprint)
    ensures StillLocated(w, d, r) ==> c.resolve(w, otherMode, other) == Ok(r)
    ensures c.resolve(w, otherMode, other).Ok? && c.resolve(w, otherMode, other).value.refs == r.refs ==>
              StillLocated(w, d, r)
    ensures Named(r) ==> StillLocated(w, d, r)
  {
    ReuseIsExact(v, w, d, modeId, config, otherMode, other, r);
    SameReferencesExactly(v, w, d, modeId, config, otherMode, other, r);
    if Named(r) { NamedReuseIsSound(v, w, d, modeId, config, otherMode, other, r); }
  }

  /** Compiling now gives this plan, but for its time. */
  ghost predicate CompilesTo(c: Compiler, now: Attempt, plan: Plan, fingerprint: InputFingerprint) {
    FullCompile(c, now) == Ok((plan.(compiledAt := now.compiledAt), fingerprint))
  }

  lemma CompiledRefs(c: Compiler, now: Attempt, plan: Plan, fingerprint: InputFingerprint)
    requires Sound(c) && CompilesTo(c, now, plan, fingerprint)
    ensures now.inputs.config.Some?
    ensures var again := c.resolve(now.inputs.w, ModeIdOf(now.inputs), now.inputs.config.value);
            again.Ok? && again.value.refs == plan.assets
  {
    CompiledParts(c, now);
  }

  lemma SameButForTime(p: Plan, q: Plan, time: string)
    requires p.compiledAt == q.compiledAt && p.(compiledAt := time) == q.(compiledAt := time)
    ensures p == q
  {
    assert p == p.(compiledAt := time).(compiledAt := p.compiledAt);
    assert q == q.(compiledAt := time).(compiledAt := q.compiledAt);
  }

  /** The reused plan, as it is decoded, is what compiling gives exactly when every id is still located
      and decoding leaves the plan as it was. */
  lemma ReusedPlan(c: Compiler, d: Decoders<Primitives>, earlier: Attempt, now: Attempt)
    requires Sound(c) && Reads(c, d) && ValidDigests(d) && NormalPrimitives(d)
    requires FullCompile(c, earlier).Ok? && Reuses(c, PlanFileOf(c, earlier), now)
    ensures var (plan, fingerprint) := FullCompile(c, earlier).value;
            CompilesTo(c, now, c.decode(plan), fingerprint) <==>
              StillLocated(now.inputs.w, d, ResolutionOf(c, earlier)) && c.decode(plan) == plan
    ensures Named(ResolutionOf(c, earlier)) ==> StillLocated(now.inputs.w, d, ResolutionOf(c, earlier))
  {
    var r := ResolutionOf(c, earlier);
    var (plan, fingerprint) := FullCompile(c, earlier).value;
    CompiledParts(c, earlier);
    ReuseMeans(c, earlier, now);
    var was, present := earlier.inputs.config.value, now.inputs.config.value;
    ResolveAgain(c, d, earlier.inputs.w, ModeIdOf(earlier.inputs), was, now.inputs.w,
                 ModeIdOf(now.inputs), present, r);
    if CompilesTo(c, now, c.decode(plan), fingerprint) { CompiledRefs(c, now, c.decode(plan), fingerprint); }
    if StillLocated(now.inputs.w, d, r) {
      SameResolutionSamePlan(c, earlier, now);
      if CompilesTo(c, now, c.decode(plan), fingerprint) { SameButForTime(plan, c.decode(plan), now.compiledAt); }
    }
  }

  lemma PlanIsPlain(c: Compiler, e: Env, plan: Plan)
    requires Builds(c, e) && c.validate(plan) == Ok(plan)
    ensures c.decode(plan) == plan <==> PlainPlan(plan)
  {
    ValidPlanParts(FrozenRule(e.t, e.c), e.x, plan);
    PlanDecodes(plan);
  }

  /** What a reusing attempt of a run returns: the plan of the last compile, decoded. */
  lemma ReuseReturns(c: Compiler, stores: seq<Store>, attempts: seq<Attempt>, now: Attempt) returns (last: nat)
    requires Sound(c) && IsRun(c, stores, attempts) && stores[0].planFile == NoFile
    requires Reuses(c, stores[|attempts|].planFile, now)
    ensures last < |attempts| && LastCompile(c, stores, attempts, last) && FullCompile(c, attempts[last]).Ok?
    ensures var r := Attempted(c, stores[|attempts|], now).1;
            var (plan, fingerprint) := FullCompile(c, attempts[last]).value;
            r.Ok? && r.value.activePlan == Some(c.decode(plan)) && r.value.fingerprint == Some(fingerprint)
  {
    last := PersistedIsLastSuccess(c, stores, attempts);
    FullCompileIsSaved(c, attempts[last]);
    CompiledParts(c, attempts[last]);
  }

  /** Main result: when an attempt reuses the persisted plan in a run that starts without one, compiling
      the present inputs in full gives what the attempt returns, but for the time of compiling, exactly
      when every id still resolves to the path recorded by the last compile of the run and no grant of the
      persisted plan has a request id, scope value or given reason to trim. The first is so whenever that
      compile resolved every id at its named path. */
  lemma ReuseIsCompiling(c: Compiler, d: Decoders<Primitives>, e: Env, stores: seq<Store>, attempts: seq<Attempt>,
                         now: Attempt) returns (last: nat)
    requires Implements(c, d, e) && ValidDigests(d) && NormalPrimitives(d)
    requires IsRun(c, stores, attempts) && stores[0].planFile == NoFile && Reuses(c, stores[|attempts|].planFile, now)
    ensures last < |attempts| && LastCompile(c, stores, attempts, last) && FullCompile(c, attempts[last]).Ok?
    ensures var r := Attempted(c, stores[|attempts|], now).1;
            && r.Ok? && r.value.activePlan.Some? && r.value.fingerprint.Some?
            && (CompilesTo(c, now, r.value.activePlan.value, r.value.fingerprint.value) <==>
                  && StillLocated(now.inputs.w, d, ResolutionOf(c, attempts[last]))
                  && PlainPlan(FullCompile(c, attempts[last]).value.0))
    ensures Named(ResolutionOf(c, attempts[last])) ==> StillLocated(now.inputs.w, d, ResolutionOf(c, attempts[last]))
  {
    CompilerIsSound(c, d, e);
    last := ReuseReturns(c, stores, attempts, now);
    ReusedPlan(c, d, attempts[last], now);
    FullCompileIsSaved(c, attempts[last]);
    PlanIsPlain(c, e, FullCompile(c, attempts[last]).value.0);
  }
}
