/** What is reported about the currency of a persisted plan (src/compiler/persistence.rs). */
module PlanCurrentness {
  import opened Wrappers
  import opened Text
  import opened Normalizers
  import opened AssetPaths
  import opened CompilerContracts
  import opened PlanContracts
  import opened Assets
  import opened AssetReuse
  import opened Materialization
  import opened RunPlans
  import opened Persistence
  import opened CompileRuns

  // ---------------------------------------------------------------- when a report is made

  /** Digests are never blank. */
  ghost predicate NamedDigests<P>(d: Decoders<P>) {
    && (forall config :: !IsBlank(d.configDigest(config)))
    && (forall text :: !IsBlank(d.assetsDigest(text)))
  }

  /** Fingerprints of named modes hold. */
  ghost predicate Fingerprints(c: Compiler) {
    && (forall config :: !IsBlank(c.configDigest(config)))
    && (forall w, modeId, config, refs :: !IsBlank(modeId) && c.fingerprint(w, modeId, config, refs).Ok? ==>
          FingerprintHolds(c.fingerprint(w, modeId, config, refs).value))
  }

  lemma DigestsFingerprint<P>(w: Workspace, d: Decoders<P>, config: Config, modeId: string, refs: seq<AssetRef>)
    requires NamedDigests(d) && !IsBlank(modeId) && Fingerprint(w, d, config, modeId, refs).Ok?
    ensures FingerprintHolds(Fingerprint(w, d, config, modeId, refs).value)
  {}

  lemma CompilerFingerprints(c: Compiler, d: Decoders<Primitives>)
    requires Reads(c, d) && NamedDigests(d)
    ensures Fingerprints(c)
  {
    forall config ensures !IsBlank(c.configDigest(config)) { assert c.configDigest(config) == d.configDigest(config); }
    forall w, modeId, config, refs | !IsBlank(modeId) && c.fingerprint(w, modeId, config, refs).Ok?
      ensures FingerprintHolds(c.fingerprint(w, modeId, config, refs).value)
    {
      DigestsFingerprint(w, d, config, modeId, refs);
    }
  }

  lemma LiteralIsNamed(name: string)
    requires name != "" && !IsSpace(name[0]) && !IsSpace(name[|name| - 1])
    ensures !IsBlank(name)
  {
    TrimTrims(name);
  }

  /** A blank mode is requested and the configuration does not load. */
  predicate BlankFallback(i: Inputs) { i.config.None? && i.requested.Some? && IsBlank(i.requested.value) }

  /** The fallback fingerprint holds unless a blank mode is requested and the configuration does not load. */
  lemma FallbackHolds(c: Compiler, i: Inputs)
    requires Fingerprints(c)
    ensures FingerprintHolds(FallbackFingerprint(c, i))
            <==> !BlankFallback(i)
  {
    ModeIsNamed(i.requested, i.config);
    LiteralIsNamed(ASSETS_UNKNOWN);
    LiteralIsNamed(CONFIG_UNKNOWN);
    LiteralIsNamed(DEFAULT_MODE);
    if i.requested.Some? {
      TrimTrims(i.requested.value);
      TrimTrims(Trim(i.requested.value));
    }
  }

  lemma LoadedHolds(c: Compiler, file: PlanFile)
    requires Sound(c) && LoadPlan(c, file).Ok? && LoadPlan(c, file).value.Some?
    ensures var plan := LoadPlan(c, file).value.value; !IsBlank(plan.planId) && FingerprintHolds(plan.fingerprint)
  {
    assert c.validate(c.validate(c.decode(file.plan)).value) == c.validate(c.decode(file.plan));
  }

  lemma ExpectedHolds(c: Compiler, i: Inputs)
    requires Sound(c) && Fingerprints(c)
    ensures FingerprintHolds(ExpectedFingerprint(c, i))
            <==> !BlankFallback(i)
  {
    FallbackHolds(c, i);
    ModeIsNamed(i.requested, i.config);
    if i.config.Some? {
      var resolved := c.resolve(i.w, ModeIdOf(i), i.config.value);
      if resolved.Ok? {
        assert c.fingerprint(i.w, ModeIdOf(i), i.config.value, resolved.value.refs) == Ok(resolved.value.fingerprint);
      }
    }
  }

  lemma PresentHolds(c: Compiler, i: Inputs, plan: Option<Plan>)
    requires Fingerprints(c) && PresentFingerprint(c, i, plan).Some?
    ensures FingerprintHolds(PresentFingerprint(c, i, plan).value) && i.config.Some?
  {
    ModeIsNamed(i.requested, i.config);
  }

  lemma ObservedHolds(c: Compiler, file: PlanFile, i: Inputs)
    requires Sound(c) && Fingerprints(c)
    ensures var report := Observed(c, file, i);
            && (FingerprintHolds(report.expected) <==> !BlankFallback(i)) && NotBlank(report.planId)
            && (report.persisted.Some? ==> FingerprintHolds(report.persisted.value) && report.state != Missing)
            && (report.planId.Some? <==> report.persisted.Some?)
  {
    FallbackHolds(c, i);
    ExpectedHolds(c, i);
    var loaded := LoadPlan(c, file);
    if loaded.Ok? && loaded.value.Some? {
      LoadedHolds(c, file);
      if PresentFingerprint(c, i, loaded.value).Some? { PresentHolds(c, i, loaded.value); }
    }
  }

  /** Main result: inspecting fails exactly when the configuration does not load and a blank mode is
      requested; compiling takes the default mode there, but the report takes the blank one. */
  lemma InspectionFailsExactly(c: Compiler, file: PlanFile, i: Inputs)
    requires Sound(c) && Fingerprints(c)
    ensures Inspect(c, file, i).Err? <==> BlankFallback(i)
  {
    ObservedHolds(c, file, i);
  }

  /** Such a request: the compile falls back to the default mode, and the report is refused. */
  lemma BlankModeIsRefused(c: Compiler, file: PlanFile, w: Workspace)
    requires Sound(c) && Fingerprints(c)
    ensures var i := Inputs(w, None, Some(" ")); ModeIdOf(i) == DEFAULT_MODE && Inspect(c, file, i).Err?
  {
    assert " "[1..] == "" && TrimStart(" ") == TrimStart("");
    InspectionFailsExactly(c, file, Inputs(w, None, Some(" ")));
  }

  // ---------------------------------------------------------------- what the report says

  /** The configuration loads to what it was, the mode is the same, and every listed asset reads the same. */
  ghost predicate SameInputs(was: Inputs, r: Resolved<Primitives>, i: Inputs) {
    i.config.Some? && i.config == was.config && ModeIdOf(i) == r.modeId && AllAgree(was.w, i.w, RefsOf(r.refs))
  }

  /** The fingerprint of recorded assets can always be taken, and is the recorded one exactly for the same
      inputs. */
  lemma PresentIsExact(c: Compiler, d: Decoders<Primitives>, was: Inputs, r: Resolved<Primitives>, i: Inputs)
    requires Reads(c, d) && ValidDigests(d) && was.config.Some? && i.config.Some?
    requires c.resolve(was.w, ModeIdOf(was), was.config.value) == Ok(r)
    ensures c.fingerprint(i.w, ModeIdOf(i), i.config.value, r.refs).Ok?
    ensures c.fingerprint(i.w, ModeIdOf(i), i.config.value, r.refs) == Ok(r.fingerprint) <==> SameInputs(was, r, i)
  {
    ResolvedParts(was.w, d, ModeIdOf(was), was.config.value, r);
    FieldsOk(was.w, i.w, d, Sorted(RefsOf(r.refs)));
    FingerprintIsExact(was.w, i.w, d, was.config.value, i.config.value, ModeIdOf(was), ModeIdOf(i), r.refs);
  }

  /** Main result: of the plan of an earlier compile, `Current` is reported exactly for the same inputs,
      `Stale` for other ones, and `Unknown` when the configuration does not load. */
  lemma StateIsExact(c: Compiler, d: Decoders<Primitives>, earlier: Attempt, i: Inputs)
    requires Sound(c) && Reads(c, d) && ValidDigests(d) && FullCompile(c, earlier).Ok?
    ensures var state := Observed(c, PlanFileOf(c, earlier), i).state;
            && (state == Current <==> SameInputs(earlier.inputs, ResolutionOf(c, earlier), i))
            && (state == Unknown <==> i.config.None?) && state != Missing
  {
    CompiledParts(c, earlier);
    FullCompileIsSaved(c, earlier);
    if i.config.Some? { PresentIsExact(c, d, earlier.inputs, ResolutionOf(c, earlier), i); }
  }

  /** Main result: after any run that starts without a plan, the plan is reported `Missing` exactly when no
      attempt has compiled in full, and otherwise `Current` exactly when the inputs are those of the last
      attempt that has, `Unknown` when the configuration does not load, and else `Stale`. */
  lemma CurrentnessIsExact(c: Compiler, d: Decoders<Primitives>, stores: seq<Store>, attempts: seq<Attempt>, i: Inputs)
    returns (last: int)
    requires Sound(c) && Reads(c, d) && ValidDigests(d) && IsRun(c, stores, attempts) && stores[0].planFile == NoFile
    requires Inspect(c, stores[|attempts|].planFile, i).Ok?
    ensures LastCompile(c, stores, attempts, last) && (last >= 0 ==> FullCompile(c, attempts[last]).Ok?)
    ensures var state := Inspect(c, stores[|attempts|].planFile, i).value.state;
            && (state == Missing <==> last == -1)
            && (last >= 0 ==>
                  && (state == Current <==> SameInputs(attempts[last].inputs, ResolutionOf(c, attempts[last]), i))
                  && (state == Unknown <==> i.config.None?))
  {
    last := PersistedIsLastSuccess(c, stores, attempts);
    if last >= 0 { StateIsExact(c, d, attempts[last], i); }
  }
}
