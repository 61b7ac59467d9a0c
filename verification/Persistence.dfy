/** Persisted plans, their reuse and the last known good one (src/compiler/persistence.rs). */
module Persistence {
  import opened Wrappers
  import opened Text
  import opened Normalizers
  import opened CompilerContracts
  import opened PlanContracts
  import opened Assets
  import opened Materialization
  import opened RunPlans

  type Plan = RunPlan<Extras>

  /** What resolves a mode, fingerprints listed assets, materializes, validates, and decodes what was
      written. */
  datatype Compiler = Compiler(
    resolve: (Workspace, string, Config) -> Result<Resolved<Primitives>, AssetError>,
    fingerprint: (Workspace, string, Config, seq<AssetRef>) -> Result<InputFingerprint, AssetError>,
    materialize: (Resolved<Primitives>, string) -> Result<Plan, CompileError>,
    validate: Plan -> Normalized<Plan>,
    decode: Plan -> Plan,
    configDigest: Config -> string)

  datatype Failure = ConfigFailure | AssetFailure(asset: AssetError) | PlanFailure(plan: CompileError)

  datatype Diagnostics = Diagnostics(ok: bool, modeId: string, errors: seq<Failure>, emittedAt: string)

  /** The plan file: absent, not decodable, or with the document of a plan. */
  datatype PlanFile = NoFile | Garbled | Holding(plan: Plan)

  datatype Store = Store(planFile: PlanFile, diagnostics: Option<Diagnostics>)

  /** The workspace, the configuration if it loads, and the requested mode. */
  datatype Inputs = Inputs(w: Workspace, config: Option<Config>, requested: Option<string>)

  /** One attempt: the inputs it finds, and its options. */
  datatype Attempt = Attempt(
    inputs: Inputs,
    compiledAt: string,
    ifNeeded: bool,
    refuseStale: bool,
    keepFailures: bool)

  datatype Outcome = Outcome(
    activePlan: Option<Plan>,
    diagnostics: Diagnostics,
    usedLastKnownGood: bool,
    planId: Option<string>,
    assets: seq<AssetRef>,
    fingerprint: Option<InputFingerprint>)

  // ---------------------------------------------------------------- one attempt

  function CompileModeId(requested: Option<string>, config: Option<Config>): string {
    match config
    case Some(c) => ResolveModeId(requested, c)
    case None =>
      if requested.Some? && !IsBlank(requested.value) then CanonicalModeId(requested.value) else DEFAULT_MODE
  }

  /** A plan is decoded and validated when it is loaded. */
  function LoadPlan(c: Compiler, file: PlanFile): Normalized<Option<Plan>> {
    match file
    case NoFile => Ok(None)
    case Garbled => Err(InvalidDocument)
    case Holding(plan) =>
      var valid :- c.validate(c.decode(plan));
      Ok(Some(valid))
  }

  function LastKnownGood(c: Compiler, file: PlanFile): Option<Plan> {
    match LoadPlan(c, file)
    case Ok(plan) => plan
    case Err(_) => None
  }

  function ModeIdOf(i: Inputs): string { CompileModeId(i.requested, i.config) }

  /** The present fingerprint of the assets a plan lists. */
  function PresentFingerprint(c: Compiler, i: Inputs, plan: Option<Plan>): Option<InputFingerprint> {
    if plan.None? || i.config.None? then None
    else
      match c.fingerprint(i.w, ModeIdOf(i), i.config.value, plan.value.assets)
      case Ok(f) => Some(f)
      case Err(_) => None
  }

  predicate Reuses(c: Compiler, file: PlanFile, a: Attempt) {
    var known := LastKnownGood(c, file);
    a.ifNeeded && known.Some? && PresentFingerprint(c, a.inputs, known) == Some(known.value.fingerprint)
  }

  function FullCompile(c: Compiler, a: Attempt): Result<(Plan, InputFingerprint), Failure> {
    match a.inputs.config
    case None => Err(ConfigFailure)
    case Some(config) =>
      match c.resolve(a.inputs.w, ModeIdOf(a.inputs), config)
      case Err(e) => Err(AssetFailure(e))
      case Ok(resolved) =>
        match c.materialize(resolved, a.compiledAt)
        case Err(e) => Err(PlanFailure(e))
        case Ok(plan) => Ok((plan, resolved.fingerprint))
  }

  function OutcomeOf(plan: Option<Plan>, d: Diagnostics, used: bool, f: Option<InputFingerprint>): Outcome {
    Outcome(plan, d, used, if plan.Some? then Some(plan.value.planId) else None,
            if plan.Some? then plan.value.assets else [], f)
  }

  predicate DiagnosticsHold(d: Diagnostics) { !IsBlank(d.modeId) && (d.ok || d.errors != []) }

  /** The plan a failed attempt falls back to. */
  function Fallback(known: Option<Plan>, present: Option<InputFingerprint>, refuseStale: bool): Option<Plan> {
    if refuseStale && known.Some? && Some(known.value.fingerprint) != present then None else known
  }

  /** The store after an attempt and what the attempt returns; documents are validated when saved. */
  function Attempted(c: Compiler, s: Store, a: Attempt): (Store, Normalized<Outcome>) {
    var known := LastKnownGood(c, s.planFile);
    var present := PresentFingerprint(c, a.inputs, known);
    var modeId := ModeIdOf(a.inputs);
    if Reuses(c, s.planFile, a) then
      (s, Ok(OutcomeOf(known, Diagnostics(true, modeId, [], a.compiledAt), false, present)))
    else
      match FullCompile(c, a)
      case Ok((plan, fingerprint)) =>
        var d := Diagnostics(true, plan.modeId, [], a.compiledAt);
        (match c.validate(plan)
         case Err(e) => (s, Err(e))
         case Ok(saved) =>
           if !DiagnosticsHold(d) then (s.(planFile := Holding(saved)), Err(InvalidField))
           else (Store(Holding(saved), Some(d)), Ok(OutcomeOf(Some(plan), d, false, Some(fingerprint)))))
      case Err(failure) =>
        var d := Diagnostics(false, modeId, [failure], a.compiledAt);
        if a.keepFailures && !DiagnosticsHold(d) then (s, Err(InvalidField))
        else
          var active := Fallback(known, present, a.refuseStale);
          (if a.keepFailures then s.(diagnostics := Some(d)) else s, Ok(OutcomeOf(active, d, active.Some?, present)))
  }

  // ---------------------------------------------------------------- currentness

  datatype State = Current | Stale | Missing | Unknown

  datatype Currentness = Currentness(
    state: State, expected: InputFingerprint, planId: Option<string>, persisted: Option<InputFingerprint>)

  predicate FingerprintHolds(f: InputFingerprint) { !IsBlank(f.modeId) && !IsBlank(f.config) && !IsBlank(f.assets) }

  const ASSETS_UNKNOWN := "assets-unknown"

  const CONFIG_UNKNOWN := "cfg-unknown"

  /** What is expected when the assets cannot be told; a requested mode is then taken even when blank. */
  function FallbackFingerprint(c: Compiler, i: Inputs): InputFingerprint {
    match i.config
    case Some(config) => InputFingerprint(ModeIdOf(i), c.configDigest(config), ASSETS_UNKNOWN)
    case None =>
      InputFingerprint(if i.requested.Some? then CanonicalModeId(i.requested.value) else DEFAULT_MODE,
                       CONFIG_UNKNOWN, ASSETS_UNKNOWN)
  }

  /** The fingerprint a compile of the inputs would have. */
  function ExpectedFingerprint(c: Compiler, i: Inputs): InputFingerprint {
    if i.config.Some? then
      match c.resolve(i.w, ModeIdOf(i), i.config.value)
      case Ok(resolved) => resolved.fingerprint
      case Err(_) => FallbackFingerprint(c, i)
    else FallbackFingerprint(c, i)
  }

  function Observed(c: Compiler, file: PlanFile, i: Inputs): Currentness {
    match LoadPlan(c, file)
    case Ok(Some(plan)) =>
      var present := PresentFingerprint(c, i, Some(plan));
      var state := if present.None? then Unknown else if present.value == plan.fingerprint then Current else Stale;
      Currentness(state, present.GetOr(FallbackFingerprint(c, i)), Some(plan.planId), Some(plan.fingerprint))
    case Ok(None) => Currentness(Missing, ExpectedFingerprint(c, i), None, None)
    case Err(_) => Currentness(Unknown, ExpectedFingerprint(c, i), None, None)
  }

  /** What is reported of the plan file; a report is validated. */
  function Inspect(c: Compiler, file: PlanFile, i: Inputs): Normalized<Currentness> {
    var report := Observed(c, file, i);
    if !FingerprintHolds(report.expected) || !NotBlank(report.planId)
       || (report.persisted.Some? && !FingerprintHolds(report.persisted.value)) then Err(InvalidField)
    else if report.state == Missing && (report.planId.Some? || report.persisted.Some?) then Err(InvalidDocument)
    else Ok(report)
  }

  /** The plan and diagnostics files of a workspace. */
  class PlanStore {
    var planFile: PlanFile
    var diagnosticsFile: Option<Diagnostics>

    constructor (s: Store)
      ensures Contents() == s
    {
      planFile, diagnosticsFile := s.planFile, s.diagnostics;
    }

    function Contents(): Store
      reads this
    {
      Store(planFile, diagnosticsFile)
    }

    method SavePlan(c: Compiler, plan: Plan) returns (r: Result<(), ContractError>)
      modifies this`planFile
      ensures match c.validate(plan)
              case Ok(valid) => r == Ok(()) && planFile == Holding(valid)
              case Err(e) => r == Err(e) && planFile == old(planFile)
    {
      var valid :- c.validate(plan);
      planFile := Holding(valid);
      return Ok(());
    }

    method SaveDiagnostics(d: Diagnostics) returns (r: Result<(), ContractError>)
      modifies this`diagnosticsFile
      ensures if DiagnosticsHold(d) then r == Ok(()) && diagnosticsFile == Some(d)
              else r == Err(InvalidField) && diagnosticsFile == old(diagnosticsFile)
    {
      if !DiagnosticsHold(d) { return Err(InvalidField); }
      diagnosticsFile := Some(d);
      return Ok(());
    }

    method CompileAndPersist(c: Compiler, a: Attempt) returns (r: Normalized<Outcome>)
      modifies this
      ensures (Contents(), r) == Attempted(c, old(Contents()), a)
    {
      var modeId := ModeIdOf(a.inputs);
      var lastKnownGood := LastKnownGood(c, planFile);
      var present := PresentFingerprint(c, a.inputs, lastKnownGood);
      if a.ifNeeded && lastKnownGood.Some? && present.Some? && lastKnownGood.value.fingerprint == present.value {
        return Ok(OutcomeOf(lastKnownGood, Diagnostics(true, modeId, [], a.compiledAt), false, present));
      }
      match FullCompile(c, a) {
        case Ok((plan, fingerprint)) =>
          var diagnostics := Diagnostics(true, plan.modeId, [], a.compiledAt);
          var _ :- SavePlan(c, plan);
          var _ :- SaveDiagnostics(diagnostics);
          return Ok(OutcomeOf(Some(plan), diagnostics, false, Some(fingerprint)));
        case Err(failure) =>
          var diagnostics := Diagnostics(false, modeId, [failure], a.compiledAt);
          if a.keepFailures { var _ :- SaveDiagnostics(diagnostics); }
          var activePlan, used := lastKnownGood, lastKnownGood.Some?;
          if a.refuseStale && activePlan.Some? && Some(activePlan.value.fingerprint) != present {
            activePlan, used := None, false;
          }
          return Ok(OutcomeOf(activePlan, diagnostics, used, present));
      }
    }
  }
}
