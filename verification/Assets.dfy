/** Resolving a mode to the assets a compile reads, and fingerprinting them (src/compiler/assets.rs). */
module Assets {
  import opened Sequences
  import opened Wrappers
  import opened Text
  import opened Normalizers
  import opened AssetPaths
  import opened CompilerContracts
  import opened PlanContracts
  import Capabilities
  import CapabilityGrants

  // ---------------------------------------------------------------- inputs

  datatype StageConfig = StageConfig(
    runner: Option<string>, model: Option<string>, thinkingLevel: Option<string>, timeoutSeconds: Option<nat>)

  /** The effective configuration. */
  datatype Config = Config(
    defaultMode: string,
    stages: map<string, StageConfig>,
    maxFixCycles: nat,
    maxTroubleshootAttempts: nat,
    maxMechanicAttempts: nat,
    capabilities: CapabilityGrants.Config)

  datatype LearningRule = LearningRule(
    ruleId: string, sourceStage: string, targetStage: string, targetSkill: Option<string>, outputPaths: seq<string>)

  /** A validated mode; its maps are by built-in stage name. */
  datatype Mode = Mode(
    modeId: string,
    loopIds: map<Plane, string>,
    entrypoints: map<string, string>,
    skills: map<string, seq<string>>,
    models: map<string, string>,
    runners: map<string, string>,
    thinking: map<string, Option<string>>,
    requests: seq<Capabilities.Request>,
    policies: seq<CapabilityGrants.PolicyOverride>,
    stageRequests: map<string, seq<Capabilities.Request>>,
    stageOverrides: map<string, seq<CapabilityGrants.PolicyOverride>>,
    learningRules: seq<LearningRule>)

  type Content = string

  /** The runtime root: the files under every spelling of a path that opens one, and the paths a
      directory walk lists, in order. */
  datatype Workspace = Workspace(files: map<string, Content>, listed: seq<string>)

  datatype GraphAsset = GraphAsset(plane: Plane, path: string, graph: GraphLoop)

  datatype KindAsset = KindAsset(kindId: string, path: string, kind: StageKind)

  /** A workflow primitive file: its logical id and where it lies. */
  datatype PrimitiveFile = PrimitiveFile(logicalId: string, path: string)

  /** What decodes and digests: parsed and validated documents, the id a document declares, the
      primitives selected for the graphs, and the three digests. */
  datatype Decoders<!P> = Decoders(
    mode: Content -> Option<Mode>,
    graph: Content -> Option<GraphLoop>,
    kind: Content -> Option<StageKind>,
    declared: (string, Content) -> Option<string>,
    primitiveFiles: seq<PrimitiveFile>,
    primitives: (seq<Content>, seq<GraphAsset>) -> Option<P>,
    sha: Content -> string,
    assetsDigest: string -> string,
    configDigest: Config -> string)

  datatype AssetError =
    | UnknownAsset
    | DuplicateAssetId
    | InvalidPath
    | Unreadable
    | InvalidContract
    | IdMismatch
    | InvalidReference
    | MissingReference

  /** A mode with the graph loops and stage kinds it selects. */
  datatype Selection = Selection(modePath: string, mode: Mode, graphs: seq<GraphAsset>, kinds: seq<KindAsset>)

  datatype Resolved<P> = Resolved(
    modeId: string,
    selection: Selection,
    primitives: P,
    refs: seq<AssetRef>,
    config: Config,
    fingerprint: InputFingerprint)

  // ---------------------------------------------------------------- the mode

  const DEFAULT_MODE := "default_codex"

  function CanonicalModeId(modeId: string): string {
    if Trim(modeId) == "standard_plain" then DEFAULT_MODE else Trim(modeId)
  }

  /** The requested mode, else the configured default, else the built-in one. */
  function ResolveModeId(requested: Option<string>, config: Config): string {
    if requested.Some? && !IsBlank(requested.value) then CanonicalModeId(requested.value)
    else if !IsBlank(config.defaultMode) then CanonicalModeId(config.defaultMode)
    else DEFAULT_MODE
  }

  // ---------------------------------------------------------------- finding files

  predicate InDirectory(path: string, dir: string) {
    dir + "/" <= path && |path| > 5 && path[|path| - 5..] == ".json" && path[|path| - 6] != '/'
  }

  /** The listed files of a directory that declare an id. */
  function Declaring<P>(w: Workspace, d: Decoders<P>, dir: string, field: string, id: string, count: nat): seq<string>
    requires count <= |w.listed|
  {
    if count == 0 then []
    else
      var p := w.listed[count - 1];
      Declaring(w, d, dir, field, id, count - 1)
      + (if InDirectory(p, dir) && p in w.files && d.declared(field, w.files[p]) == Some(id) then [p] else [])
  }

  method DiscoverByDeclaredId<P>(w: Workspace, d: Decoders<P>, dir: string, field: string, id: string)
    returns (matches: seq<string>)
    ensures matches == Declaring(w, d, dir, field, id, |w.listed|)
  {
    matches := [];
    for i := 0 to |w.listed|
      invariant matches == Declaring(w, d, dir, field, id, i)
    {
      var p := w.listed[i];
      if InDirectory(p, dir) && p in w.files && d.declared(field, w.files[p]) == Some(id) {
        matches := matches + [p];
      }
    }
  }

  function Normal(path: string): Result<string, AssetError> {
    match NormalPath(path)
    case Some(p) => Ok(p)
    case None => Err(InvalidPath)
  }

  /** The normalised path an id resolves to: its named file if there is one, else the one listed file
      that declares it. */
  function Locate<P>(w: Workspace, d: Decoders<P>, named: Option<string>, dir: string, field: string, id: string):
      Result<string, AssetError>
  {
    if named.Some? && named.value in w.files then Normal(named.value)
    else
      var matches := Declaring(w, d, dir, field, id, |w.listed|);
      if matches == [] then Err(UnknownAsset)
      else if |matches| > 1 then Err(DuplicateAssetId)
      else
        var path :- Normal(matches[0]);
        Normal(path)
  }

  function ModeFile(modeId: string): Option<string> { Some("modes/" + modeId + ".json") }

  function GraphFile(loopId: string): Option<string> {
    var (plane, name) :- SplitOnce(loopId, '.');
    Some("graphs/" + plane + "/" + name + ".json")
  }

  function PlaneName(plane: Plane): string {
    match plane
    case Execution => "execution"
    case Planning => "planning"
    case Learning => "learning"
  }

  function KindFile(plane: Plane, kindId: string): Option<string> {
    Some("registry/stage_kinds/" + PlaneName(plane) + "/" + kindId + ".json")
  }

  function LocateMode<P>(w: Workspace, d: Decoders<P>, modeId: string): Result<string, AssetError> {
    Locate(w, d, ModeFile(modeId), "modes", "mode_id", modeId)
  }

  function LocateGraph<P>(w: Workspace, d: Decoders<P>, loopId: string): Result<string, AssetError> {
    Locate(w, d, GraphFile(loopId), "graphs", "loop_id", loopId)
  }

  function LocateKind<P>(w: Workspace, d: Decoders<P>, plane: Plane, kindId: string): Result<string, AssetError> {
    Locate(w, d, KindFile(plane, kindId), "registry/stage_kinds", "stage_kind_id", kindId)
  }

  function Load<T>(w: Workspace, path: string, decode: Content -> Option<T>): Result<T, AssetError> {
    if path !in w.files then Err(Unreadable)
    else
      match decode(w.files[path])
      case Some(x) => Ok(x)
      case None => Err(InvalidContract)
  }

  function Require(condition: bool, error: AssetError): Result<(), AssetError> {
    if condition then Ok(()) else Err(error)
  }

  // ---------------------------------------------------------------- graphs and stage kinds

  function LoadGraph<P>(w: Workspace, d: Decoders<P>, plane: Plane, loopId: string): Result<GraphAsset, AssetError> {
    var path :- LocateGraph(w, d, loopId);
    var graph :- Load(w, path, d.graph);
    var _ :- Require(graph.loopId == loopId && graph.plane == plane, IdMismatch);
    Ok(GraphAsset(plane, path, graph))
  }

  function LoadKind<P>(w: Workspace, d: Decoders<P>, plane: Plane, kindId: string): Result<KindAsset, AssetError> {
    var path :- LocateKind(w, d, plane, kindId);
    var kind :- Load(w, path, d.kind);
    var _ :- Require(kind.details.stageKindId == kindId && kind.plane == plane, IdMismatch);
    Ok(KindAsset(kindId, path, kind))
  }

  /** The loop bindings of a mode in the order of their plane names. */
  function SortedLoops(loopIds: map<Plane, string>): seq<(Plane, string)> {
    (if Execution in loopIds then [(Execution, loopIds[Execution])] else [])
    + (if Learning in loopIds then [(Learning, loopIds[Learning])] else [])
    + (if Planning in loopIds then [(Planning, loopIds[Planning])] else [])
  }

  function GraphLoader<P>(w: Workspace, d: Decoders<P>): ((Plane, string)) -> Result<GraphAsset, AssetError> {
    (x: (Plane, string)) => LoadGraph(w, d, x.0, x.1)
  }

  function KindLoader<P>(w: Workspace, d: Decoders<P>): ((Plane, string)) -> Result<KindAsset, AssetError> {
    (x: (Plane, string)) => LoadKind(w, d, x.0, x.1)
  }

  function Nodes(graphs: seq<GraphAsset>): seq<(Plane, Node)> {
    if graphs == [] then []
    else
      var g := graphs[0];
      seq(|g.graph.nodes|, i requires 0 <= i < |g.graph.nodes| => (g.plane, g.graph.nodes[i])) + Nodes(graphs[1..])
  }

  /** The stage kinds the nodes use, each with the plane it is first used on. */
  function UsedKinds(nodes: seq<(Plane, Node)>): seq<(Plane, string)> {
    if nodes == [] then []
    else
      var n := |nodes| - 1;
      var earlier, id := UsedKinds(nodes[..n]), nodes[n].1.stageKindId;
      if exists i :: 0 <= i < |earlier| && earlier[i].1 == id then earlier else earlier + [(nodes[n].0, id)]
  }

  /** The loaded kinds by id. */
  function KindMap(kinds: seq<KindAsset>): map<string, StageKind> {
    if kinds == [] then map[]
    else KindMap(kinds[..|kinds| - 1])[kinds[|kinds| - 1].kindId := kinds[|kinds| - 1].kind]
  }

  predicate KindsKnown(nodes: seq<(Plane, Node)>, kinds: map<string, StageKind>) {
    forall i :: 0 <= i < |nodes| ==>
      nodes[i].1.stageKindId in kinds && kinds[nodes[i].1.stageKindId].plane == nodes[i].0
  }

  /** The mode's maps are about stages that some node runs. */
  predicate StageMapsSelected(mode: Mode, nodes: seq<(Plane, Node)>) {
    var stages := mode.entrypoints.Keys + mode.skills.Keys + mode.models.Keys + mode.runners.Keys
                  + mode.thinking.Keys + mode.stageRequests.Keys + mode.stageOverrides.Keys;
    forall s :: s in stages ==> StagePlane(s).Some? && exists i :: 0 <= i < |nodes| && nodes[i].1.stageKindId == s
  }

  // ---------------------------------------------------------------- references

  /** A file a compile depends on; a file that is not required may be missing. */
  datatype Need = Need(ref: Ref, required: bool)

  const MISSING := "missing"

  function Token<P>(w: Workspace, d: Decoders<P>, path: string): string {
    if path in w.files then d.sha(w.files[path]) else MISSING
  }

  /** A stage-named entry of a mode map. */
  predicate Overrides<V>(m: map<string, V>, node: Node) {
    StagePlane(node.stageKindId).Some? && node.stageKindId in m
  }

  /** The entrypoint of a node: the mode's for its stage, else its own, else its stage kind's. */
  function EntrypointOf(mode: Mode, kind: StageKind, node: Node): string {
    if Overrides(mode.entrypoints, node) then mode.entrypoints[node.stageKindId]
    else node.entrypointPath.GetOr(kind.details.defaultEntrypoint)
  }

  /** The skills attached to a node, by itself and then by the mode for its stage. */
  function SkillsOf(mode: Mode, node: Node): seq<string> {
    node.attachedSkills + (if Overrides(mode.skills, node) then mode.skills[node.stageKindId] else [])
  }

  function MarkdownAsset(prefix: string, path: string): Result<string, AssetError> {
    var normal :- Normal(path);
    var _ :- Require(prefix <= normal && |normal| >= 3 && normal[|normal| - 3..] == ".md", InvalidReference);
    Ok(normal)
  }

  function MarkdownAssets(prefix: string, paths: seq<string>): Result<seq<string>, AssetError> {
    if paths == [] then Ok([])
    else
      var first :- MarkdownAsset(prefix, paths[0]);
      var rest :- MarkdownAssets(prefix, paths[1..]);
      Ok([first] + rest)
  }

  /** What the nodes need: entrypoints, required skills and attached skills, as they are written. */
  function RawPaths(mode: Mode, kinds: map<string, StageKind>, nodes: seq<(Plane, Node)>):
      (seq<string>, seq<string>, seq<string>)
    requires KindsKnown(nodes, kinds)
  {
    if nodes == [] then ([], [], [])
    else
      var node := nodes[0].1;
      var kind := kinds[node.stageKindId];
      var (entrypoints, required, attached) := RawPaths(mode, kinds, nodes[1..]);
      ([EntrypointOf(mode, kind, node)] + entrypoints, kind.details.requiredSkills + required,
       SkillsOf(mode, node) + attached)
  }

  function PathNeeds(family: string, paths: seq<string>, required: bool): (needs: seq<Need>)
    ensures |needs| == |paths|
    ensures forall i :: 0 <= i < |paths| ==> needs[i] == Need(Ref(family, family + ":" + paths[i], paths[i]), required)
  {
    seq(|paths|, i requires 0 <= i < |paths| => Need(Ref(family, family + ":" + paths[i], paths[i]), required))
  }

  function GraphNeeds(graphs: seq<GraphAsset>): (needs: seq<Need>)
    ensures |needs| == |graphs|
  {
    seq(|graphs|, i requires 0 <= i < |graphs| =>
      Need(Ref("graph_loop", "graph_loop:" + graphs[i].graph.loopId, graphs[i].path), true))
  }

  function KindNeeds(kinds: seq<KindAsset>): (needs: seq<Need>)
    ensures |needs| == |kinds|
  {
    seq(|kinds|, i requires 0 <= i < |kinds| =>
      Need(Ref("stage_kind", "stage_kind:" + kinds[i].kindId, kinds[i].path), true))
  }

  function PrimitiveNeeds(files: seq<PrimitiveFile>): (needs: seq<Need>)
    ensures |needs| == |files|
  {
    seq(|files|, i requires 0 <= i < |files| =>
      Need(Ref("workflow_primitive", files[i].logicalId, files[i].path), true))
  }

  /** The kinds of a selection cover its nodes. */
  predicate Covers(s: Selection) { KindsKnown(Nodes(s.graphs), KindMap(s.kinds)) }

  /** Everything a compile depends on, in the order it is recorded. */
  function Needs(s: Selection, files: seq<PrimitiveFile>): Result<seq<Need>, AssetError>
    requires Covers(s)
  {
    var (rawEntrypoints, rawRequired, rawAttached) := RawPaths(s.mode, KindMap(s.kinds), Nodes(s.graphs));
    var entrypoints :- MarkdownAssets(ENTRYPOINTS, rawEntrypoints);
    var required :- MarkdownAssets(SKILLS, rawRequired);
    var attached :- MarkdownAssets(SKILLS, rawAttached);
    Ok(FixedNeeds(s, files) + (PathNeeds("entrypoint", Dedupe(entrypoints), true)
       + (PathNeeds("skill", Dedupe(required), true) + PathNeeds("skill", Dedupe(attached), false))))
  }

  /** The needs that are not named inside documents. */
  function FixedNeeds(s: Selection, files: seq<PrimitiveFile>): seq<Need> {
    [Need(Ref("mode", "mode:" + s.mode.modeId, s.modePath), true)]
    + (GraphNeeds(s.graphs) + (KindNeeds(s.kinds) + PrimitiveNeeds(files)))
  }

  function Recorded<P>(w: Workspace, d: Decoders<P>, needs: seq<Need>): Result<seq<AssetRef>, AssetError> {
    if needs == [] then Ok([])
    else
      var n, last := |needs| - 1, needs[|needs| - 1];
      var earlier :- Recorded(w, d, needs[..n]);
      var _ :- Require(last.required ==> last.ref.path in w.files, MissingReference);
      Ok(earlier + [AssetRef(last.ref.family, last.ref.logicalId, last.ref.path, Token(w, d, last.ref.path))])
  }

  function RefOf(a: AssetRef): Ref { Ref(a.family, a.logicalId, a.path) }

  /** The references without those recorded earlier under the same family, id and path. */
  function DedupeRefs(refs: seq<AssetRef>): seq<AssetRef> {
    if refs == [] then []
    else
      var n := |refs| - 1;
      var earlier := DedupeRefs(refs[..n]);
      if exists i :: 0 <= i < |earlier| && RefOf(earlier[i]) == RefOf(refs[n]) then earlier else earlier + [refs[n]]
  }

  // ---------------------------------------------------------------- fingerprints

  function RefsOf(refs: seq<AssetRef>): (r: seq<Ref>)
    ensures |r| == |refs| && forall i :: 0 <= i < |refs| ==> r[i] == RefOf(refs[i])
  {
    seq(|refs|, i requires 0 <= i < |refs| => RefOf(refs[i]))
  }

  /** The fields that are digested for sorted references: each with the present token of its file. */
  function Fields<P>(w: Workspace, d: Decoders<P>, sorted: seq<Ref>): Result<seq<string>, AssetError> {
    if sorted == [] then Ok([])
    else
      var path :- Normal(sorted[0].path);
      var rest :- Fields(w, d, sorted[1..]);
      Ok([sorted[0].family, sorted[0].logicalId, path, Token(w, d, path)] + rest)
  }

  function AssetsFingerprint<P>(w: Workspace, d: Decoders<P>, refs: seq<AssetRef>): Result<string, AssetError> {
    var fields :- Fields(w, d, Sorted(RefsOf(refs)));
    Ok(d.assetsDigest(Framed(fields)))
  }

  function Fingerprint<P>(w: Workspace, d: Decoders<P>, config: Config, modeId: string, refs: seq<AssetRef>):
      Result<InputFingerprint, AssetError>
  {
    var assets :- AssetsFingerprint(w, d, refs);
    Ok(InputFingerprint(modeId, d.configDigest(config), assets))
  }

  // ---------------------------------------------------------------- resolution

  function Contents(w: Workspace, files: seq<PrimitiveFile>): Result<seq<Content>, AssetError> {
    if files == [] then Ok([])
    else
      var _ :- Require(files[0].path in w.files, Unreadable);
      var rest :- Contents(w, files[1..]);
      Ok([w.files[files[0].path]] + rest)
  }

  function LoadMode<P>(w: Workspace, d: Decoders<P>, modeId: string): Result<(string, Mode), AssetError> {
    var path :- LocateMode(w, d, modeId);
    var mode :- Load(w, path, d.mode);
    var _ :- Require(mode.modeId == modeId, IdMismatch);
    Ok((path, mode))
  }

  function LoadPrimitives<P>(w: Workspace, d: Decoders<P>, graphs: seq<GraphAsset>): Result<P, AssetError> {
    var contents :- Contents(w, d.primitiveFiles);
    match d.primitives(contents, graphs)
    case Some(p) => Ok(p)
    case None => Err(InvalidContract)
  }

  /** The documents of a mode, checked against one another. */
  function Select<P>(w: Workspace, d: Decoders<P>, modeId: string): (r: Result<Selection, AssetError>)
    ensures r.Ok? ==> Covers(r.value)
  {
    var (modePath, mode) :- LoadMode(w, d, modeId);
    var graphs :- Each(GraphLoader(w, d), SortedLoops(mode.loopIds));
    var kinds :- Each(KindLoader(w, d), UsedKinds(Nodes(graphs)));
    var s := Selection(modePath, mode, graphs, kinds);
    var _ :- Require(Covers(s) && StageMapsSelected(mode, Nodes(graphs)), InvalidReference);
    Ok(s)
  }

  function References<P>(w: Workspace, d: Decoders<P>, s: Selection): Result<seq<AssetRef>, AssetError>
    requires Covers(s)
  {
    var needs :- Needs(s, d.primitiveFiles);
    var recorded :- Recorded(w, d, needs);
    Ok(DedupeRefs(recorded))
  }

  /** The assets of a mode under a configuration. */
  function ResolveMode<P>(w: Workspace, d: Decoders<P>, modeId: string, config: Config):
      Result<Resolved<P>, AssetError>
  {
    var selection :- Select(w, d, modeId);
    var primitives :- LoadPrimitives(w, d, selection.graphs);
    var refs :- References(w, d, selection);
    var fingerprint :- Fingerprint(w, d, config, modeId, refs);
    Ok(Resolved(modeId, selection, primitives, refs, config, fingerprint))
  }
}
