/** Resolving again to the same assets finds every id where it was: the references of a resolution tell
    its paths. */
module RecompiledAssets {
  import opened Sequences
  import opened Wrappers
  import opened Text
  import opened Normalizers
  import opened AssetPaths
  import opened CompilerContracts
  import opened PlanContracts
  import opened Assets
  import opened AssetReuse

  // ---------------------------------------------------------------- which reference is whose

  lemma FixedNeedOf(s: Selection, files: seq<PrimitiveFile>, n: Need)
    requires n in FixedNeeds(s, files)
    ensures n.ref.family == "mode" ==> n.ref.path == s.modePath
    ensures n.ref.family == "graph_loop" ==>
              exists g :: g in s.graphs && n.ref.logicalId == "graph_loop:" + g.graph.loopId && n.ref.path == g.path
    ensures n.ref.family == "stage_kind" ==>
              exists k :: k in s.kinds && n.ref.logicalId == "stage_kind:" + k.kindId && n.ref.path == k.path
  {
    if n in GraphNeeds(s.graphs) {
      var i :| 0 <= i < |s.graphs| && GraphNeeds(s.graphs)[i] == n;
      assert s.graphs[i] in s.graphs;
    } else if n in KindNeeds(s.kinds) {
      var i :| 0 <= i < |s.kinds| && KindNeeds(s.kinds)[i] == n;
      assert s.kinds[i] in s.kinds;
    }
  }

  lemma NamedNeed(s: Selection, files: seq<PrimitiveFile>, n: Need)
    requires Covers(s) && Needs(s, files).Ok? && n in Needs(s, files).value
    requires n.ref.family in {"mode", "graph_loop", "stage_kind"}
    ensures n in FixedNeeds(s, files)
  {}

  /** A recorded reference of a document is that of a document of the selection. */
  lemma DocumentOf<P>(w: Workspace, d: Decoders<P>, s: Selection, refs: seq<AssetRef>, ref: Ref) returns (n: Need)
    requires Covers(s) && References(w, d, s) == Ok(refs) && ref in RefsOf(refs)
    requires ref.family in {"mode", "graph_loop", "stage_kind"}
    ensures n in FixedNeeds(s, d.primitiveFiles) && n.ref == ref
  {
    var i :| 0 <= i < |refs| && RefsOf(refs)[i] == ref;
    ReferenceTokens(w, d, s, refs, refs[i]);
    n :| n in Needs(s, d.primitiveFiles).value && n.ref == ref;
    NamedNeed(s, d.primitiveFiles, n);
  }

  lemma DocumentRecorded<P>(w: Workspace, d: Decoders<P>, s: Selection, refs: seq<AssetRef>, n: Need)
    requires Covers(s) && References(w, d, s) == Ok(refs) && n in FixedNeeds(s, d.primitiveFiles)
    ensures n.ref in RefsOf(refs)
  {
    FixedAreNeeds(s, d.primitiveFiles);
    ReferencesParts(w, d, s, refs, n);
  }

  lemma AfterPrefix(prefix: string, a: string, b: string)
    requires prefix + a == prefix + b
    ensures a == b
  {
    assert (prefix + a)[|prefix|..] == a && (prefix + b)[|prefix|..] == b;
  }

  // ---------------------------------------------------------------- the same references, the same paths

  lemma SameModePath<P>(v: Workspace, w: Workspace, d: Decoders<P>, s: Selection, t: Selection, refs: seq<AssetRef>)
    requires Covers(s) && Covers(t) && References(v, d, s) == Ok(refs) && References(w, d, t) == Ok(refs)
    ensures t.modePath == s.modePath
  {
    var ref := Ref("mode", "mode:" + t.mode.modeId, t.modePath);
    assert FixedNeeds(t, d.primitiveFiles)[0].ref == ref;
    DocumentRecorded(w, d, t, refs, FixedNeeds(t, d.primitiveFiles)[0]);
    var n := DocumentOf(v, d, s, refs, ref);
    FixedNeedOf(s, d.primitiveFiles, n);
  }

  function GraphRef(loopId: string, path: string): Ref { Ref("graph_loop", "graph_loop:" + loopId, path) }

  function KindRef(kindId: string, path: string): Ref { Ref("stage_kind", "stage_kind:" + kindId, path) }

  lemma DocumentNeeds(s: Selection, files: seq<PrimitiveFile>)
    ensures forall i :: 0 <= i < |s.graphs| ==>
              Need(GraphRef(s.graphs[i].graph.loopId, s.graphs[i].path), true) in FixedNeeds(s, files)
    ensures forall i :: 0 <= i < |s.kinds| ==>
              Need(KindRef(s.kinds[i].kindId, s.kinds[i].path), true) in FixedNeeds(s, files)
  {
    forall i | 0 <= i < |s.graphs|
      ensures Need(GraphRef(s.graphs[i].graph.loopId, s.graphs[i].path), true) in FixedNeeds(s, files)
    {
      assert FixedNeeds(s, files)[1 + i] == GraphNeeds(s.graphs)[i];
    }
    forall i | 0 <= i < |s.kinds|
      ensures Need(KindRef(s.kinds[i].kindId, s.kinds[i].path), true) in FixedNeeds(s, files)
    {
      assert FixedNeeds(s, files)[1 + |s.graphs| + i] == KindNeeds(s.kinds)[i];
    }
  }

  lemma GraphRecorded<P>(w: Workspace, d: Decoders<P>, s: Selection, refs: seq<AssetRef>, g: GraphAsset)
    requires Covers(s) && References(w, d, s) == Ok(refs) && g in s.graphs
    ensures GraphRef(g.graph.loopId, g.path) in RefsOf(refs)
  {
    DocumentNeeds(s, d.primitiveFiles);
    DocumentRecorded(w, d, s, refs, Need(GraphRef(g.graph.loopId, g.path), true));
  }

  lemma KindRecorded<P>(w: Workspace, d: Decoders<P>, s: Selection, refs: seq<AssetRef>, k: KindAsset)
    requires Covers(s) && References(w, d, s) == Ok(refs) && k in s.kinds
    ensures KindRef(k.kindId, k.path) in RefsOf(refs)
  {
    DocumentNeeds(s, d.primitiveFiles);
    DocumentRecorded(w, d, s, refs, Need(KindRef(k.kindId, k.path), true));
  }

  lemma GraphOfRef<P>(w: Workspace, d: Decoders<P>, s: Selection, refs: seq<AssetRef>, loopId: string, path: string)
    requires Covers(s) && References(w, d, s) == Ok(refs) && GraphRef(loopId, path) in RefsOf(refs)
    ensures exists g :: g in s.graphs && g.graph.loopId == loopId && g.path == path
  {
    var n := DocumentOf(w, d, s, refs, GraphRef(loopId, path));
    FixedNeedOf(s, d.primitiveFiles, n);
    var g :| g in s.graphs && n.ref.logicalId == "graph_loop:" + g.graph.loopId && n.ref.path == g.path;
    AfterPrefix("graph_loop:", g.graph.loopId, loopId);
  }

  lemma KindOfRef<P>(w: Workspace, d: Decoders<P>, s: Selection, refs: seq<AssetRef>, kindId: string, path: string)
    requires Covers(s) && References(w, d, s) == Ok(refs) && KindRef(kindId, path) in RefsOf(refs)
    ensures exists k :: k in s.kinds && k.kindId == kindId && k.path == path
  {
    var n := DocumentOf(w, d, s, refs, KindRef(kindId, path));
    FixedNeedOf(s, d.primitiveFiles, n);
    var k :| k in s.kinds && n.ref.logicalId == "stage_kind:" + k.kindId && n.ref.path == k.path;
    AfterPrefix("stage_kind:", k.kindId, kindId);
  }

  lemma GraphLocated<P>(w: Workspace, d: Decoders<P>, plane: Plane, loopId: string)
    requires LoadGraph(w, d, plane, loopId).Ok?
    ensures var g := LoadGraph(w, d, plane, loopId).value;
            g.graph.loopId == loopId && LocateGraph(w, d, loopId) == Ok(g.path)
  {}

  lemma KindLocated<P>(w: Workspace, d: Decoders<P>, plane: Plane, kindId: string)
    requires LoadKind(w, d, plane, kindId).Ok?
    ensures var k := LoadKind(w, d, plane, kindId).value;
            k.kindId == kindId && k.kind.plane == plane && LocateKind(w, d, plane, kindId) == Ok(k.path)
  {}

  lemma GraphsLocated<P>(w: Workspace, d: Decoders<P>, loops: seq<(Plane, string)>, graphs: seq<GraphAsset>)
    requires Each(GraphLoader(w, d), loops) == Ok(graphs)
    ensures |graphs| == |loops|
    ensures forall i :: 0 <= i < |loops| ==>
              graphs[i].graph.loopId == loops[i].1 && LocateGraph(w, d, loops[i].1) == Ok(graphs[i].path)
  {
    EachValue(GraphLoader(w, d), loops);
    forall i | 0 <= i < |loops|
      ensures graphs[i].graph.loopId == loops[i].1 && LocateGraph(w, d, loops[i].1) == Ok(graphs[i].path)
    {
      assert GraphLoader(w, d)(loops[i]) == Ok(graphs[i]);
      GraphLocated(w, d, loops[i].0, loops[i].1);
    }
  }

  lemma KindsLocated<P>(w: Workspace, d: Decoders<P>, used: seq<(Plane, string)>, kinds: seq<KindAsset>)
    requires Each(KindLoader(w, d), used) == Ok(kinds)
    ensures |kinds| == |used|
    ensures forall i :: 0 <= i < |used| ==>
              && kinds[i].kindId == used[i].1 && kinds[i].kind.plane == used[i].0
              && LocateKind(w, d, used[i].0, used[i].1) == Ok(kinds[i].path)
  {
    EachValue(KindLoader(w, d), used);
    forall i | 0 <= i < |used|
      ensures kinds[i].kindId == used[i].1 && kinds[i].kind.plane == used[i].0
      ensures LocateKind(w, d, used[i].0, used[i].1) == Ok(kinds[i].path)
    {
      assert KindLoader(w, d)(used[i]) == Ok(kinds[i]);
      KindLocated(w, d, used[i].0, used[i].1);
    }
  }

  lemma {:induction false} UsedKindsDiffer(nodes: seq<(Plane, Node)>)
    ensures forall i, j :: 0 <= i < j < |UsedKinds(nodes)| ==> UsedKinds(nodes)[i].1 != UsedKinds(nodes)[j].1
  {
    if nodes != [] { UsedKindsDiffer(nodes[..|nodes| - 1]); }
  }

  lemma SameGraphPath<P>(v: Workspace, w: Workspace, d: Decoders<P>, s: Selection, t: Selection, refs: seq<AssetRef>,
                         g: GraphAsset)
    requires Covers(s) && Covers(t) && References(v, d, s) == Ok(refs) && References(w, d, t) == Ok(refs)
    requires g in t.graphs
    ensures exists h :: h in s.graphs && h.graph.loopId == g.graph.loopId && h.path == g.path
  {
    GraphRecorded(w, d, t, refs, g);
    GraphOfRef(v, d, s, refs, g.graph.loopId, g.path);
  }

  /** One loop id is loaded from one path. */
  lemma OnePathPerLoop<P>(w: Workspace, d: Decoders<P>, loops: seq<(Plane, string)>, graphs: seq<GraphAsset>, i: nat,
                          h: GraphAsset)
    requires Each(GraphLoader(w, d), loops) == Ok(graphs) && i < |graphs| && h in graphs
    requires h.graph.loopId == graphs[i].graph.loopId
    ensures h.path == graphs[i].path
  {
    GraphsLocated(w, d, loops, graphs);
    var j :| 0 <= j < |graphs| && graphs[j] == h;
    assert loops[j].1 == loops[i].1;
  }

  /** The graphs a later resolution found under the same references lie where they lay. */
  lemma SameGraphPaths<P>(v: Workspace, w: Workspace, d: Decoders<P>, s: Selection, t: Selection, refs: seq<AssetRef>,
                          loops: seq<(Plane, string)>)
    requires Covers(s) && Covers(t) && References(v, d, s) == Ok(refs) && References(w, d, t) == Ok(refs)
    requires Each(GraphLoader(v, d), loops) == Ok(s.graphs) && Each(GraphLoader(w, d), loops) == Ok(t.graphs)
    ensures forall g :: g in s.graphs ==> LocateGraph(w, d, g.graph.loopId) == Ok(g.path)
  {
    GraphsLocated(v, d, loops, s.graphs);
    GraphsLocated(w, d, loops, t.graphs);
    forall i | 0 <= i < |loops| ensures t.graphs[i].path == s.graphs[i].path {
      SameGraphPath(v, w, d, s, t, refs, t.graphs[i]);
      var h :| h in s.graphs && h.graph.loopId == t.graphs[i].graph.loopId && h.path == t.graphs[i].path;
      OnePathPerLoop(v, d, loops, s.graphs, i, h);
    }
  }

  lemma SameKindPath<P>(v: Workspace, w: Workspace, d: Decoders<P>, s: Selection, t: Selection, refs: seq<AssetRef>,
                        k: KindAsset)
    requires Covers(s) && Covers(t) && References(v, d, s) == Ok(refs) && References(w, d, t) == Ok(refs)
    requires k in t.kinds
    ensures exists h :: h in s.kinds && h.kindId == k.kindId && h.path == k.path
  {
    KindRecorded(w, d, t, refs, k);
    KindOfRef(v, d, s, refs, k.kindId, k.path);
  }

  /** Among kinds loaded for distinct ids, one id has one path. */
  lemma OnePathPerKind(used: seq<(Plane, string)>, kinds: seq<KindAsset>, i: nat, h: KindAsset)
    requires i < |kinds| == |used| && h in kinds && h.kindId == used[i].1
    requires forall j, k :: 0 <= j < k < |used| ==> used[j].1 != used[k].1
    requires forall j :: 0 <= j < |used| ==> kinds[j].kindId == used[j].1
    ensures h == kinds[i]
  {
    var j :| 0 <= j < |kinds| && kinds[j] == h;
    assert used[j].1 == used[i].1;
  }

  lemma SameKindPaths<P>(v: Workspace, w: Workspace, d: Decoders<P>, s: Selection, t: Selection, refs: seq<AssetRef>)
    requires Covers(s) && Covers(t) && References(v, d, s) == Ok(refs) && References(w, d, t) == Ok(refs)
    requires t.graphs == s.graphs
    requires Each(KindLoader(v, d), UsedKinds(Nodes(s.graphs))) == Ok(s.kinds)
    requires Each(KindLoader(w, d), UsedKinds(Nodes(s.graphs))) == Ok(t.kinds)
    ensures forall k :: k in s.kinds ==> LocateKind(w, d, k.kind.plane, k.kindId) == Ok(k.path)
  {
    var used := UsedKinds(Nodes(s.graphs));
    KindsLocated(v, d, used, s.kinds);
    KindsLocated(w, d, used, t.kinds);
    UsedKindsDiffer(Nodes(s.graphs));
    forall i | 0 <= i < |used| ensures t.kinds[i].path == s.kinds[i].path {
      SameKindPath(v, w, d, s, t, refs, t.kinds[i]);
      var h :| h in s.kinds && h.kindId == t.kinds[i].kindId && h.path == t.kinds[i].path;
      OnePathPerKind(used, s.kinds, i, h);
    }
  }

  lemma ModeLocated<P>(w: Workspace, d: Decoders<P>, modeId: string, path: string, mode: Mode)
    requires LoadMode(w, d, modeId) == Ok((path, mode))
    ensures LocateMode(w, d, modeId) == Ok(path)
  {}

  /** Selecting again with the same references finds every id where it was. */
  lemma SameReferencesStillLocated<P>(v: Workspace, w: Workspace, d: Decoders<P>, modeId: string, s: Selection,
                                      t: Selection, refs: seq<AssetRef>)
    requires NormalPrimitives(d) && Select(v, d, modeId) == Ok(s) && Select(w, d, modeId) == Ok(t)
    requires References(v, d, s) == Ok(refs) && References(w, d, t) == Ok(refs) && AllAgree(v, w, RefsOf(refs))
    ensures LocateMode(w, d, modeId) == Ok(s.modePath)
    ensures forall g :: g in s.graphs ==> LocateGraph(w, d, g.graph.loopId) == Ok(g.path)
    ensures forall k :: k in s.kinds ==> LocateKind(w, d, k.kind.plane, k.kindId) == Ok(k.path)
  {
    UnchangedReads(v, w, d, modeId, s, refs);
    SelectedParts(v, d, modeId, s);
    SelectedParts(w, d, modeId, t);
    SameModePath(v, w, d, s, t, refs);
    ModeLocated(w, d, modeId, t.modePath, t.mode);
    ModeAgain(v, w, d, modeId, s.modePath, s.mode);
    SameGraphPaths(v, w, d, s, t, refs, SortedLoops(s.mode.loopIds));
    GraphsAgain(v, w, d, SortedLoops(s.mode.loopIds), s.graphs);
    SameKindPaths(v, w, d, s, t, refs);
  }

  /** Main result: when a recorded fingerprint is that of the present inputs, resolving again lists the
      recorded references exactly when every id still resolves to its recorded path. */
  lemma SameReferencesExactly<P>(v: Workspace, w: Workspace, d: Decoders<P>, modeId: string, config: Config,
                                 otherMode: string, other: Config, r: Resolved<P>)
    requires ValidDigests(d) && NormalPrimitives(d) && ResolveMode(v, d, modeId, config) == Ok(r)
    requires Fingerprint(w, d, other, otherMode, r.refs) == Ok(r.fingerprint)
    ensures (ResolveMode(w, d, otherMode, other).Ok? && ResolveMode(w, d, otherMode, other).value.refs == r.refs)
            <==> StillLocated(w, d, r)
  {
    ReuseIsExact(v, w, d, modeId, config, otherMode, other, r);
    var again := ResolveMode(w, d, otherMode, other);
    if again.Ok? && again.value.refs == r.refs {
      ResolvedParts(v, d, modeId, config, r);
      ResolvedParts(w, d, otherMode, other, again.value);
      FingerprintIsExact(v, w, d, config, other, modeId, otherMode, r.refs);
      SameReferencesStillLocated(v, w, d, modeId, r.selection, again.value.selection, r.refs);
    }
  }
}
