/** When the fingerprint of recorded assets may stand for resolving them again. */
module AssetReuse {
  import opened Sequences
  import opened Wrappers
  import opened Text
  import opened Normalizers
  import opened AssetPaths
  import opened CompilerContracts
  import opened PlanContracts
  import opened Assets

  /** Digests that tell their inputs apart and never look like the token of a missing file. */
  ghost predicate ValidDigests<P>(d: Decoders<P>) {
    && (forall a, b :: d.sha(a) == d.sha(b) ==> a == b)
    && (forall a :: d.sha(a) != MISSING && NUL !in d.sha(a))
    && (forall a, b :: d.assetsDigest(a) == d.assetsDigest(b) ==> a == b)
    && (forall a, b :: d.configDigest(a) == d.configDigest(b) ==> a == b)
  }

  /** A path reads the same in both workspaces. */
  ghost predicate Agree(v: Workspace, w: Workspace, path: string) {
    if path in v.files then path in w.files && w.files[path] == v.files[path] else path !in w.files
  }

  lemma TokensTell<P>(v: Workspace, w: Workspace, d: Decoders<P>, path: string)
    requires ValidDigests(d)
    ensures Token(v, d, path) == Token(w, d, path) <==> Agree(v, w, path)
    ensures NUL !in Token(v, d, path)
  {}

  // ---------------------------------------------------------------- fingerprints compare tokens

  lemma FramedFirst(x: string, y: string, rest: seq<string>, other: seq<string>)
    requires Framed([x] + rest) == Framed([y] + other)
    requires x == y || (NUL !in x && NUL !in y)
    ensures x == y && Framed(rest) == Framed(other)
  {
    assert ([x] + rest)[1..] == rest && ([y] + other)[1..] == other;
    if NUL !in x && NUL !in y {
      SplitOnceAt(x, NUL, Framed(rest));
      SplitOnceAt(y, NUL, Framed(other));
    } else {
      var n := |x + [NUL]|;
      assert (x + [NUL] + Framed(rest))[n..] == Framed(rest);
      assert (x + [NUL] + Framed(other))[n..] == Framed(other);
    }
  }

  lemma OneByOne<T>(a: T, b: T, c: T, x: T, rest: seq<T>)
    ensures [a, b, c, x] + rest == [a] + ([b] + ([c] + ([x] + rest)))
  {}

  lemma FourFields(a: string, b: string, c: string, x: string, y: string, rest: seq<string>, other: seq<string>)
    requires NUL !in x && NUL !in y && Framed([a, b, c, x] + rest) == Framed([a, b, c, y] + other)
    ensures x == y && Framed(rest) == Framed(other)
  {
    OneByOne(a, b, c, x, rest);
    OneByOne(a, b, c, y, other);
    FramedFirst(a, a, [b] + ([c] + ([x] + rest)), [b] + ([c] + ([y] + other)));
    FramedFirst(b, b, [c] + ([x] + rest), [c] + ([y] + other));
    FramedFirst(c, c, [x] + rest, [y] + other);
    FramedFirst(x, y, rest, other);
  }

  /** The files of sorted references read the same. */
  ghost predicate AllAgree(v: Workspace, w: Workspace, refs: seq<Ref>) {
    forall r :: r in refs && NormalPath(r.path).Some? ==> Agree(v, w, NormalPath(r.path).value)
  }

  lemma {:induction false} FieldsOk<P>(v: Workspace, w: Workspace, d: Decoders<P>, sorted: seq<Ref>)
    ensures Fields(v, d, sorted).Ok? <==> Fields(w, d, sorted).Ok?
    ensures Fields(v, d, sorted).Ok? <==> forall r :: r in sorted ==> NormalPath(r.path).Some?
  {
    if sorted != [] {
      FieldsOk(v, w, d, sorted[1..]);
      assert sorted == [sorted[0]] + sorted[1..];
    }
  }

  lemma {:induction false} FieldsCompare<P>(v: Workspace, w: Workspace, d: Decoders<P>, sorted: seq<Ref>)
    requires ValidDigests(d) && Fields(v, d, sorted).Ok? && Fields(w, d, sorted).Ok?
    ensures Framed(Fields(v, d, sorted).value) == Framed(Fields(w, d, sorted).value) <==> AllAgree(v, w, sorted)
  {
    if sorted != [] {
      var r, path := sorted[0], NormalPath(sorted[0].path).value;
      FieldsCompare(v, w, d, sorted[1..]);
      assert sorted == [r] + sorted[1..];
      TokensTell(v, w, d, path);
      TokensTell(w, v, d, path);
      var x, y := Fields(v, d, sorted[1..]).value, Fields(w, d, sorted[1..]).value;
      var head := [r.family, r.logicalId, path, Token(v, d, path)];
      if Framed(Fields(v, d, sorted).value) == Framed(Fields(w, d, sorted).value) {
        FourFields(r.family, r.logicalId, path, Token(v, d, path), Token(w, d, path), x, y);
      } else if AllAgree(v, w, sorted) {
        FramedSame(head, x, y);
      }
    }
  }

  lemma {:induction false} FramedSame(head: seq<string>, x: seq<string>, y: seq<string>)
    requires Framed(x) == Framed(y)
    ensures Framed(head + x) == Framed(head + y)
  {
    if head == [] {
      assert head + x == x && head + y == y;
    } else {
      assert (head + x)[1..] == head[1..] + x && (head + y)[1..] == head[1..] + y;
      FramedSame(head[1..], x, y);
    }
  }

  lemma {:induction false} InsertElements(r: Ref, sorted: seq<Ref>, x: Ref)
    ensures x in Insert(r, sorted) <==> x == r || x in sorted
  {
    if sorted != [] && !Before(r, sorted[0]) {
      InsertElements(r, sorted[1..], x);
      assert sorted == [sorted[0]] + sorted[1..];
    }
  }

  lemma {:induction false} SortedElements(refs: seq<Ref>, x: Ref)
    ensures x in Sorted(refs) <==> x in refs
  {
    if refs != [] {
      InsertElements(refs[0], Sorted(refs[1..]), x);
      SortedElements(refs[1..], x);
      assert refs == [refs[0]] + refs[1..];
    }
  }

  /** Main result: two fingerprints of the same listed assets are equal exactly when the mode, the
      configuration and the content of every listed asset are. */
  lemma FingerprintIsExact<P>(v: Workspace, w: Workspace, d: Decoders<P>, config: Config, other: Config,
                              modeId: string, otherMode: string, refs: seq<AssetRef>)
    requires ValidDigests(d) && Fingerprint(v, d, config, modeId, refs).Ok?
    ensures Fingerprint(w, d, other, otherMode, refs) == Fingerprint(v, d, config, modeId, refs)
            <==> modeId == otherMode && config == other && AllAgree(v, w, RefsOf(refs))
  {
    var sorted := Sorted(RefsOf(refs));
    FieldsOk(v, w, d, sorted);
    FieldsCompare(v, w, d, sorted);
    forall r ensures r in sorted <==> r in RefsOf(refs) { SortedElements(RefsOf(refs), r); }
    assert AllAgree(v, w, sorted) <==> AllAgree(v, w, RefsOf(refs));
  }

  /** Main result: the fingerprint does not depend on the order of the listed assets. */
  lemma FingerprintForgetsOrder<P>(w: Workspace, d: Decoders<P>, a: seq<AssetRef>, b: seq<AssetRef>)
    requires multiset(RefsOf(a)) == multiset(RefsOf(b))
    ensures AssetsFingerprint(w, d, a) == AssetsFingerprint(w, d, b)
  {
    SortingForgetsOrder(RefsOf(a), RefsOf(b));
  }

  // ---------------------------------------------------------------- resolving again

  /** Every id still resolves to the path it was resolved to. */
  ghost predicate StillLocated<P>(w: Workspace, d: Decoders<P>, r: Resolved<P>) {
    && LocateMode(w, d, r.modeId) == Ok(r.selection.modePath)
    && (forall g :: g in r.selection.graphs ==> LocateGraph(w, d, g.graph.loopId) == Ok(g.path))
    && (forall k :: k in r.selection.kinds ==> LocateKind(w, d, k.kind.plane, k.kindId) == Ok(k.path))
  }

  lemma GraphAgain<P>(v: Workspace, w: Workspace, d: Decoders<P>, plane: Plane, loopId: string)
    requires LoadGraph(v, d, plane, loopId).Ok? && Agree(v, w, LoadGraph(v, d, plane, loopId).value.path)
    ensures var g := LoadGraph(v, d, plane, loopId).value;
            && g.graph.loopId == loopId
            && (LoadGraph(w, d, plane, loopId) == Ok(g) <==> LocateGraph(w, d, loopId) == Ok(g.path))
  {}

  lemma KindAgain<P>(v: Workspace, w: Workspace, d: Decoders<P>, plane: Plane, kindId: string)
    requires LoadKind(v, d, plane, kindId).Ok? && Agree(v, w, LoadKind(v, d, plane, kindId).value.path)
    ensures var k := LoadKind(v, d, plane, kindId).value;
            && k.kindId == kindId && k.kind.plane == plane
            && (LoadKind(w, d, plane, kindId) == Ok(k) <==> LocateKind(w, d, plane, kindId) == Ok(k.path))
  {}

  lemma GraphsAgain<P>(v: Workspace, w: Workspace, d: Decoders<P>, loops: seq<(Plane, string)>, graphs: seq<GraphAsset>)
    requires Each(GraphLoader(v, d), loops) == Ok(graphs) && forall g :: g in graphs ==> Agree(v, w, g.path)
    ensures Each(GraphLoader(w, d), loops) == Ok(graphs)
            <==> forall g :: g in graphs ==> LocateGraph(w, d, g.graph.loopId) == Ok(g.path)
  {
    EachAgain(GraphLoader(v, d), GraphLoader(w, d), loops);
    forall i | 0 <= i < |loops|
      ensures GraphLoader(w, d)(loops[i]) == GraphLoader(v, d)(loops[i])
              <==> LocateGraph(w, d, graphs[i].graph.loopId) == Ok(graphs[i].path)
    {
      assert GraphLoader(v, d)(loops[i]) == Ok(graphs[i]) && graphs[i] in graphs;
      GraphAgain(v, w, d, loops[i].0, loops[i].1);
    }
  }

  lemma KindsAgain<P>(v: Workspace, w: Workspace, d: Decoders<P>, used: seq<(Plane, string)>, kinds: seq<KindAsset>)
    requires Each(KindLoader(v, d), used) == Ok(kinds) && forall k :: k in kinds ==> Agree(v, w, k.path)
    ensures Each(KindLoader(w, d), used) == Ok(kinds)
            <==> forall k :: k in kinds ==> LocateKind(w, d, k.kind.plane, k.kindId) == Ok(k.path)
  {
    EachAgain(KindLoader(v, d), KindLoader(w, d), used);
    forall i | 0 <= i < |used|
      ensures KindLoader(w, d)(used[i]) == KindLoader(v, d)(used[i])
              <==> LocateKind(w, d, kinds[i].kind.plane, kinds[i].kindId) == Ok(kinds[i].path)
    {
      assert KindLoader(v, d)(used[i]) == Ok(kinds[i]) && kinds[i] in kinds;
      KindAgain(v, w, d, used[i].0, used[i].1);
    }
  }

  lemma {:induction false} ContentsAgain(v: Workspace, w: Workspace, files: seq<PrimitiveFile>)
    requires Contents(v, files).Ok? && forall f :: f in files ==> Agree(v, w, f.path)
    ensures Contents(w, files) == Contents(v, files)
  {
    if files != [] {
      assert files == [files[0]] + files[1..];
      ContentsAgain(v, w, files[1..]);
    }
  }

  lemma {:induction false} RecordedAgain<P>(v: Workspace, w: Workspace, d: Decoders<P>, needs: seq<Need>)
    requires Recorded(v, d, needs).Ok? && forall n :: n in needs ==> Agree(v, w, n.ref.path)
    ensures Recorded(w, d, needs) == Recorded(v, d, needs)
  {
    if needs != [] {
      var n := |needs| - 1;
      assert needs[n] in needs;
      RecordedAgain(v, w, d, needs[..n]);
    }
  }

  /** Every need is recorded with its present token. */
  lemma {:induction false} NeedsRecorded<P>(w: Workspace, d: Decoders<P>, needs: seq<Need>)
    requires Recorded(w, d, needs).Ok?
    ensures var all := Recorded(w, d, needs).value;
            && |all| == |needs|
            && forall i :: 0 <= i < |needs| ==>
                 && RefOf(all[i]) == needs[i].ref && all[i].token == Token(w, d, all[i].path)
                 && (needs[i].required ==> all[i].path in w.files)
  {
    if needs != [] { NeedsRecorded(w, d, needs[..|needs| - 1]); }
  }

  lemma {:induction false} DedupeKeepsRefs(refs: seq<AssetRef>, r: Ref)
    ensures r in RefsOf(refs) <==> r in RefsOf(DedupeRefs(refs))
    ensures forall a :: a in DedupeRefs(refs) ==> a in refs
  {
    if refs != [] {
      var n := |refs| - 1;
      var earlier, all := DedupeRefs(refs[..n]), DedupeRefs(refs);
      DedupeKeepsRefs(refs[..n], r);
      assert RefsOf(refs) == RefsOf(refs[..n]) + [RefOf(refs[n])];
      if exists i :: 0 <= i < |earlier| && RefOf(earlier[i]) == RefOf(refs[n]) {
        var i :| 0 <= i < |earlier| && RefOf(earlier[i]) == RefOf(refs[n]);
        assert RefsOf(earlier)[i] == RefOf(refs[n]);
      } else {
        assert RefsOf(all) == RefsOf(earlier) + [RefOf(refs[n])];
      }
    }
  }

  lemma SelectedParts<P>(w: Workspace, d: Decoders<P>, modeId: string, s: Selection)
    ensures Select(w, d, modeId) == Ok(s) <==>
              && LoadMode(w, d, modeId) == Ok((s.modePath, s.mode))
              && Each(GraphLoader(w, d), SortedLoops(s.mode.loopIds)) == Ok(s.graphs)
              && Each(KindLoader(w, d), UsedKinds(Nodes(s.graphs))) == Ok(s.kinds)
              && Covers(s) && StageMapsSelected(s.mode, Nodes(s.graphs))
  {}

  /** Selecting again finds the same documents exactly when they are still where they were. */
  lemma SelectAgain<P>(v: Workspace, w: Workspace, d: Decoders<P>, modeId: string, s: Selection)
    requires Select(v, d, modeId) == Ok(s) && Agree(v, w, s.modePath)
    requires forall g :: g in s.graphs ==> Agree(v, w, g.path)
    requires forall k :: k in s.kinds ==> Agree(v, w, k.path)
    ensures Select(w, d, modeId) == Ok(s) <==>
              && LocateMode(w, d, modeId) == Ok(s.modePath)
              && (forall g :: g in s.graphs ==> LocateGraph(w, d, g.graph.loopId) == Ok(g.path))
              && (forall k :: k in s.kinds ==> LocateKind(w, d, k.kind.plane, k.kindId) == Ok(k.path))
  {
    SelectedParts(v, d, modeId, s);
    SelectedParts(w, d, modeId, s);
    ModeAgain(v, w, d, modeId, s.modePath, s.mode);
    GraphsAgain(v, w, d, SortedLoops(s.mode.loopIds), s.graphs);
    KindsAgain(v, w, d, UsedKinds(Nodes(s.graphs)), s.kinds);
  }

  lemma ModeAgain<P>(v: Workspace, w: Workspace, d: Decoders<P>, modeId: string, path: string, mode: Mode)
    requires LoadMode(v, d, modeId) == Ok((path, mode)) && Agree(v, w, path)
    ensures LoadMode(w, d, modeId) == Ok((path, mode)) <==> LocateMode(w, d, modeId) == Ok(path)
  {}

  // ---------------------------------------------------------------- what the references cover

  lemma ReferencesParts<P>(w: Workspace, d: Decoders<P>, s: Selection, refs: seq<AssetRef>, need: Need)
    requires Covers(s) && References(w, d, s) == Ok(refs) && need in Needs(s, d.primitiveFiles).value
    ensures need.ref in RefsOf(refs) && (need.required ==> need.ref.path in w.files)
  {
    var needs := Needs(s, d.primitiveFiles).value;
    NeedsRecorded(w, d, needs);
    var i :| 0 <= i < |needs| && needs[i] == need;
    assert RefsOf(Recorded(w, d, needs).value)[i] == need.ref;
    DedupeKeepsRefs(Recorded(w, d, needs).value, need.ref);
  }

  lemma ReferenceTokens<P>(w: Workspace, d: Decoders<P>, s: Selection, refs: seq<AssetRef>, a: AssetRef)
    requires Covers(s) && References(w, d, s) == Ok(refs) && a in refs
    ensures a.token == Token(w, d, a.path)
    ensures exists n :: n in Needs(s, d.primitiveFiles).value && n.ref == RefOf(a)
  {
    var needs := Needs(s, d.primitiveFiles).value;
    var all := Recorded(w, d, needs).value;
    NeedsRecorded(w, d, needs);
    DedupeKeepsRefs(all, RefOf(a));
    var i :| 0 <= i < |all| && all[i] == a;
    assert needs[i] in needs;
  }

  lemma ReferencesAgain<P>(v: Workspace, w: Workspace, d: Decoders<P>, s: Selection)
    requires Covers(s) && References(v, d, s).Ok?
    requires forall n :: n in Needs(s, d.primitiveFiles).value ==> Agree(v, w, n.ref.path)
    ensures References(w, d, s) == References(v, d, s)
  {
    RecordedAgain(v, w, d, Needs(s, d.primitiveFiles).value);
  }

  lemma FixedAreNeeds(s: Selection, files: seq<PrimitiveFile>)
    requires Covers(s) && Needs(s, files).Ok?
    ensures forall n :: n in FixedNeeds(s, files) ==> n in Needs(s, files).value
  {}

  lemma FixedPaths(s: Selection, files: seq<PrimitiveFile>)
    ensures exists n :: n in FixedNeeds(s, files) && n.ref.path == s.modePath
    ensures forall g :: g in s.graphs ==> exists n :: n in FixedNeeds(s, files) && n.ref.path == g.path
    ensures forall k :: k in s.kinds ==> exists n :: n in FixedNeeds(s, files) && n.ref.path == k.path
    ensures forall f :: f in files ==> exists n :: n in FixedNeeds(s, files) && n.ref.path == f.path
  {
    var all := FixedNeeds(s, files);
    assert all[0].ref.path == s.modePath;
    forall g | g in s.graphs ensures exists n :: n in all && n.ref.path == g.path {
      var i :| 0 <= i < |s.graphs| && s.graphs[i] == g;
      assert all[1 + i] == GraphNeeds(s.graphs)[i];
    }
    forall k | k in s.kinds ensures exists n :: n in all && n.ref.path == k.path {
      var i :| 0 <= i < |s.kinds| && s.kinds[i] == k;
      assert all[1 + |s.graphs| + i] == KindNeeds(s.kinds)[i];
    }
    forall f | f in files ensures exists n :: n in all && n.ref.path == f.path {
      var i :| 0 <= i < |files| && files[i] == f;
      assert all[1 + |s.graphs| + |s.kinds| + i] == PrimitiveNeeds(files)[i];
    }
  }

  // ---------------------------------------------------------------- recorded paths are normal

  lemma {:induction false} DeclaringAreListed<P>(w: Workspace, d: Decoders<P>, dir: string, field: string,
                                                 id: string, count: nat)
    requires count <= |w.listed|
    ensures forall p :: p in Declaring(w, d, dir, field, id, count) ==> InDirectory(p, dir)
  {
    if count > 0 { DeclaringAreListed(w, d, dir, field, id, count - 1); }
  }

  lemma PrefixAndSuffix(path: string, prefix: string, suffix: string)
    requires prefix != "" && suffix != "" && prefix <= path && |suffix| <= |path| && path[|path| - |suffix|..] == suffix
    ensures path[0] == prefix[0] && path[|path| - 1] == suffix[|suffix| - 1]
  {
    assert path[|path| - 1] == path[|path| - |suffix|..][|suffix| - 1];
  }

  lemma ListedLetters(path: string, dir: string)
    requires InDirectory(path, dir) && LetterEnds(dir)
    ensures LetterEnds(path)
  {
    PrefixAndSuffix(path, dir + "/", ".json");
  }

  lemma LocatedIsNormal<P>(w: Workspace, d: Decoders<P>, named: Option<string>, dir: string, field: string, id: string)
    requires LetterEnds(dir) && (named.Some? ==> LetterEnds(named.value)) && Locate(w, d, named, dir, field, id).Ok?
    ensures NormalPath(Locate(w, d, named, dir, field, id).value) == Some(Locate(w, d, named, dir, field, id).value)
  {
    if named.Some? && named.value in w.files {
      LetterPathStays(named.value);
    } else {
      var matches := Declaring(w, d, dir, field, id, |w.listed|);
      DeclaringAreListed(w, d, dir, field, id, |w.listed|);
      assert matches[0] in matches;
      ListedLetters(matches[0], dir);
      LetterPathStays(matches[0]);
    }
  }

  lemma ModeLocatedIsNormal<P>(w: Workspace, d: Decoders<P>, modeId: string)
    requires LocateMode(w, d, modeId).Ok?
    ensures NormalPath(LocateMode(w, d, modeId).value) == Some(LocateMode(w, d, modeId).value)
  {
    FileLetters("modes/" + modeId, "modes/"[0]);
    LocatedIsNormal(w, d, ModeFile(modeId), "modes", "mode_id", modeId);
  }

  lemma FileLetters(stem: string, first: char)
    requires stem != "" && stem[0] == first && IsLetter(first)
    ensures LetterEnds(stem + ".json")
  {
    assert (stem + ".json")[|stem + ".json"| - 1] == ".json"[4];
  }

  lemma GraphLocatedIsNormal<P>(w: Workspace, d: Decoders<P>, loopId: string)
    requires LocateGraph(w, d, loopId).Ok?
    ensures NormalPath(LocateGraph(w, d, loopId).value) == Some(LocateGraph(w, d, loopId).value)
  {
    var split := SplitOnce(loopId, '.');
    if split.Some? { FileLetters("graphs/" + split.value.0 + "/" + split.value.1, "graphs/"[0]); }
    LocatedIsNormal(w, d, GraphFile(loopId), "graphs", "loop_id", loopId);
  }

  lemma KindLocatedIsNormal<P>(w: Workspace, d: Decoders<P>, plane: Plane, kindId: string)
    requires LocateKind(w, d, plane, kindId).Ok?
    ensures NormalPath(LocateKind(w, d, plane, kindId).value) == Some(LocateKind(w, d, plane, kindId).value)
  {
    FileLetters("registry/stage_kinds/" + PlaneName(plane) + "/" + kindId, "registry/stage_kinds/"[0]);
    LocatedIsNormal(w, d, KindFile(plane, kindId), "registry/stage_kinds", "stage_kind_id", kindId);
  }

  lemma MarkdownIsNormal(prefix: string, path: string)
    requires prefix != "" && IsLetter(prefix[0]) && MarkdownAsset(prefix, path).Ok?
    ensures NormalPath(MarkdownAsset(prefix, path).value) == Some(MarkdownAsset(prefix, path).value)
  {
    PrefixAndSuffix(MarkdownAsset(prefix, path).value, prefix, ".md");
    LetterEndsStay(MarkdownAsset(prefix, path).value);
    NormalPathStaysExactly(path);
  }

  lemma {:induction false} MarkdownAreNormal(prefix: string, paths: seq<string>)
    requires prefix != "" && IsLetter(prefix[0]) && MarkdownAssets(prefix, paths).Ok?
    ensures forall p :: p in MarkdownAssets(prefix, paths).value ==> NormalPath(p) == Some(p)
  {
    if paths != [] {
      MarkdownAreNormal(prefix, paths[1..]);
      MarkdownIsNormal(prefix, paths[0]);
    }
  }

  /** The primitive files lie at fixed, normal paths. */
  ghost predicate NormalPrimitives<P>(d: Decoders<P>) {
    forall f :: f in d.primitiveFiles ==> NormalPath(f.path) == Some(f.path)
  }

  /** A normal path with a file behind it. */
  ghost predicate ReadAt(w: Workspace, path: string) { path in w.files && NormalPath(path) == Some(path) }

  lemma GraphReadAt<P>(w: Workspace, d: Decoders<P>, plane: Plane, loopId: string, g: GraphAsset)
    requires LoadGraph(w, d, plane, loopId) == Ok(g)
    ensures ReadAt(w, g.path)
  {
    GraphLocatedIsNormal(w, d, loopId);
  }

  lemma KindReadAt<P>(w: Workspace, d: Decoders<P>, plane: Plane, kindId: string, k: KindAsset)
    requires LoadKind(w, d, plane, kindId) == Ok(k)
    ensures ReadAt(w, k.path)
  {
    KindLocatedIsNormal(w, d, plane, kindId);
  }

  lemma GraphsReadAt<P>(w: Workspace, d: Decoders<P>, loops: seq<(Plane, string)>, graphs: seq<GraphAsset>)
    requires Each(GraphLoader(w, d), loops) == Ok(graphs)
    ensures forall g :: g in graphs ==> ReadAt(w, g.path)
  {
    EachValue(GraphLoader(w, d), loops);
    forall i | 0 <= i < |graphs| ensures ReadAt(w, graphs[i].path) {
      assert GraphLoader(w, d)(loops[i]) == Ok(graphs[i]);
      GraphReadAt(w, d, loops[i].0, loops[i].1, graphs[i]);
    }
  }

  lemma KindsReadAt<P>(w: Workspace, d: Decoders<P>, used: seq<(Plane, string)>, kinds: seq<KindAsset>)
    requires Each(KindLoader(w, d), used) == Ok(kinds)
    ensures forall k :: k in kinds ==> ReadAt(w, k.path)
  {
    EachValue(KindLoader(w, d), used);
    forall i | 0 <= i < |kinds| ensures ReadAt(w, kinds[i].path) {
      assert KindLoader(w, d)(used[i]) == Ok(kinds[i]);
      KindReadAt(w, d, used[i].0, used[i].1, kinds[i]);
    }
  }

  lemma SelectedReadAt<P>(w: Workspace, d: Decoders<P>, modeId: string, s: Selection)
    requires Select(w, d, modeId) == Ok(s)
    ensures ReadAt(w, s.modePath)
    ensures forall g :: g in s.graphs ==> ReadAt(w, g.path)
    ensures forall k :: k in s.kinds ==> ReadAt(w, k.path)
  {
    SelectedParts(w, d, modeId, s);
    ModeLocatedIsNormal(w, d, modeId);
    GraphsReadAt(w, d, SortedLoops(s.mode.loopIds), s.graphs);
    KindsReadAt(w, d, UsedKinds(Nodes(s.graphs)), s.kinds);
  }

  lemma PathNeedsAreNormal(family: string, paths: seq<string>, required: bool)
    requires forall p :: p in paths ==> NormalPath(p) == Some(p)
    ensures forall n :: n in PathNeeds(family, paths, required) ==> NormalPath(n.ref.path) == Some(n.ref.path)
  {
    forall n | n in PathNeeds(family, paths, required) ensures NormalPath(n.ref.path) == Some(n.ref.path) {
      var i :| 0 <= i < |paths| && PathNeeds(family, paths, required)[i] == n;
      assert paths[i] in paths;
    }
  }

  lemma FixedNeedsAreNormal(s: Selection, files: seq<PrimitiveFile>)
    requires NormalPath(s.modePath) == Some(s.modePath)
    requires forall g :: g in s.graphs ==> NormalPath(g.path) == Some(g.path)
    requires forall k :: k in s.kinds ==> NormalPath(k.path) == Some(k.path)
    requires forall f :: f in files ==> NormalPath(f.path) == Some(f.path)
    ensures forall n :: n in FixedNeeds(s, files) ==> NormalPath(n.ref.path) == Some(n.ref.path)
  {
    forall n | n in GraphNeeds(s.graphs) ensures NormalPath(n.ref.path) == Some(n.ref.path) {
      var i :| 0 <= i < |s.graphs| && GraphNeeds(s.graphs)[i] == n;
      assert s.graphs[i] in s.graphs;
    }
    forall n | n in KindNeeds(s.kinds) ensures NormalPath(n.ref.path) == Some(n.ref.path) {
      var i :| 0 <= i < |s.kinds| && KindNeeds(s.kinds)[i] == n;
      assert s.kinds[i] in s.kinds;
    }
    forall n | n in PrimitiveNeeds(files) ensures NormalPath(n.ref.path) == Some(n.ref.path) {
      var i :| 0 <= i < |files| && PrimitiveNeeds(files)[i] == n;
      assert files[i] in files;
    }
  }

  lemma MarkdownNeedsAreNormal(prefix: string, raw: seq<string>, family: string, required: bool)
    requires prefix != "" && IsLetter(prefix[0]) && MarkdownAssets(prefix, raw).Ok?
    ensures forall n :: n in PathNeeds(family, Dedupe(MarkdownAssets(prefix, raw).value), required) ==>
              NormalPath(n.ref.path) == Some(n.ref.path)
  {
    MarkdownAreNormal(prefix, raw);
    DedupeKeeps(MarkdownAssets(prefix, raw).value);
    PathNeedsAreNormal(family, Dedupe(MarkdownAssets(prefix, raw).value), required);
  }

  lemma NeedsAreNormal<P>(w: Workspace, d: Decoders<P>, modeId: string, s: Selection)
    requires NormalPrimitives(d) && Select(w, d, modeId) == Ok(s) && Needs(s, d.primitiveFiles).Ok?
    ensures forall n :: n in Needs(s, d.primitiveFiles).value ==> NormalPath(n.ref.path) == Some(n.ref.path)
  {
    SelectedReadAt(w, d, modeId, s);
    FixedNeedsAreNormal(s, d.primitiveFiles);
    var (entrypoints, required, attached) := RawPaths(s.mode, KindMap(s.kinds), Nodes(s.graphs));
    MarkdownNeedsAreNormal(ENTRYPOINTS, entrypoints, "entrypoint", true);
    MarkdownNeedsAreNormal(SKILLS, required, "skill", true);
    MarkdownNeedsAreNormal(SKILLS, attached, "skill", false);
  }

  // ---------------------------------------------------------------- the cache

  /** A resolution, part by part. */
  ghost predicate IsResolution<P>(w: Workspace, d: Decoders<P>, modeId: string, config: Config, r: Resolved<P>) {
    && Select(w, d, modeId) == Ok(r.selection) && r.modeId == modeId && r.config == config
    && LoadPrimitives(w, d, r.selection.graphs) == Ok(r.primitives)
    && References(w, d, r.selection) == Ok(r.refs)
    && Fingerprint(w, d, config, modeId, r.refs) == Ok(r.fingerprint)
  }

  lemma ResolvedIs<P>(w: Workspace, d: Decoders<P>, modeId: string, config: Config, r: Resolved<P>)
    requires ResolveMode(w, d, modeId, config) == Ok(r)
    ensures IsResolution(w, d, modeId, config, r)
  {}

  lemma IsResolved<P>(w: Workspace, d: Decoders<P>, modeId: string, config: Config, r: Resolved<P>)
    requires IsResolution(w, d, modeId, config, r)
    ensures ResolveMode(w, d, modeId, config) == Ok(r)
  {}

  lemma ResolvedParts<P>(w: Workspace, d: Decoders<P>, modeId: string, config: Config, r: Resolved<P>)
    ensures ResolveMode(w, d, modeId, config) == Ok(r) <==> IsResolution(w, d, modeId, config, r)
  {
    if ResolveMode(w, d, modeId, config) == Ok(r) { ResolvedIs(w, d, modeId, config, r); }
    if IsResolution(w, d, modeId, config, r) { IsResolved(w, d, modeId, config, r); }
  }

  /** When the fingerprint is unchanged, everything a resolution read reads the same. */
  lemma UnchangedReads<P>(v: Workspace, w: Workspace, d: Decoders<P>, modeId: string, s: Selection, refs: seq<AssetRef>)
    requires NormalPrimitives(d) && Select(v, d, modeId) == Ok(s) && References(v, d, s) == Ok(refs)
    requires AllAgree(v, w, RefsOf(refs))
    ensures forall n :: n in Needs(s, d.primitiveFiles).value ==> Agree(v, w, n.ref.path)
    ensures Agree(v, w, s.modePath)
    ensures forall g :: g in s.graphs ==> Agree(v, w, g.path)
    ensures forall k :: k in s.kinds ==> Agree(v, w, k.path)
    ensures forall f :: f in d.primitiveFiles ==> Agree(v, w, f.path)
  {
    NeedsAreNormal(v, d, modeId, s);
    forall n | n in Needs(s, d.primitiveFiles).value ensures Agree(v, w, n.ref.path) {
      ReferencesParts(v, d, s, refs, n);
    }
    FixedAreNeeds(s, d.primitiveFiles);
    FixedPaths(s, d.primitiveFiles);
  }

  /** Main result: when a recorded resolution's fingerprint is that of the present workspace, mode and
      configuration, resolving again yields the very same result exactly when every id still resolves to
      the path recorded for it. */
  lemma ReuseIsExact<P>(v: Workspace, w: Workspace, d: Decoders<P>, modeId: string, config: Config, otherMode: string,
                        other: Config, r: Resolved<P>)
    requires ValidDigests(d) && NormalPrimitives(d) && ResolveMode(v, d, modeId, config) == Ok(r)
    requires Fingerprint(w, d, other, otherMode, r.refs) == Ok(r.fingerprint)
    ensures ResolveMode(w, d, otherMode, other) == Ok(r) <==> StillLocated(w, d, r)
  {
    ResolvedParts(v, d, modeId, config, r);
    FingerprintIsExact(v, w, d, config, other, modeId, otherMode, r.refs);
    UnchangedReads(v, w, d, modeId, r.selection, r.refs);
    SelectAgain(v, w, d, modeId, r.selection);
    ContentsAgain(v, w, d.primitiveFiles);
    ReferencesAgain(v, w, d, r.selection);
    ResolvedParts(w, d, modeId, config, r);
  }

  /** Every id was resolved to its named file. */
  ghost predicate Named<P>(r: Resolved<P>) {
    && ModeFile(r.modeId) == Some(r.selection.modePath)
    && (forall g :: g in r.selection.graphs ==> GraphFile(g.graph.loopId) == Some(g.path))
    && (forall k :: k in r.selection.kinds ==> KindFile(k.kind.plane, k.kindId) == Some(k.path))
  }

  lemma NamedStaysLocated<P>(w: Workspace, d: Decoders<P>, path: string, dir: string, field: string, id: string)
    requires path in w.files && NormalPath(path) == Some(path)
    ensures Locate(w, d, Some(path), dir, field, id) == Ok(path)
  {}

  /** Main result: reuse is sound when every id resolved to its named file. */
  lemma NamedReuseIsSound<P>(v: Workspace, w: Workspace, d: Decoders<P>, modeId: string, config: Config,
                             otherMode: string, other: Config, r: Resolved<P>)
    requires ValidDigests(d) && NormalPrimitives(d) && ResolveMode(v, d, modeId, config) == Ok(r) && Named(r)
    requires Fingerprint(w, d, other, otherMode, r.refs) == Ok(r.fingerprint)
    ensures ResolveMode(w, d, otherMode, other) == Ok(r)
  {
    ReuseIsExact(v, w, d, modeId, config, otherMode, other, r);
    ResolvedParts(v, d, modeId, config, r);
    FingerprintIsExact(v, w, d, config, other, modeId, otherMode, r.refs);
    UnchangedReads(v, w, d, modeId, r.selection, r.refs);
    SelectedReadAt(v, d, modeId, r.selection);
    NamedStaysLocated(w, d, r.selection.modePath, "modes", "mode_id", modeId);
    forall g | g in r.selection.graphs ensures LocateGraph(w, d, g.graph.loopId) == Ok(g.path) {
      NamedStaysLocated(w, d, g.path, "graphs", "loop_id", g.graph.loopId);
    }
    forall k | k in r.selection.kinds ensures LocateKind(w, d, k.kind.plane, k.kindId) == Ok(k.path) {
      NamedStaysLocated(w, d, k.path, "registry/stage_kinds", "stage_kind_id", k.kindId);
    }
  }

  /** The workspace with one more listed file. */
  function WithFile(w: Workspace, path: string, content: Content): Workspace {
    Workspace(w.files[path := content], w.listed + [path])
  }

  lemma {:induction false} DeclaringBefore<P>(w: Workspace, d: Decoders<P>, path: string, content: Content, dir: string,
                                              field: string, id: string, count: nat)
    requires count <= |w.listed| && path !in w.listed
    ensures Declaring(WithFile(w, path, content), d, dir, field, id, count) == Declaring(w, d, dir, field, id, count)
  {
    if count > 0 { DeclaringBefore(w, d, path, content, dir, field, id, count - 1); }
  }

  /** An id whose named file is absent is located by the one listed file that declares it. */
  lemma LocatedByDeclaration<P>(w: Workspace, d: Decoders<P>, named: string, dir: string, field: string, id: string)
    requires named !in w.files
    ensures Locate(w, d, Some(named), dir, field, id).Ok? ==> |Declaring(w, d, dir, field, id, |w.listed|)| == 1
    ensures |Declaring(w, d, dir, field, id, |w.listed|)| > 1 ==>
              Locate(w, d, Some(named), dir, field, id) == Err(DuplicateAssetId)
  {}

  lemma DeclaringOneMore<P>(w: Workspace, d: Decoders<P>, path: string, content: Content, dir: string, field: string,
                            id: string)
    requires path !in w.listed && InDirectory(path, dir) && d.declared(field, content) == Some(id)
    ensures var after := WithFile(w, path, content);
            Declaring(after, d, dir, field, id, |after.listed|) == Declaring(w, d, dir, field, id, |w.listed|) + [path]
  {
    DeclaringBefore(w, d, path, content, dir, field, id, |w.listed|);
    assert WithFile(w, path, content).listed[|w.listed|] == path;
  }

  lemma DuplicateIsRejected<P>(w: Workspace, d: Decoders<P>, path: string, content: Content, modeId: string)
    requires LocateMode(w, d, modeId).Ok? && ModeFile(modeId).value !in w.files && ModeFile(modeId) != Some(path)
    requires path !in w.listed && InDirectory(path, "modes") && d.declared("mode_id", content) == Some(modeId)
    ensures LocateMode(WithFile(w, path, content), d, modeId) == Err(DuplicateAssetId)
  {
    var named := ModeFile(modeId).value;
    LocatedByDeclaration(w, d, named, "modes", "mode_id", modeId);
    DeclaringOneMore(w, d, path, content, "modes", "mode_id", modeId);
    LocatedByDeclaration(WithFile(w, path, content), d, named, "modes", "mode_id", modeId);
  }

  /** Where the condition fails: when the mode was found by the id it declares, a second file declaring
      that id leaves the fingerprint, and so the cached plan, in force, though compiling again fails. */
  lemma DiscoveredReuseDiverges<P>(w: Workspace, d: Decoders<P>, modeId: string, config: Config, r: Resolved<P>,
                                   path: string, content: Content)
    requires ValidDigests(d) && NormalPrimitives(d) && ResolveMode(w, d, modeId, config) == Ok(r)
    requires ModeFile(modeId).value !in w.files && ModeFile(modeId) != Some(path)
    requires path !in w.listed && InDirectory(path, "modes") && d.declared("mode_id", content) == Some(modeId)
    requires forall a :: a in r.refs ==> NormalPath(a.path) != Some(path)
    ensures Fingerprint(WithFile(w, path, content), d, config, modeId, r.refs) == Ok(r.fingerprint)
    ensures ResolveMode(WithFile(w, path, content), d, modeId, config) == Err(DuplicateAssetId)
  {
    ResolvedParts(w, d, modeId, config, r);
    SelectedParts(w, d, modeId, r.selection);
    DuplicateIsRejected(w, d, path, content, modeId);
    var v := WithFile(w, path, content);
    forall x | x in RefsOf(r.refs) && NormalPath(x.path).Some? ensures Agree(w, v, NormalPath(x.path).value) {
      var i :| 0 <= i < |r.refs| && RefsOf(r.refs)[i] == x;
      assert r.refs[i] in r.refs;
    }
    FingerprintIsExact(w, v, d, config, config, modeId, modeId, r.refs);
  }
}
