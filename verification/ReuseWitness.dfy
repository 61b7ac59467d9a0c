/** A workspace in which a mode is discovered by the id it declares, and a second file that declares it. */
module ReuseWitness {
  import opened Sequences
  import opened Wrappers
  import opened Text
  import opened Normalizers
  import opened AssetPaths
  import opened CompilerContracts
  import opened PlanContracts
  import opened Assets
  import opened AssetReuse

  /** A mode without loops and overrides. */
  const BARE_MODE := Mode("m", map[], map[], map[], map[], map[], map[], [], [], map[], map[], [])

  const FIRST := "modes/a.json"

  const SECOND := "modes/b.json"

  const BEFORE := Workspace(map[FIRST := ""], [FIRST])

  /** Every file decodes to the bare mode and declares its id. */
  function BareDecoders<P>(d: Decoders<P>, primitives: P): Decoders<P> {
    d.(mode := (content: Content) => Some(BARE_MODE),
       declared := (field: string, content: Content) => Some("m"),
       primitiveFiles := [],
       primitives := (contents: seq<Content>, graphs: seq<GraphAsset>) => Some(primitives))
  }

  lemma FirstIsNormal()
    ensures NormalPath(FIRST) == Some(FIRST)
  {
    var parts := ["modes", "a.json"];
    assert parts[1..] == ["a.json"];
    assert JoinParts(parts) == FIRST;
    JoinedIsNormal(parts);
  }

  /** Both files lie in the directory of modes, and neither is the one named after the mode. */
  lemma FilesDiffer()
    ensures InDirectory(FIRST, "modes") && InDirectory(SECOND, "modes") && FIRST != SECOND
    ensures ModeFile("m").value != FIRST && ModeFile("m").value != SECOND
  {
    assert FIRST[6] == 'a' && SECOND[6] == 'b' && ModeFile("m").value[6] == 'm';
  }

  lemma FirstDeclares<P>(d: Decoders<P>, primitives: P)
    ensures Declaring(BEFORE, BareDecoders(d, primitives), "modes", "mode_id", "m", 1) == [FIRST]
  {
    FilesDiffer();
    assert Declaring(BEFORE, BareDecoders(d, primitives), "modes", "mode_id", "m", 0) == [];
  }

  lemma OneFileLocates<P>(w: Workspace, d: Decoders<P>, named: string, dir: string, field: string, id: string,
                            path: string)
    requires named !in w.files && Declaring(w, d, dir, field, id, |w.listed|) == [path]
    requires NormalPath(path) == Some(path)
    ensures Locate(w, d, Some(named), dir, field, id) == Ok(path)
  {}

  lemma FirstIsLocated<P>(d: Decoders<P>, primitives: P)
    ensures LoadMode(BEFORE, BareDecoders(d, primitives), "m") == Ok((FIRST, BARE_MODE))
  {
    FilesDiffer();
    FirstIsNormal();
    FirstDeclares(d, primitives);
    OneFileLocates(BEFORE, BareDecoders(d, primitives), ModeFile("m").value, "modes", "mode_id", "m", FIRST);
  }

  const BARE_SELECTION := Selection(FIRST, BARE_MODE, [], [])

  lemma BareIsSelected<P>(d: Decoders<P>, primitives: P)
    ensures Select(BEFORE, BareDecoders(d, primitives), "m") == Ok(BARE_SELECTION)
  {
    FirstIsLocated(d, primitives);
    assert StageMapsSelected(BARE_MODE, []);
    SelectedParts(BEFORE, BareDecoders(d, primitives), "m", BARE_SELECTION);
  }

  function ModeNeed(): Need { Need(Ref("mode", "mode:" + "m", FIRST), true) }

  function BareRef<P>(d: Decoders<P>): AssetRef { AssetRef("mode", "mode:" + "m", FIRST, d.sha("")) }

  lemma BareNeeds()
    ensures Covers(BARE_SELECTION) && Needs(BARE_SELECTION, []) == Ok([ModeNeed()])
  {
    assert RawPaths(BARE_MODE, map[], []) == ([], [], []);
    assert FixedNeeds(BARE_SELECTION, []) == [ModeNeed()];
    assert [ModeNeed()] + (PathNeeds("entrypoint", [], true)
           + (PathNeeds("skill", [], true) + PathNeeds("skill", [], false))) == [ModeNeed()];
  }

  lemma BareReferences<P>(d: Decoders<P>, primitives: P)
    ensures Covers(BARE_SELECTION)
    ensures References(BEFORE, BareDecoders(d, primitives), BARE_SELECTION) == Ok([BareRef(d)])
  {
    var bare := BareDecoders(d, primitives);
    BareNeeds();
    assert [ModeNeed()][..0] == [] && [BareRef(d)][..0] == [];
    assert Recorded(BEFORE, bare, []) == Ok([]);
    assert Recorded(BEFORE, bare, [ModeNeed()]) == Ok([] + [BareRef(d)]);
    assert DedupeRefs([]) == [];
    assert DedupeRefs([BareRef(d)]) == [] + [BareRef(d)];
  }

  lemma BareFingerprint<P>(d: Decoders<P>, primitives: P, config: Config)
    ensures Fingerprint(BEFORE, BareDecoders(d, primitives), config, "m", [BareRef(d)]).Ok?
  {
    FirstIsNormal();
    FieldsOk(BEFORE, BEFORE, BareDecoders(d, primitives), Sorted(RefsOf([BareRef(d)])));
    forall r | r in Sorted(RefsOf([BareRef(d)])) ensures NormalPath(r.path).Some? {
      SortedElements(RefsOf([BareRef(d)]), r);
    }
  }

  lemma BareResolves<P>(d: Decoders<P>, primitives: P, config: Config) returns (r: Resolved<P>)
    ensures ResolveMode(BEFORE, BareDecoders(d, primitives), "m", config) == Ok(r)
    ensures r.refs == [BareRef(d)]
  {
    var bare := BareDecoders(d, primitives);
    BareIsSelected(d, primitives);
    BareReferences(d, primitives);
    BareFingerprint(d, primitives, config);
    r := Resolved("m", BARE_SELECTION, primitives, [BareRef(d)], config,
                  Fingerprint(BEFORE, bare, config, "m", [BareRef(d)]).value);
    ResolvedParts(BEFORE, bare, "m", config, r);
  }

  /** Main result: whatever the digests, adding the second file keeps the fingerprint of the resolution and
      makes resolving fail. */
  lemma SecondFileDiverges<P>(d: Decoders<P>, primitives: P, config: Config) returns (r: Resolved<P>)
    requires ValidDigests(d)
    ensures var bare, after := BareDecoders(d, primitives), WithFile(BEFORE, SECOND, "");
            && ResolveMode(BEFORE, bare, "m", config) == Ok(r)
            && Fingerprint(after, bare, config, "m", r.refs) == Ok(r.fingerprint)
            && ResolveMode(after, bare, "m", config) == Err(DuplicateAssetId)
  {
    r := BareResolves(d, primitives, config);
    SecondMayBeAdded(d, primitives, r);
    DiscoveredReuseDiverges(BEFORE, BareDecoders(d, primitives), "m", config, r, SECOND, "");
  }

  lemma SecondMayBeAdded<P>(d: Decoders<P>, primitives: P, r: Resolved<P>)
    requires r.refs == [BareRef(d)]
    ensures ModeFile("m").value !in BEFORE.files && ModeFile("m") != Some(SECOND)
    ensures SECOND !in BEFORE.listed && InDirectory(SECOND, "modes")
    ensures forall a :: a in r.refs ==> NormalPath(a.path) != Some(SECOND)
  {
    FilesDiffer();
    FirstIsNormal();
  }
}
