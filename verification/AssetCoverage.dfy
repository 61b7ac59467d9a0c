/** Every document frozen into a plan is among its resolved assets: the override chains of
    src/compiler/assets.rs and src/compiler/materialization.rs agree. */
module AssetCoverage {
  import opened Sequences
  import opened Wrappers
  import opened Text
  import opened Normalizers
  import opened AssetPaths
  import opened CompilerContracts
  import opened PlanContracts
  import opened Assets
  import opened AssetReuse
  import opened Materialization
  import opened NodeInvariants
  import opened RunPlans
  import CapabilityGrants

  /** The normalised path is a recorded asset of the family. */
  ghost predicate Covered(refs: seq<AssetRef>, family: string, path: string) {
    match NormalPath(path)
    case Some(normal) => Ref(family, family + ":" + normal, normal) in RefsOf(refs)
    case None => false
  }

  ghost predicate AllCovered(refs: seq<AssetRef>, family: string, paths: seq<string>) {
    forall p :: p in paths ==> Covered(refs, family, p)
  }

  ghost predicate NodeCovered(refs: seq<AssetRef>, n: MaterializedNode) {
    && Covered(refs, "entrypoint", n.entrypointPath)
    && AllCovered(refs, "skill", n.requiredSkills) && AllCovered(refs, "skill", n.attachedSkills)
  }

  ghost predicate NodesCovered(refs: seq<AssetRef>, nodes: seq<MaterializedNode>) {
    forall i :: 0 <= i < |nodes| ==> NodeCovered(refs, nodes[i])
  }

  lemma {:induction false} RawPathsOf(mode: Mode, kinds: map<string, StageKind>, nodes: seq<(Plane, Node)>, i: nat)
    requires KindsKnown(nodes, kinds) && i < |nodes|
    ensures var node := nodes[i].1; var kind := kinds[node.stageKindId];
            var (entrypoints, required, attached) := RawPaths(mode, kinds, nodes);
            && EntrypointOf(mode, kind, node) in entrypoints
            && (forall s :: s in kind.details.requiredSkills ==> s in required)
            && (forall s :: s in SkillsOf(mode, node) ==> s in attached)
  {
    if i > 0 { RawPathsOf(mode, kinds, nodes[1..], i - 1); }
  }

  lemma {:induction false} MarkdownAmong(prefix: string, paths: seq<string>, path: string)
    requires MarkdownAssets(prefix, paths).Ok? && path in paths
    ensures NormalPath(path).Some? && NormalPath(path).value in MarkdownAssets(prefix, paths).value
  {
    if path != paths[0] {
      assert paths == [paths[0]] + paths[1..];
      MarkdownAmong(prefix, paths[1..], path);
    }
  }

  lemma PathNeeded(prefix: string, family: string, paths: seq<string>, required: bool, path: string)
    requires MarkdownAssets(prefix, paths).Ok? && path in paths
    ensures NormalPath(path).Some?
    ensures var normal := NormalPath(path).value;
            Need(Ref(family, family + ":" + normal, normal), required)
              in PathNeeds(family, Dedupe(MarkdownAssets(prefix, paths).value), required)
  {
    MarkdownAmong(prefix, paths, path);
    var all := Dedupe(MarkdownAssets(prefix, paths).value);
    DedupeKeeps(MarkdownAssets(prefix, paths).value);
    var i :| 0 <= i < |all| && all[i] == NormalPath(path).value;
    assert PathNeeds(family, all, required)[i].ref.path == NormalPath(path).value;
  }

  lemma {:induction false} NodeAmong(graphs: seq<GraphAsset>, g: GraphAsset, n: Node) returns (i: nat)
    requires g in graphs && n in g.graph.nodes
    ensures i < |Nodes(graphs)| && Nodes(graphs)[i] == (g.plane, n)
  {
    if g == graphs[0] {
      i :| 0 <= i < |g.graph.nodes| && g.graph.nodes[i] == n;
    } else {
      assert graphs == [graphs[0]] + graphs[1..];
      var j := NodeAmong(graphs[1..], g, n);
      i := |graphs[0].graph.nodes| + j;
    }
  }

  lemma PathRecorded<P>(w: Workspace, d: Decoders<P>, s: Selection, refs: seq<AssetRef>, prefix: string, family: string,
                        paths: seq<string>, required: bool, path: string)
    requires Covers(s) && References(w, d, s) == Ok(refs) && MarkdownAssets(prefix, paths).Ok? && path in paths
    requires forall n :: n in PathNeeds(family, Dedupe(MarkdownAssets(prefix, paths).value), required) ==>
               n in Needs(s, d.primitiveFiles).value
    ensures Covered(refs, family, path)
  {
    PathNeeded(prefix, family, paths, required, path);
    var normal := NormalPath(path).value;
    ReferencesParts(w, d, s, refs, Need(Ref(family, family + ":" + normal, normal), required));
  }

  /** What a node asks for, as it is written, is recorded. */
  lemma SelectedCovered<P>(w: Workspace, d: Decoders<P>, s: Selection, refs: seq<AssetRef>, g: GraphAsset, n: Node)
    requires Covers(s) && References(w, d, s) == Ok(refs) && g in s.graphs && n in g.graph.nodes
    ensures n.stageKindId in KindMap(s.kinds)
    ensures Covered(refs, "entrypoint", EntrypointOf(s.mode, KindMap(s.kinds)[n.stageKindId], n))
    ensures AllCovered(refs, "skill", KindMap(s.kinds)[n.stageKindId].details.requiredSkills)
    ensures AllCovered(refs, "skill", SkillsOf(s.mode, n))
  {
    var i := NodeAmong(s.graphs, g, n);
    var kinds := KindMap(s.kinds);
    RawPathsOf(s.mode, kinds, Nodes(s.graphs), i);
    var (entrypoints, required, attached) := RawPaths(s.mode, kinds, Nodes(s.graphs));
    PathRecorded(w, d, s, refs, ENTRYPOINTS, "entrypoint", entrypoints, true,
                 EntrypointOf(s.mode, kinds[n.stageKindId], n));
    forall x | x in kinds[n.stageKindId].details.requiredSkills ensures Covered(refs, "skill", x) {
      PathRecorded(w, d, s, refs, SKILLS, "skill", required, true, x);
    }
    forall x | x in SkillsOf(s.mode, n) ensures Covered(refs, "skill", x) {
      PathRecorded(w, d, s, refs, SKILLS, "skill", attached, false, x);
    }
  }

  lemma {:induction false} PushedAre(values: seq<string>, more: seq<string>)
    ensures forall x :: x in PushUnique(values, more) ==> x in values || x in more
  {
    if more != [] { PushedAre(values, more[..|more| - 1]); }
  }

  lemma LayeredCovered<P>(w: Workspace, d: Decoders<P>, s: Selection, refs: seq<AssetRef>, g: GraphAsset, n: Node,
                          config: Config, grants: seq<CapabilityGrants.Grant>)
    requires Covers(s) && References(w, d, s) == Ok(refs) && g in s.graphs && n in g.graph.nodes
    ensures n.stageKindId in KindMap(s.kinds)
    ensures NodeCovered(refs, LayeredNode(n, g.plane, s.mode, config, KindMap(s.kinds)[n.stageKindId], grants))
  {
    SelectedCovered(w, d, s, refs, g, n);
    PushedAre(n.attachedSkills, StageEntry(s.mode.skills, n));
  }

  // ---------------------------------------------------------------- validation keeps coverage

  lemma NormalisedPath(prefix: string, path: string)
    requires prefix != "" && IsLetter(prefix[0]) && CheckedPath(prefix, path).Ok?
    ensures NormalPath(CheckedPath(prefix, path).value) == NormalPath(path)
  {
    var normal := CheckedPath(prefix, path).value;
    PrefixAndSuffix(normal, prefix, ".md");
    LetterEndsStay(normal);
    assert ForwardSlashes(normal) == normal;
  }

  lemma NormalisedList(refs: seq<AssetRef>, paths: seq<string>)
    requires AllCovered(refs, "skill", paths) && EachOnce(MarkdownPath(SKILLS), paths).Ok?
    ensures AllCovered(refs, "skill", EachOnce(MarkdownPath(SKILLS), paths).value)
  {
    var each := Each(MarkdownPath(SKILLS), paths).value;
    EachValue(MarkdownPath(SKILLS), paths);
    DedupeKeeps(each);
    forall x | x in each ensures Covered(refs, "skill", x) {
      var i :| 0 <= i < |each| && each[i] == x;
      assert paths[i] in paths && MarkdownPath(SKILLS)(paths[i]) == CheckedPath(SKILLS, paths[i]) == Ok(x);
      NormalisedPath(SKILLS, paths[i]);
    }
  }

  lemma ValidationCovers(t: Tokens, c: ClassesRule, refs: seq<AssetRef>, n: MaterializedNode, normal: MaterializedNode)
    requires t.entrypoint == MarkdownPath(ENTRYPOINTS) && t.skill == MarkdownPath(SKILLS)
    requires NodeCovered(refs, n) && NormalMaterialized(t, c, n) == Ok(normal)
    ensures NodeCovered(refs, normal)
  {
    MaterializedParts(t, c, n);
    NormalisedPath(ENTRYPOINTS, n.entrypointPath);
    NormalisedList(refs, n.requiredSkills);
    NormalisedList(refs, n.attachedSkills);
  }

  // ---------------------------------------------------------------- from graphs to the plan

  lemma NodePlanCovered<P>(w: Workspace, d: Decoders<P>, s: Selection, refs: seq<AssetRef>, g: GraphAsset, n: Node,
                           t: Tokens, c: ClassesRule, config: Config, m: MaterializedNode)
    requires t.entrypoint == MarkdownPath(ENTRYPOINTS) && t.skill == MarkdownPath(SKILLS)
    requires Covers(s) && References(w, d, s) == Ok(refs) && g in s.graphs && n in g.graph.nodes
    requires NodePlan(t, c, n, g.graph.plane, s.mode, config, KindMap(s.kinds)) == Ok(m)
    ensures NodeCovered(refs, m)
  {
    var kind := KindMap(s.kinds)[n.stageKindId];
    var runner := Layered(n.runnerName, StageConfigOf(config, n).runner, s.mode.runners, n);
    var sources := GrantSources(s.mode, kind, n, runner);
    var grants := CapabilityGrants.CompiledGrants(n.nodeId, sources, config.capabilities).value;
    LayeredCovered(w, d, s, refs, g, n, config, grants);
    ValidationCovers(t, c, refs, LayeredNode(n, g.graph.plane, s.mode, config, kind, grants), m);
  }

  ghost function Covering(refs: seq<AssetRef>): MaterializedNode -> bool {
    (n: MaterializedNode) => NodeCovered(refs, n)
  }

  lemma CoverageSurvives(t: Tokens, c: ClassesRule, refs: seq<AssetRef>)
    requires t.entrypoint == MarkdownPath(ENTRYPOINTS) && t.skill == MarkdownPath(SKILLS)
    ensures SurvivesValidation(t, c, Covering(refs)) && SurvivesAuthority(Covering(refs))
  {
    forall n | Covering(refs)(n) && NormalMaterialized(t, c, n).Ok?
      ensures Covering(refs)(NormalMaterialized(t, c, n).value)
    {
      ValidationCovers(t, c, refs, n, NormalMaterialized(t, c, n).value);
    }
  }

  lemma CoveredWhenMade<P>(w: Workspace, d: Decoders<P>, e: Env, s: Selection, refs: seq<AssetRef>, config: Config,
                           g: GraphAsset)
    requires e.t.entrypoint == MarkdownPath(ENTRYPOINTS) && e.t.skill == MarkdownPath(SKILLS)
    requires Covers(s) && References(w, d, s) == Ok(refs) && g in s.graphs
    ensures HoldsWhenMade(e, s, config, g, Covering(refs))
  {
    forall n | n in g.graph.nodes && NodePlan(e.t, e.c, n, g.graph.plane, s.mode, config, KindMap(s.kinds)).Ok?
      ensures Covering(refs)(NodePlan(e.t, e.c, n, g.graph.plane, s.mode, config, KindMap(s.kinds)).value)
    {
      NodePlanCovered(w, d, s, refs, g, n, e.t, e.c, config,
                      NodePlan(e.t, e.c, n, g.graph.plane, s.mode, config, KindMap(s.kinds)).value);
    }
  }

  /** Main result: every entrypoint and every required or attached skill frozen into a node of a compiled
      plan is, once its path is normalised, among the assets whose content decides the fingerprint. */
  lemma FrozenPathsAreCovered(w: Workspace, d: Decoders<Primitives>, modeId: string, config: Config,
                              r: Resolved<Primitives>, e: Env, time: string, p: RunPlan<Extras>)
    requires e.t.entrypoint == MarkdownPath(ENTRYPOINTS) && e.t.skill == MarkdownPath(SKILLS)
    requires ResolveMode(w, d, modeId, config) == Ok(r) && Materialize(e, r, time) == Ok(p)
    ensures forall plane :: plane in p.graphs ==> NodesCovered(p.assets, p.graphs[plane].nodes)
  {
    ResolvedParts(w, d, modeId, config, r);
    forall g | g in r.selection.graphs ensures HoldsWhenMade(e, r.selection, r.config, g, Covering(r.refs)) {
      CoveredWhenMade(w, d, e, r.selection, r.refs, r.config, g);
    }
    CoverageSurvives(e.t, e.c, r.refs);
    var _ := PlanKeepsGraphs(e, r, time, p);
    PlanNodes(e, r, time, p, Covering(r.refs));
    forall plane | plane in p.graphs ensures NodesCovered(p.assets, p.graphs[plane].nodes) {
      assert AllNodes(Covering(r.refs), p.graphs[plane].nodes);
    }
  }
}
