/** What holds of every node plan when it is made and survives validation and authority holds of every
    node of a compiled plan. */
module NodeInvariants {
  import opened Sequences
  import opened Wrappers
  import opened Normalizers
  import opened CompilerContracts
  import opened PlanContracts
  import opened Assets
  import opened Materialization
  import opened RunPlans

  ghost predicate AllNodes(holds: MaterializedNode -> bool, nodes: seq<MaterializedNode>) {
    forall i :: 0 <= i < |nodes| ==> holds(nodes[i])
  }

  ghost predicate SurvivesValidation(t: Tokens, c: ClassesRule, holds: MaterializedNode -> bool) {
    forall n :: holds(n) && NormalMaterialized(t, c, n).Ok? ==> holds(NormalMaterialized(t, c, n).value)
  }

  ghost predicate SurvivesAuthority(holds: MaterializedNode -> bool) {
    forall p, f, n :: holds(n) ==> holds(Empowered(p, f, n))
  }

  /** Holds of the plan of every node of a graph. */
  ghost predicate HoldsWhenMade(e: Env, s: Selection, config: Config, g: GraphAsset, holds: MaterializedNode -> bool) {
    forall n :: n in g.graph.nodes && NodePlan(e.t, e.c, n, g.graph.plane, s.mode, config, KindMap(s.kinds)).Ok? ==>
      holds(NodePlan(e.t, e.c, n, g.graph.plane, s.mode, config, KindMap(s.kinds)).value)
  }

  lemma ValidatedNodes(t: Tokens, c: ClassesRule, holds: MaterializedNode -> bool, f: FrozenGraph, normal: FrozenGraph)
    requires SurvivesValidation(t, c, holds) && AllNodes(holds, f.nodes) && NormalFrozen(t, c, f) == Ok(normal)
    ensures AllNodes(holds, normal.nodes)
  {
    FrozenFlow(FrozenRulesOf(t, c), f, normal);
    EachValue(MaterializedRule(t, c), f.nodes);
    forall i | 0 <= i < |normal.nodes| ensures holds(normal.nodes[i]) {
      assert MaterializedRule(t, c)(f.nodes[i]) == NormalMaterialized(t, c, f.nodes[i]) == Ok(normal.nodes[i]);
    }
  }

  lemma MadeNodes(e: Env, s: Selection, config: Config, g: GraphAsset, holds: MaterializedNode -> bool,
                  nodes: seq<MaterializedNode>)
    requires HoldsWhenMade(e, s, config, g, holds)
    requires Each(NodePlanner(e.t, e.c, g.graph.plane, s.mode, config, KindMap(s.kinds)), g.graph.nodes) == Ok(nodes)
    ensures AllNodes(holds, nodes)
  {
    var planner := NodePlanner(e.t, e.c, g.graph.plane, s.mode, config, KindMap(s.kinds));
    EachValue(planner, g.graph.nodes);
    forall i | 0 <= i < |nodes| ensures holds(nodes[i]) {
      assert planner(g.graph.nodes[i]) == Ok(nodes[i]) && g.graph.nodes[i] in g.graph.nodes;
    }
  }

  lemma GraphPlanNodes(e: Env, s: Selection, config: Config, g: GraphAsset, holds: MaterializedNode -> bool,
                       f: FrozenGraph)
    requires SurvivesValidation(e.t, e.c, holds) && HoldsWhenMade(e, s, config, g, holds)
    requires GraphPlan(e.t, e.c, g.graph, s.mode, config, KindMap(s.kinds)) == Ok(f)
    ensures AllNodes(holds, f.nodes)
  {
    var nodes, before := GraphPlanParts(e.t, e.c, g.graph, s.mode, config, KindMap(s.kinds), f);
    MadeNodes(e, s, config, g, holds, nodes);
    ValidatedNodes(e.t, e.c, holds, before, f);
  }

  lemma AuthorityNodes(e: Env, p: Primitives, frozen: FrozenGraph, holds: MaterializedNode -> bool, f: FrozenGraph)
    requires SurvivesValidation(e.t, e.c, holds) && SurvivesAuthority(holds) && AllNodes(holds, frozen.nodes)
    requires WithAuthority(e, p, frozen) == Ok(f)
    ensures AllNodes(holds, f.nodes)
  {
    ValidatedNodes(e.t, e.c, holds, frozen.(nodes := EmpoweredNodes(p, frozen)), f);
  }

  lemma PlannedGraphNodes(e: Env, s: Selection, p: Primitives, config: Config, g: GraphAsset,
                          holds: MaterializedNode -> bool, f: FrozenGraph)
    requires SurvivesValidation(e.t, e.c, holds) && SurvivesAuthority(holds) && HoldsWhenMade(e, s, config, g, holds)
    requires PlannedGraph(e, s, p, config, g) == Ok(f)
    ensures AllNodes(holds, f.nodes)
  {
    var frozen := GraphPlan(e.t, e.c, g.graph, s.mode, config, KindMap(s.kinds)).value;
    GraphPlanNodes(e, s, config, g, holds, frozen);
    AuthorityNodes(e, p, frozen, holds, f);
  }

  lemma PlannedNodes(e: Env, s: Selection, p: Primitives, config: Config, holds: MaterializedNode -> bool,
                     graphs: seq<FrozenGraph>)
    requires SurvivesValidation(e.t, e.c, holds) && SurvivesAuthority(holds)
    requires forall g :: g in s.graphs ==> HoldsWhenMade(e, s, config, g, holds)
    requires Each(GraphPlanner(e, s, p, config), s.graphs) == Ok(graphs)
    ensures forall f :: f in graphs ==> AllNodes(holds, f.nodes)
  {
    var planner := GraphPlanner(e, s, p, config);
    EachValue(planner, s.graphs);
    forall i | 0 <= i < |graphs| ensures AllNodes(holds, graphs[i].nodes) {
      assert planner(s.graphs[i]) == Ok(graphs[i]) && s.graphs[i] in s.graphs;
      PlannedGraphNodes(e, s, p, config, s.graphs[i], holds, graphs[i]);
    }
  }

  /** Main result: an invariant of node plans holds of every node of a compiled plan. */
  lemma PlanNodes(e: Env, r: Resolved<Primitives>, time: string, p: RunPlan<Extras>, holds: MaterializedNode -> bool)
    requires SurvivesValidation(e.t, e.c, holds) && SurvivesAuthority(holds) && Materialize(e, r, time) == Ok(p)
    requires forall g :: g in r.selection.graphs ==> HoldsWhenMade(e, r.selection, r.config, g, holds)
    ensures forall plane :: plane in p.graphs ==> AllNodes(holds, p.graphs[plane].nodes)
  {
    var graphs := PlanKeepsGraphs(e, r, time, p);
    PlannedNodes(e, r.selection, r.primitives, r.config, holds, graphs);
    ByPlaneAre(graphs);
  }
}
