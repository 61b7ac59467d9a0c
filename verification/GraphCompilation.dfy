/** Compiling and exporting a graph loop keeps its meaning: the same labelled steps, over walks of any
    length (src/compiler/materialization.rs and src/compiler/graph_exports.rs). */
module GraphCompilation {
  import opened Wrappers
  import opened Normalizers
  import opened CompilerContracts

  // ---------------------------------------------------------------- compiling transitions

  function EdgeTransition(e: Edge, outcome: string): Transition {
    Transition(e.edgeId, e.fromNodeId, outcome, e.toNodeId, e.terminalStateId, e.kind, e.priority, e.maxAttempts)
  }

  /** The transitions of the first outcomes of an edge. */
  function EdgeTransitions(e: Edge, count: nat): (ts: seq<Transition>)
    requires count <= |e.onOutcomes|
    ensures |ts| == count
    ensures forall i :: 0 <= i < count ==> ts[i] == EdgeTransition(e, e.onOutcomes[i])
  {
    seq(count, i requires 0 <= i < count => EdgeTransition(e, e.onOutcomes[i]))
  }

  /** One concrete transition per declared outcome, edge by edge. */
  function Transitions(edges: seq<Edge>): seq<Transition> {
    if edges == [] then []
    else
      var last := edges[|edges| - 1];
      Transitions(edges[..|edges| - 1]) + EdgeTransitions(last, |last.onOutcomes|)
  }

  method CompileGraphTransitions(edges: seq<Edge>) returns (compiled: seq<Transition>)
    ensures compiled == Transitions(edges)
  {
    compiled := [];
    for i := 0 to |edges|
      invariant compiled == Transitions(edges[..i])
    {
      var edge := edges[i];
      ghost var earlier := compiled;
      assert edges[..i + 1][..i] == edges[..i];
      for j := 0 to |edge.onOutcomes|
        invariant compiled == earlier + EdgeTransitions(edge, j)
      {
        compiled := compiled + [EdgeTransition(edge, edge.onOutcomes[j])];
      }
    }
    assert edges[..|edges|] == edges;
  }

  lemma {:induction false} TransitionsAreOf(edges: seq<Edge>, x: Transition) returns (e: Edge)
    requires x in Transitions(edges)
    ensures e in edges && x.outcome in e.onOutcomes && x == EdgeTransition(e, x.outcome)
  {
    e := edges[|edges| - 1];
    if x in Transitions(edges[..|edges| - 1]) {
      e := TransitionsAreOf(edges[..|edges| - 1], x);
    } else {
      var i :| 0 <= i < |e.onOutcomes| && EdgeTransitions(e, |e.onOutcomes|)[i] == x;
    }
  }

  // ---------------------------------------------------------------- the step relation

  datatype Target = ToNode(nodeId: string) | ToTerminal(stateId: string)

  /** One step of a run: what it is called, when it may be taken, and how it is tried. */
  datatype Step = Step(
    source: string, outcome: string, target: Target, edgeId: string, kind: EdgeKind, priority: int,
    maxAttempts: Option<nat>)

  predicate Targets(target: Target, node: Option<string>, terminal: Option<string>) {
    match target
    case ToNode(id) => node == Some(id)
    case ToTerminal(id) => terminal == Some(id)
  }

  predicate EdgeAllows(e: Edge, s: Step) {
    && s.source == e.fromNodeId && s.outcome in e.onOutcomes && Targets(s.target, e.toNodeId, e.terminalStateId)
    && s.edgeId == e.edgeId && s.kind == e.kind && s.priority == e.priority && s.maxAttempts == e.maxAttempts
  }

  predicate TransitionAllows(x: Transition, s: Step) {
    && s.source == x.sourceNodeId && s.outcome == x.outcome && Targets(s.target, x.targetNodeId, x.terminalStateId)
    && s.edgeId == x.edgeId && s.kind == x.kind && s.priority == x.priority && s.maxAttempts == x.maxAttempts
  }

  /** The steps a graph declares. */
  ghost predicate GraphSteps(edges: seq<Edge>, s: Step) { exists e :: e in edges && EdgeAllows(e, s) }

  /** The steps its compiled transitions allow. */
  ghost predicate CompiledSteps(transitions: seq<Transition>, s: Step) {
    exists x :: x in transitions && TransitionAllows(x, s)
  }

  lemma EdgeTransitionAllows(e: Edge, s: Step)
    ensures EdgeAllows(e, s) <==> CompiledSteps(EdgeTransitions(e, |e.onOutcomes|), s)
  {
    var ts := EdgeTransitions(e, |e.onOutcomes|);
    if EdgeAllows(e, s) {
      var i :| 0 <= i < |e.onOutcomes| && e.onOutcomes[i] == s.outcome;
      assert ts[i] in ts && TransitionAllows(ts[i], s);
    }
    if CompiledSteps(ts, s) {
      var x :| x in ts && TransitionAllows(x, s);
      var i :| 0 <= i < |ts| && ts[i] == x;
    }
  }

  /** Main result: compiling keeps every labelled step and adds none. */
  lemma {:induction false} CompilingKeepsSteps(edges: seq<Edge>, s: Step)
    ensures GraphSteps(edges, s) <==> CompiledSteps(Transitions(edges), s)
  {
    if edges != [] {
      var n := |edges| - 1;
      CompilingKeepsSteps(edges[..n], s);
      EdgeTransitionAllows(edges[n], s);
      assert edges == edges[..n] + [edges[n]];
      assert forall x :: x in Transitions(edges) <==>
        x in Transitions(edges[..n]) || x in EdgeTransitions(edges[n], |edges[n].onOutcomes|);
    }
  }

  // ---------------------------------------------------------------- the export

  /** Edge kinds and terminal classes are exported by name. */
  function KindName(kind: EdgeKind): string {
    match kind
    case NormalKind => "normal"
    case RetryKind => "retry"
    case EscalationKind => "escalation"
    case HandoffKind => "handoff"
    case TerminalKind => "terminal"
  }

  datatype ExportEdge = ExportEdge(
    edgeId: string, sourceNodeId: string, outcome: string, targetNodeId: Option<string>,
    terminalStateId: Option<string>, kind: string, priority: int, maxAttempts: Option<nat>)

  function ExportTransition(x: Transition): ExportEdge {
    ExportEdge(x.edgeId, x.sourceNodeId, x.outcome, x.targetNodeId, x.terminalStateId, KindName(x.kind), x.priority,
               x.maxAttempts)
  }

  /** The parts of a graph that its export projects. */
  datatype Export = Export(
    nodeIds: seq<string>, edges: seq<ExportEdge>, entries: seq<CompiledEntry>, stateIds: seq<string>)

  function ExportGraph(g: FrozenGraph): (e: Export)
    ensures |e.nodeIds| == |g.nodes| && forall i :: 0 <= i < |g.nodes| ==> e.nodeIds[i] == g.nodes[i].nodeId
    ensures |e.edges| == |g.transitions|
    ensures forall i :: 0 <= i < |g.transitions| ==> e.edges[i] == ExportTransition(g.transitions[i])
  {
    var nodeIds := seq(|g.nodes|, i requires 0 <= i < |g.nodes| => g.nodes[i].nodeId);
    Export(nodeIds,
           seq(|g.transitions|, i requires 0 <= i < |g.transitions| => ExportTransition(g.transitions[i])),
           KnownEntries(g.compiledEntries, nodeIds),
           StateIds(g.terminalStates))
  }

  /** The entries whose node is in the graph. */
  function KnownEntries(entries: seq<CompiledEntry>, nodeIds: seq<string>): seq<CompiledEntry> {
    if entries == [] then []
    else
      var earlier, last := KnownEntries(entries[..|entries| - 1], nodeIds), entries[|entries| - 1];
      if last.nodeId in nodeIds then earlier + [last] else earlier
  }

  predicate ExportAllows(x: ExportEdge, s: Step) {
    && s.source == x.sourceNodeId && s.outcome == x.outcome && Targets(s.target, x.targetNodeId, x.terminalStateId)
    && s.edgeId == x.edgeId && KindName(s.kind) == x.kind && s.priority == x.priority
    && s.maxAttempts == x.maxAttempts
  }

  /** The steps an export shows. */
  ghost predicate ExportedSteps(edges: seq<ExportEdge>, s: Step) { exists x :: x in edges && ExportAllows(x, s) }

  lemma KindNamesDiffer(a: EdgeKind, b: EdgeKind)
    requires KindName(a) == KindName(b)
    ensures a == b
  {
    assert KindName(a)[0] == KindName(b)[0];
  }

  /** Main result: an export shows exactly the steps of the compiled transitions. */
  lemma ExportKeepsSteps(g: FrozenGraph, s: Step)
    ensures CompiledSteps(g.transitions, s) <==> ExportedSteps(ExportGraph(g).edges, s)
  {
    var edges := ExportGraph(g).edges;
    if x :| x in g.transitions && TransitionAllows(x, s) {
      var i :| 0 <= i < |g.transitions| && g.transitions[i] == x;
      assert edges[i] in edges && ExportAllows(edges[i], s);
    }
    if y :| y in edges && ExportAllows(y, s) {
      var i :| 0 <= i < |edges| && edges[i] == y;
      KindNamesDiffer(s.kind, g.transitions[i].kind);
      assert g.transitions[i] in g.transitions && TransitionAllows(g.transitions[i], s);
    }
  }

  lemma {:induction false} EntriesKept(entries: seq<CompiledEntry>, nodeIds: seq<string>)
    requires forall e :: e in entries ==> e.nodeId in nodeIds
    ensures KnownEntries(entries, nodeIds) == entries
  {
    if entries != [] {
      assert entries[|entries| - 1] in entries;
      EntriesKept(entries[..|entries| - 1], nodeIds);
      assert entries == entries[..|entries| - 1] + [entries[|entries| - 1]];
    }
  }

  // ---------------------------------------------------------------- the semantics check

  predicate Legal(kinds: map<string, StageKind>, nodes: seq<Node>, nodeId: string, outcome: string) {
    forall n :: n in nodes && n.nodeId == nodeId ==>
      n.stageKindId in kinds && outcome in kinds[n.stageKindId].outcomes.legal
  }

  function DeclaredOverrides(n: Node): seq<string> {
    (if n.entrypointPath.Some? then ["entrypoint_path"] else [])
    + (if n.attachedSkills != [] then ["attached_skill_additions"] else [])
    + (if n.runnerName.Some? then ["runner_name"] else [])
    + (if n.modelName.Some? then ["model_name"] else [])
    + (if n.timeoutSeconds.Some? then ["timeout_seconds"] else [])
  }

  /** Every node has a stage kind of the graph's plane that allows its overrides, every outcome used is
      legal for its node, and the completion target has a closure role. */
  predicate SemanticsHold(kinds: map<string, StageKind>, g: GraphLoop) {
    && (forall n :: n in g.nodes ==>
          && n.stageKindId in kinds && kinds[n.stageKindId].plane == g.plane
          && forall o :: o in DeclaredOverrides(n) ==> o in kinds[n.stageKindId].details.allowedOverrides)
    && (forall e :: e in g.edges ==> forall o :: o in e.onOutcomes ==> Legal(kinds, g.nodes, e.fromNodeId, o))
    && (forall p :: p in g.resumePolicies ==> Legal(kinds, g.nodes, p.sourceNodeId, p.onOutcome))
    && (forall p :: p in g.thresholdPolicies ==>
          forall id :: id in p.sourceNodeIds ==> Legal(kinds, g.nodes, id, p.onOutcome))
    && (g.completion.Some? ==>
          && g.completion.value.targetNodeId in NodeIds(g.nodes)
          && forall n :: n in g.nodes && n.nodeId == g.completion.value.targetNodeId ==>
               n.stageKindId in kinds && kinds[n.stageKindId].closureRole)
  }

  // ---------------------------------------------------------------- walks

  /** Steps that follow one another, each from the node the one before led to. */
  ghost predicate IsWalk(allowed: Step -> bool, start: string, walk: seq<Step>)
    decreases |walk|
  {
    walk == [] ||
    (&& walk[0].source == start && allowed(walk[0])
     && (|walk| > 1 ==> walk[0].target.ToNode?)
     && (walk[0].target.ToNode? ==> IsWalk(allowed, walk[0].target.nodeId, walk[1..])))
  }

  /** A step between known places, on a legal outcome, that hands over to no node. */
  ghost predicate GoodStep(kinds: map<string, StageKind>, g: GraphLoop, s: Step) {
    && s.source in NodeIds(g.nodes)
    && (s.target.ToNode? ==> s.target.nodeId in NodeIds(g.nodes))
    && (s.target.ToTerminal? ==> s.target.stateId in StateIds(g.terminalStates))
    && Legal(kinds, g.nodes, s.source, s.outcome)
    && (forall n :: n in g.nodes && n.nodeId == s.source && n.stageKindId == "recon" && IsHandoff(s.outcome) ==>
          s.target.ToTerminal?)
    && (s.kind == TerminalKind ==> s.target.ToTerminal?)
    && (s.kind == RetryKind <==> s.maxAttempts.Some?)
  }

  /** What validation leaves of an edge. */
  ghost predicate ShapesHold(edges: seq<Edge>) {
    forall e :: e in edges ==> TargetShape(e.kind, e.toNodeId, e.terminalStateId, e.maxAttempts)
  }

  lemma DeclaredStepIsGood(kinds: map<string, StageKind>, g: GraphLoop, s: Step)
    requires GraphHolds(g) && ShapesHold(g.edges) && SemanticsHold(kinds, g) && GraphSteps(g.edges, s)
    ensures GoodStep(kinds, g, s)
  {
    var e :| e in g.edges && EdgeAllows(e, s);
  }

  lemma {:induction false} WalkIsGood(kinds: map<string, StageKind>, g: GraphLoop, start: string, walk: seq<Step>,
                                      allowed: Step -> bool)
    requires forall s :: allowed(s) ==> GoodStep(kinds, g, s)
    requires IsWalk(allowed, start, walk)
    ensures forall i :: 0 <= i < |walk| ==> GoodStep(kinds, g, walk[i])
    ensures forall i :: 0 <= i < |walk| - 1 ==> walk[i].target == ToNode(walk[i + 1].source)
    decreases |walk|
  {
    if |walk| == 1 {
    } else if |walk| > 1 {
      var rest := walk[1..];
      WalkIsGood(kinds, g, walk[0].target.nodeId, rest, allowed);
      forall i | 0 <= i < |walk| ensures GoodStep(kinds, g, walk[i]) {
        if i > 0 { assert walk[i] == rest[i - 1]; }
      }
      forall i | 0 <= i < |walk| - 1 ensures walk[i].target == ToNode(walk[i + 1].source) {
        if i > 0 { assert walk[i] == rest[i - 1] && walk[i + 1] == rest[i]; }
      }
    }
  }

  ghost function Exported(g: FrozenGraph): Step -> bool { (s: Step) => ExportedSteps(ExportGraph(g).edges, s) }

  /** Main result: along every walk of any length through the exported graph, only known nodes are
      visited on legal outcomes, the walk can only end in a known terminal state, and no Recon handoff
      outcome leads to a node. */
  lemma ExportedWalksAreGood(kinds: map<string, StageKind>, g: GraphLoop, frozen: FrozenGraph, start: string,
                             walk: seq<Step>)
    requires GraphHolds(g) && ShapesHold(g.edges) && SemanticsHold(kinds, g)
    requires frozen.transitions == Transitions(g.edges)
    requires IsWalk(Exported(frozen), start, walk)
    ensures forall i :: 0 <= i < |walk| ==> GraphSteps(g.edges, walk[i]) && GoodStep(kinds, g, walk[i])
    ensures forall i :: 0 <= i < |walk| - 1 ==> walk[i].target == ToNode(walk[i + 1].source)
  {
    forall s | Exported(frozen)(s) ensures GraphSteps(g.edges, s) && GoodStep(kinds, g, s) {
      ExportKeepsSteps(frozen, s);
      CompilingKeepsSteps(g.edges, s);
      DeclaredStepIsGood(kinds, g, s);
    }
    WalkIsGood(kinds, g, start, walk, Exported(frozen));
    WalkStepsAllowed(Exported(frozen), start, walk);
  }

  lemma {:induction false} WalkStepsAllowed(allowed: Step -> bool, start: string, walk: seq<Step>)
    requires IsWalk(allowed, start, walk)
    ensures forall i :: 0 <= i < |walk| ==> allowed(walk[i])
    decreases |walk|
  {
    if |walk| > 1 {
      WalkStepsAllowed(allowed, walk[0].target.nodeId, walk[1..]);
      assert forall i :: 0 < i < |walk| ==> walk[i] == walk[1..][i - 1];
    }
  }
}
