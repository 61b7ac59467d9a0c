/** Which terminal action an outcome of a node triggers (src/compiler/workflow_primitives.rs). */
module TerminalActions {
  import opened Sequences
  import opened Wrappers
  import opened CompilerContracts
  import opened GraphCompilation

  datatype EffectRule = EffectRule(
    ruleId: string, sourceNodeId: string, onOutcomes: seq<string>, handlerId: string, planId: Option<string>,
    destinationFamily: Option<string>)

  datatype EffectHandler = EffectHandler(handlerId: string, sourceFamilies: seq<string>)

  datatype TerminalAction = TerminalAction(
    actionId: string, terminalClass: TerminalClass, planId: Option<string>, nonMutating: bool,
    effectRuleIds: seq<string>)

  datatype Bundle = Bundle(
    families: set<string>,
    handlers: seq<EffectHandler>,
    rules: seq<EffectRule>,
    planIds: set<string>,
    actions: seq<TerminalAction>)

  datatype PrimitiveError =
    | UnimplementedHandler
    | UnknownHandler
    | UnknownFamily
    | DuplicateBinding
    | MissingPlan
    | UnknownPlan
    | NoActionForPlan
    | UnknownRule
    | NoActionForClass

  // ---------------------------------------------------------------- validated bundles

  predicate IsImplemented(handlerId: string) {
    handlerId in {"planner_disposition", "manager_blueprint_manifest_to_blueprint_drafts",
                  "contractor_blueprint_candidate_persist", "evaluator_blueprint_approved_to_task",
                  "evaluator_blueprint_rejected_to_draft_revision"}
  }

  /** The keys a rule binds. */
  function Bindings(rules: seq<EffectRule>): seq<(string, string)> {
    if rules == [] then []
    else
      var r := rules[|rules| - 1];
      Bindings(rules[..|rules| - 1]) + RuleBindings(r, |r.onOutcomes|)
  }

  function RuleBindings(r: EffectRule, count: nat): (keys: seq<(string, string)>)
    requires count <= |r.onOutcomes|
    ensures |keys| == count && forall i :: 0 <= i < count ==> keys[i] == (r.sourceNodeId, r.onOutcomes[i])
  {
    seq(count, i requires 0 <= i < count => (r.sourceNodeId, r.onOutcomes[i]))
  }

  /** The bindings of the rules one after another; a key already bound is an error. */
  method BindRules(rules: seq<EffectRule>) returns (r: Result<(), PrimitiveError>)
    ensures r == if Distinct(Bindings(rules)) then Ok(()) else Err(DuplicateBinding)
  {
    var bound: set<(string, string)> := {};
    ghost var keys := [];
    for i := 0 to |rules|
      invariant keys == Bindings(rules[..i])
      invariant Distinct(keys) && bound == set k | k in keys
    {
      assert rules[..i + 1][..i] == rules[..i];
      var rule := rules[i];
      ghost var earlier := keys;
      for j := 0 to |rule.onOutcomes|
        invariant keys == earlier + RuleBindings(rule, j)
        invariant Distinct(keys) && bound == set k | k in keys
      {
        var key := (rule.sourceNodeId, rule.onOutcomes[j]);
        if key in bound {
          assert RuleBindings(rule, j + 1) == RuleBindings(rule, j) + [key];
          DuplicateStays(earlier + RuleBindings(rule, j), key, rules, i, j);
          return Err(DuplicateBinding);
        }
        bound := bound + {key};
        keys := keys + [key];
      }
    }
    assert rules[..|rules|] == rules;
    return Ok(());
  }

  lemma {:induction false} BindingsPrefix(rules: seq<EffectRule>, n: nat)
    requires n <= |rules|
    ensures Bindings(rules[..n]) <= Bindings(rules)
    decreases |rules|
  {
    if n == |rules| {
      assert rules[..n] == rules;
    } else {
      assert rules[..|rules| - 1][..n] == rules[..n];
      BindingsPrefix(rules[..|rules| - 1], n);
    }
  }

  lemma DuplicateStays(keys: seq<(string, string)>, key: (string, string), rules: seq<EffectRule>, i: nat, j: nat)
    requires i < |rules| && j < |rules[i].onOutcomes| && key == (rules[i].sourceNodeId, rules[i].onOutcomes[j])
    requires keys == Bindings(rules[..i]) + RuleBindings(rules[i], j) && key in keys
    ensures !Distinct(Bindings(rules))
  {
    BindingsPrefix(rules, i + 1);
    assert rules[..i + 1][..i] == rules[..i];
    var all := Bindings(rules);
    var upTo := Bindings(rules[..i]) + RuleBindings(rules[i], |rules[i].onOutcomes|);
    assert upTo <= all;
    var k :| 0 <= k < |keys| && keys[k] == key;
    assert keys[k] == upTo[k] && upTo[|keys|] == key;
  }

  function ActionForPlan(actions: seq<TerminalAction>, planId: string): Option<string> {
    if actions == [] then None
    else if actions[0].planId == Some(planId) then Some(actions[0].actionId)
    else ActionForPlan(actions[1..], planId)
  }

  function ActionForClass(actions: seq<TerminalAction>, terminalClass: TerminalClass): Option<string> {
    if actions == [] then None
    else if actions[0].terminalClass == terminalClass then Some(actions[0].actionId)
    else ActionForClass(actions[1..], terminalClass)
  }

  predicate EffectRulesHold(b: Bundle) {
    && (forall h :: h in b.handlers ==>
          IsImplemented(h.handlerId) && forall f :: f in h.sourceFamilies ==> f in b.families)
    && (forall r :: r in b.rules ==>
          && (exists h :: h in b.handlers && h.handlerId == r.handlerId)
          && (r.destinationFamily.Some? ==> r.destinationFamily.value in b.families))
    && Distinct(Bindings(b.rules))
  }

  predicate ActionsHold(b: Bundle) {
    && (forall a :: a in b.actions ==>
          && (!a.nonMutating ==> a.planId.Some? && a.planId.value in b.planIds)
          && forall id :: id in a.effectRuleIds ==> exists r :: r in b.rules && r.ruleId == id)
    && (forall r :: r in b.rules && r.planId.Some? ==>
          r.planId.value in b.planIds && ActionForPlan(b.actions, r.planId.value).Some?)
  }

  /** What the compiler has checked of a bundle before it maps actions. */
  predicate BundleHolds(b: Bundle) { EffectRulesHold(b) && ActionsHold(b) }

  // ---------------------------------------------------------------- the mapping

  predicate Binds(r: EffectRule, nodeId: string, outcome: string) {
    r.sourceNodeId == nodeId && outcome in r.onOutcomes
  }

  /** The lifecycle plan of the last rule that binds an outcome of a node and has one. */
  function EffectPlan(rules: seq<EffectRule>, nodeId: string, outcome: string): Option<string> {
    if rules == [] then None
    else
      var r := rules[|rules| - 1];
      if Binds(r, nodeId, outcome) && r.planId.Some? then r.planId
      else EffectPlan(rules[..|rules| - 1], nodeId, outcome)
  }

  /** The class of a terminal state; the last one of an id counts. */
  function ClassOf(states: seq<TerminalState>, stateId: string): Option<TerminalClass> {
    if states == [] then None
    else if states[|states| - 1].stateId == stateId then Some(states[|states| - 1].terminalClass)
    else ClassOf(states[..|states| - 1], stateId)
  }

  /** The class a transition of a node ends in, if it ends in a known terminal state. */
  function EndClass(states: seq<TerminalState>, x: Transition, nodeId: string, outcome: string): Option<TerminalClass> {
    if x.sourceNodeId == nodeId && x.outcome == outcome && x.terminalStateId.Some? then
      ClassOf(states, x.terminalStateId.value)
    else None
  }

  /** The class the first such transition ends in. */
  function FirstEndClass(states: seq<TerminalState>, transitions: seq<Transition>, nodeId: string, outcome: string):
      Option<TerminalClass>
  {
    if transitions == [] then None
    else
      var n := |transitions| - 1;
      var earlier := FirstEndClass(states, transitions[..n], nodeId, outcome);
      if earlier.Some? then earlier else EndClass(states, transitions[n], nodeId, outcome)
  }

  /** The action of an outcome: what its effect rule's plan asks for, else what the class it ends in
      asks for. */
  function ActionFor(b: Bundle, states: seq<TerminalState>, transitions: seq<Transition>, nodeId: string,
                     outcome: string):
      Option<string>
  {
    match EffectPlan(b.rules, nodeId, outcome)
    case Some(planId) => ActionForPlan(b.actions, planId)
    case None =>
      match FirstEndClass(states, transitions, nodeId, outcome)
      case Some(terminalClass) => ActionForClass(b.actions, terminalClass)
      case None => None
  }

  /** `m` maps every outcome that an effect plan binds to the action of its plan, and no other. */
  ghost predicate MapsEffects(m: map<string, string>, b: Bundle, rules: seq<EffectRule>, nodeId: string) {
    && (forall o :: o in m <==> EffectPlan(rules, nodeId, o).Some?)
    && (forall o :: o in m ==> ActionForPlan(b.actions, EffectPlan(rules, nodeId, o).value) == Some(m[o]))
  }

  /** `m` maps what `rules` and `transitions` say. */
  ghost predicate MapsActions(m: map<string, string>, b: Bundle, states: seq<TerminalState>,
                              transitions: seq<Transition>, nodeId: string)
  {
    forall o :: if o in m then ActionFor(b, states, transitions, nodeId, o) == Some(m[o])
                else EffectPlan(b.rules, nodeId, o).None? && FirstEndClass(states, transitions, nodeId, o).None?
  }

  /** A rule asks for a plan that no action carries out. */
  ghost predicate PlanWithoutAction(b: Bundle) {
    exists rule :: rule in b.rules && rule.planId.Some? && ActionForPlan(b.actions, rule.planId.value).None?
  }

  method MapEffects(b: Bundle, nodeId: string) returns (r: Result<map<string, string>, PrimitiveError>)
    ensures r.Ok? ==> MapsEffects(r.value, b, b.rules, nodeId)
    ensures r.Err? ==> r.error == NoActionForPlan && PlanWithoutAction(b)
  {
    var m: map<string, string> := map[];
    for i := 0 to |b.rules|
      invariant MapsEffects(m, b, b.rules[..i], nodeId)
    {
      var rule := b.rules[i];
      assert b.rules[..i + 1][..i] == b.rules[..i];
      if rule.sourceNodeId == nodeId && rule.planId.Some? {
        var action := ActionForPlan(b.actions, rule.planId.value);
        ghost var before := m;
        for j := 0 to |rule.onOutcomes|
          invariant m.Keys == before.Keys + set o | o in rule.onOutcomes[..j]
          invariant forall o :: o in m ==> if o in rule.onOutcomes[..j] then action == Some(m[o]) else m[o] == before[o]
        {
          if action.None? { return Err(NoActionForPlan); }
          m := m[rule.onOutcomes[j] := action.value];
        }
        assert rule.onOutcomes[..|rule.onOutcomes|] == rule.onOutcomes;
      }
    }
    assert b.rules[..|b.rules|] == b.rules;
    return Ok(m);
  }

  /** A transition ends in a class that no action handles, on an outcome that no effect plan binds. */
  ghost predicate ClassWithoutAction(b: Bundle, states: seq<TerminalState>, transitions: seq<Transition>,
                                     nodeId: string)
  {
    exists o :: EffectPlan(b.rules, nodeId, o).None?
                && var c := FirstEndClass(states, transitions, nodeId, o);
                   c.Some? && ActionForClass(b.actions, c.value).None?
  }

  lemma {:induction false} FirstEndStays(states: seq<TerminalState>, transitions: seq<Transition>, n: nat,
                                         nodeId: string, outcome: string)
    requires n <= |transitions| && FirstEndClass(states, transitions[..n], nodeId, outcome).Some?
    ensures FirstEndClass(states, transitions, nodeId, outcome)
            == FirstEndClass(states, transitions[..n], nodeId, outcome)
    decreases |transitions|
  {
    if n == |transitions| {
      assert transitions[..n] == transitions;
    } else {
      assert transitions[..|transitions| - 1][..n] == transitions[..n];
      FirstEndStays(states, transitions[..|transitions| - 1], n, nodeId, outcome);
    }
  }

  /** `n` is `m` with the action of the class a transition ends in, unless its outcome is mapped. */
  predicate AddsTransition(m: map<string, string>, n: map<string, string>, b: Bundle, states: seq<TerminalState>,
                           x: Transition, nodeId: string)
  {
    var end := EndClass(states, x, nodeId, x.outcome);
    if x.outcome in m || end.None? then n == m
    else
      var action := ActionForClass(b.actions, end.value);
      action.Some? && n == m[x.outcome := action.value]
  }

  /** One transition's part of the mapping: the outcome it adds, if it adds one. */
  method MapTransition(b: Bundle, states: seq<TerminalState>, x: Transition, nodeId: string, m: map<string, string>)
    returns (r: Result<map<string, string>, PrimitiveError>)
    ensures r.Ok? ==> AddsTransition(m, r.value, b, states, x, nodeId)
    ensures r.Err? ==> r.error == NoActionForClass && x.outcome !in m && EndClass(states, x, nodeId, x.outcome).Some?
                       && ActionForClass(b.actions, EndClass(states, x, nodeId, x.outcome).value).None?
  {
    if x.sourceNodeId != nodeId || x.outcome in m || x.terminalStateId.None? { return Ok(m); }
    var terminalClass := ClassOf(states, x.terminalStateId.value);
    if terminalClass.None? { return Ok(m); }
    var action := ActionForClass(b.actions, terminalClass.value);
    if action.None? { return Err(NoActionForClass); }
    return Ok(m[x.outcome := action.value]);
  }

  method MapTerminals(b: Bundle, states: seq<TerminalState>, transitions: seq<Transition>, nodeId: string,
                      effects: map<string, string>)
    returns (r: Result<map<string, string>, PrimitiveError>)
    requires MapsEffects(effects, b, b.rules, nodeId)
    ensures r.Ok? ==> MapsActions(r.value, b, states, transitions, nodeId)
    ensures r.Err? ==> r.error == NoActionForClass && ClassWithoutAction(b, states, transitions, nodeId)
  {
    var m := effects;
    for i := 0 to |transitions|
      invariant MapsActions(m, b, states, transitions[..i], nodeId)
    {
      var x := transitions[i];
      assert transitions[..i + 1][..i] == transitions[..i];
      var next := MapTransition(b, states, x, nodeId, m);
      if next.Err? {
        FirstEndStays(states, transitions, i + 1, nodeId, x.outcome);
        return Err(next.error);
      }
      MapsGrows(m, next.value, b, states, transitions, i, nodeId);
      m := next.value;
    }
    assert transitions[..|transitions|] == transitions;
    return Ok(m);
  }

  lemma MapsGrows(m: map<string, string>, n: map<string, string>, b: Bundle, states: seq<TerminalState>,
                  transitions: seq<Transition>, i: nat, nodeId: string)
    requires i < |transitions| && MapsActions(m, b, states, transitions[..i], nodeId)
    requires AddsTransition(m, n, b, states, transitions[i], nodeId)
    ensures MapsActions(n, b, states, transitions[..i + 1], nodeId)
  {
    assert transitions[..i + 1][..i] == transitions[..i];
    forall o ensures if o in n then ActionFor(b, states, transitions[..i + 1], nodeId, o) == Some(n[o])
                     else EffectPlan(b.rules, nodeId, o).None?
                          && FirstEndClass(states, transitions[..i + 1], nodeId, o).None?
    {
      assert o in m ==> ActionFor(b, states, transitions[..i], nodeId, o) == Some(m[o]);
    }
  }

  /** The terminal actions of one node: effect rules first, then what its transitions end in. */
  method TerminalActionMappings(b: Bundle, states: seq<TerminalState>, transitions: seq<Transition>, nodeId: string)
    returns (r: Result<map<string, string>, PrimitiveError>)
    ensures r.Ok? ==> MapsActions(r.value, b, states, transitions, nodeId)
    ensures r.Err? ==> (r.error == NoActionForPlan && PlanWithoutAction(b))
                       || (r.error == NoActionForClass && ClassWithoutAction(b, states, transitions, nodeId))
    ensures BundleHolds(b) ==> (r.Ok? <==> !ClassWithoutAction(b, states, transitions, nodeId))
  {
    var effects :- MapEffects(b, nodeId);
    r := MapTerminals(b, states, transitions, nodeId, effects);
    if r.Ok? && BundleHolds(b) {
      MappingOfValidBundle(b, states, transitions, nodeId, r.value);
    }
  }

  // ---------------------------------------------------------------- what the mapping means

  /** Main result: for a validated bundle, at most one rule binds an outcome of a node; its plan's action
      wins over the action of the class; every outcome that ends in a known terminal state is mapped; and
      no class it ends in is without an action. */
  lemma MappingOfValidBundle(b: Bundle, states: seq<TerminalState>, transitions: seq<Transition>, nodeId: string,
                             m: map<string, string>)
    requires BundleHolds(b) && MapsActions(m, b, states, transitions, nodeId)
    ensures forall o, i, j :: 0 <= i < j < |b.rules| ==> !(Binds(b.rules[i], nodeId, o) && Binds(b.rules[j], nodeId, o))
    ensures forall r, o :: r in b.rules && Binds(r, nodeId, o) && r.planId.Some? ==>
              o in m && ActionForPlan(b.actions, r.planId.value) == Some(m[o])
    ensures forall x, o :: x in transitions && EndClass(states, x, nodeId, o).Some? ==> o in m
    ensures !ClassWithoutAction(b, states, transitions, nodeId) && !PlanWithoutAction(b)
  {
    forall o, i, j | 0 <= i < j < |b.rules| ensures !(Binds(b.rules[i], nodeId, o) && Binds(b.rules[j], nodeId, o)) {
      if Binds(b.rules[i], nodeId, o) && Binds(b.rules[j], nodeId, o) { OneRulePerOutcome(b.rules, nodeId, o, i, j); }
    }
    forall r, o | r in b.rules && Binds(r, nodeId, o) && r.planId.Some?
      ensures EffectPlan(b.rules, nodeId, o) == r.planId
    {
      var i :| 0 <= i < |b.rules| && b.rules[i] == r;
      OnlyPlan(b.rules, nodeId, o, i);
    }
    forall x, o | x in transitions && EndClass(states, x, nodeId, o).Some?
      ensures FirstEndClass(states, transitions, nodeId, o).Some?
    {
      SomeEnd(states, transitions, nodeId, o, x);
    }
  }

  lemma {:induction false} KnownStateHasClass(states: seq<TerminalState>, stateId: string)
    requires stateId in StateIds(states)
    ensures ClassOf(states, stateId).Some?
  {
    var n := |states| - 1;
    if states[n].stateId != stateId {
      assert StateIds(states) == StateIds(states[..n]) + [states[n].stateId];
      KnownStateHasClass(states[..n], stateId);
    }
  }

  /** Main result: in the plan of a validated graph, every outcome that ends is mapped to an action. */
  lemma EveryEndIsMapped(b: Bundle, g: GraphLoop, nodeId: string, m: map<string, string>, x: Transition)
    requires BundleHolds(b) && ReferencesKnown(g)
    requires MapsActions(m, b, g.terminalStates, Transitions(g.edges), nodeId)
    requires x in Transitions(g.edges) && x.sourceNodeId == nodeId && x.terminalStateId.Some?
    ensures x.outcome in m
  {
    var e := TransitionsAreOf(g.edges, x);
    KnownStateHasClass(g.terminalStates, x.terminalStateId.value);
    MappingOfValidBundle(b, g.terminalStates, Transitions(g.edges), nodeId, m);
    assert EndClass(g.terminalStates, x, nodeId, x.outcome).Some?;
  }

  lemma {:induction false} BindingAt(rules: seq<EffectRule>, nodeId: string, outcome: string, i: nat) returns (k: nat)
    requires i < |rules| && Binds(rules[i], nodeId, outcome)
    ensures k < |Bindings(rules)| && Bindings(rules)[k] == (nodeId, outcome)
    ensures |Bindings(rules[..i])| <= k < |Bindings(rules[..i + 1])|
  {
    var r := rules[i];
    var j :| 0 <= j < |r.onOutcomes| && r.onOutcomes[j] == outcome;
    k := |Bindings(rules[..i])| + j;
    assert rules[..i + 1][..i] == rules[..i];
    BindingsPrefix(rules, i + 1);
    assert Bindings(rules[..i + 1])[k] == RuleBindings(r, |r.onOutcomes|)[j];
  }

  lemma BindingsGrow(rules: seq<EffectRule>, i: nat, j: nat)
    requires i <= j <= |rules|
    ensures |Bindings(rules[..i])| <= |Bindings(rules[..j])|
  {
    assert rules[..j][..i] == rules[..i];
    BindingsPrefix(rules[..j], i);
  }

  lemma OneRulePerOutcome(rules: seq<EffectRule>, nodeId: string, outcome: string, i: nat, j: nat)
    requires i < j < |rules| && Binds(rules[i], nodeId, outcome) && Binds(rules[j], nodeId, outcome)
    ensures !Distinct(Bindings(rules))
  {
    var k := BindingAt(rules, nodeId, outcome, i);
    var l := BindingAt(rules, nodeId, outcome, j);
    BindingsGrow(rules, i + 1, j);
  }

  lemma {:induction false} OnlyPlan(rules: seq<EffectRule>, nodeId: string, outcome: string, i: nat)
    requires i < |rules| && Binds(rules[i], nodeId, outcome) && rules[i].planId.Some? && Distinct(Bindings(rules))
    ensures EffectPlan(rules, nodeId, outcome) == rules[i].planId
    decreases |rules|
  {
    var n := |rules| - 1;
    if i < n {
      if Binds(rules[n], nodeId, outcome) { OneRulePerOutcome(rules, nodeId, outcome, i, n); }
      BindingsPrefix(rules, n);
      OnlyPlan(rules[..n], nodeId, outcome, i);
    }
  }

  lemma {:induction false} SomeEnd(states: seq<TerminalState>, transitions: seq<Transition>, nodeId: string,
                                   outcome: string, x: Transition)
    requires x in transitions && EndClass(states, x, nodeId, outcome).Some?
    ensures FirstEndClass(states, transitions, nodeId, outcome).Some?
  {
    var n := |transitions| - 1;
    if x != transitions[n] { SomeEnd(states, transitions[..n], nodeId, outcome, x); }
  }
}
