/** The declarative runtime: the static checker of assignment-only flows and the
    driver that runs one transition per call. */
module DeclarativeFlow {
  import opened Base
  import opened Ordering
  import opened Predicates
  import opened Normalize
  import opened ControlProgram
  import opened Invocation

  // ----- The static checker -----

  predicate OnlyHuman(authorities: seq<string>) {
    forall a :: a in authorities ==> a == "human"
  }

  predicate EntrySupported(e: Entry) {
    !e.delegated && !e.diagnosed && e.authorities == []
  }

  predicate OperatorSupported(op: Operator) {
    && op.capabilities == [] && op.effects == [] && op.verifier == "state-effect" && op.recovery == ""
    && op.stateEffect.kind == "assignments" && op.executionContext == "preserve"
    && OnlyHuman(op.authority.anyOf) && OnlyHuman(op.authority.allOf)
    && forall p :: p in op.parameters ==> OnlyHuman(p.authority.anyOf) && OnlyHuman(p.authority.allOf)
  }

  function OperatorNamed(operators: seq<Operator>, id: string): (r: Option<Operator>)
    ensures r.Some? ==> r.value in operators && r.value.id == id
  {
    if operators == [] then None
    else if operators[0].id == id then Some(operators[0])
    else OperatorNamed(operators[1..], id)
  }

  function FacetNamed(facets: seq<Facet>, id: string): Facet {
    if facets == [] then Facet("", "", [])
    else if facets[|facets| - 1].id == id then facets[|facets| - 1]
    else FacetNamed(facets[..|facets| - 1], id)
  }

  predicate ProducerSupported(p: Producer) {
    match p.kind
    case EntryInputSource => true
    case StateSource => true
    case HostInputSource => p.request.Some? && OnlyHuman(p.request.value.authorities)
    case _ => false
  }

  predicate Bound(t: Transition, parameter: string) {
    exists b :: b in t.parameters && b.parameter == parameter
  }

  predicate AssignmentSupported(a: Assignment, facet: Facet, t: Transition, op: Operator) {
    if a.value.Some? then facet.kind == "boolean" ==> a.value.value == "true" || a.value.value == "false"
    else if a.valueFrom.None? then true
    else
      var source := a.valueFrom.value;
      var contract := ContractNamed(op.parameters, source.parameter);
      && source.parameter != "" && source.admission == "" && source.invocation == ""
      && contract.Some? && Bound(t, source.parameter)
      && facet.kind != "enum" && contract.value.valueType.kind == facet.kind
  }

  predicate Mutated(effect: StateEffect, facet: string) {
    exists a :: a in effect.assignments && a.facet == facet
  }

  /** The literal last assigned to a facet. */
  function LiteralFor(assignments: seq<Assignment>, facet: string): Option<string> {
    if assignments == [] then None
    else
      var last := assignments[|assignments| - 1];
      if last.facet == facet && last.value.Some? then last.value
      else LiteralFor(assignments[..|assignments| - 1], facet)
  }

  /** Whether the checker accepts that the assignments, from a state where the
      guard holds, make the target true. On an unmutated facet it looks only at
      the fact's values. */
  predicate Established(effect: StateEffect, guard: Predicate, target: Predicate)
    decreases target
  {
    if target.truth.Some? then target.truth.value
    else if target.fact.Some? then
      var f := target.fact.value;
      var literal := LiteralFor(effect.assignments, f.facet);
      if literal.Some? then
        (f.statuses == [] || "known" in f.statuses) && (f.values == [] || literal.value in f.values)
      else if Mutated(effect, f.facet) then false
      else RequiresFacetValue(guard, f.facet, f.values)
    else if target.all != [] then forall i :: 0 <= i < |target.all| ==> Established(effect, guard, target.all[i])
    else if target.any != [] then exists i :: 0 <= i < |target.any| && Established(effect, guard, target.any[i])
    else false
  }

  predicate TransitionSupported(doc: Document, t: Transition) {
    && OnlyHuman(t.authorities)
    && var op := OperatorNamed(doc.operators, t.operator);
       && op.Some?
       && (forall b :: b in t.parameters ==> ProducerSupported(b.producer))
       && (forall p :: p in op.value.stateEffect.preconditions ==> RequiresFacetValue(t.guard, p.facet, p.values))
       && (forall a :: a in op.value.stateEffect.assignments ==>
            AssignmentSupported(a, FacetNamed(doc.facets, a.facet), t, op.value))
       && Established(op.value.stateEffect, t.guard, t.target)
  }

  ghost predicate FlowSupported(doc: Document) {
    && (forall e :: e in doc.entries ==> EntrySupported(e))
    && doc.work == []
    && (forall op :: op in doc.operators ==> OperatorSupported(op))
    && (forall t :: t in doc.transitions ==> TransitionSupported(doc, t))
  }

  method ValidateDeclarativeFlow(doc: Document) returns (ok: bool)
    ensures ok <==> FlowSupported(doc)
  {
    var i := 0;
    while i < |doc.entries|
      invariant 0 <= i <= |doc.entries|
      invariant forall k :: 0 <= k < i ==> EntrySupported(doc.entries[k])
    {
      if !EntrySupported(doc.entries[i]) { return false; }
      i := i + 1;
    }
    if doc.work != [] { return false; }
    i := 0;
    while i < |doc.operators|
      invariant 0 <= i <= |doc.operators|
      invariant forall k :: 0 <= k < i ==> OperatorSupported(doc.operators[k])
    {
      if !OperatorSupported(doc.operators[i]) { return false; }
      i := i + 1;
    }
    i := 0;
    while i < |doc.transitions|
      invariant 0 <= i <= |doc.transitions|
      invariant forall k :: 0 <= k < i ==> TransitionSupported(doc, doc.transitions[k])
    {
      if !TransitionSupported(doc, doc.transitions[i]) { return false; }
      i := i + 1;
    }
    return true;
  }

  // ----- Selection -----

  predicate Enabled(t: Transition, facts: Predicates.Facts) {
    Satisfied(t.guard, facts) && !Satisfied(t.target, facts)
  }

  /** The enabled transitions of least priority, in declaration order. */
  function Frontier(transitions: seq<Transition>, facts: Predicates.Facts): seq<Transition> {
    if transitions == [] then []
    else
      var n := |transitions| - 1;
      var prior, t := Frontier(transitions[..n], facts), transitions[n];
      if !Enabled(t, facts) then prior
      else if prior == [] || t.priority < prior[0].priority then [t]
      else if t.priority == prior[0].priority then prior + [t]
      else prior
  }

  ghost predicate Preferred(t: Transition, transitions: seq<Transition>, facts: Predicates.Facts) {
    t in transitions && Enabled(t, facts) && forall u :: u in transitions && Enabled(u, facts) ==>
      t.priority <= u.priority
  }

  lemma {:induction false} FrontierOffers(transitions: seq<Transition>, facts: Predicates.Facts)
    ensures forall t :: t in Frontier(transitions, facts) <==> Preferred(t, transitions, facts)
    ensures Frontier(transitions, facts) == [] <==> forall t :: t in transitions ==> !Enabled(t, facts)
  {
    if transitions != [] {
      var n := |transitions| - 1;
      var before, t := transitions[..n], transitions[n];
      assert transitions == before + [t];
      FrontierOffers(before, facts);
      var prior := Frontier(before, facts);
      assert forall u :: u in transitions <==> u in before || u == t;
      if prior != [] { assert prior[0] in prior && Preferred(prior[0], before, facts); }
    }
  }

  lemma {:induction false} FrontierWithin(transitions: seq<Transition>, facts: Predicates.Facts)
    ensures multiset(Frontier(transitions, facts)) <= multiset(transitions)
  {
    if transitions != [] {
      var n := |transitions| - 1;
      assert transitions == transitions[..n] + [transitions[n]];
      FrontierWithin(transitions[..n], facts);
    }
  }

  /** A transition is offered exactly when it is enabled and nothing enabled has
      a smaller priority; something is offered whenever anything is enabled. */
  lemma FrontierExact(transitions: seq<Transition>, facts: Predicates.Facts)
    ensures forall t :: t in Frontier(transitions, facts) <==> Preferred(t, transitions, facts)
    ensures Frontier(transitions, facts) == [] <==> forall t :: t in transitions ==> !Enabled(t, facts)
    ensures multiset(Frontier(transitions, facts)) <= multiset(transitions)
  {
    FrontierOffers(transitions, facts);
    FrontierWithin(transitions, facts);
  }

  predicate ByTransitionId(a: Transition, b: Transition) { StringLess(a.id, b.id) }

  method SelectTransitions(transitions: seq<Transition>, facts: Predicates.Facts) returns (frontier: seq<Transition>)
    ensures frontier == Sort(ByTransitionId, Frontier(transitions, facts))
  {
    frontier := [];
    var best := 0;
    var i := 0;
    while i < |transitions|
      invariant 0 <= i <= |transitions|
      invariant frontier == Frontier(transitions[..i], facts)
      invariant frontier != [] ==> frontier[0].priority == best
    {
      var t := transitions[i];
      assert transitions[..i + 1][..i] == transitions[..i];
      if Enabled(t, facts) {
        if frontier == [] || t.priority < best {
          frontier, best := [t], t.priority;
        } else if t.priority == best {
          frontier := frontier + [t];
        }
      }
      i := i + 1;
    }
    assert transitions[..i] == transitions;
    frontier := Sort(ByTransitionId, frontier);
  }

  // ----- The state effect -----

  function ValueMap(parameters: seq<ResolvedParameter>): (r: map<string, string>)
    ensures forall p :: p in parameters ==> p.name in r
  {
    if parameters == [] then map[]
    else
      var n := |parameters| - 1;
      assert parameters == parameters[..n] + [parameters[n]];
      ValueMap(parameters[..n])[parameters[n].name := parameters[n].value]
  }

  predicate PreconditionHolds(p: Precondition, facts: Predicates.Facts) {
    (if p.facet in facts then facts[p.facet] else "") in p.values
  }

  datatype Effect = Applied(facts: Predicates.Facts) | PreconditionChanged | UnsupportedAssignment | ParameterAbsent

  function AssignedValue(a: Assignment, values: map<string, string>): Result<string, Effect> {
    if a.value.Some? then Ok(a.value.value)
    else if a.valueFrom.None? || a.valueFrom.value.parameter == "" then Err(UnsupportedAssignment)
    else if a.valueFrom.value.parameter in values then Ok(values[a.valueFrom.value.parameter])
    else Err(ParameterAbsent)
  }

  /** The fact map after the assignments, in order. */
  function Assigned(facts: Predicates.Facts, assignments: seq<Assignment>, values: map<string, string>): Effect {
    if assignments == [] then Applied(facts)
    else
      var n := |assignments| - 1;
      var before := Assigned(facts, assignments[..n], values);
      if !before.Applied? then before
      else match AssignedValue(assignments[n], values)
        case Ok(v) => Applied(before.facts[assignments[n].facet := v])
        case Err(e) => e
  }

  function EffectOn(facts: Predicates.Facts, effect: StateEffect, parameters: seq<ResolvedParameter>): Effect {
    if exists p :: p in effect.preconditions && !PreconditionHolds(p, facts) then PreconditionChanged
    else Assigned(facts, effect.assignments, ValueMap(parameters))
  }

  // ----- Why a checked effect cannot fail -----

  /** What compilation guarantees of an inline operator's effect. */
  ghost predicate CompiledEffect(effect: StateEffect) {
    && (forall i, j :: 0 <= i < j < |effect.assignments| ==> effect.assignments[i].facet != effect.assignments[j].facet)
    && (forall a :: a in effect.assignments ==> a.value.Some? != a.valueFrom.Some?)
  }

  /** The compiler's normal form of an accepted effect has that shape. */
  lemma NormalizedEffectCompiled(e: StateEffect, facets: Facets)
    requires StateEffectAccepted(e, facets)
    ensures CompiledEffect(e.(
      preconditions := Sort(ByPreconditionFacet, MapSeq(CanonicalPrecondition, e.preconditions)),
      assignments := Sort(ByAssignmentFacet, e.assignments)))
  {
    var sorted := Sort(ByAssignmentFacet, e.assignments);
    SortElements(ByAssignmentFacet, e.assignments);
    MapSeqMultiset((a: Assignment) => a.facet, e.assignments, sorted);
    DistinctPermuted(AssignmentFacets(e.assignments), AssignmentFacets(sorted));
    var names := AssignmentFacets(sorted);
    forall i, j | 0 <= i < j < |sorted| ensures sorted[i].facet != sorted[j].facet { assert names[i] != names[j]; }
    forall a | a in sorted ensures a.value.Some? != a.valueFrom.Some? {
      var k :| 0 <= k < |e.assignments| && e.assignments[k] == a;
      assert AssignmentAccepted(e.assignments[k], facets);
    }
  }

  lemma {:induction false} AssignedFrame(facts: Predicates.Facts, assignments: seq<Assignment>,
                                         values: map<string, string>, facet: string)
    requires Assigned(facts, assignments, values).Applied?
    requires forall a :: a in assignments ==> a.facet != facet
    ensures var after := Assigned(facts, assignments, values).facts;
      (facet in after <==> facet in facts) && (facet in facts ==> after[facet] == facts[facet])
  {
    if assignments != [] {
      var n := |assignments| - 1;
      assert assignments == assignments[..n] + [assignments[n]];
      AssignedFrame(facts, assignments[..n], values, facet);
    }
  }

  /** A literal assignment leaves the facet at that literal. */
  lemma {:induction false} AssignedLiteral(facts: Predicates.Facts, assignments: seq<Assignment>,
                                           values: map<string, string>, facet: string)
    requires Assigned(facts, assignments, values).Applied?
    requires forall i, j :: 0 <= i < j < |assignments| ==> assignments[i].facet != assignments[j].facet
    requires LiteralFor(assignments, facet).Some?
    ensures var after := Assigned(facts, assignments, values).facts;
      facet in after && after[facet] == LiteralFor(assignments, facet).value
  {
    var n := |assignments| - 1;
    if !(assignments[n].facet == facet && assignments[n].value.Some?) {
      AssignedLiteral(facts, assignments[..n], values, facet);
      LiteralAssigned(assignments[..n], facet);
    }
  }

  lemma {:induction false} LiteralAssigned(assignments: seq<Assignment>, facet: string)
    requires LiteralFor(assignments, facet).Some?
    ensures exists i :: 0 <= i < |assignments| && assignments[i].facet == facet
  {
    var n := |assignments| - 1;
    if !(assignments[n].facet == facet && assignments[n].value.Some?) {
      LiteralAssigned(assignments[..n], facet);
      var i :| 0 <= i < n && assignments[..n][i].facet == facet;
      assert assignments[i].facet == facet;
    }
  }

  /** Whether a fact's statuses allow a facet that has a value. */
  predicate AdmitsKnown(f: FactTest) { f.statuses == [] || "known" in f.statuses }

  /** What the checker would accept if it also looked at the statuses of the
      facts it takes from the guard. */
  predicate Secured(effect: StateEffect, guard: Predicate, target: Predicate)
    decreases target
  {
    if target.truth.Some? then target.truth.value
    else if target.fact.Some? then Established(effect, guard, target) && AdmitsKnown(target.fact.value)
    else if target.all != [] then forall i :: 0 <= i < |target.all| ==> Secured(effect, guard, target.all[i])
    else if target.any != [] then exists i :: 0 <= i < |target.any| && Secured(effect, guard, target.any[i])
    else false
  }

  /** Whether the effect and the guard settle the truth of a fact: the facet is
      assigned a literal, or left alone where the guard requires its values. */
  predicate FactDecided(effect: StateEffect, guard: Predicate, f: FactTest) {
    LiteralFor(effect.assignments, f.facet).Some? ||
    (!Mutated(effect, f.facet) && RequiresFacetValue(guard, f.facet, f.values))
  }

  /** A target without negation, every fact of which is settled. */
  predicate Decided(effect: StateEffect, guard: Predicate, target: Predicate)
    decreases target
  {
    if target.truth.Some? then true
    else if target.fact.Some? then FactDecided(effect, guard, target.fact.value)
    else if target.all != [] then forall i :: 0 <= i < |target.all| ==> Decided(effect, guard, target.all[i])
    else if target.any != [] then forall i :: 0 <= i < |target.any| ==> Decided(effect, guard, target.any[i])
    else false
  }

  /** A settled fact holds after the effect exactly when it is secured. */
  lemma FactSettled(effect: StateEffect, guard: Predicate, f: FactTest, facts: Predicates.Facts,
                    values: map<string, string>)
    requires CompiledEffect(effect) && Valid(guard) && Satisfied(guard, facts)
    requires FactDecided(effect, guard, f)
    requires Assigned(facts, effect.assignments, values).Applied?
    ensures Satisfied(Fact(f), Assigned(facts, effect.assignments, values).facts) <==> Secured(effect, guard, Fact(f))
  {
    if LiteralFor(effect.assignments, f.facet).Some? {
      AssignedLiteral(facts, effect.assignments, values, f.facet);
      LiteralAssigned(effect.assignments, f.facet);
    } else {
      RequiresFacetValueSound(guard, f.facet, f.values, facts);
      AssignedFrame(facts, effect.assignments, values, f.facet);
    }
  }

  /** A secured target holds after the effect wherever the guard held before. */
  lemma {:induction false} SecuredHolds(effect: StateEffect, guard: Predicate, target: Predicate,
                                        facts: Predicates.Facts, values: map<string, string>)
    requires CompiledEffect(effect) && Valid(guard) && Valid(target) && Satisfied(guard, facts)
    requires Secured(effect, guard, target)
    requires Assigned(facts, effect.assignments, values).Applied?
    ensures Satisfied(target, Assigned(facts, effect.assignments, values).facts)
    decreases target
  {
    var after := Assigned(facts, effect.assignments, values).facts;
    if target.truth.Some? {
    } else if target.fact.Some? {
      assert target == Fact(target.fact.value);
      FactSettled(effect, guard, target.fact.value, facts, values);
    } else if target.all != [] {
      forall i | 0 <= i < |target.all| ensures Satisfied(target.all[i], after) {
        SecuredHolds(effect, guard, target.all[i], facts, values);
      }
    } else {
      var i :| 0 <= i < |target.any| && Secured(effect, guard, target.any[i]);
      SecuredHolds(effect, guard, target.any[i], facts, values);
    }
  }

  /** On settled targets, disjunctions included, nothing else holds. */
  lemma {:induction false} SecuredExactly(effect: StateEffect, guard: Predicate, target: Predicate,
                                          facts: Predicates.Facts, values: map<string, string>)
    requires CompiledEffect(effect) && Valid(guard) && Valid(target) && Satisfied(guard, facts)
    requires Decided(effect, guard, target)
    requires Assigned(facts, effect.assignments, values).Applied?
    ensures Satisfied(target, Assigned(facts, effect.assignments, values).facts) <==> Secured(effect, guard, target)
    decreases target
  {
    var after := Assigned(facts, effect.assignments, values).facts;
    if target.truth.Some? {
    } else if target.fact.Some? {
      assert target == Fact(target.fact.value);
      FactSettled(effect, guard, target.fact.value, facts, values);
    } else {
      forall i | 0 <= i < |target.all|
        ensures Satisfied(target.all[i], after) == Secured(effect, guard, target.all[i]) {
        SecuredExactly(effect, guard, target.all[i], facts, values);
      }
      forall i | 0 <= i < |target.any|
        ensures Satisfied(target.any[i], after) == Secured(effect, guard, target.any[i]) {
        SecuredExactly(effect, guard, target.any[i], facts, values);
      }
    }
  }

  /** A target without disjunction. */
  predicate Conjunctive(target: Predicate) {
    target.any == [] && forall i :: 0 <= i < |target.all| ==> Conjunctive(target.all[i])
  }

  /** Every fact of the target allows the status `known`. */
  predicate AllAdmitKnown(target: Predicate) {
    && (target.fact.Some? ==> AdmitsKnown(target.fact.value))
    && (forall i :: 0 <= i < |target.all| ==> AllAdmitKnown(target.all[i]))
    && (forall i :: 0 <= i < |target.any| ==> AllAdmitKnown(target.any[i]))
  }

  /** How the checker compares: what is secured it accepts; what it accepts is
      settled if nothing is disjoined, and secured if every fact allows `known`. */
  lemma {:induction false} EstablishedCompared(effect: StateEffect, guard: Predicate, target: Predicate)
    requires Valid(target)
    ensures Secured(effect, guard, target) ==> Established(effect, guard, target)
    ensures Established(effect, guard, target) && Conjunctive(target) ==> Decided(effect, guard, target)
    ensures Established(effect, guard, target) && AllAdmitKnown(target) ==> Secured(effect, guard, target)
    decreases target
  {
    if target.truth.None? && target.fact.None? {
      forall i | 0 <= i < |target.all|
        ensures Secured(effect, guard, target.all[i]) ==> Established(effect, guard, target.all[i])
        ensures Established(effect, guard, target.all[i]) && Conjunctive(target.all[i]) ==>
          Decided(effect, guard, target.all[i])
        ensures Established(effect, guard, target.all[i]) && AllAdmitKnown(target.all[i]) ==>
          Secured(effect, guard, target.all[i])
      {
        EstablishedCompared(effect, guard, target.all[i]);
      }
      forall i | 0 <= i < |target.any|
        ensures Secured(effect, guard, target.any[i]) ==> Established(effect, guard, target.any[i])
        ensures Established(effect, guard, target.any[i]) && AllAdmitKnown(target.any[i]) ==>
          Secured(effect, guard, target.any[i])
      {
        EstablishedCompared(effect, guard, target.any[i]);
      }
    }
  }

  /** The checker accepts this target for this effect and guard, and it is never
      reached: the facet must hold a value and be absent. */
  lemma StatusesAreIgnored()
    ensures var effect := StateEffect("assignments", [], [Assignment("done", Some("yes"), None)], "");
      var guard := Fact(FactTest("stage", [], ["open"]));
      var target := Fact(FactTest("stage", ["absent"], ["open"]));
      && CompiledEffect(effect) && Valid(guard) && Valid(target)
      && Established(effect, guard, target) && Satisfied(guard, map["stage" := "open"])
      && forall facts: Predicates.Facts :: Satisfied(guard, facts) ==>
        var after := Assigned(facts, effect.assignments, map[]); after.Applied? && !Satisfied(target, after.facts)
  {
    var effect := StateEffect("assignments", [], [Assignment("done", Some("yes"), None)], "");
    var guard := Fact(FactTest("stage", [], ["open"]));
    var target := Fact(FactTest("stage", ["absent"], ["open"]));
    assert effect.assignments[..0] == [];
    forall facts: Predicates.Facts | Satisfied(guard, facts)
      ensures var after := Assigned(facts, effect.assignments, map[]); after.Applied? && !Satisfied(target, after.facts)
    {
      AssignmentsApply(facts, effect.assignments, map[]);
      FactSettled(effect, guard, target.fact.value, facts, map[]);
    }
  }

  lemma {:induction false} AssignmentsApply(facts: Predicates.Facts, assignments: seq<Assignment>,
                                            values: map<string, string>)
    requires forall a :: a in assignments ==> AssignedValue(a, values).Ok?
    ensures Assigned(facts, assignments, values).Applied?
  {
    if assignments != [] {
      var n := |assignments| - 1;
      assert assignments == assignments[..n] + [assignments[n]];
      AssignmentsApply(facts, assignments[..n], values);
    }
  }

  /** What the driver may rely on for one compiled transition. */
  ghost predicate CompiledTransition(doc: Document, t: Transition) {
    && Valid(t.guard) && Valid(t.target)
    && forall op :: op in doc.operators ==> CompiledEffect(op.stateEffect)
  }

  /** Once ready, every bound parameter has a value. */
  lemma BoundHasValue(t: Transition, op: Operator, context: Context, now: int, contract: OperatorParameter)
    requires Materialized(op.parameters, ProducerMap(t.parameters), context, now).Ready?
    requires contract in op.parameters && contract.id in ProducerMap(t.parameters)
    ensures contract.id in
      ValueMap(Materialized(op.parameters, ProducerMap(t.parameters), context, now).evidence.parameters)
  {
    ReadyComplete(op.parameters, ProducerMap(t.parameters), context, now, contract);
  }

  lemma CheckedAssignment(doc: Document, t: Transition, op: Operator, context: Context, now: int, a: Assignment)
    requires AssignmentSupported(a, FacetNamed(doc.facets, a.facet), t, op) && a.value.Some? != a.valueFrom.Some?
    requires Materialized(op.parameters, ProducerMap(t.parameters), context, now).Ready?
    ensures AssignedValue(a, ValueMap(Materialized(op.parameters, ProducerMap(t.parameters), context,
      now).evidence.parameters)).Ok?
  {
    if a.value.None? {
      var contract := ContractNamed(op.parameters, a.valueFrom.value.parameter).value;
      BoundHasValue(t, op, context, now, contract);
    }
  }

  /** A checked transition whose guard holds and whose invocation is ready
      applies its effect; it reaches its target if that is secured, and, if the
      target is settled, only then. */
  lemma CheckedEffectSucceeds(doc: Document, t: Transition, op: Operator, facts: Predicates.Facts, context: Context,
                              now: int)
    requires TransitionSupported(doc, t) && CompiledTransition(doc, t)
    requires OperatorNamed(doc.operators, t.operator) == Some(op)
    requires Satisfied(t.guard, facts)
    requires Materialized(op.parameters, ProducerMap(t.parameters), context, now).Ready?
    ensures var parameters := Materialized(op.parameters, ProducerMap(t.parameters), context, now).evidence.parameters;
      var e := EffectOn(facts, op.stateEffect, parameters);
      && e.Applied?
      && (Secured(op.stateEffect, t.guard, t.target) ==> Satisfied(t.target, e.facts))
      && (Decided(op.stateEffect, t.guard, t.target) ==>
           (Satisfied(t.target, e.facts) <==> Secured(op.stateEffect, t.guard, t.target)))
  {
    var values := ValueMap(Materialized(op.parameters, ProducerMap(t.parameters), context, now).evidence.parameters);
    forall p | p in op.stateEffect.preconditions ensures PreconditionHolds(p, facts) {
      RequiresFacetValueSound(t.guard, p.facet, p.values, facts);
    }
    forall a | a in op.stateEffect.assignments ensures AssignedValue(a, values).Ok? {
      CheckedAssignment(doc, t, op, context, now, a);
    }
    AssignmentsApply(facts, op.stateEffect.assignments, values);
    if Secured(op.stateEffect, t.guard, t.target) {
      SecuredHolds(op.stateEffect, t.guard, t.target, facts, values);
    } else if Decided(op.stateEffect, t.guard, t.target) {
      SecuredExactly(op.stateEffect, t.guard, t.target, facts, values);
    }
  }
}
