/** The guard language of a Control Program and the syntactic implication the
    compiler relies on. A predicate is a closed AST node with five optional
    variants; the compiler accepts it only when exactly one is present. */
module Predicates {
  import opened Base

  datatype FactTest = FactTest(facet: string, statuses: seq<string>, values: seq<string>)

  datatype Predicate = Predicate(
    all: seq<Predicate>,
    any: seq<Predicate>,
    negated: Option<Predicate>,
    fact: Option<FactTest>,
    truth: Option<bool>)

  type Facts = map<string, string>

  function Count(present: bool): nat { if present then 1 else 0 }

  function Variants(p: Predicate): nat {
    Count(p.all != []) + Count(p.any != []) + Count(p.negated.Some?) + Count(p.fact.Some?) + Count(p.truth.Some?)
  }

  /** Exactly one variant at every node. */
  predicate Valid(p: Predicate) {
    && Variants(p) == 1
    && (forall i :: 0 <= i < |p.all| ==> Valid(p.all[i]))
    && (forall i :: 0 <= i < |p.any| ==> Valid(p.any[i]))
    && (p.negated.Some? ==> Valid(p.negated.value))
  }

  function All(ps: seq<Predicate>): Predicate { Predicate(ps, [], None, None, None) }
  function Any(ps: seq<Predicate>): Predicate { Predicate([], ps, None, None, None) }
  function Fact(f: FactTest): Predicate { Predicate([], [], None, Some(f), None) }
  function Truth(b: bool): Predicate { Predicate([], [], None, None, Some(b)) }
  const Empty := Predicate([], [], None, None, None)

  predicate FactSatisfied(f: FactTest, facts: Facts) {
    var known := f.facet in facts;
    var status := if known then "known" else "absent";
    && (f.statuses == [] || status in f.statuses)
    && (f.values == [] || (known && facts[f.facet] in f.values))
  }

  /** Truth of a predicate over a fact map. */
  predicate Satisfied(p: Predicate, facts: Facts) {
    if p.truth.Some? then p.truth.value
    else if p.fact.Some? then FactSatisfied(p.fact.value, facts)
    else if p.all != [] then forall i :: 0 <= i < |p.all| ==> Satisfied(p.all[i], facts)
    else if p.any != [] then exists i :: 0 <= i < |p.any| && Satisfied(p.any[i], facts)
    else p.negated.Some? && !Satisfied(p.negated.value, facts)
  }

  /** The compiler's structural implication test. */
  predicate Implies(guard: Predicate, condition: Predicate)
    decreases guard, condition
  {
    if condition.truth == Some(true) then true
    else if condition == guard then true
    else if condition.all != [] then forall i :: 0 <= i < |condition.all| ==> Implies(guard, condition.all[i])
    else if guard.any != [] then forall i :: 0 <= i < |guard.any| ==> Implies(guard.any[i], condition)
    else
      || (exists i :: 0 <= i < |guard.all| && Implies(guard.all[i], condition))
      || (exists i :: 0 <= i < |condition.any| && Implies(guard, condition.any[i]))
  }

  /** What the compiler accepts as implied is true wherever the guard is. */
  lemma {:induction false} ImpliesSound(guard: Predicate, condition: Predicate, facts: Facts)
    requires Valid(guard) && Valid(condition)
    requires Implies(guard, condition) && Satisfied(guard, facts)
    ensures Satisfied(condition, facts)
    decreases guard, condition
  {
    if condition.truth == Some(true) || condition == guard {
    } else if condition.all != [] {
      forall i | 0 <= i < |condition.all| ensures Satisfied(condition.all[i], facts) {
        ImpliesSound(guard, condition.all[i], facts);
      }
    } else if guard.any != [] {
      var i :| 0 <= i < |guard.any| && Satisfied(guard.any[i], facts);
      ImpliesSound(guard.any[i], condition, facts);
    } else if i :| 0 <= i < |guard.all| && Implies(guard.all[i], condition) {
      ImpliesSound(guard.all[i], condition, facts);
    } else {
      var i :| 0 <= i < |condition.any| && Implies(guard, condition.any[i]);
      ImpliesSound(guard, condition.any[i], facts);
    }
  }

  /** A disjunction implies what it implies only if each branch does. */
  lemma {:induction false} LeftInversion(xs: seq<Predicate>, y: Predicate, k: nat)
    requires Valid(Any(xs)) && Valid(y) && k < |xs|
    requires Implies(Any(xs), y)
    ensures Implies(xs[k], y)
    decreases Any(xs), y, 0
  {
    var a := Any(xs);
    assert a.any[k] == xs[k];
    if y.truth == Some(true) {
    } else if y == a {
      assert xs[k] < a;
      WeakenRight(xs[k], xs, k);
    } else if y.all != [] {
      forall i | 0 <= i < |y.all| ensures Implies(xs[k], y.all[i]) {
        LeftInversion(xs, y.all[i], k);
      }
    }
  }

  /** Implying one branch is enough to imply a disjunction. */
  lemma {:induction false} WeakenRight(x: Predicate, ys: seq<Predicate>, k: nat)
    requires Valid(x) && Valid(Any(ys)) && k < |ys|
    requires Implies(x, ys[k])
    ensures Implies(x, Any(ys))
    decreases x, Any(ys), 1
  {
    var y := Any(ys);
    assert y.any[k] == ys[k];
    if x != y && x.any != [] {
      assert x == Any(x.any);
      forall i | 0 <= i < |x.any| ensures Implies(x.any[i], y) {
        LeftInversion(x.any, ys[k], i);
        WeakenRight(x.any[i], ys, k);
      }
    }
  }

  /** A conjunction is implied only if each conjunct is. */
  lemma {:induction false} RightInversion(x: Predicate, ys: seq<Predicate>, k: nat)
    requires Valid(x) && Valid(All(ys)) && k < |ys|
    requires Implies(x, All(ys))
    ensures Implies(x, ys[k])
    decreases All(ys), x, 0
  {
    var y := All(ys);
    assert y.all[k] == ys[k];
    if x == y {
      WeakenLeft(ys, ys[k], k);
    }
  }

  /** One conjunct is enough for a conjunction to imply something. */
  lemma {:induction false} WeakenLeft(xs: seq<Predicate>, y: Predicate, k: nat)
    requires Valid(All(xs)) && Valid(y) && k < |xs|
    requires Implies(xs[k], y)
    ensures Implies(All(xs), y)
    decreases y, All(xs), 1
  {
    var x := All(xs);
    assert x.all[k] == xs[k];
    if y != x && y.all != [] {
      assert y == All(y.all);
      forall i | 0 <= i < |y.all| ensures Implies(x, y.all[i]) {
        RightInversion(xs[k], y.all, i);
        WeakenLeft(xs, y.all[i], k);
      }
    }
  }

  /** Cut elimination: implications compose, although no rule of the test
      composes them. */
  lemma {:induction false} ImpliesTransitive(a: Predicate, b: Predicate, c: Predicate)
    requires Valid(a) && Valid(b) && Valid(c)
    requires Implies(a, b) && Implies(b, c)
    ensures Implies(a, c)
    decreases a, b, c
  {
    if c.truth == Some(true) || a == b || b == c || a == c {
    } else if c.all != [] {
      assert c == All(c.all);
      forall i | 0 <= i < |c.all| ensures Implies(a, c.all[i]) {
        ImpliesTransitive(a, b, c.all[i]);
      }
    } else if a.any != [] {
      assert a == Any(a.any);
      forall i | 0 <= i < |a.any| ensures Implies(a.any[i], c) {
        LeftInversion(a.any, b, i);
        ImpliesTransitive(a.any[i], b, c);
      }
    } else if b.any != [] {
      CutDisjunction(a, b, c);
    } else if i :| 0 <= i < |b.all| && Implies(b.all[i], c) {
      assert b == All(b.all);
      RightInversion(a, b.all, i);
      ImpliesTransitive(a, b.all[i], c);
    } else {
      var i :| 0 <= i < |c.any| && Implies(b, c.any[i]);
      assert c == Any(c.any);
      ImpliesTransitive(a, b, c.any[i]);
      WeakenRight(a, c.any, i);
    }
  }

  lemma {:induction false} CutDisjunction(a: Predicate, b: Predicate, c: Predicate)
    requires Valid(a) && Valid(b) && Valid(c)
    requires Implies(a, b) && Implies(b, c)
    requires a != b && b != c && a.any == [] && b.any != [] && c.all == [] && c.truth != Some(true)
    ensures Implies(a, c)
    decreases a, b, c, 0
  {
    if i :| 0 <= i < |a.all| && Implies(a.all[i], b) {
      assert a == All(a.all);
      ImpliesTransitive(a.all[i], b, c);
      WeakenLeft(a.all, c, i);
    } else {
      var i :| 0 <= i < |b.any| && Implies(a, b.any[i]);
      ImpliesTransitive(a, b.any[i], c);
    }
  }

  /** A relation for which `All` is a greatest lower bound, `Any` a least upper
      bound and `true` the top element. */
  ghost predicate LatticeOrder(r: (Predicate, Predicate) -> bool) {
    && (forall x :: Valid(x) ==> r(x, x))
    && (forall x, y, z :: Valid(x) && Valid(y) && Valid(z) && r(x, y) && r(y, z) ==> r(x, z))
    && (forall x :: Valid(x) ==> r(x, Truth(true)))
    && (forall x, ys :: Valid(x) && Valid(All(ys)) ==>
      (r(x, All(ys)) <==> forall i :: 0 <= i < |ys| ==> r(x, ys[i])))
    && (forall xs, y :: Valid(Any(xs)) && Valid(y) ==>
      (r(Any(xs), y) <==> forall i :: 0 <= i < |xs| ==> r(xs[i], y)))
  }

  /** The test is itself such an order ... */
  lemma ImpliesIsLatticeOrder()
    ensures LatticeOrder(Implies)
  {
    forall x, y, z | Valid(x) && Valid(y) && Valid(z) && Implies(x, y) && Implies(y, z) ensures Implies(x, z) {
      ImpliesTransitive(x, y, z);
    }
    forall x, ys | Valid(x) && Valid(All(ys))
      ensures Implies(x, All(ys)) <==> forall i :: 0 <= i < |ys| ==> Implies(x, ys[i])
    {
      if Implies(x, All(ys)) {
        forall i | 0 <= i < |ys| ensures Implies(x, ys[i]) { RightInversion(x, ys, i); }
      }
    }
    forall xs, y | Valid(Any(xs)) && Valid(y)
      ensures Implies(Any(xs), y) <==> forall i :: 0 <= i < |xs| ==> Implies(xs[i], y)
    {
      if Implies(Any(xs), y) {
        forall i | 0 <= i < |xs| ensures Implies(xs[i], y) { LeftInversion(xs, y, i); }
      } else if forall i :: 0 <= i < |xs| ==> Implies(xs[i], y) {
        DisjunctionEliminates(xs, y);
      }
    }
  }

  lemma {:induction false} DisjunctionEliminates(xs: seq<Predicate>, y: Predicate)
    requires Valid(Any(xs)) && Valid(y)
    requires forall i :: 0 <= i < |xs| ==> Implies(xs[i], y)
    ensures Implies(Any(xs), y)
    decreases y
  {
    if y.all != [] {
      assert y == All(y.all);
      forall j | 0 <= j < |y.all| ensures Implies(Any(xs), y.all[j]) {
        forall i | 0 <= i < |xs| ensures Implies(xs[i], y.all[j]) {
          assert Valid(Any(xs).any[i]);
          RightInversion(xs[i], y.all, j);
        }
        DisjunctionEliminates(xs, y.all[j]);
      }
    }
  }

  /** ... and the least one: it accepts exactly what holds in every lattice
      reading of the guards (Whitman's theorem for this AST). */
  lemma {:induction false} ImpliesIsLeast(guard: Predicate, condition: Predicate, r: (Predicate, Predicate) -> bool)
    requires Valid(guard) && Valid(condition)
    requires LatticeOrder(r) && Implies(guard, condition)
    ensures r(guard, condition)
    decreases guard, condition
  {
    if condition.truth == Some(true) {
      assert condition == Truth(true);
    } else if condition == guard {
    } else if condition.all != [] {
      assert condition == All(condition.all);
      forall i | 0 <= i < |condition.all| ensures r(guard, condition.all[i]) {
        ImpliesIsLeast(guard, condition.all[i], r);
      }
    } else if guard.any != [] {
      assert guard == Any(guard.any);
      forall i | 0 <= i < |guard.any| ensures r(guard.any[i], condition) {
        ImpliesIsLeast(guard.any[i], condition, r);
      }
    } else if i :| 0 <= i < |guard.all| && Implies(guard.all[i], condition) {
      assert guard == All(guard.all);
      ImpliesIsLeast(guard.all[i], condition, r);
      assert r(guard, All(guard.all));
    } else {
      var i :| 0 <= i < |condition.any| && Implies(guard, condition.any[i]);
      assert condition == Any(condition.any);
      ImpliesIsLeast(guard, condition.any[i], r);
      assert r(Any(condition.any), condition);
    }
  }

  /** Every lattice order relates the two. */
  ghost predicate InEveryOrder(guard: Predicate, condition: Predicate) {
    forall r: (Predicate, Predicate) -> bool :: LatticeOrder(r) ==> r(guard, condition)
  }

  lemma ImpliedInEveryOrder(guard: Predicate, condition: Predicate)
    requires Valid(guard) && Valid(condition) && Implies(guard, condition)
    ensures InEveryOrder(guard, condition)
  {
    forall r: (Predicate, Predicate) -> bool | LatticeOrder(r) ensures r(guard, condition) {
      ImpliesIsLeast(guard, condition, r);
    }
  }

  lemma ImpliedInItsOwn(r: (Predicate, Predicate) -> bool, guard: Predicate, condition: Predicate)
    requires LatticeOrder(r) && InEveryOrder(guard, condition)
    ensures r(guard, condition)
  {
  }

  /** So the syntactic test decides validity in all lattice readings. */
  lemma ImpliesCharacterized(guard: Predicate, condition: Predicate)
    requires Valid(guard) && Valid(condition)
    ensures Implies(guard, condition) <==> InEveryOrder(guard, condition)
  {
    if Implies(guard, condition) {
      ImpliedInEveryOrder(guard, condition);
    } else if InEveryOrder(guard, condition) {
      ImpliesIsLatticeOrder();
      ImpliedInItsOwn(Implies, guard, condition);
    }
  }

  /** Every satisfying state knows the facet. */
  predicate RequiresKnownFacet(p: Predicate, facet: string) {
    if p.fact.Some? then
      && p.fact.value.facet == facet
      && (p.fact.value.values != [] || p.fact.value.statuses == ["known"])
    else if p.all != [] then exists i :: 0 <= i < |p.all| && RequiresKnownFacet(p.all[i], facet)
    else if p.any != [] then forall i :: 0 <= i < |p.any| ==> RequiresKnownFacet(p.any[i], facet)
    else false
  }

  lemma {:induction false} RequiresKnownFacetSound(p: Predicate, facet: string, facts: Facts)
    requires Valid(p) && RequiresKnownFacet(p, facet) && Satisfied(p, facts)
    ensures facet in facts
  {
    if p.fact.Some? {
    } else if p.all != [] {
      var i :| 0 <= i < |p.all| && RequiresKnownFacet(p.all[i], facet);
      RequiresKnownFacetSound(p.all[i], facet, facts);
    } else {
      var i :| 0 <= i < |p.any| && Satisfied(p.any[i], facts);
      RequiresKnownFacetSound(p.any[i], facet, facts);
    }
  }

  /** Every satisfying state holds the facet at one of the values. */
  predicate RequiresFacetValue(p: Predicate, facet: string, values: seq<string>) {
    if p.fact.Some? then
      && p.fact.value.facet == facet && p.fact.value.values != []
      && forall v :: v in p.fact.value.values ==> v in values
    else if p.all != [] then exists i :: 0 <= i < |p.all| && RequiresFacetValue(p.all[i], facet, values)
    else if p.any != [] then forall i :: 0 <= i < |p.any| ==> RequiresFacetValue(p.any[i], facet, values)
    else false
  }

  lemma {:induction false} RequiresFacetValueSound(p: Predicate, facet: string, values: seq<string>, facts: Facts)
    requires Valid(p) && RequiresFacetValue(p, facet, values) && Satisfied(p, facts)
    ensures facet in facts && facts[facet] in values
  {
    if p.fact.Some? {
    } else if p.all != [] {
      var i :| 0 <= i < |p.all| && RequiresFacetValue(p.all[i], facet, values);
      RequiresFacetValueSound(p.all[i], facet, values, facts);
    } else {
      var i :| 0 <= i < |p.any| && Satisfied(p.any[i], facts);
      RequiresFacetValueSound(p.any[i], facet, values, facts);
    }
  }
}
