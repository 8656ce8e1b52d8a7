/** Canonical form of predicates: validation against the declared facets, and
    sorting of the children and value lists. The byte order of the canonical
    JSON encoding is an arbitrary total order `less` here. */
module Normalize {
  import opened Base
  import opened Ordering
  import opened Predicates

  datatype Facet = Facet(id: string, kind: string, values: seq<string>)

  type Facets = map<string, Facet>

  type PredicateOrder = (Predicate, Predicate) -> bool

  const FACT_STATUSES := {"absent", "ambiguous", "conflicting", "known", "stale", "unknown"}

  ghost predicate WellFormedValues(values: seq<string>) {
    Distinct(values) && "" !in values
  }

  /** The first i entries are not empty and differ from their neighbours. */
  predicate FilledUpTo(out: seq<string>, i: nat) {
    i <= |out| && forall k :: 0 <= k < i ==> out[k] != "" && (k > 0 ==> out[k - 1] != out[k])
  }

  lemma SortedValuesDecide(values: seq<string>)
    ensures WellFormedValues(values) <==> FilledUpTo(SortStrings(values), |SortStrings(values)|)
  {
    var out := SortStrings(values);
    StringLessTotal();
    SortSorted(StringLess, values);
    AdjacentDecidesDistinct(out);
    DistinctPermuted(out, values);
  }

  /** Sorts a copy and rejects empty or repeated entries. */
  method NormalizedValues(values: seq<string>) returns (r: Option<seq<string>>)
    ensures r == if WellFormedValues(values) then Some(SortStrings(values)) else None
  {
    var out := SortStrings(values);
    SortedValuesDecide(values);
    var i := 0;
    while i < |out|
      invariant 0 <= i <= |out|
      invariant FilledUpTo(out, i)
    {
      if out[i] == "" || (i > 0 && out[i - 1] == out[i]) { return None; }
      i := i + 1;
    }
    return Some(out);
  }

  ghost predicate AcceptableFact(f: FactTest, facets: Facets) {
    && f.facet in facets
    && WellFormedValues(f.statuses) && WellFormedValues(f.values)
    && (forall s :: s in f.statuses ==> s in FACT_STATUSES)
    && (facets[f.facet].kind == "enum" ==> forall v :: v in f.values ==> v in facets[f.facet].values)
  }

  /** What the normalizer accepts. */
  ghost predicate Acceptable(p: Predicate, facets: Facets) {
    && Variants(p) == 1
    && (forall i :: 0 <= i < |p.all| ==> Acceptable(p.all[i], facets))
    && (forall i :: 0 <= i < |p.any| ==> Acceptable(p.any[i], facets))
    && (p.negated.Some? ==> Acceptable(p.negated.value, facets))
    && (p.fact.Some? ==> AcceptableFact(p.fact.value, facets))
  }

  lemma {:induction false} AcceptableIsValid(p: Predicate, facets: Facets)
    requires Acceptable(p, facets)
    ensures Valid(p)
  {
    forall i | 0 <= i < |p.all| ensures Valid(p.all[i]) { AcceptableIsValid(p.all[i], facets); }
    forall i | 0 <= i < |p.any| ensures Valid(p.any[i]) { AcceptableIsValid(p.any[i], facets); }
    if p.negated.Some? { AcceptableIsValid(p.negated.value, facets); }
  }

  function CanonicalFact(f: FactTest): FactTest {
    f.(statuses := SortStrings(f.statuses), values := SortStrings(f.values))
  }

  function CanonicalChildren(ps: seq<Predicate>, less: PredicateOrder): (r: seq<Predicate>)
    ensures |r| == |ps| && forall i :: 0 <= i < |ps| ==> r[i] == Canonical(ps[i], less)
  {
    seq(|ps|, i requires 0 <= i < |ps| => Canonical(ps[i], less))
  }

  /** The form the normalizer leaves behind. */
  function Canonical(p: Predicate, less: PredicateOrder): Predicate {
    Predicate(
      Sort(less, CanonicalChildren(p.all, less)),
      Sort(less, CanonicalChildren(p.any, less)),
      if p.negated.Some? then Some(Canonical(p.negated.value, less)) else None,
      if p.fact.Some? then Some(CanonicalFact(p.fact.value)) else None,
      p.truth)
  }

  ghost predicate AllAcceptable(ps: seq<Predicate>, facets: Facets) {
    forall i :: 0 <= i < |ps| ==> Acceptable(ps[i], facets)
  }

  /** With one variant present, acceptance and canonical form concern it alone. */
  lemma SingleVariant(p: Predicate, facets: Facets, less: PredicateOrder)
    requires Variants(p) == 1
    ensures p.all != [] ==> (
      && Acceptable(p, facets) == AllAcceptable(p.all, facets)
      && Canonical(p, less) == p.(all := Sort(less, CanonicalChildren(p.all, less))))
    ensures p.any != [] ==> (
      && Acceptable(p, facets) == AllAcceptable(p.any, facets)
      && Canonical(p, less) == p.(any := Sort(less, CanonicalChildren(p.any, less))))
    ensures p.negated.Some? ==> (
      && Acceptable(p, facets) == Acceptable(p.negated.value, facets)
      && Canonical(p, less) == p.(negated := Some(Canonical(p.negated.value, less))))
    ensures p.fact.Some? ==> (
      && Acceptable(p, facets) == AcceptableFact(p.fact.value, facets)
      && Canonical(p, less) == p.(fact := Some(CanonicalFact(p.fact.value))))
    ensures p.truth.Some? ==> Acceptable(p, facets) && Canonical(p, less) == p
  {
    assert CanonicalChildren([], less) == [];
  }

  method NormalizeChildren(ps: seq<Predicate>, facets: Facets, less: PredicateOrder) returns (r: Option<seq<Predicate>>)
    ensures r.Some? <==> AllAcceptable(ps, facets)
    ensures r.Some? ==> r.value == Sort(less, CanonicalChildren(ps, less))
    decreases ps, 0
  {
    var children := ps;
    var i := 0;
    while i < |ps|
      invariant 0 <= i <= |ps|
      invariant Normalizing(children, ps, facets, less, i)
    {
      ChildUntouched(children, ps, facets, less, i);
      var child := NormalizePredicate(children[i], facets, less);
      if child.None? {
        RejectedChild(ps, i, facets);
        return None;
      }
      NormalizingStep(children, ps, facets, less, i);
      children := children[i := child.value];
      i := i + 1;
    }
    NormalizingDone(children, ps, facets, less);
    return Some(Sort(less, children));
  }

  /** Children being normalized in place, i of them accepted and done. */
  ghost predicate Normalizing(children: seq<Predicate>, ps: seq<Predicate>, facets: Facets, less: PredicateOrder,
                              i: nat) {
    i <= |ps| && PartlyRewritten(children, ps, CanonicalChildren(ps, less), i) && AllAcceptable(ps[..i], facets)
  }

  lemma ChildUntouched(children: seq<Predicate>, ps: seq<Predicate>, facets: Facets, less: PredicateOrder, i: nat)
    requires Normalizing(children, ps, facets, less, i) && i < |ps|
    ensures |children| == |ps| && children[i] == ps[i]
  {
  }

  lemma NormalizingStep(children: seq<Predicate>, ps: seq<Predicate>, facets: Facets, less: PredicateOrder, i: nat)
    requires Normalizing(children, ps, facets, less, i) && i < |ps| && Acceptable(ps[i], facets)
    ensures |children| == |ps| && Normalizing(children[i := Canonical(ps[i], less)], ps, facets, less, i + 1)
  {
    RewriteStep(children, ps, CanonicalChildren(ps, less), i);
    AcceptedChild(ps, i, facets);
  }

  lemma NormalizingDone(children: seq<Predicate>, ps: seq<Predicate>, facets: Facets, less: PredicateOrder)
    requires Normalizing(children, ps, facets, less, |ps|)
    ensures children == CanonicalChildren(ps, less) && AllAcceptable(ps, facets)
  {
    Rewritten(children, ps, CanonicalChildren(ps, less));
    assert ps[..|ps|] == ps;
  }

  lemma RejectedChild(ps: seq<Predicate>, i: nat, facets: Facets)
    requires i < |ps| && !Acceptable(ps[i], facets)
    ensures !AllAcceptable(ps, facets)
  {
  }

  lemma AcceptedChild(ps: seq<Predicate>, i: nat, facets: Facets)
    requires i < |ps| && AllAcceptable(ps[..i], facets) && Acceptable(ps[i], facets)
    ensures AllAcceptable(ps[..i + 1], facets)
  {
    var longer := ps[..i + 1];
    forall k | 0 <= k < |longer| ensures Acceptable(longer[k], facets) {
      if k < i { assert ps[..i][k] == longer[k]; }
    }
  }

  /** One pass that validates a node, rewrites its children and sorts them. */
  method NormalizePredicate(p: Predicate, facets: Facets, less: PredicateOrder) returns (r: Option<Predicate>)
    ensures r.Some? <==> Acceptable(p, facets)
    ensures r.Some? ==> r.value == Canonical(p, less)
    decreases p, 1
  {
    if Variants(p) != 1 { return None; }
    SingleVariant(p, facets, less);
    if p.all != [] {
      var children := NormalizeChildren(p.all, facets, less);
      if children.None? { return None; }
      return Some(p.(all := children.value));
    }
    if p.any != [] {
      var children := NormalizeChildren(p.any, facets, less);
      if children.None? { return None; }
      return Some(p.(any := children.value));
    }
    if p.negated.Some? {
      var child := NormalizePredicate(p.negated.value, facets, less);
      if child.None? { return None; }
      return Some(p.(negated := child));
    }
    if p.fact.Some? {
      var fact := NormalizeFact(p.fact.value, facets);
      if fact.None? { return None; }
      return Some(p.(fact := fact));
    }
    return Some(p);
  }

  method NormalizeFact(f: FactTest, facets: Facets) returns (r: Option<FactTest>)
    ensures r == if AcceptableFact(f, facets) then Some(CanonicalFact(f)) else None
  {
    if f.facet !in facets { return None; }
    var statuses := NormalizedValues(f.statuses);
    if statuses.None? { return None; }
    if exists s :: s in statuses.value && s !in FACT_STATUSES { return None; }
    var values := NormalizedValues(f.values);
    if values.None? { return None; }
    if facets[f.facet].kind == "enum" && exists v :: v in values.value && v !in facets[f.facet].values { return None; }
    return Some(f.(statuses := statuses.value, values := values.value));
  }

  // ----- Equality up to nested reordering -----

  ghost predicate ReorderedChildren(ps: seq<Predicate>, qs: seq<Predicate>, perm: seq<nat>) {
    |qs| == |ps| && IsPermutation(perm, |ps|) && forall i :: 0 <= i < |ps| ==> Reordered(ps[i], qs[perm[i]])
  }

  ghost predicate ReorderedFact(f: FactTest, g: FactTest) {
    f.facet == g.facet && multiset(f.statuses) == multiset(g.statuses) && multiset(f.values) == multiset(g.values)
  }

  /** Equal except for the order of children and of value lists, at any depth. */
  ghost predicate Reordered(p: Predicate, q: Predicate)
    decreases p
  {
    && (exists perm :: ReorderedChildren(p.all, q.all, perm))
    && (exists perm :: ReorderedChildren(p.any, q.any, perm))
    && p.negated.Some? == q.negated.Some? && (p.negated.Some? ==> Reordered(p.negated.value, q.negated.value))
    && p.fact.Some? == q.fact.Some? && (p.fact.Some? ==> ReorderedFact(p.fact.value, q.fact.value))
    && p.truth == q.truth
  }

  lemma {:induction false} ReorderedChildrenCanonical(ps: seq<Predicate>, qs: seq<Predicate>, perm: seq<nat>,
                                                      less: PredicateOrder)
    requires TotalOrder(less) && ReorderedChildren(ps, qs, perm)
    ensures Sort(less, CanonicalChildren(ps, less)) == Sort(less, CanonicalChildren(qs, less))
    decreases ps, 0
  {
    var a, b := CanonicalChildren(ps, less), CanonicalChildren(qs, less);
    forall i | 0 <= i < |ps| ensures a[i] == b[perm[i]] {
      ReorderedSameCanonical(ps[i], qs[perm[i]], less);
    }
    RearrangedMultiset(a, b, perm);
    SortCanonical(less, a, b);
  }

  /** Reordered predicates have one canonical form ... */
  lemma {:induction false} ReorderedSameCanonical(p: Predicate, q: Predicate, less: PredicateOrder)
    requires TotalOrder(less) && Reordered(p, q)
    ensures Canonical(p, less) == Canonical(q, less)
    decreases p, 1
  {
    var perm :| ReorderedChildren(p.all, q.all, perm);
    ReorderedChildrenCanonical(p.all, q.all, perm, less);
    var perm' :| ReorderedChildren(p.any, q.any, perm');
    ReorderedChildrenCanonical(p.any, q.any, perm', less);
    if p.negated.Some? { ReorderedSameCanonical(p.negated.value, q.negated.value, less); }
    if p.fact.Some? {
      SortStringsCanonical(p.fact.value.statuses, q.fact.value.statuses);
      SortStringsCanonical(p.fact.value.values, q.fact.value.values);
    }
  }

  lemma {:induction false} SameCanonicalChildren(ps: seq<Predicate>, qs: seq<Predicate>, less: PredicateOrder)
    returns (perm: seq<nat>)
    requires Sort(less, CanonicalChildren(ps, less)) == Sort(less, CanonicalChildren(qs, less))
    ensures ReorderedChildren(ps, qs, perm)
    decreases ps, 0
  {
    var a, b := CanonicalChildren(ps, less), CanonicalChildren(qs, less);
    assert multiset(a) == multiset(Sort(less, a)) == multiset(b);
    perm := RearrangementExists(a, b);
    forall i | 0 <= i < |ps| ensures Reordered(ps[i], qs[perm[i]]) {
      assert a[i] == b[perm[i]];
      SameCanonicalReordered(ps[i], qs[perm[i]], less);
    }
  }

  /** ... and only they do. */
  lemma {:induction false} SameCanonicalReordered(p: Predicate, q: Predicate, less: PredicateOrder)
    requires Canonical(p, less) == Canonical(q, less)
    ensures Reordered(p, q)
    decreases p, 1
  {
    var perm := SameCanonicalChildren(p.all, q.all, less);
    var perm' := SameCanonicalChildren(p.any, q.any, less);
    if p.negated.Some? { SameCanonicalReordered(p.negated.value, q.negated.value, less); }
    if p.fact.Some? {
      var f, g := p.fact.value, q.fact.value;
      assert CanonicalFact(f) == CanonicalFact(g);
      assert multiset(f.statuses) == multiset(SortStrings(f.statuses)) == multiset(g.statuses);
      assert multiset(f.values) == multiset(SortStrings(f.values)) == multiset(g.values);
    }
  }

  /** Canonical forms decide equality up to reordering. */
  lemma CanonicalDecidesReordering(p: Predicate, q: Predicate, less: PredicateOrder)
    requires TotalOrder(less)
    ensures Canonical(p, less) == Canonical(q, less) <==> Reordered(p, q)
  {
    if Reordered(p, q) { ReorderedSameCanonical(p, q, less); }
    if Canonical(p, less) == Canonical(q, less) { SameCanonicalReordered(p, q, less); }
  }

  lemma FixedChildren(s: seq<Predicate>, less: PredicateOrder)
    requires forall i :: 0 <= i < |s| ==> Canonical(s[i], less) == s[i]
    ensures CanonicalChildren(s, less) == s
  {
  }

  lemma FixedRearranged(a: seq<Predicate>, s: seq<Predicate>, less: PredicateOrder)
    requires multiset(a) == multiset(s)
    requires forall i :: 0 <= i < |a| ==> Canonical(a[i], less) == a[i]
    ensures CanonicalChildren(s, less) == s
  {
    SameElements(a, s);
    forall i | 0 <= i < |s| ensures Canonical(s[i], less) == s[i] {
      assert s[i] in a;
    }
    FixedChildren(s, less);
  }

  lemma {:induction false} CanonicalChildrenIdempotent(ps: seq<Predicate>, less: PredicateOrder)
    requires TotalOrder(less)
    ensures var s := Sort(less, CanonicalChildren(ps, less)); Sort(less, CanonicalChildren(s, less)) == s
    decreases ps, 0
  {
    var a := CanonicalChildren(ps, less);
    forall i | 0 <= i < |ps| ensures Canonical(a[i], less) == a[i] {
      CanonicalIdempotent(ps[i], less);
    }
    FixedRearranged(a, Sort(less, a), less);
    SortIdempotent(less, a);
  }

  /** Normalizing twice changes nothing. */
  lemma {:induction false} CanonicalIdempotent(p: Predicate, less: PredicateOrder)
    requires TotalOrder(less)
    ensures Canonical(Canonical(p, less), less) == Canonical(p, less)
    decreases p, 1
  {
    CanonicalChildrenIdempotent(p.all, less);
    CanonicalChildrenIdempotent(p.any, less);
    if p.negated.Some? { CanonicalIdempotent(p.negated.value, less); }
    if p.fact.Some? {
      StringLessTotal();
      SortIdempotent(StringLess, p.fact.value.statuses);
      SortIdempotent(StringLess, p.fact.value.values);
    }
  }

  /** Reordering never changes the truth of a predicate. */
  lemma {:induction false} ReorderedSatisfied(p: Predicate, q: Predicate, facts: Predicates.Facts)
    requires Reordered(p, q)
    ensures Satisfied(p, facts) == Satisfied(q, facts)
    decreases p, 1
  {
    var perm :| ReorderedChildren(p.all, q.all, perm);
    var perm' :| ReorderedChildren(p.any, q.any, perm');
    if p.truth.Some? {
    } else if p.fact.Some? {
      SameElements(p.fact.value.statuses, q.fact.value.statuses);
      SameElements(p.fact.value.values, q.fact.value.values);
    } else if p.all != [] {
      ReorderedChildrenSatisfied(p.all, q.all, perm, facts);
    } else if p.any != [] {
      ReorderedChildrenSatisfied(p.any, q.any, perm', facts);
    } else if p.negated.Some? {
      ReorderedSatisfied(p.negated.value, q.negated.value, facts);
    }
  }

  lemma {:induction false} ReorderedChildrenSatisfied(ps: seq<Predicate>, qs: seq<Predicate>, perm: seq<nat>,
                                                      facts: Predicates.Facts)
    requires ReorderedChildren(ps, qs, perm)
    ensures (forall i :: 0 <= i < |ps| ==> Satisfied(ps[i], facts))
      == (forall i :: 0 <= i < |qs| ==> Satisfied(qs[i], facts))
    ensures (exists i :: 0 <= i < |ps| && Satisfied(ps[i], facts))
      == (exists i :: 0 <= i < |qs| && Satisfied(qs[i], facts))
    decreases ps, 0
  {
    forall i | 0 <= i < |ps| ensures Satisfied(ps[i], facts) == Satisfied(qs[perm[i]], facts) {
      ReorderedSatisfied(ps[i], qs[perm[i]], facts);
    }
    if forall i :: 0 <= i < |ps| ==> Satisfied(ps[i], facts) {
      forall j | 0 <= j < |qs| ensures Satisfied(qs[j], facts) { var i := PermutationOnto(perm, |ps|, j); }
    }
    if j :| 0 <= j < |qs| && Satisfied(qs[j], facts) {
      var i := PermutationOnto(perm, |ps|, j);
    }
  }

  /** Normalization preserves meaning on every fact map. */
  lemma CanonicalSatisfied(p: Predicate, less: PredicateOrder, facts: Predicates.Facts)
    requires TotalOrder(less)
    ensures Satisfied(Canonical(p, less), facts) == Satisfied(p, facts)
  {
    CanonicalIdempotent(p, less);
    SameCanonicalReordered(p, Canonical(p, less), less);
    ReorderedSatisfied(p, Canonical(p, less), facts);
  }

  lemma ValidShape(p: Predicate, q: Predicate)
    requires Valid(p)
    requires |p.all| == |q.all| && |p.any| == |q.any| && p.negated.Some? == q.negated.Some?
    requires p.fact.Some? == q.fact.Some? && p.truth == q.truth
    requires forall x :: x in q.all || x in q.any ==> Valid(x)
    requires q.negated.Some? ==> Valid(q.negated.value)
    ensures Valid(q)
  {
    assert (p.all == []) == (q.all == []) && (p.any == []) == (q.any == []);
  }

  lemma {:induction false} CanonicalValid(p: Predicate, less: PredicateOrder)
    requires Valid(p)
    ensures Valid(Canonical(p, less))
    decreases p, 1
  {
    CanonicalChildrenValid(p.all, less);
    CanonicalChildrenValid(p.any, less);
    if p.negated.Some? { CanonicalValid(p.negated.value, less); }
    ValidShape(p, Canonical(p, less));
  }

  lemma {:induction false} CanonicalChildrenValid(ps: seq<Predicate>, less: PredicateOrder)
    requires forall i :: 0 <= i < |ps| ==> Valid(ps[i])
    ensures forall x :: x in Sort(less, CanonicalChildren(ps, less)) ==> Valid(x)
    decreases ps, 0
  {
    var a := CanonicalChildren(ps, less);
    forall i | 0 <= i < |ps| ensures Valid(a[i]) { CanonicalValid(ps[i], less); }
    SortElements(less, a);
  }

  lemma BelowRearranged(left: Predicate, a: seq<Predicate>, s: seq<Predicate>)
    requires Valid(left) && Valid(All(s)) && multiset(a) == multiset(s)
    ensures Implies(left, All(s)) <==> forall i :: 0 <= i < |a| ==> Implies(left, a[i])
  {
    SameElements(a, s);
    if Implies(left, All(s)) {
      forall i | 0 <= i < |a| ensures Implies(left, a[i]) {
        assert a[i] in s;
        var k :| 0 <= k < |s| && s[k] == a[i];
        RightInversion(left, s, k);
      }
    } else {
      var k :| 0 <= k < |s| && !Implies(left, All(s).all[k]);
      assert s[k] in a;
    }
  }

  lemma AboveRearranged(a: seq<Predicate>, s: seq<Predicate>, right: Predicate)
    requires Valid(right) && Valid(Any(s)) && multiset(a) == multiset(s)
    ensures Implies(Any(s), right) <==> forall i :: 0 <= i < |a| ==> Implies(a[i], right)
  {
    SameElements(a, s);
    if Implies(Any(s), right) {
      forall i | 0 <= i < |a| ensures Implies(a[i], right) {
        assert a[i] in s;
        var k :| 0 <= k < |s| && s[k] == a[i];
        LeftInversion(s, right, k);
      }
    } else if forall i :: 0 <= i < |a| ==> Implies(a[i], right) {
      forall k | 0 <= k < |s| ensures Implies(s[k], right) { assert s[k] in a; }
      DisjunctionEliminates(s, right);
    }
  }

  lemma CanonicalPosition(ps: seq<Predicate>, i: nat, less: PredicateOrder) returns (k: nat)
    requires i < |ps|
    ensures var s := Sort(less, CanonicalChildren(ps, less)); k < |s| && s[k] == Canonical(ps[i], less)
  {
    var a := CanonicalChildren(ps, less);
    SortElements(less, a);
    assert a[i] in a;
    k :| 0 <= k < |Sort(less, a)| && Sort(less, a)[k] == a[i];
  }

  lemma CanonicalOfAll(ys: seq<Predicate>, less: PredicateOrder) returns (s: seq<Predicate>)
    requires Valid(All(ys))
    ensures s == Sort(less, CanonicalChildren(ys, less)) && Canonical(All(ys), less) == All(s) && Valid(All(s))
  {
    SingleVariant(All(ys), map[], less);
    CanonicalValid(All(ys), less);
    s := Sort(less, CanonicalChildren(ys, less));
  }

  lemma CanonicalOfAny(xs: seq<Predicate>, less: PredicateOrder) returns (s: seq<Predicate>)
    requires Valid(Any(xs))
    ensures s == Sort(less, CanonicalChildren(xs, less)) && Canonical(Any(xs), less) == Any(s) && Valid(Any(s))
  {
    SingleVariant(Any(xs), map[], less);
    CanonicalValid(Any(xs), less);
    s := Sort(less, CanonicalChildren(xs, less));
  }

  lemma BelowCanonicalAll(left: Predicate, ys: seq<Predicate>, a: seq<Predicate>, less: PredicateOrder)
    requires Valid(left) && Valid(All(ys)) && a == CanonicalChildren(ys, less)
    requires forall i :: 0 <= i < |a| ==> Implies(left, a[i])
    ensures Implies(left, Canonical(All(ys), less))
  {
    var s := CanonicalOfAll(ys, less);
    BelowRearranged(left, a, s);
  }

  lemma AboveCanonicalAny(xs: seq<Predicate>, a: seq<Predicate>, right: Predicate, less: PredicateOrder)
    requires Valid(right) && Valid(Any(xs)) && a == CanonicalChildren(xs, less)
    requires forall i :: 0 <= i < |a| ==> Implies(a[i], right)
    ensures Implies(Canonical(Any(xs), less), right)
  {
    var s := CanonicalOfAny(xs, less);
    AboveRearranged(a, s, right);
  }

  lemma CanonicalConjunct(xs: seq<Predicate>, i: nat, right: Predicate, less: PredicateOrder)
    requires Valid(All(xs)) && Valid(right) && i < |xs| && Implies(Canonical(xs[i], less), right)
    ensures Implies(Canonical(All(xs), less), right)
  {
    var s := CanonicalOfAll(xs, less);
    var k := CanonicalPosition(xs, i, less);
    WeakenLeft(s, right, k);
  }

  lemma CanonicalBranch(left: Predicate, ys: seq<Predicate>, i: nat, less: PredicateOrder)
    requires Valid(left) && Valid(Any(ys)) && i < |ys| && Implies(left, Canonical(ys[i], less))
    ensures Implies(left, Canonical(Any(ys), less))
  {
    var s := CanonicalOfAny(ys, less);
    var k := CanonicalPosition(ys, i, less);
    WeakenRight(left, s, k);
  }

  lemma {:induction false} KeepsConjunction(guard: Predicate, ys: seq<Predicate>, less: PredicateOrder)
    requires Valid(guard) && Valid(All(ys))
    requires forall i :: 0 <= i < |ys| ==> Implies(guard, ys[i])
    ensures Implies(Canonical(guard, less), Canonical(All(ys), less))
    decreases guard, All(ys), 0
  {
    var left, a := Canonical(guard, less), CanonicalChildren(ys, less);
    forall i | 0 <= i < |ys| ensures Implies(left, a[i]) {
      assert All(ys).all[i] == ys[i];
      NormalizationKeepsImplication(guard, ys[i], less);
    }
    CanonicalValid(guard, less);
    BelowCanonicalAll(left, ys, a, less);
  }

  lemma {:induction false} KeepsDisjunction(xs: seq<Predicate>, condition: Predicate, less: PredicateOrder)
    requires Valid(Any(xs)) && Valid(condition)
    requires forall i :: 0 <= i < |xs| ==> Implies(xs[i], condition)
    ensures Implies(Canonical(Any(xs), less), Canonical(condition, less))
    decreases Any(xs), condition, 0
  {
    var right, a := Canonical(condition, less), CanonicalChildren(xs, less);
    forall i | 0 <= i < |xs| ensures Implies(a[i], right) {
      assert Any(xs).any[i] == xs[i];
      NormalizationKeepsImplication(xs[i], condition, less);
    }
    CanonicalValid(condition, less);
    AboveCanonicalAny(xs, a, right, less);
  }

  lemma KeepsConjunct(guard: Predicate, condition: Predicate, i: nat, less: PredicateOrder)
    requires Valid(guard) && Valid(condition) && i < |guard.all|
    requires Implies(Canonical(guard.all[i], less), Canonical(condition, less))
    ensures Implies(Canonical(guard, less), Canonical(condition, less))
  {
    assert guard == All(guard.all);
    CanonicalValid(condition, less);
    CanonicalConjunct(guard.all, i, Canonical(condition, less), less);
  }

  lemma KeepsBranch(guard: Predicate, condition: Predicate, i: nat, less: PredicateOrder)
    requires Valid(guard) && Valid(condition) && i < |condition.any|
    requires Implies(Canonical(guard, less), Canonical(condition.any[i], less))
    ensures Implies(Canonical(guard, less), Canonical(condition, less))
  {
    assert condition == Any(condition.any);
    CanonicalValid(guard, less);
    CanonicalBranch(Canonical(guard, less), condition.any, i, less);
  }

  /** Normalizing never loses an implication. */
  lemma {:induction false} NormalizationKeepsImplication(guard: Predicate, condition: Predicate, less: PredicateOrder)
    requires Valid(guard) && Valid(condition) && Implies(guard, condition)
    ensures Implies(Canonical(guard, less), Canonical(condition, less))
    decreases guard, condition, 1
  {
    if condition.truth == Some(true) || condition == guard {
    } else if condition.all != [] {
      assert condition == All(condition.all);
      KeepsConjunction(guard, condition.all, less);
    } else if guard.any != [] {
      assert guard == Any(guard.any);
      KeepsDisjunction(guard.any, condition, less);
    } else if i :| 0 <= i < |guard.all| && Implies(guard.all[i], condition) {
      NormalizationKeepsImplication(guard.all[i], condition, less);
      KeepsConjunct(guard, condition, i, less);
    } else {
      var i :| 0 <= i < |condition.any| && Implies(guard, condition.any[i]);
      NormalizationKeepsImplication(guard, condition.any[i], less);
      KeepsBranch(guard, condition, i, less);
    }
  }
}
