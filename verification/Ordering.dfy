/** The sorting used throughout the program: `sort.Slice` and `sort.Strings`.
    A call is modelled by what it promises, a sorted permutation of its input,
    through one insertion sort; the lemmas below say when that result is the
    only one possible. */
module Ordering {
  import opened Base

  /** The order a `less` callback must describe for sorting to make sense. */
  ghost predicate WeakOrder<T(!new)>(less: (T, T) -> bool) {
    && (forall a, b :: less(a, b) ==> !less(b, a))
    && (forall a, b, c :: !less(b, a) && !less(c, b) ==> !less(c, a))
  }

  ghost predicate TotalOrder<T(!new)>(less: (T, T) -> bool) {
    && WeakOrder(less)
    && (forall a, b :: less(a, b) || less(b, a) || a == b)
  }

  ghost predicate SortedBy<T(!new)>(less: (T, T) -> bool, s: seq<T>) {
    forall i, j :: 0 <= i < j < |s| ==> !less(s[j], s[i])
  }

  function Insert<T>(less: (T, T) -> bool, x: T, s: seq<T>): (r: seq<T>)
    ensures multiset(r) == multiset(s) + multiset{x}
  {
    if s == [] || !less(s[0], x) then [x] + s
    else
      assert s == [s[0]] + s[1..];
      [s[0]] + Insert(less, x, s[1..])
  }

  function Sort<T>(less: (T, T) -> bool, s: seq<T>): (r: seq<T>)
    ensures multiset(r) == multiset(s)
    ensures |r| == |s|
  {
    if s == [] then []
    else
      assert s == [s[0]] + s[1..];
      var r := Insert(less, s[0], Sort(less, s[1..]));
      assert |r| == |multiset(r)| == |multiset(s)| == |s|;
      r
  }

  lemma SortElements<T>(less: (T, T) -> bool, s: seq<T>)
    ensures forall x :: x in Sort(less, s) <==> x in s
  {
    assert forall x :: x in s <==> x in multiset(s);
    assert forall x :: x in Sort(less, s) <==> x in multiset(Sort(less, s));
  }

  lemma {:induction false} InsertSorted<T(!new)>(less: (T, T) -> bool, x: T, s: seq<T>)
    requires WeakOrder(less) && SortedBy(less, s)
    ensures SortedBy(less, Insert(less, x, s))
  {
    var r := Insert(less, x, s);
    if s == [] {
    } else if !less(s[0], x) {
      forall i, j | 0 <= i < j < |r| ensures !less(r[j], r[i]) {
        if i == 0 {
          assert r[j] == s[j - 1];
          if j > 1 { assert !less(s[j - 1], s[0]); }
        } else {
          assert !less(s[j - 1], s[i - 1]);
        }
      }
    } else {
      var t := s[1..];
      assert SortedBy(less, t);
      InsertSorted(less, x, t);
      var u := Insert(less, x, t);
      forall k | 0 <= k < |u| ensures !less(u[k], s[0]) {
        assert u[k] in multiset(u);
        if u[k] != x {
          assert u[k] in multiset(t);
          var m :| 0 <= m < |t| && t[m] == u[k];
          assert !less(s[m + 1], s[0]);
        }
      }
      forall i, j | 0 <= i < j < |r| ensures !less(r[j], r[i]) {
        if i == 0 { assert r[j] == u[j - 1]; } else { assert !less(u[j - 1], u[i - 1]); }
      }
    }
  }

  lemma {:induction false} SortSorted<T(!new)>(less: (T, T) -> bool, s: seq<T>)
    requires WeakOrder(less)
    ensures SortedBy(less, Sort(less, s))
  {
    if s != [] {
      SortSorted(less, s[1..]);
      InsertSorted(less, s[0], Sort(less, s[1..]));
    }
  }

  /** No two different elements are tied. */
  ghost predicate Untied<T(!new)>(less: (T, T) -> bool, s: seq<T>) {
    forall i, j :: 0 <= i < |s| && 0 <= j < |s| ==> less(s[i], s[j]) || less(s[j], s[i]) || s[i] == s[j]
  }

  lemma UntiedRest<T(!new)>(less: (T, T) -> bool, s: seq<T>)
    requires |s| > 0 && Untied(less, s) && SortedBy(less, s)
    ensures Untied(less, s[1..]) && SortedBy(less, s[1..])
  {
  }

  lemma RestMultiset<T>(a: seq<T>, b: seq<T>)
    requires |a| > 0 && |b| > 0 && a[0] == b[0] && multiset(a) == multiset(b)
    ensures multiset(a[1..]) == multiset(b[1..])
  {
    RestIs(a);
    RestIs(b);
  }

  lemma RestIs<T>(a: seq<T>)
    requires |a| > 0
    ensures multiset(a[1..]) == multiset(a) - multiset{a[0]}
  {
    assert a == [a[0]] + a[1..];
  }

  /** Without ties there is one sorted arrangement of a multiset. */
  lemma {:induction false} SortedUniqueOn<T(!new)>(less: (T, T) -> bool, a: seq<T>, b: seq<T>)
    requires Untied(less, a) && SortedBy(less, a) && SortedBy(less, b) && multiset(a) == multiset(b)
    ensures a == b
    decreases |a|
  {
    assert |a| == |multiset(a)| == |multiset(b)| == |b|;
    if |a| > 0 {
      SameLeast(less, a, b);
      RestMultiset(a, b);
      UntiedRest(less, a);
      SortedUniqueOn(less, a[1..], b[1..]);
      assert a == [a[0]] + a[1..] && b == [b[0]] + b[1..];
    }
  }

  lemma SameLeast<T(!new)>(less: (T, T) -> bool, a: seq<T>, b: seq<T>)
    requires |a| > 0 && |b| > 0
    requires Untied(less, a) && SortedBy(less, a) && SortedBy(less, b) && multiset(a) == multiset(b)
    ensures a[0] == b[0]
  {
    SameElements(a, b);
    assert a[0] in b && b[0] in a;
    var i :| 0 <= i < |b| && b[i] == a[0];
    var j :| 0 <= j < |a| && a[j] == b[0];
    assert i > 0 ==> !less(b[i], b[0]);
    assert j > 0 ==> !less(a[j], a[0]);
    assert less(a[0], a[j]) || less(a[j], a[0]) || a[0] == a[j];
  }

  /** A total order leaves one sorted arrangement of a multiset. */
  lemma SortedUnique<T(!new)>(less: (T, T) -> bool, a: seq<T>, b: seq<T>)
    requires TotalOrder(less)
    requires SortedBy(less, a) && SortedBy(less, b) && multiset(a) == multiset(b)
    ensures a == b
  {
    SortedUniqueOn(less, a, b);
  }

  lemma SortCanonical<T(!new)>(less: (T, T) -> bool, a: seq<T>, b: seq<T>)
    requires TotalOrder(less) && multiset(a) == multiset(b)
    ensures Sort(less, a) == Sort(less, b)
  {
    SortSorted(less, a);
    SortSorted(less, b);
    SortedUnique(less, Sort(less, a), Sort(less, b));
  }

  lemma SortIdempotent<T(!new)>(less: (T, T) -> bool, s: seq<T>)
    requires TotalOrder(less)
    ensures Sort(less, Sort(less, s)) == Sort(less, s)
  {
    SortCanonical(less, Sort(less, s), s);
  }

  /** Byte order of identifiers, as `sort.Strings` compares them. */
  predicate StringLess(a: string, b: string) {
    b != [] && (a == [] || a[0] < b[0] || (a[0] == b[0] && StringLess(a[1..], b[1..])))
  }

  lemma {:induction false} StringAsymmetric(a: string, b: string)
    requires StringLess(a, b)
    ensures !StringLess(b, a)
  {
    if a != [] && a[0] == b[0] { StringAsymmetric(a[1..], b[1..]); }
  }

  lemma {:induction false} StringNegativelyTransitive(a: string, b: string, c: string)
    requires !StringLess(b, a) && !StringLess(c, b)
    ensures !StringLess(c, a)
  {
    if a != [] && b != [] && c != [] && a[0] == b[0] == c[0] {
      StringNegativelyTransitive(a[1..], b[1..], c[1..]);
    }
  }

  lemma SameParts(a: string, b: string)
    requires a != [] && b != [] && a[0] == b[0] && a[1..] == b[1..]
    ensures a == b
  {
    assert a == [a[0]] + a[1..] && b == [b[0]] + b[1..];
  }

  lemma {:induction false} StringConnected(a: string, b: string)
    ensures StringLess(a, b) || StringLess(b, a) || a == b
  {
    if a != [] && b != [] && a[0] == b[0] {
      StringConnected(a[1..], b[1..]);
      if a[1..] == b[1..] { SameParts(a, b); }
    }
  }

  lemma StringLessTotal()
    ensures TotalOrder(StringLess)
  {
    forall a, b | StringLess(a, b) ensures !StringLess(b, a) { StringAsymmetric(a, b); }
    forall a, b, c | !StringLess(b, a) && !StringLess(c, b) ensures !StringLess(c, a) {
      StringNegativelyTransitive(a, b, c);
    }
    forall a, b ensures StringLess(a, b) || StringLess(b, a) || a == b { StringConnected(a, b); }
  }

  function SortStrings(s: seq<string>): (r: seq<string>)
    ensures multiset(r) == multiset(s)
    ensures forall x :: x in r <==> x in s
  {
    SortElements(StringLess, s);
    Sort(StringLess, s)
  }

  lemma SortStringsCanonical(a: seq<string>, b: seq<string>)
    requires multiset(a) == multiset(b)
    ensures SortStrings(a) == SortStrings(b)
  {
    StringLessTotal();
    SortCanonical(StringLess, a, b);
  }

  ghost predicate Separates<T(!new)>(less: (T, T) -> bool) {
    forall a, b :: less(a, b) || less(b, a) || a == b
  }

  lemma EqualNeighbours<T(!new)>(less: (T, T) -> bool, s: seq<T>) returns (k: nat)
    requires Separates(less) && SortedBy(less, s) && !Distinct(s)
    ensures 1 <= k < |s| && s[k - 1] == s[k]
  {
    var i, j :| 0 <= i < j < |s| && s[i] == s[j];
    k := i + 1;
    if k < j { assert !less(s[j], s[k]) && !less(s[k], s[i]); }
  }

  lemma StringLessSeparates()
    ensures Separates(StringLess)
  {
    StringLessTotal();
  }

  /** In a sorted list, equal entries are neighbours: the adjacent test the
      normalizers use decides distinctness. */
  lemma {:induction false} AdjacentDecidesDistinct(s: seq<string>)
    requires SortedBy(StringLess, s)
    ensures Distinct(s) <==> forall i :: 1 <= i < |s| ==> s[i - 1] != s[i]
  {
    if !Distinct(s) {
      StringLessSeparates();
      var k := EqualNeighbours(StringLess, s);
      assert 1 <= k < |s| && s[k - 1] == s[k];
    }
  }
}
