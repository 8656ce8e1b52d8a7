/** Result types shared by every module of the model. */
module Base {

  datatype Option<+T> = None | Some(value: T)

  datatype Result<+T, +E> = Ok(value: T) | Err(error: E)

  /** No element occurs twice. */
  ghost predicate Distinct<T>(s: seq<T>) {
    forall i, j :: 0 <= i < j < |s| ==> s[i] != s[j]
  }

  lemma DistinctMultiset<T>(s: seq<T>)
    ensures Distinct(s) <==> forall x :: x in s ==> multiset(s)[x] == 1
  {
    if |s| > 0 {
      var t := s[1..];
      assert s == [s[0]] + t;
      DistinctMultiset(t);
      if Distinct(s) {
        assert forall i, j :: 0 <= i < j < |t| ==> t[i] == s[i + 1] && t[j] == s[j + 1];
        assert Distinct(t);
        assert s[0] !in t;
        forall x | x in s ensures multiset(s)[x] == 1 {
          assert multiset(s)[x] == multiset([s[0]])[x] + multiset(t)[x];
          if x != s[0] { assert x in t; }
        }
      } else {
        var i, j :| 0 <= i < j < |s| && s[i] == s[j];
        if i == 0 {
          assert t[j - 1] == s[0];
          assert s[0] in multiset(t);
          assert multiset(s)[s[0]] == multiset([s[0]])[s[0]] + multiset(t)[s[0]];
        } else {
          assert t[i - 1] == t[j - 1];
          var x :| x in t && multiset(t)[x] != 1;
          assert x in multiset(t);
          assert multiset(s)[x] >= multiset(t)[x];
          assert x in s && multiset(s)[x] != 1;
        }
      }
    }
  }

  lemma AppendDistinct<T>(s: seq<T>, x: T)
    requires Distinct(s) && x !in s
    ensures Distinct(s + [x])
  {
    var longer := s + [x];
    forall i, j | 0 <= i < j < |longer| ensures longer[i] != longer[j] {
      if j < |s| { assert s[i] != s[j]; } else { assert longer[i] == s[i]; }
    }
  }

  /** Distinctness does not depend on the order of a sequence. */
  lemma DistinctPermuted<T>(s: seq<T>, t: seq<T>)
    requires multiset(s) == multiset(t)
    ensures Distinct(s) <==> Distinct(t)
  {
    DistinctMultiset(s);
    DistinctMultiset(t);
    assert forall x :: x in s <==> x in multiset(s);
    assert forall x :: x in t <==> x in multiset(t);
  }

  /** A function applied to every element. */
  function MapSeq<A, B>(f: A -> B, s: seq<A>): (r: seq<B>)
    ensures |r| == |s| && forall i :: 0 <= i < |s| ==> r[i] == f(s[i])
  {
    seq(|s|, i requires 0 <= i < |s| => f(s[i]))
  }

  function Without<T>(s: seq<T>, k: nat): seq<T>
    requires k < |s|
  {
    s[..k] + s[k + 1..]
  }

  lemma WithoutMultiset<T>(s: seq<T>, k: nat)
    requires k < |s|
    ensures multiset(Without(s, k)) == multiset(s) - multiset{s[k]}
    ensures multiset(s) == multiset(Without(s, k)) + multiset{s[k]}
  {
    assert s == s[..k] + [s[k]] + s[k + 1..];
  }

  lemma MapSeqWithout<A, B>(f: A -> B, s: seq<A>, k: nat)
    requires k < |s|
    ensures Without(MapSeq(f, s), k) == MapSeq(f, Without(s, k))
  {
  }

  lemma {:induction false} MapSeqMultiset<A, B>(f: A -> B, s: seq<A>, t: seq<A>)
    requires multiset(s) == multiset(t)
    ensures multiset(MapSeq(f, s)) == multiset(MapSeq(f, t))
    decreases |s|
  {
    assert |s| == |multiset(s)| == |multiset(t)| == |t|;
    if |s| > 0 {
      assert s[0] in multiset(t);
      var k :| 0 <= k < |t| && t[k] == s[0];
      WithoutMultiset(s, 0);
      WithoutMultiset(t, k);
      MapSeqMultiset(f, Without(s, 0), Without(t, k));
      WithoutMultiset(MapSeq(f, s), 0);
      WithoutMultiset(MapSeq(f, t), k);
      MapSeqWithout(f, s, 0);
      MapSeqWithout(f, t, k);
    }
  }

  /** A slice that is being rewritten in place, with i elements done. */
  ghost predicate PartlyRewritten<T>(current: seq<T>, before: seq<T>, after: seq<T>, i: nat) {
    && |current| == |before| == |after| && i <= |before|
    && (forall k :: 0 <= k < i ==> current[k] == after[k])
    && (forall k :: i <= k < |before| ==> current[k] == before[k])
  }

  lemma RewriteStep<T>(current: seq<T>, before: seq<T>, after: seq<T>, i: nat)
    requires PartlyRewritten(current, before, after, i) && i < |before|
    ensures PartlyRewritten(current[i := after[i]], before, after, i + 1)
  {
  }

  lemma Rewritten<T>(current: seq<T>, before: seq<T>, after: seq<T>)
    requires PartlyRewritten(current, before, after, |before|)
    ensures current == after
  {
  }

  // ----- Rearrangements -----

  ghost predicate IsPermutation(perm: seq<nat>, n: nat) {
    |perm| == n && Distinct(perm) && forall i :: 0 <= i < n ==> perm[i] < n
  }

  ghost predicate Rearranged<T>(a: seq<T>, b: seq<T>, perm: seq<nat>) {
    |a| == |b| && IsPermutation(perm, |a|) && forall i :: 0 <= i < |a| ==> a[i] == b[perm[i]]
  }

  /** A rearrangement without its last element. */
  lemma ShiftRearrangement<T>(a: seq<T>, b: seq<T>, perm: seq<nat>) returns (shifted: seq<nat>)
    requires Rearranged(a, b, perm) && |a| > 0
    ensures Rearranged(a[..|a| - 1], Without(b, perm[|a| - 1]), shifted)
  {
    var n, k := |a| - 1, perm[|a| - 1];
    shifted := seq(n, i requires 0 <= i < n => if perm[i] > k then perm[i] - 1 else perm[i]);
    assert forall i :: 0 <= i < n ==> perm[i] != k;
    forall i, j | 0 <= i < j < n ensures shifted[i] != shifted[j] { assert perm[i] != perm[j]; }
    forall i | 0 <= i < n ensures shifted[i] < n && a[..n][i] == Without(b, k)[shifted[i]] {
      assert perm[i] != k;
    }
  }

  lemma {:induction false} RearrangedMultiset<T>(a: seq<T>, b: seq<T>, perm: seq<nat>)
    requires Rearranged(a, b, perm)
    ensures multiset(a) == multiset(b)
    decreases |a|
  {
    if |a| > 0 {
      var n := |a| - 1;
      var k := perm[n];
      var shifted := ShiftRearrangement(a, b, perm);
      RearrangedMultiset(a[..n], Without(b, k), shifted);
      WithoutMultiset(b, k);
      assert a == a[..n] + [a[n]];
    }
  }

  /** A rearrangement of all but the last element, widened past position k. */
  lemma WidenRearrangement<T>(a: seq<T>, b: seq<T>, k: nat, smaller: seq<nat>) returns (perm: seq<nat>)
    requires 0 < |a| == |b| && k < |b| && a[|a| - 1] == b[k]
    requires Rearranged(a[..|a| - 1], Without(b, k), smaller)
    ensures Rearranged(a, b, perm)
  {
    var n := |a| - 1;
    var wide: seq<nat> := seq(n, i requires 0 <= i < n => if smaller[i] >= k then smaller[i] + 1 else smaller[i]);
    perm := wide + [k];
    forall i, j | 0 <= i < j < |perm| ensures perm[i] != perm[j] {
      if j < n { assert smaller[i] != smaller[j]; }
    }
    forall i | 0 <= i < n ensures perm[i] <= n && a[i] == b[perm[i]] {
      assert a[..n][i] == Without(b, k)[smaller[i]];
    }
  }

  lemma {:induction false} RearrangementExists<T>(a: seq<T>, b: seq<T>) returns (perm: seq<nat>)
    requires multiset(a) == multiset(b)
    ensures Rearranged(a, b, perm)
    decreases |a|
  {
    assert |a| == |multiset(a)| == |multiset(b)| == |b|;
    if |a| == 0 {
      perm := [];
    } else {
      var n := |a| - 1;
      WithoutMultiset(a, n);
      assert Without(a, n) == a[..n];
      assert a[n] in multiset(b);
      var k :| 0 <= k < |b| && b[k] == a[n];
      WithoutMultiset(b, k);
      var smaller := RearrangementExists(a[..n], Without(b, k));
      perm := WidenRearrangement(a, b, k, smaller);
    }
  }

  lemma PermutationOnto(perm: seq<nat>, n: nat, j: nat) returns (i: nat)
    requires IsPermutation(perm, n) && j < n
    ensures i < n && perm[i] == j
  {
    var identity: seq<nat> := seq(n, k requires 0 <= k < n => k);
    assert Rearranged(perm, identity, perm);
    RearrangedMultiset(perm, identity, perm);
    assert identity[j] == j;
    assert j in multiset(identity);
    assert j in multiset(perm);
    i :| 0 <= i < n && perm[i] == j;
  }

  lemma SameElements<T>(a: seq<T>, b: seq<T>)
    requires multiset(a) == multiset(b)
    ensures forall x :: x in a <==> x in b
    ensures a == [] <==> b == []
  {
    assert forall x :: x in a <==> x in multiset(a);
    assert forall x :: x in b <==> x in multiset(b);
    if a != [] { assert a[0] in b; }
    if b != [] { assert b[0] in a; }
  }

  /** Distinct sequences with the same elements are rearrangements. */
  lemma DistinctSameElements<T>(a: seq<T>, b: seq<T>)
    requires Distinct(a) && Distinct(b) && forall x :: x in a <==> x in b
    ensures multiset(a) == multiset(b)
  {
    DistinctMultiset(a);
    DistinctMultiset(b);
    assert forall x :: x in a <==> x in multiset(a);
    assert forall x :: x in b <==> x in multiset(b);
    forall x ensures multiset(a)[x] == multiset(b)[x] {}
  }
}
