/** The selection relation: which of the admissible transitions is prescribed,
    and the trace that explains it. */
module KernelRelation {
  import opened Base
  import opened Ordering

  datatype Candidate = Candidate(
    id: string, rank: int, priority: int, selectable: bool, requiredAll: seq<string>, requiredAny: seq<string>)

  datatype Kind = Prescribed | Marked | Frontier | Blocked | Refused | Unresolved

  /** What is asked of the relation, apart from the candidates. The empty
      request asks for the preferred transition. */
  datatype Question = Question(requested: string, marked: bool, noCandidate: Option<Kind>, available: seq<string>)

  datatype Decision = Decision(kind: Kind, transition: string, candidates: seq<string>)

  // ----- Authority -----

  /** The capabilities a candidate needs are available. */
  ghost predicate Authorized(c: Candidate, available: seq<string>) {
    && (forall v :: v in c.requiredAll ==> v in available)
    && (c.requiredAny == [] || exists v :: v in c.requiredAny && v in available)
  }

  function Keep<T(!new)>(keep: T -> bool, s: seq<T>): (r: seq<T>)
    ensures |r| <= |s|
    ensures forall x :: x in r <==> x in s && keep(x)
  {
    if s == [] then []
    else
      var n := |s| - 1;
      assert s == s[..n] + [s[n]];
      Keep(keep, s[..n]) + if keep(s[n]) then [s[n]] else []
  }

  function Absent(required: seq<string>, available: seq<string>): (r: seq<string>)
    ensures forall v :: v in r <==> v in required && v !in available
  {
    Keep((v: string) => v !in available, required)
  }

  predicate AnyMet(c: Candidate, available: seq<string>) {
    c.requiredAny == [] || exists v :: v in c.requiredAny && v in available
  }

  function Missing(c: Candidate, available: seq<string>): seq<string> {
    SortStrings(Absent(c.requiredAll, available) + if AnyMet(c, available) then [] else c.requiredAny)
  }

  lemma NothingMissing(c: Candidate, available: seq<string>)
    ensures Missing(c, available) == [] <==> Authorized(c, available)
  {
    var all := Absent(c.requiredAll, available);
    var m := all + if AnyMet(c, available) then [] else c.requiredAny;
    assert |SortStrings(m)| == |multiset(m)| == |m|;
    if m != [] { assert m[0] in m; }
  }

  method AnyGranted(required: seq<string>, available: seq<string>) returns (satisfied: bool)
    ensures satisfied <==> exists v :: v in required && v in available
  {
    satisfied := false;
    var i := 0;
    while i < |required| && !satisfied
      invariant 0 <= i <= |required|
      invariant satisfied <==> exists k :: 0 <= k < i && required[k] in available
    {
      satisfied := required[i] in available;
      i := i + 1;
    }
  }

  method MissingAuthority(c: Candidate, available: seq<string>) returns (missing: seq<string>)
    ensures missing == Missing(c, available)
  {
    var granted := set v | v in available;
    missing := [];
    var i := 0;
    while i < |c.requiredAll|
      invariant 0 <= i <= |c.requiredAll|
      invariant missing == Absent(c.requiredAll[..i], available)
    {
      var v := c.requiredAll[i];
      KeepStep((w: string) => w !in available, c.requiredAll, i);
      if v !in granted { missing := missing + [v]; }
      i := i + 1;
    }
    assert c.requiredAll[..i] == c.requiredAll && missing + [] == missing;
    if c.requiredAny != [] {
      var satisfied := AnyGranted(c.requiredAny, available);
      if !satisfied { missing := missing + c.requiredAny; }
    }
    missing := SortStrings(missing);
  }

  lemma KeepStep<T(!new)>(keep: T -> bool, s: seq<T>, i: nat)
    requires i < |s|
    ensures Keep(keep, s[..i + 1]) == Keep(keep, s[..i]) + if keep(s[i]) then [s[i]] else []
  {
    assert s[..i + 1][..i] == s[..i];
  }

  datatype AuthorityTrace = AuthorityTrace(
    available: seq<string>, requiredAll: seq<string>, requiredAny: seq<string>,
    missingAll: seq<string>, missingAny: seq<string>, allSatisfied: bool, anySatisfied: bool, satisfied: bool)

  function TracedAuthority(c: Candidate, available: seq<string>): AuthorityTrace {
    var all := Absent(c.requiredAll, available);
    AuthorityTrace(
      SortStrings(available), SortStrings(c.requiredAll), SortStrings(c.requiredAny),
      SortStrings(all), SortStrings(if AnyMet(c, available) then [] else c.requiredAny),
      all == [], AnyMet(c, available), all == [] && AnyMet(c, available))
  }

  method TraceAuthority(c: Candidate, available: seq<string>) returns (trace: AuthorityTrace)
    ensures trace == TracedAuthority(c, available)
  {
    var granted := set v | v in available;
    var missingAll: seq<string>, allSatisfied, anySatisfied := [], true, |c.requiredAny| == 0;
    var i := 0;
    while i < |c.requiredAll|
      invariant 0 <= i <= |c.requiredAll|
      invariant missingAll == Absent(c.requiredAll[..i], available)
      invariant allSatisfied <==> missingAll == []
    {
      KeepStep((w: string) => w !in available, c.requiredAll, i);
      if c.requiredAll[i] !in granted { missingAll, allSatisfied := missingAll + [c.requiredAll[i]], false; }
      i := i + 1;
    }
    assert c.requiredAll[..i] == c.requiredAll;
    i := 0;
    while i < |c.requiredAny|
      invariant 0 <= i <= |c.requiredAny|
      invariant anySatisfied <==> |c.requiredAny| == 0 || exists k :: 0 <= k < i && c.requiredAny[k] in available
    {
      if c.requiredAny[i] in granted { anySatisfied := true; }
      i := i + 1;
    }
    assert anySatisfied == AnyMet(c, available);
    var missingAny := if anySatisfied then [] else c.requiredAny;
    return AuthorityTrace(
        SortStrings(available), SortStrings(c.requiredAll), SortStrings(c.requiredAny),
        SortStrings(missingAll), SortStrings(missingAny), allSatisfied, anySatisfied, allSatisfied && anySatisfied);
  }

  /** The trace is satisfied exactly when the relation finds nothing missing. */
  lemma TraceAgreesWithAuthority(c: Candidate, available: seq<string>)
    ensures TracedAuthority(c, available).satisfied <==> Missing(c, available) == []
    ensures TracedAuthority(c, available).satisfied <==> Authorized(c, available)
  {
    NothingMissing(c, available);
    var all := Absent(c.requiredAll, available);
    if all != [] { assert all[0] in all; }
  }

  // ----- Selection -----

  predicate Eligible(q: Question, c: Candidate) {
    if q.requested != "" then c.id == q.requested else c.selectable
  }

  /** What ordering looks at. */
  datatype Key = Key(rank: int, priority: int, id: string)

  function KeyOf(c: Candidate): Key { Key(c.rank, c.priority, c.id) }

  predicate Better(a: Key, b: Key) { a.rank < b.rank || (a.rank == b.rank && a.priority < b.priority) }

  predicate Tied(a: Key, b: Key) { a.rank == b.rank && a.priority == b.priority }

  predicate KeyLess(a: Key, b: Key) { Better(a, b) || (Tied(a, b) && StringLess(a.id, b.id)) }

  predicate Preferred(a: Candidate, b: Candidate) { KeyLess(KeyOf(a), KeyOf(b)) }

  lemma KeyLessTotal()
    ensures TotalOrder(KeyLess)
  {
    StringLessTotal();
  }

  function EqualIds(sorted: seq<Candidate>): seq<string>
    requires sorted != []
  {
    MapSeq((c: Candidate) => c.id, Keep((c: Candidate) => Tied(KeyOf(c), KeyOf(sorted[0])), sorted))
  }

  function NoneLeft(q: Question): Decision {
    if q.requested != "" then Decision(Refused, q.requested, [])
    else Decision(if q.noCandidate.Some? then q.noCandidate.value else Unresolved, "", [])
  }

  /** The decision, given the eligible candidates in order of preference. */
  function Select(q: Question, sorted: seq<Candidate>): Decision
    requires sorted != []
  {
    if |EqualIds(sorted)| > 1 then Decision(Frontier, "", EqualIds(sorted))
    else if Missing(sorted[0], q.available) != [] then Decision(Frontier, sorted[0].id, [sorted[0].id])
    else Decision(Prescribed, sorted[0].id, [])
  }

  function EligibleOf(q: Question, cs: seq<Candidate>): seq<Candidate> {
    Keep((c: Candidate) => Eligible(q, c), cs)
  }

  function Decide(q: Question, cs: seq<Candidate>): Decision {
    if q.marked && q.requested == "" then Decision(Marked, "", [])
    else if EligibleOf(q, cs) == [] then NoneLeft(q)
    else Select(q, Sort(Preferred, EligibleOf(q, cs)))
  }

  // ----- Trace -----

  datatype Disposition =
    Shadowed | IrrelevantToRequest | Selected | AuthorityFrontier | Ambiguous | ExplicitlyRefused

  datatype CandidateTrace = CandidateTrace(
    id: string, selectable: bool, rank: int, priority: int, survived: bool,
    disposition: Disposition, authority: AuthorityTrace)

  function DispositionOf(q: Question, d: Decision, id: string): Disposition {
    if q.requested != "" && id != q.requested then IrrelevantToRequest
    else if d.kind == Prescribed && id == d.transition then Selected
    else if d.kind == Frontier && id == d.transition then AuthorityFrontier
    else if d.kind == Frontier && id in d.candidates then Ambiguous
    else if d.kind == Refused && id == q.requested then ExplicitlyRefused
    else Shadowed
  }

  function Opened(q: Question, c: Candidate): CandidateTrace {
    CandidateTrace(c.id, c.selectable, c.rank, c.priority, true, Shadowed, TracedAuthority(c, q.available))
  }

  function Closed(q: Question, d: Decision, t: CandidateTrace): CandidateTrace
    requires t.disposition == Shadowed && t.survived
  {
    t.(survived := if q.requested != "" then t.id == q.requested else t.selectable,
       disposition := DispositionOf(q, d, t.id))
  }

  function TraceOf(q: Question, d: Decision, cs: seq<Candidate>): (r: seq<CandidateTrace>)
    ensures |r| == |cs|
  {
    MapSeq((c: Candidate) => Closed(q, d, Opened(q, c)), cs)
  }

  method Close(q: Question, d: Decision, t: CandidateTrace) returns (trace: CandidateTrace)
    requires t.disposition == Shadowed && t.survived
    ensures trace == Closed(q, d, t)
  {
    trace := t;
    if q.requested == "" && !trace.selectable { trace := trace.(survived := false); }
    if q.requested != "" && trace.id != q.requested {
      trace := trace.(disposition := IrrelevantToRequest, survived := false);
    } else if d.kind == Prescribed && trace.id == d.transition {
      trace := trace.(disposition := Selected);
    } else if d.kind == Frontier && d.transition == trace.id {
      trace := trace.(disposition := AuthorityFrontier);
    } else if d.kind == Frontier && trace.id in d.candidates {
      trace := trace.(disposition := Ambiguous);
    } else if d.kind == Refused && q.requested == trace.id {
      trace := trace.(disposition := ExplicitlyRefused);
    }
  }

  /** Rewrites every trace in place once the decision is known. */
  method Finish(q: Question, d: Decision, cs: seq<Candidate>, traces: array<CandidateTrace>)
    requires traces[..] == MapSeq((c: Candidate) => Opened(q, c), cs)
    modifies traces
    ensures traces[..] == TraceOf(q, d, cs)
  {
    ghost var before, after := traces[..], TraceOf(q, d, cs);
    var i := 0;
    while i < traces.Length
      invariant 0 <= i <= traces.Length
      invariant PartlyRewritten(traces[..], before, after, i)
    {
      assert traces[..][i] == before[i] == Opened(q, cs[i]);
      var trace := Close(q, d, traces[i]);
      RewriteStep(traces[..], before, after, i);
      traces[i] := trace;
      i := i + 1;
    }
    Rewritten(traces[..], before, after);
  }

  /** A slice being filtered onto its own front: i elements read, some kept. */
  ghost predicate Filtering(current: seq<Candidate>, before: seq<Candidate>, keep: Candidate -> bool, kept: nat,
                            i: nat) {
    && kept <= i <= |before| <= |current|
    && current[..kept] == Keep(keep, before[..i])
    && (forall k :: i <= k < |before| ==> current[k] == before[k])
  }

  lemma FilterStep(current: seq<Candidate>, before: seq<Candidate>, keep: Candidate -> bool, kept: nat, i: nat)
    requires Filtering(current, before, keep, kept, i) && i < |before|
    ensures keep(before[i]) ==> Filtering(current[kept := before[i]], before, keep, kept + 1, i + 1)
    ensures !keep(before[i]) ==> Filtering(current, before, keep, kept, i + 1)
  {
    KeepStep(keep, before, i);
    if keep(before[i]) {
      var next := current[kept := before[i]];
      assert next[..kept + 1] == current[..kept] + [before[i]];
    }
  }

  /** Keeps the wanted candidates at the front of the same slice. */
  method FilterInPlace(work: array<Candidate>, keep: Candidate -> bool) returns (kept: nat)
    modifies work
    ensures kept <= work.Length && work[..kept] == Keep(keep, old(work[..]))
  {
    ghost var before := work[..];
    kept := 0;
    var i := 0;
    while i < work.Length
      invariant 0 <= i <= work.Length
      invariant Filtering(work[..], before, keep, kept, i)
    {
      FilterStep(work[..], before, keep, kept, i);
      assert work[..][i] == before[i];
      if keep(work[i]) {
        work[kept] := work[i];
        kept := kept + 1;
      }
      i := i + 1;
    }
    assert before[..i] == before;
    assert work[..][..kept] == work[..kept];
  }

  /** The identities of the candidates tied with the first. */
  method CollectEqual(sorted: seq<Candidate>) returns (equal: seq<string>)
    requires sorted != []
    ensures equal == EqualIds(sorted)
  {
    var top := sorted[0];
    var tied := (c: Candidate) => Tied(KeyOf(c), KeyOf(top));
    equal := [];
    var i := 0;
    while i < |sorted|
      invariant 0 <= i <= |sorted|
      invariant equal == MapSeq((c: Candidate) => c.id, Keep(tied, sorted[..i]))
    {
      KeepStep(tied, sorted, i);
      if sorted[i].rank == top.rank && sorted[i].priority == top.priority { equal := equal + [sorted[i].id]; }
      i := i + 1;
    }
    assert sorted[..i] == sorted;
  }

  /** The relation. It filters and sorts a copy: the caller's candidates are
      not written. */
  method Relate(q: Question, candidates: array<Candidate>) returns (d: Decision, traces: array<CandidateTrace>)
    ensures d == Decide(q, candidates[..])
    ensures fresh(traces) && traces[..] == TraceOf(q, d, candidates[..])
  {
    var n := candidates.Length;
    var cs := candidates[..];
    traces := new CandidateTrace[n](i requires 0 <= i < n => Opened(q, cs[i]));
    assert traces[..] == MapSeq((c: Candidate) => Opened(q, c), cs);
    d := Choose(q, candidates);
    Finish(q, d, cs, traces);
  }

  method Choose(q: Question, candidates: array<Candidate>) returns (d: Decision)
    ensures d == Decide(q, candidates[..])
  {
    var n := candidates.Length;
    if q.marked && q.requested == "" { return Decision(Marked, "", []); }
    var work := new Candidate[n](i requires 0 <= i < n reads candidates => candidates[i]);
    assert work[..] == candidates[..];
    var kept := FilterInPlace(work, (c: Candidate) => Eligible(q, c));
    if kept == 0 { return NoneLeft(q); }
    var sorted := Sort(Preferred, work[..kept]);
    assert sorted != [];
    var equal := CollectEqual(sorted);
    if |equal| > 1 { return Decision(Frontier, "", equal); }
    var missing := MissingAuthority(sorted[0], q.available);
    if missing != [] { return Decision(Frontier, sorted[0].id, [sorted[0].id]); }
    return Decision(Prescribed, sorted[0].id, []);
  }

  // ----- What is prescribed -----

  /** Position i holds the one eligible candidate that every other eligible
      candidate is strictly worse than, and its authority is met. */
  ghost predicate UniqueBest(s: seq<Candidate>, available: seq<string>, i: nat) {
    && i < |s| && Authorized(s[i], available)
    && forall j :: 0 <= j < |s| && j != i ==> Better(KeyOf(s[i]), KeyOf(s[j]))
  }

  ghost predicate Answers(q: Question, cs: seq<Candidate>, c: Candidate) {
    && !(q.marked && q.requested == "")
    && exists i: nat :: UniqueBest(EligibleOf(q, cs), q.available, i) && EligibleOf(q, cs)[i] == c
  }

  /** The caller asked for `Prescribed` when nothing is eligible. */
  ghost predicate PrescribedByDefault(q: Question, cs: seq<Candidate>) {
    && !(q.marked && q.requested == "") && EligibleOf(q, cs) == []
    && q.requested == "" && q.noCandidate == Some(Prescribed)
  }

  lemma PreferredWeak()
    ensures WeakOrder(Preferred)
  {
    KeyLessTotal();
  }

  lemma {:induction false} KeepNone<T(!new)>(keep: T -> bool, s: seq<T>)
    requires forall j :: 0 <= j < |s| ==> !keep(s[j])
    ensures Keep(keep, s) == []
  {
    if s != [] { KeepNone(keep, s[..|s| - 1]); }
  }

  lemma {:induction false} KeepOne<T(!new)>(keep: T -> bool, s: seq<T>, i: nat)
    requires i < |s| && keep(s[i]) && forall j :: 0 <= j < |s| && j != i ==> !keep(s[j])
    ensures Keep(keep, s) == [s[i]]
  {
    var n := |s| - 1;
    if i == n {
      KeepNone(keep, s[..n]);
    } else {
      KeepOne(keep, s[..n], i);
    }
  }

  lemma {:induction false} KeepTwo<T(!new)>(keep: T -> bool, s: seq<T>, i: nat, j: nat)
    requires i < j < |s| && keep(s[i]) && keep(s[j])
    ensures |Keep(keep, s)| >= 2
  {
    var n := |s| - 1;
    if j == n { assert s[i] in s[..n] && s[i] in Keep(keep, s[..n]); } else { KeepTwo(keep, s[..n], i, j); }
  }

  /** The first of a sorted list ties with nothing else exactly when it is
      strictly better than everything else. */
  lemma AloneIsBest(sorted: seq<Candidate>)
    requires sorted != [] && SortedBy(Preferred, sorted)
    ensures |EqualIds(sorted)| <= 1 <==> forall j :: 1 <= j < |sorted| ==> Better(KeyOf(sorted[0]), KeyOf(sorted[j]))
  {
    var top := sorted[0];
    var tied := (c: Candidate) => Tied(KeyOf(c), KeyOf(top));
    if forall j :: 1 <= j < |sorted| ==> Better(KeyOf(top), KeyOf(sorted[j])) {
      KeepOne(tied, sorted, 0);
    } else {
      var j :| 1 <= j < |sorted| && !Better(KeyOf(top), KeyOf(sorted[j]));
      assert !Preferred(sorted[j], sorted[0]);
      KeepTwo(tied, sorted, 0, j);
    }
  }

  /** Being the unique best does not depend on the order of the list. */
  lemma UniqueBestRearranged(a: seq<Candidate>, b: seq<Candidate>, available: seq<string>, i: nat) returns (j: nat)
    requires multiset(a) == multiset(b) && UniqueBest(a, available, i)
    ensures UniqueBest(b, available, j) && b[j] == a[i]
  {
    var perm := RearrangementExists(a, b);
    j := perm[i];
    forall k | 0 <= k < |b| && k != j ensures Better(KeyOf(b[j]), KeyOf(b[k])) {
      var m := PermutationOnto(perm, |a|, k);
      assert a[m] == b[k] && a[i] == b[j];
    }
  }

  lemma UniqueBestIsFirst(sorted: seq<Candidate>, available: seq<string>, i: nat)
    requires SortedBy(Preferred, sorted) && UniqueBest(sorted, available, i)
    ensures i == 0
  {
    assert i > 0 ==> Preferred(sorted[i], sorted[0]);
  }

  /** A sorted list is answered by `Select` exactly with its unique best. */
  lemma SelectExactly(q: Question, sorted: seq<Candidate>)
    requires sorted != [] && SortedBy(Preferred, sorted)
    ensures Select(q, sorted).kind == Prescribed <==> UniqueBest(sorted, q.available, 0)
    ensures Select(q, sorted).kind == Prescribed ==> Select(q, sorted).transition == sorted[0].id
  {
    AloneIsBest(sorted);
    NothingMissing(sorted[0], q.available);
  }

  lemma AnswerIsDecided(q: Question, cs: seq<Candidate>, c: Candidate)
    requires Answers(q, cs, c)
    ensures Decide(q, cs).kind == Prescribed && Decide(q, cs).transition == c.id
  {
    var s := EligibleOf(q, cs);
    var sorted := Sort(Preferred, s);
    PreferredWeak();
    SortSorted(Preferred, s);
    var i: nat :| UniqueBest(s, q.available, i) && s[i] == c;
    var j := UniqueBestRearranged(s, sorted, q.available, i);
    UniqueBestIsFirst(sorted, q.available, j);
    SelectExactly(q, sorted);
  }

  lemma DecidedIsAnswer(q: Question, cs: seq<Candidate>) returns (c: Candidate)
    requires Decide(q, cs).kind == Prescribed && !PrescribedByDefault(q, cs)
    ensures Answers(q, cs, c) && Decide(q, cs).transition == c.id
  {
    var s := EligibleOf(q, cs);
    var sorted := Sort(Preferred, s);
    PreferredWeak();
    SortSorted(Preferred, s);
    SelectExactly(q, sorted);
    var j := UniqueBestRearranged(sorted, s, q.available, 0);
    c := s[j];
  }

  /** What is prescribed is exactly the unique best eligible candidate whose
      authority is met; nothing is, when there is none. */
  lemma PrescribedExactly(q: Question, cs: seq<Candidate>)
    ensures Decide(q, cs).kind == Prescribed <==> (exists c :: Answers(q, cs, c)) || PrescribedByDefault(q, cs)
    ensures forall c :: Answers(q, cs, c) ==> Decide(q, cs).transition == c.id
  {
    forall c | Answers(q, cs, c) ensures Decide(q, cs).kind == Prescribed && Decide(q, cs).transition == c.id {
      AnswerIsDecided(q, cs, c);
    }
    if Decide(q, cs).kind == Prescribed && !PrescribedByDefault(q, cs) {
      var c := DecidedIsAnswer(q, cs);
    }
  }

  // ----- Order of the candidates -----

  lemma {:induction false} KeepMultiset<T(!new)>(keep: T -> bool, s: seq<T>, x: T)
    ensures multiset(Keep(keep, s))[x] == if keep(x) then multiset(s)[x] else 0
  {
    if s != [] {
      var n := |s| - 1;
      assert s == s[..n] + [s[n]];
      KeepMultiset(keep, s[..n], x);
    }
  }

  lemma KeepPermuted<T(!new)>(keep: T -> bool, a: seq<T>, b: seq<T>)
    requires multiset(a) == multiset(b)
    ensures multiset(Keep(keep, a)) == multiset(Keep(keep, b))
  {
    forall x ensures multiset(Keep(keep, a))[x] == multiset(Keep(keep, b))[x] {
      KeepMultiset(keep, a, x);
      KeepMultiset(keep, b, x);
    }
  }

  lemma {:induction false} MapKeep<A(!new), B(!new)>(f: A -> B, keepA: A -> bool, keepB: B -> bool, s: seq<A>)
    requires forall x :: keepA(x) == keepB(f(x))
    ensures MapSeq(f, Keep(keepA, s)) == Keep(keepB, MapSeq(f, s))
  {
    if s != [] {
      var n := |s| - 1;
      MapKeep(f, keepA, keepB, s[..n]);
      assert MapSeq(f, s)[..n] == MapSeq(f, s[..n]);
    }
  }

  function KeysOf(s: seq<Candidate>): seq<Key> { MapSeq(KeyOf, s) }

  /** The tied identities can be read off the sorted keys. */
  lemma EqualIdsByKey(sorted: seq<Candidate>)
    requires sorted != []
    ensures EqualIds(sorted) == MapSeq((k: Key) => k.id, Keep((k: Key) => Tied(k, KeysOf(sorted)[0]), KeysOf(sorted)))
  {
    var top := KeyOf(sorted[0]);
    var byKey := Keep((k: Key) => Tied(k, top), KeysOf(sorted));
    MapKeep(KeyOf, (c: Candidate) => Tied(KeyOf(c), top), (k: Key) => Tied(k, top), sorted);
    assert MapSeq((k: Key) => k.id, byKey) == EqualIds(sorted);
  }

  /** Two sorted arrangements of the same candidates list the same keys. */
  lemma SameKeys(a: seq<Candidate>, b: seq<Candidate>)
    requires SortedBy(Preferred, a) && SortedBy(Preferred, b) && multiset(a) == multiset(b)
    ensures KeysOf(a) == KeysOf(b)
  {
    MapSeqMultiset(KeyOf, a, b);
    KeyLessTotal();
    forall i, j | 0 <= i < j < |a| ensures !KeyLess(KeysOf(a)[j], KeysOf(a)[i]) { assert !Preferred(a[j], a[i]); }
    forall i, j | 0 <= i < j < |b| ensures !KeyLess(KeysOf(b)[j], KeysOf(b)[i]) { assert !Preferred(b[j], b[i]); }
    SortedUnique(KeyLess, KeysOf(a), KeysOf(b));
  }

  /** An untied first is the same candidate in any sorted arrangement. */
  lemma SameFirst(a: seq<Candidate>, b: seq<Candidate>)
    requires a != [] && b != [] && SortedBy(Preferred, a) && SortedBy(Preferred, b) && multiset(a) == multiset(b)
    requires |EqualIds(a)| <= 1
    ensures a[0] == b[0]
  {
    AloneIsBest(a);
    SameKeys(a, b);
    SameElements(a, b);
    assert b[0] in a;
    var j :| 0 <= j < |a| && a[j] == b[0];
    assert KeysOf(a)[0] == KeysOf(b)[0];
  }

  /** Sorting need not be stable: any sorted arrangement selects the same. */
  lemma SelectAnyArrangement(q: Question, a: seq<Candidate>, b: seq<Candidate>)
    requires a != [] && b != [] && SortedBy(Preferred, a) && SortedBy(Preferred, b) && multiset(a) == multiset(b)
    ensures Select(q, a) == Select(q, b)
  {
    SameKeys(a, b);
    EqualIdsByKey(a);
    EqualIdsByKey(b);
    if |EqualIds(a)| <= 1 { SameFirst(a, b); }
  }

  lemma MissingBySet(c: Candidate, available: seq<string>, other: seq<string>)
    requires forall v :: v in available <==> v in other
    ensures Missing(c, available) == Missing(c, other)
  {
    AbsentBySet(c.requiredAll, available, other);
  }

  lemma {:induction false} AbsentBySet(required: seq<string>, available: seq<string>, other: seq<string>)
    requires forall v :: v in available <==> v in other
    ensures Absent(required, available) == Absent(required, other)
  {
    if required != [] { AbsentBySet(required[..|required| - 1], available, other); }
  }

  lemma DecidePermuted(q: Question, a: seq<Candidate>, b: seq<Candidate>)
    requires multiset(a) == multiset(b)
    ensures Decide(q, a) == Decide(q, b)
  {
    var s, t := EligibleOf(q, a), EligibleOf(q, b);
    KeepPermuted((c: Candidate) => Eligible(q, c), a, b);
    SameElements(s, t);
    if s != [] {
      PreferredWeak();
      SortSorted(Preferred, s);
      SortSorted(Preferred, t);
      SelectAnyArrangement(q, Sort(Preferred, s), Sort(Preferred, t));
    }
  }

  lemma DecideBySet(q: Question, cs: seq<Candidate>, available: seq<string>)
    requires forall v :: v in q.available <==> v in available
    ensures Decide(q, cs) == Decide(q.(available := available), cs)
  {
    SameEligible(q, q.(available := available), cs);
    if EligibleOf(q, cs) != [] { SelectBySet(q, Sort(Preferred, EligibleOf(q, cs)), available); }
  }

  lemma SelectBySet(q: Question, sorted: seq<Candidate>, available: seq<string>)
    requires sorted != [] && forall v :: v in q.available <==> v in available
    ensures Select(q, sorted) == Select(q.(available := available), sorted)
  {
    MissingBySet(sorted[0], q.available, available);
  }

  /** The order of the candidates, and the order and repetition of the
      available capabilities, do not matter. */
  lemma DecideRearranged(q: Question, a: seq<Candidate>, b: seq<Candidate>, available: seq<string>)
    requires multiset(a) == multiset(b) && forall v :: v in q.available <==> v in available
    ensures Decide(q, a) == Decide(q.(available := available), b)
  {
    DecidePermuted(q, a, b);
    DecideBySet(q, b, available);
  }

  lemma {:induction false} SameEligible(q: Question, r: Question, cs: seq<Candidate>)
    requires q.requested == r.requested
    ensures EligibleOf(q, cs) == EligibleOf(r, cs)
  {
    if cs != [] { SameEligible(q, r, cs[..|cs| - 1]); }
  }

  // ----- The trace -----

  function SelectedEntries(traces: seq<CandidateTrace>): seq<CandidateTrace> {
    Keep((t: CandidateTrace) => t.disposition == Selected, traces)
  }

  function Occurrences(cs: seq<Candidate>, id: string): seq<Candidate> {
    Keep((c: Candidate) => c.id == id, cs)
  }

  lemma RequestedIsPrescribed(q: Question, cs: seq<Candidate>)
    requires q.requested != "" && Decide(q, cs).kind == Prescribed
    ensures Decide(q, cs).transition == q.requested
  {
    var s := EligibleOf(q, cs);
    var sorted := Sort(Preferred, s);
    SortElements(Preferred, s);
    assert sorted[0] in s;
  }

  lemma SelectedByIdentity(q: Question, d: Decision, c: Candidate)
    requires (q.requested != "" && d.kind == Prescribed) ==> d.transition == q.requested
    ensures Closed(q, d, Opened(q, c)).disposition == Selected <==> d.kind == Prescribed && c.id == d.transition
  {
  }

  lemma {:induction false} KeepSame<T(!new)>(keep: T -> bool, other: T -> bool, s: seq<T>)
    requires forall x :: keep(x) == other(x)
    ensures Keep(keep, s) == Keep(other, s)
  {
    if s != [] { KeepSame(keep, other, s[..|s| - 1]); }
  }

  /** As many entries are marked selected as there are candidates with the
      prescribed identity, and none when nothing is prescribed. */
  lemma SelectedCounted(q: Question, d: Decision, cs: seq<Candidate>)
    requires (q.requested != "" && d.kind == Prescribed) ==> d.transition == q.requested
    ensures |SelectedEntries(TraceOf(q, d, cs))| == if d.kind == Prescribed then |Occurrences(cs, d.transition)| else 0
  {
    var entry := (c: Candidate) => Closed(q, d, Opened(q, c));
    var selected := (c: Candidate) => Closed(q, d, Opened(q, c)).disposition == Selected;
    MapKeep(entry, selected, (t: CandidateTrace) => t.disposition == Selected, cs);
    forall c ensures selected(c) == (d.kind == Prescribed && c.id == d.transition) { SelectedByIdentity(q, d, c); }
    if d.kind == Prescribed {
      KeepSame(selected, (c: Candidate) => c.id == d.transition, cs);
    } else {
      KeepNone(selected, cs);
    }
  }

  lemma UniqueBestOccurs(q: Question, cs: seq<Candidate>, c: Candidate)
    requires Answers(q, cs, c)
    ensures |Occurrences(cs, c.id)| >= 1
  {
    var s := EligibleOf(q, cs);
    var i: nat :| UniqueBest(s, q.available, i) && s[i] == c;
    assert c in s && c in cs;
    assert c in Occurrences(cs, c.id);
  }

  /** The trace of a decision has a selected entry exactly when the candidates
      hold an answer, and exactly one when that answer's identity is not repeated
      among them. */
  lemma TraceAgreesWithDecision(q: Question, cs: seq<Candidate>)
    requires q.noCandidate != Some(Prescribed)
    ensures var selected := |SelectedEntries(TraceOf(q, Decide(q, cs), cs))|;
      && (selected >= 1 <==> Decide(q, cs).kind == Prescribed)
      && (selected >= 1 <==> exists c :: Answers(q, cs, c))
      && (selected == 1 <==> exists c :: Answers(q, cs, c) && |Occurrences(cs, c.id)| == 1)
  {
    var d := Decide(q, cs);
    PrescribedExactly(q, cs);
    if q.requested != "" && d.kind == Prescribed { RequestedIsPrescribed(q, cs); }
    SelectedCounted(q, d, cs);
    if d.kind == Prescribed {
      var c := DecidedIsAnswer(q, cs);
      UniqueBestOccurs(q, cs, c);
    }
  }

  lemma BetterPairDecides(q: Question, a: Candidate, b: Candidate)
    requires !q.marked && Eligible(q, a) && Eligible(q, b) && Better(KeyOf(a), KeyOf(b)) && Authorized(a, q.available)
    ensures Decide(q, [a, b]).kind == Prescribed && Decide(q, [a, b]).transition == a.id
  {
    AllEligible(q, [a, b]);
    assert UniqueBest(EligibleOf(q, [a, b]), q.available, 0);
    AnswerIsDecided(q, [a, b], a);
  }

  /** The trace marks every candidate of the prescribed identity. */
  lemma RepeatedSelectsAll(q: Question, d: Decision, cs: seq<Candidate>)
    requires q.requested == "" && d.kind == Prescribed && forall j :: 0 <= j < |cs| ==> cs[j].id == d.transition
    ensures |SelectedEntries(TraceOf(q, d, cs))| == |cs|
  {
    SelectedCounted(q, d, cs);
    KeepAll((c: Candidate) => c.id == d.transition, cs);
  }

  /** With one identity on two candidates the trace marks both. */
  lemma RepeatedIdentitySelectsTwice()
    ensures var cs := [Candidate("a", 0, 1, true, [], []), Candidate("a", 0, 2, true, [], [])];
      var q := Question("", false, None, []);
      Decide(q, cs).kind == Prescribed && |SelectedEntries(TraceOf(q, Decide(q, cs), cs))| == 2
  {
    var a, b := Candidate("a", 0, 1, true, [], []), Candidate("a", 0, 2, true, [], []);
    var q := Question("", false, None, []);
    BetterPairDecides(q, a, b);
    RepeatedSelectsAll(q, Decide(q, [a, b]), [a, b]);
  }

  lemma AllEligible(q: Question, cs: seq<Candidate>)
    requires forall j :: 0 <= j < |cs| ==> Eligible(q, cs[j])
    ensures EligibleOf(q, cs) == cs
  {
    KeepAll((c: Candidate) => Eligible(q, c), cs);
  }

  lemma {:induction false} KeepAll<T(!new)>(keep: T -> bool, s: seq<T>)
    requires forall j :: 0 <= j < |s| ==> keep(s[j])
    ensures Keep(keep, s) == s
  {
    if s != [] { KeepAll(keep, s[..|s| - 1]); }
  }

  // ----- Ambiguity -----

  ghost predicate DistinctPriorities(s: seq<Candidate>) {
    forall i, j :: 0 <= i < j < |s| ==> s[i].priority != s[j].priority
  }

  lemma PrioritiesAsNumbers(s: seq<Candidate>)
    ensures DistinctPriorities(s) <==> Distinct(MapSeq((c: Candidate) => c.priority, s))
  {
    var numbers := MapSeq((c: Candidate) => c.priority, s);
    if Distinct(numbers) {
      forall i, j | 0 <= i < j < |s| ensures s[i].priority != s[j].priority { assert numbers[i] != numbers[j]; }
    }
  }

  lemma PrioritiesPermuted(a: seq<Candidate>, b: seq<Candidate>)
    requires multiset(a) == multiset(b) && DistinctPriorities(a)
    ensures DistinctPriorities(b)
  {
    PrioritiesAsNumbers(a);
    PrioritiesAsNumbers(b);
    MapSeqMultiset((c: Candidate) => c.priority, a, b);
    DistinctPermuted(MapSeq((c: Candidate) => c.priority, a), MapSeq((c: Candidate) => c.priority, b));
  }

  lemma {:induction false} PrioritiesKept(keep: Candidate -> bool, s: seq<Candidate>)
    requires DistinctPriorities(s)
    ensures DistinctPriorities(Keep(keep, s))
  {
    if s != [] {
      var n := |s| - 1;
      PrioritiesKept(keep, s[..n]);
      var rest := Keep(keep, s[..n]);
      forall k | 0 <= k < |rest| ensures rest[k].priority != s[n].priority { assert rest[k] in s[..n]; }
    }
  }

  /** With different priorities the relation never asks for a selection. */
  lemma NeverAmbiguous(q: Question, cs: seq<Candidate>)
    requires DistinctPriorities(cs) && Decide(q, cs).kind == Frontier && q.noCandidate == None
    ensures |Decide(q, cs).candidates| == 1
  {
    var s := EligibleOf(q, cs);
    var sorted := Sort(Preferred, s);
    PrioritiesKept((c: Candidate) => Eligible(q, c), cs);
    PrioritiesPermuted(s, sorted);
    var top := KeyOf(sorted[0]);
    KeepOne((c: Candidate) => Tied(KeyOf(c), top), sorted, 0);
  }
}
