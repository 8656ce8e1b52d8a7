/** The round journal and the receipts side by side: which attempt wrote each
    round, and which receipt committed it. A crash separates the two. */
module ReviewLedger {
  import opened Base
  import opened ReviewLaw
  import opened ReviewStore
  import R = KernelRelation

  /** A receipt that commits a round: the revision its attempt started from. */
  datatype Entry = Entry(revision: nat, transition: string, fingerprint: string)

  /** The attempt in progress; clean when no recovery was pending before it. */
  datatype Attempt = Attempt(id: string, revision: nat, clean: bool, wrote: bool)

  /** How often an attempt was interrupted in the current generation, and in
      each generation before it. */
  datatype Disturbances = Disturbances(current: nat, past: seq<nat>)

  const CALM := Disturbances(0, [])

  function Disturbed(d: Disturbances): Disturbances { d.(current := d.current + 1) }

  function Closed(d: Disturbances): Disturbances { Disturbances(0, d.past + [d.current]) }

  function DisturbedIn(d: Disturbances, generation: nat): nat {
    if 1 <= generation <= |d.past| then d.past[generation - 1]
    else if generation == |d.past| + 1 then d.current
    else 0
  }

  /** The journal with, for each round, the revision of the attempt that wrote
      it; the round-bearing receipts with, for each, the position of its round;
      and what happened around them. Dropped says that an attempt was
      interrupted, spoiled that one was after the first commit. */
  datatype Book = Book(
    journal: Journal, writer: seq<nat>, entries: seq<Entry>, claims: seq<nat>,
    committed: nat, last: Option<string>, mode: string, pending: bool, attempt: Option<Attempt>,
    disturbed: Disturbances, dropped: bool, spoiled: bool)

  const BLANK := Book(Journal(1, []), [], [], [], 0, None, UNREVIEWED, false, None, CALM, false, false)

  predicate SettledMode(mode: string) { mode == CONVERGED || mode == ESCALATED }

  predicate KnownId(id: string) { Submits(id) || id == REOPEN || id == RECOVER }

  // ----- The law of a round -----

  /** A round that may follow the given rounds of its generation. */
  ghost predicate LawfulNext(p: Policy, earlier: seq<Round>, r: Round) {
    && Submits(r.transition) && r.index == |earlier| + 1
    && (r.transition == CONVERGE <==> r.blockingMeasure == 0)
    && (r.transition == RECORD ==> |earlier| < p.maxRounds && !Stalled(p, Measures(earlier), r.blockingMeasure))
    && (r.transition == ESCALATE ==> |earlier| >= p.maxRounds || Stalled(p, Measures(earlier), r.blockingMeasure))
  }

  ghost predicate LawfulAt(p: Policy, rounds: seq<Round>, i: nat)
    requires i < |rounds|
  {
    LawfulNext(p, InGeneration(rounds[..i], rounds[i].generation), rounds[i])
  }

  // ----- Steps -----

  ghost predicate CanOpen(b: Book, id: string, revision: nat) {
    && b.attempt.None? && KnownId(id) && b.mode in SourcesOf(id) && (b.pending <==> id == RECOVER)
    && forall i :: 0 <= i < |b.writer| ==> b.writer[i] < revision
  }

  function Opened(b: Book, id: string, revision: nat): Book {
    b.(attempt := Some(Attempt(id, revision, !b.pending, false)), pending := true)
  }

  ghost predicate CanAppend(p: Policy, b: Book, r: Round) {
    && b.attempt.Some? && Submits(b.attempt.value.id) && !b.attempt.value.wrote
    && r.transition == b.attempt.value.id && r.generation == b.journal.generation
    && LawfulNext(p, CurrentRounds(b.journal), r)
  }

  function Appended(b: Book, r: Round): Book
    requires b.attempt.Some?
  {
    b.(journal := b.journal.(rounds := b.journal.rounds + [r]), writer := b.writer + [b.attempt.value.revision],
       attempt := Some(b.attempt.value.(wrote := true)))
  }

  ghost predicate CanAdvance(b: Book) {
    b.attempt.Some? && b.attempt.value.id == REOPEN && !b.attempt.value.wrote
  }

  function Advanced(b: Book): Book
    requires b.attempt.Some?
  {
    b.(journal := b.journal.(generation := b.journal.generation + 1), attempt := Some(b.attempt.value.(wrote := true)),
       disturbed := Closed(b.disturbed))
  }

  ghost predicate CanCommit(b: Book) {
    b.attempt.Some? && (b.attempt.value.wrote || b.attempt.value.id == RECOVER) &&
      (Submits(b.attempt.value.id) ==> b.journal.rounds != [])
  }

  function Committed(b: Book): Book
    requires b.attempt.Some? && (Submits(b.attempt.value.id) ==> b.journal.rounds != [])
  {
    var a := b.attempt.value;
    var n := |b.journal.rounds|;
    var moved := b.(committed := b.committed + 1, last := Some(a.id), mode := TargetOf(a.id), pending := false,
      attempt := None);
    if Submits(a.id) then
      moved.(entries := b.entries + [Entry(a.revision, a.id, b.journal.rounds[n - 1].fingerprint)],
        claims := b.claims + [n - 1])
    else moved
  }

  function Dropped(b: Book): Book {
    b.(attempt := None, disturbed := Disturbed(b.disturbed), dropped := true, spoiled := b.spoiled || b.committed > 0)
  }

  // ----- Invariants -----

  /** The attempt in progress has written its round. */
  predicate Writing(b: Book) { b.attempt.Some? && Submits(b.attempt.value.id) && b.attempt.value.wrote }

  ghost predicate AttemptSound(b: Book) {
    b.attempt.Some? ==>
      var a := b.attempt.value;
      && b.pending && KnownId(a.id) && b.mode in SourcesOf(a.id) && (a.clean <==> a.id != RECOVER)
      && (Writing(b) ==>
        && b.journal.rounds != [] && b.writer != [] && b.writer[|b.writer| - 1] == a.revision
        && b.journal.rounds[|b.journal.rounds| - 1].transition == a.id
        && b.journal.rounds[|b.journal.rounds| - 1].generation == b.journal.generation)
      && forall i :: 0 <= i < |b.writer| && !(Writing(b) && i == |b.writer| - 1) ==> b.writer[i] < a.revision
  }

  ghost predicate Generations(b: Book) {
    && b.journal.generation >= 1 && |b.writer| == |b.journal.rounds|
    && (forall i :: 0 <= i < |b.journal.rounds| ==> 1 <= b.journal.rounds[i].generation <= b.journal.generation)
    && (forall i, j :: 0 <= i < j < |b.journal.rounds| ==>
         b.journal.rounds[i].generation <= b.journal.rounds[j].generation)
  }

  ghost predicate Lawful(p: Policy, rounds: seq<Round>) {
    forall i :: 0 <= i < |rounds| ==> LawfulAt(p, rounds, i)
  }

  /** The k-th round-bearing receipt committed the round at its claim. */
  ghost predicate ClaimAt(b: Book, k: nat)
    requires k < |b.claims| && k < |b.entries|
  {
    && b.claims[k] < |b.journal.rounds| && b.claims[k] < |b.writer|
    && b.writer[b.claims[k]] == b.entries[k].revision
    && b.journal.rounds[b.claims[k]].transition == b.entries[k].transition
    && b.journal.rounds[b.claims[k]].fingerprint == b.entries[k].fingerprint
  }

  ghost predicate Increasing(s: seq<nat>) {
    forall i, j :: 0 <= i < j < |s| ==> s[i] < s[j]
  }

  ghost predicate Claims(b: Book) {
    && |b.claims| == |b.entries| && Increasing(b.claims)
    && (forall k :: 0 <= k < |b.claims| ==> ClaimAt(b, k))
    && (Writing(b) ==> forall k :: 0 <= k < |b.claims| ==> b.claims[k] < |b.journal.rounds| - 1)
  }

  /** A round that no receipt committed and nobody is about to. */
  ghost predicate Orphan(b: Book, i: nat) {
    i < |b.journal.rounds| && i !in b.claims && !(Writing(b) && i == |b.journal.rounds| - 1)
  }

  ghost predicate OrphansSpoil(b: Book) {
    && (forall i: nat :: Orphan(b, i) ==> b.dropped)
    && (forall i: nat :: Orphan(b, i) && b.journal.rounds[i].generation >= 2 ==> b.spoiled)
    && (b.journal.generation >= 2 ==> b.committed > 0) && (SettledMode(b.mode) ==> b.committed > 0)
    && (b.committed > 0 && !b.spoiled && b.attempt.None? ==> !b.pending)
    && (b.committed > 0 <==> b.last.Some?)
  }

  /** In the converged mode the last round of the current generation is the
      convergence that the last receipt committed. */
  ghost predicate ConvergedTruly(b: Book) {
    b.mode == CONVERGED && !b.pending ==>
      var n := |b.journal.rounds|;
      && b.last == Some(CONVERGE) && n > 0 && |b.claims| > 0 && b.claims[|b.claims| - 1] == n - 1
      && b.journal.rounds[n - 1].transition == CONVERGE && b.journal.rounds[n - 1].generation == b.journal.generation
  }

  function Terminals(rounds: seq<Round>): seq<Round> { R.Keep((r: Round) => r.transition != RECORD, rounds) }

  function Credit(b: Book): nat {
    if b.attempt.Some? then
      (if b.attempt.value.clean && SettledMode(b.mode) && !b.attempt.value.wrote then 1 else 0)
      + if Writing(b) && b.attempt.value.id != RECORD then 1 else 0
    else if !b.pending && SettledMode(b.mode) then 1 else 0
  }

  /** Rounds that end a generation are paid for by the settled mode or by an
      interruption. */
  ghost predicate TerminalsPaid(b: Book) {
    |Terminals(CurrentRounds(b.journal))| <= b.disturbed.current + Credit(b)
  }

  /** The same for the generations before: each ended once. */
  ghost predicate PastPaid(b: Book) {
    && |b.disturbed.past| == b.journal.generation - 1
    && forall g: nat :: 1 <= g < b.journal.generation ==>
         |Terminals(InGeneration(b.journal.rounds, g))| <= b.disturbed.past[g - 1] + 1
  }

  ghost predicate BookInv(p: Policy, b: Book) {
    && AttemptSound(b) && Generations(b) && Lawful(p, b.journal.rounds) && Claims(b) && OrphansSpoil(b)
    && ConvergedTruly(b) && TerminalsPaid(b) && PastPaid(b)
  }

  lemma BlankKeeps(p: Policy)
    ensures BookInv(p, BLANK)
  {
    DifferentNames();
    assert UNREVIEWED != CONVERGED && UNREVIEWED != ESCALATED by {
      var names := [UNREVIEWED, FINDINGS_OPEN, CONVERGED, ESCALATED];
      assert names[0] != names[2] && names[0] != names[3];
    }
  }

  // ----- Every step keeps them -----

  lemma ClaimsUnmoved(b: Book, next: Book)
    requires Claims(b) && next.journal.rounds == b.journal.rounds && next.writer == b.writer
    requires next.claims == b.claims && next.entries == b.entries && (Writing(next) ==> Writing(b))
    ensures Claims(next)
  {
    forall k | 0 <= k < |b.claims| ensures ClaimAt(next, k) { assert ClaimAt(b, k); }
  }

  lemma OpenKeeps(p: Policy, b: Book, id: string, revision: nat)
    requires BookInv(p, b) && CanOpen(b, id, revision)
    ensures BookInv(p, Opened(b, id, revision))
  {
    ClaimsUnmoved(b, Opened(b, id, revision));
    forall i: nat | Orphan(Opened(b, id, revision), i) ensures Orphan(b, i) {}
  }

  lemma AppendKeeps(p: Policy, b: Book, r: Round)
    requires BookInv(p, b) && CanAppend(p, b, r)
    ensures BookInv(p, Appended(b, r))
  {
    AppendLawful(p, b.journal, r);
    AppendClaims(b, r);
    AppendTerminals(b, r);
    AppendPast(b, r);
    AppendSound(p, b, r);
    AppendOrphans(b, r);
  }

  lemma AppendSound(p: Policy, b: Book, r: Round)
    requires AttemptSound(b) && Generations(b) && CanAppend(p, b, r)
    ensures AttemptSound(Appended(b, r)) && Generations(Appended(b, r)) && ConvergedTruly(Appended(b, r))
  {
  }

  lemma AppendOrphans(b: Book, r: Round)
    requires OrphansSpoil(b) && b.attempt.Some? && Submits(b.attempt.value.id) && !b.attempt.value.wrote
    ensures OrphansSpoil(Appended(b, r))
  {
    var next := Appended(b, r);
    forall i: nat | Orphan(next, i) ensures Orphan(b, i) && next.journal.rounds[i] == b.journal.rounds[i] {}
  }

  lemma AppendLawful(p: Policy, j: Journal, r: Round)
    requires Lawful(p, j.rounds) && r.generation == j.generation && LawfulNext(p, CurrentRounds(j), r)
    ensures Lawful(p, j.rounds + [r])
  {
    var more, n := j.rounds + [r], |j.rounds|;
    forall i | 0 <= i < |more| ensures LawfulAt(p, more, i) {
      if i < n {
        assert more[..i] == j.rounds[..i] && LawfulAt(p, j.rounds, i);
      } else {
        assert more[..n] == j.rounds;
      }
    }
  }

  lemma AppendClaims(b: Book, r: Round)
    requires Claims(b) && Generations(b) && b.attempt.Some? && !b.attempt.value.wrote
    ensures Claims(Appended(b, r))
  {
    forall k | 0 <= k < |b.claims| ensures ClaimAt(Appended(b, r), k) && b.claims[k] < |b.journal.rounds| {
      assert ClaimAt(b, k);
    }
  }

  lemma {:induction false} KeepAppended<T(!new)>(keep: T -> bool, s: seq<T>, x: T)
    ensures R.Keep(keep, s + [x]) == R.Keep(keep, s) + if keep(x) then [x] else []
  {
    assert (s + [x])[..|s|] == s;
  }

  lemma CurrentAppended(j: Journal, r: Round)
    requires r.generation == j.generation
    ensures CurrentRounds(j.(rounds := j.rounds + [r])) == CurrentRounds(j) + [r]
  {
    KeepAppended((x: Round) => x.generation == j.generation, j.rounds, r);
  }

  lemma AppendTerminals(b: Book, r: Round)
    requires TerminalsPaid(b) && b.attempt.Some? && Submits(b.attempt.value.id) && !b.attempt.value.wrote
    requires b.mode in SourcesOf(b.attempt.value.id)
    requires r.transition == b.attempt.value.id && r.generation == b.journal.generation
    ensures TerminalsPaid(Appended(b, r))
  {
    CurrentAppended(b.journal, r);
    KeepAppended((x: Round) => x.transition != RECORD, CurrentRounds(b.journal), r);
    UnsettledSources(b.mode);
  }

  lemma AppendPast(b: Book, r: Round)
    requires PastPaid(b) && b.attempt.Some? && r.generation == b.journal.generation
    ensures PastPaid(Appended(b, r))
  {
    forall g: nat | 1 <= g < b.journal.generation
      ensures InGeneration(b.journal.rounds + [r], g) == InGeneration(b.journal.rounds, g)
    {
      KeepAppended((x: Round) => x.generation == g, b.journal.rounds, r);
    }
  }

  lemma UnsettledSources(mode: string)
    ensures mode in SourcesOf(CONVERGE) || mode in SourcesOf(RECORD) || mode in SourcesOf(ESCALATE) ==>
      !SettledMode(mode)
    ensures mode in SourcesOf(REOPEN) ==> SettledMode(mode)
  {
    DifferentNames();
    var names := [UNREVIEWED, FINDINGS_OPEN, CONVERGED, ESCALATED];
    assert names[0] != names[2] && names[0] != names[3] && names[1] != names[2] && names[1] != names[3];
    var ids := [CONVERGE, RECORD, ESCALATE, REOPEN, RECOVER];
    assert ids[0] != ids[3] && ids[0] != ids[4] && ids[1] != ids[3] && ids[1] != ids[4] && ids[2] != ids[3] &&
      ids[2] != ids[4];
  }

  lemma AdvanceKeeps(p: Policy, b: Book)
    requires BookInv(p, b) && CanAdvance(b)
    ensures BookInv(p, Advanced(b))
  {
    NotSubmissions();
    AdvanceSound(b);
    AdvancePast(b);
    ClaimsUnmoved(b, Advanced(b));
    AdvanceOrphans(b);
  }

  lemma AdvanceSound(b: Book)
    requires AttemptSound(b) && Generations(b) && CanAdvance(b)
    ensures AttemptSound(Advanced(b)) && Generations(Advanced(b)) && ConvergedTruly(Advanced(b))
    ensures TerminalsPaid(Advanced(b))
  {
    NotSubmissions();
    NoneYet(b.journal);
  }

  /** The generation that is left ended at most once more than it was disturbed. */
  lemma AdvancePast(b: Book)
    requires TerminalsPaid(b) && PastPaid(b) && CanAdvance(b) && b.journal.generation >= 1
    ensures PastPaid(Advanced(b))
  {
    NotSubmissions();
    assert Credit(b) <= 1;
    forall g: nat | 1 <= g <= b.journal.generation
      ensures |Terminals(InGeneration(b.journal.rounds, g))| <= Closed(b.disturbed).past[g - 1] + 1
    {
      assert g == b.journal.generation ==> InGeneration(b.journal.rounds, g) == CurrentRounds(b.journal);
    }
  }

  lemma AdvanceOrphans(b: Book)
    requires AttemptSound(b) && OrphansSpoil(b) && CanAdvance(b)
    ensures OrphansSpoil(Advanced(b))
  {
    NotSubmissions();
    UnsettledSources(b.mode);
    forall i: nat | Orphan(Advanced(b), i) ensures Orphan(b, i) {}
  }

  lemma NotSubmissions()
    ensures !Submits(REOPEN) && !Submits(RECOVER) && REOPEN != RECOVER && RECORD != CONVERGE && RECORD != ESCALATE
    ensures CONVERGE != ESCALATE
  {
    DifferentNames();
    var ids := [CONVERGE, RECORD, ESCALATE, REOPEN, RECOVER];
    assert ids[0] != ids[3] && ids[0] != ids[4] && ids[1] != ids[3] && ids[1] != ids[4] && ids[2] != ids[3] &&
      ids[2] != ids[4] && ids[3] != ids[4];
    assert ids[0] != ids[1] && ids[1] != ids[2] && ids[0] != ids[2];
  }

  lemma NoneYet(j: Journal)
    requires forall i :: 0 <= i < |j.rounds| ==> j.rounds[i].generation <= j.generation
    ensures CurrentRounds(j.(generation := j.generation + 1)) == []
  {
    R.KeepNone((r: Round) => r.generation == j.generation + 1, j.rounds);
  }

  lemma DropKeeps(p: Policy, b: Book)
    requires BookInv(p, b) && b.attempt.Some?
    ensures BookInv(p, Dropped(b))
  {
    var next := Dropped(b);
    ClaimsUnmoved(b, next);
    forall i: nat | Orphan(next, i) && next.journal.rounds[i].generation >= 2 ensures next.spoiled {
      if !Orphan(b, i) { assert b.journal.generation >= 2; }
    }
  }

  lemma CommitKeeps(p: Policy, b: Book)
    requires BookInv(p, b) && CanCommit(b)
    ensures BookInv(p, Committed(b))
  {
    NotSubmissions();
    UnsettledSources(b.mode);
    CommitClaims(b);
    CommitSettles(b);
    CommitConverges(b);
  }

  lemma CommitClaims(b: Book)
    requires AttemptSound(b) && Generations(b) && Claims(b) && CanCommit(b)
    ensures Claims(Committed(b)) && Generations(Committed(b))
  {
    NotSubmissions();
    var next := Committed(b);
    forall k | 0 <= k < |next.claims| ensures ClaimAt(next, k) {
      if k < |b.claims| { assert ClaimAt(b, k); }
    }
  }

  lemma CommitSettles(b: Book)
    requires AttemptSound(b) && Claims(b) && OrphansSpoil(b) && TerminalsPaid(b) && CanCommit(b)
    ensures OrphansSpoil(Committed(b)) && TerminalsPaid(Committed(b))
  {
    NotSubmissions();
    UnsettledSources(b.mode);
    var next := Committed(b);
    forall i: nat | Orphan(next, i) ensures Orphan(b, i) {
      if Submits(b.attempt.value.id) {
        assert next.claims[|b.claims|] == |b.journal.rounds| - 1;
        assert forall k :: 0 <= k < |b.claims| ==> next.claims[k] == b.claims[k];
      }
    }
  }

  lemma CommitConverges(b: Book)
    requires AttemptSound(b) && Generations(b) && CanCommit(b)
    ensures ConvergedTruly(Committed(b)) && AttemptSound(Committed(b))
  {
    NotSubmissions();
    DifferentNames();
    var names := [UNREVIEWED, FINDINGS_OPEN, CONVERGED, ESCALATED];
    assert names[0] != names[2] && names[1] != names[2] && names[3] != names[2];
  }

  // ----- Bounds -----

  /** The k-th kept element, and what was kept before it. */
  lemma {:induction false} KeptAt<T(!new)>(keep: T -> bool, s: seq<T>, k: nat) returns (i: nat)
    requires k < |R.Keep(keep, s)|
    ensures i < |s| && s[i] == R.Keep(keep, s)[k] && keep(s[i]) && R.Keep(keep, s[..i]) == R.Keep(keep, s)[..k]
  {
    var n := |s| - 1;
    var rest := R.Keep(keep, s[..n]);
    if k < |rest| {
      i := KeptAt(keep, s[..n], k);
      KeptPrefix(keep, s, i);
    } else {
      i := n;
    }
  }

  lemma KeptPrefix<T(!new)>(keep: T -> bool, s: seq<T>, i: nat)
    requires i < |s|
    ensures i <= |s| - 1 && s[..|s| - 1][..i] == s[..i]
  {
  }

  /** Every round obeys the law towards the earlier rounds of its generation. */
  lemma GenerationLawful(p: Policy, rounds: seq<Round>, generation: nat, k: nat)
    requires Lawful(p, rounds) && k < |InGeneration(rounds, generation)|
    ensures var gen := InGeneration(rounds, generation); LawfulNext(p, gen[..k], gen[k])
  {
    var i := KeptAt((r: Round) => r.generation == generation, rounds, k);
    assert LawfulAt(p, rounds, i);
  }

  lemma MeasuresPrefix(rounds: seq<Round>, k: nat)
    requires k < |rounds|
    ensures Measures(rounds[..k]) + [rounds[k].blockingMeasure] == Measures(rounds)[..k + 1]
  {
  }

  /** In every generation a recording round stands before the round bound, and
      the last `Window` blocking measures up to it contain a strict decrease,
      as soon as there are that many. */
  lemma RecordBounds(p: Policy, rounds: seq<Round>, generation: nat, k: nat)
    requires Lawful(p, rounds) && k < |InGeneration(rounds, generation)|
    requires InGeneration(rounds, generation)[k].transition == RECORD
    ensures k < p.maxRounds && !NoDecrease(Measures(InGeneration(rounds, generation))[..k + 1], Window(p))
  {
    GenerationLawful(p, rounds, generation, k);
    MeasuresPrefix(InGeneration(rounds, generation), k);
  }

  lemma {:induction false} LateRoundsEnd(rounds: seq<Round>, bound: nat)
    requires forall k :: bound <= k < |rounds| ==> rounds[k].transition != RECORD
    ensures |rounds| <= bound + |Terminals(rounds)|
  {
    if |rounds| > bound { LateRoundsEnd(rounds[..|rounds| - 1], bound); }
  }

  /** Only rounds that end a generation stand beyond the round bound. */
  lemma BoundedByTerminals(p: Policy, rounds: seq<Round>, generation: nat)
    requires Lawful(p, rounds) && ValidPolicy(p)
    ensures var gen := InGeneration(rounds, generation); |gen| <= p.maxRounds + |Terminals(gen)|
  {
    var gen := InGeneration(rounds, generation);
    forall k | p.maxRounds <= k < |gen| ensures gen[k].transition != RECORD {
      if gen[k].transition == RECORD { RecordBounds(p, rounds, generation, k); }
    }
    LateRoundsEnd(gen, p.maxRounds);
  }

  lemma NoSuchGeneration(b: Book, generation: nat)
    requires Generations(b) && (generation == 0 || generation > b.journal.generation)
    ensures InGeneration(b.journal.rounds, generation) == []
  {
    R.KeepNone((r: Round) => r.generation == generation, b.journal.rounds);
  }

  /** A generation grows past the round bound only by its own end and once for
      each attempt that was interrupted in it. */
  lemma GenerationBound(p: Policy, b: Book, generation: nat)
    requires BookInv(p, b) && ValidPolicy(p)
    ensures |InGeneration(b.journal.rounds, generation)| <= p.maxRounds + 1 + DisturbedIn(b.disturbed, generation)
  {
    BoundedByTerminals(p, b.journal.rounds, generation);
    if generation == 0 || generation > b.journal.generation {
      NoSuchGeneration(b, generation);
    } else if generation == b.journal.generation {
      assert InGeneration(b.journal.rounds, generation) == CurrentRounds(b.journal);
      if b.attempt.Some? { UnsettledSources(b.mode); }
    }
  }

  // ----- Who owns the current rounds -----

  ghost predicate NoOrphan(b: Book) {
    forall i: nat :: Orphan(b, i) ==> b.journal.rounds[i].generation != b.journal.generation
  }

  ghost predicate Ordered(rounds: seq<Round>, generation: nat) {
    && (forall i, j :: 0 <= i < j < |rounds| ==> rounds[i].generation <= rounds[j].generation)
    && (forall i :: 0 <= i < |rounds| ==> rounds[i].generation <= generation)
  }

  ghost predicate SuffixFrom(rounds: seq<Round>, generation: nat, start: nat) {
    && start <= |rounds| && InGeneration(rounds, generation) == rounds[start..]
    && (forall i :: 0 <= i < |rounds| ==> (rounds[i].generation == generation <==> i >= start))
  }

  /** Generations do not decrease, so the current rounds are the last ones. */
  lemma {:induction false} CurrentIsSuffix(rounds: seq<Round>, generation: nat) returns (start: nat)
    requires Ordered(rounds, generation)
    ensures SuffixFrom(rounds, generation, start)
  {
    if rounds == [] {
      start := 0;
    } else if rounds[|rounds| - 1].generation == generation {
      start := CurrentIsSuffix(rounds[..|rounds| - 1], generation);
      SuffixGrows(rounds, generation, start);
    } else {
      start := |rounds|;
      NoneCurrent(rounds, generation);
    }
  }

  lemma SuffixGrows(rounds: seq<Round>, generation: nat, start: nat)
    requires rounds != [] && rounds[|rounds| - 1].generation == generation
    requires SuffixFrom(rounds[..|rounds| - 1], generation, start)
    ensures SuffixFrom(rounds, generation, start)
  {
    var n := |rounds| - 1;
    KeepAppended((r: Round) => r.generation == generation, rounds[..n], rounds[n]);
    LastSplit(rounds, start);
    forall i | 0 <= i < |rounds| ensures rounds[i].generation == generation <==> i >= start {
      if i < n { assert rounds[..n][i] == rounds[i]; }
    }
  }

  lemma LastSplit<T>(s: seq<T>, start: nat)
    requires s != [] && start < |s|
    ensures s[..|s| - 1] + [s[|s| - 1]] == s && s[..|s| - 1][start..] + [s[|s| - 1]] == s[start..]
  {
  }

  lemma NoneCurrent(rounds: seq<Round>, generation: nat)
    requires rounds != [] && Ordered(rounds, generation) && rounds[|rounds| - 1].generation != generation
    ensures SuffixFrom(rounds, generation, |rounds|)
  {
    assert forall i :: 0 <= i < |rounds| ==> rounds[i].generation <= rounds[|rounds| - 1].generation < generation;
    R.KeepNone((r: Round) => r.generation == generation, rounds);
  }

  lemma LastIsTop(s: seq<nat>, n: nat, k: nat)
    requires Increasing(s) && k < |s| && s[k] == n - 1 && s[|s| - 1] < n
    ensures k == |s| - 1
  {
  }

  /** An increasing list that contains the last m numbers below n ends with
      them. */
  lemma {:induction false} EndsWithLast(s: seq<nat>, n: nat, m: nat)
    requires Increasing(s) && m <= n && (forall k :: 0 <= k < |s| ==> s[k] < n)
    requires forall i :: n - m <= i < n ==> i in s
    ensures m <= |s| && forall j :: |s| - m <= j < |s| ==> s[j] == n - |s| + j
  {
    if m > 0 {
      assert n - 1 in s;
      var k :| 0 <= k < |s| && s[k] == n - 1;
      LastIsTop(s, n, k);
      var front := s[..|s| - 1];
      forall i | n - m <= i < n - 1 ensures i in front {
        assert i in s;
        var j :| 0 <= j < |s| && s[j] == i;
        assert front[j] == i;
      }
      forall j | 0 <= j < |front| ensures front[j] < n - 1 { assert s[j] < s[|s| - 1]; }
      EndsWithLast(front, n - 1, m - 1);
    }
  }

  /** An increasing list of n numbers below n is all of them. */
  lemma {:induction false} FullList(s: seq<nat>, n: nat)
    requires Increasing(s) && |s| >= n && forall k :: 0 <= k < |s| ==> s[k] < n
    ensures forall i :: 0 <= i < n ==> i in s
  {
    if n > 0 {
      var m := |s| - 1;
      assert forall k :: 0 <= k < m ==> s[k] < s[m];
      FullList(s[..m], n - 1);
      IncreasingReaches(s, m);
      assert s[m] == n - 1;
      assert forall i :: i in s[..m] ==> i in s;
    }
  }

  lemma {:induction false} IncreasingReaches(s: seq<nat>, k: nat)
    requires Increasing(s) && k < |s|
    ensures s[k] >= k
  {
    if k > 0 {
      IncreasingReaches(s, k - 1);
      assert s[k - 1] < s[k];
    }
  }

  /** What sealing needs to know: the converged mode was reached by a commit,
      nothing is pending, and every current round was committed. */
  lemma SealableBook(p: Policy, b: Book) returns (start: nat)
    requires BookInv(p, b) && b.attempt.None? && NoOrphan(b)
    ensures SuffixFrom(b.journal.rounds, b.journal.generation, start)
    ensures var m := |b.journal.rounds| - start;
      m <= |b.claims| && forall j :: |b.claims| - m <= j < |b.claims| ==>
        b.claims[j] == |b.journal.rounds| - |b.claims| + j
  {
    start := CurrentIsSuffix(b.journal.rounds, b.journal.generation);
    var n := |b.journal.rounds|;
    forall k | 0 <= k < |b.claims| ensures b.claims[k] < n { assert ClaimAt(b, k); }
    forall i: nat | start <= i < n ensures i in b.claims { assert !Orphan(b, i); }
    EndsWithLast(b.claims, n, n - start);
  }

  /** Enough round-bearing receipts for the current rounds, in a book that was
      never spoiled, leave no current round without its own. */
  lemma CountLeavesNoOrphan(p: Policy, b: Book)
    requires BookInv(p, b) && b.attempt.None? && !b.spoiled && |b.entries| >= |CurrentRounds(b.journal)|
    ensures NoOrphan(b)
  {
    var n := |b.journal.rounds|;
    if b.journal.generation == 1 {
      var start := CurrentIsSuffix(b.journal.rounds, 1);
      assert start == 0 by { if n > 0 { assert b.journal.rounds[0].generation == 1; } }
      forall k | 0 <= k < |b.claims| ensures b.claims[k] < n { assert ClaimAt(b, k); }
      FullList(b.claims, n);
    }
  }
}
