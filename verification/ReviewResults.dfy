/** What holds of every run of the review program. */
module ReviewResults {
  import opened Base
  import opened ReviewLaw
  import opened ReviewStore
  import opened ReviewLedger
  import opened ReviewMachine
  import K = KernelRuntime
  import M = KernelMachine
  import P = KernelProgram
  import R = KernelRelation
  import S = ReviewSafety

  // ----- Convergence bounds -----

  function Recorded(rounds: seq<Round>): seq<Round> { R.Keep((r: Round) => r.transition == RECORD, rounds) }

  lemma {:induction false} EarlyRecords(rounds: seq<Round>, bound: nat)
    requires forall k :: 0 <= k < |rounds| && rounds[k].transition == RECORD ==> k < bound
    ensures |Recorded(rounds)| <= bound && |Recorded(rounds)| <= |rounds|
  {
    if rounds != [] { EarlyRecords(rounds[..|rounds| - 1], bound); }
  }

  /** The part of the invariants that speaks about rounds. */
  lemma RunLawful(law: Law, w: World, events: seq<Event>)
    requires ValidLaw(law)
    ensures Lawful(law.policy, JournalOf(Run(law, w, events).disk).rounds)
  {
    S.RunKeeps(law, w, events);
  }

  /** In every run, in every generation: at most MaxRounds rounds record
      findings, and the last `Window` blocking measures up to a recording
      round, when there are that many, contain a strict decrease. */
  lemma RecordingIsBounded(law: Law, w: World, events: seq<Event>, generation: nat)
    requires ValidLaw(law)
    ensures var rounds := InGeneration(JournalOf(Run(law, w, events).disk).rounds, generation);
      && |Recorded(rounds)| <= law.policy.maxRounds
      && forall k :: 0 <= k < |rounds| && rounds[k].transition == RECORD ==>
           !NoDecrease(Measures(rounds)[..k + 1], Window(law.policy))
  {
    RunLawful(law, w, events);
    var all := JournalOf(Run(law, w, events).disk).rounds;
    var rounds := InGeneration(all, generation);
    forall k | 0 <= k < |rounds| && rounds[k].transition == RECORD
      ensures k < law.policy.maxRounds && !NoDecrease(Measures(rounds)[..k + 1], Window(law.policy))
    {
      RecordBounds(law.policy, all, generation, k);
    }
    EarlyRecords(rounds, law.policy.maxRounds);
  }

  /** In every run every generation has at most MaxRounds + 1 rounds and one
      more for each attempt interrupted in it; without interruptions, at most
      MaxRounds + 1. */
  lemma GenerationIsBounded(law: Law, w: World, events: seq<Event>, generation: nat)
    requires ValidLaw(law)
    ensures var m := Run(law, w, events);
      |InGeneration(JournalOf(m.disk).rounds, generation)|
        <= law.policy.maxRounds + 1 + DisturbedIn(m.disturbed, generation)
  {
    S.RunKeeps(law, w, events);
    BookBounded(law, Run(law, w, events), generation);
  }

  lemma BookBounded(law: Law, m: Machine, generation: nat)
    requires BookInv(law.policy, BookOf(m)) && ValidPolicy(law.policy)
    ensures |InGeneration(JournalOf(m.disk).rounds, generation)|
        <= law.policy.maxRounds + 1 + DisturbedIn(m.disturbed, generation)
  {
    GenerationBound(law.policy, BookOf(m), generation);
  }

  // ----- Convergence -----

  /** The last round of the current generation found nothing blocking, its
      bytes are archived and say so, and the last receipt is the convergence
      committed by the very attempt that wrote this round. */
  ghost predicate TrulyConverged(law: Law, m: Machine) {
    var rounds, current := JournalOf(m.disk).rounds, CurrentRounds(JournalOf(m.disk));
    && m.k.receipts != [] && current != [] && |m.writer| == |rounds| > 0
    && var receipt, last := m.k.receipts[|m.k.receipts| - 1], current[|current| - 1];
      && last == rounds[|rounds| - 1] && last.transition == CONVERGE && last.blockingMeasure == 0
      && receipt.body.transition == CONVERGE && receipt.body.effects != []
      && receipt.body.effects[0].fingerprint == last.fingerprint && receipt.body.prior == m.writer[|rounds| - 1]
      && Archived(law, m.disk.archive, last)
  }

  lemma LastCurrent(j: Journal)
    requires j.rounds != [] && j.rounds[|j.rounds| - 1].generation == j.generation
    ensures CurrentRounds(j) != [] && CurrentRounds(j)[|CurrentRounds(j)| - 1] == j.rounds[|j.rounds| - 1]
  {
    KeepAppended((r: Round) => r.generation == j.generation, j.rounds[..|j.rounds| - 1], j.rounds[|j.rounds| - 1]);
    assert j.rounds[..|j.rounds| - 1] + [j.rounds[|j.rounds| - 1]] == j.rounds;
  }

  lemma LastEntry(receipts: seq<Receipt>)
    requires receipts != [] && Submits(receipts[|receipts| - 1].body.transition)
    ensures EntriesOf(receipts) != []
    ensures EntriesOf(receipts)[|EntriesOf(receipts)| - 1] == EntryOf(receipts[|receipts| - 1])
  {
    S.EntriesAppended(receipts[..|receipts| - 1], receipts[|receipts| - 1]);
    assert receipts[..|receipts| - 1] + [receipts[|receipts| - 1]] == receipts;
  }

  lemma BookConverged(p: Policy, b: Book)
    requires BookInv(p, b) && b.mode == CONVERGED && !b.pending
    ensures var n := |b.journal.rounds|;
      && b.last == Some(CONVERGE) && n > 0 && |b.writer| == n && b.entries != []
      && b.journal.rounds[n - 1].transition == CONVERGE && b.journal.rounds[n - 1].generation == b.journal.generation
      && b.journal.rounds[n - 1].blockingMeasure == 0
      && b.entries[|b.entries| - 1].revision == b.writer[n - 1]
      && b.entries[|b.entries| - 1].fingerprint == b.journal.rounds[n - 1].fingerprint
  {
    assert ClaimAt(b, |b.claims| - 1);
    assert LawfulAt(p, b.journal.rounds, |b.journal.rounds| - 1);
  }

  lemma ReceiptHasEffects(rt: K.Runtime, k: M.Machine<Observed>)
    requires M.Inv(rt, k) && k.receipts != []
    ensures k.receipts[|k.receipts| - 1].body.effects != []
  {
    assert M.ReceiptOf(rt, k.state.instance, k.receipts[|k.receipts| - 1]);
  }

  lemma ConvergedBook(law: Law, m: Machine)
    requires BookInv(law.policy, BookOf(m)) && m.k.state.mode == CONVERGED && m.k.state.recovery.None?
    ensures var rounds, entries := JournalOf(m.disk).rounds, EntriesOf(m.k.receipts);
      && m.k.receipts != [] && m.k.receipts[|m.k.receipts| - 1].body.transition == CONVERGE
      && rounds != [] && |m.writer| == |rounds| && entries != []
      && rounds[|rounds| - 1].transition == CONVERGE && rounds[|rounds| - 1].generation == JournalOf(m.disk).generation
      && rounds[|rounds| - 1].blockingMeasure == 0
      && entries[|entries| - 1].revision == m.writer[|rounds| - 1]
      && entries[|entries| - 1].fingerprint == rounds[|rounds| - 1].fingerprint
  {
    BookConverged(law.policy, BookOf(m));
  }

  lemma InvConverged(law: Law, m: Machine)
    requires M.Inv(law.runtime, m.k) && BookInv(law.policy, BookOf(m)) && AllArchived(law, m.disk)
    requires m.k.state.mode == CONVERGED && m.k.state.recovery.None?
    ensures TrulyConverged(law, m)
  {
    ConvergedBook(law, m);
    ReceiptHasEffects(law.runtime, m.k);
    Assemble(law, m);
  }

  lemma Assemble(law: Law, m: Machine)
    requires var rounds, entries := JournalOf(m.disk).rounds, EntriesOf(m.k.receipts);
      && m.k.receipts != [] && m.k.receipts[|m.k.receipts| - 1].body.transition == CONVERGE
      && rounds != [] && |m.writer| == |rounds| && entries != []
      && rounds[|rounds| - 1].transition == CONVERGE && rounds[|rounds| - 1].generation == JournalOf(m.disk).generation
      && rounds[|rounds| - 1].blockingMeasure == 0
      && entries[|entries| - 1].revision == m.writer[|rounds| - 1]
      && entries[|entries| - 1].fingerprint == rounds[|rounds| - 1].fingerprint
    requires m.k.receipts[|m.k.receipts| - 1].body.effects != [] && AllArchived(law, m.disk)
    ensures TrulyConverged(law, m)
  {
    LastCurrent(JournalOf(m.disk));
    LastEntry(m.k.receipts);
    assert JournalOf(m.disk).rounds[|JournalOf(m.disk).rounds| - 1] in JournalOf(m.disk).rounds;
  }

  /** In every reachable state that is converged with no recovery pending, the
      convergence is real. */
  lemma ConvergedIsReal(law: Law, w: World, events: seq<Event>)
    requires ValidLaw(law)
    requires Run(law, w, events).k.state.mode == CONVERGED && Run(law, w, events).k.state.recovery.None?
    ensures TrulyConverged(law, Run(law, w, events))
  {
    S.RunKeeps(law, w, events);
    InvConverged(law, Run(law, w, events));
  }

  /** The final review, read back from its archived bytes, has no finding that
      blocks. */
  lemma FinalReviewBlocksNothing(law: Law, m: Machine)
    requires ValidPolicy(law.policy) && TrulyConverged(law, m)
    ensures var current := CurrentRounds(JournalOf(m.disk)); var f := current[|current| - 1].fingerprint;
      && f in m.disk.archive && law.read(m.disk.archive[f].compact).Some?
      && forall x :: x in law.read(m.disk.archive[f].compact).value.findings ==> !Blocks(law.policy, x)
  {
    var current := CurrentRounds(JournalOf(m.disk));
    var bytes := m.disk.archive[current[|current| - 1].fingerprint];
    NothingBlocks(law.policy, law.read(bytes.compact).value.findings);
  }

  // ----- Recovery -----

  ghost predicate RecoverRow(law: Law, t: P.Transition) {
    t in K.Transitions(law.runtime) && t.id == RECOVER
  }

  lemma RecoverExists(law: Law) returns (t: P.Transition)
    requires FollowsTable(law.runtime)
    ensures RecoverRow(law, t)
  {
    t := K.Lookup(K.Transitions(law.runtime), RECOVER);
  }

  lemma RecoverIsWayOut(law: Law, s: Control, t: P.Transition)
    requires Row(t) && t in K.Transitions(law.runtime) && t.id == RECOVER && s.recovery.Some?
    requires exists u :: M.LeftBehind(law.runtime, s, u) && Row(u)
    ensures M.WayOut(law.runtime, s, t)
  {
    var u :| M.LeftBehind(law.runtime, s, u) && Row(u);
    assert u.id != RECOVER by { assert u.id == RECOVER ==> CONVERGE in u.recovers; }
    NotSubmissions();
  }

  lemma RecoverNeeds(law: Law, t: P.Transition, capabilities: seq<string>)
    requires Row(t) && t.id == RECOVER && K.Required(law.runtime, t).Some?
    requires law.runtime.classify(t) == Some([RECOVERY])
    requires RECOVERY in capabilities
    ensures forall c :: c in K.Required(law.runtime, t).value ==> c in capabilities
  {
    NotSubmissions();
  }

  lemma RecoverClassified(law: Law, t: P.Transition)
    requires FollowsTable(law.runtime) && t in K.Transitions(law.runtime) && t.id == RECOVER
    ensures law.runtime.classify(t) == Some([RECOVERY])
  {
    NotSubmissions();
  }

  /** What a recover command presents: the instance, the request, and authority
      that grants the recovery capability. */
  ghost predicate RecoverRequest(m: Machine, q: K.Request, now: K.Time) {
    && q.instance == m.k.state.instance && q.requested == RECOVER && K.Presentable(q.authority, now)
    && RECOVERY in K.AuthorityOf(q.authority).capabilities
  }

  ghost predicate RecoverPrescribed(law: Law, m: Machine, q: K.Request, now: K.Time, v: Observed) {
    exists p: K.Prescription<Observed> ::
      M.Resolves(law.runtime, m.k.state, K.Observed(v), q, p, now, AdmissibleIn(law)) && p.body.transition == RECOVER
  }

  lemma KernelReady(law: Law, m: Machine, q: K.Request, v: Observed)
    requires M.Inv(law.runtime, m.k) && m.k.state.revision != 0 && q.instance == m.k.state.instance
    ensures K.Resolvable(law.runtime, m.k.state, K.Observed(v), q)
  {
  }

  lemma LeftBehindRow(law: Law, m: Machine)
    requires S.SoundRuntime(law.runtime) && M.Inv(law.runtime, m.k) && m.k.state.recovery.Some?
    ensures exists u :: M.LeftBehind(law.runtime, m.k.state, u) && Row(u)
  {
    var u :| M.LeftBehind(law.runtime, m.k.state, u);
    assert Row(u);
  }

  lemma RecoverAdmitted(law: Law, m: Machine, q: K.Request, v: Observed, t: P.Transition)
    requires Row(t) && t.id == RECOVER && m.k.state.recovery.Some? && M.WayOut(law.runtime, m.k.state, t)
    ensures K.ObjectiveFor(m.k.state, q.objective, t).Some?
    ensures AdmissibleIn(law)(K.Evaluation(m.k.state, K.Observed(v), K.ObjectiveFor(m.k.state, q.objective, t).value,
      t)) == K.Allowed
  {
    NotSubmissions();
  }

  /** In every reachable state with recovery pending, requesting the recovery is
      prescribed: the kernel's filters and the domain let it through. Only a
      torn candidate keeps it back, because then nothing can be observed. */
  lemma RecoveryIsNeverStuck(law: Law, w: World, events: seq<Event>, q: K.Request, now: K.Time)
    requires ValidLaw(law)
    requires var m := Run(law, w, events);
      && m.k.state.recovery.Some? && m.k.state.revision != 0 && RecoverRequest(m, q, now) && LoadStaged(m.disk) != Torn
    ensures var m := Run(law, w, events);
      && ObserveValue(law, m.disk, m.world).Some?
      && RecoverPrescribed(law, m, q, now, ObserveValue(law, m.disk, m.world).value)
  {
    var m := Run(law, w, events);
    S.RunKeeps(law, w, events);
    S.RuntimeIsSound(law.runtime);
    ObservationFails(law, m.disk, m.world);
    ReachedIsNotStuck(law, m, q, now, ObserveValue(law, m.disk, m.world).value);
  }

  lemma ReachedIsNotStuck(law: Law, m: Machine, q: K.Request, now: K.Time, v: Observed)
    requires S.SoundRuntime(law.runtime) && FollowsTable(law.runtime) && M.Inv(law.runtime, m.k)
    requires m.k.state.recovery.Some? && m.k.state.revision != 0 && RecoverRequest(m, q, now)
    ensures RecoverPrescribed(law, m, q, now, v)
  {
    var t := RecoverExists(law);
    LeftBehindRow(law, m);
    RecoverIsWayOut(law, m.k.state, t);
    RecoverAdmitted(law, m, q, v, t);
    RecoverClassified(law, t);
    RecoverNeeds(law, t, K.AuthorityOf(q.authority).capabilities);
    KernelReady(law, m, q, v);
    M.WayOutIsPrescribed(law.runtime, m.k.state, K.Observed(v), q, now, AdmissibleIn(law), t);
  }
}
