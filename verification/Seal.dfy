/** Sealing a converged review: the full receipt, its verification, and what
    acceptance says about the run that led there. */
module Seal {
  import opened Base
  import D = DiffLines
  import opened ReviewLaw
  import opened ReviewStore
  import opened ReviewLedger
  import opened ReviewMachine
  import K = KernelRuntime
  import P = KernelProgram
  import A = KernelApply
  import M = KernelMachine
  import R = KernelRelation
  import S = ReviewSafety
  import Results = ReviewResults
  import Progress = ReviewProgress
  import Reach = ReviewReach

  datatype Sealed = Sealed(
    instance: string, program: K.ProgramIdentity, mergeBase: string, headCommit: string, reviewedTree: string,
    generation: nat, rounds: seq<Round>, finalReview: Bytes, mode: string, revision: K.Revision, receipts: seq<Receipt>)

  /** What a seal says it does not show. */
  datatype Honesty = Honesty(semanticCorrectness: string, originAuthenticity: string)

  datatype SealBody = SealBody(
    schema: int, sealed: Sealed, policy: Policy, baseRef: string, honesty: Honesty, sealedAt: K.Time)

  /** The full receipt; its fingerprint is its content. */
  datatype SealedReceipt = SealedReceipt(body: SealBody, fingerprint: SealBody)

  const SEAL_SCHEMA := 1

  function Stamped(s: Sealed, policy: Policy, baseRef: string, now: K.Time): SealedReceipt {
    var body := SealBody(SEAL_SCHEMA, s, policy, baseRef, Honesty("not-evaluated", "not-proven"), now);
    SealedReceipt(body, body)
  }

  // ----- Building -----

  predicate FinalRound(r: Round) { r.transition == CONVERGE && r.blockingMeasure == 0 }

  function SealedFrom(program: K.ProgramIdentity, d: Document, disk: Disk, w: World): Option<Sealed> {
    var j := JournalOf(disk);
    var rounds := CurrentRounds(j);
    if d.state.mode != CONVERGED || d.state.program != program || rounds == [] then None
    else
      var final := rounds[|rounds| - 1];
      if !FinalRound(final) || w.reviewedTree != final.reviewedTree || final.fingerprint !in disk.archive then None
      else Some(Sealed(
                  d.state.instance, program, final.mergeBase, final.headCommit, final.reviewedTree,
                  j.generation, rounds, disk.archive[final.fingerprint], d.state.mode, d.state.revision, d.receipts))
  }

  method BuildSealedReceipt(program: K.ProgramIdentity, policy: Policy, baseRef: string, now: K.Time, store: FileStore,
                            w: World)
    returns (r: Option<SealedReceipt>)
    ensures var s := SealedFrom(program, store.Loaded(), store.OnDisk(), w);
      r == if s.None? then None else Some(Stamped(s.value, policy, baseRef, now))
  {
    var document := store.Loaded();
    if document.state.mode != CONVERGED { return None; }
    if document.state.program != program { return None; }
    var journal := JournalOf(store.OnDisk());
    var rounds := ReadCurrentRounds(journal);
    if |rounds| == 0 { return None; }
    var final := rounds[|rounds| - 1];
    if final.transition != CONVERGE || final.blockingMeasure != 0 { return None; }
    if w.reviewedTree != final.reviewedTree { return None; }
    if final.fingerprint !in store.archive { return None; }
    var s := Sealed(
      document.state.instance, program, final.mergeBase, final.headCommit, final.reviewedTree,
      journal.generation, rounds, store.archive[final.fingerprint], document.state.mode, document.state.revision,
      document.receipts);
    return Some(Stamped(s, policy, baseRef, now));
  }

  // ----- Verifying -----

  datatype Failure =
    | NoReceipts | InvalidReceipt(index: nat) | OtherInstance(index: nat) | OtherProgram(index: nat)
    | Unchained(index: nat) | NotConverge | StateMismatch | TooFewReceipts | Unmatched(index: nat)
    | NoRounds | NotFinal | OtherTree | OtherBytes
    | WrongSchema | WrongContent | NoPolicy | WrongAssets | WrongBounds | NoProgram | WrongProgram
    | NoHead | WrongTree | InvalidReview | BlockingReview

  predicate Fits(s: Sealed, r: Receipt) {
    A.ValidReceipt(r) && r.body.instance == s.instance && r.body.program.fingerprint == s.program.fingerprint
  }

  /** The receipt commits the round. */
  predicate Commits(r: Receipt, round: Round) {
    r.body.transition == round.transition && |r.body.effects| == 1 && r.body.effects[0].fingerprint == round.fingerprint
  }

  /** The receipt chain: valid receipts of this instance and program, each
      starting where the one before ended, ending in convergence at the sealed
      revision. */
  ghost predicate ChainHolds(s: Sealed) {
    && s.receipts != [] && (forall i :: 0 <= i < |s.receipts| ==> Fits(s, s.receipts[i]))
    && M.Chained(s.receipts, s.revision) && s.mode == CONVERGED
    && s.receipts[|s.receipts| - 1].body.transition == CONVERGE
  }

  function Tail(s: Sealed): seq<Receipt> {
    var bearing := RoundReceipts(s.receipts);
    if |bearing| < |s.rounds| then [] else bearing[|bearing| - |s.rounds|..]
  }

  /** The round trajectory: the trailing round-bearing receipts commit the
      rounds in order, and the last is a convergence of the sealed tree. */
  ghost predicate TrajectoryHolds(s: Sealed) {
    && |RoundReceipts(s.receipts)| >= |s.rounds| && s.rounds != []
    && (forall i :: 0 <= i < |s.rounds| ==> Commits(Tail(s)[i], s.rounds[i]))
    && FinalRound(s.rounds[|s.rounds| - 1]) && s.rounds[|s.rounds| - 1].reviewedTree == s.reviewedTree
    && FingerprintOf(s.finalReview) == s.rounds[|s.rounds| - 1].fingerprint
  }

  ghost predicate Accepted(s: Sealed) { ChainHolds(s) && TrajectoryHolds(s) }

  ghost predicate ChainedTo(receipts: seq<Receipt>, i: nat) {
    i <= |receipts| && forall k :: 1 <= k < i ==> receipts[k].body.prior == receipts[k - 1].body.result
  }

  /** Stops at a receipt that is not valid. */
  method VerifyChain(s: Sealed) returns (failures: seq<Failure>, stopped: bool)
    ensures failures == [] <==> ChainHolds(s)
    ensures stopped <==> s.receipts == [] || exists i :: 0 <= i < |s.receipts| && !A.ValidReceipt(s.receipts[i])
  {
    failures, stopped := [], false;
    if |s.receipts| == 0 { return [NoReceipts], true; }
    var previousResult: K.Revision := 0;
    var i := 0;
    while i < |s.receipts|
      invariant 0 <= i <= |s.receipts|
      invariant i > 0 ==> previousResult == s.receipts[i - 1].body.result
      invariant failures == [] <==> (forall k :: 0 <= k < i ==> Fits(s, s.receipts[k])) && ChainedTo(s.receipts, i)
      invariant forall k :: 0 <= k < i ==> A.ValidReceipt(s.receipts[k])
    {
      var committed := s.receipts[i];
      if !A.ValidReceipt(committed) { return failures + [InvalidReceipt(i)], true; }
      if committed.body.instance != s.instance { failures := failures + [OtherInstance(i)]; }
      if committed.body.program.fingerprint != s.program.fingerprint { failures := failures + [OtherProgram(i)]; }
      if i > 0 && committed.body.prior != previousResult { failures := failures + [Unchained(i)]; }
      previousResult := committed.body.result;
      i := i + 1;
    }
    var last := s.receipts[|s.receipts| - 1];
    if last.body.transition != CONVERGE { failures := failures + [NotConverge]; }
    if previousResult != s.revision || s.mode != CONVERGED { failures := failures + [StateMismatch]; }
  }

  method CollectRoundReceipts(receipts: seq<Receipt>) returns (bearing: seq<Receipt>)
    ensures bearing == RoundReceipts(receipts)
  {
    bearing := [];
    var i := 0;
    while i < |receipts|
      invariant 0 <= i <= |receipts|
      invariant bearing == RoundReceipts(receipts[..i])
    {
      R.KeepStep((r: Receipt) => Submits(r.body.transition), receipts, i);
      if Submits(receipts[i].body.transition) { bearing := bearing + [receipts[i]]; }
      i := i + 1;
    }
    assert receipts[..i] == receipts;
  }

  method VerifyTrajectory(s: Sealed) returns (failures: seq<Failure>)
    ensures failures == [] <==> TrajectoryHolds(s)
  {
    failures := [];
    var bearing := CollectRoundReceipts(s.receipts);
    if |bearing| < |s.rounds| {
      failures := [TooFewReceipts];
    } else {
      var tail := bearing[|bearing| - |s.rounds|..];
      var i := 0;
      while i < |s.rounds|
        invariant 0 <= i <= |s.rounds|
        invariant failures == [] <==> forall k :: 0 <= k < i ==> Commits(tail[k], s.rounds[k])
      {
        if !Commits(tail[i], s.rounds[i]) { failures := failures + [Unmatched(i)]; }
        i := i + 1;
      }
    }
    if |s.rounds| == 0 { return failures + [NoRounds]; }
    var final := s.rounds[|s.rounds| - 1];
    if final.transition != CONVERGE || final.blockingMeasure != 0 { failures := failures + [NotFinal]; }
    if final.reviewedTree != s.reviewedTree { failures := failures + [OtherTree]; }
    if FingerprintOf(s.finalReview) != final.fingerprint { failures := failures + [OtherBytes]; }
  }

  /** What the verification reads besides the receipt: the policy admitted at the
      base revision, the program compiled from it, the tree of the head, and the
      diff from the sealed merge base, each where it can be had. */
  datatype Checkout = Checkout(
    policy: Option<Policy>, program: Option<P.Fingerprint>, tree: Option<string>, diff: Option<seq<string>>)

  /** The receipt is intact and belongs to this checkout. */
  predicate OriginHolds(r: SealedReceipt, c: Checkout) {
    && r.body.schema == SEAL_SCHEMA && r.fingerprint == r.body
    && c.policy == Some(r.body.policy) && c.program == Some(r.body.sealed.program.fingerprint)
    && c.tree == Some(r.body.sealed.reviewedTree)
  }

  ghost function FinalSummary(p: Policy, s: Sealed, diff: Option<seq<string>>, read: string -> Option<Review>): Summary
  {
    SummaryOf(p, FingerprintOf(s.finalReview), read(s.finalReview.compact), s.reviewedTree,
      D.AllowedBy(D.Scan(D.START, if diff.Some? then diff.value else [""])))
  }

  /** The final review leaves nothing blocking, and is valid wherever there is a
      diff to hold it against. */
  ghost predicate Revalidates(p: Policy, s: Sealed, diff: Option<seq<string>>, read: string -> Option<Review>) {
    var summary := FinalSummary(p, s, diff, read);
    (diff.Some? ==> summary.valid) && summary.blockingMeasure == 0
  }

  ghost predicate FullyAccepted(r: SealedReceipt, c: Checkout, read: string -> Option<Review>) {
    && OriginHolds(r, c) && Accepted(r.body.sealed)
    && Revalidates(r.body.policy, r.body.sealed, c.diff, read)
  }

  method VerifyOrigin(r: SealedReceipt, c: Checkout) returns (failures: seq<Failure>, stopped: bool)
    ensures failures == [] <==> OriginHolds(r, c)
    ensures stopped ==> failures != []
    ensures !stopped ==> c.policy.Some?
  {
    failures, stopped := [], true;
    if r.body.schema != SEAL_SCHEMA { return [WrongSchema], true; }
    if r.fingerprint != r.body { return [WrongContent], true; }
    if c.policy.None? { return [NoPolicy], true; }
    var admitted, sealed := c.policy.value, r.body.policy;
    if sealed.prompt != admitted.prompt || sealed.schema != admitted.schema { failures := failures + [WrongAssets]; }
    if sealed.maxRounds != admitted.maxRounds || sealed.stallWindow != admitted.stallWindow ||
      sealed.weights != admitted.weights || sealed.blocking != admitted.blocking {
      failures := failures + [WrongBounds];
    }
    if c.program.None? { return failures + [NoProgram], true; }
    if c.program.value != r.body.sealed.program.fingerprint { failures := failures + [WrongProgram]; }
    if c.tree.None? { return failures + [NoHead], true; }
    if c.tree.value != r.body.sealed.reviewedTree { failures := failures + [WrongTree]; }
    stopped := false;
  }

  /** The verdict recomputed from the exact bytes. */
  method VerifyReview(p: Policy, s: Sealed, diff: Option<seq<string>>, read: string -> Option<Review>)
    returns (failures: seq<Failure>)
    ensures failures == [] <==> Revalidates(p, s, diff, read)
  {
    var summary := EvaluateCandidate(p, FingerprintOf(s.finalReview), read(s.finalReview.compact), s.reviewedTree,
      if diff.Some? then diff.value else [""]);
    if !summary.valid && diff.Some? { return [InvalidReview]; }
    if summary.blockingMeasure != 0 { return [BlockingReview]; }
    return [];
  }

  method VerifyFullReceipt(r: SealedReceipt, c: Checkout, read: string -> Option<Review>)
    returns (verified: bool, failures: seq<Failure>)
    ensures verified <==> FullyAccepted(r, c, read)
    ensures verified <==> failures == []
  {
    var s := r.body.sealed;
    var stopped: bool;
    failures, stopped := VerifyOrigin(r, c);
    if stopped { return false, failures; }
    var more;
    more, stopped := VerifyChain(s);
    failures := failures + more;
    if stopped { return false, failures; }
    more := VerifyTrajectory(s);
    failures := failures + more;
    if s.rounds != [] && FingerprintOf(s.finalReview) == s.rounds[|s.rounds| - 1].fingerprint {
      more := VerifyReview(c.policy.value, s, c.diff, read);
      failures := failures + more;
    }
    verified := |failures| == 0;
  }

  // ----- What acceptance means -----

  function SealedIn(law: Law, m: Machine): Option<Sealed> {
    SealedFrom(K.IdentityOf(law.runtime.program), Document(m.k.state, m.k.receipts), m.disk, m.world)
  }

  /** Nothing is in flight, nothing was interrupted after the first commit, and
      no round of the current generation lost its attempt. */
  ghost predicate Untouched(m: Machine) {
    m.k.flight.None? && m.k.interrupted == m.k.lead && NoOrphan(BookOf(m))
  }

  /** The i-th sealed round was committed by the i-th of the trailing
      round-bearing receipts, whose attempt is the one that wrote it. */
  ghost predicate OwnedAt(m: Machine, s: Sealed, start: nat, i: nat) {
    var bearing := RoundReceipts(s.receipts);
    && i < |s.rounds| <= |bearing| && start + i < |m.writer| && start + i < |JournalOf(m.disk).rounds|
    && s.rounds[i] == JournalOf(m.disk).rounds[start + i]
    && Commits(bearing[|bearing| - |s.rounds| + i], s.rounds[i])
    && bearing[|bearing| - |s.rounds| + i].body.prior == m.writer[start + i]
  }

  ghost predicate OwnedInOrder(m: Machine, s: Sealed) {
    exists start: nat :: SuffixFrom(JournalOf(m.disk).rounds, JournalOf(m.disk).generation, start)
      && forall i :: 0 <= i < |s.rounds| ==> OwnedAt(m, s, start, i)
  }

  lemma BearingCounted(receipts: seq<Receipt>)
    ensures |EntriesOf(receipts)| == |RoundReceipts(receipts)|
  {
  }

  /** An intact chain with enough round-bearing receipts leaves the run
      untouched. */
  lemma AcceptedIsUntouched(law: Law, m: Machine, s: Sealed)
    requires M.Inv(law.runtime, m.k) && BookInv(law.policy, BookOf(m)) && SealedIn(law, m) == Some(s)
    requires s.receipts != [] && M.Chained(s.receipts, s.revision) && |RoundReceipts(s.receipts)| >= |s.rounds|
    ensures Untouched(m)
  {
    M.ChainedExactly(law.runtime, m.k);
    BearingCounted(s.receipts);
    CountLeavesNoOrphan(law.policy, BookOf(m));
  }

  /** The trailing claims are the current rounds, one by one. */
  lemma UntouchedOwns(law: Law, m: Machine, s: Sealed) returns (start: nat)
    requires BookInv(law.policy, BookOf(m)) && OneEffect(m) && SealedIn(law, m) == Some(s) && Untouched(m)
    ensures SuffixFrom(JournalOf(m.disk).rounds, JournalOf(m.disk).generation, start)
    ensures |s.rounds| <= |RoundReceipts(s.receipts)| && forall i :: 0 <= i < |s.rounds| ==> OwnedAt(m, s, start, i)
  {
    start := SealableBook(law.policy, BookOf(m));
    BearingCounted(s.receipts);
    SealedParts(law, m, s);
    forall i | 0 <= i < |s.rounds| ensures OwnedAt(m, s, start, i) {
      assert m.claims[|m.claims| - |s.rounds| + i] == start + i;
      OwnedHere(m, s, start, i);
    }
  }

  /** The k-th claim, in terms of the machine. */
  lemma ClaimMeans(m: Machine, k: nat)
    requires Claims(BookOf(m)) && k < |m.claims|
    ensures var bearing, i := RoundReceipts(m.k.receipts), m.claims[k];
      && |m.claims| == |bearing| && i < |JournalOf(m.disk).rounds| && i < |m.writer|
      && m.writer[i] == bearing[k].body.prior
      && bearing[k] in m.k.receipts && JournalOf(m.disk).rounds[i].transition == bearing[k].body.transition
      && JournalOf(m.disk).rounds[i].fingerprint == EntryOf(bearing[k]).fingerprint
  {
    assert ClaimAt(BookOf(m), k);
  }

  lemma SealedParts(law: Law, m: Machine, s: Sealed)
    requires SealedIn(law, m) == Some(s)
    ensures s.receipts == m.k.receipts && s.rounds == CurrentRounds(JournalOf(m.disk))
  {
  }

  lemma OwnedHere(m: Machine, s: Sealed, start: nat, i: nat)
    requires Claims(BookOf(m)) && OneEffect(m) && s.receipts == m.k.receipts
    requires start <= |JournalOf(m.disk).rounds| && s.rounds == JournalOf(m.disk).rounds[start..]
    requires i < |s.rounds| <= |m.claims|
    requires m.claims[|m.claims| - |s.rounds| + i] == start + i
    ensures OwnedAt(m, s, start, i)
  {
    var k := |m.claims| - |s.rounds| + i;
    ClaimMeans(m, k);
    ReceiptCommits(m, k);
    assert s.rounds[i] == JournalOf(m.disk).rounds[start + i];
  }

  lemma ReceiptCommits(m: Machine, k: nat)
    requires Claims(BookOf(m)) && OneEffect(m) && k < |m.claims|
    ensures k < |RoundReceipts(m.k.receipts)| && m.claims[k] < |JournalOf(m.disk).rounds|
    ensures Commits(RoundReceipts(m.k.receipts)[k], JournalOf(m.disk).rounds[m.claims[k]])
  {
    ClaimMeans(m, k);
  }

  /** Soundness and more: if the chain and trajectory checks accept a reachable
      converged store, every sealed round was committed by its own receipt, in
      order, and no current round is an orphan. */
  lemma SealIsSound(law: Law, w: World, events: seq<Event>, s: Sealed)
    requires ValidLaw(law) && SealedIn(law, Run(law, w, events)) == Some(s) && Accepted(s)
    ensures Untouched(Run(law, w, events)) && OwnedInOrder(Run(law, w, events), s)
  {
    S.RunKeeps(law, w, events);
    InvSealSound(law, Run(law, w, events), s);
  }

  lemma InvSealSound(law: Law, m: Machine, s: Sealed)
    requires M.Inv(law.runtime, m.k) && BookInv(law.policy, BookOf(m)) && OneEffect(m)
    requires SealedIn(law, m) == Some(s) && Accepted(s)
    ensures Untouched(m) && OwnedInOrder(m, s)
  {
    AcceptedIsUntouched(law, m, s);
    var start := UntouchedOwns(law, m, s);
  }

  lemma UntouchedSettled(law: Law, m: Machine)
    requires M.Inv(law.runtime, m.k) && BookInv(law.policy, BookOf(m)) && Untouched(m) && m.k.state.mode == CONVERGED
    ensures m.k.receipts != [] && m.k.state.recovery.None? && M.Chained(m.k.receipts, m.k.state.revision)
  {
    M.ChainedExactly(law.runtime, m.k);
  }

  lemma UntouchedChain(law: Law, m: Machine, s: Sealed)
    requires M.Inv(law.runtime, m.k) && BookInv(law.policy, BookOf(m)) && AllArchived(law, m.disk)
    requires SealedIn(law, m) == Some(s) && Untouched(m)
    ensures ChainHolds(s)
  {
    UntouchedSettled(law, m);
    Results.InvConverged(law, m);
    ReceiptsFit(law, m, s);
  }

  lemma ReceiptsFit(law: Law, m: Machine, s: Sealed)
    requires M.Inv(law.runtime, m.k) && SealedIn(law, m) == Some(s)
    ensures forall i :: 0 <= i < |s.receipts| ==> Fits(s, s.receipts[i])
  {
    forall i | 0 <= i < |s.receipts| ensures Fits(s, s.receipts[i]) {
      assert M.ReceiptOf(law.runtime, m.k.state.instance, s.receipts[i]);
    }
  }

  lemma UntouchedTrajectory(law: Law, m: Machine, s: Sealed)
    requires BookInv(law.policy, BookOf(m)) && OneEffect(m) && AllArchived(law, m.disk)
    requires SealedIn(law, m) == Some(s) && Untouched(m)
    ensures TrajectoryHolds(s)
  {
    var start := UntouchedOwns(law, m, s);
    forall i | 0 <= i < |s.rounds| ensures Commits(Tail(s)[i], s.rounds[i]) { assert OwnedAt(m, s, start, i); }
    LastArchived(law, m, s);
  }

  lemma LastArchived(law: Law, m: Machine, s: Sealed)
    requires AllArchived(law, m.disk) && SealedIn(law, m) == Some(s)
    ensures FingerprintOf(s.finalReview) == s.rounds[|s.rounds| - 1].fingerprint
  {
    var final := s.rounds[|s.rounds| - 1];
    assert final in CurrentRounds(JournalOf(m.disk));
    assert Archived(law, m.disk.archive, final);
  }

  /** Sealing a reachable state is accepted exactly when the run is untouched. */
  lemma SealExactly(law: Law, w: World, events: seq<Event>, s: Sealed)
    requires ValidLaw(law) && SealedIn(law, Run(law, w, events)) == Some(s)
    ensures Accepted(s) <==> Untouched(Run(law, w, events))
  {
    S.RunKeeps(law, w, events);
    InvSealExactly(law, Run(law, w, events), s);
  }

  lemma InvSealExactly(law: Law, m: Machine, s: Sealed)
    requires M.Inv(law.runtime, m.k) && BookInv(law.policy, BookOf(m)) && OneEffect(m) && AllArchived(law, m.disk)
    requires SealedIn(law, m) == Some(s)
    ensures Accepted(s) <==> Untouched(m)
  {
    if Accepted(s) { AcceptedIsUntouched(law, m, s); }
    if Untouched(m) {
      UntouchedChain(law, m, s);
      UntouchedTrajectory(law, m, s);
    }
  }

  /** Read on the sealed value: for a reachable state an intact chain with as many
      round-bearing receipts as rounds is all that acceptance needs. The match of
      each round with its receipt never fails by itself. */
  lemma SealDecided(law: Law, w: World, events: seq<Event>, s: Sealed)
    requires ValidLaw(law) && SealedIn(law, Run(law, w, events)) == Some(s)
    ensures Accepted(s) <==>
      s.receipts != [] && M.Chained(s.receipts, s.revision) && |RoundReceipts(s.receipts)| >= |s.rounds|
  {
    S.RunKeeps(law, w, events);
    InvSealDecided(law, Run(law, w, events), s);
  }

  lemma InvSealDecided(law: Law, m: Machine, s: Sealed)
    requires M.Inv(law.runtime, m.k) && BookInv(law.policy, BookOf(m)) && OneEffect(m) && AllArchived(law, m.disk)
    requires SealedIn(law, m) == Some(s)
    ensures Accepted(s) <==>
      s.receipts != [] && M.Chained(s.receipts, s.revision) && |RoundReceipts(s.receipts)| >= |s.rounds|
  {
    if s.receipts != [] && M.Chained(s.receipts, s.revision) && |RoundReceipts(s.receipts)| >= |s.rounds| {
      AcceptedIsUntouched(law, m, s);
      InvSealExactly(law, m, s);
    }
  }

  /** The checkout is the one the review ran on. */
  ghost predicate OwnCheckout(law: Law, m: Machine, c: Checkout) {
    && c.policy == Some(law.policy) && c.program == Some(K.IdentityOf(law.runtime.program).fingerprint)
    && c.tree == Some(m.world.reviewedTree)
  }

  /** On its own checkout the full receipt of a reachable state is accepted exactly
      when the run is untouched and the final review is still valid in the diff,
      where there is one: nothing else that is checked ever fails. */
  lemma FullSealExactly(law: Law, w: World, events: seq<Event>, s: Sealed, now: K.Time, c: Checkout)
    requires ValidLaw(law) && SealedIn(law, Run(law, w, events)) == Some(s)
    requires OwnCheckout(law, Run(law, w, events), c)
    ensures FullyAccepted(Stamped(s, law.policy, law.baseRef, now), c, law.read) <==>
      && Untouched(Run(law, w, events))
      && (c.diff.Some? ==> FinalSummary(law.policy, s, c.diff, law.read).valid)
  {
    S.RunKeeps(law, w, events);
    InvFullSealExactly(law, Run(law, w, events), s, now, c);
  }

  lemma InvFullSealExactly(law: Law, m: Machine, s: Sealed, now: K.Time, c: Checkout)
    requires M.Inv(law.runtime, m.k) && BookInv(law.policy, BookOf(m)) && OneEffect(m) && AllArchived(law, m.disk)
    requires SealedIn(law, m) == Some(s) && OwnCheckout(law, m, c)
    ensures FullyAccepted(Stamped(s, law.policy, law.baseRef, now), c, law.read) <==>
      Untouched(m) && (c.diff.Some? ==> FinalSummary(law.policy, s, c.diff, law.read).valid)
  {
    InvSealExactly(law, m, s);
    OwnOrigin(law, m, s, now, c);
    NothingOpen(law, m, s, c.diff);
  }

  lemma OwnOrigin(law: Law, m: Machine, s: Sealed, now: K.Time, c: Checkout)
    requires SealedIn(law, m) == Some(s) && OwnCheckout(law, m, c)
    ensures OriginHolds(Stamped(s, law.policy, law.baseRef, now), c)
  {
  }

  /** The sealed bytes decode to a review without a blocking measure. */
  lemma NothingOpen(law: Law, m: Machine, s: Sealed, diff: Option<seq<string>>)
    requires AllArchived(law, m.disk) && SealedIn(law, m) == Some(s)
    ensures FinalSummary(law.policy, s, diff, law.read).blockingMeasure == 0
  {
    var final := s.rounds[|s.rounds| - 1];
    assert final in CurrentRounds(JournalOf(m.disk));
    assert Archived(law, m.disk.archive, final);
  }

  /** Every converged run without an interruption seals, on the tree its last
      round reviewed. */
  lemma UninterruptedSeals(law: Law, w: World, events: seq<Event>)
    requires ValidLaw(law)
    requires var m := Run(law, w, events);
      && m.k.state.mode == CONVERGED && m.k.interrupted == 0 && m.k.flight.None?
      && (CurrentRounds(JournalOf(m.disk)) != [] ==>
        m.world.reviewedTree == CurrentRounds(JournalOf(m.disk))[|CurrentRounds(JournalOf(m.disk))| - 1].reviewedTree)
    ensures SealedIn(law, Run(law, w, events)).Some? && Accepted(SealedIn(law, Run(law, w, events)).value)
  {
    S.RunKeeps(law, w, events);
    InvUninterruptedSeals(law, Run(law, w, events));
  }

  lemma NothingDropped(law: Law, m: Machine)
    requires M.Inv(law.runtime, m.k) && BookInv(law.policy, BookOf(m)) && m.k.interrupted == 0 && m.k.flight.None?
    ensures Untouched(m)
  {
  }

  lemma InvUninterruptedSeals(law: Law, m: Machine)
    requires M.Inv(law.runtime, m.k) && BookInv(law.policy, BookOf(m)) && OneEffect(m) && AllArchived(law, m.disk)
    requires m.k.state.mode == CONVERGED && m.k.interrupted == 0 && m.k.flight.None?
    requires CurrentRounds(JournalOf(m.disk)) != [] ==>
      m.world.reviewedTree == CurrentRounds(JournalOf(m.disk))[|CurrentRounds(JournalOf(m.disk))| - 1].reviewedTree
    ensures SealedIn(law, m).Some? && Accepted(SealedIn(law, m).value)
  {
    NothingDropped(law, m);
    UntouchedSettled(law, m);
    Results.InvConverged(law, m);
    OwnProgram(law, m);
    InvSealExactly(law, m, SealedIn(law, m).value);
  }

  lemma OwnProgram(law: Law, m: Machine)
    requires M.Inv(law.runtime, m.k)
    ensures m.k.state.program == K.IdentityOf(law.runtime.program)
  {
  }

  // ----- An interruption that sealing never forgives -----

  /** An attempt was interrupted after the first commit. */
  ghost predicate Spoiled(m: Machine) { m.k.receipts != [] && m.k.interrupted > m.k.lead }

  lemma KernelStaysSpoiled(rt: K.Runtime, k: M.Machine<Observed>, a: M.Action<Observed>)
    requires k.receipts != [] && k.interrupted > k.lead
    ensures M.Act(rt, k, a).receipts != [] && M.Act(rt, k, a).interrupted > M.Act(rt, k, a).lead
  {
  }

  lemma CutOffStaysSpoiled(rt: K.Runtime, m: Machine)
    requires Spoiled(m)
    ensures Spoiled(CutOff(rt, m))
  {
    KernelStaysSpoiled(rt, m.k, M.Interrupt);
  }

  lemma FinishedStaysSpoiled(law: Law, m: Machine, at: K.Time)
    requires Spoiled(m) && CanFinish(m)
    ensures Spoiled(Finished(law, m, at))
  {
    CutOffStaysSpoiled(law.runtime, m);
    KernelStaysSpoiled(law.runtime, m.k, M.Finish(OutcomeOf(law, m, at)));
  }

  lemma BeginningStaysSpoiled(law: Law, m: Machine, q: K.Request, p: K.Prescription<Observed>, clock: A.Clock)
    requires Spoiled(m)
    ensures Spoiled(Beginning(law, m, q, p, clock))
  {
    if m.k.flight.None? && ObserveValue(law, m.disk, m.world).Some? {
      KernelStaysSpoiled(law.runtime, m.k, BeginAction(law, m, q, p, clock));
    }
  }

  lemma StepStaysSpoiled(law: Law, m: Machine, e: Event)
    requires Spoiled(m)
    ensures Spoiled(Step(law, m, e))
  {
    match e
    case Begin(q, p, clock) => BeginningStaysSpoiled(law, m, q, p, clock);
    case Finish(at) => if CanFinish(m) { FinishedStaysSpoiled(law, m, at); }
    case Load => CutOffStaysSpoiled(law.runtime, m);
    case Interrupt => CutOffStaysSpoiled(law.runtime, m);
    case _ =>
  }

  lemma {:induction false} AfterStaysSpoiled(law: Law, m: Machine, events: seq<Event>)
    requires Spoiled(m)
    ensures Spoiled(Reach.After(law, m, events))
  {
    if events != [] {
      var n := |events| - 1;
      AfterStaysSpoiled(law, m, events[..n]);
      StepStaysSpoiled(law, Reach.After(law, m, events[..n]), events[n]);
    }
  }

  /** After an interruption later than the first receipt no seal is accepted
      any more, however often the review converges again. */
  lemma NeverSealsAgain(law: Law, w: World, events: seq<Event>, more: seq<Event>, s: Sealed)
    requires ValidLaw(law) && Spoiled(Run(law, w, events)) && SealedIn(law, Run(law, w, events + more)) == Some(s)
    ensures !Accepted(s)
  {
    Reach.RunAfter(law, w, events, more);
    AfterStaysSpoiled(law, Run(law, w, events), more);
    SealExactly(law, w, events + more, s);
  }

  /** Cutting off any attempt after the first commit is such an interruption. */
  lemma InterruptionSpoils(law: Law, w: World, events: seq<Event>)
    requires ValidLaw(law) && Run(law, w, events).k.flight.Some? && Run(law, w, events).k.receipts != []
    ensures Spoiled(Run(law, w, events + [Interrupt]))
  {
    RunOneMore(law, w, events, Interrupt);
    LeadOfRun(law, w, events);
    CutSpoils(law, Run(law, w, events));
  }

  lemma LeadOfRun(law: Law, w: World, events: seq<Event>)
    requires ValidLaw(law)
    ensures Run(law, w, events).k.lead <= Run(law, w, events).k.interrupted
  {
    S.RunKeeps(law, w, events);
  }

  lemma RunOneMore(law: Law, w: World, events: seq<Event>, e: Event)
    ensures Run(law, w, events + [e]) == Step(law, Run(law, w, events), e)
  {
    assert (events + [e])[..|events + [e]| - 1] == events;
  }

  lemma CutSpoils(law: Law, m: Machine)
    requires m.k.flight.Some? && m.k.receipts != [] && m.k.lead <= m.k.interrupted
    ensures Spoiled(Step(law, m, Interrupt))
  {
  }

  // ----- Both kinds of seal are reached -----

  /** A converged review on its reviewed tree has something to seal. */
  lemma ConvergedHasSeal(law: Law, m: Machine)
    requires ValidLaw(law) && Reach.Reachable(law, m) && m.k.state.mode == CONVERGED && m.k.state.recovery.None?
    requires Progress.Reviewed(m.disk, m.world.reviewedTree)
    ensures SealedIn(law, m).Some?
  {
    Reach.ReachableKeeps(law, m);
    Results.InvConverged(law, m);
    OwnProgram(law, m);
  }

  /** From every reachable state the review can be brought to a seal, with no
      more interruptions than what is in flight. */
  lemma SealAlwaysReachable(law: Law, m: Machine, x: Reach.Means) returns (events: seq<Event>)
    requires ValidLaw(law) && Reach.Reachable(law, m) && Reach.Suffice(law, x) && Reach.HasRoom(m, 3)
    ensures var next := Reach.After(law, m, events);
      && SealedIn(law, next).Some? && Reach.Reachable(law, next) && next.k.state.mode == CONVERGED
      && next.k.state.recovery.None? && next.k.flight.None? && next.k.receipts != []
      && Progress.Reviewed(next.disk, next.world.reviewedTree)
      && next.k.interrupted == m.k.interrupted + M.InProgress(m.k)
      && 0 < next.k.state.revision <= m.k.state.revision + 6
  {
    events := Reach.ConvergenceAlwaysReachable(law, m, x);
    ConvergedHasSeal(law, Reach.After(law, m, events));
  }

  lemma StartReachable(law: Law, w: World)
    ensures Reach.Reachable(law, Start(law, w))
  {
    var none: seq<Event> := [];
    assert Run(law, w, none) == Start(law, w);
  }

  lemma ReachableSeals(law: Law, m: Machine)
    requires ValidLaw(law) && Reach.Reachable(law, m) && m.k.state.mode == CONVERGED && m.k.interrupted == 0
    requires m.k.flight.None? && Progress.Reviewed(m.disk, m.world.reviewedTree)
    ensures SealedIn(law, m).Some? && Accepted(SealedIn(law, m).value)
  {
    Reach.ReachableKeeps(law, m);
    InvUninterruptedSeals(law, m);
  }

  /** Every review whose means suffice has a run to an accepted seal. */
  lemma AcceptedSealReached(law: Law, w: World, x: Reach.Means) returns (events: seq<Event>)
    requires ValidLaw(law) && Reach.Suffice(law, x)
    ensures SealedIn(law, Run(law, w, events)).Some? && Accepted(SealedIn(law, Run(law, w, events)).value)
  {
    StartReachable(law, w);
    events := SealAlwaysReachable(law, Start(law, w), x);
    Reach.RunFromStart(law, w, events);
    ReachableSeals(law, Run(law, w, events));
  }

  lemma CutAfterCommit(law: Law, m: Machine, begun: Machine)
    requires m.k.receipts != [] && m.k.lead <= m.k.interrupted && m.k.flight.None?
    requires begun.k.flight.Some? && begun.k.receipts == m.k.receipts && begun.k.lead == m.k.lead
    requires begun.k.interrupted == m.k.interrupted
    ensures Spoiled(Step(law, begun, Interrupt)) && Step(law, begun, Interrupt).k.state == begun.k.state
    ensures Step(law, begun, Interrupt).k.flight.None?
  {
    S.StepInterrupts(law, begun, Interrupt);
  }

  lemma LeadReached(law: Law, m: Machine)
    requires ValidLaw(law) && Reach.Reachable(law, m)
    ensures m.k.lead <= m.k.interrupted
  {
    var w, events :| Run(law, w, events) == m;
    LeadOfRun(law, w, events);
  }

  /** Beginning an attempt changes the state and the flight, nothing else. */
  lemma LaunchedCounts(m: Machine, f: A.Flight<Observed>)
    requires Reach.AtRest(m)
    ensures var begun := S.Launched(m, f);
      && begun.k.flight.Some? && begun.k.receipts == m.k.receipts && begun.k.lead == m.k.lead
      && begun.k.interrupted == m.k.interrupted && begun.k.state.revision == m.k.state.revision + 1
  {
  }

  lemma LaunchedIsCut(law: Law, m: Machine, f: A.Flight<Observed>)
    requires Reach.AtRest(m) && m.k.receipts != [] && m.k.lead <= m.k.interrupted
    ensures var next := Step(law, S.Launched(m, f), Interrupt);
      Spoiled(next) && next.k.flight.None? && next.k.state.revision == m.k.state.revision + 1
  {
    LaunchedCounts(m, f);
    CutAfterCommit(law, m, S.Launched(m, f));
  }

  /** A settled review is reopened, and that attempt is interrupted. */
  lemma ReopeningCut(law: Law, m: Machine, x: Reach.Means) returns (events: seq<Event>)
    requires ValidLaw(law) && Reach.Reachable(law, m) && Reach.Suffice(law, x) && Reach.AtRest(m)
    requires m.k.receipts != [] && m.k.state.recovery.None? && SettledMode(m.k.state.mode)
    ensures var next := Reach.After(law, m, events);
      && Spoiled(next) && Reach.Reachable(law, next) && next.k.flight.None?
      && next.k.state.revision == m.k.state.revision + 1
  {
    var prepared := Reach.After(law, m, Reach.Preparation(x));
    Reach.Prepares(law, m, x);
    Reach.PreparedReaches(law, m, x, []);
    Reach.PreparedObserved(law, m, x, prepared);
    var q := Reach.Asking(prepared, x, REOPEN);
    var p, f := Reach.ReopeningBegins(law, prepared, q, x.clock);
    LeadReached(law, m);
    LaunchedIsCut(law, prepared, f);
    Reach.AfterCutAttempt(law, prepared, q, p, x.clock);
    Reach.PreparedReaches(law, m, x, Reach.CutAttempt(q, p, x.clock));
    events := Reach.Preparation(x) + Reach.CutAttempt(q, p, x.clock);
  }

  lemma SpoiledRefused(law: Law, m: Machine)
    requires ValidLaw(law) && Reach.Reachable(law, m) && Spoiled(m) && SealedIn(law, m).Some?
    ensures !Accepted(SealedIn(law, m).value)
  {
    Reach.ReachableKeeps(law, m);
    InvSealExactly(law, m, SealedIn(law, m).value);
  }

  /** From every reachable state that was interrupted after the first commit, the
      review can converge again, to a seal that is refused. */
  lemma RefusedSealReachable(law: Law, m: Machine, x: Reach.Means) returns (events: seq<Event>)
    requires ValidLaw(law) && Reach.Reachable(law, m) && Reach.Suffice(law, x) && Reach.HasRoom(m, 3) && Spoiled(m)
    ensures var next := Reach.After(law, m, events);
      next.k.state.mode == CONVERGED && SealedIn(law, next).Some? && !Accepted(SealedIn(law, next).value)
  {
    events := SealAlwaysReachable(law, m, x);
    AfterStaysSpoiled(law, m, events);
    SpoiledRefused(law, Reach.After(law, m, events));
  }

  /** From the start such a state is reached: converge, then interrupt the
      reopening. */
  lemma SpoiledReached(law: Law, w: World, x: Reach.Means) returns (m: Machine)
    requires ValidLaw(law) && Reach.Suffice(law, x)
    ensures Reach.Reachable(law, m) && Spoiled(m) && Reach.HasRoom(m, 3)
  {
    StartReachable(law, w);
    var first := SealAlwaysReachable(law, Start(law, w), x);
    m := Reach.After(law, Start(law, w), first);
    var second := ReopeningCut(law, m, x);
    m := Reach.After(law, m, second);
  }

  /** Every review whose means suffice also has a run to a converged state whose
      seal is refused. */
  lemma RefusedSealReached(law: Law, w: World, x: Reach.Means) returns (m: Machine)
    requires ValidLaw(law) && Reach.Suffice(law, x)
    ensures Reach.Reachable(law, m) && m.k.state.mode == CONVERGED
    ensures SealedIn(law, m).Some? && !Accepted(SealedIn(law, m).value)
  {
    var spoiled := SpoiledReached(law, w, x);
    var events := RefusedSealReachable(law, spoiled, x);
    m := Reach.After(law, spoiled, events);
    Reach.ReachableOn(law, spoiled, events);
  }
}
