/** The review program running on the kernel, its files written one at a time:
    candidates are staged, the repository moves and processes are cut off at
    any moment. */
module ReviewMachine {
  import opened Base
  import opened DiffLines
  import opened ReviewLaw
  import opened ReviewStore
  import opened ReviewLedger
  import K = KernelRuntime
  import A = KernelApply
  import M = KernelMachine
  import P = KernelProgram
  import R = KernelRelation

  /** What is fixed for a review instance: the policy and how it decodes a
      candidate, the runtime of the compiled program, and the names. */
  datatype Law = Law(policy: Policy, read: string -> Option<Review>, runtime: K.Runtime, instance: string,
    baseRef: string)

  /** The repository as git reports it at some moment. */
  datatype World = World(mergeBase: string, headCommit: string, reviewedTree: string, dirty: Option<string>,
    diff: seq<string>)

  /** The policy is valid and the runtime is that of the review program. */
  ghost predicate ValidLaw(law: Law) {
    ValidPolicy(law.policy) && P.SemanticId(law.instance) && FollowsTable(law.runtime)
  }

  // ----- Observing -----

  ghost function ObserveValue(law: Law, disk: Disk, w: World): Option<Observed> {
    var j := JournalOf(disk);
    var bare := Observed(law.instance, law.baseRef, w.mergeBase, w.headCommit, w.reviewedTree, w.dirty, j.generation,
      None, CurrentRounds(j));
    match LoadStaged(disk)
    case Torn => None
    case Nothing => Some(bare)
    case Candidate(b, meta) =>
      Some(bare.(candidate := Some(SummaryOf(law.policy, FingerprintOf(b), law.read(b.compact), meta.reviewedTree,
        AllowedBy(Scan(START, w.diff))))))
  }

  method Observe(law: Law, store: FileStore, w: World) returns (v: Option<Observed>)
    ensures v == ObserveValue(law, store.OnDisk(), w)
  {
    var j := JournalOf(store.OnDisk());
    var rounds := ReadCurrentRounds(j);
    var value := Observed(law.instance, law.baseRef, w.mergeBase, w.headCommit, w.reviewedTree, w.dirty, j.generation,
      None, rounds);
    var staged := store.LoadStagedCandidate();
    match staged {
      case Torn => return None;
      case Nothing => return Some(value);
      case Candidate(b, meta) =>
        var summary := EvaluateCandidate(law.policy, FingerprintOf(b), law.read(b.compact), meta.reviewedTree, w.diff);
        return Some(value.(candidate := Some(summary)));
    }
  }

  /** An observation fails only on a candidate that is torn on disk. */
  lemma ObservationFails(law: Law, disk: Disk, w: World)
    ensures ObserveValue(law, disk, w).None? <==> LoadStaged(disk) == Torn
  {
  }

  // ----- Executing -----

  datatype Plan = Plan(script: seq<Write>, facts: seq<A.EffectFact>)

  function RoundOf(id: string, v: Observed): Round
    requires v.candidate.Some?
  {
    var c := v.candidate.value;
    Round(0, 0, c.fingerprint, v.reviewedTree, v.headCommit, v.mergeBase, c.verdict, c.measure, c.blockingMeasure,
      c.findingCount, c.priorities, id)
  }

  /** The writes of an admitted operation; none when the staged candidate is
      not the observed one. */
  function PlanFor(id: string, v: Observed, disk: Disk): Option<Plan> {
    if Submits(id) then
      if v.candidate.None? then None
      else
        match LoadStaged(disk)
        case Candidate(b, meta) =>
          if meta.fingerprint != v.candidate.value.fingerprint then None
          else Some(Plan(ArchiveScript(JournalOf(disk), b, RoundOf(id, v)),
            [A.EffectFact(ROUND_FACET, id, v.candidate.value.fingerprint)]))
        case _ => None
    else if id == REOPEN then
      Some(Plan(NextScript(JournalOf(disk)), [A.EffectFact(ROUND_FACET, id,
        "generation-" + Printed(JournalOf(disk).generation + 1))]))
    else if id == RECOVER then Some(Plan(ClearScript(), [A.EffectFact(ROUND_FACET, id, "staging-cleared")]))
    else None
  }

  /** Runs an admitted operation until it is cut off. */
  method Execute(store: FileStore, id: string, v: Observed, budget: nat) returns (effect: Option<seq<A.EffectFact>>)
    modifies store
    ensures store.document == old(store.document)
    ensures var plan := PlanFor(id, v, old(store.OnDisk()));
      && (plan.None? ==> effect.None? && store.OnDisk() == old(store.OnDisk()))
      && (plan.Some? ==> store.OnDisk() == Interrupted(old(store.OnDisk()), plan.value.script, budget))
      && (plan.Some? ==> effect == if budget >= |plan.value.script| then Some(plan.value.facts) else None)
  {
    if Submits(id) {
      if v.candidate.None? { return None; }
      var staged := store.LoadStagedCandidate();
      if !staged.Candidate? || staged.meta.fingerprint != v.candidate.value.fingerprint { return None; }
      var ok := store.ArchiveRound(staged.bytes, RoundOf(id, v), budget);
      if !ok { return None; }
      return Some([A.EffectFact(ROUND_FACET, id, v.candidate.value.fingerprint)]);
    } else if id == REOPEN {
      var generation := JournalOf(store.OnDisk()).generation + 1;
      var ok := store.NextGeneration(budget);
      if !ok { return None; }
      return Some([A.EffectFact(ROUND_FACET, id, "generation-" + Printed(generation))]);
    } else if id == RECOVER {
      var ok := store.ClearStagedCandidate(budget);
      if !ok { return None; }
      return Some([A.EffectFact(ROUND_FACET, id, "staging-cleared")]);
    }
    return None;
  }

  /** The declared postcondition of an operation, checked on a new observation
      and on the archived bytes. */
  predicate Verified(id: string, before: Observed, after: Observed, facts: seq<A.EffectFact>, disk: Disk) {
    if Submits(id) then
      && before.candidate.Some? && after.candidate.None? && |after.rounds| == |before.rounds| + 1
      && var recorded, c := after.rounds[|after.rounds| - 1], before.candidate.value;
        && recorded.fingerprint == c.fingerprint && recorded.reviewedTree == before.reviewedTree
        && recorded.verdict == c.verdict && recorded.measure == c.measure
        && recorded.blockingMeasure == c.blockingMeasure
        && recorded.transition == id
        && recorded.fingerprint in disk.archive
        && FingerprintOf(disk.archive[recorded.fingerprint]) == recorded.fingerprint
        && |facts| == 1 && facts[0].fingerprint == recorded.fingerprint
    else if id == REOPEN then after.generation == before.generation + 1 && |after.rounds| == 0 && after.candidate.None?
    else id == RECOVER && after.candidate.None?
  }

  // ----- The machine -----

  datatype Phase = Idle | Begun | Running(plan: Plan, start: Disk, done: nat)

  /** The kernel, the files, the repository and the running effect; and for the
      record, which attempt wrote each round, which round each round-bearing
      receipt committed, and how often each generation was disturbed. */
  datatype Machine = Machine(
    k: M.Machine<Observed>, disk: Disk, world: World, phase: Phase, writer: seq<nat>, claims: seq<nat>,
    disturbed: Disturbances)

  datatype Event =
    | Move(world: World)
    | StageBytes(bytes: Bytes)
    | StageMeta(meta: Meta)
    | Begin(request: K.Request, prescription: K.Prescription<Observed>, clock: A.Clock)
    | Load
    | Perform
    | Finish(committedAt: K.Time)
    | Interrupt

  function InitialControl(law: Law): Control {
    K.ControlState(law.instance, K.IdentityOf(law.runtime.program), None, UNREVIEWED, 1, None)
  }

  function Start(law: Law, w: World): Machine { Machine(M.Start(InitialControl(law)), EMPTY, w, Idle, [], [], CALM) }

  ghost function AdmissibleIn(law: Law): K.Evaluation<Observed> -> K.Answer {
    (e: K.Evaluation<Observed>) => Admissible(law.policy, e)
  }

  ghost function BeginAction(law: Law, m: Machine, q: K.Request, p: K.Prescription<Observed>,
                             clock: A.Clock): M.Action<Observed>
    requires ObserveValue(law, m.disk, m.world).Some?
  {
    M.Begin(K.Observed(ObserveValue(law, m.disk, m.world).value), q, p, clock, AdmissibleIn(law))
  }

  predicate CanPerform(m: Machine) { m.phase.Running? && m.phase.done < |m.phase.plan.script| && m.k.flight.Some? }

  predicate CanFinish(m: Machine) {
    m.phase.Running? && m.phase.done >= |m.phase.plan.script| && m.k.flight.Some? &&
      m.k.flight.value.observation.value.Some?
  }

  ghost function OutcomeOf(law: Law, m: Machine, committedAt: K.Time): A.Outcome<Observed>
    requires CanFinish(m)
  {
    var f := m.k.flight.value;
    var target := ObserveValue(law, m.disk, m.world);
    A.Outcome(
      Some(m.phase.plan.facts),
      if target.Some? then Some(K.Observed(target.value)) else None,
      target.Some? && Verified(f.transition.id, f.observation.value.value, target.value, m.phase.plan.facts, m.disk),
      committedAt)
  }

  ghost function CutOff(rt: K.Runtime, m: Machine): Machine {
    m.(k := M.Act(rt, m.k, M.Interrupt), phase := Idle, disturbed := Disturbed(m.disturbed))
  }

  function Performed(m: Machine): Machine
    requires CanPerform(m)
  {
    var w := m.phase.plan.script[m.phase.done];
    var j := JournalOf(m.disk);
    var next := m.(disk := Written(m.disk, w), phase := m.phase.(done := m.phase.done + 1));
    if !w.SaveJournal? then next
    else if w.journal.generation != j.generation then next.(disturbed := Closed(m.disturbed))
    else next.(writer := m.writer + [m.k.flight.value.prior.revision])
  }

  function Performing(m: Machine): Machine { if CanPerform(m) then Performed(m) else m }

  ghost function Finished(law: Law, m: Machine, committedAt: K.Time): Machine
    requires CanFinish(m)
  {
    var f := m.k.flight.value;
    var e := OutcomeOf(law, m, committedAt);
    if !A.Commits(f, e) then CutOff(law.runtime, m)
    else
      var n := |JournalOf(m.disk).rounds|;
      m.(k := M.Act(law.runtime, m.k, M.Finish(e)), phase := Idle,
         claims := if Submits(f.transition.id) && n > 0 then m.claims + [n - 1] else m.claims)
  }

  ghost function Beginning(law: Law, m: Machine, q: K.Request, p: K.Prescription<Observed>, clock: A.Clock): Machine {
    if m.k.flight.Some? || ObserveValue(law, m.disk, m.world).None? then m
    else
      var k := M.Act(law.runtime, m.k, BeginAction(law, m, q, p, clock));
      m.(k := k, phase := if k.flight.Some? then Begun else Idle)
  }

  ghost function Loading(law: Law, m: Machine): Machine {
    if m.phase != Begun || m.k.flight.None? || m.k.flight.value.observation.value.None? then m
    else
      var plan := PlanFor(m.k.flight.value.transition.id, m.k.flight.value.observation.value.value, m.disk);
      if plan.None? then CutOff(law.runtime, m) else m.(phase := Running(plan.value, m.disk, 0))
  }

  /** One event; an event that cannot happen changes nothing. */
  ghost function Step(law: Law, m: Machine, e: Event): Machine {
    match e
    case Move(w) => m.(world := w)
    case StageBytes(b) => m.(disk := Written(m.disk, SaveStaged(b)))
    case StageMeta(meta) => m.(disk := Written(m.disk, SaveMeta(meta)))
    case Begin(q, p, clock) => Beginning(law, m, q, p, clock)
    case Load => Loading(law, m)
    case Perform => Performing(m)
    case Finish(committedAt) => if CanFinish(m) then Finished(law, m, committedAt) else m
    case Interrupt => if m.k.flight.None? then m else CutOff(law.runtime, m)
  }

  ghost function Run(law: Law, w: World, events: seq<Event>): Machine {
    if events == [] then Start(law, w)
    else Step(law, Run(law, w, events[..|events| - 1]), events[|events| - 1])
  }

  // ----- The book of a machine -----

  function EntryOf(r: Receipt): Entry {
    Entry(r.body.prior, r.body.transition, if r.body.effects == [] then "" else r.body.effects[0].fingerprint)
  }

  function RoundReceipts(receipts: seq<Receipt>): seq<Receipt> {
    R.Keep((r: Receipt) => Submits(r.body.transition), receipts)
  }

  function EntriesOf(receipts: seq<Receipt>): seq<Entry> { MapSeq(EntryOf, RoundReceipts(receipts)) }

  /** The attempt has replaced the journal. */
  predicate Wrote(m: Machine) {
    m.phase.Running? && m.k.flight.Some? &&
    (m.phase.done >= if Submits(m.k.flight.value.transition.id) then 2 else 1) &&
      m.k.flight.value.transition.id != RECOVER
  }

  function BookOf(m: Machine): Book {
    Book(
      JournalOf(m.disk), m.writer, EntriesOf(m.k.receipts), m.claims,
      |m.k.receipts|, if m.k.receipts == [] then None else Some(m.k.receipts[|m.k.receipts| - 1].body.transition),
      m.k.state.mode, m.k.state.recovery.Some?,
      if m.k.flight.None? then None
      else
        var f := m.k.flight.value;
        Some(Attempt(f.transition.id, f.prior.revision, f.prior.recovery.None?, Wrote(m))),
      m.disturbed, m.k.interrupted > 0, m.k.interrupted > m.k.lead)
  }

  // ----- What every run keeps -----

  /** The summary of a valid candidate says what its bytes decode to. */
  ghost predicate Honest(law: Law, fingerprint: string, verdict: string, measure: int, blockingMeasure: int, b: Bytes) {
    && FingerprintOf(b) == fingerprint && law.read(b.compact).Some?
    && var review := law.read(b.compact).value;
      verdict == review.verdict && measure == Measure(law.policy, review.findings) &&
        blockingMeasure == BlockingMeasure(law.policy, review.findings)
  }

  ghost predicate Archived(law: Law, archive: map<string, Bytes>, r: Round) {
    r.fingerprint in archive && Honest(law, r.fingerprint, r.verdict, r.measure, r.blockingMeasure,
      archive[r.fingerprint])
  }

  ghost predicate AllArchived(law: Law, disk: Disk) {
    forall r :: r in JournalOf(disk).rounds ==> Archived(law, disk.archive, r)
  }

  ghost predicate CandidateHonest(law: Law, v: Observed) {
    (v.candidate.Some? && v.candidate.value.valid) ==>
      var c := v.candidate.value;
      exists b :: Honest(law, c.fingerprint, c.verdict, c.measure, c.blockingMeasure, b)
  }

  /** What links a flight to the observation it was admitted on. */
  ghost predicate FlightAdmitted(law: Law, m: Machine) {
    m.k.flight.Some? ==>
      var f := m.k.flight.value;
      && f.observation.value.Some? && Row(f.transition)
      && (Submits(f.transition.id) ==>
        Disposition(law.policy, f.observation.value.value) == Some(f.transition.id) &&
        CandidateHonest(law, f.observation.value.value))
      && (!Wrote(m) ==>
        && f.observation.value.value.rounds == CurrentRounds(JournalOf(m.disk))
        && f.observation.value.value.generation == JournalOf(m.disk).generation)
  }

  function JournalAfter(id: string, v: Observed, j: Journal): Journal {
    if Submits(id) && v.candidate.Some? then j.(rounds := j.rounds + [Placed(j, RoundOf(id, v))])
    else if id == REOPEN then j.(generation := j.generation + 1)
    else j
  }

  /** A running effect follows its plan, and the journal shows how far it is. */
  ghost predicate OnPlan(law: Law, m: Machine) {
    (m.phase.Running? && m.k.flight.Some? && m.k.flight.value.observation.value.Some?) ==>
      var id, v := m.k.flight.value.transition.id, m.k.flight.value.observation.value.value;
      && PlanFor(id, v, m.phase.start) == Some(m.phase.plan) && m.phase.done <= |m.phase.plan.script|
      && JournalOf(m.disk) == (if Wrote(m) then JournalAfter(id, v, JournalOf(m.phase.start))
           else JournalOf(m.phase.start))
      && (Submits(id) && m.phase.done >= 1 ==> Archived(law, m.disk.archive, RoundOf(id, v)))
  }

  ghost predicate WrittenBefore(m: Machine) {
    forall i :: 0 <= i < |m.writer| ==> m.writer[i] < M.Accounted(m.k)
  }

  /** Every receipt of a review carries one effect fact. */
  ghost predicate OneEffect(m: Machine) {
    forall r :: r in m.k.receipts ==> |r.body.effects| == 1
  }

  ghost predicate Inv(law: Law, m: Machine) {
    && M.Inv(law.runtime, m.k) && BookInv(law.policy, BookOf(m))
    && (m.phase.Idle? <==> m.k.flight.None?)
    && FlightAdmitted(law, m) && OnPlan(law, m) && WrittenBefore(m) && AllArchived(law, m.disk) && OneEffect(m)
  }
}
