/** Every event of the review machine keeps its invariants. */
module ReviewSafety {
  import opened Base
  import opened Ordering
  import opened ReviewLaw
  import opened ReviewStore
  import opened ReviewLedger
  import opened ReviewMachine
  import K = KernelRuntime
  import A = KernelApply
  import M = KernelMachine
  import P = KernelProgram

  // ----- Start -----

  /** What the proofs use of the runtime of the review program. */
  ghost predicate SoundRuntime(rt: K.Runtime) {
    K.ValidRuntime(rt) && forall t :: t in K.Transitions(rt) ==> Row(t)
  }

  lemma RuntimeIsSound(rt: K.Runtime)
    requires FollowsTable(rt)
    ensures SoundRuntime(rt)
  {
  }

  lemma RuntimeNamed(rt: K.Runtime)
    requires FollowsTable(rt)
    ensures P.SemanticId(rt.program.declaration.id) && rt.program.declaration.version != ""
    ensures rt.program.fingerprint.ProgramHash?
  {
  }

  lemma StartControl(law: Law)
    requires ValidLaw(law)
    ensures M.Initial(law.runtime, InitialControl(law))
  {
    RuntimeNamed(law.runtime);
    InitialIsValid(law);
  }

  lemma InitialIsValid(law: Law)
    requires P.SemanticId(law.instance) && P.SemanticId(law.runtime.program.declaration.id)
    requires law.runtime.program.declaration.version != "" && law.runtime.program.fingerprint.ProgramHash?
    ensures M.Initial(law.runtime, InitialControl(law))
  {
  }

  lemma StartKeeps(law: Law, w: World)
    requires ValidLaw(law)
    ensures Inv(law, Start(law, w))
  {
    RuntimeIsSound(law.runtime);
    StartControl(law);
    KernelStarts(law.runtime, InitialControl(law));
    BlankKeeps(law.policy);
    assert BookOf(Start(law, w)) == BLANK;
  }

  lemma KernelStarts(rt: K.Runtime, s: Control)
    requires K.ValidRuntime(rt) && M.Initial(rt, s)
    ensures M.Inv(rt, M.Start(s))
  {
    var none: seq<M.Action<Observed>> := [];
    assert M.Run(rt, s, none) == M.Start(s);
    M.RunKeeps(rt, s, none);
  }

  // ----- Events outside an attempt -----

  lemma OutsidePlan(law: Law, m: Machine, next: Machine)
    requires OnPlan(law, m) && next == m.(disk := next.disk, world := next.world)
    requires next.disk.journal == m.disk.journal && next.disk.archive == m.disk.archive
    ensures OnPlan(law, next)
  {
  }

  lemma OutsideAdmitted(law: Law, m: Machine, next: Machine)
    requires FlightAdmitted(law, m) && next == m.(disk := next.disk, world := next.world)
    requires next.disk.journal == m.disk.journal
    ensures FlightAdmitted(law, next)
  {
  }

  lemma OutsideKeeps(law: Law, m: Machine, next: Machine)
    requires Inv(law, m) && next == m.(disk := next.disk, world := next.world)
    requires next.disk.journal == m.disk.journal && next.disk.archive == m.disk.archive
    ensures Inv(law, next)
  {
    assert BookOf(next) == BookOf(m);
    OutsidePlan(law, m, next);
    OutsideAdmitted(law, m, next);
  }

  // ----- Being cut off -----

  lemma CutOffDrops(rt: K.Runtime, m: Machine)
    requires m.k.flight.Some? && m.k.lead <= m.k.interrupted && (m.k.receipts == [] ==> m.k.lead == m.k.interrupted)
    ensures BookOf(CutOff(rt, m)) == Dropped(BookOf(m))
  {
  }

  lemma KernelCounts(rt: K.Runtime, k: M.Machine<Observed>)
    requires M.Inv(rt, k)
    ensures k.lead <= k.interrupted && (k.receipts == [] ==> k.lead == k.interrupted)
    ensures M.Accounted(M.Act(rt, k, M.Interrupt)) == M.Accounted(k)
  {
  }

  /** Without an attempt in progress little needs to hold. */
  lemma Grounded(law: Law, m: Machine)
    requires m.k.flight.None?
    ensures FlightAdmitted(law, m) && OnPlan(law, m)
  {
  }

  lemma AfterAttempt(law: Law, m: Machine, next: Machine)
    requires M.Inv(law.runtime, next.k) && BookInv(law.policy, BookOf(next)) && next.phase == Idle
    requires next.k.flight.None?
    requires next.disk == m.disk && next.writer == m.writer && WrittenBefore(m) && AllArchived(law, m.disk)
    requires M.Accounted(m.k) <= M.Accounted(next.k) && OneEffect(next)
    ensures Inv(law, next)
  {
    Grounded(law, next);
  }

  lemma CutOffIs(rt: K.Runtime, m: Machine) returns (next: Machine)
    requires m.k.flight.Some?
    ensures next == CutOff(rt, m) && next.k == M.Act(rt, m.k, M.Interrupt) && next.k.flight.None?
    ensures next.k.receipts == m.k.receipts
    ensures next.phase == Idle && next.disk == m.disk && next.writer == m.writer
  {
    next := CutOff(rt, m);
  }

  lemma CutOffKeeps(law: Law, m: Machine) returns (next: Machine)
    requires K.ValidRuntime(law.runtime) && Inv(law, m) && m.k.flight.Some?
    ensures next == CutOff(law.runtime, m) && Inv(law, next)
  {
    M.ActKeeps(law.runtime, m.k, M.Interrupt);
    KernelCounts(law.runtime, m.k);
    CutOffDrops(law.runtime, m);
    DropKeeps(law.policy, BookOf(m));
    next := CutOffIs(law.runtime, m);
    AfterAttempt(law, m, next);
  }

  // ----- Beginning -----

  /** The candidate of an observation is what its bytes decode to. */
  lemma ObservedHonest(law: Law, disk: Disk, w: World)
    requires ObserveValue(law, disk, w).Some?
    ensures CandidateHonest(law, ObserveValue(law, disk, w).value)
    ensures ObserveValue(law, disk, w).value.rounds == CurrentRounds(JournalOf(disk))
    ensures ObserveValue(law, disk, w).value.generation == JournalOf(disk).generation
  {
    var v := ObserveValue(law, disk, w).value;
    if v.candidate.Some? && v.candidate.value.valid {
      var c := v.candidate.value;
      assert Honest(law, c.fingerprint, c.verdict, c.measure, c.blockingMeasure, LoadStaged(disk).bytes);
    }
  }

  /** A transition that passed the kernel's filters was admitted by the domain. */
  lemma JudgedAllowed(law: Law, s: Control, v: Observed, q: K.Request, t: P.Transition)
    requires K.Judge(law.runtime, s, K.Observed(v), q, AdmissibleIn(law), t).Admitted? && Row(t)
    ensures Submits(t.id) ==> Disposition(law.policy, v) == Some(t.id)
    ensures s.mode in SourcesOf(t.id) && (s.recovery.Some? <==> t.id == RECOVER)
  {
    if s.recovery.None? { assert t.id == RECOVER ==> CONVERGE in t.recovers; }
  }

  lemma LaunchAdmitted(law: Law, s: Control, v: Observed, q: K.Request, p: K.Prescription<Observed>, clock: A.Clock)
    returns (f: A.Flight<Observed>)
    requires SoundRuntime(law.runtime) && A.Launch(law.runtime, s, K.Observed(v), q, p, clock, AdmissibleIn(law)).Ok?
    ensures f == A.Launch(law.runtime, s, K.Observed(v), q, p, clock, AdmissibleIn(law)).value
    ensures f.prior == s && f.observation == K.Observed(v) && f.prescription == p && Row(f.transition)
    ensures s.revision != 0
    ensures M.Sound(law.runtime, f)
    ensures Submits(f.transition.id) ==> Disposition(law.policy, v) == Some(f.transition.id)
    ensures s.mode in SourcesOf(f.transition.id) && (s.recovery.Some? <==> f.transition.id == RECOVER)
  {
    f := M.LaunchSound(law.runtime, s, K.Observed(v), q, p, clock, AdmissibleIn(law));
    JudgedAllowed(law, s, v, q, f.transition);
  }

  function Launched(m: Machine, f: A.Flight<Observed>): Machine {
    m.(k := M.TakenOff(m.k, f), phase := Begun)
  }

  lemma LaunchedOpens(m: Machine, f: A.Flight<Observed>)
    requires m.k.flight.None? && f.prior == m.k.state
    ensures BookOf(Launched(m, f)) == Opened(BookOf(m), f.transition.id, m.k.state.revision)
  {
  }

  lemma LaunchedCanOpen(law: Law, m: Machine, f: A.Flight<Observed>)
    requires m.k.flight.None? && f.prior == m.k.state && Row(f.transition)
    requires m.k.state.mode in SourcesOf(f.transition.id) && (m.k.state.recovery.Some? <==> f.transition.id == RECOVER)
    requires WrittenBefore(m) && m.k.state.revision == M.Accounted(m.k)
    ensures CanOpen(BookOf(m), f.transition.id, m.k.state.revision)
  {
  }

  lemma LaunchedAdmitted(law: Law, m: Machine, f: A.Flight<Observed>, v: Observed)
    requires m.k.flight.None? && f.prior == m.k.state && Row(f.transition) && f.observation == K.Observed(v)
    requires Submits(f.transition.id) ==> Disposition(law.policy, v) == Some(f.transition.id)
    requires CandidateHonest(law, v) && v.rounds == CurrentRounds(JournalOf(m.disk))
    requires v.generation == JournalOf(m.disk).generation
    ensures FlightAdmitted(law, Launched(m, f)) && OnPlan(law, Launched(m, f))
  {
  }

  lemma LaunchedCounts(law: Law, m: Machine, f: A.Flight<Observed>)
    requires m.k.flight.None? && WrittenBefore(m)
    ensures WrittenBefore(Launched(m, f))
  {
    assert M.Accounted(M.TakenOff(m.k, f)) == M.Accounted(m.k) + 1;
  }

  lemma RevisionCounts(rt: K.Runtime, k: M.Machine<Observed>)
    requires M.Inv(rt, k) && k.state.revision != 0
    ensures k.state.revision == M.Accounted(k)
  {
  }

  lemma BeginningIsLaunched(law: Law, m: Machine, q: K.Request, p: K.Prescription<Observed>, clock: A.Clock,
                            v: Observed, f: A.Flight<Observed>)
    requires m.k.flight.None? && ObserveValue(law, m.disk, m.world) == Some(v) && f.prescription == p
    requires A.Launch(law.runtime, m.k.state, K.Observed(v), q, p, clock, AdmissibleIn(law)) == Ok(f)
    ensures Beginning(law, m, q, p, clock) == Launched(m, f)
  {
  }

  lemma BeginningRefused(law: Law, m: Machine, q: K.Request, p: K.Prescription<Observed>, clock: A.Clock, v: Observed)
    requires m.phase.Idle? && m.k.flight.None? && ObserveValue(law, m.disk, m.world) == Some(v)
    requires A.Launch(law.runtime, m.k.state, K.Observed(v), q, p, clock, AdmissibleIn(law)).Err?
    ensures Beginning(law, m, q, p, clock) == m
  {
  }

  lemma LaunchKeeps(law: Law, m: Machine, f: A.Flight<Observed>, v: Observed)
    requires Inv(law, m) && m.k.flight.None? && M.Inv(law.runtime, M.TakenOff(m.k, f)) && f.prior == m.k.state
    requires m.k.state.revision != 0
    requires f.observation == K.Observed(v) && Row(f.transition)
    requires Submits(f.transition.id) ==> Disposition(law.policy, v) == Some(f.transition.id)
    requires m.k.state.mode in SourcesOf(f.transition.id) && (m.k.state.recovery.Some? <==> f.transition.id == RECOVER)
    requires CandidateHonest(law, v) && v.rounds == CurrentRounds(JournalOf(m.disk))
    requires v.generation == JournalOf(m.disk).generation
    ensures Inv(law, Launched(m, f))
  {
    RevisionCounts(law.runtime, m.k);
    LaunchedCanOpen(law, m, f);
    OpenKeeps(law.policy, BookOf(m), f.transition.id, m.k.state.revision);
    LaunchedOpens(m, f);
    LaunchedAdmitted(law, m, f, v);
    LaunchedCounts(law, m, f);
  }

  lemma LaunchingKeeps(law: Law, m: Machine, q: K.Request, p: K.Prescription<Observed>, clock: A.Clock, v: Observed)
    returns (next: Machine)
    requires SoundRuntime(law.runtime) && Inv(law, m) && m.k.flight.None?
    requires ObserveValue(law, m.disk, m.world) == Some(v)
    requires A.Launch(law.runtime, m.k.state, K.Observed(v), q, p, clock, AdmissibleIn(law)).Ok?
    ensures next == Beginning(law, m, q, p, clock) && Inv(law, next)
  {
    var f := LaunchAdmitted(law, m.k.state, v, q, p, clock);
    BeginningIsLaunched(law, m, q, p, clock, v, f);
    M.TakeOff(law.runtime, m.k, f);
    ObservedHonest(law, m.disk, m.world);
    LaunchKeeps(law, m, f, v);
    next := Launched(m, f);
  }

  lemma BeginKeeps(law: Law, m: Machine, q: K.Request, p: K.Prescription<Observed>, clock: A.Clock)
    returns (next: Machine)
    requires SoundRuntime(law.runtime) && Inv(law, m)
    ensures next == Beginning(law, m, q, p, clock) && Inv(law, next)
  {
    next := m;
    if m.k.flight.None? && ObserveValue(law, m.disk, m.world).Some? {
      var v := ObserveValue(law, m.disk, m.world).value;
      if A.Launch(law.runtime, m.k.state, K.Observed(v), q, p, clock, AdmissibleIn(law)).Ok? {
        next := LaunchingKeeps(law, m, q, p, clock, v);
      } else {
        BeginningRefused(law, m, q, p, clock, v);
      }
    }
  }

  // ----- Loading -----

  lemma LoadedOnPlan(law: Law, m: Machine, plan: Plan)
    requires m.phase == Begun && m.k.flight.Some? && m.k.flight.value.observation.value.Some?
    requires PlanFor(m.k.flight.value.transition.id, m.k.flight.value.observation.value.value, m.disk) == Some(plan)
    ensures OnPlan(law, m.(phase := Running(plan, m.disk, 0)))
    ensures BookOf(m.(phase := Running(plan, m.disk, 0))) == BookOf(m)
    ensures Wrote(m.(phase := Running(plan, m.disk, 0))) == Wrote(m)
  {
  }

  lemma LoadedKeeps(law: Law, m: Machine, plan: Plan)
    requires Inv(law, m) && m.phase == Begun && m.k.flight.Some? && m.k.flight.value.observation.value.Some?
    requires PlanFor(m.k.flight.value.transition.id, m.k.flight.value.observation.value.value, m.disk) == Some(plan)
    ensures Inv(law, m.(phase := Running(plan, m.disk, 0)))
  {
    LoadedOnPlan(law, m, plan);
    PhaseOnly(law, m, Running(plan, m.disk, 0));
  }

  lemma FlightObserved(law: Law, m: Machine)
    requires FlightAdmitted(law, m) && m.k.flight.Some?
    ensures m.k.flight.value.observation.value.Some? && Row(m.k.flight.value.transition)
  {
  }

  lemma LoadingIs(law: Law, m: Machine)
    requires FlightAdmitted(law, m)
    ensures !(m.phase == Begun && m.k.flight.Some?) ==> Loading(law, m) == m
    ensures m.phase == Begun && m.k.flight.Some? ==>
      var plan := PlanFor(m.k.flight.value.transition.id, m.k.flight.value.observation.value.value, m.disk);
      Loading(law, m) == if plan.None? then CutOff(law.runtime, m) else m.(phase := Running(plan.value, m.disk, 0))
  {
  }

  lemma LoadKeeps(law: Law, m: Machine) returns (next: Machine)
    requires K.ValidRuntime(law.runtime) && Inv(law, m)
    ensures next == Loading(law, m) && Inv(law, next)
  {
    LoadingIs(law, m);
    next := m;
    if m.phase == Begun && m.k.flight.Some? {
      FlightObserved(law, m);
      var plan := PlanFor(m.k.flight.value.transition.id, m.k.flight.value.observation.value.value, m.disk);
      if plan.None? {
        next := CutOffKeeps(law, m);
      } else {
        LoadedKeeps(law, m, plan.value);
        next := m.(phase := Running(plan.value, m.disk, 0));
      }
    }
  }

  lemma PhaseOnly(law: Law, m: Machine, phase: Phase)
    requires FlightAdmitted(law, m) && Wrote(m.(phase := phase)) == Wrote(m)
    ensures FlightAdmitted(law, m.(phase := phase))
  {
  }

  // ----- Writing -----

  /** A write that replaces neither the journal nor an archived candidate. */
  lemma DropKeepsPlan(law: Law, m: Machine)
    requires CanPerform(m) && OnPlan(law, m) && m.k.flight.value.observation.value.Some?
    requires var w := m.phase.plan.script[m.phase.done]; w.DropStaged? || w.DropMeta?
    requires Row(m.k.flight.value.transition)
    ensures OnPlan(law, Performed(m)) && Wrote(Performed(m)) == Wrote(m) && BookOf(Performed(m)) == BookOf(m)
  {
    NotSubmissions();
  }

  /** A write that moves the attempt along without moving its book. */
  lemma StillKeeps(law: Law, m: Machine, next: Machine)
    requires Inv(law, m) && next.k == m.k && next.writer == m.writer && (next.phase.Idle? <==> m.phase.Idle?)
    requires BookOf(next) == BookOf(m) && Wrote(next) == Wrote(m) && JournalOf(next.disk) == JournalOf(m.disk)
    requires OnPlan(law, next) && AllArchived(law, next.disk)
    ensures Inv(law, next)
  {
    SameAdmitted(law, m, next);
  }

  lemma DropWriteOnly(law: Law, m: Machine) returns (next: Machine)
    requires CanPerform(m) && AllArchived(law, m.disk)
    requires var w := m.phase.plan.script[m.phase.done]; w.DropStaged? || w.DropMeta?
    ensures next == Performed(m) && next.k == m.k && next.writer == m.writer && next.phase.Running?
    ensures JournalOf(next.disk) == JournalOf(m.disk) && AllArchived(law, next.disk)
  {
    next := Performed(m);
  }

  lemma DropWriteKeeps(law: Law, m: Machine) returns (next: Machine)
    requires Inv(law, m) && CanPerform(m)
    requires var w := m.phase.plan.script[m.phase.done]; w.DropStaged? || w.DropMeta?
    ensures next == Performed(m) && Inv(law, next)
  {
    FlightObserved(law, m);
    DropKeepsPlan(law, m);
    next := DropWriteOnly(law, m);
    StillKeeps(law, m, next);
  }

  lemma SameAdmitted(law: Law, m: Machine, next: Machine)
    requires FlightAdmitted(law, m) && next.k == m.k && Wrote(next) == Wrote(m)
    requires JournalOf(next.disk) == JournalOf(m.disk)
    ensures FlightAdmitted(law, next)
  {
  }

  /** What a running submission is working with. */
  ghost predicate Submitting(law: Law, m: Machine, v: Observed, b: Bytes) {
    && CanPerform(m) && Submits(m.k.flight.value.transition.id) && m.k.flight.value.observation.value == Some(v)
    && v.candidate.Some? && FingerprintOf(b) == v.candidate.value.fingerprint
    && m.phase.plan.script == ArchiveScript(JournalOf(m.phase.start), b, RoundOf(m.k.flight.value.transition.id, v))
  }

  lemma SubmissionPlan(law: Law, m: Machine) returns (v: Observed, b: Bytes)
    requires CanPerform(m) && FlightAdmitted(law, m) && OnPlan(law, m) && Submits(m.k.flight.value.transition.id)
    ensures Submitting(law, m, v, b)
  {
    v := m.k.flight.value.observation.value.value;
    b := LoadStaged(m.phase.start).bytes;
  }

  /** The same fingerprint means the same review. */
  lemma SameBytesHonest(law: Law, fingerprint: string, verdict: string, measure: int, blockingMeasure: int,
                        a: Bytes, b: Bytes)
    requires Honest(law, fingerprint, verdict, measure, blockingMeasure, a) && FingerprintOf(b) == fingerprint
    ensures Honest(law, fingerprint, verdict, measure, blockingMeasure, b)
  {
    FingerprintIdentifies(a, b);
  }

  lemma ArchivedStays(law: Law, archive: map<string, Bytes>, r: Round, b: Bytes, fingerprint: string)
    requires Archived(law, archive, r) && FingerprintOf(b) == fingerprint
    ensures Archived(law, archive[fingerprint := b], r)
  {
    if r.fingerprint == fingerprint {
      SameBytesHonest(law, r.fingerprint, r.verdict, r.measure, r.blockingMeasure, archive[r.fingerprint], b);
    }
  }

  lemma RoundArchived(law: Law, v: Observed, id: string, archive: map<string, Bytes>, b: Bytes)
    requires CandidateHonest(law, v) && v.candidate.Some? && v.candidate.value.valid
    requires FingerprintOf(b) == v.candidate.value.fingerprint
    ensures Archived(law, archive[v.candidate.value.fingerprint := b], RoundOf(id, v))
  {
    var c := v.candidate.value;
    var a :| Honest(law, c.fingerprint, c.verdict, c.measure, c.blockingMeasure, a);
    SameBytesHonest(law, c.fingerprint, c.verdict, c.measure, c.blockingMeasure, a, b);
  }

  lemma ArchiveStays(law: Law, disk: Disk, fingerprint: string, b: Bytes)
    requires AllArchived(law, disk) && FingerprintOf(b) == fingerprint
    ensures AllArchived(law, Written(disk, SaveRound(fingerprint, b)))
  {
    assert JournalOf(Written(disk, SaveRound(fingerprint, b))) == JournalOf(disk);
    forall r | r in JournalOf(disk).rounds ensures Archived(law, disk.archive[fingerprint := b], r) {
      ArchivedStays(law, disk.archive, r, b, fingerprint);
    }
  }

  lemma SavedRoundPlan(law: Law, m: Machine, v: Observed, b: Bytes)
    requires Submitting(law, m, v, b) && m.phase.done == 0 && OnPlan(law, m)
    requires CandidateHonest(law, v) && v.candidate.value.valid
    ensures OnPlan(law, Performed(m)) && Wrote(Performed(m)) == Wrote(m) && BookOf(Performed(m)) == BookOf(m)
    ensures Performed(m).disk == Written(m.disk, SaveRound(v.candidate.value.fingerprint, b))
  {
    RoundArchived(law, v, m.k.flight.value.transition.id, m.disk.archive, b);
  }

  lemma SaveRoundKeeps(law: Law, m: Machine, v: Observed, b: Bytes)
    requires Inv(law, m) && Submitting(law, m, v, b) && m.phase.done == 0 && CandidateHonest(law, v)
    requires v.candidate.value.valid
    ensures Inv(law, Performed(m))
  {
    SavedRoundPlan(law, m, v, b);
    ArchiveStays(law, m.disk, v.candidate.value.fingerprint, b);
    StillKeeps(law, m, Performed(m));
  }

  /** The law's own rule makes the round it admits a lawful next round. */
  lemma DispositionLawful(p: Policy, v: Observed, id: string, j: Journal)
    requires Submits(id) && Disposition(p, v) == Some(id) && v.rounds == CurrentRounds(j)
    ensures LawfulNext(p, CurrentRounds(j), Placed(j, RoundOf(id, v)))
  {
    NotSubmissions();
  }

  lemma JournalSaved(law: Law, m: Machine, v: Observed, b: Bytes) returns (next: Machine, r: Round)
    requires Submitting(law, m, v, b) && m.phase.done == 1 && OnPlan(law, m)
    ensures next == Performed(m) && r == Placed(JournalOf(m.disk), RoundOf(m.k.flight.value.transition.id, v))
    ensures next.k == m.k && next.phase == m.phase.(done := 2)
    ensures next.writer == m.writer + [m.k.flight.value.prior.revision]
    ensures next.claims == m.claims && next.disturbed == m.disturbed && next.disk.archive == m.disk.archive
    ensures !Wrote(m) && Wrote(next) && JournalOf(m.disk) == JournalOf(m.phase.start)
    ensures next.disk.journal == Some(JournalOf(m.disk).(rounds := JournalOf(m.disk).rounds + [r]))
  {
    NotSubmissions();
    next := Performed(m);
    r := Placed(JournalOf(m.disk), RoundOf(m.k.flight.value.transition.id, v));
  }

  lemma JournalSavedBook(m: Machine, next: Machine, r: Round)
    requires m.k.flight.Some? && next.k == m.k && next.writer == m.writer + [m.k.flight.value.prior.revision]
    requires next.claims == m.claims && next.disturbed == m.disturbed && !Wrote(m) && Wrote(next)
    requires next.disk.journal == Some(JournalOf(m.disk).(rounds := JournalOf(m.disk).rounds + [r]))
    ensures BookOf(next) == Appended(BookOf(m), r)
  {
  }

  lemma JournalSavedPlan(law: Law, m: Machine, next: Machine, v: Observed, b: Bytes, r: Round)
    requires Submitting(law, m, v, b) && OnPlan(law, m) && FlightAdmitted(law, m) && m.phase.done == 1
    requires next.k == m.k && next.phase == m.phase.(done := 2) && next.disk.archive == m.disk.archive && Wrote(next)
    requires r == Placed(JournalOf(m.disk), RoundOf(m.k.flight.value.transition.id, v))
    requires JournalOf(m.disk) == JournalOf(m.phase.start)
    requires next.disk.journal == Some(JournalOf(m.disk).(rounds := JournalOf(m.disk).rounds + [r]))
    ensures OnPlan(law, next) && FlightAdmitted(law, next) && Archived(law, m.disk.archive, r)
  {
  }

  lemma FlightBefore(rt: K.Runtime, k: M.Machine<Observed>)
    requires M.Inv(rt, k) && k.flight.Some?
    ensures k.flight.value.prior.revision + 1 == M.Accounted(k) < K.REVISIONS
  {
  }

  lemma MoreArchived(law: Law, disk: Disk, next: Disk, r: Round)
    requires AllArchived(law, disk) && next.archive == disk.archive && Archived(law, disk.archive, r)
    requires next.journal == Some(JournalOf(disk).(rounds := JournalOf(disk).rounds + [r]))
    ensures AllArchived(law, next)
  {
  }

  lemma SaveJournalKeeps(law: Law, m: Machine, v: Observed, b: Bytes) returns (next: Machine)
    requires Inv(law, m) && Submitting(law, m, v, b) && m.phase.done == 1
    ensures next == Performed(m) && Inv(law, next)
  {
    var r: Round;
    next, r := JournalSaved(law, m, v, b);
    AdmittedLawful(law, m, v, b);
    JournalSavedPlan(law, m, next, v, b, r);
    MoreArchived(law, m.disk, next.disk, r);
    FlightBefore(law.runtime, m.k);
    JournalSavedBook(m, next, r);
    AppendKeeps(law.policy, BookOf(m), r);
    AfterSave(law, m, next);
  }

  lemma AfterSave(law: Law, m: Machine, next: Machine)
    requires M.Inv(law.runtime, m.k) && next.k == m.k && m.k.flight.Some? && next.phase.Running? && OneEffect(m)
    requires WrittenBefore(m)
    requires next.writer == m.writer + [m.k.flight.value.prior.revision]
    requires m.k.flight.value.prior.revision < M.Accounted(m.k)
    requires BookInv(law.policy, BookOf(next)) && OnPlan(law, next) && FlightAdmitted(law, next)
    requires AllArchived(law, next.disk)
    ensures Inv(law, next)
  {
    WrittenOneMore(m, next);
  }

  lemma WrittenOneMore(m: Machine, next: Machine)
    requires WrittenBefore(m) && next.k == m.k && m.k.flight.Some?
    requires next.writer == m.writer + [m.k.flight.value.prior.revision]
    requires m.k.flight.value.prior.revision < M.Accounted(m.k)
    ensures WrittenBefore(next)
  {
  }

  lemma AdmittedLawful(law: Law, m: Machine, v: Observed, b: Bytes)
    requires Submitting(law, m, v, b) && FlightAdmitted(law, m) && !Wrote(m)
    ensures CanAppend(law.policy, BookOf(m), Placed(JournalOf(m.disk), RoundOf(m.k.flight.value.transition.id, v)))
  {
    DispositionLawful(law.policy, v, m.k.flight.value.transition.id, JournalOf(m.disk));
  }

  // ----- The next generation -----

  lemma GenerationSaved(law: Law, m: Machine) returns (next: Machine)
    requires CanPerform(m) && OnPlan(law, m) && FlightAdmitted(law, m)
    requires m.k.flight.value.transition.id == REOPEN && m.phase.done == 0
    ensures next == Performed(m) && next.k == m.k && next.phase.Running? && next.writer == m.writer
    ensures next.disk.archive == m.disk.archive && JournalOf(next.disk).rounds == JournalOf(m.disk).rounds
    ensures OnPlan(law, next) && FlightAdmitted(law, next)
    ensures CanAdvance(BookOf(m)) && BookOf(next) == Advanced(BookOf(m))
  {
    NotSubmissions();
    next := Performed(m);
  }

  lemma GenerationKeeps(law: Law, m: Machine) returns (next: Machine)
    requires Inv(law, m) && CanPerform(m) && m.k.flight.value.transition.id == REOPEN && m.phase.done == 0
    ensures next == Performed(m) && Inv(law, next)
  {
    next := GenerationSaved(law, m);
    AdvanceKeeps(law.policy, BookOf(m));
  }

  // ----- Every write -----

  lemma ScriptAt(law: Law, m: Machine)
    requires CanPerform(m) && FlightAdmitted(law, m) && OnPlan(law, m)
    ensures var id, done := m.k.flight.value.transition.id, m.phase.done;
      var w := m.phase.plan.script[done];
      if Submits(id) && done < 2 then true
      else if id == REOPEN && done < 1 then true
      else w.DropStaged? || w.DropMeta?
  {
    NotSubmissions();
  }

  lemma PerformKeeps(law: Law, m: Machine) returns (next: Machine)
    requires Inv(law, m) && CanPerform(m)
    ensures next == Performed(m) && Inv(law, next)
  {
    var id := m.k.flight.value.transition.id;
    ScriptAt(law, m);
    if Submits(id) && m.phase.done < 2 {
      var v, b := SubmissionPlan(law, m);
      if m.phase.done == 0 {
        SubmissionValid(law, m, v, b);
        SaveRoundKeeps(law, m, v, b);
        next := Performed(m);
      } else {
        next := SaveJournalKeeps(law, m, v, b);
      }
    } else if id == REOPEN && m.phase.done < 1 {
      next := GenerationKeeps(law, m);
    } else {
      next := DropWriteKeeps(law, m);
    }
  }

  lemma SubmissionValid(law: Law, m: Machine, v: Observed, b: Bytes)
    requires Submitting(law, m, v, b) && FlightAdmitted(law, m)
    ensures CandidateHonest(law, v) && v.candidate.value.valid
  {
  }

  // ----- Committing -----

  lemma EntriesAppended(receipts: seq<Receipt>, r: Receipt)
    ensures EntriesOf(receipts + [r]) == EntriesOf(receipts) + if Submits(r.body.transition) then [EntryOf(r)] else []
  {
    KeepAppended((x: Receipt) => Submits(x.body.transition), receipts, r);
  }

  lemma OneFact(fact: A.EffectFact)
    ensures Sort(A.FactLess, [fact]) == [fact]
  {
    var none: seq<A.EffectFact> := [];
    assert [fact][1..] == none;
  }

  /** A finished plan has written what it was to write and reports one fact. */
  lemma PlanDone(law: Law, m: Machine)
    requires CanFinish(m) && FlightAdmitted(law, m) && OnPlan(law, m)
    ensures var id, v := m.k.flight.value.transition.id, m.k.flight.value.observation.value.value;
      && (id == RECOVER || Wrote(m)) && |m.phase.plan.facts| == 1
      && (Submits(id) ==>
        && v.candidate.Some? && m.phase.plan.facts[0].fingerprint == v.candidate.value.fingerprint
        && JournalOf(m.disk).rounds != []
        && JournalOf(m.disk).rounds[|JournalOf(m.disk).rounds| - 1].fingerprint == v.candidate.value.fingerprint)
  {
    NotSubmissions();
  }

  lemma FinishedLands(law: Law, m: Machine, at: K.Time) returns (next: Machine, r: Receipt)
    requires CanFinish(m) && A.Commits(m.k.flight.value, OutcomeOf(law, m, at)) && |m.phase.plan.facts| == 1
    ensures next == Finished(law, m, at) && next.k == M.Landed(m.k, A.TargetState(m.k.flight.value), r)
    ensures next.phase == Idle
    ensures next.disk == m.disk && next.world == m.world && next.writer == m.writer && next.disturbed == m.disturbed
    ensures next.claims == if Submits(m.k.flight.value.transition.id) && |JournalOf(m.disk).rounds| > 0
      then m.claims + [|JournalOf(m.disk).rounds| - 1] else m.claims
    ensures r == A.CommittedReceipt(m.k.flight.value, OutcomeOf(law, m, at))
    ensures EntryOf(r) == Entry(m.k.flight.value.prior.revision, m.k.flight.value.transition.id,
      m.phase.plan.facts[0].fingerprint)
    ensures |r.body.effects| == 1
  {
    next := Finished(law, m, at);
    r := A.CommittedReceipt(m.k.flight.value, OutcomeOf(law, m, at));
    OneFact(m.phase.plan.facts[0]);
    assert m.phase.plan.facts == [m.phase.plan.facts[0]];
  }

  lemma LandedBook(m: Machine, next: Machine, r: Receipt)
    requires m.k.flight.Some? && Row(m.k.flight.value.transition)
    requires next.k == M.Landed(m.k, A.TargetState(m.k.flight.value), r)
    requires next.disk == m.disk && next.writer == m.writer && next.disturbed == m.disturbed
    requires Submits(m.k.flight.value.transition.id) ==> JournalOf(m.disk).rounds != []
    requires next.claims == if Submits(m.k.flight.value.transition.id) then m.claims + [|JournalOf(m.disk).rounds| - 1]
      else m.claims
    requires r.body.transition == m.k.flight.value.transition.id
    requires Submits(m.k.flight.value.transition.id) ==>
      EntryOf(r) == Entry(m.k.flight.value.prior.revision, m.k.flight.value.transition.id,
        JournalOf(m.disk).rounds[|JournalOf(m.disk).rounds| - 1].fingerprint)
    ensures BookOf(next) == Committed(BookOf(m))
  {
    EntriesAppended(m.k.receipts, r);
  }

  lemma PlanCommits(law: Law, m: Machine)
    requires CanFinish(m) && FlightAdmitted(law, m) && OnPlan(law, m)
    ensures CanCommit(BookOf(m)) && Row(m.k.flight.value.transition)
  {
    PlanDone(law, m);
  }

  lemma LandsInBook(law: Law, m: Machine, at: K.Time) returns (next: Machine)
    requires CanFinish(m) && FlightAdmitted(law, m) && OnPlan(law, m) && OneEffect(m)
    requires A.Commits(m.k.flight.value, OutcomeOf(law, m, at))
    ensures OneEffect(next)
    ensures next == Finished(law, m, at) && CanCommit(BookOf(m)) && BookOf(next) == Committed(BookOf(m))
    ensures next.phase == Idle && next.disk == m.disk && next.writer == m.writer
    ensures next.k == M.Landed(m.k, A.TargetState(m.k.flight.value),
      A.CommittedReceipt(m.k.flight.value, OutcomeOf(law, m, at)))
  {
    PlanDone(law, m);
    PlanCommits(law, m);
    var r: Receipt;
    next, r := FinishedLands(law, m, at);
    LandedBook(m, next, r);
  }

  lemma CommitLandKeeps(law: Law, m: Machine, at: K.Time) returns (next: Machine)
    requires K.ValidRuntime(law.runtime) && Inv(law, m) && CanFinish(m)
    requires A.Commits(m.k.flight.value, OutcomeOf(law, m, at))
    ensures next == Finished(law, m, at) && Inv(law, next)
  {
    next := LandsInBook(law, m, at);
    KernelLands(law.runtime, m.k, OutcomeOf(law, m, at));
    CommitKeeps(law.policy, BookOf(m));
    AfterAttempt(law, m, next);
  }

  lemma KernelLands(rt: K.Runtime, k: M.Machine<Observed>, e: A.Outcome<Observed>)
    requires K.ValidRuntime(rt) && M.Inv(rt, k) && k.flight.Some? && A.Commits(k.flight.value, e)
    ensures var next := M.Landed(k, A.TargetState(k.flight.value), A.CommittedReceipt(k.flight.value, e));
      M.Inv(rt, next) && M.Accounted(next) == M.Accounted(k) + 1
  {
    M.CommitKeeps(rt, k, e);
  }

  lemma FinishKeeps(law: Law, m: Machine, at: K.Time) returns (next: Machine)
    requires K.ValidRuntime(law.runtime) && Inv(law, m) && CanFinish(m)
    ensures next == Finished(law, m, at) && Inv(law, next)
  {
    if A.Commits(m.k.flight.value, OutcomeOf(law, m, at)) {
      next := CommitLandKeeps(law, m, at);
    } else {
      next := CutOffKeeps(law, m);
    }
  }

  // ----- Every run -----

  lemma OutsideStepKeeps(law: Law, m: Machine, e: Event) returns (next: Machine)
    requires Inv(law, m) && (e.Move? || e.StageBytes? || e.StageMeta?)
    ensures next == Step(law, m, e) && Inv(law, next)
  {
    next := OutsideStep(law, m, e);
    OutsideKeeps(law, m, next);
  }

  lemma OutsideStep(law: Law, m: Machine, e: Event) returns (next: Machine)
    requires e.Move? || e.StageBytes? || e.StageMeta?
    ensures next == Step(law, m, e) && next == m.(disk := next.disk, world := next.world)
    ensures next.disk.journal == m.disk.journal && next.disk.archive == m.disk.archive
  {
    next := Step(law, m, e);
  }

  lemma StepPerforms(law: Law, m: Machine, e: Event)
    requires e.Perform?
    ensures Step(law, m, e) == if CanPerform(m) then Performed(m) else m
  {
  }

  lemma StepInterrupts(law: Law, m: Machine, e: Event)
    requires e.Interrupt?
    ensures Step(law, m, e) == if m.k.flight.None? then m else CutOff(law.runtime, m)
  {
  }

  lemma StepFinishes(law: Law, m: Machine, e: Event)
    requires e.Finish?
    ensures Step(law, m, e) == if CanFinish(m) then Finished(law, m, e.committedAt) else m
  {
  }

  lemma StepBegins(law: Law, m: Machine, e: Event)
    requires e.Begin?
    ensures Step(law, m, e) == Beginning(law, m, e.request, e.prescription, e.clock)
  {
  }

  lemma StepLoads(law: Law, m: Machine, e: Event)
    requires e.Load?
    ensures Step(law, m, e) == Loading(law, m)
  {
  }

  lemma PerformStepKeeps(law: Law, m: Machine, e: Event) returns (next: Machine)
    requires Inv(law, m) && e.Perform?
    ensures next == Step(law, m, e) && Inv(law, next)
  {
    StepPerforms(law, m, e);
    next := m;
    if CanPerform(m) { next := PerformKeeps(law, m); }
  }

  lemma InterruptStepKeeps(law: Law, m: Machine, e: Event) returns (next: Machine)
    requires K.ValidRuntime(law.runtime) && Inv(law, m) && e.Interrupt?
    ensures next == Step(law, m, e) && Inv(law, next)
  {
    StepInterrupts(law, m, e);
    next := m;
    if m.k.flight.Some? { next := CutOffKeeps(law, m); }
  }

  lemma BeginStepKeeps(law: Law, m: Machine, e: Event) returns (next: Machine)
    requires SoundRuntime(law.runtime) && Inv(law, m) && e.Begin?
    ensures next == Step(law, m, e) && Inv(law, next)
  {
    StepBegins(law, m, e);
    next := BeginKeeps(law, m, e.request, e.prescription, e.clock);
  }

  lemma LoadStepKeeps(law: Law, m: Machine, e: Event) returns (next: Machine)
    requires K.ValidRuntime(law.runtime) && Inv(law, m) && e.Load?
    ensures next == Step(law, m, e) && Inv(law, next)
  {
    StepLoads(law, m, e);
    next := LoadKeeps(law, m);
  }

  lemma FinishStepKeeps(law: Law, m: Machine, e: Event) returns (next: Machine)
    requires K.ValidRuntime(law.runtime) && Inv(law, m) && e.Finish?
    ensures next == Step(law, m, e) && Inv(law, next)
  {
    StepFinishes(law, m, e);
    next := m;
    if CanFinish(m) { next := FinishKeeps(law, m, e.committedAt); }
  }

  lemma EffectStepKeeps(law: Law, m: Machine, e: Event) returns (next: Machine)
    requires K.ValidRuntime(law.runtime) && Inv(law, m) && (e.Perform? || e.Finish? || e.Interrupt?)
    ensures next == Step(law, m, e) && Inv(law, next)
  {
    if e.Perform? {
      next := PerformStepKeeps(law, m, e);
    } else if e.Finish? {
      next := FinishStepKeeps(law, m, e);
    } else {
      next := InterruptStepKeeps(law, m, e);
    }
  }

  lemma StartStepKeeps(law: Law, m: Machine, e: Event) returns (next: Machine)
    requires SoundRuntime(law.runtime) && Inv(law, m) && (e.Begin? || e.Load?)
    ensures next == Step(law, m, e) && Inv(law, next)
  {
    if e.Begin? {
      next := BeginStepKeeps(law, m, e);
    } else {
      next := LoadStepKeeps(law, m, e);
    }
  }

  lemma AttemptStepKeeps(law: Law, m: Machine, e: Event) returns (next: Machine)
    requires SoundRuntime(law.runtime) && Inv(law, m)
    requires e.Begin? || e.Load? || e.Perform? || e.Finish? || e.Interrupt?
    ensures next == Step(law, m, e) && Inv(law, next)
  {
    if e.Begin? || e.Load? {
      next := StartStepKeeps(law, m, e);
    } else {
      next := EffectStepKeeps(law, m, e);
    }
  }

  lemma StepKeeps(law: Law, m: Machine, e: Event) returns (next: Machine)
    requires SoundRuntime(law.runtime) && Inv(law, m)
    ensures next == Step(law, m, e) && Inv(law, next)
  {
    if e.Move? || e.StageBytes? || e.StageMeta? {
      next := OutsideStepKeeps(law, m, e);
    } else {
      next := AttemptStepKeeps(law, m, e);
    }
  }

  lemma {:induction false} RunKeeps(law: Law, w: World, events: seq<Event>)
    requires ValidLaw(law)
    ensures Inv(law, Run(law, w, events))
  {
    if events == [] {
      StartKeeps(law, w);
    } else {
      RuntimeIsSound(law.runtime);
      RunKeeps(law, w, events[..|events| - 1]);
      var next := StepKeeps(law, Run(law, w, events[..|events| - 1]), events[|events| - 1]);
    }
  }
}
