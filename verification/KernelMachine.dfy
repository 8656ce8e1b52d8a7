/** The kernel as a machine: attempts begin, commit or are interrupted, in any
    order and for ever, against any domain. */
module KernelMachine {
  import opened Base
  import opened Ordering
  import opened KernelRuntime
  import opened KernelApply
  import P = KernelProgram
  import R = KernelRelation

  /** The durable state, the attempt in progress, and what has happened so far:
      the prescriptions begun, the attempts interrupted, and how many of those
      came before the first commit. */
  datatype Machine<V> = Machine(
    state: ControlState<V>, receipts: seq<Receipt<V>>, flight: Option<Flight<V>>,
    begun: seq<Prescription<V>>, interrupted: nat, lead: nat)

  /** Observation, domain answers, clock and effect outcome are whatever the
      outside world makes them. */
  datatype Action<!V> =
    | Begin(observation: Observation<V>, request: Request, prescription: Prescription<V>, clock: Clock,
      admits: Evaluation<V> -> Answer)
    | Finish(outcome: Outcome<V>)
    | Interrupt

  ghost predicate Initial<V>(rt: Runtime, s: ControlState<V>) {
    ValidState(s) && s.revision == 1 && s.recovery.None? && s.program == IdentityOf(rt.program)
  }

  function Start<V>(s: ControlState<V>): Machine<V> { Machine(s, [], None, [], 0, 0) }

  function Interrupted<V>(m: Machine<V>): Machine<V> {
    m.(flight := None, interrupted := m.interrupted + 1, lead := if m.receipts == [] then m.lead + 1 else m.lead)
  }

  ghost function Act<V>(rt: Runtime, m: Machine<V>, a: Action<V>): Machine<V> {
    match a
    case Begin(o, q, p, clock, admits) =>
      if m.flight.Some? then m
      else
        var launch := Launch(rt, m.state, o, q, p, clock, admits);
        if launch.Err? then m
        else m.(state := AttemptState(m.state, p), flight := Some(launch.value), begun := m.begun + [p])
    case Finish(e) =>
      if m.flight.None? then m
      else if !Commits(m.flight.value, e) then Interrupted(m)
      else m.(state := TargetState(m.flight.value), receipts := m.receipts + [CommittedReceipt(m.flight.value, e)],
        flight := None)
    case Interrupt => if m.flight.None? then m else Interrupted(m)
  }

  ghost function Run<V>(rt: Runtime, s: ControlState<V>, actions: seq<Action<V>>): Machine<V> {
    if actions == [] then Start(s)
    else Act(rt, Run(rt, s, actions[..|actions| - 1]), actions[|actions| - 1])
  }

  // ----- What every run keeps -----

  function InProgress<V>(m: Machine<V>): nat { if m.flight.Some? then 1 else 0 }

  /** Two revisions for each commit and one for each attempt that did not. */
  function Accounted<V>(m: Machine<V>): nat { 1 + 2 * |m.receipts| + m.interrupted + InProgress(m) }

  /** The revision is the accounted number, up to the point where the counter
      wraps; no attempt can begin after that. */
  ghost predicate RevisionIs<V>(m: Machine<V>) {
    && Accounted(m) <= REVISIONS
    && m.state.revision == if Accounted(m) == REVISIONS then 0 else Accounted(m)
  }

  /** The transition an interrupted attempt left behind. */
  ghost predicate LeftBehind<V>(rt: Runtime, s: ControlState<V>, t: P.Transition) {
    && t in Transitions(rt) && s.recovery.Some? && t.id == s.recovery.value.transition
    && t.recovers == [] && s.mode in t.sourceModes
  }

  ghost predicate RecoveryKnown<V>(rt: Runtime, s: ControlState<V>) {
    s.recovery.Some? ==> exists t :: LeftBehind(rt, s, t)
  }

  /** What a flight that was allowed to begin satisfies. */
  ghost predicate Sound<V>(rt: Runtime, f: Flight<V>) {
    && f.transition in Transitions(rt) && f.prescription.body.transition == f.transition.id
    && f.prior.mode in f.transition.sourceModes && RecoveryCompatible(f.prior, f.transition)
    && ValidState(f.prior) && f.prior.program == IdentityOf(rt.program)
    && ValidState(AttemptState(f.prior, f.prescription))
    && f.prescription.id.HashOf? && f.prescription.body.freshness.revision == f.prior.revision
    && ValidObservation(f.observation) && f.authority.fingerprint.HashOf? && P.ValidCapabilities(f.required)
    && (TargetBinding(f).Some? ==> ValidBinding(TargetBinding(f).value))
  }

  ghost predicate FlightSound<V>(rt: Runtime, m: Machine<V>) {
    m.flight.Some? ==>
      var f := m.flight.value;
      Sound(rt, f) && f.prior.revision + 1 == Accounted(m) < REVISIONS &&
        m.state == AttemptState(f.prior, f.prescription)
  }

  ghost predicate StateSound<V>(rt: Runtime, s: ControlState<V>) {
    s.program == IdentityOf(rt.program) && (s.revision != 0 ==> ValidState(s))
  }

  ghost predicate BegunInOrder<V>(m: Machine<V>) {
    && (forall i :: 0 <= i < |m.begun| ==> m.begun[i].body.freshness.revision < Accounted(m))
    && (forall i, j :: 0 <= i < j < |m.begun| ==>
         m.begun[i].body.freshness.revision < m.begun[j].body.freshness.revision)
  }

  predicate TwoSteps<V>(r: Receipt<V>) {
    r.body.prior + 2 <= REVISIONS && r.body.result == (r.body.prior + 2) % REVISIONS
  }

  /** Receipts leave room for what was committed between them. */
  ghost predicate Spaced<V>(receipts: seq<Receipt<V>>) {
    && (forall i :: 0 <= i < |receipts| ==> TwoSteps(receipts[i]))
    && (forall i, j :: 0 <= i < j < |receipts| ==> receipts[i].body.prior + 2 * (j - i) <= receipts[j].body.prior)
  }

  ghost predicate ReceiptsSpaced<V>(m: Machine<V>) {
    && Spaced(m.receipts) && m.lead <= m.interrupted
    && (m.receipts == [] ==> m.lead == m.interrupted)
    && (m.receipts != [] ==>
      && m.receipts[0].body.prior == 1 + m.lead
      && m.receipts[|m.receipts| - 1].body.prior + 2 <= Accounted(m) - InProgress(m))
  }

  /** Every receipt is valid, of this instance and of this program. */
  ghost predicate ReceiptOf<V>(rt: Runtime, instance: string, r: Receipt<V>) {
    ValidReceipt(r) && r.body.instance == instance && r.body.program == IdentityOf(rt.program)
  }

  ghost predicate ReceiptsOwn<V>(rt: Runtime, m: Machine<V>) {
    forall r :: r in m.receipts ==> ReceiptOf(rt, m.state.instance, r)
  }

  ghost predicate Inv<V>(rt: Runtime, m: Machine<V>) {
    RevisionIs(m) && StateSound(rt, m.state) && RecoveryKnown(rt, m.state) && FlightSound(rt, m) && BegunInOrder(m) &&
      ReceiptsSpaced(m) && ReceiptsOwn(rt, m)
  }

  // ----- Launching -----

  /** A candidate comes from a transition the filters let through. */
  lemma {:induction false} CandidatesPassed<V>(rt: Runtime, s: ControlState<V>, o: Observation<V>, q: Request,
                                               admits: Evaluation<V> -> Answer, ts: seq<P.Transition>,
                                               c: R.Candidate)
    returns (t: P.Transition)
    requires Candidates(rt, s, o, q, admits, ts).Some? && c in Candidates(rt, s, o, q, admits, ts).value
    ensures t in ts && Judge(rt, s, o, q, admits, t) == Admitted(c)
  {
    var n := |ts| - 1;
    var rest := Candidates(rt, s, o, q, admits, ts[..n]);
    if c in rest.value {
      t := CandidatesPassed(rt, s, o, q, admits, ts[..n], c);
    } else {
      t := ts[n];
    }
  }

  /** What is prescribed without a default is the identity of a candidate. */
  lemma PrescribedIsCandidate(q: R.Question, cs: seq<R.Candidate>) returns (c: R.Candidate)
    requires q.noCandidate == None && R.Decide(q, cs).kind == R.Prescribed
    ensures c in cs && c.id == R.Decide(q, cs).transition
  {
    c := R.DecidedIsAnswer(q, cs);
    var i: nat :| R.UniqueBest(R.EligibleOf(q, cs), q.available, i) && R.EligibleOf(q, cs)[i] == c;
    assert c in R.EligibleOf(q, cs);
  }

  lemma UniqueId(rt: Runtime, t: P.Transition, u: P.Transition)
    requires ValidRuntime(rt) && t in Transitions(rt) && u in Transitions(rt) && t.id == u.id
    ensures t == u
  {
    P.CanonicalIdsDistinct(rt.program.declaration);
    var i :| 0 <= i < |Transitions(rt)| && Transitions(rt)[i] == t;
    var j :| 0 <= j < |Transitions(rt)| && Transitions(rt)[j] == u;
  }

  ghost predicate Decides<V>(rt: Runtime, s: ControlState<V>, o: Observation<V>, q: Request,
                             admits: Evaluation<V> -> Answer, id: string) {
    && Candidates(rt, s, o, q, admits, Transitions(rt)).Some?
    && var d := R.Decide(QuestionOf(q, AuthorityOf(q.authority)),
         Candidates(rt, s, o, q, admits, Transitions(rt)).value);
      d.kind == R.Prescribed && d.transition == id
  }

  lemma ResolvedDecides<V>(rt: Runtime, s: ControlState<V>, o: Observation<V>, q: Request, now: Time,
                           admits: Evaluation<V> -> Answer)
    returns (id: string)
    requires var r := Resolved(rt, s, o, q, now, admits); r.Some? && r.value.prescription.Some?
    ensures Resolvable(rt, s, o, q) && !Settled(rt, s, q) && Presentable(q.authority, now)
    ensures Decides(rt, s, o, q, admits, id)
    ensures Resolved(rt, s, o, q, now, admits).value.prescription
      == PrescriptionFor(rt, s, o, q, AuthorityOf(q.authority), id)
  {
    id := Resolved(rt, s, o, q, now, admits).value.decision.transition;
  }

  lemma DecidesPassed<V>(rt: Runtime, s: ControlState<V>, o: Observation<V>, q: Request,
                         admits: Evaluation<V> -> Answer, id: string)
    returns (t: P.Transition)
    requires ValidRuntime(rt) && Decides(rt, s, o, q, admits, id)
    ensures HasId(Transitions(rt), id) && t == Lookup(Transitions(rt), id) && Judge(rt, s, o, q, admits, t).Admitted?
  {
    var candidates := Candidates(rt, s, o, q, admits, Transitions(rt)).value;
    var c := PrescribedIsCandidate(QuestionOf(q, AuthorityOf(q.authority)), candidates);
    t := CandidatesPassed(rt, s, o, q, admits, Transitions(rt), c);
    UniqueId(rt, t, Lookup(Transitions(rt), id));
  }

  /** The prescription of this transition, with its own objective and
      capabilities. */
  ghost predicate PrescribedAs<V>(rt: Runtime, s: ControlState<V>, o: Observation<V>, q: Request, t: P.Transition,
                                  p: Option<Prescription<V>>)
    requires ObjectiveFor(s, q.objective, t).Some? && Required(rt, t).Some?
  {
    p == Some(Prescribe(rt, s, o, ObjectiveFor(s, q.objective, t).value, AuthorityOf(q.authority), t,
      Required(rt, t).value))
  }

  /** A resolved prescription names a transition that passed every filter. */
  lemma ResolvedPassed<V>(rt: Runtime, s: ControlState<V>, o: Observation<V>, q: Request, now: Time,
                          admits: Evaluation<V> -> Answer)
    returns (t: P.Transition)
    requires ValidRuntime(rt)
    requires var r := Resolved(rt, s, o, q, now, admits); r.Some? && r.value.prescription.Some?
    ensures Resolvable(rt, s, o, q)
    ensures t in Transitions(rt) && t == Lookup(Transitions(rt), t.id) && Judge(rt, s, o, q, admits, t).Admitted?
    ensures ObjectiveFor(s, q.objective, t).Some? && Required(rt, t).Some?
    ensures PrescribedAs(rt, s, o, q, t, Resolved(rt, s, o, q, now, admits).value.prescription)
  {
    var id := ResolvedDecides(rt, s, o, q, now, admits);
    t := DecidesPassed(rt, s, o, q, admits, id);
  }

  lemma RequiredValid(rt: Runtime, t: P.Transition)
    requires Required(rt, t).Some?
    ensures P.ValidCapabilities(Required(rt, t).value)
  {
  }

  lemma TransitionValid(rt: Runtime, t: P.Transition)
    requires ValidRuntime(rt) && t in Transitions(rt)
    ensures P.ValidTransition(t) && P.WellFormedLists(t)
  {
    P.CanonicalTransitionsValid(rt.program.declaration, t);
  }

  lemma ObjectiveForBinding<V>(s: ControlState<V>, supplied: Option<Objective>, t: P.Transition)
    requires t.mutation == P.Bind && ObjectiveFor(s, supplied, t).Some?
    ensures supplied.Some? && ObjectiveFor(s, supplied, t).value == supplied && ValidBinding(BindingOf(supplied.value))
  {
  }

  /** What is known about a flight that may begin. */
  lemma LaunchSound<V>(rt: Runtime, s: ControlState<V>, o: Observation<V>, q: Request, p: Prescription<V>,
                       clock: Clock, admits: Evaluation<V> -> Answer)
    returns (f: Flight<V>)
    requires ValidRuntime(rt) && Launch(rt, s, o, q, p, clock, admits).Ok?
    ensures f == Launch(rt, s, o, q, p, clock, admits).value && Sound(rt, f)
    ensures f.prior == s && f.prescription == p && f.observation == o
    ensures Judge(rt, s, o, q, admits, f.transition).Admitted?
  {
    var t := ResolvedPassed(rt, s, o, q, clock.resolved, admits);
    f := LaunchedFrom(rt, s, o, q, p, clock, admits, t);
    PassedIsSound(rt, s, o, q, p, admits, t);
  }

  lemma PassedIsSound<V>(rt: Runtime, s: ControlState<V>, o: Observation<V>, q: Request, p: Prescription<V>,
                         admits: Evaluation<V> -> Answer, t: P.Transition)
    requires t in Transitions(rt) && Judge(rt, s, o, q, admits, t).Admitted? && Resolvable(rt, s, o, q)
    requires ObjectiveFor(s, q.objective, t).Some? && Required(rt, t).Some?
    requires p.id == HashOf(p.body) && p.body.transition == t.id && p.body.freshness.revision == s.revision
    requires ValidState(AttemptState(s, p))
    ensures Sound(rt, Flight(s, o, p, t, ObjectiveFor(s, q.objective, t).value, AuthorityOf(q.authority),
      Required(rt, t).value))
  {
    RequiredValid(rt, t);
    if t.mutation == P.Bind { ObjectiveForBinding(s, q.objective, t); }
  }

  /** A launched flight carries the transition that was resolved. */
  lemma LaunchedFrom<V>(rt: Runtime, s: ControlState<V>, o: Observation<V>, q: Request, p: Prescription<V>,
                        clock: Clock, admits: Evaluation<V> -> Answer, t: P.Transition)
    returns (f: Flight<V>)
    requires Launch(rt, s, o, q, p, clock, admits).Ok? && t in Transitions(rt) && t == Lookup(Transitions(rt), t.id)
    requires ObjectiveFor(s, q.objective, t).Some? && Required(rt, t).Some?
    requires PrescribedAs(rt, s, o, q, t, Resolved(rt, s, o, q, clock.resolved, admits).value.prescription)
    ensures f == Launch(rt, s, o, q, p, clock, admits).value
    ensures f == Flight(s, o, p, t, ObjectiveFor(s, q.objective, t).value, AuthorityOf(q.authority),
      Required(rt, t).value)
    ensures p.id == HashOf(p.body) && p.body.transition == t.id && p.body.freshness.revision == s.revision
    ensures ValidState(AttemptState(s, p))
  {
    f := Launch(rt, s, o, q, p, clock, admits).value;
  }

  // ----- Steps -----

  lemma BeginKeeps<V>(rt: Runtime, m: Machine<V>, o: Observation<V>, q: Request, p: Prescription<V>, clock: Clock,
                      admits: Evaluation<V> -> Answer)
    requires ValidRuntime(rt) && Inv(rt, m) && m.flight.None? && Launch(rt, m.state, o, q, p, clock, admits).Ok?
    ensures Inv(rt, Act(rt, m, Begin(o, q, p, clock, admits)))
  {
    var f := LaunchSound(rt, m.state, o, q, p, clock, admits);
    TakeOff(rt, m, f);
  }

  lemma BeginActKeeps<V>(rt: Runtime, m: Machine<V>, o: Observation<V>, q: Request, p: Prescription<V>, clock: Clock,
                         admits: Evaluation<V> -> Answer)
    requires ValidRuntime(rt) && Inv(rt, m) && m.flight.None?
    ensures Inv(rt, Act(rt, m, Begin(o, q, p, clock, admits)))
  {
    if Launch(rt, m.state, o, q, p, clock, admits).Ok? { BeginKeeps(rt, m, o, q, p, clock, admits); }
  }

  function TakenOff<V>(m: Machine<V>, f: Flight<V>): Machine<V> {
    m.(state := AttemptState(m.state, f.prescription), flight := Some(f), begun := m.begun + [f.prescription])
  }

  lemma TakeOff<V>(rt: Runtime, m: Machine<V>, f: Flight<V>)
    requires Inv(rt, m) && m.flight.None? && f.prior == m.state && Sound(rt, f)
    ensures Inv(rt, TakenOff(m, f))
  {
    var next := TakenOff(m, f);
    assert Accounted(next) == Accounted(m) + 1;
    assert Next(m.state.revision) != 0;
    StillKnown(rt, m.state, f);
    BegunOneMore(m, f.prescription);
  }

  lemma StillKnown<V>(rt: Runtime, s: ControlState<V>, f: Flight<V>)
    requires RecoveryKnown(rt, s) && s == f.prior && Sound(rt, f)
    ensures RecoveryKnown(rt, AttemptState(s, f.prescription))
  {
    if s.recovery.None? {
      assert LeftBehind(rt, AttemptState(s, f.prescription), f.transition);
    } else {
      var u :| LeftBehind(rt, s, u);
      assert LeftBehind(rt, AttemptState(s, f.prescription), u);
    }
  }

  lemma BegunOneMore<V>(m: Machine<V>, p: Prescription<V>)
    requires BegunInOrder(m) && p.body.freshness.revision == Accounted(m)
    ensures var begun := m.begun + [p];
      && (forall i :: 0 <= i < |begun| ==> begun[i].body.freshness.revision < Accounted(m) + 1)
      && (forall i, j :: 0 <= i < j < |begun| ==> begun[i].body.freshness.revision < begun[j].body.freshness.revision)
  {
  }

  lemma InterruptKeeps<V>(rt: Runtime, m: Machine<V>)
    requires Inv(rt, m) && m.flight.Some?
    ensures Inv(rt, Interrupted(m))
  {
    assert Accounted(Interrupted(m)) == Accounted(m);
  }

  lemma TargetSound<V>(rt: Runtime, f: Flight<V>)
    requires ValidRuntime(rt) && Sound(rt, f)
    ensures StateSound(rt, TargetState(f))
  {
    TransitionValid(rt, f.transition);
  }

  function Landed<V>(m: Machine<V>, target: ControlState<V>, r: Receipt<V>): Machine<V> {
    m.(state := target, receipts := m.receipts + [r], flight := None)
  }

  lemma Land<V>(rt: Runtime, m: Machine<V>, target: ControlState<V>, r: Receipt<V>)
    requires Inv(rt, m) && m.flight.Some? && StateSound(rt, target) && target.recovery.None?
    requires target.instance == m.state.instance && ReceiptOf(rt, m.state.instance, r)
    requires r.body.prior + 1 == Accounted(m) && TwoSteps(r) && target.revision == r.body.result
    ensures Inv(rt, Landed(m, target, r))
  {
    LandCounts(m, target, r);
    LandSpaces(m, target, r);
  }

  lemma LandCounts<V>(m: Machine<V>, target: ControlState<V>, r: Receipt<V>)
    requires RevisionIs(m) && BegunInOrder(m) && m.flight.Some?
    requires r.body.prior + 1 == Accounted(m) && TwoSteps(r) && target.revision == r.body.result
    ensures RevisionIs(Landed(m, target, r)) && BegunInOrder(Landed(m, target, r))
  {
    assert Accounted(Landed(m, target, r)) == Accounted(m) + 1;
  }

  lemma LandSpaces<V>(m: Machine<V>, target: ControlState<V>, r: Receipt<V>)
    requires ReceiptsSpaced(m) && m.flight.Some?
    requires r.body.prior + 1 == Accounted(m) < REVISIONS && TwoSteps(r)
    ensures ReceiptsSpaced(Landed(m, target, r))
  {
    assert Accounted(Landed(m, target, r)) == Accounted(m) + 1;
    SpacedOneMore(m, r);
  }

  lemma FlightRevisions<V>(rt: Runtime, m: Machine<V>, e: Outcome<V>)
    requires Inv(rt, m) && m.flight.Some? && Commits(m.flight.value, e)
    ensures var r := CommittedReceipt(m.flight.value, e);
      && r.body.prior + 1 == Accounted(m) && TwoSteps(r) && TargetState(m.flight.value).revision == r.body.result
      && TargetState(m.flight.value).instance == m.state.instance && ReceiptOf(rt, m.state.instance, r)
  {
  }

  lemma CommitKeeps<V>(rt: Runtime, m: Machine<V>, e: Outcome<V>)
    requires ValidRuntime(rt) && Inv(rt, m) && m.flight.Some? && Commits(m.flight.value, e)
    ensures Inv(rt, Act(rt, m, Finish(e)))
  {
    TargetSound(rt, m.flight.value);
    FlightRevisions(rt, m, e);
    Land(rt, m, TargetState(m.flight.value), CommittedReceipt(m.flight.value, e));
  }

  lemma SpacedOneMore<V>(m: Machine<V>, r: Receipt<V>)
    requires ReceiptsSpaced(m) && m.flight.Some?
    requires r.body.prior + 1 == Accounted(m) < REVISIONS && TwoSteps(r)
    ensures Spaced(m.receipts + [r])
  {
    var more, n := m.receipts + [r], |m.receipts|;
    forall i, j | 0 <= i < j < |more| ensures more[i].body.prior + 2 * (j - i) <= more[j].body.prior {
      if j == n {
        assert i < n - 1 ==> m.receipts[i].body.prior + 2 * (n - 1 - i) <= m.receipts[n - 1].body.prior;
      } else {
        assert more[i] == m.receipts[i] && more[j] == m.receipts[j];
      }
    }
  }

  lemma FinishKeeps<V>(rt: Runtime, m: Machine<V>, e: Outcome<V>)
    requires ValidRuntime(rt) && Inv(rt, m) && m.flight.Some?
    ensures Inv(rt, Act(rt, m, Finish(e)))
  {
    if Commits(m.flight.value, e) { CommitKeeps(rt, m, e); } else { InterruptKeeps(rt, m); }
  }

  lemma ActKeeps<V>(rt: Runtime, m: Machine<V>, a: Action<V>)
    requires ValidRuntime(rt) && Inv(rt, m)
    ensures Inv(rt, Act(rt, m, a))
  {
    match a
    case Begin(o, q, p, clock, admits) =>
      if m.flight.None? { BeginActKeeps(rt, m, o, q, p, clock, admits); }
    case Finish(e) =>
      if m.flight.Some? { FinishKeeps(rt, m, e); }
    case Interrupt =>
      if m.flight.Some? { InterruptKeeps(rt, m); }
  }

  lemma {:induction false} RunKeeps<V>(rt: Runtime, s: ControlState<V>, actions: seq<Action<V>>)
    requires ValidRuntime(rt) && Initial(rt, s)
    ensures Inv(rt, Run(rt, s, actions))
  {
    if actions != [] {
      RunKeeps(rt, s, actions[..|actions| - 1]);
      ActKeeps(rt, Run(rt, s, actions[..|actions| - 1]), actions[|actions| - 1]);
    }
  }

  // ----- Revisions and attempts -----

  /** Over every run the revision counts two for each commit and one for each
      other attempt. */
  lemma RevisionAccounting<V>(rt: Runtime, s: ControlState<V>, actions: seq<Action<V>>)
    requires ValidRuntime(rt) && Initial(rt, s)
    ensures var m := Run(rt, s, actions);
      var total := 1 + 2 * |m.receipts| + m.interrupted + InProgress(m);
      total <= REVISIONS && m.state.revision == if total == REVISIONS then 0 else total
  {
    RunKeeps(rt, s, actions);
  }

  /** Over every run the effect of a prescription is begun at most once. */
  lemma BegunOnce<V>(rt: Runtime, s: ControlState<V>, actions: seq<Action<V>>)
    requires ValidRuntime(rt) && Initial(rt, s)
    ensures Distinct(Run(rt, s, actions).begun)
  {
    RunKeeps(rt, s, actions);
  }

  /** The receipt names the prescription and transition of the flight, what it
      started from, and the state it led to. */
  ghost predicate ReceiptTells<V>(f: Flight<V>, after: ControlState<V>, r: Receipt<V>) {
    && r.body.prescription == f.prescription.id && r.body.transition == f.transition.id
    && r.body.prior == f.prior.revision && r.body.result == after.revision && r.body.binding == after.binding
    && r.body.before == f.observation.fingerprint && r.body.authority == f.authority.fingerprint
    && ValidReceipt(r)
  }

  /** The step from m to next adds no receipt and moves nothing, or commits
      what was in flight. */
  ghost predicate MovesByCommit<V>(rt: Runtime, m: Machine<V>, next: Machine<V>) {
    if |next.receipts| == |m.receipts| then
      next.receipts == m.receipts && next.state.mode == m.state.mode && next.state.binding == m.state.binding
    else
      && m.flight.Some? && m.flight.value.transition in Transitions(rt)
      && next.state.mode == m.flight.value.transition.targetMode && next.state.recovery.None?
      && (m.flight.value.transition.mutation == P.Preserve ==> next.state.binding == m.state.binding)
      && (m.flight.value.transition.mutation == P.Clear ==> next.state.binding.None?)
      && (m.flight.value.transition.mutation == P.Bind && m.flight.value.objective.Some? ==>
        next.state.binding == Some(BindingOf(m.flight.value.objective.value)))
      && |next.receipts| == |m.receipts| + 1 && next.receipts[..|m.receipts|] == m.receipts
      && ReceiptTells(m.flight.value, next.state, next.receipts[|m.receipts|])
  }

  /** In every run only a commit changes the mode or the objective binding, or
      adds a receipt; it takes the mode its transition declares. */
  lemma OnlyCommitsMove<V>(rt: Runtime, s: ControlState<V>, actions: seq<Action<V>>, a: Action<V>)
    requires ValidRuntime(rt) && Initial(rt, s)
    ensures MovesByCommit(rt, Run(rt, s, actions), Act(rt, Run(rt, s, actions), a))
  {
    RunKeeps(rt, s, actions);
    OneStepMoves(rt, Run(rt, s, actions), a);
  }

  lemma OneStepMoves<V>(rt: Runtime, m: Machine<V>, a: Action<V>)
    requires FlightSound(rt, m)
    ensures MovesByCommit(rt, m, Act(rt, m, a))
  {
  }

  // ----- Freshness -----

  /** As long as its authority can be presented when it is checked, an attempt
      begins exactly with the prescription that is resolved then: applying
      against an unchanged world is never refused as stale, and anything else
      always is. */
  lemma BeginsExactlyWhatResolves<V>(rt: Runtime, s: ControlState<V>, o: Observation<V>, q: Request,
                                     p: Prescription<V>, clock: Clock, admits: Evaluation<V> -> Answer)
    requires ValidRuntime(rt)
    ensures Launch(rt, s, o, q, p, clock, admits).Ok? <==>
      Presentable(q.authority, clock.checked) && Resolves(rt, s, o, q, p, clock.resolved, admits) &&
        s.revision + 1 < REVISIONS
  {
    if Launch(rt, s, o, q, p, clock, admits).Ok? { LaunchedResolves(rt, s, o, q, p, clock, admits); }
    if Presentable(q.authority, clock.checked) && Resolves(rt, s, o, q, p, clock.resolved, admits) &&
      s.revision + 1 < REVISIONS {
      ResolvedLaunches(rt, s, o, q, p, clock, admits);
    }
  }

  ghost predicate Resolves<V>(rt: Runtime, s: ControlState<V>, o: Observation<V>, q: Request, p: Prescription<V>,
                              now: Time, admits: Evaluation<V> -> Answer) {
    var r := Resolved(rt, s, o, q, now, admits);
    r.Some? && r.value.prescription == Some(p)
  }

  lemma LaunchedResolves<V>(rt: Runtime, s: ControlState<V>, o: Observation<V>, q: Request, p: Prescription<V>,
                            clock: Clock, admits: Evaluation<V> -> Answer)
    requires ValidRuntime(rt) && Launch(rt, s, o, q, p, clock, admits).Ok?
    ensures Resolves(rt, s, o, q, p, clock.resolved, admits) && s.revision + 1 < REVISIONS
  {
    PrescriptionsIdentified(rt, s, o, q, clock.resolved, admits);
    IdentifiedResolves(rt, s, o, q, p, clock, admits);
  }

  lemma IdentifiedResolves<V>(rt: Runtime, s: ControlState<V>, o: Observation<V>, q: Request, p: Prescription<V>,
                              clock: Clock, admits: Evaluation<V> -> Answer)
    requires Launch(rt, s, o, q, p, clock, admits).Ok?
    requires var r := Resolved(rt, s, o, q, clock.resolved, admits);
      (r.Some? && r.value.prescription.Some?) ==>
        r.value.prescription.value.id == HashOf(r.value.prescription.value.body)
    ensures Resolves(rt, s, o, q, p, clock.resolved, admits) && s.revision + 1 < REVISIONS
  {
    AttemptCounts(s, p);
  }

  lemma AttemptCounts<V>(s: ControlState<V>, p: Prescription<V>)
    ensures ValidState(AttemptState(s, p)) ==> s.revision + 1 < REVISIONS
    ensures (ValidState(s) && P.QualifiedId(p.body.transition) && p.id.HashOf? && s.revision + 1 < REVISIONS) ==>
      ValidState(AttemptState(s, p))
  {
    assert Next(s.revision) == if s.revision + 1 == REVISIONS then 0 else s.revision + 1;
  }

  lemma PrescriptionsIdentified<V>(rt: Runtime, s: ControlState<V>, o: Observation<V>, q: Request, now: Time,
                                   admits: Evaluation<V> -> Answer)
    requires ValidRuntime(rt)
    ensures var r := Resolved(rt, s, o, q, now, admits);
      (r.Some? && r.value.prescription.Some?) ==>
        r.value.prescription.value.id == HashOf(r.value.prescription.value.body)
  {
    var r := Resolved(rt, s, o, q, now, admits);
    if r.Some? && r.value.prescription.Some? { var t := ResolvedPassed(rt, s, o, q, now, admits); }
  }

  lemma ResolvedIsCurrent<V>(rt: Runtime, s: ControlState<V>, o: Observation<V>, q: Request, t: P.Transition,
                             objective: Option<Objective>, required: seq<string>)
    requires ValidRuntime(rt) && Resolvable(rt, s, o, q) && (t.mutation == P.Bind ==> objective.Some?)
    ensures var a := AuthorityOf(q.authority); Current(Prescribe(rt, s, o, objective, a, t, required), s, o, a)
  {
  }

  lemma FlightExists<V>(rt: Runtime, s: ControlState<V>, o: Observation<V>, q: Request, p: Prescription<V>,
                        t: P.Transition)
    requires s.revision + 1 < REVISIONS && ValidState(s) && p.id.HashOf? && P.QualifiedId(t.id)
    requires t in Transitions(rt) && t.id == p.body.transition && t == Lookup(Transitions(rt), t.id)
    requires Required(rt, t).Some?
    ensures FlightFor(rt, s, o, q, p).Ok?
  {
    AttemptCounts(s, p);
  }

  lemma ResolvedLaunches<V>(rt: Runtime, s: ControlState<V>, o: Observation<V>, q: Request, p: Prescription<V>,
                            clock: Clock, admits: Evaluation<V> -> Answer)
    requires ValidRuntime(rt) && s.revision + 1 < REVISIONS
    requires Presentable(q.authority, clock.checked) && Resolves(rt, s, o, q, p, clock.resolved, admits)
    ensures Launch(rt, s, o, q, p, clock, admits).Ok?
  {
    var id := ResolvedDecides(rt, s, o, q, clock.resolved, admits);
    var t := ResolvedPassed(rt, s, o, q, clock.resolved, admits);
    ResolvedIsCurrent(rt, s, o, q, t, ObjectiveFor(s, q.objective, t).value, Required(rt, t).value);
    TransitionNamed(rt, t);
    FlightExists(rt, s, o, q, p, t);
  }

  /** The clock matters only through the authority it lets expire. */
  lemma ResolvedLater<V>(rt: Runtime, s: ControlState<V>, o: Observation<V>, q: Request, now: Time, later: Time,
                         admits: Evaluation<V> -> Answer)
    requires Presentable(q.authority, now) && Presentable(q.authority, later)
    ensures Resolved(rt, s, o, q, now, admits) == Resolved(rt, s, o, q, later, admits)
  {
  }

  /** The kernel never refuses the receipt it builds itself, except for a
      missing time or an unidentified target observation. */
  lemma OwnReceiptValid<V>(rt: Runtime, f: Flight<V>, facts: seq<EffectFact>, target: Observation<V>, now: Time)
    requires ValidRuntime(rt) && Sound(rt, f) && facts != []
    ensures ValidReceipt(ReceiptFor(f, facts, target, now)) <==> HashShaped(target.fingerprint) && now != 0
  {
    TransitionNamed(rt, f.transition);
    assert |Sort(FactLess, facts)| == |facts|;
    PriorSound(rt, f);
  }

  lemma TransitionNamed(rt: Runtime, t: P.Transition)
    requires ValidRuntime(rt) && t in Transitions(rt)
    ensures P.QualifiedId(t.id)
  {
    TransitionValid(rt, t);
  }

  lemma PriorSound<V>(rt: Runtime, f: Flight<V>)
    requires Sound(rt, f)
    ensures P.SemanticId(f.prior.instance) && f.prior.revision != 0 && ValidIdentity(f.prior.program)
    ensures f.prescription.id.HashOf? && f.authority.fingerprint.HashOf? && HashShaped(f.observation.fingerprint)
  {
  }

  // ----- Recovery -----

  /** While recovery is pending, this transition is declared to recover what
      was interrupted, and only the domain and authority can keep it back. */
  ghost predicate WayOut<V>(rt: Runtime, s: ControlState<V>, u: P.Transition) {
    && u in Transitions(rt) && s.mode in u.sourceModes && RecoveryCompatible(s, u)
    && u.mutation == P.Preserve && u.scope != P.BoundExact && !u.scope.OtherScope?
  }

  /** In every reachable state with recovery pending, the recorded transition is
      a non-recovery one enabled in the current mode, and some declared
      recoverer passes the mode, recovery and objective filters. */
  lemma RecoveryHasWayOut<V>(rt: Runtime, s: ControlState<V>, actions: seq<Action<V>>)
    returns (t: P.Transition, u: P.Transition)
    requires ValidRuntime(rt) && Initial(rt, s) && Run(rt, s, actions).state.recovery.Some?
    ensures LeftBehind(rt, Run(rt, s, actions).state, t) && P.Recovers(u, t) && WayOut(rt, Run(rt, s, actions).state, u)
  {
    RunKeeps(rt, s, actions);
    var m := Run(rt, s, actions);
    t :| LeftBehind(rt, m.state, t);
    u := P.RecoveryCoverage(rt.program.declaration, t);
    TransitionValid(rt, u);
  }

  lemma FreshLast(ts: seq<P.Transition>, u: P.Transition)
    requires ts != [] && P.DistinctIds(ts) && ts[|ts| - 1] == u
    ensures u !in ts[..|ts| - 1]
  {
    forall i | 0 <= i < |ts| - 1 ensures ts[i] != u { assert ts[i].id != ts[|ts| - 1].id; }
  }

  lemma CandidatesLast<V>(rt: Runtime, s: ControlState<V>, o: Observation<V>, q: Request,
                          admits: Evaluation<V> -> Answer, ts: seq<P.Transition>, t: P.Transition)
    ensures Judge(rt, s, o, q, admits, t) == Rejected ==>
      Candidates(rt, s, o, q, admits, ts + [t]) == Candidates(rt, s, o, q, admits, ts)
    ensures Judge(rt, s, o, q, admits, t).Admitted? && Candidates(rt, s, o, q, admits, ts) == Some([]) ==>
      Candidates(rt, s, o, q, admits, ts + [t]) == Some([Judge(rt, s, o, q, admits, t).candidate])
  {
    var all, none: seq<R.Candidate> := ts + [t], [];
    assert all[..|all| - 1] == ts && all[|all| - 1] == t;
    assert forall c: R.Candidate :: none + [c] == [c];
  }

  /** When every other transition is rejected, one candidate is left. */
  lemma {:induction false} OnlyAdmitted<V>(rt: Runtime, s: ControlState<V>, o: Observation<V>, q: Request,
                                           admits: Evaluation<V> -> Answer, ts: seq<P.Transition>, u: P.Transition)
    requires Judge(rt, s, o, q, admits, u).Admitted? && P.DistinctIds(ts)
    requires forall t :: t in ts && t != u ==> Judge(rt, s, o, q, admits, t) == Rejected
    ensures Candidates(rt, s, o, q, admits, ts)
      == Some(if u in ts then [Judge(rt, s, o, q, admits, u).candidate] else [])
  {
    if ts != [] {
      var n := |ts| - 1;
      assert ts == ts[..n] + [ts[n]];
      OnlyAdmitted(rt, s, o, q, admits, ts[..n], u);
      CandidatesLast(rt, s, o, q, admits, ts[..n], ts[n]);
      if ts[n] == u { FreshLast(ts, u); }
    }
  }

  lemma OtherThanRequested<V>(rt: Runtime, s: ControlState<V>, o: Observation<V>, q: Request,
                              admits: Evaluation<V> -> Answer, t: P.Transition)
    requires q.requested != "" && t.id != q.requested
    ensures Judge(rt, s, o, q, admits, t) == Rejected
  {
  }

  lemma OnlyRequested<V>(rt: Runtime, s: ControlState<V>, o: Observation<V>, q: Request,
                         admits: Evaluation<V> -> Answer, ts: seq<P.Transition>, u: P.Transition)
    requires q.requested == u.id != "" && Judge(rt, s, o, q, admits, u).Admitted?
    requires P.DistinctIds(ts) && forall t :: t in ts && t.id == u.id ==> t == u
    ensures Candidates(rt, s, o, q, admits, ts)
      == Some(if u in ts then [Judge(rt, s, o, q, admits, u).candidate] else [])
  {
    forall t | t in ts && t != u ensures Judge(rt, s, o, q, admits, t) == Rejected {
      OtherThanRequested(rt, s, o, q, admits, t);
    }
    OnlyAdmitted(rt, s, o, q, admits, ts, u);
  }

  lemma OneCandidate(q: R.Question, c: R.Candidate)
    requires q.requested == c.id != "" && R.Authorized(c, q.available)
    ensures R.Decide(q, [c]).kind == R.Prescribed && R.Decide(q, [c]).transition == c.id
  {
    R.AllEligible(q, [c]);
    assert R.UniqueBest(R.EligibleOf(q, [c]), q.available, 0);
    R.AnswerIsDecided(q, [c], c);
  }

  lemma RequestedAlone<V>(rt: Runtime, s: ControlState<V>, o: Observation<V>, q: Request,
                          admits: Evaluation<V> -> Answer, u: P.Transition)
    requires ValidRuntime(rt) && u in Transitions(rt) && q.requested == u.id
    requires Judge(rt, s, o, q, admits, u).Admitted?
    ensures Candidates(rt, s, o, q, admits, Transitions(rt)) == Some([Judge(rt, s, o, q, admits, u).candidate])
  {
    P.CanonicalIdsDistinct(rt.program.declaration);
    TransitionValid(rt, u);
    forall t | t in Transitions(rt) && t.id == u.id ensures t == u { UniqueId(rt, t, u); }
    OnlyRequested(rt, s, o, q, admits, Transitions(rt), u);
  }

  lemma RequestedDecides<V>(rt: Runtime, s: ControlState<V>, o: Observation<V>, q: Request,
                            admits: Evaluation<V> -> Answer, u: P.Transition)
    requires ValidRuntime(rt) && u in Transitions(rt) && q.requested == u.id && Judge(rt, s, o, q, admits, u).Admitted?
    requires Required(rt, u).Some?
    requires forall c :: c in Required(rt, u).value ==> c in AuthorityOf(q.authority).capabilities
    ensures Decides(rt, s, o, q, admits, u.id)
  {
    RequestedAlone(rt, s, o, q, admits, u);
    TransitionValid(rt, u);
    OneCandidate(QuestionOf(q, AuthorityOf(q.authority)), Judge(rt, s, o, q, admits, u).candidate);
  }

  /** A requested transition that passes the filters is prescribed, given the
      authority it requires. */
  lemma RequestedIsPrescribed<V>(rt: Runtime, s: ControlState<V>, o: Observation<V>, q: Request, now: Time,
                                 admits: Evaluation<V> -> Answer, u: P.Transition)
    requires ValidRuntime(rt) && u in Transitions(rt) && q.requested == u.id && Resolvable(rt, s, o, q)
    requires Presentable(q.authority, now) && Judge(rt, s, o, q, admits, u).Admitted?
    requires ObjectiveFor(s, q.objective, u).Some? && Required(rt, u).Some?
    requires forall c :: c in Required(rt, u).value ==> c in AuthorityOf(q.authority).capabilities
    ensures exists p :: Resolves(rt, s, o, q, p, now, admits) && p.body.transition == u.id
  {
    RequestedDecides(rt, s, o, q, admits, u);
    UniqueId(rt, Lookup(Transitions(rt), u.id), u);
    TransitionNamed(rt, u);
    var p := PrescriptionExists(rt, s, o, q, u);
    DecidedResolves(rt, s, o, q, p, now, admits, u.id);
  }

  /** Requesting the way out is prescribed as soon as the domain admits it and
      the presented authority suffices. */
  lemma WayOutIsPrescribed<V>(rt: Runtime, s: ControlState<V>, o: Observation<V>, q: Request, now: Time,
                              admits: Evaluation<V> -> Answer, u: P.Transition)
    requires ValidRuntime(rt) && WayOut(rt, s, u) && s.recovery.Some?
    requires Resolvable(rt, s, o, q) && q.requested == u.id && Presentable(q.authority, now)
    requires ObjectiveFor(s, q.objective, u).Some?
    requires admits(Evaluation(s, o, ObjectiveFor(s, q.objective, u).value, u)) == Allowed
    requires Required(rt, u).Some?
    requires forall c :: c in Required(rt, u).value ==> c in AuthorityOf(q.authority).capabilities
    ensures exists p :: Resolves(rt, s, o, q, p, now, admits) && p.body.transition == u.id
  {
    JudgedAdmitted(rt, s, o, q, admits, u);
    RequestedIsPrescribed(rt, s, o, q, now, admits, u);
  }

  /** What no filter keeps back becomes a candidate. */
  lemma PassesFilters<V>(rt: Runtime, s: ControlState<V>, o: Observation<V>, q: Request,
                         admits: Evaluation<V> -> Answer, u: P.Transition)
    requires (q.requested == "" || q.requested == u.id) && s.mode in u.sourceModes && RecoveryCompatible(s, u)
    requires ObjectiveFor(s, q.objective, u).Some? && Required(rt, u).Some?
    requires admits(Evaluation(s, o, ObjectiveFor(s, q.objective, u).value, u)) == Allowed
    ensures Judge(rt, s, o, q, admits, u) == Admitted(R.Candidate(u.id, 0, u.priority, true, Required(rt, u).value, []))
  {
  }

  lemma JudgedAdmitted<V>(rt: Runtime, s: ControlState<V>, o: Observation<V>, q: Request,
                          admits: Evaluation<V> -> Answer, u: P.Transition)
    requires WayOut(rt, s, u) && q.requested == u.id && Required(rt, u).Some?
    requires ObjectiveFor(s, q.objective, u).Some?
    requires admits(Evaluation(s, o, ObjectiveFor(s, q.objective, u).value, u)) == Allowed
    ensures Judge(rt, s, o, q, admits, u).Admitted?
  {
    PassesFilters(rt, s, o, q, admits, u);
  }

  lemma DecidedResolves<V>(rt: Runtime, s: ControlState<V>, o: Observation<V>, q: Request, p: Prescription<V>,
                           now: Time, admits: Evaluation<V> -> Answer, id: string)
    requires Resolvable(rt, s, o, q) && !Settled(rt, s, q) && Presentable(q.authority, now)
    requires Decides(rt, s, o, q, admits, id)
    requires PrescriptionFor(rt, s, o, q, AuthorityOf(q.authority), id) == Some(p)
    ensures Resolves(rt, s, o, q, p, now, admits)
  {
  }

  lemma PrescriptionExists<V>(rt: Runtime, s: ControlState<V>, o: Observation<V>, q: Request, u: P.Transition)
    returns (p: Prescription<V>)
    requires u in Transitions(rt) && u == Lookup(Transitions(rt), u.id) && Resolvable(rt, s, o, q)
    requires ObjectiveFor(s, q.objective, u).Some? && Required(rt, u).Some?
    ensures PrescriptionFor(rt, s, o, q, AuthorityOf(q.authority), u.id) == Some(p) && p.body.transition == u.id
  {
    p := PrescriptionFor(rt, s, o, q, AuthorityOf(q.authority), u.id).value;
  }

  /** The way out needs no objective and is never held back by one. */
  lemma WayOutObjective<V>(rt: Runtime, s: ControlState<V>, supplied: Option<Objective>, u: P.Transition)
    requires WayOut(rt, s, u)
    ensures ObjectiveFor(s, supplied, u).Some?
  {
  }

  // ----- The receipt chain -----

  /** Each receipt starts where the one before it ended, and the last ends at
      the current revision. */
  ghost predicate Chained<V>(receipts: seq<Receipt<V>>, revision: Revision) {
    && (forall i :: 1 <= i < |receipts| ==> receipts[i].body.prior == receipts[i - 1].body.result)
    && (receipts != [] ==> receipts[|receipts| - 1].body.result == revision)
  }

  lemma {:induction false} ChainedCounts<V>(receipts: seq<Receipt<V>>, k: nat)
    requires Spaced(receipts) && k < |receipts|
    requires forall i :: 1 <= i < |receipts| ==> receipts[i].body.prior == receipts[i - 1].body.result
    ensures receipts[k].body.prior == receipts[0].body.prior + 2 * k
  {
    if k > 0 {
      ChainedCounts(receipts, k - 1);
      assert receipts[k - 1].body.prior + 2 <= receipts[k].body.prior;
      assert TwoSteps(receipts[k - 1]) && TwoSteps(receipts[k]);
    }
  }

  lemma TightIsChained<V>(receipts: seq<Receipt<V>>)
    requires receipts != [] && Spaced(receipts)
    requires receipts[|receipts| - 1].body.prior <= receipts[0].body.prior + 2 * (|receipts| - 1)
    ensures forall i :: 1 <= i < |receipts| ==> receipts[i].body.prior == receipts[i - 1].body.result
  {
    forall i | 1 <= i < |receipts| ensures receipts[i].body.prior == receipts[i - 1].body.result {
      TightAt(receipts, i);
    }
  }

  lemma SpacedBetween<V>(receipts: seq<Receipt<V>>, i: nat, j: nat)
    requires Spaced(receipts) && i <= j < |receipts|
    ensures receipts[i].body.prior + 2 * (j - i) <= receipts[j].body.prior
  {
  }

  lemma TightAt<V>(receipts: seq<Receipt<V>>, i: nat)
    requires Spaced(receipts) && 1 <= i < |receipts|
    requires receipts[|receipts| - 1].body.prior <= receipts[0].body.prior + 2 * (|receipts| - 1)
    ensures receipts[i].body.prior == receipts[i - 1].body.result
  {
    assert TwoSteps(receipts[i - 1]) && TwoSteps(receipts[i]);
    SpacedBetween(receipts, 0, i - 1);
    SpacedBetween(receipts, i - 1, i);
    SpacedBetween(receipts, i, |receipts| - 1);
  }

  lemma ChainedIsTight<V>(rt: Runtime, m: Machine<V>)
    requires Inv(rt, m) && m.receipts != [] && Chained(m.receipts, m.state.revision)
    ensures m.flight.None? && m.interrupted == m.lead
  {
    var n := |m.receipts| - 1;
    ChainedCounts(m.receipts, n);
    assert TwoSteps(m.receipts[n]);
  }

  lemma TightMachine<V>(rt: Runtime, m: Machine<V>)
    requires Inv(rt, m) && m.receipts != [] && m.flight.None? && m.interrupted == m.lead
    ensures Chained(m.receipts, m.state.revision)
  {
    var n := |m.receipts| - 1;
    TightIsChained(m.receipts);
    assert n > 0 ==> m.receipts[0].body.prior + 2 * n <= m.receipts[n].body.prior;
    assert TwoSteps(m.receipts[n]);
  }

  /** A receipt chain is intact exactly when nothing is in flight and no attempt
      was interrupted after the first commit. */
  lemma ChainedExactly<V>(rt: Runtime, m: Machine<V>)
    requires Inv(rt, m) && m.receipts != []
    ensures Chained(m.receipts, m.state.revision) <==> m.flight.None? && m.interrupted == m.lead
  {
    if Chained(m.receipts, m.state.revision) { ChainedIsTight(rt, m); }
    if m.flight.None? && m.interrupted == m.lead { TightMachine(rt, m); }
  }
}
