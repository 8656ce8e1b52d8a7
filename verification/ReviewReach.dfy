/** What a review can always still do: every prescription that resolves at rest
    commits when its attempt is left alone, and from every reachable state the
    review can be brought to convergence. */
module ReviewReach {
  import opened Base
  import D = DiffLines
  import opened ReviewLaw
  import opened ReviewStore
  import opened ReviewLedger
  import opened ReviewMachine
  import K = KernelRuntime
  import A = KernelApply
  import M = KernelMachine
  import P = KernelProgram
  import S = ReviewSafety
  import Results = ReviewResults
  import Progress = ReviewProgress

  // ----- Events in a row -----

  /** A machine after some events. */
  ghost function After(law: Law, m: Machine, events: seq<Event>): Machine {
    if events == [] then m
    else Step(law, After(law, m, events[..|events| - 1]), events[|events| - 1])
  }

  lemma AfterOne(law: Law, m: Machine, events: seq<Event>, e: Event)
    ensures After(law, m, events + [e]) == Step(law, After(law, m, events), e)
  {
    assert (events + [e])[..|events|] == events;
  }

  lemma {:induction false} AfterBoth(law: Law, m: Machine, events: seq<Event>, more: seq<Event>)
    ensures After(law, m, events + more) == After(law, After(law, m, events), more)
  {
    if more == [] {
      assert events + more == events;
    } else {
      var n := |more| - 1;
      AfterBoth(law, m, events, more[..n]);
      assert events + more == (events + more[..n]) + [more[n]];
      AfterOne(law, m, events + more[..n], more[n]);
    }
  }

  lemma {:induction false} RunAfter(law: Law, w: World, events: seq<Event>, more: seq<Event>)
    ensures Run(law, w, events + more) == After(law, Run(law, w, events), more)
  {
    if more == [] {
      assert events + more == events;
    } else {
      var n := |more| - 1;
      RunAfter(law, w, events, more[..n]);
      assert (events + more)[..|events + more| - 1] == events + more[..n];
    }
  }

  lemma RunFromStart(law: Law, w: World, events: seq<Event>)
    ensures Run(law, w, events) == After(law, Start(law, w), events)
  {
    var none: seq<Event> := [];
    RunAfter(law, w, none, events);
    assert none + events == events;
  }

  /** An attempt that is cut off as soon as it has begun. */
  function CutAttempt(q: K.Request, p: K.Prescription<Observed>, clock: A.Clock): seq<Event> {
    [Begin(q, p, clock), Interrupt]
  }

  lemma AfterCutAttempt(law: Law, m: Machine, q: K.Request, p: K.Prescription<Observed>, clock: A.Clock)
    ensures After(law, m, CutAttempt(q, p, clock)) == Step(law, Beginning(law, m, q, p, clock), Interrupt)
  {
    var none: seq<Event> := [];
    AfterOne(law, m, none, Begin(q, p, clock));
    AfterOne(law, m, [Begin(q, p, clock)], Interrupt);
    assert none + [Begin(q, p, clock)] == [Begin(q, p, clock)];
    assert [Begin(q, p, clock)] + [Interrupt] == CutAttempt(q, p, clock);
  }

  function Performances(n: nat): seq<Event> { seq(n, _ => Perform) }

  lemma {:induction false} AfterPerformances(law: Law, m: Machine, n: nat)
    ensures After(law, m, Performances(n)) == Progress.Performs(m, n)
  {
    if n > 0 {
      AfterPerformances(law, m, n - 1);
      assert Performances(n) == Performances(n - 1) + [Perform];
      AfterOne(law, m, Performances(n - 1), Perform);
    }
  }

  /** An attempt from its beginning to its end. */
  function Attempt(q: K.Request, p: K.Prescription<Observed>, clock: A.Clock, writes: nat, at: K.Time): seq<Event> {
    [Begin(q, p, clock), Load] + Performances(writes) + [Finish(at)]
  }

  lemma AfterLoading(law: Law, m: Machine, q: K.Request, p: K.Prescription<Observed>, clock: A.Clock)
    ensures After(law, m, [Begin(q, p, clock), Load]) == Loading(law, Beginning(law, m, q, p, clock))
  {
    var none: seq<Event> := [];
    AfterOne(law, m, none, Begin(q, p, clock));
    AfterOne(law, m, [Begin(q, p, clock)], Load);
    assert none + [Begin(q, p, clock)] == [Begin(q, p, clock)];
    assert [Begin(q, p, clock)] + [Load] == [Begin(q, p, clock), Load];
  }

  lemma AfterAttempt(law: Law, m: Machine, q: K.Request, p: K.Prescription<Observed>, clock: A.Clock, writes: nat,
                     at: K.Time)
    ensures var loaded := Loading(law, Beginning(law, m, q, p, clock));
      After(law, m, Attempt(q, p, clock, writes, at)) == Step(law, Progress.Performs(loaded, writes), Finish(at))
  {
    var start := [Begin(q, p, clock), Load];
    AfterLoading(law, m, q, p, clock);
    AfterBoth(law, m, start, Performances(writes));
    AfterPerformances(law, After(law, m, start), writes);
    AfterOne(law, m, start + Performances(writes), Finish(at));
  }

  // ----- Reachable states -----

  /** The machine of some run. */
  ghost predicate Reachable(law: Law, m: Machine) {
    exists w: World, events: seq<Event> :: Run(law, w, events) == m
  }

  lemma ReachableKeeps(law: Law, m: Machine)
    requires ValidLaw(law) && Reachable(law, m)
    ensures Inv(law, m)
  {
    var w, events :| Run(law, w, events) == m;
    S.RunKeeps(law, w, events);
  }

  lemma ReachableOn(law: Law, m: Machine, events: seq<Event>)
    requires Reachable(law, m)
    ensures Reachable(law, After(law, m, events))
  {
    var w, before :| Run(law, w, before) == m;
    RunAfter(law, w, before, events);
  }

  // ----- One attempt -----

  /** One commit of the transition and nothing else. */
  ghost predicate CommitsOnce(m: Machine, next: Machine, id: string) {
    && next.k.flight.None? && next.k.state.recovery.None? && next.k.state.mode == TargetOf(id)
    && next.k.state.instance == m.k.state.instance && next.world == m.world
    && |next.k.receipts| == |m.k.receipts| + 1 && next.k.receipts[..|m.k.receipts|] == m.k.receipts
    && next.k.receipts[|m.k.receipts|].body.transition == id
    && next.k.interrupted == m.k.interrupted && next.k.lead == m.k.lead
    && next.k.state.revision == (m.k.state.revision + 2) % K.REVISIONS
    && (Submits(id) ==> Progress.Reviewed(next.disk, m.world.reviewedTree))
  }

  /** The plan of an admitted operation exists on the disk it was observed on. */
  lemma PlanExists(law: Law, disk: Disk, w: World, id: string)
    requires ObserveValue(law, disk, w).Some? && KnownId(id)
    requires Submits(id) ==> Disposition(law.policy, ObserveValue(law, disk, w).value) == Some(id)
    ensures PlanFor(id, ObserveValue(law, disk, w).value, disk).Some?
  {
  }

  lemma Lands(law: Law, m: Machine, next: Machine, f: A.Flight<Observed>, r: Receipt)
    requires m.k.flight.None? && f.prior == m.k.state && Row(f.transition)
    requires next.k == M.Landed(M.TakenOff(m.k, f), A.TargetState(f), r) && next.world == m.world
    requires r.body.transition == f.transition.id
    requires Submits(f.transition.id) ==> Progress.Reviewed(next.disk, m.world.reviewedTree)
    ensures CommitsOnce(m, next, f.transition.id)
  {
    assert K.Next(K.Next(m.k.state.revision)) == (m.k.state.revision + 2) % K.REVISIONS;
  }

  /** The machine once the effect of a launched flight has been loaded. */
  function LoadedFrom(m: Machine, f: A.Flight<Observed>, plan: Plan): Machine {
    S.Launched(m, f).(phase := Running(plan, m.disk, 0))
  }

  lemma LaunchedLoads(law: Law, m: Machine, f: A.Flight<Observed>, v: Observed)
    requires m.k.flight.None? && f.observation == K.Observed(v) && PlanFor(f.transition.id, v, m.disk).Some?
    ensures Loading(law, S.Launched(m, f)) == LoadedFrom(m, f, PlanFor(f.transition.id, v, m.disk).value)
  {
  }

  lemma ObservedTree(law: Law, disk: Disk, w: World)
    requires ObserveValue(law, disk, w).Some?
    ensures ObserveValue(law, disk, w).value.reviewedTree == w.reviewedTree
  {
  }

  lemma BeginsLaunched(law: Law, m: Machine, q: K.Request, p: K.Prescription<Observed>, clock: A.Clock, v: Observed)
    returns (f: A.Flight<Observed>)
    requires S.SoundRuntime(law.runtime) && m.k.flight.None? && ObserveValue(law, m.disk, m.world) == Some(v)
    requires A.Launch(law.runtime, m.k.state, K.Observed(v), q, p, clock, AdmissibleIn(law)).Ok?
    ensures Beginning(law, m, q, p, clock) == S.Launched(m, f) && f.prior == m.k.state && Row(f.transition)
    ensures f.observation == K.Observed(v) && PlanFor(f.transition.id, v, m.disk).Some?
    ensures f.transition.id == p.body.transition
  {
    f := S.LaunchAdmitted(law, m.k.state, v, q, p, clock);
    S.BeginningIsLaunched(law, m, q, p, clock, v, f);
    PlanExists(law, m.disk, m.world, f.transition.id);
  }

  lemma KeptLands(law: Law, loaded: Machine, at: K.Time) returns (next: Machine, r: Receipt)
    requires K.ValidRuntime(law.runtime) && Inv(law, loaded) && Progress.JustLoaded(loaded) && at != 0
    ensures next == Step(law, Progress.Performs(loaded, |loaded.phase.plan.script|), Finish(at))
    ensures next.k == M.Landed(loaded.k, A.TargetState(loaded.k.flight.value), r) && next.world == loaded.world
    ensures r.body.transition == loaded.k.flight.value.transition.id
    ensures var f := loaded.k.flight.value;
      f.observation.value.Some? &&
      (Submits(f.transition.id) ==> Progress.Reviewed(next.disk, f.observation.value.value.reviewedTree))
  {
    var done: Machine;
    done, next, r := Progress.UndisturbedLands(law, loaded, at);
    S.StepFinishes(law, done, Finish(at));
  }

  /** What was just loaded, left alone, lands. */
  lemma LoadedLands(law: Law, loaded: Machine, at: K.Time) returns (next: Machine, r: Receipt)
    requires ValidLaw(law) && Reachable(law, loaded) && Progress.JustLoaded(loaded) && at != 0
    ensures next == Step(law, Progress.Performs(loaded, |loaded.phase.plan.script|), Finish(at))
    ensures next.k == M.Landed(loaded.k, A.TargetState(loaded.k.flight.value), r) && next.world == loaded.world
    ensures r.body.transition == loaded.k.flight.value.transition.id
    ensures var f := loaded.k.flight.value;
      f.observation.value.Some? &&
      (Submits(f.transition.id) ==> Progress.Reviewed(next.disk, f.observation.value.value.reviewedTree))
  {
    S.RuntimeIsSound(law.runtime);
    ReachableKeeps(law, loaded);
    next, r := KeptLands(law, loaded, at);
  }

  lemma LoadedCommits(law: Law, m: Machine, f: A.Flight<Observed>, plan: Plan, at: K.Time)
    requires ValidLaw(law) && Reachable(law, LoadedFrom(m, f, plan)) && at != 0
    requires m.k.flight.None? && f.prior == m.k.state && Row(f.transition)
    requires f.observation.value.Some? && f.observation.value.value.reviewedTree == m.world.reviewedTree
    ensures CommitsOnce(m, Step(law, Progress.Performs(LoadedFrom(m, f, plan), |plan.script|), Finish(at)),
      f.transition.id)
  {
    var next, r := LoadedLands(law, LoadedFrom(m, f, plan), at);
    Lands(law, m, next, f, r);
  }

  lemma LoadedReachable(law: Law, m: Machine, q: K.Request, p: K.Prescription<Observed>, clock: A.Clock)
    requires Reachable(law, m)
    ensures Reachable(law, Loading(law, Beginning(law, m, q, p, clock)))
  {
    AfterLoading(law, m, q, p, clock);
    ReachableOn(law, m, [Begin(q, p, clock), Load]);
  }

  /** A launched attempt that is left alone commits its transition, once. */
  lemma LaunchCommits(law: Law, m: Machine, q: K.Request, p: K.Prescription<Observed>, clock: A.Clock, v: Observed,
                      at: K.Time)
    returns (writes: nat)
    requires ValidLaw(law) && Reachable(law, m) && m.k.flight.None? && at != 0
    requires ObserveValue(law, m.disk, m.world) == Some(v)
    requires A.Launch(law.runtime, m.k.state, K.Observed(v), q, p, clock, AdmissibleIn(law)).Ok?
    ensures CommitsOnce(m, After(law, m, Attempt(q, p, clock, writes, at)), p.body.transition)
  {
    S.RuntimeIsSound(law.runtime);
    var f := BeginsLaunched(law, m, q, p, clock, v);
    ObservedTree(law, m.disk, m.world);
    var plan := PlanFor(f.transition.id, v, m.disk).value;
    LoadedReachable(law, m, q, p, clock);
    LaunchedLoads(law, m, f, v);
    LoadedCommits(law, m, f, plan, at);
    writes := |plan.script|;
    AfterAttempt(law, m, q, p, clock, writes, at);
  }

  // ----- What resolves, commits -----

  /** At rest, with room for two more revisions. */
  ghost predicate AtRest(m: Machine) {
    m.k.flight.None? && 0 < m.k.state.revision && m.k.state.revision + 1 < K.REVISIONS
  }

  /** The request may be presented at both readings of the clock, and resolves
      to a prescription of the transition at the second. */
  ghost predicate Prescribes(law: Law, m: Machine, v: Observed, q: K.Request, clock: A.Clock,
                             p: K.Prescription<Observed>) {
    && K.Presentable(q.authority, clock.checked)
    && M.Resolves(law.runtime, m.k.state, K.Observed(v), q, p, clock.resolved, AdmissibleIn(law))
  }

  lemma PrescribedLaunches(law: Law, m: Machine, v: Observed, q: K.Request, clock: A.Clock,
                           p: K.Prescription<Observed>)
    requires K.ValidRuntime(law.runtime) && AtRest(m) && Prescribes(law, m, v, q, clock, p)
    ensures A.Launch(law.runtime, m.k.state, K.Observed(v), q, p, clock, AdmissibleIn(law)).Ok?
  {
    M.BeginsExactlyWhatResolves(law.runtime, m.k.state, K.Observed(v), q, p, clock, AdmissibleIn(law));
  }

  /** In every reachable state at rest, every prescription that resolves there
      commits, once, when its attempt is begun and left alone. */
  lemma PrescriptionsCommit(law: Law, m: Machine, v: Observed, q: K.Request, clock: A.Clock,
                            p: K.Prescription<Observed>, at: K.Time)
    returns (writes: nat)
    requires ValidLaw(law) && Reachable(law, m) && AtRest(m) && at != 0
    requires ObserveValue(law, m.disk, m.world) == Some(v) && Prescribes(law, m, v, q, clock, p)
    ensures CommitsOnce(m, After(law, m, Attempt(q, p, clock, writes, at)), p.body.transition)
  {
    S.RuntimeIsSound(law.runtime);
    PrescribedLaunches(law, m, v, q, clock, p);
    writes := LaunchCommits(law, m, q, p, clock, v, at);
  }

  lemma ReachableResolves(law: Law, m: Machine, v: Observed, q: K.Request)
    requires ValidLaw(law) && Reachable(law, m) && AtRest(m) && q.instance == m.k.state.instance
    ensures K.Resolvable(law.runtime, m.k.state, K.Observed(v), q)
  {
    ReachableKeeps(law, m);
    Results.KernelReady(law, m, q, v);
  }

  /** In every reachable state at rest that takes submissions, the submission
      the law admits can be committed. */
  lemma SubmissionCommits(law: Law, m: Machine, v: Observed, q: K.Request, clock: A.Clock, id: string, at: K.Time)
    returns (p: K.Prescription<Observed>, writes: nat)
    requires ValidLaw(law) && Reachable(law, m) && AtRest(m) && at != 0
    requires m.k.state.recovery.None? && m.k.state.mode in {UNREVIEWED, FINDINGS_OPEN}
    requires ObserveValue(law, m.disk, m.world) == Some(v) && Disposition(law.policy, v) == Some(id)
    requires K.Presentable(q.authority, clock.checked) && Progress.SubmitRequest(m.k.state, q, clock.resolved)
    ensures CommitsOnce(m, After(law, m, Attempt(q, p, clock, writes, at)), id)
  {
    ReachableResolves(law, m, v, q);
    Progress.ResolveFollowsLaw(law, m.k.state, v, q, clock.resolved, id);
    p :| M.Resolves(law.runtime, m.k.state, K.Observed(v), q, p, clock.resolved, AdmissibleIn(law)) &&
      p.body.transition == id;
    writes := PrescriptionsCommit(law, m, v, q, clock, p, at);
  }

  /** In every reachable state at rest with recovery pending and a readable
      candidate, the recovery can be committed. */
  lemma RecoveryCommits(law: Law, m: Machine, q: K.Request, clock: A.Clock, at: K.Time)
    returns (p: K.Prescription<Observed>, writes: nat)
    requires ValidLaw(law) && Reachable(law, m) && AtRest(m) && at != 0
    requires m.k.state.recovery.Some? && LoadStaged(m.disk) != Torn
    requires K.Presentable(q.authority, clock.checked) && Results.RecoverRequest(m, q, clock.resolved)
    ensures CommitsOnce(m, After(law, m, Attempt(q, p, clock, writes, at)), RECOVER)
  {
    ObservationFails(law, m.disk, m.world);
    var v := ObserveValue(law, m.disk, m.world).value;
    var w, events :| Run(law, w, events) == m;
    Results.RecoveryIsNeverStuck(law, w, events, q, clock.resolved);
    p :| M.Resolves(law.runtime, m.k.state, K.Observed(v), q, p, clock.resolved, AdmissibleIn(law)) &&
      p.body.transition == RECOVER;
    writes := PrescriptionsCommit(law, m, v, q, clock, p, at);
  }

  // ----- Reopening -----

  /** What a reopen command presents. */
  ghost predicate ReopenRequest(m: Machine, q: K.Request, now: K.Time) {
    && q.instance == m.k.state.instance && q.requested == REOPEN && K.Presentable(q.authority, now)
    && HUMAN in K.AuthorityOf(q.authority).capabilities
  }

  lemma ReopenExists(law: Law) returns (t: P.Transition)
    requires FollowsTable(law.runtime)
    ensures t in K.Transitions(law.runtime) && t.id == REOPEN
  {
    t := K.Lookup(K.Transitions(law.runtime), REOPEN);
  }

  lemma ReopenClassified(law: Law, t: P.Transition)
    requires FollowsTable(law.runtime) && t in K.Transitions(law.runtime) && t.id == REOPEN
    ensures law.runtime.classify(t) == Some([HUMAN])
  {
    NotSubmissions();
  }

  lemma ReopenNeeds(law: Law, t: P.Transition, capabilities: seq<string>)
    requires Row(t) && t.id == REOPEN && K.Required(law.runtime, t).Some? && law.runtime.classify(t) == Some([HUMAN])
    requires HUMAN in capabilities
    ensures forall c :: c in K.Required(law.runtime, t).value ==> c in capabilities
  {
    NotSubmissions();
  }

  lemma ReopenAllowed(law: Law, s: Control, v: Observed, objective: Option<K.Objective>, t: P.Transition)
    requires t.operation == REOPEN
    ensures AdmissibleIn(law)(K.Evaluation(s, K.Observed(v), objective, t)) == K.Allowed
  {
    NotSubmissions();
  }

  lemma ReopenAdmitted(law: Law, s: Control, v: Observed, q: K.Request, t: P.Transition)
    requires Row(t) && t.id == REOPEN && s.recovery.None? && SettledMode(s.mode) && q.requested == t.id
    requires K.Required(law.runtime, t).Some?
    ensures K.ObjectiveFor(s, q.objective, t).Some?
    ensures K.Judge(law.runtime, s, K.Observed(v), q, AdmissibleIn(law), t).Admitted?
  {
    NotSubmissions();
    Progress.RowPasses(s, t);
    Progress.NoObjectiveNeeded(s, q.objective, t);
    ReopenAllowed(law, s, v, None, t);
    M.PassesFilters(law.runtime, s, K.Observed(v), q, AdmissibleIn(law), t);
  }

  lemma ReopenPrescribed(law: Law, m: Machine, q: K.Request, now: K.Time, v: Observed, t: P.Transition)
    returns (p: K.Prescription<Observed>)
    requires K.ValidRuntime(law.runtime) && t in K.Transitions(law.runtime) && Row(t) && t.id == REOPEN
    requires law.runtime.classify(t) == Some([HUMAN]) && K.Required(law.runtime, t).Some?
    requires K.Resolvable(law.runtime, m.k.state, K.Observed(v), q) && ReopenRequest(m, q, now)
    requires m.k.state.recovery.None? && SettledMode(m.k.state.mode)
    ensures M.Resolves(law.runtime, m.k.state, K.Observed(v), q, p, now, AdmissibleIn(law))
    ensures p.body.transition == REOPEN
  {
    ReopenAdmitted(law, m.k.state, v, q, t);
    ReopenNeeds(law, t, K.AuthorityOf(q.authority).capabilities);
    M.RequestedIsPrescribed(law.runtime, m.k.state, K.Observed(v), q, now, AdmissibleIn(law), t);
    p :| M.Resolves(law.runtime, m.k.state, K.Observed(v), q, p, now, AdmissibleIn(law)) && p.body.transition == t.id;
  }

  lemma ReopenRow(law: Law) returns (t: P.Transition)
    requires FollowsTable(law.runtime)
    ensures t in K.Transitions(law.runtime) && Row(t) && t.id == REOPEN
    ensures law.runtime.classify(t) == Some([HUMAN]) && K.Required(law.runtime, t).Some?
  {
    S.RuntimeIsSound(law.runtime);
    t := ReopenExists(law);
    ReopenClassified(law, t);
  }

  /** In every reachable settled state at rest, the review can be reopened. */
  lemma ReopeningResolves(law: Law, m: Machine, q: K.Request, clock: A.Clock)
    returns (p: K.Prescription<Observed>)
    requires ValidLaw(law) && Reachable(law, m) && AtRest(m)
    requires m.k.state.recovery.None? && SettledMode(m.k.state.mode) && ObserveValue(law, m.disk, m.world).Some?
    requires K.Presentable(q.authority, clock.checked) && ReopenRequest(m, q, clock.resolved)
    ensures Prescribes(law, m, ObserveValue(law, m.disk, m.world).value, q, clock, p) && p.body.transition == REOPEN
  {
    var v := ObserveValue(law, m.disk, m.world).value;
    ReachableResolves(law, m, v, q);
    S.RuntimeIsSound(law.runtime);
    var t := ReopenRow(law);
    p := ReopenPrescribed(law, m, q, clock.resolved, v, t);
  }

  lemma ReopeningCommits(law: Law, m: Machine, q: K.Request, clock: A.Clock, at: K.Time)
    returns (p: K.Prescription<Observed>, writes: nat)
    requires ValidLaw(law) && Reachable(law, m) && AtRest(m) && at != 0
    requires m.k.state.recovery.None? && SettledMode(m.k.state.mode) && ObserveValue(law, m.disk, m.world).Some?
    requires K.Presentable(q.authority, clock.checked) && ReopenRequest(m, q, clock.resolved)
    ensures CommitsOnce(m, After(law, m, Attempt(q, p, clock, writes, at)), REOPEN)
  {
    p := ReopeningResolves(law, m, q, clock);
    writes := PrescriptionsCommit(law, m, ObserveValue(law, m.disk, m.world).value, q, clock, p, at);
  }

  lemma PrescribedBegins(law: Law, m: Machine, v: Observed, q: K.Request, clock: A.Clock,
                         p: K.Prescription<Observed>)
    returns (f: A.Flight<Observed>)
    requires FollowsTable(law.runtime) && AtRest(m) && ObserveValue(law, m.disk, m.world) == Some(v)
    requires Prescribes(law, m, v, q, clock, p)
    ensures Beginning(law, m, q, p, clock) == S.Launched(m, f)
  {
    S.RuntimeIsSound(law.runtime);
    PrescribedLaunches(law, m, v, q, clock, p);
    f := BeginsLaunched(law, m, q, p, clock, v);
  }

  lemma ReopeningBegins(law: Law, m: Machine, q: K.Request, clock: A.Clock)
    returns (p: K.Prescription<Observed>, f: A.Flight<Observed>)
    requires ValidLaw(law) && Reachable(law, m) && AtRest(m)
    requires m.k.state.recovery.None? && SettledMode(m.k.state.mode) && ObserveValue(law, m.disk, m.world).Some?
    requires K.Presentable(q.authority, clock.checked) && ReopenRequest(m, q, clock.resolved)
    ensures Beginning(law, m, q, p, clock) == S.Launched(m, f)
  {
    p := ReopeningResolves(law, m, q, clock);
    f := PrescribedBegins(law, m, ObserveValue(law, m.disk, m.world).value, q, clock, p);
  }

  // ----- Towards convergence -----

  /** What brings a review to convergence: a clean repository, a candidate for
      it, authority, and the time. */
  datatype Means = Means(world: World, bytes: Bytes, authority: seq<K.AuthorityReceipt>, clock: A.Clock, at: K.Time)

  /** The candidate decodes to an acceptable review that blocks nothing. */
  ghost predicate Clean(law: Law, w: World, b: Bytes) {
    && w.dirty.None? && law.read(b.compact).Some?
    && var r := law.read(b.compact).value;
      Acceptable(r, D.AllowedBy(D.Scan(D.START, w.diff))) && forall f :: f in r.findings ==> !Blocks(law.policy, f)
  }

  ghost predicate Entitled(authority: seq<K.AuthorityReceipt>, clock: A.Clock) {
    && K.Presentable(authority, clock.checked) && K.Presentable(authority, clock.resolved)
    && SUBMIT in K.AuthorityOf(authority).capabilities && HUMAN in K.AuthorityOf(authority).capabilities
    && RECOVERY in K.AuthorityOf(authority).capabilities
  }

  ghost predicate Suffice(law: Law, x: Means) {
    Clean(law, x.world, x.bytes) && Entitled(x.authority, x.clock) && x.at != 0
  }

  function Asking(m: Machine, x: Means, requested: string): K.Request {
    K.Request(m.k.state.instance, None, x.authority, requested)
  }

  function MetaOf(x: Means): Meta { Meta(FingerprintOf(x.bytes), x.world.reviewedTree) }

  /** The repository is brought to that state and its candidate is staged. */
  function Preparation(x: Means): seq<Event> { [Move(x.world), StageBytes(x.bytes), StageMeta(MetaOf(x))] }

  ghost predicate Prepared(m: Machine, x: Means, next: Machine) {
    next.k == m.k && next.world == x.world && LoadStaged(next.disk) == Candidate(x.bytes, MetaOf(x))
  }

  lemma Prepares(law: Law, m: Machine, x: Means)
    ensures Prepared(m, x, After(law, m, Preparation(x)))
  {
    var none: seq<Event> := [];
    AfterOne(law, m, none, Move(x.world));
    AfterOne(law, m, [Move(x.world)], StageBytes(x.bytes));
    AfterOne(law, m, [Move(x.world), StageBytes(x.bytes)], StageMeta(MetaOf(x)));
    assert none + [Move(x.world)] == [Move(x.world)];
    assert [Move(x.world)] + [StageBytes(x.bytes)] == [Move(x.world), StageBytes(x.bytes)];
    assert [Move(x.world), StageBytes(x.bytes)] + [StageMeta(MetaOf(x))] == Preparation(x);
  }

  lemma PreparedObserved(law: Law, m: Machine, x: Means, next: Machine)
    requires Prepared(m, x, next)
    ensures ObserveValue(law, next.disk, next.world).Some?
  {
    ObservationFails(law, next.disk, next.world);
  }

  /** A clean candidate admits the convergence, whatever came before. */
  lemma CleanIsAdmitted(law: Law, m: Machine, x: Means, next: Machine)
    requires ValidPolicy(law.policy) && Clean(law, x.world, x.bytes) && Prepared(m, x, next)
    ensures ObserveValue(law, next.disk, next.world).Some?
    ensures Disposition(law.policy, ObserveValue(law, next.disk, next.world).value) == Some(CONVERGE)
  {
    NothingBlocks(law.policy, law.read(x.bytes.compact).value.findings);
  }

  /** At rest in some mode with nothing pending, after at most so many commits
      and without another interruption. */
  ghost predicate Arrives(m: Machine, next: Machine, mode: string, commits: nat) {
    && next.k.flight.None? && next.k.state.recovery.None? && next.k.state.mode == mode
    && next.k.interrupted == m.k.interrupted && next.k.lead == m.k.lead
    && (m.k.receipts != [] ==> next.k.receipts != [])
    && 0 < next.k.state.revision <= m.k.state.revision + 2 * commits
  }

  ghost predicate HasRoom(m: Machine, commits: nat) {
    0 < m.k.state.revision && m.k.state.revision + 2 * commits < K.REVISIONS
  }

  lemma CommitArrives(m: Machine, prepared: Machine, next: Machine, id: string)
    requires prepared.k == m.k && CommitsOnce(prepared, next, id) && HasRoom(m, 1)
    ensures Arrives(m, next, TargetOf(id), 1) && next.world == prepared.world && next.k.receipts != []
    ensures Submits(id) ==> Progress.Reviewed(next.disk, next.world.reviewedTree)
  {
  }

  /** The review is prepared, then one attempt is made and left alone. */
  lemma PreparedReaches(law: Law, m: Machine, x: Means, attempt: seq<Event>)
    requires Reachable(law, m)
    ensures Reachable(law, After(law, m, Preparation(x)))
    ensures After(law, m, Preparation(x) + attempt) == After(law, After(law, m, Preparation(x)), attempt)
    ensures Reachable(law, After(law, m, Preparation(x) + attempt))
  {
    ReachableOn(law, m, Preparation(x));
    AfterBoth(law, m, Preparation(x), attempt);
    ReachableOn(law, m, Preparation(x) + attempt);
  }

  lemma ConvergeFrom(law: Law, m: Machine, x: Means) returns (events: seq<Event>)
    requires ValidLaw(law) && Reachable(law, m) && Suffice(law, x) && m.k.flight.None? && HasRoom(m, 1)
    requires m.k.state.recovery.None? && m.k.state.mode in {UNREVIEWED, FINDINGS_OPEN}
    ensures Arrives(m, After(law, m, events), CONVERGED, 1) && After(law, m, events).world == x.world
    ensures Reachable(law, After(law, m, events)) && After(law, m, events).k.receipts != []
    ensures Progress.Reviewed(After(law, m, events).disk, x.world.reviewedTree)
  {
    var prepared := After(law, m, Preparation(x));
    Prepares(law, m, x);
    PreparedReaches(law, m, x, []);
    CleanIsAdmitted(law, m, x, prepared);
    var q := Asking(prepared, x, "");
    var p, writes := SubmissionCommits(law, prepared, ObserveValue(law, prepared.disk, prepared.world).value, q,
      x.clock, CONVERGE, x.at);
    var attempt := Attempt(q, p, x.clock, writes, x.at);
    PreparedReaches(law, m, x, attempt);
    events := Preparation(x) + attempt;
    CommitArrives(m, prepared, After(law, m, events), CONVERGE);
  }

  lemma RecoverFrom(law: Law, m: Machine, x: Means) returns (events: seq<Event>)
    requires ValidLaw(law) && Reachable(law, m) && Suffice(law, x) && m.k.flight.None? && HasRoom(m, 1)
    requires m.k.state.recovery.Some?
    ensures Arrives(m, After(law, m, events), UNREVIEWED, 1)
    ensures Reachable(law, After(law, m, events))
  {
    var prepared := After(law, m, Preparation(x));
    Prepares(law, m, x);
    PreparedReaches(law, m, x, []);
    var q := Asking(prepared, x, RECOVER);
    var p, writes := RecoveryCommits(law, prepared, q, x.clock, x.at);
    var attempt := Attempt(q, p, x.clock, writes, x.at);
    PreparedReaches(law, m, x, attempt);
    events := Preparation(x) + attempt;
    NotSubmissions();
    CommitArrives(m, prepared, After(law, m, events), RECOVER);
  }

  lemma ReopenFrom(law: Law, m: Machine, x: Means) returns (events: seq<Event>)
    requires ValidLaw(law) && Reachable(law, m) && Suffice(law, x) && m.k.flight.None? && HasRoom(m, 1)
    requires m.k.state.recovery.None? && SettledMode(m.k.state.mode)
    ensures Arrives(m, After(law, m, events), UNREVIEWED, 1)
    ensures Reachable(law, After(law, m, events))
  {
    var prepared := After(law, m, Preparation(x));
    Prepares(law, m, x);
    PreparedReaches(law, m, x, []);
    PreparedObserved(law, m, x, prepared);
    var q := Asking(prepared, x, REOPEN);
    var p, writes := ReopeningCommits(law, prepared, q, x.clock, x.at);
    var attempt := Attempt(q, p, x.clock, writes, x.at);
    PreparedReaches(law, m, x, attempt);
    events := Preparation(x) + attempt;
    NotSubmissions();
    CommitArrives(m, prepared, After(law, m, events), REOPEN);
  }

  // ----- From anywhere -----

  predicate KnownMode(mode: string) { SettledMode(mode) || mode in {UNREVIEWED, FINDINGS_OPEN} }

  lemma TargetKnown(id: string)
    ensures KnownMode(TargetOf(id))
  {
  }

  lemma CommitMode(law: Law, m: Machine, at: K.Time)
    requires CanFinish(m) && FlightAdmitted(law, m)
    ensures Finished(law, m, at).k.state.mode == m.k.state.mode ||
      Finished(law, m, at).k.state.mode == TargetOf(m.k.flight.value.transition.id)
  {
  }

  lemma FinishMode(law: Law, m: Machine, e: Event)
    requires e.Finish? && FlightAdmitted(law, m) && KnownMode(m.k.state.mode)
    ensures KnownMode(Step(law, m, e).k.state.mode)
  {
    S.StepFinishes(law, m, e);
    if CanFinish(m) {
      CommitMode(law, m, e.committedAt);
      TargetKnown(m.k.flight.value.transition.id);
    }
  }

  lemma OtherMode(law: Law, m: Machine, e: Event)
    requires !e.Finish?
    ensures Step(law, m, e).k.state.mode == m.k.state.mode
  {
  }

  lemma {:induction false} RunMode(law: Law, w: World, events: seq<Event>)
    requires ValidLaw(law)
    ensures KnownMode(Run(law, w, events).k.state.mode)
  {
    if events != [] {
      var n := |events| - 1;
      RunMode(law, w, events[..n]);
      var m := Run(law, w, events[..n]);
      if events[n].Finish? {
        S.RunKeeps(law, w, events[..n]);
        FinishMode(law, m, events[n]);
      } else {
        OtherMode(law, m, events[n]);
      }
    }
  }

  lemma ReachableMode(law: Law, m: Machine)
    requires ValidLaw(law) && Reachable(law, m)
    ensures KnownMode(m.k.state.mode)
  {
    var w, events :| Run(law, w, events) == m;
    RunMode(law, w, events);
  }

  /** Going on after having arrived. */
  lemma GoOn(law: Law, m: Machine, events: seq<Event>, more: seq<Event>, mode: string, last: string, commits: nat)
    requires Arrives(m, After(law, m, events), mode, commits)
    requires Arrives(After(law, m, events), After(law, After(law, m, events), more), last, 1)
    ensures After(law, m, events + more) == After(law, After(law, m, events), more)
    ensures Arrives(m, After(law, m, events + more), last, commits + 1)
  {
    AfterBoth(law, m, events, more);
  }

  /** What is in flight is cut off. */
  lemma Land(law: Law, m: Machine) returns (events: seq<Event>)
    requires Reachable(law, m)
    ensures var next := After(law, m, events);
      && Reachable(law, next) && next.k.flight.None? && next.k.state == m.k.state && next.k.receipts == m.k.receipts
      && next.k.interrupted == m.k.interrupted + M.InProgress(m.k)
      && next.k.lead <= m.k.lead + M.InProgress(m.k)
  {
    var none: seq<Event> := [];
    events := [];
    if m.k.flight.Some? {
      events := none + [Interrupt];
      AfterOne(law, m, none, Interrupt);
      S.StepInterrupts(law, m, Interrupt);
    }
    ReachableOn(law, m, events);
  }

  /** Recovery, if it is pending. */
  lemma Settle(law: Law, m: Machine, x: Means) returns (events: seq<Event>)
    requires ValidLaw(law) && Reachable(law, m) && Suffice(law, x) && m.k.flight.None? && HasRoom(m, 1)
    ensures Reachable(law, After(law, m, events))
    ensures exists mode :: KnownMode(mode) && Arrives(m, After(law, m, events), mode, 1)
  {
    if m.k.state.recovery.Some? {
      events := RecoverFrom(law, m, x);
      TargetKnown(RECOVER);
      assert KnownMode(UNREVIEWED);
    } else {
      events := [];
      ReachableMode(law, m);
      assert Arrives(m, m, m.k.state.mode, 1);
    }
  }

  /** Reopening, if the review is settled. */
  lemma Reopen(law: Law, m: Machine, x: Means) returns (events: seq<Event>, mode: string)
    requires ValidLaw(law) && Reachable(law, m) && Suffice(law, x) && m.k.flight.None? && HasRoom(m, 1)
    requires m.k.state.recovery.None?
    ensures Reachable(law, After(law, m, events))
    ensures mode in {UNREVIEWED, FINDINGS_OPEN} && Arrives(m, After(law, m, events), mode, 1)
  {
    ReachableMode(law, m);
    if SettledMode(m.k.state.mode) {
      events := ReopenFrom(law, m, x);
      mode := UNREVIEWED;
    } else {
      events := [];
      mode := m.k.state.mode;
    }
  }

  /** From every reachable state at rest, whatever is pending, the review can be
      brought to convergence without another interruption. */
  lemma RestConverges(law: Law, m: Machine, x: Means) returns (events: seq<Event>)
    requires ValidLaw(law) && Reachable(law, m) && Suffice(law, x) && m.k.flight.None? && HasRoom(m, 3)
    ensures Reachable(law, After(law, m, events)) && Arrives(m, After(law, m, events), CONVERGED, 3)
    ensures After(law, m, events).world == x.world && After(law, m, events).k.receipts != []
    ensures Progress.Reviewed(After(law, m, events).disk, x.world.reviewedTree)
  {
    var first := Settle(law, m, x);
    var settled := After(law, m, first);
    var mode :| KnownMode(mode) && Arrives(m, settled, mode, 1);
    var second, unsettled := Reopen(law, settled, x);
    GoOn(law, m, first, second, mode, unsettled, 1);
    var third := ConvergeFrom(law, After(law, m, first + second), x);
    GoOn(law, m, first + second, third, unsettled, CONVERGED, 2);
    events := first + second + third;
  }

  /** From every reachable state, however often and wherever it was interrupted,
      the review can still be brought to convergence; only what is in flight
      counts as interrupted on the way. */
  lemma ConvergenceAlwaysReachable(law: Law, m: Machine, x: Means) returns (events: seq<Event>)
    requires ValidLaw(law) && Reachable(law, m) && Suffice(law, x) && HasRoom(m, 3)
    ensures var next := After(law, m, events);
      && Reachable(law, next) && next.k.state.mode == CONVERGED && next.k.state.recovery.None? && next.k.flight.None?
      && next.world == x.world && Progress.Reviewed(next.disk, x.world.reviewedTree) && next.k.receipts != []
      && next.k.interrupted == m.k.interrupted + M.InProgress(m.k)
      && 0 < next.k.state.revision <= m.k.state.revision + 6
  {
    var landing := Land(law, m);
    var more := RestConverges(law, After(law, m, landing), x);
    AfterBoth(law, m, landing, more);
    events := landing + more;
  }
}
