/** The review moves: an untargeted resolve prescribes what the law admits, and
    an attempt that nobody disturbs commits, because the domain verifies what
    the operator does. */
module ReviewProgress {
  import opened Base
  import opened ReviewLaw
  import opened ReviewStore
  import opened ReviewLedger
  import opened ReviewMachine
  import K = KernelRuntime
  import A = KernelApply
  import M = KernelMachine
  import P = KernelProgram
  import R = KernelRelation
  import S = ReviewSafety

  // ----- Resolving -----

  lemma OnlySelectable(q: R.Question, c: R.Candidate)
    requires q.requested == "" && !q.marked && c.selectable && R.Authorized(c, q.available)
    ensures R.Decide(q, [c]).kind == R.Prescribed && R.Decide(q, [c]).transition == c.id
  {
    R.AllEligible(q, [c]);
    assert R.UniqueBest(R.EligibleOf(q, [c]), q.available, 0);
    R.AnswerIsDecided(q, [c], c);
  }

  /** In a mode that takes submissions, with no recovery pending, the filters
      and the domain let through exactly the submission the law admits. */
  lemma OtherRejected(law: Law, s: Control, v: Observed, q: K.Request, t: P.Transition, id: string)
    requires Row(t) && s.recovery.None? && !SettledMode(s.mode) && Disposition(law.policy, v) == Some(id) && t.id != id
    ensures K.Judge(law.runtime, s, K.Observed(v), q, AdmissibleIn(law), t) == K.Rejected
  {
    NotSubmissions();
    UnsettledSources(s.mode);
    assert t.id == RECOVER ==> CONVERGE in t.recovers;
  }

  lemma NoObjectiveNeeded(s: Control, supplied: Option<K.Objective>, t: P.Transition)
    requires Row(t)
    ensures K.ObjectiveFor(s, supplied, t) == Some(None)
  {
  }

  /** What the filters ask of a row of the program. */
  lemma RowPasses(s: Control, t: P.Transition)
    requires Row(t) && t.id != RECOVER && s.recovery.None? && s.mode in SourcesOf(t.id)
    ensures s.mode in t.sourceModes && K.RecoveryCompatible(s, t)
  {
    P.SameMembers(t.recovers, []);
  }

  lemma SubmissionAllowed(law: Law, s: Control, v: Observed, objective: Option<K.Objective>, t: P.Transition)
    requires t.operation == t.id && Submits(t.id) && Disposition(law.policy, v) == Some(t.id)
    ensures AdmissibleIn(law)(K.Evaluation(s, K.Observed(v), objective, t)) == K.Allowed
  {
  }

  lemma SubmissionAdmitted(law: Law, s: Control, v: Observed, q: K.Request, t: P.Transition)
    requires Row(t) && Submits(t.id) && q.requested == "" && s.recovery.None? && s.mode in {UNREVIEWED, FINDINGS_OPEN}
    requires Disposition(law.policy, v) == Some(t.id) && K.Required(law.runtime, t).Some?
    ensures K.Judge(law.runtime, s, K.Observed(v), q, AdmissibleIn(law), t)
         == K.Admitted(R.Candidate(t.id, 0, t.priority, true, K.Required(law.runtime, t).value, []))
  {
    NotSubmissions();
    RowPasses(s, t);
    NoObjectiveNeeded(s, q.objective, t);
    SubmissionAllowed(law, s, v, None, t);
    M.PassesFilters(law.runtime, s, K.Observed(v), q, AdmissibleIn(law), t);
  }

  lemma RowOf(law: Law, id: string) returns (t: P.Transition)
    requires FollowsTable(law.runtime) && Submits(id)
    ensures t in K.Transitions(law.runtime) && t.id == id
  {
    t := K.Lookup(K.Transitions(law.runtime), id);
  }

  lemma SubmitNeeds(law: Law, t: P.Transition, capabilities: seq<string>)
    requires Row(t) && Submits(t.id) && K.Required(law.runtime, t).Some? && law.runtime.classify(t) == Some([SUBMIT])
    requires SUBMIT in capabilities
    ensures forall c :: c in K.Required(law.runtime, t).value ==> c in capabilities
  {
    NotSubmissions();
  }

  lemma SubmitClassified(law: Law, t: P.Transition)
    requires FollowsTable(law.runtime) && t in K.Transitions(law.runtime) && Submits(t.id)
    ensures law.runtime.classify(t) == Some([SUBMIT])
  {
    NotSubmissions();
  }

  /** An untargeted request with authority to submit. */
  ghost predicate SubmitRequest(s: Control, q: K.Request, now: K.Time) {
    && q.instance == s.instance && q.requested == "" && K.Presentable(q.authority, now)
    && SUBMIT in K.AuthorityOf(q.authority).capabilities
  }

  /** A transition of a program whose transitions have different identities and
      the shape of the review program's. */
  ghost predicate Listed(rt: K.Runtime, t: P.Transition) {
    t in K.Transitions(rt) && P.DistinctIds(K.Transitions(rt)) && forall u :: u in K.Transitions(rt) ==> Row(u)
  }

  lemma OneOfEach(ts: seq<P.Transition>, t: P.Transition, u: P.Transition)
    requires P.DistinctIds(ts) && t in ts && u in ts && t != u
    ensures t.id != u.id
  {
    var i :| 0 <= i < |ts| && ts[i] == t;
    var j :| 0 <= j < |ts| && ts[j] == u;
  }

  lemma SubmissionDecides(law: Law, s: Control, v: Observed, q: K.Request, t: P.Transition)
    requires Listed(law.runtime, t) && K.Required(law.runtime, t).Some? && Submits(t.id) && q.requested == ""
    requires s.recovery.None? && s.mode in {UNREVIEWED, FINDINGS_OPEN} && !SettledMode(s.mode)
    requires Disposition(law.policy, v) == Some(t.id)
    requires forall c :: c in K.Required(law.runtime, t).value ==> c in K.AuthorityOf(q.authority).capabilities
    ensures M.Decides(law.runtime, s, K.Observed(v), q, AdmissibleIn(law), t.id)
  {
    forall u | u in K.Transitions(law.runtime) && u != t
      ensures K.Judge(law.runtime, s, K.Observed(v), q, AdmissibleIn(law), u) == K.Rejected
    {
      OneOfEach(K.Transitions(law.runtime), u, t);
      OtherRejected(law, s, v, q, u, t.id);
    }
    SubmissionAdmitted(law, s, v, q, t);
    M.OnlyAdmitted(law.runtime, s, K.Observed(v), q, AdmissibleIn(law), K.Transitions(law.runtime), t);
    OnlySelectable(K.QuestionOf(q, K.AuthorityOf(q.authority)),
      K.Judge(law.runtime, s, K.Observed(v), q, AdmissibleIn(law), t).candidate);
  }

  ghost predicate SubmissionPrescribed(law: Law, s: Control, v: Observed, q: K.Request, now: K.Time, id: string) {
    exists p: K.Prescription<Observed> ::
      M.Resolves(law.runtime, s, K.Observed(v), q, p, now, AdmissibleIn(law)) && p.body.transition == id
  }

  lemma Unsettled(mode: string)
    requires mode in {UNREVIEWED, FINDINGS_OPEN}
    ensures !SettledMode(mode)
  {
    DifferentNames();
    var names := [UNREVIEWED, FINDINGS_OPEN, CONVERGED, ESCALATED];
    assert names[0] != names[2] && names[0] != names[3] && names[1] != names[2] && names[1] != names[3];
  }

  lemma OnlyConvergedMarked(rt: K.Runtime, mode: string)
    requires FollowsTable(rt) && !SettledMode(mode)
    ensures mode !in rt.program.declaration.markedModes
  {
  }

  lemma AllListed(rt: K.Runtime, t: P.Transition)
    requires S.SoundRuntime(rt) && t in K.Transitions(rt)
    ensures Listed(rt, t) && K.Required(rt, t).Some? && t == K.Lookup(K.Transitions(rt), t.id)
  {
    P.CanonicalIdsDistinct(rt.program.declaration);
    M.UniqueId(rt, K.Lookup(K.Transitions(rt), t.id), t);
  }

  lemma SubmissionTransition(law: Law, id: string) returns (t: P.Transition)
    requires FollowsTable(law.runtime) && Submits(id)
    ensures t.id == id && law.runtime.classify(t) == Some([SUBMIT])
    ensures Listed(law.runtime, t) && K.Required(law.runtime, t).Some?
    ensures t == K.Lookup(K.Transitions(law.runtime), t.id)
  {
    S.RuntimeIsSound(law.runtime);
    t := RowOf(law, id);
    AllListed(law.runtime, t);
    SubmitClassified(law, t);
  }

  lemma LawDecides(law: Law, s: Control, v: Observed, q: K.Request, t: P.Transition)
    requires Listed(law.runtime, t) && K.Required(law.runtime, t).Some? && Submits(t.id)
    requires law.runtime.classify(t) == Some([SUBMIT])
    requires q.requested == "" && SUBMIT in K.AuthorityOf(q.authority).capabilities
    requires s.recovery.None? && s.mode in {UNREVIEWED, FINDINGS_OPEN} && Disposition(law.policy, v) == Some(t.id)
    ensures K.ObjectiveFor(s, q.objective, t).Some?
    ensures M.Decides(law.runtime, s, K.Observed(v), q, AdmissibleIn(law), t.id)
  {
    Unsettled(s.mode);
    SubmitNeeds(law, t, K.AuthorityOf(q.authority).capabilities);
    NoObjectiveNeeded(s, q.objective, t);
    SubmissionDecides(law, s, v, q, t);
  }

  ghost predicate ReadyRow(rt: K.Runtime, t: P.Transition, id: string) {
    && t.id == id && rt.classify(t) == Some([SUBMIT]) && Listed(rt, t) && K.Required(rt, t).Some?
    && t == K.Lookup(K.Transitions(rt), t.id)
  }

  ghost predicate Ready(rt: K.Runtime) {
    forall id :: Submits(id) ==> exists t :: ReadyRow(rt, t, id)
  }

  lemma ReviewIsReady(law: Law)
    requires FollowsTable(law.runtime)
    ensures Ready(law.runtime)
  {
    forall id | Submits(id) ensures exists t :: ReadyRow(law.runtime, t, id) {
      var t := SubmissionTransition(law, id);
      assert ReadyRow(law.runtime, t, id);
    }
  }

  /** Where submissions are taken, an untargeted resolve prescribes exactly the
      submission the law admits on the observation, and nothing when it admits
      none. */
  lemma ResolveFollowsLaw(law: Law, s: Control, v: Observed, q: K.Request, now: K.Time, id: string)
    requires FollowsTable(law.runtime) && K.Resolvable(law.runtime, s, K.Observed(v), q) && SubmitRequest(s, q, now)
    requires s.recovery.None? && s.mode in {UNREVIEWED, FINDINGS_OPEN}
    ensures SubmissionPrescribed(law, s, v, q, now, id) <==> Disposition(law.policy, v) == Some(id)
  {
    if Disposition(law.policy, v) == Some(id) {
      ReviewIsReady(law);
      NotSettledHere(law.runtime, s, q);
      ReadyFollows(law, s, v, q, now, id);
    }
    if SubmissionPrescribed(law, s, v, q, now, id) { PrescribedIsAdmitted(law, s, v, q, now, id); }
  }

  /** A row that passes the filters in such a mode is the admitted submission. */
  lemma OnlyTheDisposition(law: Law, s: Control, v: Observed, q: K.Request, t: P.Transition)
    requires Row(t) && s.recovery.None? && !SettledMode(s.mode)
    requires K.Judge(law.runtime, s, K.Observed(v), q, AdmissibleIn(law), t).Admitted?
    ensures Disposition(law.policy, v) == Some(t.id)
  {
    NotSubmissions();
    UnsettledSources(s.mode);
    assert t.id == RECOVER ==> CONVERGE in t.recovers;
  }

  /** Whatever is prescribed there, with any authority, the law admits. */
  lemma PrescribedIsAdmitted(law: Law, s: Control, v: Observed, q: K.Request, now: K.Time, id: string)
    requires FollowsTable(law.runtime) && s.recovery.None? && s.mode in {UNREVIEWED, FINDINGS_OPEN}
    requires SubmissionPrescribed(law, s, v, q, now, id)
    ensures Disposition(law.policy, v) == Some(id)
  {
    Unsettled(s.mode);
    S.RuntimeIsSound(law.runtime);
    var p: K.Prescription<Observed> :|
      M.Resolves(law.runtime, s, K.Observed(v), q, p, now, AdmissibleIn(law)) && p.body.transition == id;
    var t := M.ResolvedPassed(law.runtime, s, K.Observed(v), q, now, AdmissibleIn(law));
    OnlyTheDisposition(law, s, v, q, t);
  }

  lemma ReadyAt(rt: K.Runtime, p: Policy, v: Observed, id: string) returns (t: P.Transition)
    requires Ready(rt) && Disposition(p, v) == Some(id)
    ensures ReadyRow(rt, t, id) && Submits(id)
  {
    assert Submits(id);
    t :| ReadyRow(rt, t, id);
  }

  lemma ReadyFollows(law: Law, s: Control, v: Observed, q: K.Request, now: K.Time, id: string)
    requires Ready(law.runtime) && !K.Settled(law.runtime, s, q)
    requires K.Resolvable(law.runtime, s, K.Observed(v), q) && SubmitRequest(s, q, now)
    requires s.recovery.None? && s.mode in {UNREVIEWED, FINDINGS_OPEN} && Disposition(law.policy, v) == Some(id)
    ensures SubmissionPrescribed(law, s, v, q, now, id)
  {
    var t := ReadyAt(law.runtime, law.policy, v, id);
    TransitionFollows(law, s, v, q, now, t);
  }

  lemma TransitionFollows(law: Law, s: Control, v: Observed, q: K.Request, now: K.Time, t: P.Transition)
    requires Listed(law.runtime, t) && K.Required(law.runtime, t).Some? && Submits(t.id)
    requires law.runtime.classify(t) == Some([SUBMIT])
    requires t == K.Lookup(K.Transitions(law.runtime), t.id) && !K.Settled(law.runtime, s, q)
    requires K.Resolvable(law.runtime, s, K.Observed(v), q) && SubmitRequest(s, q, now)
    requires s.recovery.None? && s.mode in {UNREVIEWED, FINDINGS_OPEN} && Disposition(law.policy, v) == Some(t.id)
    ensures SubmissionPrescribed(law, s, v, q, now, t.id)
  {
    LawDecides(law, s, v, q, t);
    SubmissionResolves(law, s, v, q, now, t);
  }

  lemma NotSettledHere(rt: K.Runtime, s: Control, q: K.Request)
    requires FollowsTable(rt) && s.mode in {UNREVIEWED, FINDINGS_OPEN}
    ensures !K.Settled(rt, s, q)
  {
    Unsettled(s.mode);
    OnlyConvergedMarked(rt, s.mode);
  }

  lemma SubmissionResolves(law: Law, s: Control, v: Observed, q: K.Request, now: K.Time, t: P.Transition)
    requires t in K.Transitions(law.runtime) && t == K.Lookup(K.Transitions(law.runtime), t.id)
    requires K.Required(law.runtime, t).Some? && K.ObjectiveFor(s, q.objective, t).Some?
    requires K.Resolvable(law.runtime, s, K.Observed(v), q) && !K.Settled(law.runtime, s, q)
    requires K.Presentable(q.authority, now) && M.Decides(law.runtime, s, K.Observed(v), q, AdmissibleIn(law), t.id)
    ensures SubmissionPrescribed(law, s, v, q, now, t.id)
  {
    var p := M.PrescriptionExists(law.runtime, s, K.Observed(v), q, t);
    M.DecidedResolves(law.runtime, s, K.Observed(v), q, p, now, AdmissibleIn(law), t.id);
  }

  // ----- Running undisturbed -----

  /** What the event `Perform` makes of a machine, n times. */
  function Performs(m: Machine, n: nat): Machine {
    if n == 0 then m else Performing(Performs(m, n - 1))
  }

  /** A running effect that has just been loaded. */
  ghost predicate JustLoaded(m: Machine) {
    m.phase.Running? && m.phase.done == 0 && m.disk == m.phase.start && m.k.flight.Some?
  }

  lemma {:induction false} PerformingWrites(law: Law, m: Machine, n: nat)
    requires JustLoaded(m) && n <= |m.phase.plan.script|
    ensures var next := Performs(m, n);
      && next.k == m.k && next.world == m.world && next.phase == m.phase.(done := n)
      && next.disk == AllWritten(m.phase.start, m.phase.plan.script[..n])
  {
    if n > 0 {
      PerformingWrites(law, m, n - 1);
      OneMoreWrite(m.phase.start, m.phase.plan.script, n - 1);
    }
  }

  lemma PerformOnce(law: Law, before: Machine) returns (next: Machine)
    requires Inv(law, before) && CanPerform(before)
    ensures next == Performing(before) && Inv(law, next)
  {
    next := S.PerformKeeps(law, before);
  }

  /** What one write keeps, any number of writes keep. */
  lemma {:induction false} PerformsKeep(inv: Machine -> bool, m: Machine, n: nat)
    requires inv(m) && forall x :: inv(x) ==> inv(Performing(x))
    ensures inv(Performs(m, n))
  {
    if n > 0 { PerformsKeep(inv, m, n - 1); }
  }

  lemma PerformingKeeps(law: Law, m: Machine, n: nat)
    requires Inv(law, m)
    ensures Inv(law, Performs(m, n))
  {
    forall x | Inv(law, x) ensures Inv(law, Performing(x)) {
      if CanPerform(x) { var next := PerformOnce(law, x); }
    }
    PerformsKeep((x: Machine) => Inv(law, x), m, n);
  }

  /** Every script ends by clearing the staging files. */
  lemma ScriptClears(id: string, v: Observed, d: Disk)
    requires PlanFor(id, v, d).Some?
    ensures var script := PlanFor(id, v, d).value.script;
      |script| >= 2 && script[|script| - 2..] == ClearScript()
  {
  }

  lemma ClearedAtEnd(d: Disk, script: seq<Write>)
    requires |script| >= 2 && script[|script| - 2..] == ClearScript()
    ensures AllWritten(d, script).staged.None?
  {
    var n := |script|;
    assert script[n - 2] == script[n - 2..][0] && script[n - 1] == script[n - 2..][1];
    OneMoreWrite(d, script, n - 2);
    OneMoreWrite(d, script, n - 1);
    assert script[..n] == script;
  }

  /** The journal of a finished plan is what the domain's check asks for. */
  lemma DoneVerifies(law: Law, m: Machine)
    requires CanFinish(m) && FlightAdmitted(law, m) && OnPlan(law, m) && LoadStaged(m.disk) == Nothing
    requires forall r :: r in JournalOf(m.phase.start).rounds ==> r.generation <= JournalOf(m.phase.start).generation
    requires var v := m.k.flight.value.observation.value.value;
      v.rounds == CurrentRounds(JournalOf(m.phase.start)) && v.generation == JournalOf(m.phase.start).generation
    ensures ObserveValue(law, m.disk, m.world).Some?
    ensures Verified(m.k.flight.value.transition.id, m.k.flight.value.observation.value.value,
                     ObserveValue(law, m.disk, m.world).value, m.phase.plan.facts, m.disk)
  {
    var id, v := m.k.flight.value.transition.id, m.k.flight.value.observation.value.value;
    NotSubmissions();
    S.PlanDone(law, m);
    if Submits(id) {
      CurrentAppended(JournalOf(m.phase.start), Placed(JournalOf(m.phase.start), RoundOf(id, v)));
    } else if id == REOPEN {
      NoneYet(JournalOf(m.phase.start));
    }
  }

  /** The facts of a plan stay inside what its transition owns. */
  lemma PlanFactsValid(m: Machine, law: Law)
    requires CanFinish(m) && FlightAdmitted(law, m) && OnPlan(law, m) && P.QualifiedId(m.k.flight.value.transition.id)
    ensures A.ValidEffects(m.k.flight.value.transition, m.phase.plan.facts)
  {
    NotSubmissions();
    S.PlanDone(law, m);
  }

  lemma FlightIsSound(rt: K.Runtime, k: M.Machine<Observed>)
    requires K.ValidRuntime(rt) && M.Inv(rt, k) && k.flight.Some?
    ensures M.Sound(rt, k.flight.value) && P.QualifiedId(k.flight.value.transition.id)
  {
    M.TransitionNamed(rt, k.flight.value.transition);
  }

  lemma DoneCommits(law: Law, m: Machine, at: K.Time)
    requires K.ValidRuntime(law.runtime) && M.Inv(law.runtime, m.k) && CanFinish(m) && FlightAdmitted(law, m)
    requires OnPlan(law, m) && at != 0
    requires ObserveValue(law, m.disk, m.world).Some?
    requires Verified(m.k.flight.value.transition.id, m.k.flight.value.observation.value.value,
                      ObserveValue(law, m.disk, m.world).value, m.phase.plan.facts, m.disk)
    ensures A.Commits(m.k.flight.value, OutcomeOf(law, m, at))
  {
    FlightIsSound(law.runtime, m.k);
    PlanFactsValid(m, law);
    M.OwnReceiptValid(law.runtime, m.k.flight.value, m.phase.plan.facts,
      K.Observed(ObserveValue(law, m.disk, m.world).value), at);
  }

  lemma LoadedObservation(law: Law, m: Machine)
    requires JustLoaded(m) && FlightAdmitted(law, m) && Generations(BookOf(m))
    ensures m.k.flight.value.observation.value.Some? && Row(m.k.flight.value.transition)
    ensures var v := m.k.flight.value.observation.value.value;
      v.rounds == CurrentRounds(JournalOf(m.phase.start)) && v.generation == JournalOf(m.phase.start).generation
    ensures forall r :: r in JournalOf(m.phase.start).rounds ==> r.generation <= JournalOf(m.phase.start).generation
  {
    assert !Wrote(m);
  }

  lemma LoadedPlan(law: Law, m: Machine)
    requires JustLoaded(m) && OnPlan(law, m) && m.k.flight.value.observation.value.Some?
    ensures var script := m.phase.plan.script; |script| >= 2 && script[|script| - 2..] == ClearScript()
  {
    ScriptClears(m.k.flight.value.transition.id, m.k.flight.value.observation.value.value, m.phase.start);
  }

  lemma PerformedState(law: Law, m: Machine)
    requires JustLoaded(m) && OnPlan(law, m) && m.k.flight.value.observation.value.Some?
    ensures var done := Performs(m, |m.phase.plan.script|);
      && done.k == m.k && done.world == m.world && CanFinish(done)
      && done.phase == m.phase.(done := |m.phase.plan.script|) && LoadStaged(done.disk) == Nothing
  {
    LoadedPlan(law, m);
    var script := m.phase.plan.script;
    PerformingWrites(law, m, |script|);
    assert script[..|script|] == script;
    ClearedAtEnd(m.phase.start, script);
  }

  lemma PerformedAll(law: Law, m: Machine) returns (done: Machine)
    requires Inv(law, m) && JustLoaded(m)
    ensures done == Performs(m, |m.phase.plan.script|) && Inv(law, done) && done.k == m.k && CanFinish(done)
    ensures done.phase == m.phase.(done := |m.phase.plan.script|) && LoadStaged(done.disk) == Nothing
    ensures done.world == m.world
  {
    LoadedObservation(law, m);
    PerformedState(law, m);
    PerformingKeeps(law, m, |m.phase.plan.script|);
    done := Performs(m, |m.phase.plan.script|);
  }

  /** The last current round is of this tree. */
  ghost predicate Reviewed(disk: Disk, tree: string) {
    var rounds := CurrentRounds(JournalOf(disk));
    rounds != [] && rounds[|rounds| - 1].reviewedTree == tree
  }

  lemma VerifiedIsReviewed(law: Law, id: string, v: Observed, disk: Disk, w: World, facts: seq<A.EffectFact>)
    requires ObserveValue(law, disk, w).Some? && Verified(id, v, ObserveValue(law, disk, w).value, facts, disk)
    ensures Submits(id) ==> Reviewed(disk, v.reviewedTree)
  {
  }

  lemma DoneLands(law: Law, m: Machine, at: K.Time) returns (next: Machine, r: Receipt)
    requires CanFinish(m) && FlightAdmitted(law, m) && OnPlan(law, m)
    requires A.Commits(m.k.flight.value, OutcomeOf(law, m, at))
    ensures next == Finished(law, m, at) && next.k == M.Landed(m.k, A.TargetState(m.k.flight.value), r)
    ensures next.disk == m.disk && next.world == m.world && next.phase == Idle
    ensures r.body.transition == m.k.flight.value.transition.id
  {
    S.PlanDone(law, m);
    next, r := S.FinishedLands(law, m, at);
  }

  /** Both checks accept an effect that ran to its end. */
  lemma DoneAccepted(law: Law, m: Machine, at: K.Time) returns (done: Machine)
    requires K.ValidRuntime(law.runtime) && Inv(law, m) && JustLoaded(m) && at != 0
    ensures done == Performs(m, |m.phase.plan.script|) && CanFinish(done) && done.k == m.k && done.world == m.world
    ensures FlightAdmitted(law, done) && OnPlan(law, done) && LoadStaged(done.disk) == Nothing
    ensures A.Commits(m.k.flight.value, OutcomeOf(law, done, at))
    ensures var f := m.k.flight.value;
      f.observation.value.Some? && (Submits(f.transition.id) ==>
        Reviewed(done.disk, f.observation.value.value.reviewedTree))
  {
    LoadedObservation(law, m);
    done := PerformedAll(law, m);
    DoneVerifies(law, done);
    VerifiedIsReviewed(law, m.k.flight.value.transition.id, m.k.flight.value.observation.value.value,
                       done.disk, done.world, done.phase.plan.facts);
    DoneCommits(law, done, at);
  }

  /** An effect that nobody disturbs lands: the domain's check accepts what the
      operator wrote, and the kernel accepts its own receipt. */
  lemma UndisturbedLands(law: Law, m: Machine, at: K.Time) returns (done: Machine, next: Machine, r: Receipt)
    requires K.ValidRuntime(law.runtime) && Inv(law, m) && JustLoaded(m) && at != 0
    ensures done == Performs(m, |m.phase.plan.script|) && CanFinish(done) && next == Finished(law, done, at)
    ensures next.k == M.Landed(m.k, A.TargetState(m.k.flight.value), r)
    ensures r.body.transition == m.k.flight.value.transition.id
    ensures next.phase == Idle && next.world == m.world && LoadStaged(next.disk) == Nothing
    ensures var f := m.k.flight.value;
      f.observation.value.Some? && (Submits(f.transition.id) ==>
        Reviewed(next.disk, f.observation.value.value.reviewedTree))
  {
    done := DoneAccepted(law, m, at);
    next, r := DoneLands(law, done, at);
  }

  /** Such an effect commits, and nothing counts as interrupted. */
  lemma UndisturbedCommits(law: Law, m: Machine, at: K.Time)
    requires K.ValidRuntime(law.runtime) && Inv(law, m) && JustLoaded(m) && at != 0
    ensures var done := Performs(m, |m.phase.plan.script|);
      && CanFinish(done)
      && var next := Finished(law, done, at);
        && next.k.flight.None? && |next.k.receipts| == |m.k.receipts| + 1 && next.k.interrupted == m.k.interrupted
        && next.k.state.mode == TargetOf(m.k.flight.value.transition.id) && next.k.state.recovery.None?
  {
    S.FlightObserved(law, m);
    var done, next, r := UndisturbedLands(law, m, at);
  }
}
