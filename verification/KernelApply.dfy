/** Applying a prescription: the attempt that is recorded before an effect runs,
    and the commit that replaces it. */
module KernelApply {
  import opened Base
  import opened Ordering
  import opened KernelRuntime
  import P = KernelProgram
  import R = KernelRelation

  // ----- Effects -----

  datatype EffectFact = EffectFact(facet: string, operation: string, fingerprint: string)

  predicate ValidFact(t: P.Transition, f: EffectFact) {
    f.facet in t.facets && P.QualifiedId(f.operation) && f.fingerprint != ""
  }

  /** An operator reports at least one fact and stays inside the facets its
      transition owns. */
  predicate ValidEffects(t: P.Transition, facts: seq<EffectFact>) {
    facts != [] && forall f :: f in facts ==> ValidFact(t, f)
  }

  predicate FactLess(a: EffectFact, b: EffectFact) {
    if a.facet != b.facet then StringLess(a.facet, b.facet)
    else if a.operation != b.operation then StringLess(a.operation, b.operation)
    else StringLess(a.fingerprint, b.fingerprint)
  }

  // ----- Receipts -----

  datatype ReceiptBody<V> = ReceiptBody(
    schema: int, instance: string, prescription: Hash<PrescriptionBody<V>>, program: ProgramIdentity,
    transition: string,
    prior: Revision, attempt: Revision, result: Revision, binding: Option<Binding>,
    authority: Hash<seq<AuthorityReceipt>>, capabilities: seq<string>, effects: seq<EffectFact>,
    before: Hash<V>, after: Hash<V>, satisfied: bool, committedAt: Time)

  datatype Receipt<V> = Receipt(id: Hash<ReceiptBody<V>>, body: ReceiptBody<V>)

  predicate ValidReceipt<V(==)>(r: Receipt<V>) {
    && r.id == HashOf(r.body)
    && r.body.schema == RECEIPT_SCHEMA && P.SemanticId(r.body.instance)
    && (r.body.prescription.HashOf? || r.body.prescription.text != "") && P.QualifiedId(r.body.transition)
    && r.body.prior != 0 && r.body.attempt == Next(r.body.prior) && r.body.result == Next(r.body.attempt)
    && (r.body.authority.HashOf? || r.body.authority.text != "")
    && HashShaped(r.body.before) && HashShaped(r.body.after) && r.body.satisfied && r.body.committedAt != 0
    && ValidIdentity(r.body.program) && (r.body.binding.Some? ==> ValidBinding(r.body.binding.value))
    && P.ValidCapabilities(r.body.capabilities) && r.body.effects != []
  }

  // ----- The attempt -----

  /** An effect attempt in progress: what it started from and what for. */
  datatype Flight<V> = Flight(
    prior: ControlState<V>, observation: Observation<V>, prescription: Prescription<V>,
    transition: P.Transition, objective: Option<Objective>, authority: Authority, required: seq<string>)

  function AttemptState<V>(s: ControlState<V>, p: Prescription<V>): ControlState<V> {
    s.(revision := Next(s.revision),
       recovery := if s.recovery.None? then Some(Recovery(p.id, p.body.transition)) else s.recovery)
  }

  datatype Refusal = BadAuthority | Stale | NotResolved | NotPrescribed(kind: R.Kind) | BadAttempt

  /** Applying reads the clock twice: when authority is checked, and again when
      the prescription is resolved. */
  datatype Clock = Clock(checked: Time, resolved: Time)

  /** Everything decided before the attempt is recorded: the flight that may
      begin, or why not. */
  ghost function Launch<V>(rt: Runtime, s: ControlState<V>, o: Observation<V>, q: Request, p: Prescription<V>,
                           clock: Clock, admits: Evaluation<V> -> Answer): Result<Flight<V>, Refusal> {
    if !Presentable(q.authority, clock.checked) then Err(BadAuthority)
    else if !Current(p, s, o, AuthorityOf(q.authority)) then Err(Stale)
    else
      var r := Resolved(rt, s, o, q, clock.resolved, admits);
      if r.None? then Err(NotResolved)
      else if r.value.decision.kind != R.Prescribed || r.value.prescription.None?
        then Err(NotPrescribed(r.value.decision.kind))
      else if r.value.prescription.value.id != p.id then Err(Stale)
      else FlightFor(rt, s, o, q, p)
  }

  function FlightFor<V>(rt: Runtime, s: ControlState<V>, o: Observation<V>, q: Request,
                        p: Prescription<V>): Result<Flight<V>, Refusal>
  {
    if !HasId(Transitions(rt), p.body.transition) then Err(Stale)
    else
      var t := Lookup(Transitions(rt), p.body.transition);
      var objective := ObjectiveFor(s, q.objective, t);
      if Required(rt, t).None? then Err(NotResolved)
      else if !ValidState(AttemptState(s, p)) then Err(BadAttempt)
      else
        var chosen := if objective.Some? then objective.value else None;
        Ok(Flight(s, o, p, t, chosen, AuthorityOf(q.authority), Required(rt, t).value))
  }

  // ----- The commit -----

  function TargetBinding<V>(f: Flight<V>): Option<Binding> {
    match f.transition.mutation
    case Bind => if f.objective.Some? then Some(BindingOf(f.objective.value)) else f.prior.binding
    case Clear => None
    case _ => f.prior.binding
  }

  function TargetState<V>(f: Flight<V>): ControlState<V> {
    var attempt := AttemptState(f.prior, f.prescription);
    attempt.(mode := f.transition.targetMode, revision := Next(attempt.revision), binding := TargetBinding(f),
      recovery := None)
  }

  function ReceiptFor<V>(f: Flight<V>, facts: seq<EffectFact>, target: Observation<V>, now: Time): Receipt<V> {
    var body := ReceiptBody(
                  RECEIPT_SCHEMA, f.prior.instance, f.prescription.id, f.prior.program, f.transition.id,
                  f.prior.revision, Next(f.prior.revision), Next(Next(f.prior.revision)), TargetBinding(f),
                  f.authority.fingerprint, f.required, Sort(FactLess, facts), f.observation.fingerprint,
                  target.fingerprint, true, now);
    Receipt(HashOf(body), body)
  }

  /** What happens between recording the attempt and the commit. */
  datatype Outcome<V> = Outcome(effect: Option<seq<EffectFact>>, target: Option<Observation<V>>, verified: bool,
    committedAt: Time)

  predicate Commits<V(==)>(f: Flight<V>, e: Outcome<V>) {
    && e.effect.Some? && ValidEffects(f.transition, e.effect.value) && e.target.Some? && e.verified
    && ValidReceipt(ReceiptFor(f, e.effect.value, e.target.value, e.committedAt))
  }

  function CommittedReceipt<V>(f: Flight<V>, e: Outcome<V>): Receipt<V>
    requires e.effect.Some? && e.target.Some?
  {
    ReceiptFor(f, e.effect.value, e.target.value, e.committedAt)
  }

  // ----- The store -----

  /** The durable transaction unit: the control state and its receipts are
      replaced together, on the revision the writer has seen. */
  class Store<V(==)> {
    var state: ControlState<V>
    var receipts: seq<Receipt<V>>

    constructor (initial: ControlState<V>)
      ensures state == initial && receipts == []
    {
      state, receipts := initial, [];
    }

    /** A save may fail; then nothing is replaced. */
    method BeginEffect(revision: Revision, target: ControlState<V>, saved: bool) returns (ok: bool)
      modifies this`state
      ensures ok <==> saved && old(state).revision == revision
      ensures state == if ok then target else old(state)
    {
      if state.revision != revision || !saved { return false; }
      state := target;
      return true;
    }

    method CommitTransition(revision: Revision, target: ControlState<V>, receipt: Receipt<V>, saved: bool)
      returns (ok: bool)
      modifies this
      ensures ok <==> saved && old(state).revision == revision
      ensures state == if ok then target else old(state)
      ensures receipts == if ok then old(receipts) + [receipt] else old(receipts)
    {
      if state.revision != revision || !saved { return false; }
      state, receipts := target, receipts + [receipt];
      return true;
    }
  }

  /** Which of the two saves reach the disk. */
  datatype Saves = Saves(attempt: bool, commit: bool)

  datatype Applied<V> = NotBegun(why: Refusal) | NotSaved | RecoveryRequired | Committed(receipt: Receipt<V>)

  method PrepareFlight<V(==)>(rt: Runtime, s: ControlState<V>, o: Observation<V>, q: Request, p: Prescription<V>,
                              clock: Clock, admits: Evaluation<V> -> Answer)
    returns (f: Result<Flight<V>, Refusal>)
    ensures f == Launch(rt, s, o, q, p, clock, admits)
  {
    var authority := Project(q.authority, clock.checked);
    if authority.None? { return Err(BadAuthority); }
    if !Current(p, s, o, authority.value) { return Err(Stale); }
    var r := Resolve(rt, s, o, q, clock.resolved, admits);
    if r.None? { return Err(NotResolved); }
    if r.value.decision.kind != R.Prescribed || r.value.prescription.None? {
      return Err(NotPrescribed(r.value.decision.kind));
    }
    if r.value.prescription.value.id != p.id { return Err(Stale); }
    return FlightFor(rt, s, o, q, p);
  }

  /** The attempt is saved, the effect runs, and the commit replaces the attempt
      together with a receipt. */
  method Fly<V(==)>(store: Store<V>, f: Flight<V>, e: Outcome<V>, saves: Saves) returns (r: Applied<V>)
    requires store.state == f.prior
    modifies store
    ensures !saves.attempt ==>
      r == NotSaved && store.state == old(store.state) && store.receipts == old(store.receipts)
    ensures saves.attempt && Commits(f, e) && saves.commit ==>
      && r == Committed(CommittedReceipt(f, e)) && store.state == TargetState(f)
      && store.receipts == old(store.receipts) + [CommittedReceipt(f, e)]
    ensures saves.attempt && !(Commits(f, e) && saves.commit) ==>
      && r == RecoveryRequired && store.state == AttemptState(f.prior, f.prescription)
      && store.receipts == old(store.receipts)
  {
    var s, p := store.state, f.prescription;
    var attempt := s;
    attempt := attempt.(revision := Next(attempt.revision));
    if s.recovery.None? {
      attempt := attempt.(recovery := Some(Recovery(p.id, p.body.transition)));
    } else {
      attempt := attempt.(recovery := s.recovery);
    }
    var begun := store.BeginEffect(s.revision, attempt, saves.attempt);
    if !begun { return NotSaved; }
    if e.effect.None? || !ValidEffects(f.transition, e.effect.value) || e.target.None? || !e.verified {
      return RecoveryRequired;
    }
    var target := attempt;
    target := target.(mode := f.transition.targetMode, revision := Next(target.revision));
    match f.transition.mutation {
      case Bind => if f.objective.Some? { target := target.(binding := Some(BindingOf(f.objective.value))); }
      case Clear => target := target.(binding := None);
      case _ =>
    }
    target := target.(recovery := None);
    var receipt := ReceiptFor(f, e.effect.value, e.target.value, e.committedAt);
    if !ValidReceipt(receipt) { return RecoveryRequired; }
    var committed := store.CommitTransition(attempt.revision, target, receipt, saves.commit);
    if !committed { return RecoveryRequired; }
    return Committed(receipt);
  }

  lemma LaunchedFlight<V>(rt: Runtime, s: ControlState<V>, o: Observation<V>, q: Request, p: Prescription<V>,
                          clock: Clock, admits: Evaluation<V> -> Answer)
    requires Launch(rt, s, o, q, p, clock, admits).Ok?
    ensures var f := Launch(rt, s, o, q, p, clock, admits).value;
      f.prior == s && f.prescription == p && f.observation == o
  {
  }

  /** One call of apply: nothing changes unless the attempt is saved; a saved
      attempt stays until the commit replaces it together with a receipt. */
  method Apply<V(==)>(rt: Runtime, store: Store<V>, o: Observation<V>, q: Request, p: Prescription<V>, clock: Clock,
                      admits: Evaluation<V> -> Answer, e: Outcome<V>, saves: Saves)
    returns (r: Applied<V>)
    modifies store
    ensures var launch := old(Launch(rt, store.state, o, q, p, clock, admits));
      && (launch.Err? ==>
           r == NotBegun(launch.error) && store.state == old(store.state) && store.receipts == old(store.receipts))
      && (launch.Ok? && !saves.attempt ==>
           r == NotSaved && store.state == old(store.state) && store.receipts == old(store.receipts))
      && (launch.Ok? && saves.attempt ==>
        if Commits(launch.value, e) && saves.commit then
          && r == Committed(CommittedReceipt(launch.value, e)) && store.state == TargetState(launch.value)
          && store.receipts == old(store.receipts) + [CommittedReceipt(launch.value, e)]
        else
          && r == RecoveryRequired && store.state == AttemptState(old(store.state), p)
          && store.receipts == old(store.receipts))
  {
    var launch := PrepareFlight(rt, store.state, o, q, p, clock, admits);
    if launch.Err? { return NotBegun(launch.error); }
    LaunchedFlight(rt, store.state, o, q, p, clock, admits);
    r := Fly(store, launch.value, e, saves);
  }
}
