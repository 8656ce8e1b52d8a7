/** Resolving a prescription, rechecking it, and the two-phase attempt and
    commit around an effect. */
module KernelRuntime {
  import opened Base
  import opened Ordering
  import P = KernelProgram
  import R = KernelRelation

  /** A content hash is represented by the content it identifies. */
  datatype Hash<T> = HashOf(content: T) | OtherText(text: string)

  predicate HashShaped<T>(h: Hash<T>) { h.HashOf? || |h.text| == 64 }

  /** Revisions are unsigned 64-bit counters. */
  const REVISIONS := 0x1_0000_0000_0000_0000
  type Revision = r: nat | r < REVISIONS

  function Next(r: Revision): Revision { (r + 1) % REVISIONS }

  const PRESCRIPTION_SCHEMA := 2
  const RECEIPT_SCHEMA := 3

  // ----- Objectives -----

  datatype Reference = Json(text: string) | NotJson(text: string)
  datatype ObjectiveContent = ObjectiveContent(id: string, revision: Revision, reference: Reference)
  datatype Objective = Objective(content: ObjectiveContent, fingerprint: Hash<ObjectiveContent>)
  datatype Binding = Binding(id: string, revision: Revision, fingerprint: Hash<ObjectiveContent>)

  predicate ValidObjective(o: Objective) {
    && P.SemanticId(o.content.id) && o.content.revision != 0 && o.content.reference.Json?
    && o.fingerprint == HashOf(o.content)
  }

  function BindingOf(o: Objective): Binding { Binding(o.content.id, o.content.revision, o.fingerprint) }

  predicate ValidBinding(b: Binding) { P.SemanticId(b.id) && b.revision != 0 && HashShaped(b.fingerprint) }

  predicate Matches(b: Option<Binding>, o: Option<Objective>) {
    b.Some? && o.Some? && ValidObjective(o.value) && b.value == BindingOf(o.value)
  }

  // ----- Control state -----

  datatype ProgramIdentity = ProgramIdentity(id: string, version: string, fingerprint: P.Fingerprint)

  predicate ValidIdentity(p: ProgramIdentity) {
    P.SemanticId(p.id) && p.version != "" && (p.fingerprint.ProgramHash? || |p.fingerprint.text| == 64)
  }

  function IdentityOf(p: P.Program): ProgramIdentity {
    ProgramIdentity(p.declaration.id, p.declaration.version, p.fingerprint)
  }

  datatype Recovery<V> = Recovery(prescription: Hash<PrescriptionBody<V>>, transition: string)

  datatype ControlState<V> = ControlState(
    instance: string, program: ProgramIdentity, binding: Option<Binding>, mode: string,
    revision: Revision, recovery: Option<Recovery<V>>)

  predicate ValidState<V>(s: ControlState<V>) {
    && P.SemanticId(s.instance) && s.mode != "" && s.revision != 0 && ValidIdentity(s.program)
    && (s.binding.Some? ==> ValidBinding(s.binding.value))
    && (s.recovery.Some? ==>
      (s.recovery.value.prescription.HashOf? || s.recovery.value.prescription.text != "") &&
      P.QualifiedId(s.recovery.value.transition))
  }

  // ----- Observation and authority -----

  /** A domain observation; without a value it is not valid JSON. */
  datatype Observation<V> = Observation(value: Option<V>, fingerprint: Hash<V>)

  predicate ValidObservation<V(==)>(o: Observation<V>) { o.value.Some? && o.fingerprint == HashOf(o.value.value) }

  function Observed<V>(value: V): Observation<V> { Observation(Some(value), HashOf(value)) }

  /** Times are instants; zero is the absent time. */
  type Time = int

  datatype AuthorityReceipt = AuthorityReceipt(
    id: string, subject: string, fingerprint: string, capabilities: seq<string>, issuedAt: Time, expiresAt: Time)

  predicate ValidAuthorityReceipt(r: AuthorityReceipt, now: Time) {
    && P.SemanticId(r.id) && r.subject != "" && r.fingerprint != ""
    && r.issuedAt != 0 && r.issuedAt <= now && (r.expiresAt != 0 ==> now < r.expiresAt)
    && r.capabilities != [] && P.ValidCapabilities(r.capabilities)
  }

  datatype Authority = Authority(fingerprint: Hash<seq<AuthorityReceipt>>, capabilities: seq<string>)

  predicate ById(a: AuthorityReceipt, b: AuthorityReceipt) { StringLess(a.id, b.id) }

  function Granted(receipts: seq<AuthorityReceipt>): (r: seq<string>)
    ensures forall c :: c in r <==> exists a :: a in receipts && c in a.capabilities
  {
    if receipts == [] then []
    else
      var n := |receipts| - 1;
      assert receipts == receipts[..n] + [receipts[n]];
      Granted(receipts[..n]) + receipts[n].capabilities
  }

  ghost predicate Presentable(receipts: seq<AuthorityReceipt>, now: Time) {
    && (forall r :: r in receipts ==> ValidAuthorityReceipt(r, now))
    && (forall i, j :: 0 <= i < j < |receipts| ==> receipts[i].id != receipts[j].id)
  }

  function AuthorityOf(receipts: seq<AuthorityReceipt>): Authority {
    var sorted := Sort(ById, receipts);
    Authority(HashOf(sorted), P.CapabilityList(Granted(sorted)))
  }

  /** The receipts read so far: all valid, their identities seen once each. */
  ghost predicate ReceiptsRead(sorted: seq<AuthorityReceipt>, now: Time, seen: set<string>, i: nat) {
    && i <= |sorted| && Presentable(sorted[..i], now)
    && seen == set k | 0 <= k < i :: sorted[k].id
  }

  lemma ReceiptRead(sorted: seq<AuthorityReceipt>, now: Time, seen: set<string>, i: nat)
    requires ReceiptsRead(sorted, now, seen, i) && i < |sorted|
    ensures (ValidAuthorityReceipt(sorted[i], now) && sorted[i].id !in seen) ==>
      ReceiptsRead(sorted, now, seen + {sorted[i].id}, i + 1)
    ensures (sorted[i].id in seen || !ValidAuthorityReceipt(sorted[i], now)) ==> !Presentable(sorted, now)
  {
    assert sorted[i] in sorted;
    assert sorted[..i + 1] == sorted[..i] + [sorted[i]];
    if ValidAuthorityReceipt(sorted[i], now) && sorted[i].id !in seen {
      var more := sorted[..i + 1];
      forall j, k | 0 <= j < k < |more| ensures more[j].id != more[k].id {
        if k < i { assert sorted[..i][j].id != sorted[..i][k].id; } else { assert sorted[j].id in seen; }
      }
    }
  }

  lemma PresentablePermuted(a: seq<AuthorityReceipt>, b: seq<AuthorityReceipt>, now: Time)
    requires multiset(a) == multiset(b)
    ensures Presentable(a, now) <==> Presentable(b, now)
  {
    var ids := (r: AuthorityReceipt) => r.id;
    MapSeqMultiset(ids, a, b);
    DistinctPermuted(MapSeq(ids, a), MapSeq(ids, b));
    DistinctIds(a);
    DistinctIds(b);
    SameElements(a, b);
  }

  lemma DistinctIds(a: seq<AuthorityReceipt>)
    ensures Distinct(MapSeq((r: AuthorityReceipt) => r.id, a)) <==> forall i, j :: 0 <= i < j < |a| ==>
      a[i].id != a[j].id
  {
    var ids := MapSeq((r: AuthorityReceipt) => r.id, a);
    if Distinct(ids) {
      forall i, j | 0 <= i < j < |a| ensures a[i].id != a[j].id { assert ids[i] != ids[j]; }
    }
  }

  /** Valid receipts grant well-formed capabilities. */
  lemma GrantedValid(receipts: seq<AuthorityReceipt>, now: Time)
    requires Presentable(receipts, now)
    ensures P.ValidCapabilities(Granted(receipts))
  {
  }

  method Project(receipts: seq<AuthorityReceipt>, now: Time) returns (r: Option<Authority>)
    ensures r == if Presentable(receipts, now) then Some(AuthorityOf(receipts)) else None
  {
    var sorted := Sort(ById, receipts);
    PresentablePermuted(sorted, receipts, now);
    var seen: set<string>, capabilities: seq<string> := {}, [];
    var i := 0;
    while i < |sorted|
      invariant 0 <= i <= |sorted|
      invariant ReceiptsRead(sorted, now, seen, i)
      invariant capabilities == Granted(sorted[..i])
    {
      ReceiptRead(sorted, now, seen, i);
      if !ValidAuthorityReceipt(sorted[i], now) { return None; }
      if sorted[i].id in seen { return None; }
      seen := seen + {sorted[i].id};
      assert sorted[..i + 1][..i] == sorted[..i];
      capabilities := capabilities + sorted[i].capabilities;
      i := i + 1;
    }
    assert sorted[..i] == sorted;
    GrantedValid(sorted, now);
    var normalized := P.NormalizeCapabilities(capabilities);
    if normalized.None? { return None; }
    return Some(Authority(HashOf(sorted), normalized.value));
  }

  /** The order in which receipts are presented does not matter. */
  lemma AuthorityCanonical(a: seq<AuthorityReceipt>, b: seq<AuthorityReceipt>, now: Time)
    requires multiset(a) == multiset(b) && Presentable(a, now)
    ensures AuthorityOf(a) == AuthorityOf(b)
  {
    StringLessTotal();
    SortSorted(ById, a);
    SortSorted(ById, b);
    PresentablePermuted(a, Sort(ById, a), now);
    SortedUniqueOn(ById, Sort(ById, a), Sort(ById, b));
  }

  // ----- Prescriptions -----

  datatype Freshness<V> = Freshness(
    instance: string, revision: Revision, program: P.Fingerprint, snapshot: Hash<V>,
    binding: Hash<Option<Binding>>, authority: Hash<seq<AuthorityReceipt>>)

  predicate ValidFreshness<V>(f: Freshness<V>) {
    && f.instance != "" && f.revision != 0 && (f.program.ProgramHash? || |f.program.text| == 64)
    && HashShaped(f.snapshot) && HashShaped(f.binding) && (f.authority.HashOf? || f.authority.text != "")
  }

  predicate Checks<V(==)>(f: Freshness<V>, current: Freshness<V>) {
    ValidFreshness(f) && ValidFreshness(current) && f == current
  }

  function FreshnessOf<V>(s: ControlState<V>, o: Observation<V>, a: Authority): Freshness<V> {
    Freshness(s.instance, s.revision, s.program.fingerprint, o.fingerprint, HashOf(s.binding), a.fingerprint)
  }

  datatype PrescriptionBody<V> = PrescriptionBody(
    schema: int, transition: string, freshness: Freshness<V>,
    expected: Option<Binding>, requested: Option<Binding>, required: seq<string>)

  datatype Prescription<V> = Prescription(id: Hash<PrescriptionBody<V>>, body: PrescriptionBody<V>)

  predicate Current<V(==)>(p: Prescription<V>, s: ControlState<V>, o: Observation<V>, a: Authority) {
    && p.id == HashOf(p.body) && p.body.schema == PRESCRIPTION_SCHEMA
    && Checks(p.body.freshness, FreshnessOf(s, o, a)) && p.body.expected == s.binding
  }

  // ----- Resolution -----

  /** The program and the capability classifier of a runtime. */
  datatype Runtime = Runtime(program: P.Program, classify: P.Transition -> Option<seq<string>>)

  datatype Request = Request(
    instance: string, objective: Option<Objective>, authority: seq<AuthorityReceipt>, requested: string)

  datatype Evaluation<V> = Evaluation(
    state: ControlState<V>, observation: Observation<V>, objective: Option<Objective>, transition: P.Transition)

  datatype Answer = Allowed | Denied | Failed

  datatype Resolution<V> = Resolution(decision: R.Decision, prescription: Option<Prescription<V>>)

  function Transitions(rt: Runtime): seq<P.Transition> { rt.program.declaration.transitions }

  function Required(rt: Runtime, t: P.Transition): Option<seq<string>> {
    if rt.classify(t).None? || !P.ValidCapabilities(t.capabilities + rt.classify(t).value) then None
    else Some(P.CapabilityList(t.capabilities + rt.classify(t).value))
  }

  /** A runtime is built from a compiled program whose every transition the
      classifier knows. */
  ghost predicate ValidRuntime(rt: Runtime) {
    && P.ValidProgram(rt.program) && P.CanonicalDeclaration(rt.program.declaration) == rt.program.declaration
    && forall t :: t in Transitions(rt) ==> Required(rt, t).Some?
  }

  /** The objective a transition works with; nothing when the objective rules
      reject the transition. */
  function ObjectiveFor<V>(s: ControlState<V>, supplied: Option<Objective>, t: P.Transition): Option<Option<Objective>>
  {
    if t.mutation == P.Bind then
      if supplied.None? || !ValidObjective(supplied.value) || Matches(s.binding, supplied) then None else Some(supplied)
    else if t.mutation == P.Clear && s.binding.None? then None
    else match t.scope
      case NoObjective => Some(None)
      case OptionalPreserve => Some(if Matches(s.binding, supplied) then supplied else None)
      case BoundExact => if Matches(s.binding, supplied) then Some(supplied) else None
      case OtherScope(_) => None
  }

  datatype Verdict = Rejected | Broken | Admitted(candidate: R.Candidate)

  predicate RecoveryCompatible<V>(s: ControlState<V>, t: P.Transition) {
    if s.recovery.Some? then s.recovery.value.transition in t.recovers else t.recovers == []
  }

  function Judge<V>(rt: Runtime, s: ControlState<V>, o: Observation<V>, q: Request, admits: Evaluation<V> -> Answer,
                    t: P.Transition): Verdict {
    if (q.requested != "" && t.id != q.requested) || s.mode !in t.sourceModes || !RecoveryCompatible(s, t) then Rejected
    else
      var objective := ObjectiveFor(s, q.objective, t);
      if objective.None? then Rejected
      else match admits(Evaluation(s, o, objective.value, t))
        case Failed => Broken
        case Denied => Rejected
        case Allowed =>
          var required := Required(rt, t);
          if required.None? then Broken
          else Admitted(R.Candidate(t.id, 0, t.priority, true, required.value, []))
  }

  /** The candidates for the relation, or nothing when some callback fails. */
  function Candidates<V>(rt: Runtime, s: ControlState<V>, o: Observation<V>, q: Request,
                         admits: Evaluation<V> -> Answer, ts: seq<P.Transition>): Option<seq<R.Candidate>> {
    if ts == [] then Some([])
    else
      var n := |ts| - 1;
      var rest := Candidates(rt, s, o, q, admits, ts[..n]);
      if rest.None? then None
      else match Judge(rt, s, o, q, admits, ts[n])
        case Rejected => rest
        case Broken => None
        case Admitted(c) => Some(rest.value + [c])
  }

  predicate Resolvable<V(==)>(rt: Runtime, s: ControlState<V>, o: Observation<V>, q: Request) {
    ValidState(s) && ValidObservation(o) && s.instance == q.instance && s.program == IdentityOf(rt.program)
  }

  predicate Settled<V>(rt: Runtime, s: ControlState<V>, q: Request) {
    s.mode in rt.program.declaration.markedModes && s.recovery.None? && q.requested == ""
  }

  function QuestionOf(q: Request, a: Authority): R.Question { R.Question(q.requested, false, None, a.capabilities) }

  function Undecided(kind: R.Kind): R.Decision { R.Decision(kind, "", []) }

  predicate HasId(ts: seq<P.Transition>, id: string) { exists t :: t in ts && t.id == id }

  function Lookup(ts: seq<P.Transition>, id: string): (t: P.Transition)
    requires HasId(ts, id)
    ensures t in ts && t.id == id
  {
    if ts[0].id == id then ts[0]
    else
      assert ts == [ts[0]] + ts[1..];
      Lookup(ts[1..], id)
  }

  function Prescribe<V>(rt: Runtime, s: ControlState<V>, o: Observation<V>, objective: Option<Objective>,
                        a: Authority, t: P.Transition, required: seq<string>): Prescription<V>
    requires t.mutation == P.Bind ==> objective.Some?
  {
    var body := PrescriptionBody(
                  PRESCRIPTION_SCHEMA, t.id, FreshnessOf(s, o, a), s.binding,
                  if t.mutation == P.Bind then Some(BindingOf(objective.value)) else None, required);
    Prescription(HashOf(body), body)
  }

  /** The prescription for a decided transition; nothing when it cannot be
      built. */
  function PrescriptionFor<V>(rt: Runtime, s: ControlState<V>, o: Observation<V>, q: Request, a: Authority,
                              id: string): Option<Prescription<V>> {
    if !HasId(Transitions(rt), id) then None
    else
      var t := Lookup(Transitions(rt), id);
      var objective := ObjectiveFor(s, q.objective, t);
      if objective.None? || Required(rt, t).None? || !ValidFreshness(FreshnessOf(s, o, a)) then None
      else Some(Prescribe(rt, s, o, objective.value, a, t, Required(rt, t).value))
  }

  ghost function Resolved<V>(rt: Runtime, s: ControlState<V>, o: Observation<V>, q: Request, now: Time,
                             admits: Evaluation<V> -> Answer): Option<Resolution<V>> {
    if !Resolvable(rt, s, o, q) then Some(Resolution(Undecided(R.Unresolved), None))
    else if Settled(rt, s, q) then Some(Resolution(Undecided(R.Marked), None))
    else if !Presentable(q.authority, now) then Some(Resolution(Undecided(R.Refused), None))
    else
      var a := AuthorityOf(q.authority);
      var candidates := Candidates(rt, s, o, q, admits, Transitions(rt));
      if candidates.None? then None
      else
        var decision := R.Decide(QuestionOf(q, a), candidates.value);
        if decision.kind != R.Prescribed then Some(Resolution(decision, None))
        else
          var p := PrescriptionFor(rt, s, o, q, a, decision.transition);
          if p.None? then None else Some(Resolution(decision, p))
  }

  method Collect<V>(rt: Runtime, s: ControlState<V>, o: Observation<V>, q: Request, admits: Evaluation<V> -> Answer)
    returns (r: Option<seq<R.Candidate>>)
    ensures r == Candidates(rt, s, o, q, admits, Transitions(rt))
  {
    var ts := Transitions(rt);
    var candidates: seq<R.Candidate> := [];
    var i := 0;
    while i < |ts|
      invariant 0 <= i <= |ts|
      invariant Candidates(rt, s, o, q, admits, ts[..i]) == Some(candidates)
    {
      CandidatesStep(rt, s, o, q, admits, ts, i);
      match Judge(rt, s, o, q, admits, ts[i]) {
        case Rejected =>
        case Broken =>
          BrokenPrefix(rt, s, o, q, admits, ts, i + 1);
          return None;
        case Admitted(c) => candidates := candidates + [c];
      }
      i := i + 1;
    }
    assert ts[..i] == ts;
    return Some(candidates);
  }

  method Resolve<V(==)>(rt: Runtime, s: ControlState<V>, o: Observation<V>, q: Request, now: Time,
                        admits: Evaluation<V> -> Answer)
    returns (r: Option<Resolution<V>>)
    ensures r == Resolved(rt, s, o, q, now, admits)
  {
    if !Resolvable(rt, s, o, q) { return Some(Resolution(Undecided(R.Unresolved), None)); }
    if Settled(rt, s, q) { return Some(Resolution(Undecided(R.Marked), None)); }
    var authority := Project(q.authority, now);
    if authority.None? { return Some(Resolution(Undecided(R.Refused), None)); }
    var candidates := Collect(rt, s, o, q, admits);
    if candidates.None? { return None; }
    var decision := DecideOn(QuestionOf(q, authority.value), candidates.value);
    if decision.kind != R.Prescribed { return Some(Resolution(decision, None)); }
    var p := PrescriptionFor(rt, s, o, q, authority.value, decision.transition);
    if p.None? { return None; }
    return Some(Resolution(decision, p));
  }

  method DecideOn(q: R.Question, candidates: seq<R.Candidate>) returns (d: R.Decision)
    ensures d == R.Decide(q, candidates)
  {
    var slice := new R.Candidate[|candidates|](i requires 0 <= i < |candidates| => candidates[i]);
    assert slice[..] == candidates;
    d := R.Choose(q, slice);
  }

  lemma CandidatesStep<V>(rt: Runtime, s: ControlState<V>, o: Observation<V>, q: Request,
                          admits: Evaluation<V> -> Answer, ts: seq<P.Transition>, i: nat)
    requires i < |ts|
    ensures ts[..i + 1][..i] == ts[..i] && ts[..i + 1][i] == ts[i]
  {
  }

  lemma {:induction false} BrokenPrefix<V>(rt: Runtime, s: ControlState<V>, o: Observation<V>, q: Request,
                                           admits: Evaluation<V> -> Answer, ts: seq<P.Transition>, i: nat)
    requires i <= |ts| && Candidates(rt, s, o, q, admits, ts[..i]).None?
    ensures Candidates(rt, s, o, q, admits, ts).None?
    decreases |ts| - i
  {
    if i == |ts| {
      assert ts[..i] == ts;
    } else {
      CandidatesStep(rt, s, o, q, admits, ts, i);
      BrokenPrefix(rt, s, o, q, admits, ts, i + 1);
    }
  }
}
