/** The review program and its law: what a staged candidate is worth, and which
    single submission it admits. */
module ReviewLaw {
  import opened Base
  import opened DiffLines
  import P = KernelProgram
  import R = KernelRelation
  import K = KernelRuntime

  // ----- Policy -----

  type Weights = s: seq<int> | |s| == 4 witness [1, 1, 1, 1]
  type Flags = s: seq<bool> | |s| == 4 witness [true, false, false, false]

  datatype Policy = Policy(prompt: string, schema: string, maxRounds: int, stallWindow: int, weights: Weights,
    blocking: Flags)

  predicate ValidPolicy(p: Policy) {
    && p.prompt != "" && p.schema != "" && p.maxRounds >= 1 && p.stallWindow >= 1
    && (forall k :: 0 <= k < 4 ==> p.weights[k] >= 1)
    && exists k :: 0 <= k < 4 && p.blocking[k]
  }

  // ----- Candidates -----

  const INCORRECT := "patch is incorrect"

  datatype Finding = Finding(priority: int, anchor: Anchor)

  /** A candidate that decodes into the review contract. */
  datatype Review = Review(verdict: string, findings: seq<Finding>)

  /** The deterministic projection of a staged candidate. */
  datatype Summary = Summary(
    fingerprint: string, reviewedTree: string, valid: bool, verdict: string,
    measure: int, blockingMeasure: int, findingCount: nat, priorities: Weights)

  predicate Ranked(f: Finding) { 0 <= f.priority <= 3 }

  predicate Blocks(p: Policy, f: Finding) { Ranked(f) && p.blocking[f.priority] }

  function Measure(p: Policy, fs: seq<Finding>): int {
    if fs == [] then 0
    else Measure(p, fs[..|fs| - 1]) + if Ranked(fs[|fs| - 1]) then p.weights[fs[|fs| - 1].priority] else 0
  }

  function BlockingMeasure(p: Policy, fs: seq<Finding>): int {
    if fs == [] then 0
    else BlockingMeasure(p, fs[..|fs| - 1]) + if Blocks(p, fs[|fs| - 1]) then p.weights[fs[|fs| - 1].priority] else 0
  }

  function Priorities(fs: seq<Finding>): Weights {
    if fs == [] then [0, 0, 0, 0]
    else
      var rest, last := Priorities(fs[..|fs| - 1]), fs[|fs| - 1];
      if Ranked(last) then rest[last.priority := rest[last.priority] + 1] else rest
  }

  /** Every finding points at changed lines, and a rejecting verdict names at
      least one finding. */
  ghost predicate Acceptable(r: Review, allowed: Allowed) {
    && !(r.verdict == INCORRECT && r.findings == [])
    && forall f :: f in r.findings ==> Anchored(f.anchor, allowed)
  }

  /** Without a review the candidate does not decode or violates the schema. */
  ghost function SummaryOf(p: Policy, fingerprint: string, review: Option<Review>, tree: string,
                           allowed: Allowed): Summary
  {
    if review.None? then Summary(fingerprint, tree, false, "", 0, 0, 0, [0, 0, 0, 0])
    else
      var r := review.value;
      Summary(fingerprint, tree, Acceptable(r, allowed), r.verdict,
              Measure(p, r.findings), BlockingMeasure(p, r.findings), |r.findings|, Priorities(r.findings))
  }

  ghost predicate AnchoredUpTo(fs: seq<Finding>, i: nat, allowed: Allowed)
    requires i <= |fs|
  {
    forall k :: 0 <= k < i ==> Anchored(fs[k].anchor, allowed)
  }

  lemma AnchoredOneMore(fs: seq<Finding>, i: nat, allowed: Allowed)
    requires i < |fs|
    ensures AnchoredUpTo(fs, i + 1, allowed) <==> AnchoredUpTo(fs, i, allowed) && Anchored(fs[i].anchor, allowed)
  {
  }

  lemma SummaryAtEnd(p: Policy, fingerprint: string, r: Review, tree: string, allowed: Allowed, valid: bool)
    requires valid <==>
      !(r.verdict == INCORRECT && |r.findings| == 0) && AnchoredUpTo(r.findings, |r.findings|, allowed)
    ensures SummaryOf(p, fingerprint, Some(r), tree, allowed) ==
      Summary(fingerprint, tree, valid, r.verdict,
              Measure(p, r.findings), BlockingMeasure(p, r.findings), |r.findings|, Priorities(r.findings))
  {
    assert Acceptable(r, allowed) == valid;
  }

  method EvaluateCandidate(p: Policy, fingerprint: string, review: Option<Review>, tree: string, diff: seq<string>)
    returns (s: Summary)
    ensures s == SummaryOf(p, fingerprint, review, tree, AllowedBy(Scan(START, diff)))
  {
    if review.None? { return Summary(fingerprint, tree, false, "", 0, 0, 0, [0, 0, 0, 0]); }
    var fs := review.value.findings;
    var allowed := ChangedLines(diff);
    var valid := !(review.value.verdict == INCORRECT && |fs| == 0);
    var measure, blockingMeasure := 0, 0;
    var priorities: Weights := [0, 0, 0, 0];
    var i := 0;
    while i < |fs|
      invariant 0 <= i <= |fs|
      invariant measure == Measure(p, fs[..i]) && blockingMeasure == BlockingMeasure(p, fs[..i])
      invariant priorities == Priorities(fs[..i])
      invariant valid <==> !(review.value.verdict == INCORRECT && |fs| == 0) && AnchoredUpTo(fs, i, allowed)
    {
      SummaryStep(p, fs, i);
      var f := fs[i];
      if 0 <= f.priority <= 3 {
        priorities := priorities[f.priority := priorities[f.priority] + 1];
        measure := measure + p.weights[f.priority];
        if p.blocking[f.priority] { blockingMeasure := blockingMeasure + p.weights[f.priority]; }
      }
      AnchoredOneMore(fs, i, allowed);
      var failed := AnchorFails(f.anchor, allowed);
      if failed { valid := false; }
      i := i + 1;
    }
    assert fs[..i] == fs;
    SummaryAtEnd(p, fingerprint, review.value, tree, allowed, valid);
    return Summary(fingerprint, tree, valid, review.value.verdict, measure, blockingMeasure, |fs|, priorities);
  }

  lemma SummaryStep(p: Policy, fs: seq<Finding>, i: nat)
    requires i < |fs|
    ensures Measure(p, fs[..i + 1]) == Measure(p, fs[..i]) + if Ranked(fs[i]) then p.weights[fs[i].priority] else 0
    ensures BlockingMeasure(p, fs[..i + 1])
      == BlockingMeasure(p, fs[..i]) + if Blocks(p, fs[i]) then p.weights[fs[i].priority] else 0
    ensures Priorities(fs[..i + 1]) ==
      if Ranked(fs[i]) then Priorities(fs[..i])[fs[i].priority := Priorities(fs[..i])[fs[i].priority] + 1]
      else Priorities(fs[..i])
  {
    assert fs[..i + 1][..i] == fs[..i];
  }

  /** The blocking measure is zero exactly when no finding blocks. */
  lemma {:induction false} NothingBlocks(p: Policy, fs: seq<Finding>)
    requires ValidPolicy(p)
    ensures BlockingMeasure(p, fs) >= 0
    ensures BlockingMeasure(p, fs) == 0 <==> forall f :: f in fs ==> !Blocks(p, f)
  {
    if fs != [] {
      var n := |fs| - 1;
      assert fs == fs[..n] + [fs[n]];
      NothingBlocks(p, fs[..n]);
    }
  }

  // ----- Stalling -----

  function Window(p: Policy): int { if p.stallWindow > 2 then p.stallWindow else 2 }

  /** None of the last n entries is below the one before it. */
  ghost predicate NoDecrease(history: seq<int>, n: int) {
    && 1 <= n <= |history|
    && forall k :: |history| - n < k < |history| ==> history[k - 1] <= history[k]
  }

  /** The last `Window` submissions bring no decrease. */
  ghost predicate Stalled(p: Policy, recorded: seq<int>, measure: int) {
    NoDecrease(recorded + [measure], Window(p))
  }

  method StallCheck(p: Policy, recorded: seq<int>, measure: int) returns (stalled: bool)
    requires p.stallWindow >= 1
    ensures stalled <==> Stalled(p, recorded, measure)
  {
    if |recorded| == 0 { return false; }
    var history := recorded + [measure];
    var runLength := 1;
    var index := |history| - 1;
    while index >= 1
      invariant 0 <= index < |history| && runLength == |history| - index
      invariant NoDecrease(history, runLength)
      invariant runLength < Window(p)
    {
      if history[index] < history[index - 1] { return false; }
      runLength := runLength + 1;
      index := index - 1;
      if runLength >= p.stallWindow { return true; }
    }
    return false;
  }

  // ----- Observation -----

  const CONVERGE := "review.converge"
  const RECORD := "review.findings.record"
  const ESCALATE := "review.escalate"
  const REOPEN := "review.reopen"
  const RECOVER := "review.recover"

  datatype Round = Round(
    generation: nat, index: nat, fingerprint: string, reviewedTree: string, headCommit: string, mergeBase: string,
    verdict: string, measure: int, blockingMeasure: int, findingCount: nat, priorities: Weights, transition: string)

  datatype Observed = Observed(
    instance: string, baseRef: string, mergeBase: string, headCommit: string, reviewedTree: string,
    dirty: Option<string>, generation: nat, candidate: Option<Summary>, rounds: seq<Round>)

  function Measures(rounds: seq<Round>): seq<int> { MapSeq((r: Round) => r.blockingMeasure, rounds) }

  method RoundBlockingMeasures(rounds: seq<Round>) returns (measures: seq<int>)
    ensures measures == Measures(rounds)
  {
    measures := [];
    var i := 0;
    while i < |rounds|
      invariant 0 <= i <= |rounds|
      invariant measures == Measures(rounds[..i])
    {
      measures := measures + [rounds[i].blockingMeasure];
      i := i + 1;
    }
    assert rounds[..i] == rounds;
  }

  /** A candidate that a submission may act on. */
  predicate Submittable(v: Observed) {
    v.candidate.Some? && v.dirty.None? && v.candidate.value.reviewedTree == v.reviewedTree && v.candidate.value.valid
  }

  /** The one submission an observation admits. */
  ghost function Disposition(p: Policy, v: Observed): Option<string> {
    if !Submittable(v) then None
    else if v.candidate.value.blockingMeasure == 0 then Some(CONVERGE)
    else if |v.rounds| >= p.maxRounds || Stalled(p, Measures(v.rounds), v.candidate.value.blockingMeasure)
      then Some(ESCALATE)
    else Some(RECORD)
  }

  method SubmissionDisposition(p: Policy, v: Observed) returns (d: Option<string>)
    requires p.stallWindow >= 1
    ensures d == Disposition(p, v)
  {
    if v.candidate.None? { return None; }
    if v.dirty.Some? { return None; }
    var candidate := v.candidate.value;
    if candidate.reviewedTree != v.reviewedTree { return None; }
    if !candidate.valid { return None; }
    if candidate.blockingMeasure == 0 { return Some(CONVERGE); }
    var rounds := RoundBlockingMeasures(v.rounds);
    if |rounds| >= p.maxRounds { return Some(ESCALATE); }
    var stalled := StallCheck(p, rounds, candidate.blockingMeasure);
    if stalled { return Some(ESCALATE); }
    return Some(RECORD);
  }

  // ----- The program -----

  const UNREVIEWED := "unreviewed"
  const FINDINGS_OPEN := "findings-open"
  const CONVERGED := "converged"
  const ESCALATED := "escalated"
  const ROUND_FACET := "review.round"
  const SUBMIT := "review.submit"
  const HUMAN := "review.human"
  const RECOVERY := "review.recover"

  function Preserving(id: string, sources: seq<string>, target: string, capability: string, priority: int,
                      recovers: seq<string>): P.Transition {
    P.Transition(id, sources, target, P.NoObjective, P.Preserve, [capability], [ROUND_FACET], id, priority, recovers)
  }

  function Submission(id: string, target: string, priority: int): P.Transition {
    Preserving(id, [UNREVIEWED, FINDINGS_OPEN], target, SUBMIT, priority, [])
  }

  function ReviewTransitions(): seq<P.Transition> {
    [ Submission(CONVERGE, CONVERGED, 10),
      Submission(RECORD, FINDINGS_OPEN, 20),
      Submission(ESCALATE, ESCALATED, 30),
      Preserving(REOPEN, [CONVERGED, ESCALATED], UNREVIEWED, HUMAN, 40, []),
      Preserving(RECOVER, [UNREVIEWED, FINDINGS_OPEN, CONVERGED, ESCALATED], UNREVIEWED, RECOVERY, 5,
        [CONVERGE, RECORD, ESCALATE, REOPEN])
    ]
  }

  /** The program bound to a policy through the hash of its contract. */
  function ReviewDeclaration(contract: string): P.Declaration {
    P.Declaration(P.PROGRAM_SCHEMA, "boatstack-reviewer", "1", "kernel-v1", contract, UNREVIEWED, [CONVERGED],
      ReviewTransitions())
  }

  /** The capability classifier: fixed by operation. */
  function Classify(t: P.Transition): Option<seq<string>> {
    if t.operation == CONVERGE || t.operation == RECORD || t.operation == ESCALATE then Some([SUBMIT])
    else if t.operation == REOPEN then Some([HUMAN])
    else if t.operation == RECOVER then Some([RECOVERY])
    else None
  }

  function ReviewRuntime(contract: string): K.Runtime {
    K.Runtime(P.CompiledProgram(ReviewDeclaration(contract)), Classify)
  }

  // ----- The program compiles -----

  lemma SubmissionNames()
    ensures P.SemanticId(CONVERGE) && P.SemanticId(RECORD) && P.SemanticId(ESCALATE)
  {
  }

  lemma HumanNames()
    ensures P.SemanticId(REOPEN) && P.SemanticId(RECOVER) && P.SemanticId(SUBMIT) && P.SemanticId(HUMAN)
    ensures P.SemanticId(RECOVERY)
  {
  }

  lemma ModeNames()
    ensures P.SemanticId(UNREVIEWED) && P.SemanticId(FINDINGS_OPEN) && P.SemanticId(CONVERGED)
    ensures P.SemanticId(ESCALATED)
  {
  }

  lemma OtherNames()
    ensures P.SemanticId(ROUND_FACET) && P.SemanticId("boatstack-reviewer")
  {
  }

  lemma SemanticIsQualified(s: string)
    requires P.SemanticId(s)
    ensures P.QualifiedId(s)
  {
    assert s[|s| - 1] in s;
    assert forall i :: 0 <= i < |s| ==> s[i] in s;
  }

  lemma DifferentNames()
    ensures Distinct([CONVERGE, RECORD, ESCALATE, REOPEN, RECOVER])
    ensures Distinct([UNREVIEWED, FINDINGS_OPEN, CONVERGED, ESCALATED])
  {
    assert CONVERGE[7] == 'c' && RECORD[7] == 'f' && ESCALATE[7] == 'e' && REOPEN[7] == 'r' && RECOVER[7] == 'r';
    assert REOPEN[9] == 'o' && RECOVER[9] == 'c';
    assert UNREVIEWED[0] == 'u' && FINDINGS_OPEN[0] == 'f' && CONVERGED[0] == 'c' && ESCALATED[0] == 'e';
  }

  lemma PreservingIsValid(id: string, sources: seq<string>, target: string, capability: string, priority: int,
                          recovers: seq<string>)
    requires P.SemanticId(id) && sources != [] && target != "" && priority >= 1 && P.SemanticId(capability)
    requires P.WellFormedIds(sources, false) && Distinct(recovers) && forall r :: r in recovers ==> P.SemanticId(r)
    ensures var t := Preserving(id, sources, target, capability, priority, recovers);
      P.ValidTransition(t) && P.WellFormedLists(t)
  {
    SemanticIsQualified(id);
    OtherNames();
    forall r | r in recovers ensures P.QualifiedId(r) { SemanticIsQualified(r); }
  }

  lemma EachIsValid()
    ensures forall t :: t in ReviewTransitions() ==> P.ValidTransition(t) && P.WellFormedLists(t)
  {
    SubmissionNames();
    HumanNames();
    ModeNames();
    DifferentNames();
    PreservingIsValid(CONVERGE, [UNREVIEWED, FINDINGS_OPEN], CONVERGED, SUBMIT, 10, []);
    PreservingIsValid(RECORD, [UNREVIEWED, FINDINGS_OPEN], FINDINGS_OPEN, SUBMIT, 20, []);
    PreservingIsValid(ESCALATE, [UNREVIEWED, FINDINGS_OPEN], ESCALATED, SUBMIT, 30, []);
    PreservingIsValid(REOPEN, [CONVERGED, ESCALATED], UNREVIEWED, HUMAN, 40, []);
    PreservingIsValid(RECOVER, [UNREVIEWED, FINDINGS_OPEN, CONVERGED, ESCALATED], UNREVIEWED, RECOVERY, 5,
      [CONVERGE, RECORD, ESCALATE, REOPEN]);
  }

  lemma AllRecovered()
    ensures forall t :: t in ReviewTransitions() ==>
      P.SoundRecovery(t, ReviewTransitions()) && P.Covered(t, ReviewTransitions())
  {
    var ts := ReviewTransitions();
    RecoverCovers();
    RecoversFirst(ts, ts[4], 4);
  }

  lemma RecoverCovers()
    ensures var ts := ReviewTransitions();
      && |ts| == 5 && |ts[4].recovers| == 4 && ts[4].scope == P.NoObjective && ts[4].mutation == P.Preserve
      && forall k :: 0 <= k < 4 ==> ts[k].recovers == [] && ts[k].id == ts[4].recovers[k] && P.Recovers(ts[4], ts[k])
  {
  }

  /** One transition that recovers the n before it. */
  lemma RecoversFirst(ts: seq<P.Transition>, u: P.Transition, n: nat)
    requires |ts| == n + 1 && ts[n] == u && |u.recovers| == n > 0 && u.scope == P.NoObjective
    requires u.mutation == P.Preserve
    requires forall k :: 0 <= k < n ==> ts[k].recovers == [] && ts[k].id == u.recovers[k] && P.Recovers(u, ts[k])
    ensures forall t :: t in ts ==> P.SoundRecovery(t, ts) && P.Covered(t, ts)
  {
    assert u in ts;
    forall r | r in u.recovers ensures exists v :: v in ts && v.id == r && P.Recovers(u, v) {
      var k :| 0 <= k < n && u.recovers[k] == r;
      assert ts[k] in ts;
    }
    forall t | t in ts ensures P.SoundRecovery(t, ts) && P.Covered(t, ts) {
      var k :| 0 <= k <= n && ts[k] == t;
      if k < n { assert t.id in u.recovers; }
    }
  }

  /** The review program compiles under every contract. */
  lemma ReviewCompiles(contract: string)
    requires |contract| == 64
    ensures P.WellFormed(ReviewDeclaration(contract))
  {
    EachIsValid();
    OtherNames();
    ModeNames();
    WrittenIsClosed();
    P.ClosedAsWritten(ReviewTransitions());
  }

  lemma WrittenIsClosed()
    ensures P.ClosedUnderRecovery(ReviewTransitions())
  {
    EachIsValid();
    AllRecovered();
    DifferentNames();
    var names := [CONVERGE, RECORD, ESCALATE, REOPEN, RECOVER];
    assert forall k :: 0 <= k < 5 ==> ReviewTransitions()[k].id == names[k];
  }

  function SourcesOf(id: string): set<string> {
    if id == REOPEN then {CONVERGED, ESCALATED}
    else if id == RECOVER then {UNREVIEWED, FINDINGS_OPEN, CONVERGED, ESCALATED}
    else {UNREVIEWED, FINDINGS_OPEN}
  }

  function TargetOf(id: string): string {
    if id == CONVERGE then CONVERGED else if id == RECORD then FINDINGS_OPEN else if id == ESCALATE then ESCALATED
      else UNREVIEWED
  }

  function CapabilityOf(id: string): string {
    if id == REOPEN then HUMAN else if id == RECOVER then RECOVERY else SUBMIT
  }

  function PriorityOf(id: string): int {
    if id == CONVERGE then 10 else if id == RECORD then 20 else if id == ESCALATE then 30 else if id == REOPEN then 40
      else 5
  }

  predicate Submits(id: string) { id == CONVERGE || id == RECORD || id == ESCALATE }

  /** What every transition of the compiled review program looks like. */
  ghost predicate Row(t: P.Transition) {
    && (Submits(t.id) || t.id == REOPEN || t.id == RECOVER)
    && t.operation == t.id && t.priority == PriorityOf(t.id) && t.targetMode == TargetOf(t.id)
    && t.mutation == P.Preserve && t.scope == P.NoObjective
    && (forall m :: m in t.sourceModes <==> m in SourcesOf(t.id)) && (forall f :: f in t.facets <==> f == ROUND_FACET)
    && (forall r :: r in t.recovers <==> t.id == RECOVER && (Submits(r) || r == REOPEN))
    && (forall c :: c in t.capabilities <==> c == CapabilityOf(t.id))
  }

  lemma RowsAsWritten(t: P.Transition)
    requires t in ReviewTransitions()
    ensures Row(t)
  {
    DifferentNames();
    var names := [CONVERGE, RECORD, ESCALATE, REOPEN, RECOVER];
    var i :| 0 <= i < 5 && ReviewTransitions()[i] == t;
    assert t.id == names[i];
    assert names[0] == CONVERGE && names[1] == RECORD && names[2] == ESCALATE && names[3] == REOPEN &&
      names[4] == RECOVER;
  }

  lemma CanonicalRow(t: P.Transition)
    requires Row(t)
    ensures Row(P.CanonicalTransition(t))
  {
  }

  lemma MinimumNamed(t: P.Transition)
    requires Row(t)
    ensures Classify(t).Some? && P.ValidCapabilities(Classify(t).value)
  {
    HumanNames();
  }

  lemma Classified(rt: K.Runtime, t: P.Transition)
    requires rt.classify(t).Some? && P.ValidCapabilities(rt.classify(t).value) && P.ValidCapabilities(t.capabilities)
    ensures K.Required(rt, t).Some?
  {
  }

  lemma Rows(contract: string, t: P.Transition)
    requires t in K.Transitions(ReviewRuntime(contract))
    ensures Row(t) && K.Required(ReviewRuntime(contract), t).Some?
  {
    var d := ReviewDeclaration(contract);
    var raw := SourceRow(d, t);
    RowsAsWritten(raw);
    EachIsValid();
    CanonicalRow(raw);
    MinimumNamed(t);
    Classified(ReviewRuntime(contract), t);
  }

  lemma SourceRow(d: P.Declaration, t: P.Transition) returns (raw: P.Transition)
    requires t in P.CanonicalDeclaration(d).transitions
    ensures raw in d.transitions && P.CanonicalTransition(raw) == t
  {
    assert t in multiset(P.CanonicalDeclaration(d).transitions);
    var i :| 0 <= i < |d.transitions| && P.CanonicalTransition(d.transitions[i]) == t;
    raw := d.transitions[i];
  }

  lemma HasSubmission(contract: string, id: string) returns (t: P.Transition)
    requires Submits(id)
    ensures t in K.Transitions(ReviewRuntime(contract)) && t.id == id
  {
    var ts := ReviewTransitions();
    assert ts[0].id == CONVERGE && ts[1].id == RECORD && ts[2].id == ESCALATE;
    if id == CONVERGE {
      t := HasRow(contract, 0);
    } else if id == RECORD {
      t := HasRow(contract, 1);
    } else {
      t := HasRow(contract, 2);
    }
  }

  lemma HasRow(contract: string, k: nat) returns (t: P.Transition)
    requires k < 5
    ensures t in K.Transitions(ReviewRuntime(contract)) && t.id == ReviewTransitions()[k].id
  {
    var d := ReviewDeclaration(contract);
    t := P.CanonicalTransition(d.transitions[k]);
    assert P.CanonicalTransitions(d.transitions)[k] == t;
    assert t in multiset(P.CanonicalTransitions(d.transitions));
    assert t in multiset(P.CanonicalDeclaration(d).transitions);
  }

  lemma ReviewRuntimeValid(contract: string)
    requires |contract| == 64
    ensures K.ValidRuntime(ReviewRuntime(contract))
  {
    var d := ReviewDeclaration(contract);
    ReviewCompiles(contract);
    P.PrepareIdempotent(d);
    P.CompiledIsValid(d);
    forall t | t in K.Transitions(ReviewRuntime(contract)) ensures K.Required(ReviewRuntime(contract), t).Some? {
      Rows(contract, t);
    }
  }

  /** A runtime with the transitions of the review program, each classified by
      its operation. */
  ghost predicate FollowsTable(rt: K.Runtime) {
    && K.ValidRuntime(rt) && P.SemanticId(rt.program.declaration.id)
    && (forall t :: t in K.Transitions(rt) ==> Row(t) && rt.classify(t) == Some([CapabilityOf(t.id)]))
    && (forall id :: Submits(id) || id == REOPEN || id == RECOVER ==> K.HasId(K.Transitions(rt), id))
    && (forall mode :: mode in rt.program.declaration.markedModes <==> mode == CONVERGED)
  }

  lemma RowClassified(t: P.Transition)
    requires Row(t)
    ensures Classify(t) == Some([CapabilityOf(t.id)])
  {
    DifferentNames();
    var ids := [CONVERGE, RECORD, ESCALATE, REOPEN, RECOVER];
    assert forall i :: 0 <= i < 3 ==> ids[i] != ids[3] && ids[i] != ids[4];
    assert ids[3] != ids[4];
  }

  lemma AllRows(contract: string, id: string)
    requires Submits(id) || id == REOPEN || id == RECOVER
    ensures K.HasId(K.Transitions(ReviewRuntime(contract)), id)
  {
    var t: P.Transition;
    if Submits(id) { t := HasSubmission(contract, id); } else { t := HasOther(contract, id); }
  }

  lemma HasOther(contract: string, id: string) returns (t: P.Transition)
    requires id == REOPEN || id == RECOVER
    ensures t in K.Transitions(ReviewRuntime(contract)) && t.id == id
  {
    assert ReviewTransitions()[3].id == REOPEN && ReviewTransitions()[4].id == RECOVER;
    if id == REOPEN { t := HasRow(contract, 3); } else { t := HasRow(contract, 4); }
  }

  lemma OnlyConvergedMarked(contract: string)
    ensures forall mode :: mode in ReviewRuntime(contract).program.declaration.markedModes <==> mode == CONVERGED
  {
  }

  /** The compiled review program is one, under every contract. */
  lemma ReviewFollowsTable(contract: string)
    requires |contract| == 64
    ensures FollowsTable(ReviewRuntime(contract))
  {
    ReviewRuntimeValid(contract);
    OtherNames();
    forall t | t in K.Transitions(ReviewRuntime(contract))
      ensures Row(t) && ReviewRuntime(contract).classify(t) == Some([CapabilityOf(t.id)])
    {
      Rows(contract, t);
      RowClassified(t);
    }
    forall id | Submits(id) || id == REOPEN || id == RECOVER
      ensures K.HasId(K.Transitions(ReviewRuntime(contract)), id) {
      AllRows(contract, id);
    }
    OnlyConvergedMarked(contract);
  }

  // ----- Admissibility -----

  /** The domain half of the relation. */
  ghost function Admissible(p: Policy, e: K.Evaluation<Observed>): K.Answer {
    if e.observation.value.None? then K.Failed
    else if Submits(e.transition.operation) then
      if Disposition(p, e.observation.value.value) == Some(e.transition.operation) then K.Allowed else K.Denied
    else if e.transition.operation == REOPEN then K.Allowed
    else if e.transition.operation == RECOVER then if e.state.recovery.Some? then K.Allowed else K.Denied
    else K.Denied
  }

  ghost predicate DifferentPriorities(ts: seq<P.Transition>) {
    forall i, j :: 0 <= i < j < |ts| ==> ts[i].priority != ts[j].priority
  }

  lemma PrioritiesDiffer(contract: string)
    requires |contract| == 64
    ensures DifferentPriorities(K.Transitions(ReviewRuntime(contract)))
  {
    ReviewCompiles(contract);
    P.CanonicalIdsDistinct(ReviewDeclaration(contract));
    forall t | t in K.Transitions(ReviewRuntime(contract)) ensures Row(t) { Rows(contract, t); }
    RowsDiffer(K.Transitions(ReviewRuntime(contract)));
  }

  lemma RowsDiffer(ts: seq<P.Transition>)
    requires P.DistinctIds(ts) && forall t :: t in ts ==> Row(t)
    ensures DifferentPriorities(ts)
  {
    forall i, j | 0 <= i < j < |ts| ensures ts[i].priority != ts[j].priority {
      assert ts[i].id != ts[j].id && ts[i] in ts && ts[j] in ts;
      PrioritiesNameRows(ts[i].id, ts[j].id);
    }
  }

  lemma PrioritiesNameRows(a: string, b: string)
    requires (Submits(a) || a == REOPEN || a == RECOVER) && (Submits(b) || b == REOPEN || b == RECOVER) && a != b
    ensures PriorityOf(a) != PriorityOf(b)
  {
  }

  lemma {:induction false} CandidatePriorities<V>(rt: K.Runtime, s: K.ControlState<V>, o: K.Observation<V>,
                                                  q: K.Request, admits: K.Evaluation<V> -> K.Answer,
                                                  ts: seq<P.Transition>)
    requires DifferentPriorities(ts) && K.Candidates(rt, s, o, q, admits, ts).Some?
    ensures var cs := K.Candidates(rt, s, o, q, admits, ts).value;
      R.DistinctPriorities(cs) && forall c :: c in cs ==> exists t :: t in ts && t.priority == c.priority
  {
    if ts != [] {
      var n := |ts| - 1;
      CandidatePriorities(rt, s, o, q, admits, ts[..n]);
      var rest := K.Candidates(rt, s, o, q, admits, ts[..n]).value;
      forall k | 0 <= k < |rest| ensures rest[k].priority != ts[n].priority {
        assert rest[k] in rest;
        var t :| t in ts[..n] && t.priority == rest[k].priority;
        var i :| 0 <= i < n && ts[i] == t;
      }
      assert ts == ts[..n] + [ts[n]];
    }
  }

  /** A program whose priorities all differ has no ambiguous frontier. */
  lemma NeverAmbiguous<V>(rt: K.Runtime, s: K.ControlState<V>, o: K.Observation<V>, q: K.Request, now: K.Time,
                          admits: K.Evaluation<V> -> K.Answer)
    requires DifferentPriorities(K.Transitions(rt))
    ensures SingleFrontier(K.Resolved(rt, s, o, q, now, admits))
  {
    var r := K.Resolved(rt, s, o, q, now, admits);
    if r.Some? && r.value.decision.kind == R.Frontier {
      FrontierDecided(rt, s, o, q, now, admits);
      CandidatePriorities(rt, s, o, q, admits, K.Transitions(rt));
      R.NeverAmbiguous(K.QuestionOf(q, K.AuthorityOf(q.authority)),
        K.Candidates(rt, s, o, q, admits, K.Transitions(rt)).value);
    }
  }

  lemma FrontierDecided<V>(rt: K.Runtime, s: K.ControlState<V>, o: K.Observation<V>, q: K.Request, now: K.Time,
                           admits: K.Evaluation<V> -> K.Answer)
    requires var r := K.Resolved(rt, s, o, q, now, admits); r.Some? && r.value.decision.kind == R.Frontier
    ensures var cs := K.Candidates(rt, s, o, q, admits, K.Transitions(rt));
      cs.Some? && K.Resolved(rt, s, o, q, now, admits).value.decision
        == R.Decide(K.QuestionOf(q, K.AuthorityOf(q.authority)), cs.value)
  {
    assert K.Resolvable(rt, s, o, q) && !K.Settled(rt, s, q) && K.Presentable(q.authority, now);
  }

  /** A frontier names one transition, the one that lacks authority. */
  ghost predicate SingleFrontier<V>(r: Option<K.Resolution<V>>) {
    (r.Some? && r.value.decision.kind == R.Frontier) ==> |r.value.decision.candidates| == 1
  }

  /** Resolving the review program never reports an ambiguous frontier. */
  lemma ReviewNeverAmbiguous(contract: string, s: K.ControlState<Observed>, o: K.Observation<Observed>,
                             q: K.Request, now: K.Time, admits: K.Evaluation<Observed> -> K.Answer)
    requires |contract| == 64
    ensures SingleFrontier(K.Resolved(ReviewRuntime(contract), s, o, q, now, admits))
  {
    PrioritiesDiffer(contract);
    NeverAmbiguous(ReviewRuntime(contract), s, o, q, now, admits);
  }
}
