/** One run of a declarative flow: the driver call by call, its receipt ledger,
    and the loader that re-checks the ledger before every call. */
module DeclarativeRun {
  import opened Base
  import opened Ordering
  import opened Predicates
  import opened ControlProgram
  import opened Invocation
  import opened DeclarativeFlow

  datatype AuthorityDigest = AuthorityDigest(evidence: Evidence, authorityContext: string, authorities: seq<string>)

  datatype ReceiptContent = ReceiptContent(
    transition: string, evidence: Evidence, priorRevision: nat, resultRevision: nat,
    priorReceipt: Option<ReceiptContent>, controlBundle: string, authorityContext: string,
    authority: Option<AuthorityDigest>, humanActor: string)

  /** The fingerprint is the hashed content itself. */
  datatype RunReceipt = RunReceipt(content: ReceiptContent, fingerprint: ReceiptContent)

  /** What a run was created for. */
  datatype Origin = Origin(
    schema: nat, run: string, program: string, scope: string, entry: string, target: string,
    inputs: map<string, string>)

  const RUN_SCHEMA: nat := 4

  datatype RunState = RunState(origin: Origin, revision: nat, facts: Predicates.Facts, receipts: seq<RunReceipt>)

  function Initial(origin: Origin): RunState { RunState(origin, 1, map[], []) }

  // ----- The loader -----

  predicate InvalidAuthority(r: ReceiptContent) {
    || (r.authorityContext != "" && !Sha(r.authorityContext))
    || (r.humanActor != "" && (!Sha(r.authorityContext) || r.authority.None?))
    || (r.humanActor == "" && r.authority.Some?)
  }

  function PriorReceipt(receipts: seq<RunReceipt>, i: nat): Option<ReceiptContent>
    requires i <= |receipts|
  {
    if i == 0 then None else Some(receipts[i - 1].fingerprint)
  }

  ghost predicate ReceiptLinked(receipts: seq<RunReceipt>, i: nat)
    requires i < |receipts|
  {
    var r := receipts[i];
    && r.fingerprint == r.content && Sha(r.content.controlBundle) && !InvalidAuthority(r.content)
    && r.content.priorReceipt == PriorReceipt(receipts, i)
    && r.content.priorRevision == i + 1 && r.content.resultRevision == i + 2
  }

  /** A contiguous chain of receipts from revision 1 to the current one. */
  ghost predicate Ledger(state: RunState) {
    && state.revision == |state.receipts| + 1
    && forall i :: 0 <= i < |state.receipts| ==> ReceiptLinked(state.receipts, i)
  }

  method LedgerAccepted(state: RunState) returns (ok: bool)
    ensures ok <==> Ledger(state)
  {
    if state.revision == 0 { return false; }
    var expected: nat := 1;
    var prior: Option<ReceiptContent> := None;
    var i := 0;
    while i < |state.receipts|
      invariant 0 <= i <= |state.receipts|
      invariant expected == i + 1 && prior == PriorReceipt(state.receipts, i)
      invariant forall k :: 0 <= k < i ==> ReceiptLinked(state.receipts, k)
    {
      var r := state.receipts[i];
      if r.fingerprint != r.content || !Sha(r.content.controlBundle) || InvalidAuthority(r.content)
        || r.content.priorReceipt != prior || r.content.priorRevision != expected ||
             r.content.resultRevision != expected + 1 {
        assert !ReceiptLinked(state.receipts, i);
        return false;
      }
      assert ReceiptLinked(state.receipts, i);
      expected := r.content.resultRevision;
      prior := Some(r.fingerprint);
      i := i + 1;
    }
    return state.revision == expected;
  }

  // ----- One call of the driver -----

  /** `named` says that the caller chose the identity of the run; otherwise it is
      derived from the entry inputs. */
  datatype Options = Options(
    transition: string, humanActor: string, authority: Option<AuthorityDigest>, inputs: map<string, string>,
    named: bool)

  /** What the call reads from outside the run. The second binding and the
      second set of receipts are read just before the effect. */
  datatype Environment = Environment(
    identity: Identity, decodable: set<string>, now: int,
    binding: Option<string>, receipts: map<(string, Digest), InputReceipt>,
    freshBinding: Option<string>, freshReceipts: map<(string, Digest), InputReceipt>, freshNow: int,
    actorAccepted: bool)

  datatype Result =
    | Terminal | Refused(code: string) | Suspended(request: InputRequest) | Failed(code: string)
    | EffectFailed | Committed(receipt: RunReceipt)

  function TargetOf(targets: seq<Target>, id: string): Predicate {
    if targets == [] then Empty
    else if targets[0].id == id then targets[0].condition
    else TargetOf(targets[1..], id)
  }

  predicate RequiresHuman(t: Transition, op: Operator) {
    "human" in op.authority.anyOf || "human" in op.authority.allOf || "human" in t.authorities
  }

  predicate UsesHostInput(t: Transition) {
    exists b :: b in t.parameters && b.producer.kind == HostInputSource
  }

  function Authorities(t: Transition, op: Operator): seq<string> {
    Unrepeated(SortStrings(op.authority.anyOf + op.authority.allOf + t.authorities))
  }

  function Unrepeated(s: seq<string>): seq<string> {
    if |s| <= 1 then s
    else if s[0] == s[1] then Unrepeated(s[1..])
    else [s[0]] + Unrepeated(s[1..])
  }

  predicate AuthorityGranted(t: Transition, op: Operator, options: Options, expected: Option<AuthorityDigest>,
                             actorAccepted: bool) {
    var human := !Blank(options.humanActor);
    && (human ==> actorAccepted)
    && (op.authority.anyOf != [] ==> human)
    && ("human" in op.authority.allOf ==> human)
    && ("human" in t.authorities ==> human)
    && (RequiresHuman(t, op) ==> expected.Some? && options.authority == expected)
  }

  function StateValues(facts: Predicates.Facts): (r: map<string, Value>)
    ensures r.Keys == facts.Keys
  {
    map f | f in facts :: Value(ValueType("string", None, None, None, None), facts[f], "", Some(Given(facts[f])), [])
  }

  function EntryValues(inputs: map<string, string>): map<string, Value> {
    map id | id in inputs ::
      Value(ValueType("string", None, None, None, None), inputs[id], "", Some(Given("entry-input")), [])
  }

  /** The run's own identity at one transition. */
  function IdentityAt(state: RunState, i: Identity, t: Transition, authorityContext: string): Identity {
    i.(run := state.origin.run, entry := state.origin.entry, target := state.origin.target, transition := t.id,
       stateRevision := state.revision, authorityContext := authorityContext)
  }

  /** Declarative materialization never continues a request lineage. */
  function RunContext(state: RunState, env: Environment, t: Transition, authorityContext: string,
                      receipts: map<(string, Digest), InputReceipt>): Context {
    Context(IdentityAt(state, env.identity, t, authorityContext), 0, None, EntryValues(state.origin.inputs),
      StateValues(state.facts), map[], map[], map[], receipts, env.decodable)
  }

  /** The transition the call is to run, or why there is none. */
  function Chosen(doc: Document, state: RunState, options: Options): Base.Result<Transition, string> {
    var frontier := Sort(ByTransitionId, Frontier(doc.transitions, state.facts));
    if frontier == [] then Err("FLOW_NO_ADMISSIBLE_TRANSITION")
    else if options.transition != "" then
      (if exists t :: t in frontier && t.id == options.transition then Ok(FirstWithId(frontier, options.transition))
       else Err("FLOW_TRANSITION_NOT_ADMISSIBLE"))
    else if |frontier| != 1 then Err("FLOW_SELECTION_AMBIGUOUS")
    else Ok(frontier[0])
  }

  function FirstWithId(transitions: seq<Transition>, id: string): (r: Transition)
    requires exists t :: t in transitions && t.id == id
    ensures r in transitions && r.id == id
  {
    if transitions[0].id == id then transitions[0]
    else
      assert transitions == [transitions[0]] + transitions[1..];
      FirstWithId(transitions[1..], id)
  }

  lemma ChosenIsPreferred(doc: Document, state: RunState, options: Options)
    requires Chosen(doc, state, options).Ok?
    ensures Preferred(Chosen(doc, state, options).value, doc.transitions, state.facts)
  {
    FrontierExact(doc.transitions, state.facts);
    SortElements(ByTransitionId, Frontier(doc.transitions, state.facts));
    var frontier := Sort(ByTransitionId, Frontier(doc.transitions, state.facts));
    assert Chosen(doc, state, options).value in frontier;
  }

  function NewReceipt(state: RunState, t: Transition, evidence: Evidence, env: Environment, authorityContext: string,
                      authority: Option<AuthorityDigest>, actor: string): RunReceipt {
    var content := ReceiptContent(t.id, evidence, state.revision, state.revision + 1,
      PriorReceipt(state.receipts, |state.receipts|), env.identity.controlBundle, authorityContext, authority,
      Trim(actor));
    RunReceipt(content, content)
  }

  /** The part of a call that follows the choice of a transition. */
  function RunTransition(doc: Document, state: RunState, t: Transition, options: Options,
                         env: Environment): (r: (Result, RunState))
    ensures !r.0.Committed? ==> r.1 == state
  {
    var op := OperatorNamed(doc.operators, t.operator);
    if op.None? then (Failed("FLOW_RUNTIME_INVALID"), state)
    else
      var asks := RequiresHuman(t, op.value) || UsesHostInput(t);
      if asks && env.binding.None? then (Failed("HUMAN_IDENTITY"), state)
      else
        var authorityContext := if asks then env.binding.value else "";
        match Materialized(op.value.parameters, ProducerMap(t.parameters),
          RunContext(state, env, t, authorityContext, env.receipts), env.now)
        case Rejected => (Failed("INVOCATION"), state)
        case Blocked(code) => (Refused(code), state)
        case Requested(r) => (Suspended(r), state)
        case Ready(evidence) =>
          var expected := if RequiresHuman(t, op.value)
            then Some(AuthorityDigest(evidence, authorityContext, Authorities(t, op.value))) else None;
          if !AuthorityGranted(t, op.value, options, expected, env.actorAccepted)
            then (Refused("AUTHORITY_REQUIRED"), state)
          else if asks && env.freshBinding != env.binding then (Failed("HUMAN_IDENTITY_DRIFT"), state)
          else
            var second := Materialized(op.value.parameters, ProducerMap(t.parameters),
              RunContext(state, env, t, authorityContext, env.freshReceipts), env.freshNow);
            if second != Ready(evidence) then (Failed("INVOCATION_DRIFT"), state)
            else Commit(state, t, op.value, evidence, options, env, authorityContext, expected)
  }

  function Commit(state: RunState, t: Transition, op: Operator, evidence: Evidence, options: Options, env: Environment,
                  authorityContext: string, authority: Option<AuthorityDigest>): (Result, RunState) {
    var effect := EffectOn(state.facts, op.stateEffect, evidence.parameters);
    if !effect.Applied? || !Satisfied(t.target, effect.facts) then (EffectFailed, state)
    else
      var receipt := NewReceipt(state, t, evidence, env, authorityContext, authority, options.humanActor);
      (Committed(receipt), RunState(state.origin, state.revision + 1, effect.facts, state.receipts + [receipt]))
  }

  /** What is wrong with the inputs of an entry. */
  function InputError(entry: Entry, inputs: map<string, string>): Option<string> {
    if exists i :: i in entry.inputs && i.required && (i.id !in inputs || Blank(inputs[i.id]))
      then Some("FLOW_INPUT_REQUIRED")
    else if exists id :: id in inputs && (Blank(inputs[id]) || forall i :: i in entry.inputs ==> i.id != id)
      then Some("FLOW_INPUT_INVALID")
    else None
  }

  /** The stored run is the one this call is about. */
  predicate OriginCurrent(o: Origin, entry: Entry, i: Identity) {
    && o.schema == RUN_SCHEMA && o.run == i.run && o.program == i.program && o.scope == i.executionScope
    && Sha(o.scope) && o.entry == entry.id && o.target == entry.target
  }

  ghost function LoadRefusal(entry: Entry, state: RunState, options: Options, i: Identity): Option<string> {
    if !OriginCurrent(state.origin, entry, i) || !Ledger(state)
      || (options.inputs != map[] && options.inputs != state.origin.inputs) then Some("FLOW_CONTEXT_MISMATCH")
    else InputError(entry, state.origin.inputs)
  }

  predicate WordChar(c: char) { 'a' <= c <= 'z' || 'A' <= c <= 'Z' || '0' <= c <= '9' }

  predicate RunName(s: string) {
    && s != "" && WordChar(s[0])
    && forall i :: 0 <= i < |s| ==> WordChar(s[i]) || s[i] == '.' || s[i] == '_' || s[i] == '-'
  }

  /** What is checked before the run file is looked for. Inputs are checked here
      only if the run's identity is derived from them. */
  function EarlyRefusal(entry: Entry, options: Options, i: Identity): Option<string> {
    if !options.named then InputError(entry, options.inputs)
    else if RunName(i.run) then None
    else Some("FLOW_CONTEXT_MISMATCH")
  }

  function OriginFor(entry: Entry, options: Options, i: Identity): Origin {
    Origin(RUN_SCHEMA, i.run, i.program, i.executionScope, entry.id, entry.target, options.inputs)
  }

  /** The run a call finds, or creates. */
  function RunOf(entry: Entry, file: Option<RunState>, options: Options, i: Identity): RunState {
    if file.Some? then file.value else Initial(OriginFor(entry, options, i))
  }

  /** Opening the run file: it is created and saved before it is checked. */
  ghost function Loaded(entry: Entry, file: Option<RunState>, options: Options,
                        i: Identity): (r: (Option<string>, Option<RunState>))
    ensures r.0.None? ==> r.1 == Some(RunOf(entry, file, options, i))
  {
    var early := EarlyRefusal(entry, options, i);
    if early.Some? then (early, file)
    else if file.None? && options.inputs == map[] then (Some("FLOW_INPUT_REQUIRED"), None)
    else
      var state := RunOf(entry, file, options, i);
      (LoadRefusal(entry, state, options, i), Some(state))
  }

  /** The part of a call that follows loading. */
  function Driven(doc: Document, entry: Entry, state: RunState, options: Options,
                  env: Environment): (r: (Result, RunState))
    ensures !r.0.Committed? ==> r.1 == state
  {
    if Satisfied(TargetOf(doc.targets, entry.target), state.facts) then (Terminal, state)
    else match Chosen(doc, state, options)
      case Err(code) => (Refused(code), state)
      case Ok(t) => RunTransition(doc, state, t, options, env)
  }

  /** One call on the run file. */
  ghost function Called(doc: Document, entry: Entry, file: Option<RunState>, options: Options,
                        env: Environment): (Result, Option<RunState>)
  {
    var (refusal, loaded) := Loaded(entry, file, options, env.identity);
    if refusal.Some? then (Failed(refusal.value), loaded)
    else
      var (r, after) := Driven(doc, entry, loaded.value, options, env);
      (r, Some(after))
  }

  // ----- The run as an object -----

  /** The run file and the fact map the call changes in memory. A failed effect
      may leave the map changed, never the file. */
  class Run {
    const doc: Document
    const entry: Entry
    var saved: Option<RunState>
    var facts: Predicates.Facts

    constructor (doc: Document, entry: Entry)
      ensures this.doc == doc && this.entry == entry && saved == None
    {
      this.doc, this.entry, saved, facts := doc, entry, None, map[];
    }

    /** Checks the preconditions, then assigns facet by facet in place. */
    method ApplyAssignments(effect: StateEffect, parameters: seq<ResolvedParameter>) returns (failure: Option<Effect>)
      modifies this`facts
      ensures failure.None? <==> EffectOn(old(facts), effect, parameters).Applied?
      ensures failure.None? ==> EffectOn(old(facts), effect, parameters) == Applied(facts)
      ensures failure.Some? ==> EffectOn(old(facts), effect, parameters) == failure.value
    {
      var values := ValueMap(parameters);
      var i := 0;
      while i < |effect.preconditions|
        invariant 0 <= i <= |effect.preconditions|
        invariant forall k :: 0 <= k < i ==> PreconditionHolds(effect.preconditions[k], facts)
      {
        if !PreconditionHolds(effect.preconditions[i], facts) { return Some(PreconditionChanged); }
        i := i + 1;
      }
      ghost var before := facts;
      i := 0;
      while i < |effect.assignments|
        invariant 0 <= i <= |effect.assignments|
        invariant Assigned(before, effect.assignments[..i], values) == Applied(facts)
      {
        var a := effect.assignments[i];
        assert effect.assignments[..i + 1][..i] == effect.assignments[..i];
        var value := AssignedValue(a, values);
        if value.Err? {
          AssignmentStops(before, effect.assignments, values, i);
          return Some(value.error);
        }
        facts := facts[a.facet := value.value];
        i := i + 1;
      }
      assert effect.assignments[..i] == effect.assignments;
      return None;
    }

    /** Materializes, checks authority, materializes again, then applies the
        effect to the map in memory, verifies the target and saves. */
    method RunChosen(state: RunState, t: Transition, options: Options, env: Environment) returns (r: Result)
      requires saved == Some(state)
      modifies this
      ensures saved.Some? && (r, saved.value) == RunTransition(doc, state, t, options, env)
    {
      var found := OperatorNamed(doc.operators, t.operator);
      if found.None? { return Failed("FLOW_RUNTIME_INVALID"); }
      var op := found.value;
      var asks := RequiresHuman(t, op) || UsesHostInput(t);
      if asks && env.binding.None? { return Failed("HUMAN_IDENTITY"); }
      var authorityContext := if asks then env.binding.value else "";
      var first := Materialize(op.parameters, t.parameters, RunContext(state, env, t, authorityContext, env.receipts),
        env.now);
      if first.Rejected? { return Failed("INVOCATION"); }
      if first.Blocked? { return Refused(first.code); }
      if first.Requested? { return Suspended(first.request); }
      var expected := if RequiresHuman(t, op)
        then Some(AuthorityDigest(first.evidence, authorityContext, Authorities(t, op))) else None;
      if !AuthorityGranted(t, op, options, expected, env.actorAccepted) { return Refused("AUTHORITY_REQUIRED"); }
      if asks && env.freshBinding != env.binding { return Failed("HUMAN_IDENTITY_DRIFT"); }
      var second := Materialize(op.parameters, t.parameters,
        RunContext(state, env, t, authorityContext, env.freshReceipts), env.freshNow);
      if second != first { return Failed("INVOCATION_DRIFT"); }
      r := CommitChosen(state, t, op, first.evidence, options, env, authorityContext, expected);
    }

    method CommitChosen(state: RunState, t: Transition, op: Operator, evidence: Evidence, options: Options,
                        env: Environment, authorityContext: string, authority: Option<AuthorityDigest>)
      returns (r: Result)
      requires saved == Some(state)
      modifies this
      ensures saved.Some?
      ensures (r, saved.value) == Commit(state, t, op, evidence, options, env, authorityContext, authority)
    {
      facts := state.facts;
      var failure := ApplyAssignments(op.stateEffect, evidence.parameters);
      if failure.Some? { return EffectFailed; }
      if !Satisfied(t.target, facts) { return EffectFailed; }
      var receipt := NewReceipt(state, t, evidence, env, authorityContext, authority, options.humanActor);
      saved := Some(RunState(state.origin, state.revision + 1, facts, state.receipts + [receipt]));
      return Committed(receipt);
    }

    /** Finds or creates the run file, then checks what it holds. */
    method Load(options: Options, i: Identity) returns (refusal: Option<string>)
      modifies this`saved
      ensures (refusal, saved) == Loaded(entry, old(saved), options, i)
    {
      if !options.named {
        refusal := ValidateEntryInputs(entry, options.inputs);
        if refusal.Some? { return; }
      } else if !RunName(i.run) {
        return Some("FLOW_CONTEXT_MISMATCH");
      }
      if saved.None? {
        if options.inputs == map[] { return Some("FLOW_INPUT_REQUIRED"); }
        saved := Some(Initial(OriginFor(entry, options, i)));
      }
      if !OriginCurrent(saved.value.origin, entry, i) { return Some("FLOW_CONTEXT_MISMATCH"); }
      var accepted := LedgerAccepted(saved.value);
      if !accepted { return Some("FLOW_CONTEXT_MISMATCH"); }
      if options.inputs != map[] && options.inputs != saved.value.origin.inputs {
        return Some("FLOW_CONTEXT_MISMATCH");
      }
      refusal := ValidateEntryInputs(entry, saved.value.origin.inputs);
    }

    /** Chooses a transition of the loaded run and runs it. */
    method Drive(state: RunState, options: Options, env: Environment) returns (r: Result)
      requires saved == Some(state)
      modifies this
      ensures saved.Some? && (r, saved.value) == Driven(doc, entry, state, options, env)
    {
      if Satisfied(TargetOf(doc.targets, entry.target), state.facts) { return Terminal; }
      var frontier := SelectTransitions(doc.transitions, state.facts);
      if frontier == [] { return Refused("FLOW_NO_ADMISSIBLE_TRANSITION"); }
      if options.transition != "" {
        if !exists t :: t in frontier && t.id == options.transition {
          return Refused("FLOW_TRANSITION_NOT_ADMISSIBLE");
        }
        r := RunChosen(state, FirstWithId(frontier, options.transition), options, env);
        return;
      }
      if |frontier| != 1 { return Refused("FLOW_SELECTION_AMBIGUOUS"); }
      r := RunChosen(state, frontier[0], options, env);
    }

    /** One call: load and re-check the run, choose, run, save. */
    method Call(options: Options, env: Environment) returns (r: Result)
      modifies this
      ensures (r, saved) == Called(doc, entry, old(saved), options, env)
    {
      var refusal := Load(options, env.identity);
      if refusal.Some? { return Failed(refusal.value); }
      r := Drive(saved.value, options, env);
    }
  }

  /** Every required input is given, and none is blank or undeclared. */
  method ValidateEntryInputs(entry: Entry, values: map<string, string>) returns (r: Option<string>)
    ensures r == InputError(entry, values)
  {
    var declared: set<string> := {};
    var k := 0;
    while k < |entry.inputs|
      invariant 0 <= k <= |entry.inputs|
      invariant forall id :: id in declared <==> exists m :: 0 <= m < k && entry.inputs[m].id == id
      invariant forall m :: 0 <= m < k && entry.inputs[m].required ==>
        entry.inputs[m].id in values && !Blank(values[entry.inputs[m].id])
    {
      var input := entry.inputs[k];
      declared := declared + {input.id};
      if input.required && (input.id !in values || Blank(values[input.id])) { return Some("FLOW_INPUT_REQUIRED"); }
      k := k + 1;
    }
    if exists id :: id in values && (id !in declared || Blank(values[id])) { return Some("FLOW_INPUT_INVALID"); }
    return None;
  }

  lemma {:induction false} AssignmentStops(facts: Predicates.Facts, assignments: seq<Assignment>,
                                           values: map<string, string>, i: nat)
    requires i < |assignments| && Assigned(facts, assignments[..i], values).Applied?
    requires AssignedValue(assignments[i], values).Err?
    ensures Assigned(facts, assignments, values) == AssignedValue(assignments[i], values).error
    decreases |assignments|
  {
    var n := |assignments| - 1;
    if i < n {
      assert assignments[..n][..i] == assignments[..i];
      AssignmentStops(facts, assignments[..n], values, i);
      ErrorIsFailure(assignments[i], values);
    }
  }

  lemma ErrorIsFailure(a: Assignment, values: map<string, string>)
    requires AssignedValue(a, values).Err?
    ensures !AssignedValue(a, values).error.Applied?
  {
  }

  // ----- Theorems -----

  /** The target of the transition is secured by its own effect and guard. */
  predicate TargetSecured(doc: Document, t: Transition) {
    var op := OperatorNamed(doc.operators, t.operator);
    op.Some? ==> Secured(op.value.stateEffect, t.guard, t.target)
  }

  predicate TargetDecided(doc: Document, t: Transition) {
    var op := OperatorNamed(doc.operators, t.operator);
    op.Some? ==> Decided(op.value.stateEffect, t.guard, t.target)
  }

  ghost predicate Compiled(doc: Document) {
    forall t :: t in doc.transitions ==> CompiledTransition(doc, t)
  }

  /** A call of the transition that gets as far as its effect, and how it ends. */
  lemma ReachesEffect(doc: Document, state: RunState, t: Transition, options: Options, env: Environment)
    returns (op: Operator, context: Context, e: Effect)
    requires RunTransition(doc, state, t, options, env).0.EffectFailed? ||
      RunTransition(doc, state, t, options, env).0.Committed?
    ensures OperatorNamed(doc.operators, t.operator) == Some(op)
    ensures Materialized(op.parameters, ProducerMap(t.parameters), context, env.now).Ready?
    ensures e == EffectOn(state.facts, op.stateEffect,
      Materialized(op.parameters, ProducerMap(t.parameters), context, env.now).evidence.parameters)
    ensures RunTransition(doc, state, t, options, env).0.EffectFailed? <==>
      !e.Applied? || !Satisfied(t.target, e.facts)
  {
    op := OperatorNamed(doc.operators, t.operator).value;
    var binding := if RequiresHuman(t, op) || UsesHostInput(t) then env.binding.value else "";
    context := RunContext(state, env, t, binding, env.receipts);
    var evidence := Materialized(op.parameters, ProducerMap(t.parameters), context, env.now).evidence;
    e := EffectOn(state.facts, op.stateEffect, evidence.parameters);
  }

  /** A call that gets as far as its effect commits if the target is secured; if
      the target is settled, it fails exactly when the target is not secured. */
  lemma RunFailsExactly(doc: Document, state: RunState, t: Transition, options: Options, env: Environment)
    requires FlowSupported(doc) && Compiled(doc)
    requires t in doc.transitions && Satisfied(t.guard, state.facts)
    requires RunTransition(doc, state, t, options, env).0.EffectFailed? ||
      RunTransition(doc, state, t, options, env).0.Committed?
    ensures TargetSecured(doc, t) ==> !RunTransition(doc, state, t, options, env).0.EffectFailed?
    ensures TargetDecided(doc, t) ==>
      (RunTransition(doc, state, t, options, env).0.EffectFailed? <==> !TargetSecured(doc, t))
  {
    var op, context, e := ReachesEffect(doc, state, t, options, env);
    assert TransitionSupported(doc, t) && CompiledTransition(doc, t);
    CheckedEffectSucceeds(doc, t, op, state.facts, context, env.now);
  }

  /** A call that reaches an effect runs the transition it chose. */
  lemma CalledRuns(doc: Document, entry: Entry, file: Option<RunState>, options: Options, env: Environment)
    returns (t: Transition)
    requires ReachedEffect(doc, entry, file, options, env)
    ensures var state := RunOf(entry, file, options, env.identity);
      && Chosen(doc, state, options) == Ok(t) && Preferred(t, doc.transitions, state.facts)
      && Called(doc, entry, file, options, env).0 == RunTransition(doc, state, t, options, env).0
      && Called(doc, entry, file, options, env).1 == Some(RunTransition(doc, state, t, options, env).1)
  {
    var state := RunOf(entry, file, options, env.identity);
    t := Chosen(doc, state, options).value;
    ChosenIsPreferred(doc, state, options);
  }

  /** In a checked flow a call never fails at its effect when the target of the
      transition it chooses is secured, whatever the run, the options and the
      outside world. */
  lemma CheckedFlowNeverFailsAtEffect(doc: Document, entry: Entry, file: Option<RunState>, options: Options,
                                      env: Environment)
    requires FlowSupported(doc) && Compiled(doc)
    requires var chosen := Chosen(doc, RunOf(entry, file, options, env.identity), options);
      chosen.Ok? ==> TargetSecured(doc, chosen.value)
    ensures !Called(doc, entry, file, options, env).0.EffectFailed?
  {
    if Called(doc, entry, file, options, env).0.EffectFailed? {
      var t := CalledRuns(doc, entry, file, options, env);
      RunFailsExactly(doc, RunOf(entry, file, options, env.identity), t, options, env);
    }
  }

  /** Whether a call gets as far as the effect of the transition it chose. */
  ghost predicate ReachedEffect(doc: Document, entry: Entry, file: Option<RunState>, options: Options,
                                env: Environment) {
    var r := Called(doc, entry, file, options, env).0;
    r.EffectFailed? || r.Committed?
  }

  /** Of the calls that reach an effect, those fail whose transition has an
      unsecured target, wherever the target of the chosen one is settled. */
  lemma CheckedFlowFailsExactly(doc: Document, entry: Entry, file: Option<RunState>, options: Options,
                                env: Environment)
    requires FlowSupported(doc) && Compiled(doc) && ReachedEffect(doc, entry, file, options, env)
    requires var chosen := Chosen(doc, RunOf(entry, file, options, env.identity), options);
      chosen.Ok? ==> TargetDecided(doc, chosen.value)
    ensures var chosen := Chosen(doc, RunOf(entry, file, options, env.identity), options);
      && chosen.Ok?
      && (Called(doc, entry, file, options, env).0.EffectFailed? <==> !TargetSecured(doc, chosen.value))
  {
    var t := CalledRuns(doc, entry, file, options, env);
    RunFailsExactly(doc, RunOf(entry, file, options, env.identity), t, options, env);
  }

  /** The fingerprints a call binds are real digests. */
  predicate WellFormed(env: Environment) {
    Sha(env.identity.controlBundle) && (env.binding.Some? ==> Sha(env.binding.value))
  }

  /** A committed call went through `Commit` with authority granted. */
  lemma CommittedThrough(doc: Document, state: RunState, t: Transition, options: Options, env: Environment)
    returns (op: Operator, evidence: Evidence, authorityContext: string, authority: Option<AuthorityDigest>)
    requires RunTransition(doc, state, t, options, env).0.Committed?
    ensures OperatorNamed(doc.operators, t.operator) == Some(op)
    ensures RunTransition(doc, state, t, options, env)
      == Commit(state, t, op, evidence, options, env, authorityContext, authority)
    ensures AuthorityGranted(t, op, options, authority, env.actorAccepted)
    ensures authority.Some? <==> RequiresHuman(t, op)
    ensures authorityContext == "" || Some(authorityContext) == env.binding
    ensures RequiresHuman(t, op) ==> Some(authorityContext) == env.binding
  {
    op := OperatorNamed(doc.operators, t.operator).value;
    authorityContext := if RequiresHuman(t, op) || UsesHostInput(t) then env.binding.value else "";
    evidence := Materialized(op.parameters, ProducerMap(t.parameters),
      RunContext(state, env, t, authorityContext, env.receipts), env.now).evidence;
    authority := if RequiresHuman(t, op) then Some(AuthorityDigest(evidence, authorityContext, Authorities(t, op)))
      else None;
  }

  /** Whether a call's receipt survives the next load: the actor may be recorded
      exactly when the transition asks for human authority. */
  predicate ActorAsked(doc: Document, t: Transition, options: Options) {
    var op := OperatorNamed(doc.operators, t.operator);
    Blank(options.humanActor) || (op.Some? && RequiresHuman(t, op.value))
  }

  lemma LedgerGrows(state: RunState, receipt: RunReceipt, after: RunState)
    requires Ledger(state) && after.revision == state.revision + 1 && after.receipts == state.receipts + [receipt]
    ensures Ledger(after) <==> ReceiptLinked(after.receipts, |state.receipts|)
  {
    forall i | 0 <= i < |state.receipts| ensures ReceiptLinked(after.receipts, i) {
      assert ReceiptLinked(state.receipts, i);
      assert after.receipts[i] == state.receipts[i];
      if i > 0 { assert after.receipts[i - 1] == state.receipts[i - 1]; }
    }
  }

  /** A committed call leaves a run the loader accepts if and only if it recorded
      no actor the transition did not ask for. */
  lemma CommitKeepsLedger(doc: Document, state: RunState, t: Transition, options: Options, env: Environment)
    requires Ledger(state) && WellFormed(env)
    requires t in doc.transitions && FlowSupported(doc)
    requires RunTransition(doc, state, t, options, env).0.Committed?
    ensures Ledger(RunTransition(doc, state, t, options, env).1) <==> ActorAsked(doc, t, options)
  {
    var op, evidence, authorityContext, authority := CommittedThrough(doc, state, t, options, env);
    TrimEmpty(options.humanActor);
    var (r, after) := Commit(state, t, op, evidence, options, env, authorityContext, authority);
    LedgerGrows(state, r.receipt, after);
    assert TransitionSupported(doc, t) && OperatorSupported(op);
    if "human" in op.authority.anyOf { assert op.authority.anyOf != []; }
  }

  /** The run file after a series of calls, absent at first. */
  ghost function Calls(doc: Document, entry: Entry, calls: seq<(Options, Environment)>): Option<RunState> {
    if calls == [] then None
    else
      var n := |calls| - 1;
      Called(doc, entry, Calls(doc, entry, calls[..n]), calls[n].0, calls[n].1).1
  }

  predicate CallActorAsked(doc: Document, state: RunState, options: Options) {
    var chosen := Chosen(doc, state, options);
    chosen.Ok? ==> ActorAsked(doc, chosen.value, options)
  }

  /** The call creates the run file. */
  ghost predicate Creates(doc: Document, entry: Entry, file: Option<RunState>, options: Options, env: Environment) {
    file.None? && Called(doc, entry, file, options, env).1.Some?
  }

  /** A committed call names no actor to a transition that does not ask for one. */
  ghost predicate ActorProper(doc: Document, entry: Entry, file: Option<RunState>, options: Options, env: Environment) {
    Called(doc, entry, file, options, env).0.Committed? ==>
      CallActorAsked(doc, RunOf(entry, file, options, env.identity), options)
  }

  /** And if it creates the run, its inputs are valid. */
  ghost predicate CallProper(doc: Document, entry: Entry, file: Option<RunState>, options: Options, env: Environment) {
    && ActorProper(doc, entry, file, options, env)
    && (Creates(doc, entry, file, options, env) ==> InputError(entry, options.inputs).None?)
  }

  ghost predicate CallsProper(doc: Document, entry: Entry, calls: seq<(Options, Environment)>) {
    calls == [] ||
    var n := |calls| - 1;
    && CallsProper(doc, entry, calls[..n])
    && CallProper(doc, entry, Calls(doc, entry, calls[..n]), calls[n].0, calls[n].1)
  }

  /** Nothing in the run file makes the loader refuse it. */
  ghost predicate Loadable(entry: Entry, file: Option<RunState>) {
    file.Some? ==> Ledger(file.value) && InputError(entry, file.value.origin.inputs).None?
  }

  /** A run stays loadable if and only if it was created with valid inputs and
      every committed call named an actor only where one was asked for. */
  lemma {:induction false} RunsStayLoadable(doc: Document, entry: Entry, calls: seq<(Options, Environment)>)
    requires FlowSupported(doc)
    requires forall c :: c in calls ==> WellFormed(c.1)
    ensures Loadable(entry, Calls(doc, entry, calls)) <==> CallsProper(doc, entry, calls)
    decreases |calls|
  {
    if calls != [] {
      var n := |calls| - 1;
      RunsStayLoadable(doc, entry, calls[..n]);
      CalledKeepsLoadable(doc, entry, Calls(doc, entry, calls[..n]), calls[n].0, calls[n].1);
    }
  }

  /** A call that does not commit leaves the run as it is, and so does every call
      on a run the loader refuses. */
  lemma CalledKeepsLoadable(doc: Document, entry: Entry, file: Option<RunState>, options: Options, env: Environment)
    requires FlowSupported(doc) && WellFormed(env)
    ensures Loadable(entry, Called(doc, entry, file, options, env).1) <==>
      Loadable(entry, file) && CallProper(doc, entry, file, options, env)
  {
    if Called(doc, entry, file, options, env).0.Committed? {
      CommittedKeepsLoadable(doc, entry, file, options, env);
    } else {
      UncommittedKeeps(doc, entry, file, options, env);
    }
  }

  /** A call commits only on a run that was loaded. */
  lemma CommittedLoaded(doc: Document, entry: Entry, file: Option<RunState>, options: Options, env: Environment)
    requires Called(doc, entry, file, options, env).0.Committed?
    ensures Loadable(entry, file) && Loadable(entry, Some(RunOf(entry, file, options, env.identity)))
    ensures file.None? ==> InputError(entry, options.inputs).None?
  {
  }

  lemma OriginKept(doc: Document, state: RunState, t: Transition, options: Options, env: Environment)
    ensures RunTransition(doc, state, t, options, env).1.origin == state.origin
  {
  }

  lemma CommittedKeepsLoadable(doc: Document, entry: Entry, file: Option<RunState>, options: Options,
                               env: Environment)
    requires FlowSupported(doc) && WellFormed(env) && Called(doc, entry, file, options, env).0.Committed?
    ensures Loadable(entry, file)
    ensures Loadable(entry, Called(doc, entry, file, options, env).1) <==>
      CallProper(doc, entry, file, options, env)
  {
    var state := RunOf(entry, file, options, env.identity);
    CommittedLoaded(doc, entry, file, options, env);
    var t := CalledRuns(doc, entry, file, options, env);
    OriginKept(doc, state, t, options, env);
    CommitKeepsLedger(doc, state, t, options, env);
  }

  lemma UncommittedKeeps(doc: Document, entry: Entry, file: Option<RunState>, options: Options, env: Environment)
    requires !Called(doc, entry, file, options, env).0.Committed?
    ensures file.Some? ==> Called(doc, entry, file, options, env).1 == file
    ensures Creates(doc, entry, file, options, env) ==>
      Called(doc, entry, file, options, env).1 == Some(Initial(OriginFor(entry, options, env.identity)))
  {
  }

  /** What the loader refuses about a stored run does not depend on the call. */
  lemma NotLoadable(doc: Document, entry: Entry, file: Option<RunState>, options: Options, env: Environment)
    requires !Loadable(entry, file)
    ensures Called(doc, entry, file, options, env).0.Failed? && Called(doc, entry, file, options, env).1 == file
  {
  }

  /** A run that is not loadable is refused for ever: no call changes it, and
      every call fails. */
  lemma {:induction false} RefusedForEver(doc: Document, entry: Entry, before: seq<(Options, Environment)>,
                                          later: seq<(Options, Environment)>, options: Options, env: Environment)
    requires !Loadable(entry, Calls(doc, entry, before))
    ensures Calls(doc, entry, before + later) == Calls(doc, entry, before)
    ensures Called(doc, entry, Calls(doc, entry, before + later), options, env).0.Failed?
    decreases |later|
  {
    if later == [] {
      assert before + later == before;
    } else {
      var n := |later| - 1;
      RefusedForEver(doc, entry, before, later[..n], options, env);
      assert (before + later)[..|before + later| - 1] == before + later[..n];
      NotLoadable(doc, entry, Calls(doc, entry, before), later[n].0, later[n].1);
    }
    NotLoadable(doc, entry, Calls(doc, entry, before), options, env);
  }

  /** Under a name of its own a run is saved before its inputs are looked at: with
      invalid inputs it is left behind and can never be loaded. */
  lemma NamedRunSavedFirst(doc: Document, entry: Entry, options: Options, env: Environment)
    requires options.named && RunName(env.identity.run) && options.inputs != map[]
    requires FlowSupported(doc) && WellFormed(env)
    ensures Creates(doc, entry, None, options, env)
    ensures Loadable(entry, Called(doc, entry, None, options, env).1) <==>
      InputError(entry, options.inputs).None? && ActorProper(doc, entry, None, options, env)
  {
    CalledKeepsLoadable(doc, entry, None, options, env);
  }

  /** With a derived identity the inputs are always valid. */
  lemma DerivedRunChecked(doc: Document, entry: Entry, options: Options, env: Environment)
    requires !options.named && FlowSupported(doc) && WellFormed(env)
    ensures Loadable(entry, Called(doc, entry, None, options, env).1) <==> ActorProper(doc, entry, None, options, env)
  {
    CalledKeepsLoadable(doc, entry, None, options, env);
  }

  /** In a compiled flow a selected transition never waits for its state: no
      state-sourced parameter is unavailable. */
  lemma SelectedStateAvailable(raw: Transition, t: Transition, op: Operator, catalog: Catalog,
                               less: (Predicate, Predicate) -> bool,
                               state: RunState, env: Environment, authorityContext: string, contract: OperatorParameter)
    requires InvocationComplete(raw, op, catalog, less) && TotalOrder(less)
    requires t == raw.(parameters := Sort(ByParameter, CanonicalBindings(raw.parameters, catalog, less)))
    requires StateInputsAccepted(op, catalog.facets, less) && !op.bound
    requires Valid(t.guard) && Enabled(t, state.facts)
    requires contract.id in ProducerMap(t.parameters) && ProducerMap(t.parameters)[contract.id].kind == StateSource
    ensures forall request, now ::
      Attempted(contract, ProducerMap(t.parameters), RunContext(state, env, t, authorityContext, env.receipts), request,
        now)
        != Stopped("TRANSITION_INPUT_UNAVAILABLE")
  {
    var source := SourceBinding(raw, t, contract.id, catalog, less);
    StateParameterAvailable(source, raw, op, catalog, less, state.facts);
  }

  /** A compiled binding is one of the declared ones, its producer rewritten. */
  lemma SourceBinding(raw: Transition, t: Transition, parameter: string, catalog: Catalog,
                      less: (Predicate, Predicate) -> bool)
    returns (b: ParameterBinding)
    requires t.parameters == Sort(ByParameter, CanonicalBindings(raw.parameters, catalog, less))
    requires parameter in ProducerMap(t.parameters)
    ensures b in raw.parameters && ProducerMap(t.parameters)[parameter] == CanonicalProducer(b.producer, catalog, less)
    ensures b.producer.kind == ProducerMap(t.parameters)[parameter].kind
    ensures b.producer.facet == ProducerMap(t.parameters)[parameter].facet
  {
    var c := ParameterBinding(parameter, ProducerMap(t.parameters)[parameter]);
    SortElements(ByParameter, CanonicalBindings(raw.parameters, catalog, less));
    assert c in t.parameters;
    b := DeclaredBinding(raw.parameters, c, catalog, less);
  }

  lemma DeclaredBinding(bindings: seq<ParameterBinding>, c: ParameterBinding, catalog: Catalog,
                        less: (Predicate, Predicate) -> bool)
    returns (b: ParameterBinding)
    requires c in CanonicalBindings(bindings, catalog, less)
    ensures b in bindings && c == CanonicalBinding(b, catalog, less)
  {
    var i :| 0 <= i < |bindings| && CanonicalBindings(bindings, catalog, less)[i] == c;
    b := bindings[i];
  }
}
