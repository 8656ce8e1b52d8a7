/** Three runs of one small flow the checker accepts: one that fails at its effect,
    one the loader rejects after its first call, and one it never accepts. */
module DeclarativeExamples {
  import opened Base
  import opened Predicates
  import opened Normalize
  import opened ControlProgram
  import opened Invocation
  import opened DeclarativeFlow
  import opened DeclarativeRun

  function Setting(id: string, facet: string, value: string): Operator {
    Operator(id, false, [], Authority([], []), [], "state-effect", "",
      StateEffect("assignments", [], [Assignment(facet, Some(value), None)], ""), "preserve", [], [], [], [])
  }

  const START := Transition("start", "open-stage", Truth(true), Fact(FactTest("stage", [], ["open"])), 1, [], "", [])

  /** Its target asks a facet it does not assign to be absent and to be open. */
  const FINISH := Transition("finish", "set-done", Fact(FactTest("stage", [], ["open"])),
    Fact(FactTest("stage", ["absent"], ["open"])), 1, [], "", [])

  const ENTRY := Entry("run", "end", [], [EntryInput("topic", "text", true)], false, false)

  const FLOW := Document(
    [Facet("done", "enum", ["yes"]), Facet("stage", "enum", ["open"])], [],
    [Setting("open-stage", "stage", "open"), Setting("set-done", "done", "yes")], [FINISH, START],
    [Target("end", Fact(FactTest("done", [], ["yes"])))], [ENTRY])

  const SHA: string := seq(64, i => 'a')

  const HOST := Environment(Identity("r", SHA, SHA, "run", "end", "", 0, SHA, SHA, "", SHA),
    {}, 0, None, map[], None, map[], 0, true)

  const INPUTS := map["topic" := "tea"]

  /** Calls without and with an actor, and one with an input nobody declared. */
  const NOBODY := Options("", "", None, INPUTS, true)
  const SOMEBODY := NOBODY.(humanActor := "someone")
  const ASTRAY := NOBODY.(inputs := map["subject" := "tea"])

  const FRESH := Initial(OriginFor(ENTRY, NOBODY, HOST.identity))

  lemma InputsValid()
    ensures InputError(ENTRY, INPUTS) == None && InputError(ENTRY, ASTRAY.inputs) == Some("FLOW_INPUT_REQUIRED")
  {
    assert 't' in INPUTS["topic"];
    assert ENTRY.inputs[0] in ENTRY.inputs;
  }

  predicate Usual(options: Options) {
    options.transition == "" && options.inputs == INPUTS && options.named
  }

  /** Loading passes, on the missing file and on a run it left. */
  lemma Loads(file: Option<RunState>, options: Options)
    requires Usual(options) && (file.Some? ==> file.value.origin == FRESH.origin && Ledger(file.value))
    ensures Loaded(ENTRY, file, options, HOST.identity) == (None, Some(if file.Some? then file.value else FRESH))
  {
    InputsValid();
    assert "r"[0] == 'r';
    assert INPUTS != map[] by { assert "topic" in INPUTS; }
  }

  lemma OperatorsFound()
    ensures OperatorNamed(FLOW.operators, "open-stage") == Some(Setting("open-stage", "stage", "open"))
    ensures OperatorNamed(FLOW.operators, "set-done") == Some(Setting("set-done", "done", "yes"))
  {
    assert FLOW.operators[1..][0] == FLOW.operators[1];
  }

  lemma StartSupported()
    ensures TransitionSupported(FLOW, START) && CompiledTransition(FLOW, START) && TargetSecured(FLOW, START)
  {
    OperatorsFound();
    assert LiteralFor(Setting("open-stage", "stage", "open").stateEffect.assignments, "stage") == Some("open");
  }

  lemma FinishSupported()
    ensures TransitionSupported(FLOW, FINISH) && CompiledTransition(FLOW, FINISH) && !TargetSecured(FLOW, FINISH)
    ensures TargetDecided(FLOW, FINISH)
  {
    OperatorsFound();
    var assignments := Setting("set-done", "done", "yes").stateEffect.assignments;
    assert assignments[..0] == [] && LiteralFor(assignments, "stage") == None;
  }

  /** The checker accepts the flow, although one target is not secured. */
  lemma FlowAccepted()
    ensures FlowSupported(FLOW) && Compiled(FLOW)
    ensures TargetDecided(FLOW, FINISH) && !TargetSecured(FLOW, FINISH)
  {
    StartSupported();
    FinishSupported();
  }

  lemma NothingAsked(state: RunState, t: Transition, op: Operator)
    requires (t == START || t == FINISH) && state.origin == FRESH.origin
    requires op.parameters == []
    ensures var context := RunContext(state, HOST, t, "", map[]);
      Materialized(op.parameters, ProducerMap(t.parameters), context, 0) == Ready(Evidence(context.identity, []))
  {
  }

  /** With nothing to ask, a transition that is called goes to its effect. */
  lemma GoesToEffect(state: RunState, t: Transition, op: Operator, options: Options) returns (evidence: Evidence)
    requires (t == START || t == FINISH) && state.origin == FRESH.origin
    requires OperatorNamed(FLOW.operators, t.operator) == Some(op) && op.parameters == []
    requires op.authority == Authority([], [])
    ensures evidence.parameters == []
    ensures RunTransition(FLOW, state, t, options, HOST) == Commit(state, t, op, evidence, options, HOST, "", None)
  {
    NothingAsked(state, t, op);
    evidence := Evidence(RunContext(state, HOST, t, "", map[]).identity, []);
  }

  lemma FirstChoice(options: Options)
    requires options.transition == ""
    ensures Chosen(FLOW, FRESH, options) == Ok(START)
  {
    assert FLOW.transitions[..1] == [FINISH];
    assert [FINISH][..0] == [];
    assert Frontier([FINISH], map[]) == [];
    assert Frontier(FLOW.transitions, map[]) == [START];
  }

  lemma SecondChoice(state: RunState, options: Options)
    requires options.transition == "" && state.facts == map["stage" := "open"]
    ensures Chosen(FLOW, state, options) == Ok(FINISH)
  {
    assert FLOW.transitions[..1] == [FINISH];
    assert [FINISH][..0] == [];
    assert Frontier([FINISH], state.facts) == [FINISH];
    assert Frontier(FLOW.transitions, state.facts) == [FINISH];
  }

  lemma Opens(evidence: Evidence, options: Options)
    requires evidence.parameters == []
    ensures var op := Setting("open-stage", "stage", "open");
      Commit(FRESH, START, op, evidence, options, HOST, "", None).0.Committed?
    ensures var op := Setting("open-stage", "stage", "open");
      Commit(FRESH, START, op, evidence, options, HOST, "", None).1.facts == map["stage" := "open"]
  {
    var op := Setting("open-stage", "stage", "open");
    assert op.stateEffect.assignments[..0] == [];
    assert EffectOn(map[], op.stateEffect, []) == Applied(map["stage" := "open"]);
  }

  /** The first call opens the stage, whoever is named. */
  lemma Started(options: Options)
    requires Usual(options)
    ensures Called(FLOW, ENTRY, None, options, HOST)
      == (RunTransition(FLOW, FRESH, START, options, HOST).0,
          Some(RunTransition(FLOW, FRESH, START, options, HOST).1))
    ensures RunTransition(FLOW, FRESH, START, options, HOST).0.Committed?
    ensures RunTransition(FLOW, FRESH, START, options, HOST).1.facts == map["stage" := "open"]
    ensures RunTransition(FLOW, FRESH, START, options, HOST).1.origin == FRESH.origin
  {
    Loads(None, options);
    StartedDrives(options);
  }

  lemma StartedDrives(options: Options)
    requires options.transition == ""
    ensures Driven(FLOW, ENTRY, FRESH, options, HOST) == RunTransition(FLOW, FRESH, START, options, HOST)
    ensures RunTransition(FLOW, FRESH, START, options, HOST).0.Committed?
    ensures RunTransition(FLOW, FRESH, START, options, HOST).1.facts == map["stage" := "open"]
    ensures RunTransition(FLOW, FRESH, START, options, HOST).1.origin == FRESH.origin
  {
    OperatorsFound();
    FirstChoice(options);
    var evidence := GoesToEffect(FRESH, START, Setting("open-stage", "stage", "open"), options);
    Opens(evidence, options);
    NotDone(FRESH.facts);
  }

  lemma OneCall(options: Options)
    ensures Calls(FLOW, ENTRY, [(options, HOST)]) == Called(FLOW, ENTRY, None, options, HOST).1
  {
    assert [(options, HOST)][..0] == [];
  }

  /** The checker accepts this flow, and its second call fails at its effect. */
  lemma AcceptedFlowFails()
    ensures FlowSupported(FLOW) && Compiled(FLOW)
    ensures Called(FLOW, ENTRY, Calls(FLOW, ENTRY, [(NOBODY, HOST)]), NOBODY, HOST).0 == EffectFailed
  {
    FlowAccepted();
    OneCall(NOBODY);
    Started(NOBODY);
    CommitKeepsLedger(FLOW, FRESH, START, NOBODY, HOST);
    SecondCallFails(RunTransition(FLOW, FRESH, START, NOBODY, HOST).1);
  }

  lemma FinishFails(state: RunState)
    requires state.facts == map["stage" := "open"] && state.origin == FRESH.origin
    ensures RunTransition(FLOW, state, FINISH, NOBODY, HOST).0 == EffectFailed
  {
    FlowAccepted();
    OperatorsFound();
    var evidence := GoesToEffect(state, FINISH, Setting("set-done", "done", "yes"), NOBODY);
    RunFailsExactly(FLOW, state, FINISH, NOBODY, HOST);
  }

  lemma SecondCallFails(state: RunState)
    requires Ledger(state) && state.facts == map["stage" := "open"] && state.origin == FRESH.origin
    ensures Called(FLOW, ENTRY, Some(state), NOBODY, HOST).0 == EffectFailed
  {
    Loads(Some(state), NOBODY);
    SecondDrives(state);
  }

  lemma SecondDrives(state: RunState)
    requires state.facts == map["stage" := "open"] && state.origin == FRESH.origin
    ensures Driven(FLOW, ENTRY, state, NOBODY, HOST).0 == EffectFailed
  {
    NotDone(state.facts);
    SecondChoice(state, NOBODY);
    FinishFails(state);
  }

  lemma NotDone(facts: Predicates.Facts)
    requires "done" !in facts
    ensures !Satisfied(TargetOf(FLOW.targets, ENTRY.target), facts)
  {
  }

  lemma UnaskedActor()
    ensures Called(FLOW, ENTRY, None, SOMEBODY, HOST).0.Committed?
    ensures !Loadable(ENTRY, Called(FLOW, ENTRY, None, SOMEBODY, HOST).1)
  {
    FlowAccepted();
    Started(SOMEBODY);
    NobodyAsked();
    CommitKeepsLedger(FLOW, FRESH, START, SOMEBODY, HOST);
  }

  lemma NobodyAsked()
    ensures !ActorAsked(FLOW, START, SOMEBODY)
  {
    OperatorsFound();
    var actor := SOMEBODY.humanActor;
    assert actor[0] == 's' && actor[0] in actor;
  }

  /** Naming an actor nobody asked for commits, and every later call fails. */
  lemma UnaskedActorEndsRun(later: seq<(Options, Environment)>, options: Options, env: Environment)
    ensures FlowSupported(FLOW) && WellFormed(HOST)
    ensures Called(FLOW, ENTRY, None, SOMEBODY, HOST).0.Committed?
    ensures Called(FLOW, ENTRY, Calls(FLOW, ENTRY, [(SOMEBODY, HOST)] + later), options, env).0.Failed?
  {
    FlowAccepted();
    UnaskedActor();
    OneCall(SOMEBODY);
    RefusedForEver(FLOW, ENTRY, [(SOMEBODY, HOST)], later, options, env);
  }

  /** A run named by the caller and created without its required input is saved,
      and no call on it, with whatever inputs, ever succeeds. */
  lemma UnstartedRunStays(later: seq<(Options, Environment)>, options: Options, env: Environment)
    ensures Called(FLOW, ENTRY, None, ASTRAY, HOST).1.Some?
    ensures Called(FLOW, ENTRY, Calls(FLOW, ENTRY, [(ASTRAY, HOST)] + later), options, env).0.Failed?
  {
    FlowAccepted();
    InputsValid();
    assert "subject" in ASTRAY.inputs && "r"[0] == 'r';
    NamedRunSavedFirst(FLOW, ENTRY, ASTRAY, HOST);
    OneCall(ASTRAY);
    RefusedForEver(FLOW, ENTRY, [(ASTRAY, HOST)], later, options, env);
  }
}
