/** One history in which a question is asked, answered and superseded: the
    declarative path goes on with the superseded answer, where the repository path
    asks anew. */
module RequestExamples {
  import opened Base
  import opened ControlProgram
  import opened Invocation
  import opened RequestStore
  import opened RequestHistory

  // ----- Superseding -----

  /** Superseding the newest, fully answered request extends the chain. */
  lemma SupersedingExtends(files: Files, setup: Setup, chain: seq<InputRequest>, reason: string, actor: string,
                           host: string, at: int)
    requires Inv(files, setup, chain) && |chain| > 0 && FullyAnswered(files, chain[|chain| - 1])
    requires SupersedeRequest(chain[|chain| - 1], reason, actor, host, at).Some?
    ensures var r := chain[|chain| - 1];
      Inv(AfterSupersede(files, setup, r.fingerprint, reason, actor, host, at), setup,
          chain + [SupersedeRequest(r, reason, actor, host, at).value])
  {
    var r := chain[|chain| - 1];
    assert r in chain;
    LatestIsLast(files.requests, AnyContext(setup), chain);
    SuccessorExtends(files, setup, chain, r, reason, actor, host, at);
  }

  // ----- One question -----

  const SHA: string := seq(64, i => 'a')

  const QUESTION := OperatorParameter(
    "colour", ValueType("string", None, None, None, None), true, false, [HostInputSource], Authority([], []))

  const ASKED := BareProducer(HostInputSource).(request := Some(HostRequest("ask", "Which colour?", [], "transition")))

  const WAITING := Setup([QUESTION], map["colour" := ASKED],
    Identity("r", SHA, SHA, "run", "end", "paint", 1, SHA, SHA, SHA, SHA))

  const FIRST := BuildRequest([RequestedFor(QUESTION, ASKED)], WAITING.identity, 0, None)

  const ANSWER := SealedAnswer(FIRST, "colour", QUESTION, ASKED, "red", "someone", "host")

  const NOTHING := Files(map[], map[])

  lemma OneQuestion()
    ensures HostParameters(WAITING.contracts, WAITING.producers) == [RequestedFor(QUESTION, ASKED)]
    ensures Parameters(WAITING) == [RequestedFor(QUESTION, ASKED)]
  {
    var none: seq<OperatorParameter> := [];
    var unasked: seq<RequestedParameter> := [];
    assert WAITING.contracts[..0] == none;
    assert unasked + [RequestedFor(QUESTION, ASKED)] == [RequestedFor(QUESTION, ASKED)];
    assert [RequestedFor(QUESTION, ASKED)][1..] == unasked;
  }

  lemma EmptyChain()
    ensures Inv(NOTHING, WAITING, []) && LatestFor(map[], AnyContext(WAITING)) == None
  {
    LatestIsLast(map[], AnyContext(WAITING), []);
  }

  predicate Usable(i: Identity) { ValidIdentity(i) && Sha(i.controlBundle) && Sha(i.authorityContext) }

  /** With a single contract its one attempt decides. */
  lemma SoleContract(contract: OperatorParameter, producers: map<string, Producer>, context: Context, now: int,
                     request: InputRequest)
    requires Usable(context.identity) && HostRequestFor([contract], producers, context) == Some(request)
    ensures var a := Attempted(contract, producers, context, request.fingerprint, now);
      && (a.Wanted? ==> Materialized([contract], producers, context, now) == Requested(request))
      && (a.Resolved? ==> Materialized([contract], producers, context, now).Ready?)
  {
    var attempts := Attempts([contract], producers, context, request.fingerprint, now);
    AttemptAt([contract], producers, context, request.fingerprint, now, 0);
    assert attempts == [attempts[0]] && attempts[0] in attempts;
  }

  lemma WaitingUsable()
    ensures Usable(WAITING.identity)
  {
  }

  lemma FirstBuilt()
    ensures HostRequestFor(WAITING.contracts, WAITING.producers, AnyContext(WAITING)) == Some(FIRST)
  {
    OneQuestion();
  }

  /** Without an answer the materialization asks. */
  lemma Asks()
    ensures Materialized(WAITING.contracts, WAITING.producers, AnyContext(WAITING), 0) == Requested(FIRST)
  {
    WaitingUsable();
    FirstBuilt();
    SoleContract(QUESTION, WAITING.producers, AnyContext(WAITING), 0, FIRST);
  }

  lemma AskedOnce()
    ensures AfterResume(NOTHING, WAITING, AnyContext(WAITING), 0) == Files(map[FIRST.fingerprint := FIRST], map[])
  {
    EmptyChain();
    Asks();
    assert ChainFor(map[], AnyContext(WAITING), []);
  }

  /** A stored request of the identity is the whole of a chain of at most one. */
  lemma SoleRequest(files: Files, setup: Setup, chain: seq<InputRequest>, d: Digest)
    requires Inv(files, setup, chain) && |chain| <= 1
    requires d in files.requests && files.requests[d].body.identity == setup.identity
    ensures chain == [files.requests[d]]
  {
    assert MatchesContext(files.requests[d], AnyContext(setup));
  }

  lemma FirstAsked()
    ensures Inv(Files(map[FIRST.fingerprint := FIRST], map[]), WAITING, [FIRST])
  {
    EmptyChain();
    AskedOnce();
    var chain := ResumeKeepsChain(NOTHING, WAITING, AnyContext(WAITING), 0, []);
    SoleRequest(Files(map[FIRST.fingerprint := FIRST], map[]), WAITING, chain, FIRST.fingerprint);
  }

  lemma ReceiptsApart(requests: Requests, before: Receipts, after: Receipts, setup: Setup, chain: seq<InputRequest>)
    requires Inv(Files(requests, before), setup, chain)
    ensures Inv(Files(requests, after), setup, chain)
  {
  }

  lemma FirstOfChain(receipts: Receipts)
    ensures Inv(Files(map[FIRST.fingerprint := FIRST], receipts), WAITING, [FIRST])
  {
    FirstAsked();
    ReceiptsApart(map[FIRST.fingerprint := FIRST], map[], receipts, WAITING, [FIRST]);
  }

  lemma NotBlank(s: string)
    requires s != "" && !Blank([s[0]]) && !Blank([s[|s| - 1]])
    ensures !Blank(s) && Trim(s) == s
  {
    assert s[0] in s && forall c :: c in [s[0]] ==> c == s[0];
  }

  lemma SuccessorExists()
    ensures SupersedeRequest(FIRST, "why", "who", "host", 1).Some?
  {
    FirstOfChain(map[]);
    assert FIRST in [FIRST] && ValidRequest(FIRST);
    assert 'w' in ['w'] && 'y' in ['y'] && 'o' in ['o'] && 'h' in ['h'] && 't' in ['t'];
    NotBlank("why");
    NotBlank("who");
    NotBlank("host");
  }

  const HISTORY := [
    Resume(AnyContext(WAITING), 0), Answer(ANSWER), Supersede(FIRST.fingerprint, "why", "who", "host", 1)]

  lemma RunMore(files: Files, setup: Setup, events: seq<Event>, e: Event)
    ensures Run(files, setup, events + [e]) == After(Run(files, setup, events), setup, e)
  {
    assert (events + [e])[..|events|] == events;
  }

  lemma RunOne(files: Files, setup: Setup, a: Event)
    ensures Run(files, setup, [a]) == After(files, setup, a)
  {
    var none: seq<Event> := [];
    RunMore(files, setup, none, a);
    assert none + [a] == [a];
  }

  lemma RunTwo(files: Files, setup: Setup, a: Event, b: Event)
    ensures Run(files, setup, [a, b]) == After(Run(files, setup, [a]), setup, b)
  {
    RunMore(files, setup, [a], b);
    assert [a] + [b] == [a, b];
  }

  lemma RunThree(files: Files, setup: Setup, a: Event, b: Event, c: Event)
    ensures Run(files, setup, [a, b, c]) == After(Run(files, setup, [a, b]), setup, c)
  {
    RunMore(files, setup, [a, b], c);
    assert [a, b] + [c] == [a, b, c];
  }

  const ANSWERED := Files(map[FIRST.fingerprint := FIRST], map[("colour", FIRST.fingerprint) := ANSWER])

  lemma HistoryRuns()
    ensures Run(NOTHING, WAITING, HISTORY) ==
      AfterSupersede(ANSWERED, WAITING, FIRST.fingerprint, "why", "who", "host", 1)
  {
    RunOne(NOTHING, WAITING, HISTORY[0]);
    RunTwo(NOTHING, WAITING, HISTORY[0], HISTORY[1]);
    RunThree(NOTHING, WAITING, HISTORY[0], HISTORY[1], HISTORY[2]);
    AskedOnce();
  }

  lemma HistorySupersedes()
    ensures var next := SupersedeRequest(FIRST, "why", "who", "host", 1);
      next.Some? && Inv(Run(NOTHING, WAITING, HISTORY), WAITING, [FIRST] + [next.value])
  {
    FirstOfChain(ANSWERED.receipts);
    SuccessorExists();
    SupersedingExtends(ANSWERED, WAITING, [FIRST], "why", "who", "host", 1);
    HistoryRuns();
  }

  /** Superseding leaves the receipts alone. */
  lemma HistoryReceipts()
    ensures Run(NOTHING, WAITING, HISTORY).receipts == ANSWERED.receipts
  {
    HistoryRuns();
  }

  lemma AnswerCurrent(context: Context)
    requires context.identity == WAITING.identity
    ensures ReceiptCurrent(ANSWER, context, QUESTION, ASKED, FIRST.fingerprint, 0)
  {
    WaitingUsable();
    assert 's' in "someone" && 'h' in "host";
  }

  lemma AnswerRead(context: Context)
    requires context.identity == WAITING.identity && context.inputReceipts == ANSWERED.receipts
    ensures Attempted(QUESTION, WAITING.producers, context, FIRST.fingerprint, 0).Resolved?
  {
    AnswerCurrent(context);
  }

  lemma NewestUnanswered(context: Context, newest: InputRequest)
    requires context.inputReceipts == ANSWERED.receipts && newest.fingerprint != FIRST.fingerprint
    ensures Attempted(QUESTION, WAITING.producers, context, newest.fingerprint, 0).Wanted?
  {
  }

  /** The declarative path is ready on the answer to the first generation. */
  lemma DeclarativeReady()
    ensures DeclarativeOutcome(Run(NOTHING, WAITING, HISTORY), WAITING, AnyContext(WAITING), 0).Ready?
  {
    var current := Declarative(AnyContext(WAITING), Run(NOTHING, WAITING, HISTORY));
    HistoryReceipts();
    WaitingUsable();
    FirstBuilt();
    AnswerRead(current);
    SoleContract(QUESTION, WAITING.producers, current, 0, FIRST);
  }

  /** The repository path asks with the second. */
  lemma RepositoryAsks(newest: InputRequest)
    requires Inv(Run(NOTHING, WAITING, HISTORY), WAITING, [FIRST] + [newest])
    ensures var files := Run(NOTHING, WAITING, HISTORY);
      Materialized(WAITING.contracts, WAITING.producers,
        Continued(AnyContext(WAITING), files, LatestFor(files.requests, AnyContext(WAITING))), 0) == Requested(newest)
  {
    var files := Run(NOTHING, WAITING, HISTORY);
    var current := Continued(AnyContext(WAITING), files, LatestFor(files.requests, AnyContext(WAITING)));
    OneQuestion();
    ContinuedRequest(files, WAITING, [FIRST] + [newest], AnyContext(WAITING));
    HistoryReceipts();
    WaitingUsable();
    GenerationsDiffer(files, WAITING, [FIRST] + [newest], 0, 1);
    NewestUnanswered(current, newest);
    SoleContract(QUESTION, WAITING.producers, current, 0, newest);
  }

  /** After this history the store holds two generations. The declarative path is
      ready, and its parameter has the superseded value, while the repository path
      asks for an answer to the newest generation. */
  lemma DeclarativeUsesSuperseded() returns (newest: InputRequest)
    ensures var files := Run(NOTHING, WAITING, HISTORY);
      && Inv(files, WAITING, [FIRST] + [newest])
      && var outcome := DeclarativeOutcome(files, WAITING, AnyContext(WAITING), 0);
      && outcome.Ready? && (exists p :: p in outcome.evidence.parameters && p.name == "colour" && p.value == "red")
      && Materialized(WAITING.contracts, WAITING.producers,
           Continued(AnyContext(WAITING), files, LatestFor(files.requests, AnyContext(WAITING))), 0)
           == Requested(newest)
  {
    HistorySupersedes();
    newest := SupersedeRequest(FIRST, "why", "who", "host", 1).value;
    DeclarativeReady();
    HistoryReceipts();
    DeclarativeReadyRests(Run(NOTHING, WAITING, HISTORY), WAITING, [FIRST] + [newest], AnyContext(WAITING), 0,
      QUESTION);
    RepositoryAsks(newest);
  }
}
