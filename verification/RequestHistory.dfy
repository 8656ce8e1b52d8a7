/** Histories of one suspended transition: it is suspended and resumed, answered
    and superseded, in any order, while other contexts share the store. */
module RequestHistory {
  import opened Base
  import opened Ordering
  import opened ControlProgram
  import opened Invocation
  import opened RequestStore

  /** What stays fixed while a transition waits for input. */
  datatype Setup = Setup(contracts: seq<OperatorParameter>, producers: map<string, Producer>, identity: Identity)

  datatype Files = Files(requests: Requests, receipts: Receipts)

  datatype Event =
    | Resume(context: Context, now: int)
    | Answer(receipt: InputReceipt)
    | Supersede(rejected: Digest, reason: string, actor: string, host: string, at: int)
    | OtherContext(request: InputRequest)

  function Parameters(setup: Setup): seq<RequestedParameter> {
    Sort(ById, HostParameters(setup.contracts, setup.producers))
  }

  function Save(files: Files, r: InputRequest): Files {
    if r.fingerprint in files.requests then files else files.(requests := files.requests[r.fingerprint := r])
  }

  /** The newest generation stored for an identity; none unless it forms a chain. */
  ghost function LatestFor(requests: Requests, context: Context): Option<InputRequest> {
    if chain :| ChainFor(requests, context, chain) && |chain| > 0 then Some(chain[|chain| - 1]) else None
  }

  /** The stored requests of the context form one chain, possibly empty. */
  ghost predicate Consistent(requests: Requests, context: Context) {
    exists chain :: ChainFor(requests, context, chain)
  }

  /** The repository path continues the newest generation. */
  function Continued(context: Context, files: Files, latest: Option<InputRequest>): Context {
    var current := context.(inputReceipts := files.receipts);
    match latest
    case None => current.(generation := 0, supersession := None)
    case Some(r) => current.(generation := r.body.generation, supersession := r.body.supersession)
  }

  /** The next immutable generation, or nothing when a field is missing. */
  function SupersedeRequest(prior: InputRequest, reason: string, actor: string, host: string,
                            at: int): (r: Option<InputRequest>)
    ensures r.Some? ==> ValidRequest(r.value) && EffectiveGeneration(r.value) == EffectiveGeneration(prior) + 1
    ensures r.Some? ==> Supersedes(r.value, prior) && r.value.body.identity == prior.body.identity
  {
    if !ValidRequest(prior) || Blank(reason) || Blank(actor) || Blank(host) || at == 0 then None
    else
      var lineage := Supersession(prior.fingerprint, Trim(reason), Trim(actor), Trim(host), at);
      var next := BuildRequest(prior.body.parameters, prior.body.identity, EffectiveGeneration(prior) + 1,
        Some(lineage));
      if ValidRequest(next) then Some(next) else None
  }

  predicate FullyAnswered(files: Files, r: InputRequest) {
    forall q :: q in r.body.parameters ==> (q.id, r.fingerprint) in files.receipts
  }

  ghost function AfterResume(files: Files, setup: Setup, context: Context, now: int): Files {
    if context.identity != setup.identity || !Consistent(files.requests, context) then files
    else
      var outcome := Materialized(setup.contracts, setup.producers,
        Continued(context, files, LatestFor(files.requests, context)), now);
      if outcome.Requested? then Save(files, outcome.request) else files
  }

  ghost function AfterSupersede(files: Files, setup: Setup, d: Digest, reason: string, actor: string, host: string,
                                at: int): Files {
    if d !in files.requests || files.requests[d].body.identity != setup.identity then files
    else
      var r := files.requests[d];
      if LatestFor(files.requests, AnyContext(setup)) != Some(r) || !FullyAnswered(files, r) then files
      else
        var next := SupersedeRequest(r, reason, actor, host, at);
        if next.Some? then Save(files, next.value) else files
  }

  ghost function After(files: Files, setup: Setup, e: Event): Files {
    match e
    case Resume(context, now) => AfterResume(files, setup, context, now)
    case Answer(r) =>
      var key := (r.body.parameter, r.body.request);
      if key in files.receipts then files else files.(receipts := files.receipts[key := r])
    case Supersede(d, reason, actor, host, at) => AfterSupersede(files, setup, d, reason, actor, host, at)
    case OtherContext(r) =>
      if ValidRequest(r) && r.body.identity != setup.identity then Save(files, r) else files
  }

  function AnyContext(setup: Setup): Context {
    Context(setup.identity, 0, None, map[], map[], map[], map[], map[], map[], {})
  }

  ghost function Run(files: Files, setup: Setup, events: seq<Event>): Files {
    if events == [] then files else After(Run(files, setup, events[..|events| - 1]), setup, events[|events| - 1])
  }

  /** Each generation is rebuilt by its own number and lineage. */
  ghost predicate Rebuildable(setup: Setup, r: InputRequest) {
    r == BuildRequest(Parameters(setup), setup.identity, r.body.generation, r.body.supersession)
  }

  ghost predicate Inv(files: Files, setup: Setup, chain: seq<InputRequest>) {
    && NamedByFingerprint(files.requests)
    && ChainFor(files.requests, AnyContext(setup), chain)
    && (forall r :: r in chain ==> Rebuildable(setup, r))
    && (|chain| > 0 ==> chain[0].body.generation == 0)
  }

  lemma ChainUnique(requests: Requests, context: Context, a: seq<InputRequest>, b: seq<InputRequest>)
    requires NamedByFingerprint(requests) && ChainFor(requests, context, a) && ChainFor(requests, context, b)
    ensures a == b
  {
    if |a| <= |b| { ChainPrefix(requests, context, a, b); } else { ChainPrefix(requests, context, b, a); }
  }

  lemma ChainEntry(requests: Requests, context: Context, a: seq<InputRequest>, b: seq<InputRequest>, k: nat)
    requires NamedByFingerprint(requests) && ChainFor(requests, context, a) && ChainFor(requests, context, b) && k < |b|
    ensures k < |a| && a[k] == b[k]
  {
    assert b[k] in b && b[k] in a;
    var m :| 0 <= m < |a| && a[m] == b[k];
    assert EffectiveGeneration(a[m]) == m + 1 && EffectiveGeneration(b[k]) == k + 1;
  }

  lemma ChainPrefix(requests: Requests, context: Context, a: seq<InputRequest>, b: seq<InputRequest>)
    requires NamedByFingerprint(requests) && ChainFor(requests, context, a) && ChainFor(requests, context, b)
    requires |a| <= |b|
    ensures a == b
  {
    if |b| > 0 { ChainEntry(requests, context, a, b, |b| - 1); }
    forall k | 0 <= k < |b| ensures a[k] == b[k] { ChainEntry(requests, context, a, b, k); }
  }

  lemma LatestIsLast(requests: Requests, context: Context, chain: seq<InputRequest>)
    requires NamedByFingerprint(requests) && ChainFor(requests, context, chain)
    ensures LatestFor(requests, context) == if |chain| == 0 then None else Some(chain[|chain| - 1])
  {
    forall c | ChainFor(requests, context, c) ensures c == chain { ChainUnique(requests, context, c, chain); }
  }

  lemma SameChain(requests: Requests, a: Context, b: Context, chain: seq<InputRequest>)
    requires a.identity == b.identity
    ensures ChainFor(requests, a, chain) == ChainFor(requests, b, chain)
  {
  }

  lemma ContinuedFrom(setup: Setup, context: Context, files: Files, latest: Option<InputRequest>)
    requires context.identity == setup.identity && HostParameters(setup.contracts, setup.producers) != []
    ensures HostRequestFor(setup.contracts, setup.producers, Continued(context, files, latest))
      == Some(match latest
              case None => BuildRequest(Parameters(setup), setup.identity, 0, None)
              case Some(r) => BuildRequest(Parameters(setup), setup.identity, r.body.generation, r.body.supersession))
  {
  }

  /** The request the repository path builds next. */
  function NextRequest(setup: Setup, chain: seq<InputRequest>): InputRequest {
    if |chain| == 0 then BuildRequest(Parameters(setup), setup.identity, 0, None) else chain[|chain| - 1]
  }

  method NewestStored(store: Store, context: Context) returns (corrupt: bool, latest: Option<InputRequest>)
    requires store.Named()
    ensures corrupt <==> !Consistent(store.requests, context)
    ensures !corrupt ==> latest == LatestFor(store.requests, context)
  {
    var found := store.LatestRequest(context);
    if found.Latest? {
      ghost var chain :| ChainFor(store.requests, context, chain) && |chain| > 0 && chain[|chain| - 1] == found.request;
      LatestIsLast(store.requests, context, chain);
      return false, Some(found.request);
    }
    if found.NoRequest? { LatestIsLast(store.requests, context, []); }
    return found.Corrupt?, None;
  }

  lemma LatestStored(requests: Requests, context: Context, r: InputRequest)
    requires LatestFor(requests, context) == Some(r)
    ensures r.fingerprint in requests && requests[r.fingerprint] == r
  {
    var chain :| ChainFor(requests, context, chain) && |chain| > 0 && Some(chain[|chain| - 1]) == Some(r);
    assert r in chain;
  }

  method SaveRequested(store: Store, outcome: Outcome)
    modifies store`requests
    ensures var before := Files(old(store.requests), store.receipts);
      Files(store.requests, store.receipts) == if outcome.Requested? then Save(before, outcome.request) else before
  {
    if outcome.Requested? { var saved := store.SaveRequest(outcome.request); }
  }

  /** The commands as the program runs them, on the store itself. */
  method ResumeTransition(store: Store, setup: Setup, bindings: seq<ParameterBinding>, context: Context, now: int)
    returns (r: Option<Outcome>)
    requires store.Named() && setup.producers == ProducerMap(bindings) && context.identity == setup.identity
    modifies store`requests
    ensures Files(store.requests, store.receipts)
      == AfterResume(Files(old(store.requests), old(store.receipts)), setup, context, now)
    ensures r.Some? <==> Consistent(old(store.requests), context)
  {
    var corrupt, newest := NewestStored(store, context);
    if corrupt { return None; }
    var outcome := Materialize(setup.contracts, bindings,
      Continued(context, Files(store.requests, store.receipts), newest), now);
    SaveRequested(store, outcome);
    return Some(outcome);
  }

  method SupersedeCommand(store: Store, setup: Setup, d: Digest, reason: string, actor: string, host: string,
                          at: int)
    returns (next: Option<InputRequest>)
    requires store.Named() && d in store.requests && store.requests[d].body.identity == setup.identity
    modifies store`requests
    ensures Files(store.requests, store.receipts)
      == AfterSupersede(Files(old(store.requests), old(store.receipts)), setup, d, reason, actor, host, at)
    ensures next.None? ==> store.requests == old(store.requests)
  {
    var request := store.requests[d];
    var corrupt, latest := NewestStored(store, AnyContext(setup));
    if corrupt || latest.None? || latest.value.fingerprint != request.fingerprint { return None; }
    LatestStored(store.requests, AnyContext(setup), latest.value);
    if !FullyAnswered(Files(store.requests, store.receipts), request) { return None; }
    next := SupersedeRequest(request, reason, actor, host, at);
    if next.Some? { var saved := store.SaveRequest(next.value); }
  }

  /** Rebuilding from the newest generation gives that very request. */
  lemma ContinuedRequest(files: Files, setup: Setup, chain: seq<InputRequest>, context: Context)
    requires Inv(files, setup, chain) && context.identity == setup.identity
    requires HostParameters(setup.contracts, setup.producers) != []
    ensures HostRequestFor(setup.contracts, setup.producers,
      Continued(context, files, LatestFor(files.requests, context)))
      == Some(NextRequest(setup, chain))
  {
    SameChain(files.requests, context, AnyContext(setup), chain);
    LatestIsLast(files.requests, context, chain);
    ContinuedFrom(setup, context, files, LatestFor(files.requests, context));
    if |chain| > 0 { assert Rebuildable(setup, chain[|chain| - 1]); }
  }

  /** No stored request of this context is past the end of the chain. */
  lemma GenerationBound(files: Files, setup: Setup, chain: seq<InputRequest>, d: Digest)
    requires Inv(files, setup, chain) && d in files.requests && files.requests[d].body.identity == setup.identity
    ensures EffectiveGeneration(files.requests[d]) <= |chain|
  {
    assert MatchesContext(files.requests[d], AnyContext(setup));
    var k :| 0 <= k < |chain| && chain[k] == files.requests[d];
    assert EffectiveGeneration(chain[k]) == k + 1;
  }

  lemma ExtendedLinks(chain: seq<InputRequest>, r: InputRequest)
    requires Chain(chain) && EffectiveGeneration(r) == |chain| + 1
    requires |chain| > 0 ==> Supersedes(r, chain[|chain| - 1])
    ensures Chain(chain + [r])
  {
    var longer := chain + [r];
    forall k | 1 <= k < |longer| ensures Supersedes(longer[k], longer[k - 1]) {
      if k < |chain| { assert Supersedes(chain[k], chain[k - 1]); }
    }
  }

  /** Saving the successor of the last generation extends the chain by one. */
  lemma ExtendChain(files: Files, setup: Setup, chain: seq<InputRequest>, r: InputRequest)
    requires Inv(files, setup, chain) && ValidRequest(r) && Rebuildable(setup, r)
    requires EffectiveGeneration(r) == |chain| + 1 && (|chain| == 0 ==> r.body.generation == 0)
    requires |chain| > 0 ==> Supersedes(r, chain[|chain| - 1])
    ensures r.fingerprint !in files.requests
    ensures Inv(Save(files, r), setup, chain + [r])
  {
    NotYetSaved(files, setup, chain, r);
    ExtendedLinks(chain, r);
    ExtendedFor(files.requests, AnyContext(setup), chain, r);
  }

  lemma NotYetSaved(files: Files, setup: Setup, chain: seq<InputRequest>, r: InputRequest)
    requires Inv(files, setup, chain) && ValidRequest(r) && Rebuildable(setup, r)
    requires EffectiveGeneration(r) == |chain| + 1
    ensures r.fingerprint !in files.requests
  {
    if r.fingerprint in files.requests {
      assert ValidRequest(files.requests[r.fingerprint]);
      GenerationBound(files, setup, chain, r.fingerprint);
    }
  }

  lemma ExtendedFor(requests: Requests, context: Context, chain: seq<InputRequest>, r: InputRequest)
    requires ChainFor(requests, context, chain) && NamedByFingerprint(requests) && r.fingerprint !in requests
    requires ValidRequest(r) && MatchesContext(r, context) && Chain(chain + [r])
    ensures ChainFor(requests[r.fingerprint := r], context, chain + [r])
    ensures NamedByFingerprint(requests[r.fingerprint := r])
  {
    assert forall x :: x in chain + [r] <==> x in chain || x == r;
  }

  /** What may be asked for the setup's own identity. */
  predicate Askable(setup: Setup) {
    && ValidIdentity(setup.identity) && Sha(setup.identity.controlBundle) && Sha(setup.identity.authorityContext)
    && HostParameters(setup.contracts, setup.producers) != []
  }

  /** Saving the request that is asked begins the chain or changes nothing. */
  lemma AskedKeepsChain(files: Files, setup: Setup, chain: seq<InputRequest>) returns (next: seq<InputRequest>)
    requires Inv(files, setup, chain) && Askable(setup)
    ensures Inv(Save(files, NextRequest(setup, chain)), setup, next)
    ensures next == chain || (|chain| == 0 && next == [NextRequest(setup, chain)])
  {
    var r := NextRequest(setup, chain);
    next := chain;
    if |chain| == 0 {
      SortElements(ById, HostParameters(setup.contracts, setup.producers));
      ExtendChain(files, setup, chain, r);
      next := chain + [r];
    } else {
      assert r in chain;
    }
  }

  /** A materialization saves the request of the chain or nothing. */
  lemma ResumeSaves(files: Files, setup: Setup, context: Context, now: int, chain: seq<InputRequest>)
    requires Inv(files, setup, chain)
    ensures AfterResume(files, setup, context, now) == files ||
      (Askable(setup) && AfterResume(files, setup, context, now) == Save(files, NextRequest(setup, chain)))
  {
    if context.identity == setup.identity {
      SameChain(files.requests, context, AnyContext(setup), chain);
      var current := Continued(context, files, LatestFor(files.requests, context));
      if Materialized(setup.contracts, setup.producers, current, now).Requested? {
        RequestedIsHostRequest(setup.contracts, setup.producers, current, now);
        ContinuedRequest(files, setup, chain, context);
      }
    }
  }

  lemma ResumeKeepsChain(files: Files, setup: Setup, context: Context, now: int, chain: seq<InputRequest>)
    returns (next: seq<InputRequest>)
    requires Inv(files, setup, chain)
    ensures Inv(AfterResume(files, setup, context, now), setup, next)
    ensures next == chain || (|chain| == 0 && next == [NextRequest(setup, chain)])
  {
    next := chain;
    ResumeSaves(files, setup, context, now, chain);
    if AfterResume(files, setup, context, now) != files { next := AskedKeepsChain(files, setup, chain); }
  }

  lemma SuccessorExtends(files: Files, setup: Setup, chain: seq<InputRequest>, r: InputRequest, reason: string,
                         actor: string, host: string, at: int)
    requires Inv(files, setup, chain) && r in chain && r == chain[|chain| - 1]
    ensures var next := SupersedeRequest(r, reason, actor, host, at);
      next.Some? ==> Inv(Save(files, next.value), setup, chain + [next.value])
  {
    assert EffectiveGeneration(r) == |chain| && Rebuildable(setup, r);
    var next := SupersedeRequest(r, reason, actor, host, at);
    if next.Some? { ExtendChain(files, setup, chain, next.value); }
  }

  lemma SupersedeKeepsChain(files: Files, setup: Setup, d: Digest, reason: string, actor: string, host: string,
                            at: int, chain: seq<InputRequest>)
    returns (next: seq<InputRequest>)
    requires Inv(files, setup, chain)
    ensures Inv(AfterSupersede(files, setup, d, reason, actor, host, at), setup, next)
    ensures chain <= next && |next| <= |chain| + 1
    ensures |next| > |chain| ==> |chain| > 0 && FullyAnswered(files, chain[|chain| - 1])
  {
    next := chain;
    LatestIsLast(files.requests, AnyContext(setup), chain);
    if d in files.requests && LatestFor(files.requests, AnyContext(setup)) == Some(files.requests[d]) &&
      FullyAnswered(files, files.requests[d]) {
      var r := files.requests[d];
      SuccessorExtends(files, setup, chain, r, reason, actor, host, at);
      var successor := SupersedeRequest(r, reason, actor, host, at);
      if successor.Some? { next := chain + [successor.value]; }
    }
  }

  /** A request of another context does not touch the chain. */
  lemma SavedElsewhere(requests: Requests, context: Context, chain: seq<InputRequest>, r: InputRequest)
    requires NamedByFingerprint(requests) && ChainFor(requests, context, chain)
    requires ValidRequest(r) && r.fingerprint !in requests && !MatchesContext(r, context)
    ensures NamedByFingerprint(requests[r.fingerprint := r]) && ChainFor(requests[r.fingerprint := r], context, chain)
  {
    assert forall x :: x in chain ==> x.fingerprint in requests && x.fingerprint != r.fingerprint;
  }

  lemma OtherContextKeepsChain(files: Files, setup: Setup, r: InputRequest, chain: seq<InputRequest>)
    requires Inv(files, setup, chain)
    ensures Inv(After(files, setup, OtherContext(r)), setup, chain)
  {
    if ValidRequest(r) && r.body.identity != setup.identity && r.fingerprint !in files.requests {
      SavedElsewhere(files.requests, AnyContext(setup), chain, r);
    }
  }

  /** Every event keeps the chain or extends it by one generation; only a fully
      answered generation gets a successor. */
  lemma StepKeepsChain(files: Files, setup: Setup, e: Event, chain: seq<InputRequest>) returns (next: seq<InputRequest>)
    requires Inv(files, setup, chain)
    ensures Inv(After(files, setup, e), setup, next)
    ensures chain <= next && |next| <= |chain| + 1
    ensures |next| > |chain| > 0 ==> FullyAnswered(files, chain[|chain| - 1])
  {
    match e {
      case Resume(context, now) => next := ResumeKeepsChain(files, setup, context, now, chain);
      case Answer(_) => next := chain;
      case Supersede(d, reason, actor, host, at) => next :=
        SupersedeKeepsChain(files, setup, d, reason, actor, host, at, chain);
      case OtherContext(r) =>
        OtherContextKeepsChain(files, setup, r, chain);
        next := chain;
    }
  }

  /** Nothing stored is ever changed or removed. */
  lemma RecordsImmutable(files: Files, setup: Setup, e: Event)
    ensures forall d :: d in files.requests ==>
      d in After(files, setup, e).requests && After(files, setup, e).requests[d] == files.requests[d]
    ensures forall k :: k in files.receipts ==>
      k in After(files, setup, e).receipts && After(files, setup, e).receipts[k] == files.receipts[k]
  {
  }

  /** Every superseded generation has all its answers. */
  ghost predicate SupersededAnswered(files: Files, chain: seq<InputRequest>) {
    forall k :: 0 <= k < |chain| - 1 ==> FullyAnswered(files, chain[k])
  }

  lemma StepKeepsAnswers(files: Files, setup: Setup, e: Event, chain: seq<InputRequest>, next: seq<InputRequest>)
    requires SupersededAnswered(files, chain) && chain <= next && |next| <= |chain| + 1
    requires |next| > |chain| > 0 ==> FullyAnswered(files, chain[|chain| - 1])
    ensures SupersededAnswered(After(files, setup, e), next)
  {
    RecordsImmutable(files, setup, e);
    forall k | 0 <= k < |next| - 1 ensures FullyAnswered(After(files, setup, e), next[k]) {
      assert next[k] == chain[k] && FullyAnswered(files, chain[k]);
    }
  }

  /** Over every history the store holds exactly generations 1 to n, hash-linked,
      each reproducible from its own number and lineage, and all but the newest
      fully answered. */
  lemma {:induction false} HistoryKeepsChain(setup: Setup, events: seq<Event>) returns (chain: seq<InputRequest>)
    ensures Inv(Run(Files(map[], map[]), setup, events), setup, chain)
    ensures SupersededAnswered(Run(Files(map[], map[]), setup, events), chain)
    ensures |chain| <= |events|
    decreases |events|
  {
    if events == [] {
      chain := [];
    } else {
      var n := |events| - 1;
      var before := HistoryKeepsChain(setup, events[..n]);
      var files := Run(Files(map[], map[]), setup, events[..n]);
      chain := StepKeepsChain(files, setup, events[n], before);
      StepKeepsAnswers(files, setup, events[n], before, chain);
    }
  }

  lemma GenerationsDiffer(files: Files, setup: Setup, chain: seq<InputRequest>, i: nat, j: nat)
    requires Inv(files, setup, chain) && i < j < |chain|
    ensures chain[i].fingerprint != chain[j].fingerprint
  {
    assert chain[i] in chain && chain[j] in chain;
    assert ValidRequest(files.requests[chain[i].fingerprint]) && ValidRequest(files.requests[chain[j].fingerprint]);
    assert EffectiveGeneration(chain[i]) == i + 1 && EffectiveGeneration(chain[j]) == j + 1;
  }

  /** Once a generation is superseded, its answers never make the transition
      ready again: readiness needs answers to the newest generation. */
  lemma OnlyLatestAnswersCount(files: Files, setup: Setup, chain: seq<InputRequest>, context: Context, now: int,
                               contract: OperatorParameter, k: nat)
    requires Inv(files, setup, chain) && context.identity == setup.identity && k + 1 < |chain|
    requires contract in setup.contracts && HostBound(contract, setup.producers)
    requires Materialized(setup.contracts, setup.producers,
      Continued(context, files, LatestFor(files.requests, context)), now).Ready?
    ensures var newest := chain[|chain| - 1].fingerprint;
      && (contract.id, newest) in files.receipts
      && files.receipts[(contract.id, newest)].body.request == newest && newest != chain[k].fingerprint
  {
    HostParametersNamed(setup.contracts, setup.producers, contract);
    ContinuedRequest(files, setup, chain, context);
    ReadyAnswered(setup.contracts, setup.producers, Continued(context, files, LatestFor(files.requests, context)), now,
      contract);
    GenerationsDiffer(files, setup, chain, k, |chain| - 1);
  }

  // ----- The declarative path -----

  /** The declarative path reads the stored receipts, and rebuilds its request
      with generation zero and no lineage. */
  function Declarative(context: Context, files: Files): Context {
    context.(generation := 0, supersession := None, inputReceipts := files.receipts)
  }

  function DeclarativeOutcome(files: Files, setup: Setup, context: Context, now: int): Outcome {
    Materialized(setup.contracts, setup.producers, Declarative(context, files), now)
  }

  /** So it builds the first generation, which is the newest exactly when nothing
      was superseded. */
  lemma DeclarativeRequestIsLatest(files: Files, setup: Setup, chain: seq<InputRequest>, context: Context)
    requires Inv(files, setup, chain) && context.identity == setup.identity && |chain| > 0
    requires context.generation == 0 && context.supersession.None?
    ensures HostRequestFor(setup.contracts, setup.producers, context) == Some(chain[0])
    ensures HostRequestFor(setup.contracts, setup.producers, context) == LatestFor(files.requests, context) <==>
      |chain| == 1
  {
    SameChain(files.requests, context, AnyContext(setup), chain);
    LatestIsLast(files.requests, context, chain);
    var first := chain[0];
    assert first in chain && Rebuildable(setup, first) && EffectiveGeneration(first) == 1;
    assert ValidRequest(files.requests[first.fingerprint]);
    assert Parameters(setup) != [];
    assert HostParameters(setup.contracts, setup.producers) != [];
    if |chain| > 1 { GenerationsDiffer(files, setup, chain, 0, |chain| - 1); }
  }

  /** The last generation carries number zero and no lineage only while it is the
      first. */
  lemma LastNumbered(files: Files, setup: Setup, chain: seq<InputRequest>)
    requires Inv(files, setup, chain) && |chain| > 0
    ensures chain[|chain| - 1].body.generation == 0 <==> |chain| == 1
    ensures |chain| == 1 ==> chain[0].body.supersession.None?
  {
    var last := chain[|chain| - 1];
    assert last in chain && EffectiveGeneration(last) == |chain|;
    assert ValidRequest(files.requests[last.fingerprint]);
  }

  lemma ContinuedIsDeclarative(context: Context, files: Files, latest: Option<InputRequest>)
    ensures Declarative(context, files) == Continued(context, files, latest) <==>
      latest.None? || (latest.value.body.generation == 0 && latest.value.body.supersession.None?)
  {
  }

  /** Before anything is superseded it does what the repository path does; after
      that its context is always another one. */
  lemma DeclarativeAgrees(files: Files, setup: Setup, chain: seq<InputRequest>, context: Context)
    requires Inv(files, setup, chain) && context.identity == setup.identity
    ensures Declarative(context, files) == Continued(context, files, LatestFor(files.requests, context)) <==>
      |chain| <= 1
  {
    SameChain(files.requests, context, AnyContext(setup), chain);
    LatestIsLast(files.requests, context, chain);
    ContinuedIsDeclarative(context, files, LatestFor(files.requests, context));
    if |chain| > 0 { LastNumbered(files, setup, chain); }
  }

  /** A host-bound parameter that was read has a current receipt for exactly this
      request, and its value. */
  lemma HostValueRead(contract: OperatorParameter, producers: map<string, Producer>, context: Context, request: Digest,
                      now: int)
    requires HostBound(contract, producers) && Attempted(contract, producers, context, request, now).Resolved?
    ensures (contract.id, request) in context.inputReceipts
    ensures var r := context.inputReceipts[(contract.id, request)];
      && ReceiptCurrent(r, context, contract, producers[contract.id], request, now)
      && Attempted(contract, producers, context, request, now).parameter.name == contract.id
      && Attempted(contract, producers, context, request, now).parameter.value
           == if contract.secret then "" else r.body.value
  {
  }

  /** The value in the evidence of a host-bound parameter is that of the receipt
      given for this generation. */
  ghost predicate RestsOn(evidence: Evidence, context: Context, contract: OperatorParameter, producer: Producer,
                          generation: InputRequest, now: int) {
    && (contract.id, generation.fingerprint) in context.inputReceipts
    && var r := context.inputReceipts[(contract.id, generation.fingerprint)];
      && ReceiptCurrent(r, context, contract, producer, generation.fingerprint, now)
      && exists p :: p in evidence.parameters && p.name == contract.id
           && p.value == if contract.secret then "" else r.body.value
  }

  /** When the declarative path is ready, every host-bound parameter rests on the
      answer to the first generation, and that is the newest exactly when nothing
      was superseded. */
  lemma DeclarativeReadyRests(files: Files, setup: Setup, chain: seq<InputRequest>, context: Context, now: int,
                              contract: OperatorParameter)
    requires Inv(files, setup, chain) && context.identity == setup.identity && |chain| > 0
    requires contract in setup.contracts && HostBound(contract, setup.producers)
    requires DeclarativeOutcome(files, setup, context, now).Ready?
    ensures RestsOn(DeclarativeOutcome(files, setup, context, now).evidence, Declarative(context, files), contract,
                    setup.producers[contract.id], chain[0], now)
    ensures chain[0].fingerprint == chain[|chain| - 1].fingerprint <==> |chain| == 1
  {
    var current := Declarative(context, files);
    DeclarativeRequestIsLatest(files, setup, chain, current);
    ReadyComplete(setup.contracts, setup.producers, current, now, contract);
    HostValueRead(contract, setup.producers, current, chain[0].fingerprint, now);
    if |chain| > 1 { GenerationsDiffer(files, setup, chain, 0, |chain| - 1); }
  }

  /** A host-bound contract is asked for in the first generation. */
  lemma AskedInFirst(files: Files, setup: Setup, chain: seq<InputRequest>, contract: OperatorParameter)
    requires Inv(files, setup, chain) && |chain| > 0
    requires contract in setup.contracts && HostBound(contract, setup.producers)
    ensures exists q :: q in chain[0].body.parameters && q.id == contract.id
  {
    assert chain[0] in chain && Rebuildable(setup, chain[0]);
    HostParametersNamed(setup.contracts, setup.producers, contract);
    SortElements(ById, HostParameters(setup.contracts, setup.producers));
  }

  lemma AnsweredNotWanted(contract: OperatorParameter, producers: map<string, Producer>, context: Context,
                          request: Digest, now: int)
    requires HostBound(contract, producers) ==> (contract.id, request) in context.inputReceipts
    ensures !Attempted(contract, producers, context, request, now).Wanted?
  {
  }

  /** What is requested was wanted by some contract. */
  lemma RequestedWants(contracts: seq<OperatorParameter>, producers: map<string, Producer>, context: Context,
                       request: InputRequest, now: int)
    returns (contract: OperatorParameter)
    requires HostRequestFor(contracts, producers, context) == Some(request)
    requires Materialized(contracts, producers, context, now).Requested?
    ensures contract in contracts && Attempted(contract, producers, context, request.fingerprint, now).Wanted?
  {
    var attempts := Attempts(contracts, producers, context, request.fingerprint, now);
    var i :| 0 <= i < |attempts| && attempts[i] == Wanted;
    AttemptAt(contracts, producers, context, request.fingerprint, now, i);
    contract := contracts[i];
  }

  /** Once the first generation is answered, the declarative path never asks. */
  lemma DeclarativeNeverAsksAgain(files: Files, setup: Setup, chain: seq<InputRequest>, context: Context, now: int)
    requires Inv(files, setup, chain) && context.identity == setup.identity && |chain| > 0
    requires FullyAnswered(files, chain[0])
    ensures !DeclarativeOutcome(files, setup, context, now).Requested?
  {
    var current := Declarative(context, files);
    DeclarativeRequestIsLatest(files, setup, chain, current);
    if Materialized(setup.contracts, setup.producers, current, now).Requested? {
      var contract := RequestedWants(setup.contracts, setup.producers, current, chain[0], now);
      if HostBound(contract, setup.producers) { AskedInFirst(files, setup, chain, contract); }
      AnsweredNotWanted(contract, setup.producers, current, chain[0].fingerprint, now);
    }
  }

  lemma AttemptReads(contract: OperatorParameter, producers: map<string, Producer>, a: Context, b: Context,
                     request: Digest, now: int)
    requires b == a.(inputReceipts := b.inputReceipts)
    requires (contract.id, request) in a.inputReceipts <==> (contract.id, request) in b.inputReceipts
    requires (contract.id, request) in a.inputReceipts ==>
      a.inputReceipts[(contract.id, request)] == b.inputReceipts[(contract.id, request)]
    ensures Attempted(contract, producers, a, request, now) == Attempted(contract, producers, b, request, now)
  {
  }

  /** The two stores hold the same answers to one request. */
  ghost predicate SameAnswers(a: Receipts, b: Receipts, request: Digest) {
    forall id :: ((id, request) in a <==> (id, request) in b)
      && ((id, request) in a ==> a[(id, request)] == b[(id, request)])
  }

  /** A materialization is decided by the attempts it makes. */
  lemma SameAttempts(contracts: seq<OperatorParameter>, producers: map<string, Producer>, a: Context, b: Context,
                     request: Digest, now: int)
    requires b == a.(inputReceipts := b.inputReceipts)
    requires request == RequestDigestOf(HostRequestFor(contracts, producers, a))
    requires Attempts(contracts, producers, a, request, now) == Attempts(contracts, producers, b, request, now)
    ensures Materialized(contracts, producers, a, now) == Materialized(contracts, producers, b, now)
  {
    assert HostRequestFor(contracts, producers, a) == HostRequestFor(contracts, producers, b);
  }

  lemma AttemptsRead(contracts: seq<OperatorParameter>, producers: map<string, Producer>, a: Context, b: Context,
                     request: Digest, now: int)
    requires b == a.(inputReceipts := b.inputReceipts) && SameAnswers(a.inputReceipts, b.inputReceipts, request)
    ensures Attempts(contracts, producers, a, request, now) == Attempts(contracts, producers, b, request, now)
  {
    forall i | 0 <= i < |contracts|
      ensures Attempts(contracts, producers, a, request, now)[i] == Attempts(contracts, producers, b, request, now)[i]
    {
      AttemptAt(contracts, producers, a, request, now, i);
      AttemptAt(contracts, producers, b, request, now, i);
      AttemptReads(contracts[i], producers, a, b, request, now);
    }
  }

  /** Whatever is answered to later generations makes no difference to it. */
  lemma DeclarativeIgnoresLater(files: Files, later: Files, setup: Setup, chain: seq<InputRequest>, context: Context,
                                now: int)
    requires Inv(files, setup, chain) && context.identity == setup.identity && |chain| > 0
    requires SameAnswers(files.receipts, later.receipts, chain[0].fingerprint)
    ensures DeclarativeOutcome(files, setup, context, now) == DeclarativeOutcome(later, setup, context, now)
  {
    var a, b := Declarative(context, files), Declarative(context, later);
    DeclarativeRequestIsLatest(files, setup, chain, a);
    AttemptsRead(setup.contracts, setup.producers, a, b, chain[0].fingerprint, now);
    SameAttempts(setup.contracts, setup.producers, a, b, chain[0].fingerprint, now);
  }

  /** Over every history: once anything was superseded, the declarative path asks
      nothing any more, although the newest generation may be unanswered. */
  lemma DeclarativeOverHistory(setup: Setup, events: seq<Event>, context: Context, now: int)
    returns (chain: seq<InputRequest>)
    requires context.identity == setup.identity
    ensures Inv(Run(Files(map[], map[]), setup, events), setup, chain)
    ensures |chain| > 1 ==>
      !DeclarativeOutcome(Run(Files(map[], map[]), setup, events), setup, context, now).Requested?
  {
    chain := HistoryKeepsChain(setup, events);
    if |chain| > 1 {
      DeclarativeNeverAsksAgain(Run(Files(map[], map[]), setup, events), setup, chain, context, now);
    }
  }
}
