/** The store of input requests and answers, and the checker of the chain of
    request generations. Records are files named by their fingerprint and never
    overwritten. */
module RequestStore {
  import opened Base
  import opened ControlProgram
  import opened Invocation

  type Requests = map<Digest, InputRequest>
  type Receipts = map<(string, Digest), InputReceipt>

  predicate MatchesContext(r: InputRequest, context: Context) {
    r.body.identity == context.identity
  }

  /** Each file is named by the fingerprint of the request it holds. */
  ghost predicate NamedByFingerprint(requests: Requests) {
    forall d :: d in requests ==> requests[d].fingerprint == d
  }

  /** What a directory scan finds for one context. */
  datatype Latest = Latest(request: InputRequest) | NoRequest | Corrupt

  /** Generations 1 to n, each one superseding the one before it. */
  ghost predicate Chain(chain: seq<InputRequest>) {
    && (forall k :: 0 <= k < |chain| ==> EffectiveGeneration(chain[k]) == k + 1)
    && (forall k :: 1 <= k < |chain| ==> Supersedes(chain[k], chain[k - 1]))
  }

  predicate Supersedes(next: InputRequest, prior: InputRequest) {
    next.body.supersession.Some? && next.body.supersession.value.previous == prior.fingerprint
  }

  /** The chain holds exactly the valid requests stored for the context. */
  ghost predicate ChainFor(requests: Requests, context: Context, chain: seq<InputRequest>) {
    && Chain(chain)
    && (forall d :: d in requests ==> ValidRequest(requests[d]))
    && (forall d :: d in requests && MatchesContext(requests[d], context) ==> requests[d] in chain)
    && (forall r :: r in chain ==>
         r.fingerprint in requests && requests[r.fingerprint] == r && MatchesContext(r, context))
  }

  /** The requests collected by generation so far. */
  ghost predicate Gathered(requests: Requests, context: Context, scanned: set<Digest>,
                           byGeneration: map<nat, InputRequest>) {
    && (forall d :: d in scanned ==> d in requests && ValidRequest(requests[d]))
    && (forall d :: d in scanned && MatchesContext(requests[d], context) ==>
      EffectiveGeneration(requests[d]) in byGeneration && byGeneration[EffectiveGeneration(requests[d])] == requests[d])
    && (forall g :: g in byGeneration ==>
      && EffectiveGeneration(byGeneration[g]) == g && MatchesContext(byGeneration[g], context)
      && byGeneration[g].fingerprint in scanned && requests[byGeneration[g].fingerprint] == byGeneration[g])
  }

  /** A chain leaves one request per generation. */
  lemma ChainUnambiguous(requests: Requests, context: Context, chain: seq<InputRequest>, d: Digest, e: Digest)
    requires ChainFor(requests, context, chain)
    requires d in requests && MatchesContext(requests[d], context) && e in requests
    requires MatchesContext(requests[e], context)
    requires EffectiveGeneration(requests[d]) == EffectiveGeneration(requests[e])
    ensures requests[d] == requests[e]
  {
    var i :| 0 <= i < |chain| && chain[i] == requests[d];
    var j :| 0 <= j < |chain| && chain[j] == requests[e];
  }

  lemma Interval(n: nat, s: set<nat>)
    requires |s| == n && forall g: nat :: 1 <= g <= n ==> g in s
    ensures forall g :: g in s ==> 1 <= g <= n
    decreases n
  {
    if n > 0 {
      Interval(n - 1, s - {n});
      forall g | g in s ensures 1 <= g <= n { if g != n { assert g in s - {n}; } }
    }
  }

  class Store {
    var requests: Requests
    var receipts: Receipts

    ghost predicate Named()
      reads this
    {
      NamedByFingerprint(requests)
    }

    constructor ()
      ensures requests == map[] && receipts == map[]
    {
      requests, receipts := map[], map[];
    }

    /** Writing the same record twice is fine, a different one is refused. */
    method SaveRequest(r: InputRequest) returns (ok: bool)
      modifies this`requests
      ensures ok <==> r.fingerprint !in old(requests) || old(requests)[r.fingerprint] == r
      ensures requests == if ok then old(requests)[r.fingerprint := r] else old(requests)
    {
      if r.fingerprint in requests {
        if requests[r.fingerprint] == r {
          assert requests == requests[r.fingerprint := r];
          return true;
        }
        return false;
      }
      requests := requests[r.fingerprint := r];
      return true;
    }

    method SaveReceipt(r: InputReceipt) returns (ok: bool)
      modifies this`receipts
      ensures var key := (r.body.parameter, r.body.request);
        && (ok <==> key !in old(receipts) || old(receipts)[key] == r)
        && receipts == if ok then old(receipts)[key := r] else old(receipts)
    {
      var key := (r.body.parameter, r.body.request);
      if key in receipts {
        if receipts[key] == r {
          assert receipts == receipts[key := r];
          return true;
        }
        return false;
      }
      receipts := receipts[key := r];
      return true;
    }

    method GatherGenerations(context: Context) returns (ok: bool, byGeneration: map<nat, InputRequest>)
      requires Named()
      ensures ok ==> Gathered(requests, context, requests.Keys, byGeneration)
      ensures !ok ==> forall chain :: !ChainFor(requests, context, chain)
    {
      byGeneration := map[];
      var remaining := requests.Keys;
      ghost var scanned: set<Digest> := {};
      while remaining != {}
        invariant remaining + scanned == requests.Keys && remaining !! scanned
        invariant Gathered(requests, context, scanned, byGeneration)
        decreases remaining
      {
        var d :| d in remaining;
        var r := requests[d];
        if !ValidRequest(r) { return false, byGeneration; }
        if MatchesContext(r, context) {
          var g := EffectiveGeneration(r);
          if g in byGeneration && byGeneration[g].fingerprint != r.fingerprint {
            forall chain | ChainFor(requests, context, chain) ensures false {
              ChainUnambiguous(requests, context, chain, d, byGeneration[g].fingerprint);
            }
            return false, byGeneration;
          }
          byGeneration := byGeneration[g := r];
        }
        remaining, scanned := remaining - {d}, scanned + {d};
      }
      assert scanned == requests.Keys;
      return true, byGeneration;
    }

    /** Walks the generations from the first and checks every link. It answers
        with the newest request exactly when the stored requests of the context
        form one chain. */
    method LatestRequest(context: Context) returns (r: Latest)
      requires Named()
      ensures r.Latest? ==>
        exists chain :: ChainFor(requests, context, chain) && |chain| > 0 && chain[|chain| - 1] == r.request
      ensures r.NoRequest? ==> ChainFor(requests, context, [])
      ensures r.Corrupt? ==> forall chain :: !ChainFor(requests, context, chain)
    {
      var ok, byGeneration := GatherGenerations(context);
      if !ok { return Corrupt; }
      if |byGeneration| == 0 {
        assert byGeneration == map[];
        return NoRequest;
      }
      var latest, chain := WalkGenerations(byGeneration);
      if latest.None? {
        BrokenWalk(requests, context, byGeneration);
        return Corrupt;
      }
      CompleteChain(requests, context, byGeneration, chain);
      return Latest(latest.value);
    }

    /** Records one answer, or checks that the recorded one is the same. */
    method RecordAnswer(request: InputRequest, p: string, contract: OperatorParameter, producer: Producer,
                        actor: string, host: string,
                        prior: Receipts, answers: map<string, string>, ghost done: set<string>) returns (ok: bool)
      requires done <= answers.Keys && p in answers && p !in done
      requires Recorded(prior, receipts, request, answers, done)
      modifies this`receipts
      ensures !ok ==> receipts == old(receipts)
      ensures ok ==> Recorded(prior, receipts, request, answers, done + {p})
    {
      var key := (p, request.fingerprint);
      if key in prior { return prior[key].body.value == answers[p]; }
      assert key !in receipts;
      ok := SaveReceipt(SealedAnswer(request, p, contract, producer, answers[p], actor, host));
    }

    /** Saves one sealed answer per requested parameter. It may fail part way;
        what it has saved by then stays. */
    method RecordAnswers(request: InputRequest, contracts: map<string, OperatorParameter>,
                         producers: map<string, Producer>,
                         answers: map<string, string>, decodable: set<string>, actor: string,
                         host: string) returns (ok: bool)
      modifies this`receipts
      ensures PartlyRecorded(old(receipts), receipts, request, answers)
      ensures ok ==> answers.Keys == (set q | q in request.body.parameters :: q.id)
      ensures ok ==> Recorded(old(receipts), receipts, request, answers, answers.Keys)
    {
      var requested := set q | q in request.body.parameters :: q.id;
      RecordedPartly(receipts, receipts, request, answers, {});
      if |answers| != |requested| { return false; }
      var prior := receipts;
      var remaining := answers.Keys;
      ghost var done: set<string> := {};
      while remaining != {}
        invariant done + remaining == answers.Keys && done !! remaining && done <= requested
        invariant Recorded(prior, receipts, request, answers, done)
        decreases remaining
      {
        RecordedPartly(prior, receipts, request, answers, done);
        var p :| p in remaining;
        if p !in requested || p !in contracts || p !in producers || producers[p].kind != HostInputSource ||
          producers[p].request.None? {
          return false;
        }
        if exists q :: q in request.body.parameters && q.id == p && q.secret { return false; }
        if !ValidValue(contracts[p].valueType, answers[p], "", contracts[p].secret, decodable) { return false; }
        ok := RecordAnswer(request, p, contracts[p], producers[p], actor, host, prior, answers, done);
        if !ok { return; }
        MoveOne(done, remaining, p);
        remaining, done := remaining - {p}, done + {p};
      }
      assert done == answers.Keys;
      RecordedPartly(prior, receipts, request, answers, answers.Keys);
      SameSizeSubset(answers.Keys, requested);
      return true;
    }
  }

  lemma MoveOne<T>(done: set<T>, remaining: set<T>, p: T)
    requires p in remaining && done !! remaining
    ensures (done + {p}) + (remaining - {p}) == done + remaining && (done + {p}) !! (remaining - {p})
  {
  }

  lemma SameSizeSubset<T>(a: set<T>, b: set<T>)
    requires a <= b && |a| == |b|
    ensures a == b
  {
    if x :| x in b && x !in a {
      assert a <= b - {x};
      SubsetSize(a, b - {x});
    }
  }

  lemma SubsetSize<T>(a: set<T>, b: set<T>)
    requires a <= b
    ensures |a| <= |b|
  {
    assert b == a + (b - a);
  }

  /** Exactly the answers in `done` are recorded, and nothing older changed. */
  ghost predicate Recorded(before: Receipts, after: Receipts, request: InputRequest, answers: map<string, string>,
                           done: set<string>)
    requires done <= answers.Keys
  {
    && (forall key :: key in before ==> key in after && after[key] == before[key])
    && (forall key :: key in after && key !in before ==>
      key.0 in done && key.1 == request.fingerprint && AnswerTo(after[key], request, key.0, answers[key.0]))
    && (forall p :: p in done ==>
         (p, request.fingerprint) in after && after[(p, request.fingerprint)].body.value == answers[p])
  }

  /** Some of the answers, and nothing else. */
  ghost predicate PartlyRecorded(before: Receipts, after: Receipts, request: InputRequest,
                                 answers: map<string, string>)
  {
    exists done :: done <= answers.Keys && Recorded(before, after, request, answers, done)
  }

  lemma RecordedPartly(before: Receipts, after: Receipts, request: InputRequest, answers: map<string, string>,
                       done: set<string>)
    requires done <= answers.Keys && Recorded(before, after, request, answers, done)
    ensures PartlyRecorded(before, after, request, answers)
  {
  }

  function SealedAnswer(request: InputRequest, parameter: string, contract: OperatorParameter, producer: Producer,
                        value: string, actor: string, host: string): InputReceipt {
    var body := ReceiptBody(request.body.identity, parameter, contract.valueType, value, "", (value, ""), producer,
      request.fingerprint, actor, host, ["human:" + actor], 0, "transition");
    InputReceipt(body, ReceiptDigest(body))
  }

  /** A receipt that binds this value to this parameter of this request. */
  predicate AnswerTo(r: InputReceipt, request: InputRequest, parameter: string, value: string) {
    && r.fingerprint == ReceiptDigest(r.body) && r.body.request == request.fingerprint && r.body.parameter == parameter
    && r.body.identity == request.body.identity && r.body.value == value
  }

  /** Position k of a chain is generation k + 1 of the map. */
  ghost predicate At(byGeneration: map<nat, InputRequest>, k: int, r: InputRequest) {
    0 <= k && k + 1 in byGeneration && byGeneration[k + 1] == r
  }

  ghost predicate InOrder(chain: seq<InputRequest>, byGeneration: map<nat, InputRequest>) {
    forall k :: 0 <= k < |chain| ==> At(byGeneration, k, chain[k])
  }

  function Numbers(n: nat): (r: set<nat>)
    ensures |r| == n && forall g :: g in r <==> 1 <= g <= n
  {
    if n == 0 then {} else Numbers(n - 1) + {n}
  }

  /** With a chain behind it, the gathered map is that chain. */
  lemma GenerationsOfChain(requests: Requests, context: Context, byGeneration: map<nat, InputRequest>,
                           chain: seq<InputRequest>)
    requires NamedByFingerprint(requests) && Gathered(requests, context, requests.Keys, byGeneration)
    requires ChainFor(requests, context, chain)
    ensures |byGeneration| == |chain| && byGeneration.Keys == Numbers(|chain|)
    ensures InOrder(chain, byGeneration)
  {
    ChainInOrder(requests, context, byGeneration, chain);
    forall g | g in byGeneration ensures 1 <= g <= |chain| {
      GatheredInChain(requests, context, byGeneration, chain, g);
    }
    OrderedHasAll(byGeneration, chain);
  }

  lemma OrderedHasAll(byGeneration: map<nat, InputRequest>, chain: seq<InputRequest>)
    requires InOrder(chain, byGeneration) && forall g :: g in byGeneration ==> 1 <= g <= |chain|
    ensures byGeneration.Keys == Numbers(|chain|) && |byGeneration| == |chain|
  {
    forall g | g in Numbers(|chain|) ensures g in byGeneration {
      assert At(byGeneration, g - 1, chain[g - 1]);
    }
    assert byGeneration.Keys == Numbers(|chain|);
    assert |byGeneration| == |byGeneration.Keys|;
  }

  lemma ChainInOrder(requests: Requests, context: Context, byGeneration: map<nat, InputRequest>,
                     chain: seq<InputRequest>)
    requires NamedByFingerprint(requests) && Gathered(requests, context, requests.Keys, byGeneration)
    requires ChainFor(requests, context, chain)
    ensures InOrder(chain, byGeneration)
  {
    forall k | 0 <= k < |chain| ensures At(byGeneration, k, chain[k]) {
      assert chain[k] in chain;
    }
  }

  lemma GatheredInChain(requests: Requests, context: Context, byGeneration: map<nat, InputRequest>,
                        chain: seq<InputRequest>, g: nat)
    requires Gathered(requests, context, requests.Keys, byGeneration) && ChainFor(requests, context, chain)
    requires g in byGeneration
    ensures 1 <= g <= |chain|
  {
    assert byGeneration[g] in chain;
    var k :| 0 <= k < |chain| && chain[k] == byGeneration[g];
  }

  /** A generation is absent, or does not supersede the one before it. */
  ghost predicate BrokenAt(byGeneration: map<nat, InputRequest>, g: nat) {
    && 1 <= g <= |byGeneration|
    && (g !in byGeneration || (g >= 2 && g - 1 in byGeneration && !Supersedes(byGeneration[g], byGeneration[g - 1])))
  }

  /** Follows the generations from the first; nothing when the walk breaks. */
  method WalkGenerations(byGeneration: map<nat, InputRequest>)
    returns (latest: Option<InputRequest>, ghost chain: seq<InputRequest>)
    requires |byGeneration| > 0 && forall g :: g in byGeneration ==> EffectiveGeneration(byGeneration[g]) == g
    ensures latest.None? ==> exists g: nat :: BrokenAt(byGeneration, g)
    ensures latest.Some? ==>
      |chain| == |byGeneration| && Chain(chain) && InOrder(chain, byGeneration) && latest.value == chain[|chain| - 1]
  {
    chain, latest := [], None;
    var generation: nat := 1;
    while generation <= |byGeneration|
      invariant 1 <= generation <= |byGeneration| + 1
      invariant |chain| == generation - 1 && Chain(chain)
      invariant InOrder(chain, byGeneration)
      invariant latest == if |chain| == 0 then None else Some(chain[|chain| - 1])
    {
      if generation !in byGeneration {
        assert BrokenAt(byGeneration, generation);
        return None, chain;
      }
      var request := byGeneration[generation];
      if generation > 1 && !Supersedes(request, latest.value) {
        assert At(byGeneration, generation - 2, chain[generation - 2]);
        assert BrokenAt(byGeneration, generation);
        return None, chain;
      }
      chain := chain + [request];
      latest := Some(request);
      generation := generation + 1;
    }
  }

  lemma BrokenWalk(requests: Requests, context: Context, byGeneration: map<nat, InputRequest>)
    requires NamedByFingerprint(requests) && Gathered(requests, context, requests.Keys, byGeneration)
    requires exists g: nat :: BrokenAt(byGeneration, g)
    ensures forall chain :: !ChainFor(requests, context, chain)
  {
    var g: nat :| BrokenAt(byGeneration, g);
    if g !in byGeneration {
      MissingGeneration(requests, context, byGeneration, g);
    } else {
      BrokenLink(requests, context, byGeneration, g);
    }
  }

  lemma MissingGeneration(requests: Requests, context: Context, byGeneration: map<nat, InputRequest>, g: nat)
    requires NamedByFingerprint(requests) && Gathered(requests, context, requests.Keys, byGeneration)
    requires 1 <= g <= |byGeneration| && g !in byGeneration
    ensures forall chain :: !ChainFor(requests, context, chain)
  {
    forall c | ChainFor(requests, context, c) ensures false { GenerationsOfChain(requests, context, byGeneration, c); }
  }

  lemma LinkOfChain(requests: Requests, context: Context, byGeneration: map<nat, InputRequest>,
                    chain: seq<InputRequest>, g: nat)
    requires NamedByFingerprint(requests) && Gathered(requests, context, requests.Keys, byGeneration)
    requires ChainFor(requests, context, chain) && g >= 2 && g in byGeneration && g - 1 in byGeneration
    ensures Supersedes(byGeneration[g], byGeneration[g - 1])
  {
    GenerationsOfChain(requests, context, byGeneration, chain);
    assert g in Numbers(|chain|);
    assert At(byGeneration, g - 1, chain[g - 1]);
    assert At(byGeneration, g - 2, chain[g - 2]);
  }

  lemma BrokenLink(requests: Requests, context: Context, byGeneration: map<nat, InputRequest>, g: nat)
    requires NamedByFingerprint(requests) && Gathered(requests, context, requests.Keys, byGeneration)
    requires g >= 2 && g in byGeneration && g - 1 in byGeneration && !Supersedes(byGeneration[g], byGeneration[g - 1])
    ensures forall chain :: !ChainFor(requests, context, chain)
  {
    forall c | ChainFor(requests, context, c) ensures false { LinkOfChain(requests, context, byGeneration, c, g); }
  }

  /** n distinct generations that include 1 to n are 1 to n. */
  lemma CompleteChain(requests: Requests, context: Context, byGeneration: map<nat, InputRequest>,
                      chain: seq<InputRequest>)
    requires NamedByFingerprint(requests) && Gathered(requests, context, requests.Keys, byGeneration)
    requires Chain(chain) && |chain| == |byGeneration| && InOrder(chain, byGeneration)
    ensures ChainFor(requests, context, chain)
  {
    forall g: nat | 1 <= g <= |byGeneration| ensures g in byGeneration.Keys {
      assert At(byGeneration, g - 1, chain[g - 1]);
    }
    Interval(|byGeneration|, byGeneration.Keys);
    forall d | d in requests && MatchesContext(requests[d], context) ensures requests[d] in chain {
      var g := EffectiveGeneration(requests[d]);
      assert g in byGeneration.Keys;
      assert At(byGeneration, g - 1, chain[g - 1]);
    }
    forall r | r in chain
      ensures r.fingerprint in requests && requests[r.fingerprint] == r && MatchesContext(r, context) {
      var k :| 0 <= k < |chain| && chain[k] == r;
      assert At(byGeneration, k, chain[k]);
    }
  }
}
