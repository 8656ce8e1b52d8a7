/** Materialization of the parameters of one transition: each bound parameter is
    read from its source, host input is requested once and answered by receipts
    bound to that exact request. Content hashes are modelled by the hashed
    record itself, so equal digests mean equal content. */
module Invocation {
  import opened Base
  import opened Ordering
  import opened ControlProgram

  /** The exact run, program, state and authority an invocation belongs to. */
  datatype Identity = Identity(
    run: string, program: string, executionProgram: string, entry: string, target: string, transition: string,
    stateRevision: nat, context: string, controlBundle: string, authorityContext: string, executionScope: string)

  predicate Sha(s: string) { |s| == 64 }

  datatype RequestedParameter = RequestedParameter(
    id: string, valueType: ValueType, description: string, secret: bool, authority: Authority)

  datatype Supersession = Supersession(previous: Digest, reason: string, actor: string, host: string, createdAt: int)

  datatype RequestBody = RequestBody(
    identity: Identity, generation: nat, supersession: Option<Supersession>, parameters: seq<RequestedParameter>)

  /** A request names itself by a hash of its body before it is fingerprinted. */
  datatype RequestId = RequestId(of: RequestBody) | OtherId(text: string)

  datatype InputRequest = InputRequest(id: RequestId, body: RequestBody, fingerprint: Digest)

  datatype ReceiptBody = ReceiptBody(
    identity: Identity, parameter: string, valueType: ValueType, value: string, secret: string,
    hashedValue: (string, string), producer: Producer, request: Digest, actor: string, host: string,
    authorityReceipts: seq<string>, expiresAt: int, scope: string)

  datatype InputReceipt = InputReceipt(body: ReceiptBody, fingerprint: Digest)

  datatype Digest =
    | RequestDigest(id: RequestId, body: RequestBody)
    | ReceiptDigest(receipt: ReceiptBody)
    | Unverified(text: string)

  datatype Provenance = OfProducer(producer: Producer) | Given(text: string)

  datatype Value = Value(valueType: ValueType, canonical: string, secret: string, provenance: Option<Provenance>,
    authorityReceipts: seq<string>)

  /** Everything a materialization may read. `decodable` is the set of texts
      that parse as JSON. */
  datatype Context = Context(
    identity: Identity, generation: nat, supersession: Option<Supersession>,
    entryInputs: map<string, Value>, state: map<string, Value>,
    receipts: map<(string, string), Value>, workOutputs: map<(string, string), Value>,
    resolver: map<ResolverBinding, Value>,
    inputReceipts: map<(string, Digest), InputReceipt>, decodable: set<string>)

  datatype ResolvedParameter = ResolvedParameter(
    name: string, valueType: ValueType, value: string, secret: string, kind: SourceKind,
    provenance: Provenance, authorityReceipts: seq<string>)

  datatype Evidence = Evidence(identity: Identity, parameters: seq<ResolvedParameter>)

  datatype Outcome =
    | Rejected
    | Ready(evidence: Evidence)
    | Requested(request: InputRequest)
    | Blocked(code: string)

  // ----- Values and authority -----

  predicate Blank(s: string) { forall c :: c in s ==> c == ' ' || c == '\t' || c == '\n' || c == '\r' }

  function Trim(s: string): string {
    if s == [] then []
    else if Blank([s[0]]) then Trim(s[1..])
    else if Blank([s[|s| - 1]]) then Trim(s[..|s| - 1])
    else s
  }

  lemma {:induction false} TrimEmpty(s: string)
    ensures Trim(s) == "" <==> Blank(s)
    decreases |s|
  {
    if s != [] {
      if Blank([s[0]]) {
        TrimEmpty(s[1..]);
        assert s == [s[0]] + s[1..];
        assert s[0] in [s[0]];
        assert forall c :: c in s <==> c == s[0] || c in s[1..];
      } else {
        assert !Blank(s) by { assert s[0] in s && s[0] in [s[0]]; }
        if Blank([s[|s| - 1]]) {
          TrimEmpty(s[..|s| - 1]);
          assert s[0] in s[..|s| - 1] by { assert |s| > 1; assert s[..|s| - 1][0] == s[0]; }
        }
      }
    }
  }

  function ParseDigits(s: string): Option<nat> {
    if s == [] || !('0' <= s[|s| - 1] <= '9') then None
    else
      var last := s[|s| - 1] as int - '0' as int;
      if |s| == 1 then Some(last)
      else match ParseDigits(s[..|s| - 1])
        case Some(n) => Some(10 * n + last)
        case None => None
  }

  /** Base-ten signed 64-bit integers. */
  function ParseInt(s: string): Option<int> {
    var digits := ParseDigits(if s != [] && (s[0] == '-' || s[0] == '+') then s[1..] else s);
    if digits.None? then None
    else
      var d: int := digits.value;
      var n := if s[0] == '-' then -d else d;
      if -0x8000_0000_0000_0000 <= n < 0x8000_0000_0000_0000 then Some(n) else None
  }

  predicate ValidValue(t: ValueType, value: string, secretReference: string, secret: bool, decodable: set<string>) {
    if secret then value == "" && secretReference != ""
    else if secretReference != "" || value == "" then false
    else if t.kind == "string" then true
    else if t.kind == "boolean" then value == "true" || value == "false"
    else if t.kind == "integer" then
      var n := ParseInt(value);
      n.Some? && (t.minimum.Some? ==> t.minimum.value <= n.value) && (t.maximum.Some? ==> n.value <= t.maximum.value)
    else t.kind == "json" && value in decodable
  }

  /** The class of an authority receipt is what precedes its first colon. */
  function AuthorityClass(receipt: string): Option<string> {
    if receipt == [] then None
    else if receipt[0] == ':' then Some([])
    else match AuthorityClass(receipt[1..])
      case Some(rest) => Some([receipt[0]] + rest)
      case None => None
  }

  predicate Provides(receipts: seq<string>, authority: string) {
    authority != "" && exists r :: r in receipts && AuthorityClass(r) == Some(authority)
  }

  predicate ReceiptsSatisfy(receipts: seq<string>, required: Authority) {
    && (required.anyOf == [] || exists a :: a in required.anyOf && Provides(receipts, a))
    && (forall a :: a in required.allOf ==> Provides(receipts, a))
  }

  // ----- Requests -----

  predicate HostBound(contract: OperatorParameter, producers: map<string, Producer>) {
    && contract.id in producers && producers[contract.id].kind == HostInputSource
    && producers[contract.id].request.Some?
  }

  function RequestedFor(contract: OperatorParameter, producer: Producer): RequestedParameter
    requires producer.request.Some?
  {
    RequestedParameter(contract.id, contract.valueType, producer.request.value.description, contract.secret,
      Authority(producer.request.value.authorities, []))
  }

  function HostParameters(contracts: seq<OperatorParameter>, producers: map<string, Producer>): seq<RequestedParameter>
  {
    if contracts == [] then []
    else
      var last := contracts[|contracts| - 1];
      HostParameters(contracts[..|contracts| - 1], producers)
        + if HostBound(last, producers) then [RequestedFor(last, producers[last.id])] else []
  }

  lemma {:induction false} HostParametersNamed(contracts: seq<OperatorParameter>, producers: map<string, Producer>,
                                               c: OperatorParameter)
    requires c in contracts && HostBound(c, producers)
    ensures exists q :: q in HostParameters(contracts, producers) && q.id == c.id
  {
    var n := |contracts| - 1;
    assert contracts == contracts[..n] + [contracts[n]];
    var all := HostParameters(contracts, producers);
    if contracts[n] == c {
      assert all[|all| - 1].id == c.id;
    } else {
      HostParametersNamed(contracts[..n], producers, c);
      var q :| q in HostParameters(contracts[..n], producers) && q.id == c.id;
      assert q in all;
    }
  }

  predicate ById(a: RequestedParameter, b: RequestedParameter) { StringLess(a.id, b.id) }

  /** The one request a context, a generation and a lineage determine. */
  function BuildRequest(parameters: seq<RequestedParameter>, identity: Identity, generation: nat,
                        supersession: Option<Supersession>): InputRequest {
    var body := RequestBody(identity, generation, supersession, parameters);
    InputRequest(RequestId(body), body, RequestDigest(RequestId(body), body))
  }

  function HostRequestFor(contracts: seq<OperatorParameter>, producers: map<string, Producer>,
                          context: Context): Option<InputRequest>
  {
    var parameters := HostParameters(contracts, producers);
    if parameters == [] then None
    else Some(BuildRequest(Sort(ById, parameters), context.identity, context.generation, context.supersession))
  }

  method CollectHostParameters(contracts: seq<OperatorParameter>, producers: map<string, Producer>)
    returns (requested: seq<RequestedParameter>)
    ensures requested == HostParameters(contracts, producers)
  {
    requested := [];
    var i := 0;
    while i < |contracts|
      invariant 0 <= i <= |contracts|
      invariant requested == HostParameters(contracts[..i], producers)
    {
      assert contracts[..i + 1][..i] == contracts[..i];
      if HostBound(contracts[i], producers) {
        requested := requested + [RequestedFor(contracts[i], producers[contracts[i].id])];
      }
      i := i + 1;
    }
    assert contracts[..i] == contracts;
  }

  method InputRequestForHostBindings(contracts: seq<OperatorParameter>, producers: map<string, Producer>,
                                     context: Context)
    returns (r: Option<InputRequest>)
    ensures r == HostRequestFor(contracts, producers, context)
  {
    var requested := CollectHostParameters(contracts, producers);
    if requested == [] { return None; }
    return Some(BuildRequest(Sort(ById, requested), context.identity, context.generation, context.supersession));
  }

  function EffectiveGeneration(r: InputRequest): nat {
    if r.body.generation == 0 then 1 else r.body.generation
  }

  predicate ValidLineage(s: Supersession) {
    !s.previous.Unverified? && !Blank(s.reason) && !Blank(s.actor) && !Blank(s.host) && s.createdAt != 0
  }

  predicate ValidIdentity(i: Identity) {
    && i.run != "" && Sha(i.program) && Sha(i.executionProgram) && i.entry != "" && i.target != ""
    && i.transition != "" && Sha(i.context) && Sha(i.executionScope)
  }

  predicate ValidRequest(r: InputRequest) {
    && r.id != OtherId("") && ValidIdentity(r.body.identity)
    && Sha(r.body.identity.controlBundle) && Sha(r.body.identity.authorityContext)
    && r.body.parameters != []
    && (EffectiveGeneration(r) == 1 ==> r.body.supersession.None?)
    && (EffectiveGeneration(r) > 1 ==> r.body.supersession.Some? && ValidLineage(r.body.supersession.value))
    && r.fingerprint == RequestDigest(r.id, r.body)
  }

  // ----- Receipts -----

  /** A receipt counts only for the exact request, parameter and context it was
      given for. */
  predicate ReceiptCurrent(r: InputReceipt, context: Context, contract: OperatorParameter, producer: Producer,
                           request: Digest, now: int) {
    && r.body.scope == "transition" && producer.request.Some?
    && Sha(r.body.identity.executionProgram) && Sha(r.body.identity.controlBundle)
    && Sha(r.body.identity.authorityContext) && Sha(r.body.identity.executionScope)
    && r.fingerprint == ReceiptDigest(r.body)
    && r.body.identity == context.identity && r.body.parameter == contract.id && r.body.request == request
    && (r.body.expiresAt == 0 || now < r.body.expiresAt)
    && r.body.valueType == contract.valueType && r.body.hashedValue == (r.body.value, r.body.secret)
    && r.body.producer == producer
    && !Blank(r.body.actor) && !Blank(r.body.host)
    && ReceiptsSatisfy(r.body.authorityReceipts, contract.authority)
    && ReceiptsSatisfy(r.body.authorityReceipts, Authority(producer.request.value.authorities, []))
    && ValidValue(contract.valueType, r.body.value, r.body.secret, contract.secret, context.decodable)
  }

  // ----- Materialization -----

  datatype Reading = Available(value: Value) | Missing | Failure

  function Lookup<K>(m: map<K, Value>, key: K): Reading {
    if key in m then Available(m[key]) else Missing
  }

  function MaterializeOne(contract: OperatorParameter, producer: Producer, context: Context, request: Digest,
                          now: int): Reading {
    match producer.kind
    case EntryInputSource => Lookup(context.entryInputs, producer.input)
    case StateSource => Lookup(context.state, producer.facet)
    case ReceiptSource => Lookup(context.receipts, (producer.transition, producer.field))
    case StateOrReceiptSource =>
      if producer.facet in context.state then Available(context.state[producer.facet])
      else Lookup(context.receipts, (producer.transition, producer.field))
    case WorkOutputSource => Lookup(context.workOutputs, (producer.work, producer.output))
    case ResolverSource =>
      if producer.binding.Some? && producer.binding.value in context.resolver
      then Available(context.resolver[producer.binding.value]) else Failure
    case HostInputSource =>
      if (contract.id, request) !in context.inputReceipts then Missing
      else
        var r := context.inputReceipts[(contract.id, request)];
        if !ReceiptCurrent(r, context, contract, producer, request, now) then Failure
        else Available(Value(r.body.valueType, r.body.value, r.body.secret, Some(OfProducer(r.body.producer)),
          r.body.authorityReceipts))
    case UnknownSource(_) => Failure
  }

  datatype Attempt = Skipped | Unbound | Stopped(code: string) | Wanted | Resolved(parameter: ResolvedParameter)

  /** What one parameter contract comes to. */
  function Attempted(contract: OperatorParameter, producers: map<string, Producer>, context: Context,
                     request: Digest, now: int): Attempt {
    if contract.id !in producers then (if contract.required then Unbound else Skipped)
    else
      var producer := producers[contract.id];
      match MaterializeOne(contract, producer, context, request, now)
      case Failure => Stopped("TRANSITION_INPUT_BLOCKED")
      case Missing => if HostBound(contract, producers) then Wanted else Stopped("TRANSITION_INPUT_UNAVAILABLE")
      case Available(v) =>
        if !ValidValue(contract.valueType, v.canonical, v.secret, contract.secret, context.decodable)
          then Stopped("TRANSITION_INPUT_INVALID")
        else Resolved(ResolvedParameter(contract.id, contract.valueType,
          if contract.secret then "" else v.canonical, if contract.secret then v.secret else "",
          producer.kind, if v.provenance.Some? then v.provenance.value else OfProducer(producer), v.authorityReceipts))
  }

  predicate Stops(a: Attempt) { a.Unbound? || a.Stopped? }

  function Attempts(contracts: seq<OperatorParameter>, producers: map<string, Producer>, context: Context,
                    request: Digest, now: int): (r: seq<Attempt>)
    ensures |r| == |contracts|
  {
    MapSeq(c => Attempted(c, producers, context, request, now), contracts)
  }

  lemma AttemptAt(contracts: seq<OperatorParameter>, producers: map<string, Producer>, context: Context,
                  request: Digest, now: int, i: nat)
    requires i < |contracts|
    ensures Attempts(contracts, producers, context, request, now)[i]
      == Attempted(contracts[i], producers, context, request, now)
  {
  }

  function ResolvedOf(attempts: seq<Attempt>): seq<ResolvedParameter> {
    if attempts == [] then []
    else
      var last := attempts[|attempts| - 1];
      ResolvedOf(attempts[..|attempts| - 1]) + (if last.Resolved? then [last.parameter] else [])
  }

  lemma {:induction false} ResolvedOfElements(attempts: seq<Attempt>, p: ResolvedParameter)
    ensures p in ResolvedOf(attempts) <==> Resolved(p) in attempts
  {
    if attempts != [] {
      var n := |attempts| - 1;
      assert attempts == attempts[..n] + [attempts[n]];
      ResolvedOfElements(attempts[..n], p);
    }
  }

  predicate ByName(a: ResolvedParameter, b: ResolvedParameter) { StringLess(a.name, b.name) }

  function FirstStop(attempts: seq<Attempt>): (r: Option<Attempt>)
    ensures r.None? <==> forall a :: a in attempts ==> !Stops(a)
    ensures r.Some? ==> Stops(r.value)
  {
    if attempts == [] then None
    else if Stops(attempts[0]) then Some(attempts[0])
    else FirstStop(attempts[1..])
  }

  function ProducerMap(bindings: seq<ParameterBinding>): (r: map<string, Producer>)
    ensures forall b :: b in bindings ==> b.parameter in r
    ensures forall n :: n in r ==> ParameterBinding(n, r[n]) in bindings
  {
    if bindings == [] then map[]
    else
      var n := |bindings| - 1;
      assert bindings == bindings[..n] + [bindings[n]];
      ProducerMap(bindings[..n])[bindings[n].parameter := bindings[n].producer]
  }

  function RequestDigestOf(request: Option<InputRequest>): Digest {
    if request.Some? then request.value.fingerprint else Unverified("")
  }

  /** The first contract that cannot be read decides; otherwise one missing
      answer suspends the transition; otherwise the evidence is complete. */
  function Materialized(contracts: seq<OperatorParameter>, producers: map<string, Producer>, context: Context,
                        now: int): Outcome {
    var request := HostRequestFor(contracts, producers, context);
    if !ValidIdentity(context.identity) then Rejected
    else if request.Some? && !(Sha(context.identity.controlBundle) && Sha(context.identity.authorityContext))
      then Rejected
    else
      var attempts := Attempts(contracts, producers, context, RequestDigestOf(request), now);
      match FirstStop(attempts)
      case Some(a) => if a.Stopped? then Blocked(a.code) else Rejected
      case None =>
        if Wanted in attempts && request.Some? then Requested(request.value)
        else Ready(Evidence(context.identity, Sort(ByName, ResolvedOf(attempts))))
  }

  lemma WantedHasRequest(contracts: seq<OperatorParameter>, producers: map<string, Producer>, context: Context,
                         request: Digest, now: int)
    requires Wanted in Attempts(contracts, producers, context, request, now)
    ensures HostRequestFor(contracts, producers, context).Some?
  {
    var attempts := Attempts(contracts, producers, context, request, now);
    var i :| 0 <= i < |attempts| && attempts[i] == Wanted;
    AttemptAt(contracts, producers, context, request, now, i);
    assert HostBound(contracts[i], producers);
    HostParametersNamed(contracts, producers, contracts[i]);
  }

  lemma StopAppears(attempts: seq<Attempt>, i: nat)
    requires i < |attempts| && Stops(attempts[i])
    requires forall k :: 0 <= k < i ==> !Stops(attempts[k])
    ensures FirstStop(attempts) == Some(attempts[i])
    decreases |attempts|
  {
    if i > 0 { StopAppears(attempts[1..], i - 1); }
  }

  /** Reads the contracts in order and stops at the first that cannot be read. */
  method ReadParameters(contracts: seq<OperatorParameter>, producers: map<string, Producer>, context: Context,
                        request: Digest, now: int)
    returns (stop: Option<Attempt>, parameters: seq<ResolvedParameter>, requested: bool)
    ensures var attempts := Attempts(contracts, producers, context, request, now);
      && stop == FirstStop(attempts)
      && (stop.None? ==> parameters == ResolvedOf(attempts) && requested == (Wanted in attempts))
  {
    ghost var attempts := Attempts(contracts, producers, context, request, now);
    parameters, requested := [], false;
    var i := 0;
    while i < |contracts|
      invariant 0 <= i <= |contracts|
      invariant forall k :: 0 <= k < i ==> !Stops(attempts[k])
      invariant parameters == ResolvedOf(attempts[..i])
      invariant requested <==> Wanted in attempts[..i]
    {
      var a := Attempted(contracts[i], producers, context, request, now);
      AttemptAt(contracts, producers, context, request, now, i);
      AttemptStep(attempts, i);
      if Stops(a) {
        StopAppears(attempts, i);
        return Some(a), parameters, requested;
      }
      if a.Wanted? { requested := true; }
      if a.Resolved? { parameters := parameters + [a.parameter]; }
      i := i + 1;
    }
    assert attempts[..i] == attempts;
    return None, parameters, requested;
  }

  lemma AttemptStep(attempts: seq<Attempt>, i: nat)
    requires i < |attempts|
    ensures ResolvedOf(attempts[..i + 1])
      == ResolvedOf(attempts[..i]) + (if attempts[i].Resolved? then [attempts[i].parameter] else [])
    ensures Wanted in attempts[..i + 1] <==> Wanted in attempts[..i] || attempts[i].Wanted?
  {
    assert attempts[..i + 1][..i] == attempts[..i];
    assert attempts[..i + 1] == attempts[..i] + [attempts[i]];
  }

  method Materialize(contracts: seq<OperatorParameter>, bindings: seq<ParameterBinding>, context: Context, now: int)
    returns (r: Outcome)
    ensures r == Materialized(contracts, ProducerMap(bindings), context, now)
  {
    if !ValidIdentity(context.identity) { return Rejected; }
    var producers := ProducerMap(bindings);
    var hostRequest := InputRequestForHostBindings(contracts, producers, context);
    if hostRequest.Some? && !(Sha(context.identity.controlBundle) && Sha(context.identity.authorityContext)) {
      return Rejected;
    }
    var stop, parameters, requested := ReadParameters(contracts, producers, context, RequestDigestOf(hostRequest), now);
    if stop.Some? { return if stop.value.Stopped? then Blocked(stop.value.code) else Rejected; }
    if requested {
      WantedHasRequest(contracts, producers, context, RequestDigestOf(hostRequest), now);
      return Requested(hostRequest.value);
    }
    return Ready(Evidence(context.identity, Sort(ByName, parameters)));
  }

  lemma RequestedIsHostRequest(contracts: seq<OperatorParameter>, producers: map<string, Producer>,
                               context: Context, now: int)
    requires Materialized(contracts, producers, context, now).Requested?
    ensures HostParameters(contracts, producers) != []
    ensures HostRequestFor(contracts, producers, context)
      == Some(Materialized(contracts, producers, context, now).request)
    ensures ValidIdentity(context.identity) && Sha(context.identity.controlBundle)
    ensures Sha(context.identity.authorityContext)
  {
  }

  /** Ready evidence holds every bound parameter, read as its contract says. */
  lemma ReadyComplete(contracts: seq<OperatorParameter>, producers: map<string, Producer>, context: Context,
                      now: int, contract: OperatorParameter)
    requires Materialized(contracts, producers, context, now).Ready?
    requires contract in contracts && contract.id in producers
    ensures var request := RequestDigestOf(HostRequestFor(contracts, producers, context));
      var a := Attempted(contract, producers, context, request, now);
      a.Resolved? && a.parameter in Materialized(contracts, producers, context, now).evidence.parameters
  {
    var request := RequestDigestOf(HostRequestFor(contracts, producers, context));
    var attempts := Attempts(contracts, producers, context, request, now);
    var i :| 0 <= i < |contracts| && contracts[i] == contract;
    AttemptAt(contracts, producers, context, request, now, i);
    assert attempts[i] in attempts;
    if Wanted in attempts { WantedHasRequest(contracts, producers, context, request, now); }
    assert attempts[i].Resolved?;
    ResolvedOfElements(attempts, attempts[i].parameter);
    SortElements(ByName, ResolvedOf(attempts));
  }

  /** Conversely every parameter in the evidence was read for a declared, bound
      contract, and its value satisfies the declared type. */
  lemma ReadySound(contracts: seq<OperatorParameter>, producers: map<string, Producer>, context: Context, now: int,
                   p: ResolvedParameter)
    returns (c: OperatorParameter)
    requires Materialized(contracts, producers, context, now).Ready?
    requires p in Materialized(contracts, producers, context, now).evidence.parameters
    ensures c in contracts && c.id == p.name && c.id in producers && c.valueType == p.valueType
    ensures ValidValue(c.valueType, p.value, p.secret, c.secret, context.decodable)
  {
    var request := RequestDigestOf(HostRequestFor(contracts, producers, context));
    var attempts := Attempts(contracts, producers, context, request, now);
    SortElements(ByName, ResolvedOf(attempts));
    ResolvedOfElements(attempts, p);
    var i :| 0 <= i < |attempts| && attempts[i] == Resolved(p);
    c := contracts[i];
    AttemptAt(contracts, producers, context, request, now, i);
    assert Attempted(c, producers, context, request, now) == Resolved(p);
  }

  /** A host-bound parameter in ready evidence was answered by a receipt given
      for exactly the request this context builds. */
  lemma ReadyAnswered(contracts: seq<OperatorParameter>, producers: map<string, Producer>, context: Context,
                      now: int, contract: OperatorParameter)
    requires Materialized(contracts, producers, context, now).Ready?
    requires contract in contracts && HostBound(contract, producers)
    ensures var request := HostRequestFor(contracts, producers, context);
      && request.Some? && (contract.id, request.value.fingerprint) in context.inputReceipts
      && context.inputReceipts[(contract.id, request.value.fingerprint)].body.request == request.value.fingerprint
  {
    ReadyComplete(contracts, producers, context, now, contract);
    HostParametersNamed(contracts, producers, contract);
  }
}
