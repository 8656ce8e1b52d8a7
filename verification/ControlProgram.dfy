/** The compiled Control Program: its declarations, and the compile-time rules
    that make every transition parameter producible and every foreground-work
    dependency available before it is consumed. */
module ControlProgram {
  import opened Base
  import opened Ordering
  import opened Predicates
  import opened Normalize
  import CycleCheck

  datatype ValueType = ValueType(kind: string, validator: Option<string>, minimum: Option<int>, maximum: Option<int>,
    schema: Option<string>)

  datatype SourceKind =
    | EntryInputSource | StateSource | ReceiptSource | StateOrReceiptSource
    | WorkOutputSource | ResolverSource | HostInputSource | UnknownSource(name: string)

  datatype Authority = Authority(anyOf: seq<string>, allOf: seq<string>)

  datatype HostRequest = HostRequest(id: string, description: string, authorities: seq<string>, scope: string)

  /** A trusted resolver by name and version; the fingerprint pins its asset. */
  datatype ResolverBinding = ResolverBinding(reference: string, version: string, fingerprint: string)

  /** A tagged union in one record; fields of other kinds must stay blank. */
  datatype Producer = Producer(
    kind: SourceKind, input: string, facet: string, availableWhen: Option<Predicate>,
    transition: string, field: string, work: string, output: string,
    binding: Option<ResolverBinding>, request: Option<HostRequest>)

  datatype ParameterBinding = ParameterBinding(parameter: string, producer: Producer)

  datatype OperatorParameter = OperatorParameter(
    id: string, valueType: ValueType, required: bool, secret: bool,
    allowedSources: seq<SourceKind>, authority: Authority)

  datatype OperatorOutput = OperatorOutput(id: string, valueType: ValueType)
  datatype StateInput = StateInput(parameter: string, facet: string, availableWhen: Predicate)
  datatype ReceiptInput = ReceiptInput(parameter: string, transition: string, field: string, guaranteed: bool)

  datatype Precondition = Precondition(facet: string, values: seq<string>)
  datatype ValueReference = ValueReference(parameter: string, admission: string, invocation: string)
  datatype Assignment = Assignment(facet: string, value: Option<string>, valueFrom: Option<ValueReference>)
  datatype StateEffect = StateEffect(kind: string, preconditions: seq<Precondition>, assignments: seq<Assignment>,
    nativeHandler: string)

  datatype Operator = Operator(
    id: string, bound: bool, capabilities: seq<string>, authority: Authority, effects: seq<string>,
    verifier: string, recovery: string, stateEffect: StateEffect, executionContext: string,
    parameters: seq<OperatorParameter>, outputs: seq<OperatorOutput>,
    stateInputs: seq<StateInput>, receiptInputs: seq<ReceiptInput>)

  datatype Transition = Transition(
    id: string, operator: string, guard: Predicate, target: Predicate, priority: int,
    authorities: seq<string>, work: string, parameters: seq<ParameterBinding>)

  datatype WorkInput = WorkInput(id: string, producer: Producer)
  datatype WorkOutput = WorkOutput(id: string, mediaType: string, required: bool)
  datatype WorkContract = WorkContract(id: string, inputs: seq<WorkInput>, outputs: seq<WorkOutput>)

  datatype EntryInput = EntryInput(id: string, inputType: string, required: bool)
  datatype Entry = Entry(id: string, target: string, authorities: seq<string>, inputs: seq<EntryInput>, delegated: bool,
    diagnosed: bool)
  datatype Target = Target(id: string, condition: Predicate)

  datatype Document = Document(
    facets: seq<Facet>, work: seq<WorkContract>, operators: seq<Operator>,
    transitions: seq<Transition>, targets: seq<Target>, entries: seq<Entry>)

  predicate Separator(c: char) { c == '.' || c == '_' || c == '-' }
  predicate LowerAlnum(c: char) { 'a' <= c <= 'z' || '0' <= c <= '9' }

  predicate ValidId(s: string) {
    && s != "" && 'a' <= s[0] <= 'z' && LowerAlnum(s[|s| - 1])
    && (forall i :: 0 <= i < |s| ==> LowerAlnum(s[i]) || Separator(s[i]))
    && (forall i :: 1 <= i < |s| ==> !(Separator(s[i - 1]) && Separator(s[i])))
  }

  predicate ValidReference(s: string) {
    && s != "" && (LowerAlnum(s[0]) || 'A' <= s[0] <= 'Z')
    && forall i :: 0 <= i < |s| ==>
      LowerAlnum(s[i]) || 'A' <= s[i] <= 'Z' || Separator(s[i]) || s[i] == ':' || s[i] == '/'
  }

  // ----- Producers -----

  datatype ResolvedResolver = ResolvedResolver(
    fingerprint: string, sourceKind: SourceKind, outputType: ValueType, dependencies: seq<string>)

  /** What the compiler has gathered before it checks parameters. */
  datatype Catalog = Catalog(
    facets: Facets, operators: map<string, Operator>, work: map<string, WorkContract>,
    transitions: map<string, Transition>, entries: map<string, map<string, EntryInput>>,
    resolvers: map<(string, string), ResolvedResolver>)

  function BareProducer(kind: SourceKind): Producer {
    Producer(kind, "", "", None, "", "", "", "", None, None)
  }

  /** No field that belongs to another source kind is set. */
  predicate OnlyOwnFields(p: Producer) {
    match p.kind
    case EntryInputSource => p == BareProducer(p.kind).(input := p.input)
    case StateSource => p == BareProducer(p.kind).(facet := p.facet, availableWhen := p.availableWhen)
    case ReceiptSource => p == BareProducer(p.kind).(transition := p.transition, field := p.field)
    case StateOrReceiptSource =>
      && p == BareProducer(p.kind).(facet := p.facet, availableWhen := p.availableWhen, transition := p.transition,
           field := p.field)
      && p.facet != "" && p.availableWhen.Some? && p.transition != "" && p.field != ""
    case WorkOutputSource => p == BareProducer(p.kind).(work := p.work, output := p.output)
    case ResolverSource => p == BareProducer(p.kind).(binding := p.binding)
    case HostInputSource => p == BareProducer(p.kind).(request := p.request)
    case UnknownSource(_) => true
  }

  predicate CompatibleFacetType(facet: string, wanted: string) {
    (if facet == "enum" then "string" else facet) == wanted
  }

  predicate CompatibleEntryInputType(input: string, wanted: string) {
    input == wanted || (wanted == "string" && (input == "markdown-file" || input == "text" || input == "string"))
  }

  predicate CompatibleWorkOutputType(mediaType: string, wanted: string) {
    if mediaType == "application/json" then wanted == "json" else wanted == "string"
  }

  predicate AuthorityListSatisfies(actual: seq<string>, required: Authority) {
    && (forall a :: a in required.allOf ==> a in actual)
    && (required.anyOf == [] || exists a :: a in required.anyOf && a in actual)
  }

  ghost predicate ValidReferences(values: seq<string>) {
    (forall v :: v in values ==> ValidReference(v)) && WellFormedValues(values)
  }

  /** The declaration that counts when outputs are scanned for an identity. */
  function OutputNamed(outputs: seq<WorkOutput>, id: string): Option<WorkOutput> {
    if outputs == [] then None
    else if outputs[|outputs| - 1].id == id then Some(outputs[|outputs| - 1])
    else OutputNamed(outputs[..|outputs| - 1], id)
  }

  predicate CommitsOutput(catalog: Catalog, transition: string, field: string, wanted: ValueType)
    requires transition in catalog.transitions
  {
    var operator := catalog.transitions[transition].operator;
    operator in catalog.operators && OperatorOutput(field, wanted) in catalog.operators[operator].outputs
  }

  /** The state-input provenance a trusted operator binding grants. */
  predicate TrustedState(op: Operator, parameter: string, facet: string, availableWhen: Predicate) {
    exists input :: input in op.stateInputs && input.parameter == parameter && input.facet == facet
      && Implies(availableWhen, input.availableWhen)
  }

  predicate TrustedReceipt(op: Operator, parameter: string, p: Producer, guaranteed: bool) {
    exists input :: input in op.receiptInputs && input.parameter == parameter && input.transition == p.transition
      && input.field == p.field && (guaranteed ==> input.guaranteed)
  }

  predicate OrderedBefore(catalog: Catalog, p: Producer, t: Transition) {
    && p.transition in catalog.transitions && ValidId(p.field)
    && catalog.transitions[p.transition].priority < t.priority
  }

  predicate SoleProducer(transitions: map<string, Transition>, work: string, id: string) {
    id in transitions && forall other :: other in transitions ==> (transitions[other].work == work <==> other == id)
  }

  /** The only transition doing this work is ordered before its consumer. */
  predicate GuaranteedBefore(catalog: Catalog, work: string, id: string, t: Transition) {
    && SoleProducer(catalog.transitions, work, id)
    && (id == t.id || (catalog.transitions[id].priority < t.priority &&
         Implies(t.guard, catalog.transitions[id].target)))
  }

  predicate EntryProvides(inputs: map<string, EntryInput>, id: string, wanted: string) {
    id in inputs && CompatibleEntryInputType(inputs[id].inputType, wanted)
  }

  /** The produced facet is known whenever the availability predicate holds. */
  ghost predicate KnownFacet(p: Producer, contract: OperatorParameter, catalog: Catalog, less: PredicateOrder) {
    && p.facet in catalog.facets && p.availableWhen.Some?
    && CompatibleFacetType(catalog.facets[p.facet].kind, contract.valueType.kind)
    && Acceptable(p.availableWhen.value, catalog.facets)
    && RequiresKnownFacet(Canonical(p.availableWhen.value, less), p.facet)
  }

  function ResolverFor(binding: ResolverBinding, catalog: Catalog): Option<ResolvedResolver> {
    var key := (binding.reference, binding.version);
    if key in catalog.resolvers then Some(catalog.resolvers[key]) else None
  }

  /** The resolver is known, fits the parameter, and is still the pinned one. */
  predicate ResolverAccepted(binding: ResolverBinding, wanted: ValueType, catalog: Catalog) {
    var found := ResolverFor(binding, catalog);
    && ValidReference(binding.reference) && binding.version != ""
    && found.Some? && |found.value.fingerprint| == 64
    && found.value.sourceKind == ResolverSource && found.value.outputType == wanted
    && (binding.fingerprint == "" || binding.fingerprint == found.value.fingerprint)
  }

  function Pinned(binding: ResolverBinding, catalog: Catalog): ResolverBinding {
    var found := ResolverFor(binding, catalog);
    if found.Some? then binding.(fingerprint := found.value.fingerprint) else binding
  }

  /** What the compiler accepts as the producer of a parameter. */
  ghost predicate ProducerAccepted(p: Producer, contract: OperatorParameter, t: Transition, op: Operator,
                                   catalog: Catalog, less: PredicateOrder) {
    && OnlyOwnFields(p)
    && (contract.authority != Authority([], []) ==> p.kind == HostInputSource)
    && match p.kind
       case EntryInputSource =>
         && ValidId(p.input)
         && forall e :: e in catalog.entries ==> EntryProvides(catalog.entries[e], p.input, contract.valueType.kind)
       case StateSource =>
         && KnownFacet(p, contract, catalog, less)
         && var w := Canonical(p.availableWhen.value, less);
            TrustedState(op, contract.id, p.facet, w) || Implies(t.guard, w)
       case ReceiptSource =>
         && OrderedBefore(catalog, p, t)
         && TrustedReceipt(op, contract.id, p, true)
         && CommitsOutput(catalog, p.transition, p.field, contract.valueType)
       case StateOrReceiptSource =>
         && KnownFacet(p, contract, catalog, less)
         && TrustedState(op, contract.id, p.facet, Canonical(p.availableWhen.value, less))
         && TrustedReceipt(op, contract.id, p, false)
         && OrderedBefore(catalog, p, t)
         && CommitsOutput(catalog, p.transition, p.field, contract.valueType)
       case WorkOutputSource =>
         && p.work in catalog.work
         && (var output := OutputNamed(catalog.work[p.work].outputs, p.output);
             output.Some? && output.value.required &&
             CompatibleWorkOutputType(output.value.mediaType, contract.valueType.kind))
         && (exists id :: GuaranteedBefore(catalog, p.work, id, t))
       case ResolverSource =>
         && p.binding.Some? && ResolverAccepted(p.binding.value, contract.valueType, catalog)
       case HostInputSource =>
         && p.request.Some? && ValidId(p.request.value.id) && p.request.value.description != ""
         && p.request.value.scope == "transition"
         && ValidReferences(p.request.value.authorities)
         && AuthorityListSatisfies(p.request.value.authorities, contract.authority)
       case UnknownSource(_) => false
  }

  /** The rewritten producer: availability predicate and authorities in
      canonical form, the resolver pinned. */
  function CanonicalProducer(p: Producer, catalog: Catalog, less: PredicateOrder): Producer {
    match p.kind
    case StateSource => if p.availableWhen.Some? then p.(availableWhen := Some(Canonical(p.availableWhen.value, less)))
      else p
    case StateOrReceiptSource => if p.availableWhen.Some?
      then p.(availableWhen := Some(Canonical(p.availableWhen.value, less))) else p
    case ResolverSource =>
      if p.binding.None? then p else p.(binding := Some(Pinned(p.binding.value, catalog)))
    case HostInputSource =>
      if p.request.None? then p
      else p.(request := Some(p.request.value.(authorities := SortStrings(p.request.value.authorities))))
    case _ => p
  }

  /** Checks the availability predicate of a state-backed producer. */
  method NormalizeAvailability(p: Producer, contract: OperatorParameter, catalog: Catalog, less: PredicateOrder)
    returns (w: Option<Predicate>)
    ensures w.Some? <==> KnownFacet(p, contract, catalog, less)
    ensures w.Some? ==> w == Some(Canonical(p.availableWhen.value, less))
  {
    if p.facet !in catalog.facets || p.availableWhen.None? { return None; }
    if !CompatibleFacetType(catalog.facets[p.facet].kind, contract.valueType.kind) { return None; }
    w := NormalizePredicate(p.availableWhen.value, catalog.facets, less);
    if w.Some? && !RequiresKnownFacet(w.value, p.facet) { return None; }
  }

  method PinResolver(binding: ResolverBinding, wanted: ValueType, catalog: Catalog)
    returns (r: Option<ResolverBinding>)
    ensures r.Some? <==> ResolverAccepted(binding, wanted, catalog)
    ensures r.Some? ==> r.value == Pinned(binding, catalog)
  {
    if !ValidReference(binding.reference) || binding.version == "" { return None; }
    var found := ResolverFor(binding, catalog);
    if found.None? { return None; }
    var resolved := found.value;
    if |resolved.fingerprint| != 64 || resolved.sourceKind != ResolverSource || resolved.outputType != wanted {
      return None;
    }
    if binding.fingerprint != "" && binding.fingerprint != resolved.fingerprint { return None; }
    return Some(binding.(fingerprint := resolved.fingerprint));
  }

  method NormalizeProducer(p: Producer, contract: OperatorParameter, t: Transition, op: Operator, catalog: Catalog,
                           less: PredicateOrder)
    returns (r: Option<Producer>)
    ensures r.Some? <==> ProducerAccepted(p, contract, t, op, catalog, less)
    ensures r.Some? ==> r.value == CanonicalProducer(p, catalog, less)
  {
    if !OnlyOwnFields(p) { return None; }
    if contract.authority != Authority([], []) && p.kind != HostInputSource { return None; }
    match p.kind {
      case EntryInputSource =>
        if !ValidId(p.input) { return None; }
        if exists e :: e in catalog.entries && !EntryProvides(catalog.entries[e], p.input, contract.valueType.kind) {
          return None;
        }
        return Some(p);
      case StateSource =>
        var w := NormalizeAvailability(p, contract, catalog, less);
        if w.None? { return None; }
        if !TrustedState(op, contract.id, p.facet, w.value) && !Implies(t.guard, w.value) { return None; }
        return Some(p.(availableWhen := w));
      case ReceiptSource =>
        if !OrderedBefore(catalog, p, t) || !TrustedReceipt(op, contract.id, p, true) { return None; }
        if !CommitsOutput(catalog, p.transition, p.field, contract.valueType) { return None; }
        return Some(p);
      case StateOrReceiptSource =>
        var w := NormalizeAvailability(p, contract, catalog, less);
        if w.None? { return None; }
        if !TrustedState(op, contract.id, p.facet, w.value) || !TrustedReceipt(op, contract.id, p, false) ||
          !OrderedBefore(catalog, p, t) {
          return None;
        }
        if !CommitsOutput(catalog, p.transition, p.field, contract.valueType) { return None; }
        return Some(p.(availableWhen := w));
      case WorkOutputSource =>
        if p.work !in catalog.work { return None; }
        var output := OutputNamed(catalog.work[p.work].outputs, p.output);
        if output.None? || !output.value.required ||
          !CompatibleWorkOutputType(output.value.mediaType, contract.valueType.kind) {
          return None;
        }
        if !exists id :: id in catalog.transitions && SoleProducer(catalog.transitions, p.work, id) { return None; }
        var prior :| prior in catalog.transitions && SoleProducer(catalog.transitions, p.work, prior);
        if !GuaranteedBefore(catalog, p.work, prior, t) { return None; }
        return Some(p);
      case ResolverSource =>
        if p.binding.None? { return None; }
        var pinned := PinResolver(p.binding.value, contract.valueType, catalog);
        if pinned.None? { return None; }
        return Some(p.(binding := pinned));
      case HostInputSource =>
        if p.request.None? || !ValidId(p.request.value.id) || p.request.value.description == "" ||
          p.request.value.scope != "transition" {
          return None;
        }
        if exists v :: v in p.request.value.authorities && !ValidReference(v) { return None; }
        var authorities := NormalizedValues(p.request.value.authorities);
        if authorities.None? || !AuthorityListSatisfies(authorities.value, contract.authority) { return None; }
        return Some(p.(request := Some(p.request.value.(authorities := authorities.value))));
      case UnknownSource(_) =>
        return None;
    }
  }

  /** A pinned resolver is accepted again exactly where it still resolves to the
      same asset, as a resolver of the same output type. */
  lemma ResolverDrift(p: Producer, contract: OperatorParameter, t: Transition, op: Operator, catalog: Catalog,
                      later: Catalog, less: PredicateOrder)
    requires ProducerAccepted(p, contract, t, op, catalog, less) && p.kind == ResolverSource
    ensures var pinned := CanonicalProducer(p, catalog, less);
      && pinned.binding.Some? && |pinned.binding.value.fingerprint| == 64
      && (ProducerAccepted(pinned, contract, t, op, later, less) <==>
           var found := ResolverFor(p.binding.value, later);
           && found.Some? && found.value.fingerprint == pinned.binding.value.fingerprint
           && found.value.sourceKind == ResolverSource && found.value.outputType == contract.valueType)
  {
    assert CanonicalProducer(p, catalog, less).binding
      == Some(p.binding.value.(fingerprint := ResolverFor(p.binding.value, catalog).value.fingerprint));
  }

  // ----- Completeness of one transition -----

  function ContractNamed(parameters: seq<OperatorParameter>, id: string): (r: Option<OperatorParameter>)
    ensures r.Some? ==> r.value in parameters && r.value.id == id
    ensures r.None? ==> forall c :: c in parameters ==> c.id != id
  {
    if parameters == [] then None
    else if parameters[|parameters| - 1].id == id then Some(parameters[|parameters| - 1])
    else ContractNamed(parameters[..|parameters| - 1], id)
  }

  function Dependencies(p: Producer, catalog: Catalog): seq<string> {
    if p.kind == ResolverSource && p.binding.Some? && ResolverFor(p.binding.value, catalog).Some?
    then ResolverFor(p.binding.value, catalog).value.dependencies else []
  }

  function DependencyGraph(bindings: seq<ParameterBinding>, catalog: Catalog): (g: CycleCheck.Graph)
    ensures forall n :: n in g ==> exists b :: b in bindings && b.parameter == n
  {
    if bindings == [] then map[]
    else
      var last := bindings[|bindings| - 1];
      DependencyGraph(bindings[..|bindings| - 1], catalog)[last.parameter := Dependencies(last.producer, catalog)]
  }

  ghost predicate BindingAccepted(b: ParameterBinding, t: Transition, op: Operator, catalog: Catalog,
                                  less: PredicateOrder) {
    var contract := ContractNamed(op.parameters, b.parameter);
    && contract.Some? && b.producer.kind in contract.value.allowedSources
    && ProducerAccepted(b.producer, contract.value, t, op, catalog, less)
  }

  /** The first n bindings are accepted. */
  ghost predicate BindingsAccepted(t: Transition, n: nat, op: Operator, catalog: Catalog, less: PredicateOrder)
    requires n <= |t.parameters|
  {
    forall i :: 0 <= i < n ==> BindingAccepted(t.parameters[i], t, op, catalog, less)
  }

  /** Every parameter of the transition has exactly one accepted producer. */
  ghost predicate InvocationComplete(t: Transition, op: Operator, catalog: Catalog, less: PredicateOrder) {
    && BindingsAccepted(t, |t.parameters|, op, catalog, less)
    && Distinct(BoundNames(t.parameters))
    && (forall c :: c in op.parameters && c.required ==> c.id in BoundNames(t.parameters))
    && CycleCheck.Acyclic(DependencyGraph(t.parameters, catalog))
  }

  function BoundNames(bindings: seq<ParameterBinding>): (r: seq<string>)
    ensures |r| == |bindings|
    ensures forall b :: b in bindings ==> b.parameter in r
  {
    MapSeq((b: ParameterBinding) => b.parameter, bindings)
  }

  function CanonicalBinding(b: ParameterBinding, catalog: Catalog, less: PredicateOrder): ParameterBinding {
    b.(producer := CanonicalProducer(b.producer, catalog, less))
  }

  function CanonicalBindings(bindings: seq<ParameterBinding>, catalog: Catalog,
                             less: PredicateOrder): (r: seq<ParameterBinding>)
    ensures |r| == |bindings|
  {
    MapSeq(b => CanonicalBinding(b, catalog, less), bindings)
  }

  predicate ByParameter(a: ParameterBinding, b: ParameterBinding) { StringLess(a.parameter, b.parameter) }

  /** The first j names are distinct and are the ones seen. */
  ghost predicate NamesSeen(seen: set<string>, names: seq<string>, j: nat) {
    && j <= |names|
    && (forall i, k :: 0 <= i < k < j ==> names[i] != names[k])
    && (forall i :: 0 <= i < j ==> names[i] in seen)
    && (forall n :: n in seen ==> exists i :: 0 <= i < j && names[i] == n)
  }

  lemma NamesStep(seen: set<string>, names: seq<string>, j: nat)
    requires NamesSeen(seen, names, j) && j < |names|
    ensures names[j] in seen ==> !Distinct(names)
    ensures names[j] !in seen ==> NamesSeen(seen + {names[j]}, names, j + 1)
  {
    if names[j] !in seen {
      forall n | n in seen + {names[j]} ensures exists i :: 0 <= i < j + 1 && names[i] == n {
        if n in seen { var i :| 0 <= i < j && names[i] == n; } else { assert names[j] == n; }
      }
    }
  }

  method NormalizeBinding(t: Transition, j: nat, op: Operator, catalog: Catalog, less: PredicateOrder,
                          seen: set<string>)
    returns (r: Option<ParameterBinding>)
    requires j < |t.parameters| && BindingsAccepted(t, j, op, catalog, less)
    requires NamesSeen(seen, BoundNames(t.parameters), j)
    ensures r.Some? ==> BindingsAccepted(t, j + 1, op, catalog, less)
    ensures r.Some? ==> r.value == CanonicalBindings(t.parameters, catalog, less)[j]
    ensures r.Some? ==> NamesSeen(seen + {t.parameters[j].parameter}, BoundNames(t.parameters), j + 1)
    ensures r.None? ==> !(BindingsAccepted(t, |t.parameters|, op, catalog, less) && Distinct(BoundNames(t.parameters)))
  {
    var b := t.parameters[j];
    NamesStep(seen, BoundNames(t.parameters), j);
    if b.parameter in seen { return None; }
    var contract := ContractNamed(op.parameters, b.parameter);
    if contract.None? || b.producer.kind !in contract.value.allowedSources {
      assert !BindingAccepted(t.parameters[j], t, op, catalog, less);
      return None;
    }
    var producer := NormalizeProducer(b.producer, contract.value, t, op, catalog, less);
    assert producer.Some? <==> BindingAccepted(t.parameters[j], t, op, catalog, less);
    if producer.None? { return None; }
    return Some(b.(producer := producer.value));
  }

  lemma GraphStep(bindings: seq<ParameterBinding>, j: nat, catalog: Catalog)
    requires j < |bindings|
    ensures DependencyGraph(bindings[..j + 1], catalog)
      == DependencyGraph(bindings[..j], catalog)[bindings[j].parameter := Dependencies(bindings[j].producer, catalog)]
  {
    assert bindings[..j + 1][..j] == bindings[..j];
  }

  /** Rewrites the bindings in place and gathers their dependency graph. */
  method NormalizeBindings(t: Transition, op: Operator, catalog: Catalog, less: PredicateOrder)
    returns (r: Option<seq<ParameterBinding>>, dependencies: CycleCheck.Graph)
    ensures r.Some? <==> BindingsAccepted(t, |t.parameters|, op, catalog, less) && Distinct(BoundNames(t.parameters))
    ensures r.Some? ==> r.value == CanonicalBindings(t.parameters, catalog, less)
    ensures r.Some? ==> dependencies == DependencyGraph(t.parameters, catalog)
  {
    var bindings := t.parameters;
    ghost var target := CanonicalBindings(t.parameters, catalog, less);
    ghost var names := BoundNames(t.parameters);
    var seen: set<string> := {};
    dependencies := map[];
    var j := 0;
    while j < |bindings|
      invariant 0 <= j <= |bindings| == |t.parameters|
      invariant PartlyRewritten(bindings, t.parameters, target, j)
      invariant BindingsAccepted(t, j, op, catalog, less)
      invariant NamesSeen(seen, names, j)
      invariant dependencies == DependencyGraph(t.parameters[..j], catalog)
    {
      var b := bindings[j];
      var rewritten := NormalizeBinding(t, j, op, catalog, less, seen);
      if rewritten.None? { return None, dependencies; }
      seen := seen + {b.parameter};
      RewriteStep(bindings, t.parameters, target, j);
      bindings := bindings[j := rewritten.value];
      GraphStep(t.parameters, j, catalog);
      dependencies := dependencies[b.parameter := Dependencies(b.producer, catalog)];
      j := j + 1;
    }
    assert t.parameters[..j] == t.parameters;
    Rewritten(bindings, t.parameters, target);
    return Some(bindings), dependencies;
  }

  lemma AcceptedNamesDeclared(t: Transition, op: Operator, catalog: Catalog, less: PredicateOrder)
    requires BindingsAccepted(t, |t.parameters|, op, catalog, less)
    ensures forall b :: b in t.parameters ==> ContractNamed(op.parameters, b.parameter).Some?
  {
    forall b | b in t.parameters ensures ContractNamed(op.parameters, b.parameter).Some? {
      var i :| 0 <= i < |t.parameters| && t.parameters[i] == b;
      assert BindingAccepted(t.parameters[i], t, op, catalog, less);
    }
  }

  method NormalizeInvocation(t: Transition, op: Operator, catalog: Catalog, less: PredicateOrder)
    returns (r: Option<Transition>)
    requires forall c :: c in op.parameters ==> c.id != ""
    ensures r.Some? <==> InvocationComplete(t, op, catalog, less)
    ensures r.Some? ==> r.value == t.(parameters := Sort(ByParameter, CanonicalBindings(t.parameters, catalog, less)))
  {
    var bindings, dependencies := NormalizeBindings(t, op, catalog, less);
    if bindings.None? { return None; }
    AcceptedNamesDeclared(t, op, catalog, less);
    var bound := BoundNames(t.parameters);
    if exists c :: c in op.parameters && c.required && c.id !in bound { return None; }
    var cycle := CycleCheck.ParameterDependencyCycle(dependencies);
    if cycle != "" { return None; }
    return Some(t.(parameters := Sort(ByParameter, bindings.value)));
  }

  // ----- Declared provenance of an operator -----

  /** The parameter accepts values from this kind of source, or from either. */
  predicate Capable(op: Operator, parameter: string, kind: SourceKind) {
    var contract := ContractNamed(op.parameters, parameter);
    contract.Some? && (kind in contract.value.allowedSources || StateOrReceiptSource in contract.value.allowedSources)
  }

  ghost predicate StateInputAccepted(input: StateInput, op: Operator, facets: Facets, less: PredicateOrder) {
    && Capable(op, input.parameter, StateSource) && input.facet in facets
    && CompatibleFacetType(facets[input.facet].kind,
         ContractNamed(op.parameters, input.parameter).value.valueType.kind)
    && Acceptable(input.availableWhen, facets)
    && RequiresKnownFacet(Canonical(input.availableWhen, less), input.facet)
  }

  predicate ReceiptInputAccepted(input: ReceiptInput, op: Operator) {
    Capable(op, input.parameter, ReceiptSource) && ValidId(input.transition) && ValidId(input.field)
  }

  function StateInputNames(inputs: seq<StateInput>): (r: seq<string>)
    ensures |r| == |inputs|
  {
    MapSeq((input: StateInput) => input.parameter, inputs)
  }

  function ReceiptInputNames(inputs: seq<ReceiptInput>): (r: seq<string>)
    ensures |r| == |inputs|
  {
    MapSeq((input: ReceiptInput) => input.parameter, inputs)
  }

  /** The first n state inputs are accepted. */
  ghost predicate StateInputsUpTo(op: Operator, n: nat, facets: Facets, less: PredicateOrder) {
    n <= |op.stateInputs| && forall i :: 0 <= i < n ==> StateInputAccepted(op.stateInputs[i], op, facets, less)
  }

  /** Only a trusted binding may vouch for state. */
  ghost predicate StateInputsAccepted(op: Operator, facets: Facets, less: PredicateOrder) {
    && (op.bound || op.stateInputs == [])
    && StateInputsUpTo(op, |op.stateInputs|, facets, less)
    && Distinct(StateInputNames(op.stateInputs))
  }

  /** The first n receipt inputs are accepted. */
  ghost predicate ReceiptInputsUpTo(op: Operator, n: nat) {
    n <= |op.receiptInputs| && forall i :: 0 <= i < n ==> ReceiptInputAccepted(op.receiptInputs[i], op)
  }

  /** Only a trusted binding may vouch for receipts. */
  ghost predicate ReceiptInputsAccepted(op: Operator) {
    && (op.bound || op.receiptInputs == [])
    && ReceiptInputsUpTo(op, |op.receiptInputs|)
    && Distinct(ReceiptInputNames(op.receiptInputs))
  }

  function CanonicalStateInputs(inputs: seq<StateInput>, less: PredicateOrder): (r: seq<StateInput>)
    ensures |r| == |inputs|
  {
    MapSeq((input: StateInput) => input.(availableWhen := Canonical(input.availableWhen, less)), inputs)
  }

  predicate ByStateParameter(a: StateInput, b: StateInput) { StringLess(a.parameter, b.parameter) }
  predicate ByReceiptParameter(a: ReceiptInput, b: ReceiptInput) { StringLess(a.parameter, b.parameter) }

  /** Checks one state input and rewrites its availability predicate. */
  method NormalizeStateInput(input: StateInput, op: Operator, facets: Facets, less: PredicateOrder)
    returns (w: Option<Predicate>)
    ensures w.Some? <==> StateInputAccepted(input, op, facets, less)
    ensures w.Some? ==> w == Some(Canonical(input.availableWhen, less))
  {
    if !Capable(op, input.parameter, StateSource) || input.facet !in facets { return None; }
    var contract := ContractNamed(op.parameters, input.parameter).value;
    if !CompatibleFacetType(facets[input.facet].kind, contract.valueType.kind) { return None; }
    w := NormalizePredicate(input.availableWhen, facets, less);
    if w.Some? && !RequiresKnownFacet(w.value, input.facet) { return None; }
  }

  /** The state input at j, given that those before it are accepted. */
  method NormalizeStateInputAt(op: Operator, j: nat, facets: Facets, less: PredicateOrder, seen: set<string>)
    returns (r: Option<StateInput>)
    requires j < |op.stateInputs| && StateInputsUpTo(op, j, facets, less)
    requires NamesSeen(seen, StateInputNames(op.stateInputs), j)
    ensures r.Some? ==> StateInputsUpTo(op, j + 1, facets, less)
    ensures r.Some? ==> r.value == CanonicalStateInputs(op.stateInputs, less)[j]
    ensures r.Some? ==> NamesSeen(seen + {op.stateInputs[j].parameter}, StateInputNames(op.stateInputs), j + 1)
    ensures r.None? ==> !StateInputsAccepted(op, facets, less)
  {
    var input := op.stateInputs[j];
    NamesStep(seen, StateInputNames(op.stateInputs), j);
    if input.parameter in seen { return None; }
    var w := NormalizeStateInput(input, op, facets, less);
    assert w.Some? <==> StateInputAccepted(op.stateInputs[j], op, facets, less);
    if w.None? { return None; }
    return Some(input.(availableWhen := w.value));
  }

  method NormalizeOperatorStateInputs(op: Operator, facets: Facets, less: PredicateOrder)
    returns (r: Option<seq<StateInput>>)
    ensures r.Some? <==> StateInputsAccepted(op, facets, less)
    ensures r.Some? ==> r.value == Sort(ByStateParameter, CanonicalStateInputs(op.stateInputs, less))
  {
    if !op.bound && op.stateInputs != [] { return None; }
    var inputs := op.stateInputs;
    ghost var target := CanonicalStateInputs(op.stateInputs, less);
    var seen: set<string> := {};
    var j := 0;
    while j < |inputs|
      invariant 0 <= j <= |inputs| == |op.stateInputs|
      invariant PartlyRewritten(inputs, op.stateInputs, target, j)
      invariant StateInputsUpTo(op, j, facets, less)
      invariant NamesSeen(seen, StateInputNames(op.stateInputs), j)
    {
      var parameter := inputs[j].parameter;
      var rewritten := NormalizeStateInputAt(op, j, facets, less, seen);
      if rewritten.None? { return None; }
      seen := seen + {parameter};
      RewriteStep(inputs, op.stateInputs, target, j);
      inputs := inputs[j := rewritten.value];
      j := j + 1;
    }
    Rewritten(inputs, op.stateInputs, target);
    return Some(Sort(ByStateParameter, inputs));
  }

  /** The receipt input at j, given that those before it are accepted. */
  method CheckReceiptInputAt(op: Operator, j: nat, seen: set<string>) returns (ok: bool)
    requires j < |op.receiptInputs| && ReceiptInputsUpTo(op, j)
    requires NamesSeen(seen, ReceiptInputNames(op.receiptInputs), j)
    ensures ok ==> ReceiptInputsUpTo(op, j + 1)
    ensures ok ==> NamesSeen(seen + {op.receiptInputs[j].parameter}, ReceiptInputNames(op.receiptInputs), j + 1)
    ensures !ok ==> !ReceiptInputsAccepted(op)
  {
    var input := op.receiptInputs[j];
    NamesStep(seen, ReceiptInputNames(op.receiptInputs), j);
    if input.parameter in seen { return false; }
    ok := ReceiptInputAccepted(input, op);
    assert ok == ReceiptInputAccepted(op.receiptInputs[j], op);
  }

  method NormalizeOperatorReceiptInputs(op: Operator) returns (r: Option<seq<ReceiptInput>>)
    ensures r.Some? <==> ReceiptInputsAccepted(op)
    ensures r.Some? ==> r.value == Sort(ByReceiptParameter, op.receiptInputs)
  {
    if !op.bound && op.receiptInputs != [] { return None; }
    var seen: set<string> := {};
    var j := 0;
    while j < |op.receiptInputs|
      invariant 0 <= j <= |op.receiptInputs|
      invariant ReceiptInputsUpTo(op, j)
      invariant NamesSeen(seen, ReceiptInputNames(op.receiptInputs), j)
    {
      var ok := CheckReceiptInputAt(op, j, seen);
      if !ok { return None; }
      seen := seen + {op.receiptInputs[j].parameter};
      j := j + 1;
    }
    return Some(Sort(ByReceiptParameter, op.receiptInputs));
  }

  /** What a trusted binding vouches for holds on states: where the declared
      availability holds, the facet has a value. */
  lemma DeclaredStateKnown(op: Operator, facets: Facets, less: PredicateOrder, input: StateInput,
                           facts: Predicates.Facts)
    requires StateInputsAccepted(op, facets, less) && input in op.stateInputs && TotalOrder(less)
    requires Satisfied(Canonical(input.availableWhen, less), facts)
    ensures input.facet in facts
  {
    var i :| 0 <= i < |op.stateInputs| && op.stateInputs[i] == input;
    assert StateInputAccepted(op.stateInputs[i], op, facets, less);
    AcceptableIsValid(input.availableWhen, facets);
    CanonicalValid(input.availableWhen, less);
    RequiresKnownFacetSound(Canonical(input.availableWhen, less), input.facet, facts);
  }

  /** In a compiled inline-operator flow no trusted binding vouches for state,
      so whenever the guard holds the sourced facet is in the state. */
  lemma StateParameterAvailable(b: ParameterBinding, t: Transition, op: Operator, catalog: Catalog,
                                less: PredicateOrder, facts: Predicates.Facts)
    requires InvocationComplete(t, op, catalog, less) && b in t.parameters
    requires StateInputsAccepted(op, catalog.facets, less) && !op.bound && Valid(t.guard) && TotalOrder(less)
    requires b.producer.kind == StateSource
    requires Satisfied(t.guard, facts)
    ensures b.producer.facet in facts
  {
    var i :| 0 <= i < |t.parameters| && t.parameters[i] == b;
    assert BindingAccepted(b, t, op, catalog, less);
    var w := b.producer.availableWhen.value;
    AcceptableIsValid(w, catalog.facets);
    CanonicalValid(w, less);
    ImpliesSound(t.guard, Canonical(w, less), facts);
    RequiresKnownFacetSound(Canonical(w, less), b.producer.facet, facts);
  }

  /** Inline operators cannot source parameters from receipts at all. */
  lemma InlineSources(b: ParameterBinding, t: Transition, op: Operator, catalog: Catalog, less: PredicateOrder)
    requires InvocationComplete(t, op, catalog, less) && b in t.parameters
    requires StateInputsAccepted(op, catalog.facets, less) && ReceiptInputsAccepted(op) && !op.bound
    ensures b.producer.kind in {EntryInputSource, StateSource, WorkOutputSource, ResolverSource, HostInputSource}
  {
    var i :| 0 <= i < |t.parameters| && t.parameters[i] == b;
    assert BindingAccepted(b, t, op, catalog, less);
  }

  // ----- State effects -----

  ghost predicate PreconditionAccepted(p: Precondition, facets: Facets) {
    && p.facet in facets && WellFormedValues(p.values) && p.values != []
    && (facets[p.facet].kind == "enum" ==> forall v :: v in p.values ==> v in facets[p.facet].values)
  }

  function Sources(r: ValueReference): nat {
    Count(r.parameter != "") + Count(r.admission != "") + Count(r.invocation != "")
  }

  predicate AssignmentAccepted(a: Assignment, facets: Facets) {
    && a.facet in facets && (a.value.Some? != a.valueFrom.Some?)
    && (a.value.Some? && facets[a.facet].kind == "enum" ==> a.value.value in facets[a.facet].values)
    && (a.valueFrom.Some? ==> Sources(a.valueFrom.value) == 1)
  }

  function PreconditionFacets(ps: seq<Precondition>): seq<string> { MapSeq((p: Precondition) => p.facet, ps) }
  function AssignmentFacets(xs: seq<Assignment>): seq<string> { MapSeq((a: Assignment) => a.facet, xs) }

  ghost predicate PreconditionsAccepted(ps: seq<Precondition>, facets: Facets) {
    (forall i :: 0 <= i < |ps| ==> PreconditionAccepted(ps[i], facets)) && Distinct(PreconditionFacets(ps))
  }

  ghost predicate AssignmentsAccepted(xs: seq<Assignment>, facets: Facets) {
    (forall i :: 0 <= i < |xs| ==> AssignmentAccepted(xs[i], facets)) && Distinct(AssignmentFacets(xs))
  }

  ghost predicate StateEffectAccepted(e: StateEffect, facets: Facets) {
    && (if e.kind == "native" then e.nativeHandler != "" && e.assignments == []
        else e.kind == "assignments" && e.nativeHandler == "" && e.assignments != [])
    && PreconditionsAccepted(e.preconditions, facets)
    && AssignmentsAccepted(e.assignments, facets)
  }

  function CanonicalPrecondition(p: Precondition): Precondition { p.(values := SortStrings(p.values)) }
  predicate ByPreconditionFacet(a: Precondition, b: Precondition) { StringLess(a.facet, b.facet) }
  predicate ByAssignmentFacet(a: Assignment, b: Assignment) { StringLess(a.facet, b.facet) }

  method NormalizePreconditions(e: StateEffect, facets: Facets) returns (r: Option<seq<Precondition>>)
    ensures r.Some? <==> PreconditionsAccepted(e.preconditions, facets)
    ensures r.Some? ==> r.value == MapSeq(CanonicalPrecondition, e.preconditions)
  {
    var preconditions := e.preconditions;
    ghost var names := PreconditionFacets(e.preconditions);
    var seen: set<string> := {};
    var i := 0;
    while i < |preconditions|
      invariant 0 <= i <= |preconditions|
      invariant PartlyRewritten(preconditions, e.preconditions, MapSeq(CanonicalPrecondition, e.preconditions), i)
      invariant forall k :: 0 <= k < i ==> PreconditionAccepted(e.preconditions[k], facets)
      invariant NamesSeen(seen, names, i)
    {
      var p := preconditions[i];
      NamesStep(seen, names, i);
      if p.facet !in facets || p.facet in seen { return None; }
      seen := seen + {p.facet};
      var values := NormalizedValues(p.values);
      if values.None? || values.value == [] {
        assert !PreconditionAccepted(e.preconditions[i], facets) by { SameElements(p.values, SortStrings(p.values)); }
        return None;
      }
      if facets[p.facet].kind == "enum" && exists v :: v in values.value && v !in facets[p.facet].values {
        return None;
      }
      SameElements(p.values, SortStrings(p.values));
      RewriteStep(preconditions, e.preconditions, MapSeq(CanonicalPrecondition, e.preconditions), i);
      preconditions := preconditions[i := p.(values := values.value)];
      i := i + 1;
    }
    Rewritten(preconditions, e.preconditions, MapSeq(CanonicalPrecondition, e.preconditions));
    return Some(preconditions);
  }

  method CheckAssignments(e: StateEffect, facets: Facets) returns (ok: bool)
    ensures ok <==> AssignmentsAccepted(e.assignments, facets)
  {
    ghost var names := AssignmentFacets(e.assignments);
    var seen: set<string> := {};
    var i := 0;
    while i < |e.assignments|
      invariant 0 <= i <= |e.assignments|
      invariant forall k :: 0 <= k < i ==> AssignmentAccepted(e.assignments[k], facets)
      invariant NamesSeen(seen, names, i)
    {
      NamesStep(seen, names, i);
      if e.assignments[i].facet in seen || !AssignmentAccepted(e.assignments[i], facets) { return false; }
      seen := seen + {e.assignments[i].facet};
      i := i + 1;
    }
    return true;
  }

  method NormalizeStateEffect(e: StateEffect, facets: Facets) returns (r: Option<StateEffect>)
    ensures r.Some? <==> StateEffectAccepted(e, facets)
    ensures r.Some? ==> r.value == e.(
      preconditions := Sort(ByPreconditionFacet, MapSeq(CanonicalPrecondition, e.preconditions)),
      assignments := Sort(ByAssignmentFacet, e.assignments))
  {
    if e.kind != "assignments" && e.kind != "native" { return None; }
    if e.kind == "native" {
      if e.nativeHandler == "" || e.assignments != [] { return None; }
    } else if e.nativeHandler != "" || e.assignments == [] { return None; }
    var preconditions := NormalizePreconditions(e, facets);
    if preconditions.None? { return None; }
    var ok := CheckAssignments(e, facets);
    if !ok { return None; }
    return Some(e.(preconditions := Sort(ByPreconditionFacet, preconditions.value),
      assignments := Sort(ByAssignmentFacet, e.assignments)));
  }

  // ----- Foreground-work dependencies -----

  function EntryInputIds(doc: Document): set<string> {
    set e, input | e in doc.entries && input in e.inputs :: input.id
  }

  function TransitionsFor(transitions: seq<Transition>, work: string): (r: seq<Transition>)
    ensures forall t :: t in r <==> t in transitions && t.work == work && t.work != ""
  {
    if transitions == [] then []
    else if transitions[0].work == work && work != "" then [transitions[0]] + TransitionsFor(transitions[1..], work)
    else TransitionsFor(transitions[1..], work)
  }

  predicate OrderedConsumer(producer: Transition, consumer: Transition) {
    && producer.id != consumer.id && producer.priority < consumer.priority
    && Implies(consumer.guard, producer.target)
  }

  ghost predicate WorkInputAccepted(doc: Document, work: map<string, WorkContract>, contract: WorkContract,
                                    input: WorkInput) {
    var p := input.producer;
    && OnlyOwnFields(p)
    && match p.kind
       case EntryInputSource => ValidId(p.input) && p.input in EntryInputIds(doc)
       case WorkOutputSource =>
         && p.work in work && work[p.work].id != contract.id && ValidId(p.output)
         && (var output := OutputNamed(work[p.work].outputs, p.output); output.Some? && output.value.required)
         && var producers := TransitionsFor(doc.transitions, work[p.work].id);
            && |producers| == 1
            && Implies(producers[0].target, producers[0].guard)
            && forall c :: c in TransitionsFor(doc.transitions, contract.id) ==> OrderedConsumer(producers[0], c)
       case _ => false
  }

  /** Every input of every work contract is guaranteed before its consumers. */
  ghost predicate WorkInputsAccepted(doc: Document, work: map<string, WorkContract>) {
    forall i :: 0 <= i < |doc.work| ==> forall j :: 0 <= j < |doc.work[i].inputs| ==>
      WorkInputAccepted(doc, work, doc.work[i], doc.work[i].inputs[j])
  }

  method CheckWorkInput(doc: Document, work: map<string, WorkContract>, contract: WorkContract, input: WorkInput,
                        entryInputs: set<string>)
    returns (ok: bool)
    requires entryInputs == EntryInputIds(doc)
    ensures ok <==> WorkInputAccepted(doc, work, contract, input)
  {
    var p := input.producer;
    if p.kind != EntryInputSource && p.kind != WorkOutputSource { return false; }
    if !OnlyOwnFields(p) { return false; }
    if p.kind == EntryInputSource { return ValidId(p.input) && p.input in entryInputs; }
    if p.work !in work || work[p.work].id == contract.id || !ValidId(p.output) { return false; }
    var source := work[p.work];
    var output := OutputNamed(source.outputs, p.output);
    if output.None? || !output.value.required { return false; }
    var producers := TransitionsFor(doc.transitions, source.id);
    if |producers| != 1 { return false; }
    if !Implies(producers[0].target, producers[0].guard) { return false; }
    var consumers := TransitionsFor(doc.transitions, contract.id);
    var k := 0;
    while k < |consumers|
      invariant 0 <= k <= |consumers|
      invariant forall m :: 0 <= m < k ==> OrderedConsumer(producers[0], consumers[m])
    {
      if !OrderedConsumer(producers[0], consumers[k]) { return false; }
      k := k + 1;
    }
    return true;
  }

  method NormalizeWorkInputProducers(doc: Document, work: map<string, WorkContract>) returns (ok: bool)
    ensures ok <==> WorkInputsAccepted(doc, work)
  {
    var entryInputs := EntryInputIds(doc);
    var i := 0;
    while i < |doc.work|
      invariant 0 <= i <= |doc.work|
      invariant forall a :: 0 <= a < i ==> forall j :: 0 <= j < |doc.work[a].inputs| ==>
        WorkInputAccepted(doc, work, doc.work[a], doc.work[a].inputs[j])
    {
      var contract := doc.work[i];
      var j := 0;
      while j < |contract.inputs|
        invariant 0 <= j <= |contract.inputs|
        invariant forall k :: 0 <= k < j ==> WorkInputAccepted(doc, work, contract, contract.inputs[k])
      {
        ok := CheckWorkInput(doc, work, contract, contract.inputs[j], entryInputs);
        if !ok { return; }
        j := j + 1;
      }
      i := i + 1;
    }
    return true;
  }

  /** A transition consumes, through its work, an output of another's work. */
  ghost predicate Feeds(doc: Document, work: map<string, WorkContract>, producer: Transition, consumer: Transition) {
    && producer in doc.transitions && consumer in doc.transitions && consumer.work != "" && producer.work != ""
    && exists i, j :: ConsumesAt(doc, work, i, j, producer.work, consumer.work)
  }

  ghost predicate ConsumesAt(doc: Document, work: map<string, WorkContract>, i: int, j: int, source: string,
                             consumer: string) {
    && 0 <= i < |doc.work| && 0 <= j < |doc.work[i].inputs|
    && doc.work[i].id == consumer
    && var p := doc.work[i].inputs[j].producer;
       p.kind == WorkOutputSource && p.work in work && work[p.work].id == source
  }

  lemma FeedsOrdered(doc: Document, work: map<string, WorkContract>, producer: Transition, consumer: Transition)
    requires WorkInputsAccepted(doc, work) && Feeds(doc, work, producer, consumer)
    ensures OrderedConsumer(producer, consumer) && Implies(producer.target, producer.guard)
  {
    var i, j :| ConsumesAt(doc, work, i, j, producer.work, consumer.work);
    assert WorkInputAccepted(doc, work, doc.work[i], doc.work[i].inputs[j]);
    var producers := TransitionsFor(doc.transitions, producer.work);
    assert producer in producers && producer == producers[0];
    assert consumer in TransitionsFor(doc.transitions, consumer.work);
  }

  /** Consecutive transitions of a dependency chain, consumer first. */
  ghost predicate DependencyChain(doc: Document, work: map<string, WorkContract>, chain: seq<Transition>) {
    |chain| > 0 && forall i :: 0 <= i < |chain| - 1 ==> Feeds(doc, work, chain[i + 1], chain[i])
  }

  /** Along any chain the consumer's guard implies every upstream target and
      guard, and priorities strictly decrease upstream. */
  lemma {:induction false} ChainGuarantees(doc: Document, work: map<string, WorkContract>, chain: seq<Transition>,
                                           k: nat)
    requires WorkInputsAccepted(doc, work) && DependencyChain(doc, work, chain)
    requires forall t :: t in doc.transitions ==> Valid(t.guard) && Valid(t.target)
    requires 1 <= k < |chain|
    ensures Implies(chain[0].guard, chain[k].target) && Implies(chain[0].guard, chain[k].guard)
    ensures chain[k].priority < chain[0].priority
    decreases k
  {
    assert Feeds(doc, work, chain[k - 1 + 1], chain[k - 1]);
    FeedsOrdered(doc, work, chain[k], chain[k - 1]);
    assert Feeds(doc, work, chain[0 + 1], chain[0]);
    if k > 1 {
      ChainGuarantees(doc, work, chain, k - 1);
      ImpliesTransitive(chain[0].guard, chain[k - 1].guard, chain[k].target);
    }
    ImpliesTransitive(chain[0].guard, chain[k].target, chain[k].guard);
  }

  /** No transition depends on itself through work outputs. */
  lemma WorkDependenciesAcyclic(doc: Document, work: map<string, WorkContract>, chain: seq<Transition>)
    requires WorkInputsAccepted(doc, work) && DependencyChain(doc, work, chain)
    requires forall t :: t in doc.transitions ==> Valid(t.guard) && Valid(t.target)
    requires |chain| >= 2
    ensures chain[0] != chain[|chain| - 1]
  {
    ChainGuarantees(doc, work, chain, |chain| - 1);
  }

  /** Read on states: where the last consumer may run, every upstream producer
      has reached its target and could run again. */
  lemma ChainHolds(doc: Document, work: map<string, WorkContract>, chain: seq<Transition>, k: nat,
                   facts: Predicates.Facts)
    requires WorkInputsAccepted(doc, work) && DependencyChain(doc, work, chain)
    requires forall t :: t in doc.transitions ==> Valid(t.guard) && Valid(t.target)
    requires 1 <= k < |chain| && Satisfied(chain[0].guard, facts)
    ensures Satisfied(chain[k].target, facts) && Satisfied(chain[k].guard, facts)
  {
    ChainGuarantees(doc, work, chain, k);
    assert Feeds(doc, work, chain[k - 1 + 1], chain[k - 1]) && Feeds(doc, work, chain[0 + 1], chain[0]);
    ImpliesSound(chain[0].guard, chain[k].target, facts);
    ImpliesSound(chain[0].guard, chain[k].guard, facts);
  }
}
