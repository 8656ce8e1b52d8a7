/** The supervisory program: its declaration, the checks that make it a program,
    and its canonical identity. */
module KernelProgram {
  import opened Base
  import opened Ordering

  datatype ObjectiveScope = NoObjective | OptionalPreserve | BoundExact | OtherScope(text: string)
  datatype ObjectiveMutation = Preserve | Bind | Clear | OtherMutation(text: string)

  datatype Transition = Transition(
    id: string, sourceModes: seq<string>, targetMode: string, scope: ObjectiveScope, mutation: ObjectiveMutation,
    capabilities: seq<string>, facets: seq<string>, operation: string, priority: int, recovers: seq<string>)

  datatype Declaration = Declaration(
    schema: int, id: string, version: string, runtime: string, contract: string,
    initialMode: string, markedModes: seq<string>, transitions: seq<Transition>)

  /** The fingerprint of a program is its hashed canonical declaration. */
  datatype Fingerprint = ProgramHash(of: Declaration) | OtherFingerprint(text: string)

  datatype Program = Program(declaration: Declaration, fingerprint: Fingerprint)

  const PROGRAM_SCHEMA := 1

  predicate Alnum(c: char) { 'a' <= c <= 'z' || 'A' <= c <= 'Z' || '0' <= c <= '9' }
  predicate Mark(c: char) { c == '.' || c == '_' || c == '-' }

  predicate SemanticId(s: string) {
    s != "" && Alnum(s[0]) && forall c :: c in s ==> Alnum(c) || Mark(c)
  }

  /** Semantic identifiers joined by slashes. */
  predicate QualifiedId(s: string) {
    && s != "" && Alnum(s[0]) && s[|s| - 1] != '/'
    && (forall c :: c in s ==> Alnum(c) || Mark(c) || c == '/')
    && (forall i :: 0 <= i < |s| - 1 && s[i] == '/' ==> Alnum(s[i + 1]))
  }

  // ----- Identifier lists -----

  predicate ValidName(s: string, qualified: bool) { if qualified then QualifiedId(s) else SemanticId(s) }

  ghost predicate WellFormedIds(values: seq<string>, qualified: bool) {
    Distinct(values) && forall v :: v in values ==> ValidName(v, qualified)
  }

  /** Read on the sorted copy: names are checked one by one, repetitions between
      neighbours. */
  lemma SortedIdsDecide(values: seq<string>, qualified: bool)
    ensures var out := SortStrings(values);
      WellFormedIds(values, qualified) <==>
        (forall k :: 0 <= k < |out| ==> ValidName(out[k], qualified)) &&
          (forall k :: 1 <= k < |out| ==> out[k - 1] != out[k])
  {
    var out := SortStrings(values);
    StringLessTotal();
    SortSorted(StringLess, values);
    AdjacentDecidesDistinct(out);
    DistinctPermuted(out, values);
    if forall k :: 0 <= k < |out| ==> ValidName(out[k], qualified) {
      forall v | v in values ensures ValidName(v, qualified) {
        assert v in out;
        var k :| 0 <= k < |out| && out[k] == v;
      }
    }
    if forall v :: v in values ==> ValidName(v, qualified) {
      forall k | 0 <= k < |out| ensures ValidName(out[k], qualified) { assert out[k] in out; }
    }
  }

  method CanonicalIds(values: seq<string>, qualified: bool) returns (r: Option<seq<string>>)
    ensures r == if WellFormedIds(values, qualified) then Some(SortStrings(values)) else None
  {
    var result := SortStrings(values);
    SortedIdsDecide(values, qualified);
    var i := 0;
    while i < |result|
      invariant 0 <= i <= |result|
      invariant forall k :: 0 <= k < i ==> ValidName(result[k], qualified)
      invariant forall k :: 1 <= k < i ==> result[k - 1] != result[k]
    {
      if !ValidName(result[i], qualified) { return None; }
      if i > 0 && result[i] == result[i - 1] { return None; }
      i := i + 1;
    }
    return Some(result);
  }

  function Unrepeated(values: seq<string>): (r: seq<string>)
    ensures forall v :: v in r <==> v in values
  {
    if values == [] then []
    else
      var n := |values| - 1;
      var rest := Unrepeated(values[..n]);
      assert values == values[..n] + [values[n]];
      if values[n] in rest then rest else rest + [values[n]]
  }

  lemma {:induction false} UnrepeatedDistinct(values: seq<string>)
    ensures Distinct(Unrepeated(values))
  {
    if values != [] { UnrepeatedDistinct(values[..|values| - 1]); }
  }

  /** Capabilities are a set, listed in order. */
  function CapabilityList(values: seq<string>): (r: seq<string>)
    ensures forall v :: v in r <==> v in values
  {
    SortStrings(Unrepeated(values))
  }

  /** The list depends only on which capabilities occur. */
  lemma CapabilityListCanonical(a: seq<string>, b: seq<string>)
    requires forall v :: v in a <==> v in b
    ensures CapabilityList(a) == CapabilityList(b)
  {
    UnrepeatedDistinct(a);
    UnrepeatedDistinct(b);
    DistinctSameElements(Unrepeated(a), Unrepeated(b));
    SortStringsCanonical(Unrepeated(a), Unrepeated(b));
  }

  predicate ValidCapabilities(values: seq<string>) {
    forall v :: v in values ==> SemanticId(v)
  }

  method NormalizeCapabilities(values: seq<string>) returns (r: Option<seq<string>>)
    ensures r == if ValidCapabilities(values) then Some(CapabilityList(values)) else None
  {
    var seen: set<string> := {};
    var i := 0;
    while i < |values|
      invariant 0 <= i <= |values|
      invariant forall k :: 0 <= k < i ==> SemanticId(values[k])
      invariant seen == set v | v in values[..i]
    {
      if !SemanticId(values[i]) { return None; }
      seen := seen + {values[i]};
      assert values[..i + 1] == values[..i] + [values[i]];
      i := i + 1;
    }
    assert values[..i] == values;
    var result: seq<string> := [];
    var remaining := seen;
    while remaining != {}
      invariant remaining <= seen && Distinct(result)
      invariant forall v :: v in result <==> v in seen - remaining
      decreases remaining
    {
      var v :| v in remaining;
      AppendDistinct(result, v);
      result := result + [v];
      remaining := remaining - {v};
    }
    UnrepeatedDistinct(values);
    DistinctSameElements(result, Unrepeated(values));
    SortStringsCanonical(result, Unrepeated(values));
    return Some(SortStrings(result));
  }

  // ----- Transitions -----

  ghost predicate WellFormedLists(t: Transition) {
    && WellFormedIds(t.sourceModes, false) && ValidCapabilities(t.capabilities)
    && WellFormedIds(t.facets, false) && WellFormedIds(t.recovers, true)
  }

  function CanonicalTransition(t: Transition): Transition {
    t.(sourceModes := SortStrings(t.sourceModes), capabilities := CapabilityList(t.capabilities),
       facets := SortStrings(t.facets), recovers := SortStrings(t.recovers))
  }

  method Canonicalize(t: Transition) returns (r: Option<Transition>)
    ensures r == if WellFormedLists(t) then Some(CanonicalTransition(t)) else None
  {
    var modes := CanonicalIds(t.sourceModes, false);
    if modes.None? { return None; }
    var capabilities := NormalizeCapabilities(t.capabilities);
    if capabilities.None? { return None; }
    var facets := CanonicalIds(t.facets, false);
    if facets.None? { return None; }
    var recovers := CanonicalIds(t.recovers, true);
    if recovers.None? { return None; }
    return Some(t.(sourceModes := modes.value, capabilities := capabilities.value, facets := facets.value,
      recovers := recovers.value));
  }

  /** The transition's own rules; identifier lists are checked before. */
  predicate ValidTransition(t: Transition) {
    && QualifiedId(t.id) && t.sourceModes != [] && t.targetMode != ""
    && !t.scope.OtherScope? && !t.mutation.OtherMutation? && QualifiedId(t.operation) && t.priority >= 1
    && t.capabilities != [] && t.facets != []
    && (t.mutation != Preserve ==>
      t.scope == NoObjective && "supervisor.objective" in t.facets && "objective.bind" in t.capabilities)
  }

  predicate ByPriority(a: Transition, b: Transition) {
    a.priority < b.priority || (a.priority == b.priority && StringLess(a.id, b.id))
  }

  // ----- Programs -----

  predicate ValidHeader(d: Declaration) {
    && d.schema == PROGRAM_SCHEMA && SemanticId(d.id) && d.version != "" && d.runtime != "" && d.initialMode != ""
    && d.markedModes != [] && d.transitions != []
    && (d.contract != "" ==> |d.contract| == 64)
  }

  ghost predicate DistinctIds(ts: seq<Transition>) {
    forall i, j :: 0 <= i < j < |ts| ==> ts[i].id != ts[j].id
  }

  predicate Recovers(recoverer: Transition, recovered: Transition) {
    recovered.id in recoverer.recovers && forall m :: m in recovered.sourceModes ==> m in recoverer.sourceModes
  }

  /** A recovery transition preserves the objective and can start wherever what
      it recovers could have started. */
  predicate SoundRecovery(t: Transition, ts: seq<Transition>) {
    && (t.recovers != [] ==> t.scope != BoundExact && t.mutation == Preserve)
    && forall r :: r in t.recovers ==> exists u :: u in ts && u.id == r && Recovers(t, u)
  }

  predicate Covered(t: Transition, ts: seq<Transition>) {
    t.recovers == [] ==> exists u :: u in ts && t.id in u.recovers
  }

  /** The rules across a list of transitions with sorted identifier lists. */
  ghost predicate ClosedUnderRecovery(ts: seq<Transition>) {
    && (forall t :: t in ts ==> ValidTransition(t))
    && DistinctIds(ts)
    && (forall t :: t in ts ==> SoundRecovery(t, ts))
    && (forall t :: t in ts ==> Covered(t, ts))
  }

  function CanonicalTransitions(ts: seq<Transition>): seq<Transition> {
    MapSeq(CanonicalTransition, ts)
  }

  ghost predicate WellFormed(d: Declaration) {
    && ValidHeader(d) && WellFormedIds(d.markedModes, false)
    && AllWellFormed(d.transitions)
    && ClosedUnderRecovery(CanonicalTransitions(d.transitions))
  }

  function CanonicalDeclaration(d: Declaration): Declaration {
    d.(markedModes := SortStrings(d.markedModes), transitions := Sort(ByPriority, CanonicalTransitions(d.transitions)))
  }

  lemma ClosedPermuted(a: seq<Transition>, b: seq<Transition>)
    requires multiset(a) == multiset(b)
    ensures ClosedUnderRecovery(a) <==> ClosedUnderRecovery(b)
  {
    SameElements(a, b);
    MapSeqMultiset((t: Transition) => t.id, a, b);
    var ids := (t: Transition) => t.id;
    DistinctPermuted(MapSeq(ids, a), MapSeq(ids, b));
    DistinctIdsAsNames(a);
    DistinctIdsAsNames(b);
  }

  lemma DistinctIdsAsNames(ts: seq<Transition>)
    ensures DistinctIds(ts) <==> Distinct(MapSeq((t: Transition) => t.id, ts))
  {
    var names := MapSeq((t: Transition) => t.id, ts);
    if DistinctIds(ts) { assert Distinct(names); }
    if Distinct(names) {
      forall i, j | 0 <= i < j < |ts| ensures ts[i].id != ts[j].id { assert names[i] != names[j]; }
    }
  }

  method CanonicalizeAll(ts: seq<Transition>) returns (r: Option<seq<Transition>>)
    ensures r.Some? <==> AllWellFormed(ts)
    ensures r.Some? ==> r.value == CanonicalTransitions(ts)
  {
    var transitions := ts;
    var i := 0;
    while i < |ts|
      invariant 0 <= i <= |ts|
      invariant PartlyRewritten(transitions, ts, CanonicalTransitions(ts), i)
      invariant forall k :: 0 <= k < i ==> WellFormedLists(ts[k])
    {
      var canonical := Canonicalize(transitions[i]);
      if canonical.None? { return None; }
      RewriteStep(transitions, ts, CanonicalTransitions(ts), i);
      transitions := transitions[i := canonical.value];
      i := i + 1;
    }
    Rewritten(transitions, ts, CanonicalTransitions(ts));
    return Some(transitions);
  }

  /** The index of the first i transitions, all valid and no two alike. */
  ghost predicate Indexed(ts: seq<Transition>, i: nat, byId: map<string, Transition>)
    requires i <= |ts|
  {
    && (forall k :: 0 <= k < i ==> ValidTransition(ts[k]))
    && DistinctIds(ts[..i])
    && (forall t :: t in ts[..i] ==> t.id in byId && byId[t.id] == t)
    && (forall n :: n in byId ==> byId[n] in ts[..i] && byId[n].id == n)
  }

  lemma IndexStep(ts: seq<Transition>, i: nat, byId: map<string, Transition>)
    requires i < |ts| && Indexed(ts, i, byId) && ValidTransition(ts[i]) && ts[i].id !in byId
    ensures Indexed(ts, i + 1, byId[ts[i].id := ts[i]])
  {
    var more, t := ts[..i + 1], ts[i];
    assert more == ts[..i] + [t];
    forall j, k | 0 <= j < k < |more| ensures more[j].id != more[k].id {
      assert more[j] in ts[..i];
      if k < i { assert ts[..i][j].id != ts[..i][k].id; }
    }
    assert forall n :: n in byId ==> byId[n] in more;
  }

  lemma RepeatedId(ts: seq<Transition>, i: nat, byId: map<string, Transition>)
    requires i < |ts| && Indexed(ts, i, byId) && ts[i].id in byId
    ensures !DistinctIds(ts)
  {
    var u := byId[ts[i].id];
    var k :| 0 <= k < |ts[..i]| && ts[..i][k] == u;
    assert ts[k].id == ts[i].id;
  }

  /** Fills the index by identity and refuses a repeated one. */
  method IndexTransitions(ts: seq<Transition>) returns (ok: bool, byId: map<string, Transition>)
    ensures ok <==> (forall t :: t in ts ==> ValidTransition(t)) && DistinctIds(ts)
    ensures ok ==> Indexed(ts, |ts|, byId)
  {
    byId := map[];
    var i := 0;
    while i < |ts|
      invariant 0 <= i <= |ts|
      invariant Indexed(ts, i, byId)
    {
      if !ValidTransition(ts[i]) {
        assert ts[i] in ts;
        return false, byId;
      }
      if ts[i].id in byId {
        RepeatedId(ts, i, byId);
        return false, byId;
      }
      IndexStep(ts, i, byId);
      byId := byId[ts[i].id := ts[i]];
      i := i + 1;
    }
    assert ts[..|ts|] == ts;
    return true, byId;
  }

  /** With an index, one lookup decides each recovered identity. */
  lemma LookupDecides(t: Transition, ts: seq<Transition>, byId: map<string, Transition>)
    requires Indexed(ts, |ts|, byId)
    ensures (forall r :: r in t.recovers ==> r in byId && Recovers(t, byId[r])) <==>
            (forall r :: r in t.recovers ==> exists u :: u in ts && u.id == r && Recovers(t, u))
  {
    assert ts[..|ts|] == ts;
    if forall r :: r in t.recovers ==> r in byId && Recovers(t, byId[r]) {
      forall r | r in t.recovers ensures exists u :: u in ts && u.id == r && Recovers(t, u) {
        assert byId[r] in ts;
      }
    }
  }

  method CheckRecoverers(ts: seq<Transition>, byId: map<string, Transition>) returns (ok: bool)
    requires Indexed(ts, |ts|, byId)
    ensures ok <==> forall t :: t in ts ==> SoundRecovery(t, ts)
  {
    var i := 0;
    while i < |ts|
      invariant 0 <= i <= |ts|
      invariant forall k :: 0 <= k < i ==> SoundRecovery(ts[k], ts)
    {
      var t := ts[i];
      LookupDecides(t, ts, byId);
      if t.recovers != [] && (t.scope == BoundExact || t.mutation != Preserve) { return false; }
      if exists r :: r in t.recovers && (r !in byId || !Recovers(t, byId[r])) { return false; }
      i := i + 1;
    }
    return true;
  }

  method CheckCovered(ts: seq<Transition>) returns (ok: bool)
    ensures ok <==> forall t :: t in ts ==> Covered(t, ts)
  {
    var recovered: set<string> := {};
    var i := 0;
    while i < |ts|
      invariant 0 <= i <= |ts|
      invariant recovered == set u, r | u in ts[..i] && r in u.recovers :: r
    {
      recovered := recovered + set r | r in ts[i].recovers;
      assert ts[..i + 1] == ts[..i] + [ts[i]];
      i := i + 1;
    }
    assert ts[..i] == ts;
    i := 0;
    while i < |ts|
      invariant 0 <= i <= |ts|
      invariant forall k :: 0 <= k < i ==> Covered(ts[k], ts)
    {
      if ts[i].recovers == [] && ts[i].id !in recovered {
        assert !Covered(ts[i], ts);
        return false;
      }
      i := i + 1;
    }
    return true;
  }

  /** Rewrites a declaration into canonical order, or refuses it. */
  method Prepare(d: Declaration) returns (r: Option<Declaration>)
    ensures r == if WellFormed(d) then Some(CanonicalDeclaration(d)) else None
  {
    if !ValidHeader(d) { return None; }
    var modes := CanonicalIds(d.markedModes, false);
    if modes.None? { return None; }
    var canonical := CanonicalizeAll(d.transitions);
    if canonical.None? { return None; }
    var sorted := Sort(ByPriority, canonical.value);
    ClosedPermuted(sorted, canonical.value);
    var distinct, byId := IndexTransitions(sorted);
    if !distinct { return None; }
    assert sorted[..|sorted|] == sorted;
    var sound := CheckRecoverers(sorted, byId);
    if !sound { return None; }
    var covered := CheckCovered(sorted);
    if !covered { return None; }
    return Some(d.(markedModes := modes.value, transitions := sorted));
  }

  method Compile(d: Declaration) returns (r: Option<Program>)
    ensures r == if WellFormed(d) then Some(CompiledProgram(d)) else None
  {
    var prepared := Prepare(d);
    if prepared.None? { return None; }
    return Some(Program(prepared.value, ProgramHash(prepared.value)));
  }

  function CompiledProgram(d: Declaration): Program {
    Program(CanonicalDeclaration(d), ProgramHash(CanonicalDeclaration(d)))
  }

  method Validate(p: Program) returns (ok: bool)
    ensures ok <==> ValidProgram(p)
  {
    var prepared := Prepare(p.declaration);
    return prepared.Some? && p.fingerprint == ProgramHash(prepared.value);
  }

  ghost predicate ValidProgram(p: Program) {
    WellFormed(p.declaration) && p.fingerprint == ProgramHash(CanonicalDeclaration(p.declaration))
  }

  // ----- Canonical identity -----

  /** The same transition up to the order of its lists and repeated
      capabilities. */
  ghost predicate SameTransition(t: Transition, u: Transition) {
    && u == t.(sourceModes := u.sourceModes, capabilities := u.capabilities, facets := u.facets, recovers := u.recovers)
    && multiset(t.sourceModes) == multiset(u.sourceModes) && multiset(t.facets) == multiset(u.facets)
    && multiset(t.recovers) == multiset(u.recovers)
    && (forall c :: c in t.capabilities <==> c in u.capabilities)
  }

  ghost predicate SameTransitions(ts: seq<Transition>, us: seq<Transition>, perm: seq<nat>) {
    |ts| == |us| && IsPermutation(perm, |ts|) && forall i :: 0 <= i < |ts| ==> SameTransition(ts[i], us[perm[i]])
  }

  /** The same program written in another order. */
  ghost predicate SameDeclaration(d: Declaration, e: Declaration) {
    && e == d.(markedModes := e.markedModes, transitions := e.transitions)
    && multiset(d.markedModes) == multiset(e.markedModes)
    && exists perm :: SameTransitions(d.transitions, e.transitions, perm)
  }

  lemma SameTransitionCanonical(t: Transition, u: Transition)
    requires SameTransition(t, u)
    ensures CanonicalTransition(t) == CanonicalTransition(u) && (WellFormedLists(t) <==> WellFormedLists(u))
  {
    SortStringsCanonical(t.sourceModes, u.sourceModes);
    SortStringsCanonical(t.facets, u.facets);
    SortStringsCanonical(t.recovers, u.recovers);
    CapabilityListCanonical(t.capabilities, u.capabilities);
    SameIdsWellFormed(t.sourceModes, u.sourceModes, false);
    SameIdsWellFormed(t.facets, u.facets, false);
    SameIdsWellFormed(t.recovers, u.recovers, true);
  }

  lemma SameIdsWellFormed(a: seq<string>, b: seq<string>, qualified: bool)
    requires multiset(a) == multiset(b)
    ensures WellFormedIds(a, qualified) <==> WellFormedIds(b, qualified)
  {
    DistinctPermuted(a, b);
    SameElements(a, b);
  }

  ghost predicate AllWellFormed(ts: seq<Transition>) {
    forall t :: t in ts ==> WellFormedLists(t)
  }

  lemma SameCanonicalTransitions(ts: seq<Transition>, us: seq<Transition>, perm: seq<nat>)
    requires SameTransitions(ts, us, perm)
    ensures multiset(CanonicalTransitions(ts)) == multiset(CanonicalTransitions(us))
  {
    var a, b := CanonicalTransitions(ts), CanonicalTransitions(us);
    forall i | 0 <= i < |ts| ensures a[i] == b[perm[i]] { SameTransitionCanonical(ts[i], us[perm[i]]); }
    RearrangedMultiset(a, b, perm);
  }

  lemma SameAllWellFormed(ts: seq<Transition>, us: seq<Transition>, perm: seq<nat>)
    requires SameTransitions(ts, us, perm)
    ensures AllWellFormed(ts) <==> AllWellFormed(us)
  {
    if AllWellFormed(ts) {
      forall u | u in us ensures WellFormedLists(u) {
        var j :| 0 <= j < |us| && us[j] == u;
        var i := PermutationOnto(perm, |ts|, j);
        SameTransitionCanonical(ts[i], us[perm[i]]);
      }
    }
    if AllWellFormed(us) {
      forall t | t in ts ensures WellFormedLists(t) {
        var i :| 0 <= i < |ts| && ts[i] == t;
        SameTransitionCanonical(ts[i], us[perm[i]]);
      }
    }
  }

  lemma ByPriorityWeak()
    ensures WeakOrder(ByPriority)
  {
    StringLessTotal();
  }

  lemma DistinctIdsUntied(ts: seq<Transition>)
    requires DistinctIds(ts)
    ensures Untied(ByPriority, ts)
  {
    StringLessTotal();
  }

  /** Transitions with different identities have one order. */
  lemma OneOrder(a: seq<Transition>, b: seq<Transition>)
    requires multiset(a) == multiset(b) && ClosedUnderRecovery(a)
    ensures Sort(ByPriority, a) == Sort(ByPriority, b)
  {
    ByPriorityWeak();
    SortSorted(ByPriority, a);
    SortSorted(ByPriority, b);
    ClosedPermuted(a, Sort(ByPriority, a));
    DistinctIdsUntied(Sort(ByPriority, a));
    SortedUniqueOn(ByPriority, Sort(ByPriority, a), Sort(ByPriority, b));
  }

  /** Declaring the same program in another order gives the same program. */
  lemma CompileCanonical(d: Declaration, e: Declaration)
    requires SameDeclaration(d, e)
    ensures WellFormed(d) <==> WellFormed(e)
    ensures WellFormed(d) ==> CompiledProgram(d) == CompiledProgram(e)
  {
    var perm :| SameTransitions(d.transitions, e.transitions, perm);
    SameCanonicalTransitions(d.transitions, e.transitions, perm);
    SameAllWellFormed(d.transitions, e.transitions, perm);
    SameIdsWellFormed(d.markedModes, e.markedModes, false);
    SortStringsCanonical(d.markedModes, e.markedModes);
    var a, b := CanonicalTransitions(d.transitions), CanonicalTransitions(e.transitions);
    ClosedPermuted(a, b);
    SameHeader(d, e);
    if WellFormed(d) { OneOrder(a, b); }
  }

  lemma SameHeader(d: Declaration, e: Declaration)
    requires SameDeclaration(d, e)
    ensures ValidHeader(d) <==> ValidHeader(e)
  {
    SameElements(d.markedModes, e.markedModes);
    assert |d.transitions| == |e.transitions|;
  }

  lemma SameAsCanonicalTransition(t: Transition)
    ensures SameTransition(t, CanonicalTransition(t))
  {
  }

  lemma SameAsCanonical(d: Declaration)
    ensures SameDeclaration(d, CanonicalDeclaration(d))
  {
    var a := CanonicalTransitions(d.transitions);
    var perm := RearrangementExists(a, Sort(ByPriority, a));
    forall i | 0 <= i < |d.transitions| ensures SameTransition(d.transitions[i], Sort(ByPriority, a)[perm[i]]) {
      assert a[i] == Sort(ByPriority, a)[perm[i]];
      SameAsCanonicalTransition(d.transitions[i]);
    }
    assert SameTransitions(d.transitions, Sort(ByPriority, a), perm);
  }

  /** Preparing twice changes nothing. */
  lemma PrepareIdempotent(d: Declaration)
    requires WellFormed(d)
    ensures WellFormed(CanonicalDeclaration(d))
    ensures CanonicalDeclaration(CanonicalDeclaration(d)) == CanonicalDeclaration(d)
  {
    SameAsCanonical(d);
    CompileCanonical(d, CanonicalDeclaration(d));
  }

  /** Validation accepts every compiled program. */
  lemma CompiledIsValid(d: Declaration)
    requires WellFormed(d)
    ensures ValidProgram(CompiledProgram(d))
  {
    PrepareIdempotent(d);
  }

  /** Every non-recovery transition of a program has a recoverer that can start
      wherever it can. */
  lemma RecoveryCoverage(d: Declaration, t: Transition) returns (recoverer: Transition)
    requires WellFormed(d) && t in CanonicalDeclaration(d).transitions && t.recovers == []
    ensures recoverer in CanonicalDeclaration(d).transitions && Recovers(recoverer, t)
    ensures recoverer.scope != BoundExact && recoverer.mutation == Preserve
  {
    var ts := CanonicalDeclaration(d).transitions;
    ClosedPermuted(CanonicalTransitions(d.transitions), ts);
    assert Covered(t, ts);
    recoverer :| recoverer in ts && t.id in recoverer.recovers;
    assert SoundRecovery(recoverer, ts);
    var u :| u in ts && u.id == t.id && Recovers(recoverer, u);
    SameIdSame(ts, t, u);
  }

  lemma SameIdSame(ts: seq<Transition>, t: Transition, u: Transition)
    requires DistinctIds(ts) && t in ts && u in ts && t.id == u.id
    ensures t == u
  {
    var i :| 0 <= i < |ts| && ts[i] == t;
    var j :| 0 <= j < |ts| && ts[j] == u;
  }

  lemma CanonicalIdsDistinct(d: Declaration)
    requires WellFormed(d)
    ensures DistinctIds(CanonicalDeclaration(d).transitions)
  {
    ClosedPermuted(CanonicalTransitions(d.transitions), CanonicalDeclaration(d).transitions);
  }

  lemma CanonicalTransitionsValid(d: Declaration, t: Transition)
    requires WellFormed(d) && CanonicalDeclaration(d) == d && t in d.transitions
    ensures ValidTransition(t) && WellFormedLists(t)
  {
    ClosedPermuted(CanonicalTransitions(d.transitions), CanonicalDeclaration(d).transitions);
  }

  lemma SameMembers(s: seq<string>, t: seq<string>)
    requires forall x :: x in s <==> x in t
    ensures s == [] <==> t == []
  {
    if s != [] { assert s[0] in t; }
    if t != [] { assert t[0] in s; }
  }

  lemma CanonicalKeepsRules(t: Transition)
    ensures ValidTransition(CanonicalTransition(t)) <==> ValidTransition(t)
    ensures CanonicalTransition(t).recovers == [] <==> t.recovers == []
  {
    var c := CanonicalTransition(t);
    SameMembers(t.sourceModes, c.sourceModes);
    SameMembers(t.capabilities, c.capabilities);
    SameMembers(t.facets, c.facets);
    SameMembers(t.recovers, c.recovers);
  }

  lemma CanonicalSound(t: Transition, ts: seq<Transition>)
    requires SoundRecovery(t, ts)
    ensures SoundRecovery(CanonicalTransition(t), CanonicalTransitions(ts))
  {
    CanonicalKeepsRules(t);
    forall r | r in t.recovers
      ensures exists u :: u in CanonicalTransitions(ts) && u.id == r && Recovers(CanonicalTransition(t), u)
    {
      var u :| u in ts && u.id == r && Recovers(t, u);
      var i :| 0 <= i < |ts| && ts[i] == u;
      assert CanonicalTransitions(ts)[i] == CanonicalTransition(u);
    }
  }

  lemma CanonicalCovered(t: Transition, ts: seq<Transition>)
    requires Covered(t, ts)
    ensures Covered(CanonicalTransition(t), CanonicalTransitions(ts))
  {
    CanonicalKeepsRules(t);
    if t.recovers == [] {
      var u :| u in ts && t.id in u.recovers;
      var i :| 0 <= i < |ts| && ts[i] == u;
      assert CanonicalTransitions(ts)[i] == CanonicalTransition(u);
    }
  }

  /** The rules across transitions may be read off the declaration as it is
      written. */
  lemma ClosedAsWritten(ts: seq<Transition>)
    requires ClosedUnderRecovery(ts)
    ensures ClosedUnderRecovery(CanonicalTransitions(ts))
  {
    forall c | c in CanonicalTransitions(ts)
      ensures ValidTransition(c) && SoundRecovery(c, CanonicalTransitions(ts)) && Covered(c, CanonicalTransitions(ts))
    {
      var i :| 0 <= i < |ts| && CanonicalTransition(ts[i]) == c;
      assert ts[i] in ts;
      CanonicalKeepsRules(ts[i]);
      CanonicalSound(ts[i], ts);
      CanonicalCovered(ts[i], ts);
    }
  }
}
