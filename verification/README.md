# Boatstack: the supervisor, its review program and declarative flows, verified

This project models the decision-making core of Boatstack in Dafny and proves
what it promises. Three parts hang together.

**The kernel and the review program.** A supervisor resolves a prescription from
a durable control state and a domain observation, rechecks it, records an
attempt, lets an operator act, verifies the result and commits state and receipt
together. `boatstack-reviewer` runs a review loop on it: candidates are staged,
rounds are archived in a journal, and a converged review is sealed. Store and
journal are two files; a process can be cut off between any two writes.
`KernelProgram`, `KernelRelation`, `KernelRuntime`, `KernelApply` and
`KernelMachine` model the kernel; `DiffLines`, `ReviewLaw`, `ReviewStore`,
`ReviewLedger`, `ReviewMachine`, `ReviewSafety`, `ReviewResults`,
`ReviewProgress`, `ReviewReach`, `Seal` and `ReviewExamples` the review.

**Predicates and declarative flows.** Guards are boolean trees over facts. The
compiler decides implication between them, normalizes them and checks that a
flow cannot fail at its effect; the runtime evaluates them and keeps a ledger of
receipts. `Predicates`, `Normalize`, `CycleCheck`, `ControlProgram`,
`DeclarativeFlow`, `DeclarativeRun` and `DeclarativeExamples`.

**Input requests.** Questions to the host are immutable, hash-linked
generations; an answer counts for one generation only. `Invocation`,
`RequestStore`, `RequestHistory` and `RequestExamples`. `Base` and `Ordering` hold
what all share.

## How it is modelled

Code that changes state in place is a class or a method over an array, proved
against a function of its inputs; machines are functions on states, and the main
results hold for every sequence of events. A content hash is the content itself
under an injective constructor. The domain, the operator, the clock, authority
receipts, the repository and the moment a process dies are arbitrary: they are
parameters of events. Byte order of encoded predicates is an arbitrary total
order. Revisions are 64-bit counters that wrap. Sorting is modelled by one
insertion sort; where the program's sort is not stable, a lemma says that any
sorted arrangement gives the same answer.

The review machine performs one file write per event. Staging is not locked in
the program, so both staging files may change at any moment, to anything. For
each round the machine remembers the revision of the attempt that wrote it; a
receipt owns a round when it was committed from that revision. What is proved
about reviews holds for every runtime with the transition table of the review
program; `ReviewLaw.ReviewFollowsTable` shows that the compiled program has it.

## What the code does not do

Some expectations are false of the code. For each, lemmas say exactly when the
code meets it, and show an input or a run for which it does not.

- A chain of kernel receipts is required to be gapless, but an interrupted
  attempt takes a revision without leaving a receipt. Recovery is therefore not
  enough: after any interruption later than the first receipt sealing is refused
  for good (`Seal.InterruptionSpoils`, `Seal.NeverSealsAgain`, `Seal.SealExactly`;
  a run in `ReviewExamples.BothSealsExist`).
- An interrupted staging leaves a candidate that cannot be read, and then not
  even recovery can be resolved, since every resolve observes first. Staging
  again repairs it (`ReviewStore.StagingTears`, `ReviewStore.RestagingRepairs`).
- Left anchors of files below a directory named `b` lose that directory
  (`DiffLines.RemovedBelowB`, `DiffLines.PrintedDiffExactly`).
- The static check of a declarative flow does not look at the statuses a target
  asks of a facet the effect leaves alone (`DeclarativeFlow.SecuredExactly`,
  `DeclarativeRun.CheckedFlowFailsExactly`; a run in
  `DeclarativeExamples.AcceptedFlowFails`).
- A declarative run records the actor it was given even where no human authority
  is asked for, and is then rejected by every later load
  (`DeclarativeRun.CommitKeepsLedger`, `DeclarativeRun.RunsStayLoadable`,
  `DeclarativeRun.RefusedForEver`; a run in
  `DeclarativeExamples.UnaskedActorEndsRun`).
- A declarative run that the caller names is saved before its entry inputs are
  checked. With invalid inputs the call fails and leaves a run that no later call
  can use, whatever inputs it brings (`DeclarativeRun.NamedRunSavedFirst`; a run in
  `DeclarativeExamples.UnstartedRunStays`).
- Superseding a request has no effect on the declarative path. It accepts the
  answers to the first generation even after that was superseded, ignores the
  answers to any later one, and asks nothing any more; it rests on the newest
  generation exactly when nothing was superseded
  (`RequestHistory.DeclarativeReadyRests`, `RequestHistory.DeclarativeAgrees`,
  `RequestHistory.DeclarativeNeverAsksAgain`,
  `RequestHistory.DeclarativeIgnoresLater`; a history in
  `RequestExamples.DeclarativeUsesSuperseded`).
- With one identity on two candidates, the relation's trace marks both selected
  (`KernelRelation.RepeatedIdentitySelectsTwice`,
  `KernelRelation.TraceAgreesWithDecision`).

## Model

| member | source | states |
|---|---|---|
| Predicates.ImpliesSound | boatstack/controlprogram/invocation_compile.go:464-500 | on every fact map, if the guard holds and implication says yes, the condition holds too |
| Predicates.ImpliesTransitive | boatstack/controlprogram/invocation_compile.go:464-500 | implication is transitive: the cut can be eliminated, whatever the shapes of the three guards |
| Predicates.ImpliesIsLatticeOrder | boatstack/controlprogram/invocation_compile.go:464-500 | implication is a preorder in which a conjunction is a meet and a disjunction a join |
| Predicates.ImpliesIsLeast | boatstack/controlprogram/invocation_compile.go:464-500 | whatever implication accepts, every order of that kind accepts |
| Predicates.ImpliesCharacterized | boatstack/controlprogram/invocation_compile.go:464-500 | implication is exactly the least such order: it says yes if and only if every lattice order does |
| Predicates.LeftInversion | boatstack/controlprogram/invocation_compile.go:464-500 | what follows from a disjunction follows from each of its branches |
| Predicates.RightInversion | boatstack/controlprogram/invocation_compile.go:464-500 | what implies a conjunction implies each of its conjuncts |
| Predicates.RequiresKnownFacetSound | boatstack/controlprogram/invocation_compile.go:502-529 | a guard that requires a known facet holds only where the facet has a value |
| Predicates.RequiresFacetValueSound | boatstack/cmd/boatstack-helper/flow_command.go:440-470 | a guard that requires one of some values holds only where the facet has one of them |
| Normalize.NormalizedValues | boatstack/controlprogram/canonical.go:857-865 | accepts a value list exactly when no value is empty or repeated, and returns it sorted |
| Normalize.NormalizePredicate | boatstack/controlprogram/canonical.go:696-764 | accepts exactly the predicates whose every node has one variant and valid facts, and returns their canonical form |
| Normalize.NormalizeChildren | boatstack/controlprogram/canonical.go:702-725 | normalizes the children of one node in place and sorts them |
| Normalize.CanonicalDecidesReordering | boatstack/controlprogram/canonical.go:696-772 | two predicates have the same canonical form if and only if one is the other with children and values reordered at any depth |
| Normalize.CanonicalIdempotent | boatstack/controlprogram/canonical.go:696-772 | normalizing twice gives the same as normalizing once |
| Normalize.CanonicalSatisfied | boatstack/controlprogram/canonical.go:696-772 | the canonical form is true on exactly the same fact maps |
| Normalize.NormalizationKeepsImplication | boatstack/controlprogram/canonical.go:696-772 | what was implied before normalization is implied after it |
| CycleCheck.CycleFinder.Visit | boatstack/delivery/control.go:1037-1056 | one depth-first visit from any state of the search: what it closes has no cycle, what it reports lies on one |
| CycleCheck.ParameterDependencyCycle | boatstack/controlprogram/invocation_compile.go:556-583 | the empty name exactly when the graph restricted to known nodes is acyclic; a reported node lies on a cycle; in any visiting order |
| CycleCheck.ValidateDependencies | boatstack/delivery/control.go:1027-1063 | clean exactly when the graph is acyclic and every dependency is known; the reported culprit is one |
| ControlProgram.NormalizeProducer | boatstack/controlprogram/invocation_compile.go:237-398 | accepts a producer exactly when its kind's own rules hold; rewrites nothing but its availability predicate and authorities into canonical order and its resolver to the pinned asset |
| ControlProgram.ResolverDrift | boatstack/controlprogram/invocation_compile.go:371-386 | a pinned resolver is accepted again exactly where it still resolves to the same asset with the same output type |
| ControlProgram.NormalizeBindings | boatstack/controlprogram/invocation_compile.go:182-235 | accepts the bindings of a transition exactly when each names one declared parameter and has an accepted producer; collects their dependency graph |
| ControlProgram.NormalizeInvocation | boatstack/controlprogram/invocation_compile.go:182-235 | accepts a transition exactly when its invocation is complete: accepted bindings, one per parameter, every required parameter bound, no dependency cycle |
| ControlProgram.NormalizeOperatorStateInputs | boatstack/controlprogram/invocation_compile.go:69-97 | accepts the state inputs of an operator exactly when it is a trusted binding or declares none, and each names a different state-capable parameter, a compatible facet and a predicate that requires the facet known; sorts them |
| ControlProgram.NormalizeOperatorReceiptInputs | boatstack/controlprogram/invocation_compile.go:99-125 | accepts receipt inputs exactly when the operator is a trusted binding or declares none, and each names a different receipt-capable parameter and a well-formed source; sorts them |
| ControlProgram.DeclaredStateKnown | boatstack/controlprogram/invocation_compile.go:91-93 | where the availability a trusted binding declares holds, its facet has a value |
| ControlProgram.StateParameterAvailable | boatstack/controlprogram/invocation_compile.go:263-283 | for an inline operator, compiled by the rules above, whenever the guard of the transition holds, the facet of every state-sourced parameter has a value |
| ControlProgram.InlineSources | boatstack/controlprogram/invocation_compile.go:69-102 | the parameters of an inline operator, compiled by the rules above, come from entry inputs, state, work outputs, a resolver or the host, never from receipts |
| ControlProgram.NormalizePreconditions | boatstack/controlprogram/canonical.go:643-663 | accepts preconditions exactly when each names one declared facet with valid values and none is repeated |
| ControlProgram.CheckAssignments | boatstack/controlprogram/canonical.go:664-690 | accepts assignments exactly when each names one declared facet once and has one source |
| ControlProgram.NormalizeStateEffect | boatstack/controlprogram/canonical.go:632-694 | accepts a state effect exactly when its form, preconditions and assignments are valid; orders both by facet |
| ControlProgram.NormalizeWorkInputProducers | boatstack/controlprogram/canonical.go:257-317 | accepts work inputs exactly when each has one source and each output source is produced by ordered transitions whose targets the consumer's guard implies |
| ControlProgram.ChainGuarantees | boatstack/controlprogram/canonical.go:286-312 | along any chain of work dependencies the last consumer's guard implies every producer's target and guard, and priorities strictly decrease |
| ControlProgram.WorkDependenciesAcyclic | boatstack/controlprogram/canonical.go:286-312 | a chain of work dependencies never returns to where it began |
| ControlProgram.ChainHolds | boatstack/controlprogram/canonical.go:286-312 | where the last consumer's guard holds, every upstream target and guard holds |
| Invocation.CollectHostParameters | boatstack/invocation/invocation.go:398-411 | collects exactly the host-bound parameters of the contracts, in order |
| Invocation.InputRequestForHostBindings | boatstack/invocation/invocation.go:398-421 | builds the one request for the host-bound parameters, with the context's generation and lineage |
| Invocation.ReadParameters | boatstack/invocation/invocation.go:243-266 | reads parameters one by one up to the first that stops the materialization |
| Invocation.Materialize | boatstack/invocation/invocation.go:224-284 | the outcome of a materialization: rejected, blocked, requested or ready with its evidence |
| Invocation.RequestedIsHostRequest | boatstack/invocation/invocation.go:224-284 | a request that is handed out is exactly the one built from the host bindings |
| Invocation.ReadyComplete | boatstack/invocation/invocation.go:224-284 | when ready, every bound parameter was resolved and is in the evidence |
| Invocation.ReadySound | boatstack/invocation/invocation.go:286-324 | when ready, every parameter in the evidence belongs to a contract, has its type, and passes its validation |
| Invocation.ReadyAnswered | boatstack/invocation/invocation.go:326-364 | when ready, every host-bound parameter has a receipt for exactly the current request |
| RequestStore.Store.SaveRequest | boatstack/invocation/store.go:53-63 | saves a request once: the same content again succeeds, other content under its name fails, nothing is overwritten |
| RequestStore.Store.SaveReceipt | boatstack/invocation/store.go:185-195 | saves a receipt once, like a request |
| RequestStore.Store.GatherGenerations | boatstack/invocation/store.go:123-152 | gathers one request per generation of the context, or shows that no chain exists |
| RequestStore.WalkGenerations | boatstack/invocation/store.go:153-174 | follows the generations from the first and stops exactly where one is missing or not linked to the one before |
| RequestStore.Store.LatestRequest | boatstack/invocation/store.go:123-174 | answers with the last request of the chain, with nothing, or with corruption exactly when the stored requests of the context form no chain |
| RequestStore.CompleteChain | boatstack/invocation/store.go:153-174 | as many linked generations as there are requests of the context leave no gap and no stray request |
| RequestStore.Store.RecordAnswers | boatstack/cmd/boatstack-helper/input_command.go:253-327 | records one sealed answer per requested parameter; stopping part way leaves only answers it had recorded, and success leaves all |
| RequestHistory.NewestStored | boatstack/cmd/boatstack-helper/flow_runtime.go:887-892 | reads the newest request of an identity, or reports corruption exactly when there is no chain |
| RequestHistory.ResumeTransition | boatstack/cmd/boatstack-helper/flow_runtime.go:879-920 | one materialization on the repository path: what it leaves on disk and when it fails |
| RequestHistory.SupersedeCommand | boatstack/cmd/boatstack-helper/input_command.go:109-151 | the supersede command writes the successor of the newest answered request, or nothing |
| RequestHistory.HistoryKeepsChain | boatstack/invocation/store.go:123-174 | over every history of materialize, answer and supersede the store holds exactly the generations 1 to n, hash-linked, all but the newest fully answered |
| RequestHistory.StepKeepsChain | boatstack/cmd/boatstack-helper/input_command.go:109-151 | every event keeps the chain or extends it by one generation, and only a fully answered generation gets a successor |
| RequestHistory.ContinuedRequest | boatstack/invocation/invocation.go:398-421 | rebuilding from the newest generation and lineage reproduces the newest request itself |
| RequestHistory.OnlyLatestAnswersCount | boatstack/invocation/invocation.go:326-364 | when ready, the answers used are those of the newest generation; no receipt of an earlier one can make it ready |
| RequestHistory.RecordsImmutable | boatstack/invocation/store.go:281-297 | no event changes or removes a stored request or receipt |
| RequestHistory.DeclarativeRequestIsLatest | boatstack/cmd/boatstack-helper/declarative_flow.go:427-465 | the declarative path builds the first generation's request, which is the newest exactly when nothing was superseded |
| RequestHistory.DeclarativeAgrees | boatstack/cmd/boatstack-helper/declarative_flow.go:427-465 | its context is the one the repository path would use if and only if nothing was superseded |
| RequestHistory.DeclarativeReadyRests | boatstack/cmd/boatstack-helper/declarative_flow.go:449-463 | when the declarative path is ready, every host-bound parameter has the value of the current receipt for the first generation; that is the newest generation exactly when nothing was superseded |
| RequestHistory.DeclarativeNeverAsksAgain | boatstack/cmd/boatstack-helper/declarative_flow.go:449-463 | once the first generation is fully answered, the declarative path never asks |
| RequestHistory.DeclarativeIgnoresLater | boatstack/cmd/boatstack-helper/declarative_flow.go:449-463 | no answer to any other generation changes what the declarative path comes to |
| RequestHistory.DeclarativeOverHistory | boatstack/cmd/boatstack-helper/declarative_flow.go:449-463 | over every history: once anything was superseded the declarative path asks nothing any more |
| RequestExamples.DeclarativeUsesSuperseded | boatstack/cmd/boatstack-helper/declarative_flow.go:427-465 | a history of asking, answering and superseding, with the sealed answer the program records, after which the declarative path is ready on the superseded answer, while the repository path asks for the newest generation |
| DeclarativeFlow.ValidateDeclarativeFlow | boatstack/cmd/boatstack-helper/flow_command.go:344-427 | accepts a document exactly when every entry, operator, transition, producer and assignment is of a supported form and every target is established |
| DeclarativeFlow.SecuredHolds | boatstack/cmd/boatstack-helper/flow_command.go:472-517 | an established target that also admits the status `known` where it is taken from the guard holds after the effect, wherever the guard held before; one such branch of a disjunction is enough |
| DeclarativeFlow.SecuredExactly | boatstack/cmd/boatstack-helper/flow_command.go:472-517 | on targets without negation whose facts the effect or the guard settle, disjunctions included, it holds afterwards if and only if it is secured in this way |
| DeclarativeFlow.EstablishedCompared | boatstack/cmd/boatstack-helper/flow_command.go:472-517 | the checker accepts whatever is secured; what it accepts is secured if every fact admits `known`, and settled if nothing is disjoined |
| DeclarativeFlow.StatusesAreIgnored | boatstack/cmd/boatstack-helper/flow_command.go:494-497 | one effect, guard and target the checker accepts together, although the target is false after the effect on every fact map the guard admits: statuses of an unassigned facet are not looked at |
| DeclarativeFlow.FrontierExact | boatstack/cmd/boatstack-helper/declarative_flow.go:467-485 | offered is exactly what is enabled with the least priority; something is offered whenever anything is enabled |
| DeclarativeFlow.SelectTransitions | boatstack/cmd/boatstack-helper/declarative_flow.go:467-485 | computes the offered transitions in one pass, in order of identity |
| DeclarativeFlow.NormalizedEffectCompiled | boatstack/controlprogram/canonical.go:632-694 | a normalized effect assigns no facet twice and gives each assignment one source |
| DeclarativeFlow.CheckedEffectSucceeds | boatstack/cmd/boatstack-helper/declarative_flow.go:538-563 | the effect of a checked transition always applies: preconditions hold and every assigned parameter is present; its target holds if it is secured and, where it is settled, only then |
| DeclarativeRun.LedgerAccepted | boatstack/cmd/boatstack-helper/declarative_flow.go:394-414 | accepts a saved run exactly when its receipts form a contiguous chain from revision 1 to the current one, with correct prior links and authority |
| DeclarativeRun.ValidateEntryInputs | boatstack/cmd/boatstack-helper/declarative_flow.go:565-580 | accepts inputs exactly when every required one is given and none is blank or undeclared |
| DeclarativeRun.Run.Load | boatstack/cmd/boatstack-helper/declarative_flow.go:371-425 | finds or creates the run file and checks origin, ledger and inputs, in the program's order; what it leaves on disk when it refuses |
| DeclarativeRun.Run.ApplyAssignments | boatstack/cmd/boatstack-helper/declarative_flow.go:538-563 | applies the effect to the fact map in memory, assignment by assignment, up to the first failure |
| DeclarativeRun.Run.RunChosen | boatstack/cmd/boatstack-helper/declarative_flow.go:175-294 | one transition of a run: outcome and saved state |
| DeclarativeRun.Run.Call | boatstack/cmd/boatstack-helper/declarative_flow.go:107-294 | one call of a run: what it answers and what it saves |
| DeclarativeRun.CheckedFlowNeverFailsAtEffect | boatstack/cmd/boatstack-helper/declarative_flow.go:256-270 | no call of a checked flow that chooses a transition with a secured target fails at its effect, whatever the run, the options and the outside world |
| DeclarativeRun.CheckedFlowFailsExactly | boatstack/cmd/boatstack-helper/declarative_flow.go:256-270 | where the target of the chosen transition is settled, a call of a checked flow that gets as far as its effect fails if and only if that target is not secured |
| DeclarativeExamples.AcceptedFlowFails | boatstack/cmd/boatstack-helper/flow_command.go:494-497 | a flow the checker accepts and a run of it, created with its entry input, whose second call fails at its effect |
| DeclarativeRun.CommitKeepsLedger | boatstack/cmd/boatstack-helper/declarative_flow.go:256-281 | a committed call leaves a run the loader accepts if and only if an actor was recorded only where human authority was asked for |
| DeclarativeRun.RunsStayLoadable | boatstack/cmd/boatstack-helper/declarative_flow.go:383-420 | over all calls: nothing stored in a run makes the loader refuse it if and only if it was created with valid inputs and every committed call named an actor only where one was asked for |
| DeclarativeRun.RefusedForEver | boatstack/cmd/boatstack-helper/declarative_flow.go:403-405 | a run that is not loadable is never changed by a later call, and every later call fails |
| DeclarativeRun.NamedRunSavedFirst | boatstack/cmd/boatstack-helper/declarative_flow.go:372-420 | a run named by the caller is saved before its inputs are checked; what is saved is loadable if and only if they are valid and no unasked actor was recorded |
| DeclarativeRun.DerivedRunChecked | boatstack/cmd/boatstack-helper/declarative_flow.go:373-377 | a run whose identity is derived from its inputs is never created with invalid ones: it is loadable unless an unasked actor was recorded |
| DeclarativeExamples.UnaskedActorEndsRun | boatstack/cmd/boatstack-helper/declarative_flow.go:400-405 | a run of an accepted flow whose first call commits with an actor nobody asked for, and whose every later call fails |
| DeclarativeExamples.UnstartedRunStays | boatstack/cmd/boatstack-helper/declarative_flow.go:378-420 | a run created under a name of its own without its required input: it is saved, and no later call on it, with whatever inputs, succeeds |
| DeclarativeRun.SelectedStateAvailable | boatstack/invocation/invocation.go:286-293 | whenever a transition of an inline flow is selected, none of its state-sourced parameters is unavailable |
| KernelProgram.CanonicalIds | boatstack/kernel/program.go:182-208 | accepts a list of identifiers exactly when all are well-formed and none repeats, and returns it sorted |
| KernelProgram.NormalizeCapabilities | boatstack/kernel/types.go:226-240 | accepts a list of capabilities exactly when all are well-formed, and returns their set in order |
| KernelProgram.Canonicalize | boatstack/kernel/program.go:61-76 | a transition with each of its lists in canonical order, or a refusal |
| KernelProgram.IndexTransitions | boatstack/kernel/program.go:140-149 | fills the index exactly when every transition is valid and no identity repeats |
| KernelProgram.CheckRecoverers | boatstack/kernel/program.go:150-165 | every recovery transition preserves the objective and can start wherever what it recovers could |
| KernelProgram.CheckCovered | boatstack/kernel/program.go:166-179 | every other transition is recovered by some transition |
| KernelProgram.Prepare | boatstack/kernel/program.go:116-180 | accepts exactly the well-formed declarations and returns them in canonical order |
| KernelProgram.Compile | boatstack/kernel/program.go:100-114 | the compiled program and its fingerprint, exactly for the well-formed declarations |
| KernelProgram.Validate | boatstack/kernel/program.go:210-223 | accepts a program exactly when its fingerprint identifies its canonical form |
| KernelProgram.CompileCanonical | boatstack/kernel/program.go:100-180 | the same program declared in any other order of transitions, modes, facets, recoveries and capabilities, capabilities also repeated, compiles to the same program and fingerprint |
| KernelProgram.PrepareIdempotent | boatstack/kernel/program.go:116-180 | preparing a prepared declaration changes nothing |
| KernelProgram.CompiledIsValid | boatstack/kernel/program.go:210-223 | validation accepts every compiled program |
| KernelProgram.RecoveryCoverage | boatstack/kernel/program.go:150-179 | every non-recovery transition has a recoverer that can start wherever it can and preserves the objective |
| KernelRelation.MissingAuthority | boatstack/kernel/relation.go:174-199 | the required capabilities that are not available, in order |
| KernelRelation.NothingMissing | boatstack/kernel/relation.go:174-199 | nothing is missing exactly when all of the required and one of the alternative capabilities are available |
| KernelRelation.TraceAuthority | boatstack/kernel/relation.go:140-172 | the authority part of a candidate's trace |
| KernelRelation.TraceAgreesWithAuthority | boatstack/kernel/relation.go:140-199 | the trace is satisfied exactly when nothing is missing |
| KernelRelation.FilterInPlace | boatstack/kernel/relation.go:80-87 | filters a slice onto its own front, keeping order |
| KernelRelation.Choose | boatstack/kernel/relation.go:77-137 | decides on a copy of the candidates: filter, sort, ties, authority |
| KernelRelation.Relate | boatstack/kernel/relation.go:44-138 | the decision and the trace of every candidate; the caller's candidates are not written |
| KernelRelation.PrescribedExactly | boatstack/kernel/relation.go:112-137 | prescribed is exactly the unique (rank, priority) minimum of the eligible candidates, with its authority met; nothing else, except where the caller asked for it by default |
| KernelRelation.DecideRearranged | boatstack/kernel/relation.go:44-138 | the decision does not depend on the order of the candidates, nor on the order or repetition of the available capabilities |
| KernelRelation.SelectAnyArrangement | boatstack/kernel/relation.go:112-137 | an unstable sort may arrange equal keys in any way without changing the decision |
| KernelRelation.TraceAgreesWithDecision | boatstack/kernel/relation.go:54-75 | some entry is selected exactly when the candidates hold an authorized unique minimum (no default being asked for), and exactly one entry exactly when that candidate's identity is not repeated among the candidates |
| KernelRelation.RepeatedIdentitySelectsTwice | boatstack/kernel/relation.go:64-65 | two candidates with one identity: both entries of the trace are marked selected |
| KernelRelation.NeverAmbiguous | boatstack/kernel/relation.go:112-132 | with different priorities a frontier names one candidate |
| KernelRuntime.Project | boatstack/kernel/types.go:188-219 | accepts authority receipts exactly when all are valid now and none repeats; their capabilities and fingerprint |
| KernelRuntime.AuthorityCanonical | boatstack/kernel/types.go:188-219 | the order in which receipts are presented does not matter |
| KernelRuntime.Collect | boatstack/kernel/runtime.go:225-283 | the candidates of the relation: the transitions that pass the request, mode, recovery, objective and domain filters, with their capabilities |
| KernelRuntime.Resolve | boatstack/kernel/runtime.go:195-310 | the resolution of a state and an observation: its decision and its prescription |
| KernelApply.Store.BeginEffect | boatstack/kernel/runtime.go:64-72 | records an attempt on the revision the writer has seen, and changes nothing otherwise |
| KernelApply.Store.CommitTransition | boatstack/kernel/runtime.go:64-72 | replaces state and adds the receipt together, on the revision the writer has seen |
| KernelApply.PrepareFlight | boatstack/kernel/runtime.go:359-411 | everything decided before the attempt is recorded, with one reading of the clock for the authority check and a later one for the resolution |
| KernelApply.Apply | boatstack/kernel/runtime.go:359-469 | one call of apply: nothing changes unless the attempt is saved; a saved attempt stays until the commit replaces it together with its receipt |
| KernelMachine.RunKeeps | boatstack/kernel/runtime.go:359-469 | the kernel's invariants over every run of attempts, commits and interruptions |
| KernelMachine.RevisionAccounting | boatstack/kernel/runtime.go:398-448 | over every run the revision is one, plus two for each commit, plus one for each other attempt, up to the 64-bit wrap, after which nothing begins |
| KernelMachine.BegunOnce | boatstack/kernel/runtime.go:376-411 | over every run the effect of a prescription is begun at most once |
| KernelMachine.OnlyCommitsMove | boatstack/kernel/runtime.go:435-466 | only a commit changes the mode or the objective binding or adds a receipt; it takes the mode and binding its transition declares, and its receipt names the prescription, the transition, the revisions and the observation it came from |
| KernelMachine.BeginsExactlyWhatResolves | boatstack/kernel/runtime.go:376-411 | an attempt begins exactly when the authority can be presented at the first reading of the clock and the prescription is the one resolved at the second: against an unchanged world it is never stale, against a changed one always |
| KernelMachine.ResolvedLater | boatstack/kernel/runtime.go:195-224 | the clock matters to a resolution only through the receipts it lets expire |
| KernelMachine.LaunchSound | boatstack/kernel/runtime.go:376-411 | what an attempt that began is known to satisfy |
| KernelMachine.OwnReceiptValid | boatstack/kernel/runtime.go:449-499 | the kernel accepts the receipt it builds itself, except for a missing time or an unidentified target observation |
| KernelMachine.RecoveryHasWayOut | boatstack/kernel/program.go:152-178 | in every reachable state with recovery pending, the recorded transition is a non-recovery one enabled in the current mode, and a declared recoverer passes the mode, recovery and objective filters |
| KernelMachine.WayOutIsPrescribed | boatstack/kernel/runtime.go:219-310 | requesting that recoverer is prescribed as soon as the domain admits it and the authority suffices |
| KernelMachine.WayOutObjective | boatstack/kernel/runtime.go:556-591 | no objective, and none missing, ever keeps a recoverer back |
| KernelMachine.ChainedExactly | boatstack/cmd/boatstack-reviewer/seal.go:378-405 | over every run the receipt chain is intact exactly when nothing is in flight and no attempt was interrupted after the first commit |
| DiffLines.ChangedLines | boatstack/cmd/boatstack-reviewer/candidate.go:207-254 | one pass over the lines of a diff collects what the scan of those lines defines |
| DiffLines.PrintedDiffRead | boatstack/cmd/boatstack-reviewer/candidate.go:207-254 | of any printed zero-context diff it finds exactly the added lines on the right and exactly the removed lines, under their left names, on the left, whatever the content looks like |
| DiffLines.PrintedDiffExactly | boatstack/cmd/boatstack-reviewer/candidate.go:256-267 | it finds exactly the changed lines if and only if no removed line belongs to a file below a directory named `b` |
| DiffLines.RemovedBelowB | boatstack/cmd/boatstack-reviewer/candidate.go:264-265 | a line removed from `b/x` is read as a line of `x` |
| DiffLines.HunkLineRead | boatstack/cmd/boatstack-reviewer/candidate.go:203-228 | the starts of a printed hunk header are read back, with and without counts |
| DiffLines.AnchorFails | boatstack/cmd/boatstack-reviewer/candidate.go:160-179 | an anchor passes exactly when its whole range, not empty, consists of changed lines of its side |
| ReviewLaw.EvaluateCandidate | boatstack/cmd/boatstack-reviewer/candidate.go:83-147 | the summary of a candidate: validity, measure, blocking measure and counts |
| ReviewLaw.NothingBlocks | boatstack/cmd/boatstack-reviewer/candidate.go:131-138 | the blocking measure is zero exactly when no finding blocks |
| ReviewLaw.StallCheck | boatstack/cmd/boatstack-reviewer/candidate.go:285-301 | stalled exactly when none of the last max(2, StallWindow) blocking measures is below the one before it |
| ReviewLaw.SubmissionDisposition | boatstack/cmd/boatstack-reviewer/domain.go:128-168 | the one submission an observation admits, if any |
| ReviewLaw.ReviewCompiles | boatstack/cmd/boatstack-reviewer/program.go:50-126 | the review program is well-formed under every contract hash |
| ReviewLaw.ReviewRuntimeValid | boatstack/cmd/boatstack-reviewer/program.go:128-144 | the review program and its classifier make a runtime: every transition is classified |
| ReviewLaw.ReviewFollowsTable | boatstack/cmd/boatstack-reviewer/program.go:50-144 | under every contract hash the runtime has exactly the transitions of the review program, each with its own modes, capability, priority and recoveries; this is what every result about reviews assumes of a runtime |
| ReviewLaw.ReviewNeverAmbiguous | boatstack/cmd/boatstack-reviewer/program.go:50-126 | resolving the review program never reports an ambiguous frontier |
| ReviewStore.ReadCurrentRounds | boatstack/cmd/boatstack-reviewer/store.go:195-203 | the rounds of the active generation, in order |
| ReviewStore.FileStore.BeginEffect | boatstack/cmd/boatstack-reviewer/store.go:143-153 | records an attempt on the revision it has seen |
| ReviewStore.FileStore.CommitTransition | boatstack/cmd/boatstack-reviewer/store.go:155-166 | state and receipt become visible together, on the revision it has seen |
| ReviewStore.FileStore.StageCandidate | boatstack/cmd/boatstack-reviewer/store.go:205-217 | what is on disk after any number of its two writes |
| ReviewStore.FileStore.ArchiveRound | boatstack/cmd/boatstack-reviewer/store.go:252-269 | what is on disk after any number of its four writes |
| ReviewStore.FileStore.NextGeneration | boatstack/cmd/boatstack-reviewer/store.go:288-298 | what is on disk after any number of its three writes |
| ReviewStore.FileStore.LoadStagedCandidate | boatstack/cmd/boatstack-reviewer/store.go:219-241 | the staged candidate, nothing, or an integrity error when bytes and metadata disagree |
| ReviewStore.ClearingNeverTears | boatstack/cmd/boatstack-reviewer/store.go:243-250 | cut off anywhere, clearing leaves the old candidate or none, never a torn one |
| ReviewStore.StagingTears | boatstack/cmd/boatstack-reviewer/store.go:205-217 | staging cut off between its two writes leaves a torn candidate exactly when the metadata on disk is not that of the new bytes |
| ReviewStore.RestagingRepairs | boatstack/cmd/boatstack-reviewer/store.go:205-217 | staging again repairs whatever was left behind |
| ReviewLedger.RecordBounds | boatstack/cmd/boatstack-reviewer/domain.go:160-167 | a recording round stands before the round bound of its generation, and the last window up to it has a strict decrease |
| ReviewLedger.GenerationBound | boatstack/cmd/boatstack-reviewer/domain.go:160-167 | every generation grows past the round bound only by its own end and once for each attempt interrupted in it |
| ReviewLedger.CountLeavesNoOrphan | boatstack/cmd/boatstack-reviewer/seal.go:420-425 | enough round-bearing receipts, with nothing interrupted after the first commit, leave no current round without its own receipt |
| ReviewMachine.Observe | boatstack/cmd/boatstack-reviewer/domain.go:48-96 | the domain observation of the repository, the staged candidate and the journal |
| ReviewMachine.ObservationFails | boatstack/cmd/boatstack-reviewer/domain.go:83-86 | an observation fails only on a candidate that is torn on disk |
| ReviewMachine.Execute | boatstack/cmd/boatstack-reviewer/domain.go:188-250 | runs an admitted operation until it is cut off: what is on disk and what is reported |
| ReviewSafety.RunKeeps | boatstack/cmd/boatstack-reviewer/store.go:143-298 | the invariants of journal, files, receipts and attempt over every run, interrupted between any two writes |
| ReviewSafety.PerformKeeps | boatstack/cmd/boatstack-reviewer/store.go:254-298 | every single write keeps them |
| ReviewSafety.CutOffKeeps | boatstack/kernel/runtime.go:411-469 | being cut off anywhere keeps them |
| ReviewResults.RecordingIsBounded | boatstack/cmd/boatstack-reviewer/domain.go:128-168 | in every run each generation holds at most MaxRounds recording rounds, and the last max(2, StallWindow) blocking measures up to a recording round contain a strict decrease |
| ReviewResults.GenerationIsBounded | boatstack/cmd/boatstack-reviewer/domain.go:128-168 | in every run every generation, past or current, has at most MaxRounds + 1 rounds, and one more for each attempt interrupted in that generation |
| ReviewResults.ConvergedIsReal | boatstack/cmd/boatstack-reviewer/domain.go:254-292 | in every reachable state that is converged with no recovery pending, the last round of the generation is a zero-blocking convergence and the last receipt is the one of the attempt that wrote it |
| ReviewResults.FinalReviewBlocksNothing | boatstack/cmd/boatstack-reviewer/seal.go:452-475 | the final review, decoded again from its archived bytes, has no finding that blocks |
| ReviewResults.RecoveryIsNeverStuck | boatstack/cmd/boatstack-reviewer/domain.go:119-122 | in every reachable state with recovery pending, the recover command is prescribed; only a torn candidate keeps it back |
| ReviewProgress.ResolveFollowsLaw | boatstack/cmd/boatstack-reviewer/domain.go:106-168 | where submissions are taken, an untargeted resolve prescribes a transition if and only if the law admits it as the submission; where the law admits none, nothing is prescribed |
| ReviewProgress.UndisturbedCommits | boatstack/cmd/boatstack-reviewer/domain.go:252-312 | an effect that nobody disturbs commits: the domain's check accepts what the operator wrote |
| ReviewReach.PrescriptionsCommit | boatstack/kernel/runtime.go:359-469 | in every reachable state at rest every prescription that resolves commits, once and without an interruption, when its attempt is begun and left alone |
| ReviewReach.SubmissionCommits | boatstack/cmd/boatstack-reviewer/domain.go:106-168 | in every reachable state at rest that takes submissions, the submission the law admits can be committed |
| ReviewReach.RecoveryCommits | boatstack/cmd/boatstack-reviewer/domain.go:119-122 | in every reachable state at rest with recovery pending and a readable candidate, the recovery can be committed |
| ReviewReach.ReopeningCommits | boatstack/cmd/boatstack-reviewer/domain.go:113-118 | in every reachable settled state at rest, the review can be reopened |
| ReviewReach.ConvergenceAlwaysReachable | boatstack/cmd/boatstack-reviewer/program.go:50-126 | from every reachable state, however often and wherever it was interrupted, some continuation converges on any tree that has a clean candidate, with no interruption but of what is in flight |
| Seal.BuildSealedReceipt | boatstack/cmd/boatstack-reviewer/seal.go:82-145 | seals exactly a converged store of the active program whose last round is a convergence of the current tree and whose final review is archived; the sealed rounds, bytes and receipts are the stored ones, stamped with policy, base, statement of honesty and time, and identified by that content |
| Seal.VerifyChain | boatstack/cmd/boatstack-reviewer/seal.go:373-408 | no failure exactly when the receipt chain holds |
| Seal.VerifyTrajectory | boatstack/cmd/boatstack-reviewer/seal.go:410-456 | no failure exactly when the trailing round-bearing receipts commit the sealed rounds in order |
| Seal.VerifyOrigin | boatstack/cmd/boatstack-reviewer/seal.go:305-371 | no failure exactly when the receipt has the known schema, is intact, and was sealed under the admitted policy and program for the tree of the head |
| Seal.VerifyReview | boatstack/cmd/boatstack-reviewer/seal.go:452-480 | no failure exactly when the final review, decoded from its bytes, leaves nothing blocking and is valid in the diff, where that can be had |
| Seal.VerifyFullReceipt | boatstack/cmd/boatstack-reviewer/seal.go:291-483 | accepts exactly when origin, receipt chain, round trajectory and final review hold |
| Seal.SealIsSound | boatstack/cmd/boatstack-reviewer/seal.go:373-451 | if a seal of a reachable state is accepted, every sealed round was committed by the receipt of the very attempt that wrote it, in order, and no current round is an orphan |
| Seal.SealExactly | boatstack/cmd/boatstack-reviewer/seal.go:373-451 | it is accepted if and only if nothing is in flight, nothing was interrupted after the first commit and no current round lost its attempt |
| Seal.SealDecided | boatstack/cmd/boatstack-reviewer/seal.go:373-456 | read on the sealed value: a seal of a reachable state is accepted if and only if its receipt chain is intact and there are as many round-bearing receipts as rounds; the match of single rounds and receipts never fails there |
| Seal.FullSealExactly | boatstack/cmd/boatstack-reviewer/seal.go:291-483 | on the checkout the review ran on, the whole verification of a reachable seal succeeds if and only if the run is untouched and the final review is still valid in the diff, where there is one |
| Seal.UninterruptedSeals | boatstack/cmd/boatstack-reviewer/seal.go:373-451 | every uninterrupted converged run seals, on the tree its last round reviewed |
| Seal.NeverSealsAgain | boatstack/cmd/boatstack-reviewer/seal.go:394-396 | after an interruption later than the first receipt no seal is accepted any more, however often the review converges again |
| Seal.InterruptionSpoils | boatstack/cmd/boatstack-reviewer/seal.go:394-396 | cutting off any attempt after the first commit is such an interruption |
| Seal.AcceptedSealReached | boatstack/cmd/boatstack-reviewer/seal.go:373-451 | from the start of every review that has a clean candidate and authority there is a run to an accepted seal |
| Seal.RefusedSealReachable | boatstack/cmd/boatstack-reviewer/seal.go:394-396 | from every reachable state that was interrupted after the first commit the review can be brought to convergence again, to a seal that is refused |
| ReviewExamples.BothSealsExist | boatstack/cmd/boatstack-reviewer/seal.go:373-451 | under every contract hash one concrete review has both a run to an accepted seal and a run to a converged state whose seal is refused |

## Left out

- JSON encoding, SHA-256, regular expressions as such, file system, git, locks and command lines: abstract files, injective constructors and arbitrary events stand for them.
- JSON Schema validation and decoding of a candidate: an arbitrary function from compacted bytes to a review, or to none.
- Normalization of an absolute anchor path against the repository root: an anchor carries its normalized path, or none.
- Paths that git quotes, and other diff prefixes than `a/` and `b/`: a printed path has no tab and does not end in a slash.
- Line numbers and measures beyond 64 bits after they were read: they are unbounded integers.
- Wording of reasons and errors, the full decision trace of a resolution and its merging, and traces in answers.
- Update through pointers inside a predicate: `normalizePredicate` is modelled on values, its children as one list rewritten in place.
- The truncated identity of an input request: an injective constructor, like every other hash.
- The aliasing of the fact map between a loaded run and the one being saved: the run object has one fact map and one saved state.
- A program value that was put together by hand with lists in another than canonical order: the kernel machine runs compiled programs.
- The warning of a full verification about a merge base that moved.
- Reading the control document and the journal for a seal at two different moments: a seal reads one state.
- The content fingerprint and decoding of a run file, and the derivation of a run's identity from its inputs: a run file is the state it holds, and its identity a text.
- ReviewReach.ConvergenceAlwaysReachable: on the way there are at most three commits, for which the 64-bit revision needs room.
- The attestation that travels with a pull request, `reset`, and the removal of a stale lock.
- Operator resolution, asset loading and drift of trusted bindings in the compiler: operators are taken as resolved.
- Effect facts are ordered by facet, operation and fingerprint in a committed receipt; nothing is proved about that order.
- KernelRelation.PrescribedExactly: a caller may ask for `Prescribed` when nothing is eligible; the lemma names this case instead of excluding it.
- DeclarativeFlow.SecuredExactly: under a negation, or where a fact depends on a parameter or on a facet the guard does not fix, the outcome depends on the state before; there only `DeclarativeFlow.SecuredHolds` speaks.
- DeclarativeRun.CheckedFlowFailsExactly: stated for calls whose chosen transition has such a settled target.
- ReviewResults.RecoveryIsNeverStuck: at the last revision of a 64-bit counter no attempt can begin, so the state's revision is not zero there.
- CycleCheck.ParameterDependencyCycle: the empty string means no cycle, so it is exact for graphs without a parameter of that name.
- Delegation, human identity, control bundles, projections, skills, extensions, the software-delivery engine and rendering.
