# jinnd kernel model

A Dafny model of the jinnd kernel's five state machines, and of two scanners beside them, with proofs of
what each promises.

- **Profile reconcile.** `Profiles` and `Forest` chart a document into a forest; `Contexts` and `Lookup` model
  derived contexts, the resolution walk and where a provision is found; `Graph`, `Tarjan` and `Cycles` find
  dependency cycles statically and quarantine them; `Diff` plans, `Apply` applies, `Loading` puts one
  reconcile together. `Reconcile`, `Grounding` and `Settling` prove what a whole reconcile does.
- **Keyed revert.** `Ledger` holds the log fold and the branch table, `Protocol` the interleaved protocol with
  failing appends, crashes and reopenings, `Compensation` what operator compensations do to it, `Lane` the
  lane's methods, each shown to be its task's steps.
- **Fiber engine.** `Planning` is the planner and the oracle, `Steering` the shared cell, `Supervision` the
  supervisor loop against an environment that writes at any point.
- **Reversible effects.** `Sequences`, `EffectTree`, `EffectImage` and `EffectSearch` are the walks over the
  record forest, `Scope` the teardowns, `Forward` forward effects and stepwise inverses.
- **Leases and persistence.** `Slots` and `Withdrawals` model the slot map and withdrawal walks; `Amending` and
  `Gate` the runtime-led amendments, the engagement gate and the write-back echo.
- **Write-back and mentions.** `Document` restores kept items to their slots; `Mentions` is the version scanner.

Asynchronous code is modelled as steps, one critical section a step. Whatever comes from outside (lanes,
handles, stores, inverses, appends, clocks of other tasks) is a parameter that may answer anything.

Some promises made in comments do not hold of the code as it stands; each has a lemma with a concrete or a
general failing case, and the exact condition under which the code meets it:

- The static realm reading takes an entry's first binding of a service, the run-time walk its last
  (`Contexts.ReadingsAgree`, `Cycles.TwiceBoundEdgeIsMissed`); isolations read from a document bind each
  service once, so they agree there (`Document.ResolveIsolation`). A charted dependency need not be real
  (`Cycles.ChartedIsRealWhen`).
- Entries disabled in both documents keep their old record. A second plan can then be non-empty, and a later
  document can enable an entry that no step spawns (`Settling.SecondPlanIsEmptyWhen`,
  `Settling.StaleRecordIsNeverSpawned`).
- Rebinds run before replaces and creations, and replaces in document order, so a rebind under a parent that
  is only now created fails, and an entry under a swapped parent whose isolation moved keeps the old chain when
  it is rebound, or swapped ahead of that parent (`Reconcile.SucceedsWhen`, `Grounding.ContextsFollow`,
  `Grounding.SwapLeavesChildStale`, `Grounding.SwapOrderLeavesChildStale`).
- A reconcile that quarantines leaves a former cycle member down: its record reads enabled while nothing runs
  for it, and later plans spawn it only if its plugin has changed. Every other entry converges all the same
  (`Reconcile.Converges`, `Settling.StaysConsistentWhen`, `Settling.FormerMemberSpawnsWhen`,
  `Loading.QuarantinedStaysDown`).
- Cycles are charted over the lanes registered at the time, while a fiber keeps the lane it was spawned with: a
  loop through a fiber whose lane was withdrawn or replaced is not charted, and stays live; after a converged
  reconcile no other loop does (`Loading.ConvergedLoopLeavesChart`, `Loading.WithdrawnLaneHidesLoop`).
- A compensation's completion hydrates as a revert's, by its clean flag, until its resolution lands
  (`Compensation.CrashForgetsCompensation`, `Compensation.CompensationReadsAs`,
  `Compensation.ForgottenIsReached`). Resolving does not clear a branch's claim to resume, and a compensation is
  admitted while a revert is still on its way, so an inverse can run after a durable completion or resolution:
  exactly when a compensation was admitted while the branch was resumable or its holder had not invoked
  (`Compensation.InverseFollowsClosingOnly`, `Compensation.InverseFollowsClosingWhen`,
  `Compensation.RetryAfterCompensation`, `Compensation.CompensationOvertakes`).
- The supervisor never commits a state in flight, so the oracle's in-flight arm is not reached by a running
  fiber; a death reported while a load is in flight is still answered with a promised reload
  (`Supervision.LaunchNeverCollides`, `Planning.PromiseInFlight`, `Supervision.DeathInFlightStillPromises`).
- Generations are unique, but a slot's generation is not always the greatest minted: that holds exactly when
  none was minted between its mint and its insertion (`Withdrawals.RisesWhen`, `Withdrawals.GenerationsCanFall`).
- The mention grammar is described with general whitespace between a version and its tag; the scanner skips
  blanks only. The two agree exactly when no tab stands before what the grammar takes for a tag or an attempt
  at one (`Mentions.ScannerReadsAsStatedWhen`, `Mentions.TabHidesTheTag`).

## Model

| member | source | states |
|---|---|---|
| Forest.EntryIndex.constructor | crates/jinnd-loader/src/tree.rs:20-39 | the index is exact; it has no fault exactly when no id comes twice and every parent chain ends; every dropped id is faulted |
| Forest.EntryIndex.Chart | crates/jinnd-loader/src/tree.rs:43-86 | charting terminates; an id survives exactly when its parent chain reaches a parentless entry through first records, at that depth, and each dropped id is faulted once |
| Forest.EntryIndex.Climb | crates/jinnd-loader/src/tree.rs:51-66 | the climb ends on firm ground, or every entry of a broken trail can never stand |
| Forest.EntryIndex.Drop | crates/jinnd-loader/src/tree.rs:67-74 | a broken trail is dropped, each entry still held faulted exactly once |
| Forest.EntryIndex.Settle | crates/jinnd-loader/src/tree.rs:75-84 | a trail on firm ground takes its depths and nothing else changes |
| Forest.LoopedTrail | crates/jinnd-loader/src/tree.rs:58-62 | no entry of a parent cycle ever reaches a root |
| Forest.LostTrail | crates/jinnd-loader/src/tree.rs:56-57 | an entry below one that never stands never stands |
| Forest.EntryIndex.Kept | crates/jinnd-loader/src/tree.rs:95-103 | the valid entries, each id once, its winning record |
| Forest.EntryIndex.EffectivelyDisabled | crates/jinnd-loader/src/tree.rs:117-126 | the walk ends and answers whether the entry or any ancestor is disabled |
| Forest.EntryIndex.EnvironmentOf | crates/jinnd-loader/src/tree.rs:131-140 | the walk ends with the ancestry from the root down to the entry |
| Contexts.Interner.Intern | crates/jinnd-context/src/key.rs:114-123 | equal values share one id, ids are never reassigned |
| Contexts.ReplaceOrPush | crates/jinnd-context/src/derive.rs:76-81 | the last binding of a key wins and no other key changes |
| Contexts.SortByKey | crates/jinnd-context/src/layer.rs:37-38 | sorting a layer changes what no key is bound to |
| Contexts.OwnRealm | crates/jinnd-context/src/layer.rs:48-54 | binary search finds exactly the binding the list holds |
| Contexts.ContextTree.Bind | crates/jinnd-context/src/derive.rs:33-38 | one more interned binding says what its list says |
| Contexts.ContextTree.Derive | crates/jinnd-context/src/derive.rs:42-72 | one frozen layer stands for the list it was derived from, below the whole chain; identities only grow |
| Contexts.StandsForStill | crates/jinnd-context/src/key.rs:106-123 | interning more names and realms changes no existing context |
| Contexts.ContextTree.RealmOf | crates/jinnd-context/src/context.rs:196-207 | the walk of interned, sorted, searched layers equals the nearest binding of the isolation lists, the last of a list winning |
| Contexts.ContextTree.Resolve | crates/jinnd-context/src/resolve.rs:69-75 | the walk finds the nearest frame holding the slot before the realm changes, and misses none that it may consult |
| Contexts.ReadingsAgree | crates/jinnd-loader/src/cycles.rs:162-169 | the first-binding reading equals the run-time reading exactly when the nearest binding list reads the service alike from either end |
| Contexts.DistinctReadingsAgree | crates/jinnd-loader/src/cycles.rs:162-169 | with each service bound once an entry the two readings agree |
| Contexts.ReadingsDiffer | crates/jinnd-context/src/derive.rs:76-81 | an entry that binds a service twice is read in two realms |
| Contexts.AncestryStep | crates/jinnd-loader/src/apply.rs:196-213 | an entry's chain is its parent's, one list further |
| Lookup.AddressOf | crates/jinnd-registry/src/registry.rs:85-97 | a named realm anchors its slots at the tree root, the root realm at the provider's context |
| Lookup.Locate | crates/jinnd-registry/src/registry.rs:186-223 | a lookup finds a slot of its own realm only; with slots anchored at the root it finds one exactly when the realms agree and, in the root realm, no ancestor leaves it |
| Tarjan.CyclicMembers | crates/jinnd-loader/src/cycles.rs:174-229 | terminates with exactly the nodes on a directed cycle, self-edges included, strictly ascending |
| Tarjan.Visit | crates/jinnd-loader/src/cycles.rs:187-225 | one turn of the frame loop keeps the whole walk invariant and its measure falls |
| Tarjan.EnterKeeps | crates/jinnd-loader/src/cycles.rs:188-194 | entering a node keeps every part of the walk invariant |
| Tarjan.CrossKeeps | crates/jinnd-loader/src/cycles.rs:197-201 | lowering a link over an edge to the stack keeps it |
| Tarjan.MergeKeeps | crates/jinnd-loader/src/cycles.rs:204-207 | passing a low link to the parent frame keeps it |
| Tarjan.PopKeeps | crates/jinnd-loader/src/cycles.rs:208-224 | popping a component keeps it, nothing found being missed or invented |
| Tarjan.PopOnCycle | crates/jinnd-loader/src/cycles.rs:217-223 | a popped component lies on a cycle exactly when it has two members or a self-edge |
| Graph.ClosedKeeps | crates/jinnd-loader/src/cycles.rs:171-173 | nothing outside a successor-closed set is reached from inside it |
| Graph.MutualOnCycle | crates/jinnd-loader/src/cycles.rs:171-173 | two nodes that reach each other are on a cycle |
| Cycles.EffectiveRealm | crates/jinnd-loader/src/cycles.rs:162-169 | the loop answers the nearest ancestor's first binding, root when none binds |
| Cycles.Providers | crates/jinnd-loader/src/cycles.rs:78-86 | providers are listed by exactly the service name and realm they offer |
| Cycles.Chart | crates/jinnd-loader/src/cycles.rs:67-104 | nodes and edges are exactly the enabled entries with a lane and their charted dependencies |
| Cycles.LoopsAgree | crates/jinnd-loader/src/cycles.rs:88-107 | a position lies on a cycle exactly when its entry lies on a charted loop |
| Cycles.CycleFaults | crates/jinnd-loader/src/cycles.rs:59-119 | exactly the entries on a charted dependency loop are faulted, each once |
| Cycles.NoEdgeMissed | crates/jinnd-loader/src/cycles.rs:9-14 | every provider a context can find at run time is a charted dependency |
| Cycles.ChartedIsRealWhen | crates/jinnd-loader/src/cycles.rs:9-14 | a charted dependency is real exactly when its realm is named or the consumer's whole ancestry leaves the service in root |
| Cycles.RootBelowNamedIsCharted | crates/jinnd-context/src/resolve.rs:71-73 | a consumer that rebinds to root below a named realm does not see the root slot it is charted to |
| Cycles.TwiceBoundEdgeIsMissed | crates/jinnd-loader/src/cycles.rs:164-166 | an isolation that binds a service twice hides a real dependency |
| Cycles.Quarantine | crates/jinnd-loader/src/cycles.rs:128-149 | each member has exactly one step, its containment; other entries' steps stay, in order |
| Cycles.QuarantineCycles | crates/jinnd-loader/src/cycles.rs:31-52 | no step spawns a cycle member, other entries' steps stay in order, nothing is added to the faults but one for each member, and a plan without cycles is untouched |
| Cycles.NoCycleRuns | crates/jinnd-loader/src/cycles.rs:1-14 | any closed walk of dependencies found at run time consists of faulted entries |
| Diff.MakePlan | crates/jinnd-loader/src/diff.rs:68-163 | for every pair of documents the plan gives each entry exactly the steps it needs, in application order, and names what it leaves alone |
| Diff.File | crates/jinnd-loader/src/diff.rs:85-133 | one entry of the desired document is filed under exactly the steps it needs |
| Diff.FileRemoved | crates/jinnd-loader/src/diff.rs:135-143 | exactly the entries that left the document are removed |
| Diff.SortByDepth | crates/jinnd-loader/src/diff.rs:145-148 | sorting by depth keeps every entry's steps |
| Diff.Sorted | crates/jinnd-loader/src/diff.rs:145-161 | the five lists end to end are disposals deepest first, rebinds, replaces, restates, creations shallowest first |
| Apply.Loader.Applied | crates/jinnd-loader/src/loader.rs:262-286 | the applied document holds each runtime's record once, whatever the map's order |
| Apply.Loader.DrainFaults | crates/jinnd-loader/src/loader.rs:186-201 | every recorded divergence comes off its entry and is listed exactly once; nothing else of any runtime changes |
| Apply.Loader.DeriveContext | crates/jinnd-loader/src/apply.rs:196-216 | a context is the parent's stored one, a layer further, or refused |
| Apply.Loader.DisposeStep | crates/jinnd-loader/src/apply.rs:68-98 | the whole new state and outcome of a disposal, whatever the handle answers |
| Apply.Loader.RestateStep | crates/jinnd-loader/src/apply.rs:101-126 | the record moves and the outcome follows the handle's answer |
| Apply.Loader.SpawnStep | crates/jinnd-loader/src/apply.rs:129-180 | a runtime is stored only by a successful spawn, or for a group |
| Apply.Loader.TrackStep | crates/jinnd-loader/src/apply.rs:183-193 | an inert runtime is stored |
| Apply.Loader.RebindStep | crates/jinnd-loader/src/rebind.rs:18-82 | record and context move together; a live provider whose realm moved restarts |
| Apply.Loader.Apply | crates/jinnd-loader/src/apply.rs:24-65 | all steps in order, each outcome reported for its own entry, plan faults first |
| Apply.UnnamedKept | crates/jinnd-loader/src/apply.rs:1-2 | an entry no step names keeps its runtime whatever fails |
| Apply.ContainedIsInert | crates/jinnd-loader/src/cycles.rs:121-127 | a quarantined entry is not live after the application, whatever fails |
| Reconcile.StepExpected | crates/jinnd-loader/src/apply.rs:37-52 | one successful step takes its entry exactly one needed kind further |
| Reconcile.Progress | crates/jinnd-loader/src/apply.rs:33-64 | after any prefix of successful steps each entry stands exactly where its own steps so far put it |
| Reconcile.Converges | crates/jinnd-loader/src/loader.rs:127-131 | from a runtime that is what its records say, but for entries earlier quarantines left down, when every step succeeds: entries are the document's, fibers run exactly for enabled non-groups neither quarantined nor still down under their plugin, records are the document's but for entries disabled on both sides |
| Reconcile.FailsOnlyForParent | crates/jinnd-loader/src/apply.rs:196-213 | a well-answered step an entry needs fails only for want of its parent's context |
| Reconcile.CreatedBefore | crates/jinnd-loader/src/diff.rs:145-161 | creations run shallowest first, after every rebind and replace, quarantine or not |
| Reconcile.SucceedsWhen | crates/jinnd-loader/src/diff.rs:150-161 | with everything answered well every step succeeds exactly when each finds its parent ready: not yet contained, and brought up before; with nothing quarantined now or before, exactly when no rebound or replaced entry hangs under a parent not enabled before |
| Grounding.ParentContext | crates/jinnd-loader/src/rebind.rs:36-40 | the parent a step derives under already holds the document's context, unless the step comes before the parent's own while its chain moved |
| Grounding.ContextsFollow | crates/jinnd-loader/src/diff.rs:114-123 | from the same runtimes, the stored contexts of all that is enabled and not quarantined (an entry that was down may have none) are what the new ancestry dictates exactly when no entry under a replaced parent whose chain moved is rebound, or replaced ahead of it, and none derives under a quarantined one |
| Grounding.NoneEarlyWhen | crates/jinnd-loader/src/diff.rs:145-161 | whether any step derives under a chain still to move is told from what each entry needs and the order of the replacements |
| Grounding.EarlyStaysStale | crates/jinnd-loader/src/diff.rs:150-155 | an entry whose step does keeps the old chain to the end |
| Grounding.SwapLeavesChildStale | crates/jinnd-loader/src/diff.rs:150-155 | a run where every step succeeds and an entry rebound under a swapped parent holds a context that is not the document's |
| Grounding.SwapOrderLeavesChildStale | crates/jinnd-loader/src/diff.rs:150-155 | a run where nothing is rebound, every step succeeds, and an entry swapped ahead of its parent holds one |
| Grounding.RebindUnderNewParentFails | crates/jinnd-loader/src/diff.rs:150-161 | a run where a rebind under a created parent fails however well all answer |
| Settling.SecondPlanIsEmptyWhen | crates/jinnd-loader/src/diff.rs:99-133 | a second plan under a reflexive attestation is empty exactly when entries disabled on both sides stay disabled under the records they kept |
| Settling.StaysConsistentWhen | crates/jinnd-loader/src/loader.rs:262-286 | after every step succeeded the runtime is what its own records say, but for the entries left down, exactly when that same condition holds; with none down before, none is left down exactly when nothing was quarantined |
| Settling.FormerMemberSpawnsWhen | crates/jinnd-loader/src/cycles.rs:121-149 | whatever the next document and quarantine, an entry left down is given a spawning step exactly when it is enabled, no longer quarantined, and its plugin has changed |
| Settling.KeptRecordsStay | crates/jinnd-loader/src/diff.rs:108 | records unchanged on both sides meet it |
| Settling.ChainsStayConsistent | crates/jinnd-loader/src/loader.rs:141-205 | over any chain of successful reconciles from nothing, whatever they quarantine, the runtime stays consistent, but for the entries left down, exactly as long as what is disabled on both sides stays so under its record |
| Settling.StaleRecordIsNeverSpawned | crates/jinnd-loader/src/diff.rs:100-108 | an unrefreshed record lets a later document enable an entry that no step spawns |
| Settling.StaleRecordPlansAgain | crates/jinnd-loader/src/diff.rs:108 | and makes a second plan onto the same document non-empty |
| Loading.ReconcileWith | crates/jinnd-loader/src/loader.rs:141-205 | a refused save changes nothing; otherwise every recorded divergence is taken off its entry and reported once, behind the faults of the plan and its steps, the quarantined plan is applied and no cycle member is left live; once every step succeeded and every child waited for its moved parent, a closed walk of dependencies is live only through a fiber on another lane than the charted one |
| Loading.ConvergedRunsAs | crates/jinnd-loader/src/loader.rs:127-131 | a converged reconcile, quarantine included, leaves live only what the document enables, with its plugins and the contexts its ancestry gives |
| Loading.LiveLoopLeavesChart | crates/jinnd-loader/src/cycles.rs:1-14 | when what runs is what the document says and no charted member is live, any closed walk of live dependencies takes a fiber on another lane than the one registered |
| Loading.ConvergedLoopLeavesChart | crates/jinnd-loader/src/cycles.rs:67-74 | after a converged reconcile a live loop needs such a fiber; with every spawn on its charted lane, one that the reconcile found running and never spawned |
| Loading.WithdrawnLaneHidesLoop | crates/jinnd-loader/src/loader.rs:106-110 | a converged reconcile of a document without a charted loop that leaves a loop live through a fiber whose lane was withdrawn |
| Loading.QuarantinedStaysDown | crates/jinnd-loader/src/cycles.rs:121-149 | a successful reconcile that quarantines leaves records and runtime apart; once the lanes form no loop, the next plan onto the same document still has no step for the member |
| Ledger.BranchFrom | crates/jinnd-ledger/src/hydrate.rs:19-58 | a branch is rebuilt exactly when an intent is durable, resumable exactly when nothing closed it |
| Ledger.RebuiltWhen | crates/jinnd-ledger/src/hydrate.rs:51-57 | the same of every log, crash prefixes included |
| Ledger.ReadPast | crates/jinnd-ledger/src/hydrate.rs:23-50 | records about other effects change nothing |
| Ledger.Branches.Claim | crates/jinnd-ledger/src/claim.rs:61-87 | fresh, resumed, recorded or refused; a grant leaves nothing more to resume |
| Ledger.Branches.Resolve | crates/jinnd-ledger/src/claim.rs:103-107 | the state moves and nothing else, the claim to resume included |
| Ledger.Branches.Seed | crates/jinnd-ledger/src/claim.rs:113-115 | memory is never overwritten |
| Protocol.StepKept | crates/jinnd-ledger/src/revert.rs:73-157 | every step of any task, failed appends, crashes and compensations of other effects included, keeps the protocol invariant of an effect none is called for |
| Protocol.SeedKept | crates/jinnd-ledger/src/revert.rs:228-241 | a stale snapshot never revives or duplicates a branch |
| Protocol.InverseRunsAreSafe | crates/jinnd-ledger/src/revert.rs:1-18 | the inverse of an effect no compensation is called for runs only for the task granted it, once a process, with exactly one durable intent and no durable completion or resolution |
| Protocol.AtMostOnce | crates/jinnd-ledger/src/claim.rs:3-15 | one grant and one inverse of such an effect in a process, one intent ever |
| Protocol.LogRefinesMemory | crates/jinnd-ledger/src/hydrate.rs:1-11 | at quiescence the log rebuilds what memory holds of every effect whose appends all landed |
| Compensation.StepGuarded | crates/jinnd-ledger/src/revert.rs:73-225 | every step of any task, reverts and compensations alike, keeps what every run keeps of every effect |
| Compensation.GrantedOnce | crates/jinnd-ledger/src/claim.rs:61-87 | one grant and one inverse an effect in a process, compensated or not |
| Compensation.InverseFollowsClosingOnly | crates/jinnd-ledger/src/revert.rs:113-157 | in every run an inverse runs only for the task granted its effect, once a process, after a durable intent; and after a durable completion or resolution only if a compensation was admitted while the inverse might still run |
| Compensation.InverseFollowsClosingWhen | crates/jinnd-ledger/src/claim.rs:95-107 | a compensation lets an inverse run after a durable closing exactly when, as it is admitted, the branch may still resume or its holder has not invoked yet |
| Compensation.ReadsLastClosing | crates/jinnd-ledger/src/hydrate.rs:29-46 | in every log the last completion or resolution alone decides an effect's state |
| Compensation.CrashForgetsCompensation | crates/jinnd-ledger/src/revert.rs:203-214 | at every point of every run a closed effect reads as compensated exactly when the last record that closed it is a compensation's resolution, and by its clean flag as reverted or pending when it is a completion |
| Compensation.CompensationReadsAs | crates/jinnd-ledger/src/revert.rs:203-214 | from a compensation's completion on, until another task closes the effect, it reads as compensated exactly when its resolution is durable, and as a completed revert until then |
| Compensation.ForgottenIsReached | crates/jinnd-ledger/src/revert.rs:203-214 | a run from nothing after which a cleanly compensated effect reads as reverted |
| Compensation.RetryAfterCompensation | crates/jinnd-ledger/src/claim.rs:103-107 | after a compensation resolves, a same-key revert is granted again exactly when the branch was resumable |
| Compensation.InFlightIsPending | crates/jinnd-ledger/src/claim.rs:95-100 | a revert on its way reads as pending, so a compensation is admitted |
| Compensation.CompensationOvertakes | crates/jinnd-ledger/src/revert.rs:180-214 | a run from nothing after which an inverse may run though its effect's completion is durable |
| Compensation.ResumableIsReached | crates/jinnd-ledger/src/revert.rs:171-196 | a run from nothing reaches a compensation about to claim a resumable branch |
| Lane.RevertLane.Append | crates/jinnd-ledger/src/revert.rs:263-279 | an append lands or not, and may land unreported |
| Lane.RevertLane.Hydrate | crates/jinnd-ledger/src/revert.rs:228-241 | one call takes exactly the protocol's hydration steps |
| Lane.RevertLane.Resolve | crates/jinnd-ledger/src/revert.rs:243-261 | memory first, then the log |
| Lane.RevertLane.Complete | crates/jinnd-ledger/src/revert.rs:113-157 | one call takes exactly the protocol's completion steps |
| Lane.RevertLane.Revert | crates/jinnd-ledger/src/revert.rs:73-108 | one call answers, logs and remembers what its task's protocol steps do |
| Lane.RevertLane.Compensate | crates/jinnd-ledger/src/revert.rs:171-225 | nothing unconfirmed; confirmed, its task's steps, and never answered as reverted |
| EffectTree.Flatten | crates/jinnd-effects/src/tree.rs:87-97 | the explicit-stack walk is the recursive teardown order, every record childless |
| EffectTree.PreOrderReversed | crates/jinnd-effects/src/tree.rs:83-86 | registration order turned round is teardown order |
| EffectTree.TakeNext | crates/jinnd-effects/src/tree.rs:109-123 | each call yields the next record of the teardown and leaves the rest standing |
| EffectTree.Drains | crates/jinnd-effects/src/tree.rs:43-54 | every pending drain phase in teardown order |
| EffectTree.DrainOnce | crates/jinnd-effects/src/drain.rs:54-61 | draining leaves every effect in its place and no phase to take twice |
| EffectImage.Describe | crates/jinnd-effects/src/tree.rs:126-162 | the two passes build exactly the recursive image |
| EffectImage.DownIsPushed | crates/jinnd-effects/src/tree.rs:142-159 | building from the back finishes children before parents, in order |
| EffectSearch.Locate | crates/jinnd-effects/src/tree.rs:57-66 | a live id is found exactly when the forest holds it |
| EffectSearch.SplicedTeardown | crates/jinnd-effects/src/tree.rs:69-80 | a subtree is one contiguous stretch of the teardown, and replacing it touches nothing else |
| EffectSearch.Take | crates/jinnd-effects/src/tree.rs:69-80 | taking an effect out removes exactly its own stretch |
| EffectSearch.Nest | crates/jinnd-effects/src/scope.rs:62-79 | a nested effect is withdrawn just ahead of its parent's own stretch |
| Scope.EffectScope.Register | crates/jinnd-effects/src/scope.rs:44-53 | a registered effect is the first to be withdrawn; a replayed scope refuses |
| Scope.EffectScope.RegisterChild | crates/jinnd-effects/src/scope.rs:62-79 | refused for a parent that is not live, nested last otherwise |
| Scope.EffectScope.TearDown | crates/jinnd-effects/src/scope.rs:125-133 | a teardown notes, starts and leaves exactly what its reach says, dropped or not |
| Scope.EffectScope.Replay | crates/jinnd-effects/src/scope.rs:125-133 | a replay runs each inverse in teardown order; dropped, it loses nothing |
| Scope.EffectScope.Suspend | crates/jinnd-effects/src/suspend.rs:53-74 | a suspension runs the suspend path where there is one, the inverse elsewhere |
| Scope.EffectScope.WithdrawNext | crates/jinnd-effects/src/withdrawal.rs:31-94 | one withdrawal always leaves one line, interrupted when dropped in flight |
| Scope.TeardownConserves | crates/jinnd-effects/src/scope.rs:106-124 | what is noted and what is owed stay the original order |
| Scope.DropsLoseNothing | crates/jinnd-effects/src/scope.rs:106-124 | any number of dropped teardowns, then one to the end: each effect reported once in order, at most one interruption a drop |
| Scope.OneDisposerEach | crates/jinnd-effects/src/suspend.rs:1-11 | over any mix of dropped replays and suspensions and a last teardown, no effect has its suspend path and its inverse both started, or either twice, and every effect not noted as panicked had one |
| Scope.EffectScope.Drain | crates/jinnd-effects/src/drain.rs:54-61 | every phase runs once, or, dropped mid-drain, exactly those up to the one in flight; only failures are noted, and no inverse is lost |
| Scope.EffectScope.Detach | crates/jinnd-effects/src/scope.rs:146-151 | one contiguous stretch leaves the scope, in teardown order |
| Scope.WithdrawNow | crates/jinnd-effects/src/scope.rs:215-226 | one line a record, interrupted for one that waits |
| Forward.WithdrawSteps | crates/jinnd-effects/src/withdrawal.rs:108-145 | stops before the first cancelled step or at the first failing one, counting both sides |
| Forward.Advance | crates/jinnd-effects/src/forward.rs:54-86 | installed with every inverse, or nothing installed and exactly the landed prefix unwound, last first |
| Forward.AdvancePlain | crates/jinnd-effects/src/forward.rs:90-106 | a plain effect ends as a stepwise one of its single action, launched whatever the target and judged once landed |
| Forward.Unwind | crates/jinnd-effects/src/forward.rs:109-115 | last yield first |
| Forward.Discharge | crates/jinnd-effects/src/forward.rs:120-131 | installed inverses replay last first, stopping at the first that does not end well |
| Forward.ForwardThenBack | crates/jinnd-effects/src/forward.rs:1-18 | forward and back leaves every landed action undone, last first |
| Planning.SettlesInTwo | crates/jinnd-fiber/src/plan.rs:93-145 | with the target held at most two transitions run before nothing is planned, whatever each landing |
| Planning.NothingPlannedAtRest | crates/jinnd-fiber/src/plan.rs:93-145 | nothing is planned exactly in the named states of rest |
| Planning.TwoAreNeeded | crates/jinnd-fiber/src/plan.rs:93-145 | two are sometimes needed |
| Planning.ReloadIsEarned | crates/jinnd-fiber/src/owed.rs:123-148 | a reload is promised exactly when clean landings reach the desired aim and the next transition does not end the service |
| Planning.AnswersAgreeWithPlan | crates/jinnd-fiber/src/owed.rs:48-65 | serving owes no transition; a stall is never answered where the planner would load |
| Planning.DoomedNeverPromises | crates/jinnd-fiber/src/owed.rs:155-165 | a failed or dead incarnation promises no reload under its aim |
| Planning.DeadButMovedIsReplaced | crates/jinnd-fiber/src/owed.rs:160-165 | a dead incarnation whose aim moved is replaced though the answer is a stall |
| Planning.PromiseInFlight | crates/jinnd-fiber/src/owed.rs:123-148 | a promise made while a load is in flight is kept exactly unless the incarnation reported its death under the aim still desired |
| Steering.SteeringCell.SetEpoch | crates/jinnd-fiber/src/steering.rs:141-151 | a changed epoch lowers rest with the write; an unchanged one writes nothing |
| Steering.SteeringCell.Restart | crates/jinnd-fiber/src/steering.rs:154-160 | a new revision, rest lowered with it |
| Steering.SteeringCell.SettleRest | crates/jinnd-fiber/src/steering.rs:130-138 | rest is raised only over the stamp observed |
| Steering.SteeringCell.Launch | crates/jinnd-fiber/src/steering.rs:191-201 | a new incarnation, its predecessor's fault dropped |
| Steering.SteeringCell.Fault | crates/jinnd-fiber/src/steering.rs:215-227 | only the current incarnation's fault acts; a stale one changes nothing |
| Steering.SteeringCell.Absorb | crates/jinnd-fiber/src/steering.rs:241-257 | folds the signal in and reports staleness |
| Supervision.StepKept | crates/jinnd-fiber/src/supervisor.rs:66-90 | every write and every supervisor step keeps rest, single flight and every acknowledgement |
| Supervision.RestIsNeverALie | crates/jinnd-fiber/src/steering.rs:105-138 | a fiber that answers it rests has nothing in flight and nothing planned |
| Supervision.LaunchNeverCollides | crates/jinnd-fiber/src/steering.rs:191-197 | the launch assertion never fails; what has landed is never a state in flight |
| Supervision.RunsNeverGoBack | crates/jinnd-fiber/src/steering.rs:162-181 | disposal and suspension are never withdrawn, stamps never fall, a disposed fiber stays so |
| Supervision.AcknowledgedMeansServed | crates/jinnd-fiber/src/fiber.rs:157-164 | an acknowledged probe means every write and signal before it was read with nothing owed |
| Supervision.DisposalResolves | crates/jinnd-fiber/src/fiber.rs:172-186 | a resolved disposal or suspension has ended the fiber for good |
| Supervision.DeathInFlightStillPromises | crates/jinnd-fiber/src/supervisor.rs:126-161 | a death reported during a load still promises a reload, and the fiber comes to rest failed |
| Slots.LeaseCell.Acquire | crates/jinnd-registry/src/leases.rs:36-44 | a closed cell takes no lease |
| Slots.LeaseCell.Release | crates/jinnd-registry/src/leases.rs:50-55 | one lease back, never below zero |
| Slots.LeaseCell.Close | crates/jinnd-registry/src/leases.rs:61-66 | idempotent, the count kept |
| Slots.SlotMap.Publish | crates/jinnd-registry/src/slots.rs:90-100 | another provider is refused; the same provider's entry is superseded and closed |
| Slots.SlotMap.Insert | crates/jinnd-registry/src/slots.rs:76-101 | a fresh generation and an open cell, minted even when refused |
| Slots.SlotMap.Lease | crates/jinnd-registry/src/slots.rs:111-123 | only the generation asked for, while it stands open |
| Slots.SlotMap.RemoveIf | crates/jinnd-registry/src/slots.rs:127-140 | removes exactly the generation named, closing it |
| Withdrawals.StepKept | crates/jinnd-registry/src/slots.rs:76-140 | every critical section keeps counts, standing slots and walks |
| Withdrawals.WithdrawalsWaitOut | crates/jinnd-registry/src/registry.rs:259-270 | a finished withdrawal leaves no lease outstanding and none that can be taken |
| Withdrawals.CountsAreGuards | crates/jinnd-registry/src/leases.rs:36-66 | each generation's count is its guards outstanding |
| Withdrawals.StepNeverTakes | crates/jinnd-registry/src/slots.rs:83-140 | no other provider replaces an occupant, removal takes its own generation only, a generation is published once |
| Withdrawals.NeverReopened | crates/jinnd-registry/src/slots.rs:7-17 | a closed generation never stands again |
| Withdrawals.GenerationsAreUnique | crates/jinnd-registry/src/slots.rs:7-17 | over every run a generation never stands at two addresses, at one moment or two, and never again once superseded or withdrawn |
| Withdrawals.RisesWhen | crates/jinnd-registry/src/slots.rs:66-75 | an inserted generation is the greatest minted exactly when none was minted while it waited |
| Withdrawals.GenerationsCanFall | crates/jinnd-registry/src/slots.rs:83-87 | minting before the lock lets a slot's generation fall |
| Amending.StepKept | crates/jinnd-loader/src/amend.rs:89-160 | every step of every operation keeps the footing of all |
| Amending.MovesAreLawful | crates/jinnd-loader/src/amend.rs:166-178 | documents move only under the permit, at the operation's own entry |
| Amending.EveryEndIsHonest | crates/jinnd-loader/src/amend.rs:66-75 | each operation that ends leaves the views all new, all as they were, or a recorded divergence |
| Amending.NothingAcceptedIsLost | crates/jinnd-loader/src/amend.rs:161-165 | the committed document is exactly what was last accepted, and the saved one agrees where nothing is in flight |
| Amending.SiblingsStay | crates/jinnd-loader/src/amend.rs:161-178 | a step touches no sibling's records or runtime |
| Amending.EndsAreHonest | crates/jinnd-loader/src/dispose.rs:28-101 | the same of a single end, disposals with their retried save included |
| Gate.Engagement.EngageEntry | crates/jinnd-loader/src/gate.rs:78-88 | an entry is engaged once, and never under an engaged document |
| Gate.Engagement.EngageDocument | crates/jinnd-loader/src/gate.rs:99-109 | the document is engaged only with nothing else engaged |
| Gate.Persistence.SaveCommitted | crates/jinnd-loader/src/store.rs:92-113 | the profile merged over the baseline, kept items and unknown fields carried, becomes the next baseline and the pending echo; a refused one changes nothing |
| Gate.Persistence.SaveAmendment | crates/jinnd-loader/src/store.rs:115-134 | the first entry of the id takes the new config and flag and keeps all else, its siblings stay, and the result is baseline and pending echo; an id the baseline does not hold is refused |
| Gate.Persistence.RetireEcho | crates/jinnd-loader/src/store.rs:194-204 | retires only the pending text |
| Gate.EchoOnce | crates/jinnd-loader/src/store.rs:184-204 | an echo is retired by its first delivery and by no later one |
| Gate.EchoSuperseded | crates/jinnd-loader/src/store.rs:184-204 | a later save supersedes an unretired echo, whose text then retires nothing unless both wrote the same |
| Document.DirectivesInvert | crates/jinnd-loader/src/document.rs:255-277 | a realm survives writing and reading exactly when its name is not empty; a directive that parses is written back as it was |
| Document.Parse | crates/jinnd-loader/src/document.rs:78-91 | undecodable items are kept whole with their slots, the rest decode in order |
| Document.Render | crates/jinnd-loader/src/document.rs:99-118 | kept texts go back one by one, each at its recorded slot or at the end |
| Document.SlotsAreRestored | crates/jinnd-loader/src/document.rs:99-104 | every item comes back to its own slot, byte for byte where it did not decode |
| Document.KeptInOrder | crates/jinnd-loader/src/document.rs:99-104 | over any entries at all every kept text is there, in the order read |
| Document.RenderIsFixed | crates/jinnd-loader/src/document.rs:78-118 | rendering what a rendering parses to is that rendering |
| Document.MergeProfile | crates/jinnd-loader/src/document.rs:164-193 | a save carries kept texts and unknown fields over |
| Document.Amended | crates/jinnd-loader/src/document.rs:204-229 | one entry's config and flag are rewritten and nothing else; an absent id is refused |
| Document.ResolveIsolation | crates/jinnd-loader/src/document.rs:232-252 | each service once, or nothing when a directive does not parse |
| Document.IsolationReturns | crates/jinnd-loader/src/document.rs:232-252 | an isolation written and read back decides every service as the run-time walk did |
| Mentions.ExactTag | crates/jinnd-contract-lens/src/mentions.rs:202-226 | the end of a tag read exactly, nothing when the grammar does not read one |
| Mentions.TagAfter | crates/jinnd-contract-lens/src/mentions.rs:174-197 | no attempt, a tag read exactly, or a malformed attempt with its extent |
| Mentions.ReadRun | crates/jinnd-contract-lens/src/mentions.rs:134-162 | a candidate is read as a version exactly when bounded, of three parts and not followed by a broken tag; anything else is reported |
| Mentions.ReadOnce | crates/jinnd-contract-lens/src/mentions.rs:134-162 | a candidate has one reading, the same in kind, extent and date |
| Mentions.BareVersions | crates/jinnd-contract-lens/src/mentions.rs:113-165 | terminates; tokens are ordered and apart; each is exactly what its own candidate reads as, in kind, extent and date; every candidate is a token's own or starts strictly inside the unreadable token of an earlier one |
| Mentions.FoundOnce | crates/jinnd-contract-lens/src/mentions.rs:113-165 | no candidate lies in two tokens |
| Mentions.ScannerReadsAsStatedWhen | crates/jinnd-contract-lens/src/mentions.rs:10-23 | the scanner reads what follows a version as the stated grammar does exactly when no tab stands between it and a tag, or before another attempt |
| Mentions.TabHidesTheTag | crates/jinnd-contract-lens/src/mentions.rs:174-186 | a line the grammar dates and the scanner takes for a claim |

## Left out

- Hosting, bindings, artifact hashing and the call lane: code this kernel calls into or is called through.
- The ledger's storage, its writer thread, file watching and saving to disk: the log is a sequence and a save a step that may be refused.
- JSON parsing and rendering of a single item: a codec parameter, with its round trip assumed where a lemma needs it.
- 64-bit counters are naturals: revisions, stamps, launches, generations and identities do not wrap.
- Panic containment and destructors: an inverse ends done, failed, panicked, cancelled or interrupted.
- Cancelled reconciles: an application runs all its steps.
- Documents with structural faults: convergence and the second plan are stated for fault-free documents; the plan itself and quarantine are stated for all.
- One config type: the run-time check that a loader is driven with a single type is not modelled, nor the registration of lanes.
- Reloading a document between amendments: the amendment machine has no reconcile in flight, which the engagement gate excludes, and starts as a reconcile without divergences leaves it.
- Whitespace other than blanks and tabs within a line of mentions.
- The event bus, service vitality, readiness watching and the wake-ups that drive waits: only what is read after a wake is modelled.
- Config overlays on contexts: their lookup is the isolation lookup again.
- The text of error messages, and the grouping of mention candidates into reports.
- EffectSearch.Locate: `find` and `take` hold mutable references into the forest; here both find a path by one search, and the forest is rebuilt along it, so aliasing is not captured. Where an id occurs twice the two may differ in which they find.
- EffectTree.Drains: the phases are collected by the source's stack walk, and the forest without them is given by a function rather than by writes through references.
- Tarjan.CyclicMembers: the edge list is shorter than the largest machine word, which the source uses as its unseen mark.
- Scope.EffectScope.TearDown: replay and suspension are one loop with a flag, where the source writes it twice.
- Supervision.AcknowledgedMeansServed: the final acknowledgement of every probe once a fiber is settled for good is the `Halted` place, where nothing is owed whatever is written.
