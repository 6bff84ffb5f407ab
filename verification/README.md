# Verified model of the FluxPro workflow engine

This project models the parts of the FluxPro engine whose correctness depends on many functions agreeing, and proves
what they achieve together. `dafny verify dfyconfig.toml` checks everything.

**Durable execution.** `Database.dfy` holds the tables as one process instance sees them (instance, queue, incidents,
receipts, context, durable log) and each transaction as a function on them; `Store.dfy` holds the same transactions as
methods of a class in the statement order of the source, proved against those functions. `Dispatch.dfy` says what one
attempt proposes, and `Outcomes.dfy` says the same of the node, the snapshot and the outcomes of host code alone;
`Execution.dfy` is the step-by-step dispatcher, which fills a change record and resets it on error.
`Protocol.dfy` lets any number of workers, operators, producers and clocks interleave: claims, snapshots, host code,
renewals and commits are separate steps. `Invariants.dfy`, `Preservation.dfy` and `Transitions.dfy` prove one invariant
of every reachable state; `Commits.dfy` gives commits in closed form. `Consequences.dfy`, `Bindings.dfy` and
`WaitDeadlines.dfy` say, in the terms of `Tables.dfy`, what the tables show after each kind of step, without naming how
it is done. `Refinement.dfy`, `Guarantees.dfy`, `Tokens.dfy` and `Heartbeat.dfy` state what follows: interleaved
attempts behave like atomic tasks, visits close once, leases and host code never overlap, recovery goes first, events
are delivered once, retries stay within budget, and one control token moves through the graph.

**Signals.** `SignalDelivery.dfy` is the deferral policy, `SignalRuns.dfy` how often a queued signal can be deferred in a
run.

**Definitions.** `Validation.dfy` proves that validation accepts exactly the valid definitions, `Lookups.dfy` when
the dispatcher can fail on a valid one, `Reachability.dfy` when the unreachable-node report is right.

**Legacy versions.** `VersionId.dfy` is version arithmetic, `LegacyVersions.dfy` the repair plan as a function of the set
of rows, `LegacyRepair.dfy` the loops that compute it, `LegacyGuarantees.dfy` and `LegacyApply.dfy` what planning and
applying achieve.

**Expressions.** `NormalizeQuotes.dfy` defines normalization on tokens, `NormalizeScan.dfy` is the scanner,
`NormalizeMeaning.dfy` proves that the scanner's output reads back as intended.

**Editor.** `EditorHistory.dfy` is undo and redo, `EditorGraph.dfy` and `EditorRename.dfy` renaming, `EditorRanks.dfy`
and `EditorLayout.dfy` the layout, `EditorDocument.dfy` the document that uses them.

Conventions: times are milliseconds; a delay that the source cannot parse is a nonpositive one; fresh identities come
from a counter above every identity issued before; a transaction is one atomic step; what host code, conditions,
clocks and the order of row locks contribute is an arbitrary parameter (`Host`, step arguments, `locked`). The Unicode
tables used by the expression scanner are a parameter of which only the classes of a few ASCII signs are required.

## Model

| member | source | states |
|---|---|---|
| Refinement.RunRefines | src/db_service/task_execution.rs:299-428 | Any interleaving of claims, snapshots, host code, renewals, commits and outside writers has exactly the effect on the tables of a run of atomic steps in which each task that commits is loaded, computed and applied at one instant; attempts that fail to commit contribute only their claim (a lease and one attempt), renewals and releases of that lease, and a signal binding |
| Refinement.StepRefines | src/db_service/task_execution.rs:90-166 | The same for one step: computing outside a transaction is invisible, and loading shows only by binding an accepted signal to the open visit |
| Refinement.CommitIsAtomic | src/db_service/task_execution.rs:307-322 | A commit that succeeds equals an execution of the task against the tables as they are at the commit; one that fails leaves them unchanged |
| Guarantees.OneLiveLease | src/db_service/mod.rs:691-747 | In every reachable state at most one queue row of an instance holds a lease that still excludes other workers |
| Guarantees.HostsNeverOverlap | src/engine/fluxpro_runner/runner.rs:78-98 | In every reachable state at most one worker of an instance is still inside its own deadline, so host code of two workers never runs together |
| Heartbeat.MaintainLease | src/engine/fluxpro_runner/runner.rs:325-362 | The maintenance loop ends by its own deadline, or at once when it starts after it; that deadline comes from the last confirmed renewal and never lies beyond the lease end in the database, lost answers included |
| Guarantees.VisitClosedOnce | src/service/process_service/execution.rs:516-599 | In every reachable state each wait visit has been closed at most once, by one signal or one timeout, and a closed visit is never open again |
| Guarantees.ClosedStaysClosed | src/db_service/task_execution.rs:325-355 | A visit closed once stays closed exactly once along every further run, with replays, node re-entry and outside queueing |
| Guarantees.BindingKept | src/db_service/task_execution.rs:129-140 | A task's visit binding never changes once it is set, whatever step follows |
| Guarantees.SuspendedHasOneIncident | src/db_service/task_execution.rs:382-394 | An instance is suspended if and only if exactly one incident is open, and the task of that incident is queued and not leased |
| Guarantees.ResumeSucceeds | src/db_service/incidents.rs:48-85 | Resuming an open incident always succeeds in a reachable state and makes its task the recovery task; resuming a closed one changes nothing |
| Guarantees.RecoveryGoesFirst | src/db_service/mod.rs:705-744 | While a recovery task is set it is queued, and no other task can be claimed, be leased or commit |
| Guarantees.RecoveryEndsByItsTask | src/db_service/task_execution.rs:396-399 | Once set, the recovery marker changes only by the commit of the recovery task itself, which then leaves the queue |
| Guarantees.OnlyTheFenceRefuses | src/db_service/task_execution.rs:305-322 | In a reachable state a proposed commit is refused only for a lost lease, a suspended instance or a moved revision: the later checks of the transaction never fail |
| Guarantees.StoredContextIsComputed | src/service/process_service/execution.rs:438-444 | The context a successful commit stores is the map the attempt computed its route on, both for ordered patches and for merged signal and timeout payloads |
| Guarantees.FailedPreparationIsInert | src/service/process_service/execution.rs:635-656 | An attempt whose preparation failed leaves the node, the visit, the wait, the context and every other task as they were when it commits |
| Guarantees.RetriesWithinBudget | src/service/process_service/execution.rs:456-482 | In every reachable state a node task has committed at most max(its configured retries, 2) retries since its last resume, however handler and hook failures mix |
| Guarantees.RetriesCountCommits | src/db_service/mod.rs:741-743 | The counter behind that bound changes only by one with a committed retry of the same task, or to zero on resume |
| Guarantees.EventDeliveredOnce | src/db_service/mod.rs:1061-1138 | In every reachable state an event identity has at most one queued delivery ever, at most one acceptance, and a receipt exactly when it was queued |
| Guarantees.ResubmissionRefused | src/db_service/mod.rs:1085-1115 | After an event identity was admitted, and any further run, an identical submission queues nothing and a different one is rejected; neither changes the tables |
| Tokens.TokensConserved | src/service/process_service/execution.rs:279-487 | No step of an instance driven by the engine alone increases the number of control tokens (queued node tasks plus an open wait), which is at most one; it drops, operator cancellation aside, only when a node without successor commits |
| Tokens.SingleThreadOfControl | src/service/process_service/execution.rs:507-631 | In every run from start without outside queueing there is at most one control token, every queued timeout belongs to the open visit, and the current node and every queued node are reachable from Start |
| Tokens.RunThreaded | src/db_service/task_execution.rs:325-376 | The single-thread invariant and the protocol invariant hold together along every such run |
| Lookups.ValidDefinitionResolves | src/models/process_def.rs:105-369 | For a definition accepted by validation, in every run in which each node the host queues is a published one, no attempt with any outcome of host code meets a missing successor, timeout target, error target, stage, form or visit, or a payload that differs |
| Lookups.ResolvesExactly | src/service/process_service/execution.rs:492-631 | In every run from the start of such a definition, whatever the host queued, an attempt fails to resolve something if and only if its task carries a node that differs from the published one |
| Lookups.QueuedNodeDecides | src/service/process_service.rs:572-598 | What a host can check before it queues a node: if the node is the published one, no attempt at its task ever fails to resolve; if it is not, every attempt does |
| Lookups.AttemptResolves | src/service/process_service/execution.rs:500-506 | For one attempt on a snapshot of a valid definition: everything resolves if and only if its task does not carry a node that differs from the published one |
| Transitions.StepKeeps | src/db_service/task_execution.rs:299-428 | Every step of every participant preserves the whole invariant: identities, ownership, leases, deadlines, recovery, visits, closings, budgets, receipts and freshness of snapshots |
| Transitions.ReachableInv | src/db_service/task_execution.rs:430-501 | The invariant holds in every reachable state |
| Transitions.StartsReachable | src/db_service/task_execution.rs:430-501 | Reachable states exist: a definition can be started if and only if it has a Start node and an initial stage, and the started instance, described field by field, is reachable |
| Transitions.OthersIdle | src/engine/fluxpro_runner/runner.rs:78-98 | While one worker holds a live lease every other worker is past its deadline |
| Commits.CommitEffect | src/db_service/task_execution.rs:299-428 | Exactly when a commit succeeds, and its whole effect on the tables in closed form |
| Commits.PreparedProposal | src/service/process_service/execution.rs:492-656 | What any attempt can propose: at most one successor, a timeout only for its own visit, a closing only of the bound open visit, never an incident together with a successor or a retry |
| Commits.NodeProposal | src/service/process_service/execution.rs:198-490 | The same for entering a node |
| Commits.SelectedIsTarget | src/service/process_service/execution.rs:47-61 | A selected route is one of the branch targets or the fallback |
| Commits.SuccessorsLead | src/service/process_service/execution.rs:63-84 | A successor task carries the declared node of a target of the completed node |
| Commits.ExpiryLeads | src/service/process_service/execution.rs:516-570 | An accepted timeout queues exactly the declared deadline target and closes the bound visit |
| Outcomes.SelectExactly | src/service/process_service/execution.rs:47-61 | By the values of the conditions alone: the target is that of the first true branch, every earlier condition being false, or the fallback when all are false; the selection fails exactly when a condition that cannot be evaluated comes first, or when all are false and there is no fallback |
| Outcomes.ChoiceExclusive | src/service/process_service/execution.rs:47-61 | The conditions choose at most one target, and then no condition broke first |
| Outcomes.SuccessorsMean | src/service/process_service/execution.rs:63-84 | Following a successor queues exactly the declared node it leads to on the given context, or fails |
| Outcomes.DecideMeans | src/models/signal_delivery.rs:95-112 | A deferral is by the delay of the first tier that covers the age, and there is none exactly when no tier does before expiry |
| Outcomes.AttemptMeans | src/service/process_service/execution.rs:492-634 | Every attempt ends as what it met demands, said of node, snapshot and host outcomes alone: it succeeds exactly when everything it needs is there, it is uncertain exactly when a call that was made timed out or panicked, it fails on a condition exactly when one that had to be evaluated could not be; and what a successful one proposes |
| Outcomes.PreparedMeans | src/service/process_service/execution.rs:635-656 | What is proposed in place of a failed preparation: an incident at once after uncertainty or a broken condition, otherwise a retry in five seconds on the first two attempts and an incident from the third on |
| Tables.FindsFirst | src/service/process_service/execution.rs:20-28 | Of several nodes with one ID every lookup finds the first |
| Consequences.DoubtSuspends | src/service/process_service/execution.rs:636-645 | In every reachable state: when an attempt lands in which a called hook or handler was uncertain, or a condition it had to evaluate failed, the instance is suspended on any attempt, exactly one incident is open, for that task, nothing else moves, and nothing can be claimed in any further run without a resume |
| Consequences.FailureWaits | src/service/process_service/execution.rs:646-655 | When any other failed preparation lands, attempts one and two leave the row due five seconds after the attempt and later ones suspend the instance; node, visit, context, log and all other rows stay |
| Consequences.NotLandedIsInert | src/db_service/task_execution.rs:305-322 | A commit whose worker lost its lease, or whose instance has moved since it was read, changes no table |
| Consequences.GatewayLands | src/service/process_service/execution.rs:300-307 | When a gateway lands, the one new row is for the declared node of the target that the conditions choose on the stored context, due at the commit; the task is gone and the visit recorded |
| Consequences.SuccessLands | src/service/process_service/execution.rs:437-444 | When a succeeded handler lands, the stored context is the old one patched, and the one new row is for the successor that the conditions choose on that stored context, or none without a successor |
| Consequences.HandlerFailureLands | src/service/process_service/execution.rs:456-484 | When a failed handler lands: a retry after the backoff while attempts remain, then the error route, and suspension only without one |
| Consequences.RepetitionLands | src/service/process_service/execution.rs:448-450 | When a handler that asks for repetition lands, the same node is queued for the time it names |
| Consequences.EndsLand | src/service/process_service/execution.rs:279-299 | Start passes control to its first node, an End keeps no task |
| Consequences.WaitLands | src/service/process_service/execution.rs:174-196 | When a wait or user task lands, its visit is open and its timeout, if any, is the one new row, bound to that visit and due at the absolute time or else at the time of the attempt plus the delay |
| Consequences.AnswerLands | src/service/process_service/execution.rs:571-599 | When an accepted signal lands, each payload key holds the payload value, the mark holds the signal, every other key its stored value; the open visit is closed and its timeouts are gone; the successor is the one chosen on the stored map |
| Consequences.UnansweredLands | src/service/process_service/execution.rs:599-631 | When a signal lands that no open wait awaits, neither the instance nor another row changes; bound to a visit or after the end it is dropped, otherwise the tier of its age delays it or it expires |
| Consequences.ExpiryLands | src/service/process_service/execution.rs:516-570 | When a timeout lands on its own open visit, the stored context holds the four marks, else the context of the timer, else its old values; the visit is closed, its other timeouts are gone and the target is queued; any other timeout is dropped without effect |
| WaitDeadlines.TimeoutNotEarly | src/models/process_def.rs:1101-1115 | After a node with a timer was entered, in every further run in which no operator makes the timeout row due, it cannot be claimed and its visit does not expire before the time it was due on the clock |
| Bindings.RequestedVisitKept | src/db_service/mod.rs:1089 | In every reachable state a signal that names a visit is bound to that visit while queued, and every acceptance of it, by whatever worker, closed that visit and no other |
| Bindings.SubmissionMeans | src/db_service/mod.rs:1061-1138 | In every reachable state exactly the submissions without an identity or with a new well-formed one are admitted, as one row due now and bound to the requested visit, or else to the open visit of a node that awaits the signal; any other changes nothing |
| Bindings.LoadMeans | src/db_service/task_execution.rs:90-166 | Loading a held task changes only its visit binding, that of an unbound signal whose node awaits it, and shows the instance and the row exactly as they are |
| Guarantees.ResumeMeans | src/db_service/incidents.rs:48-85 | In every reachable state a resume of an open incident closes it, puts the task back to no attempts, unleased, due now, first and claimable, and changes nothing else; any other resume changes nothing |
| Execution.SelectBranch | src/service/process_service/execution.rs:47-61 | The early-exit loop returns the target of the first true branch after false ones, or the fallback when all are false, and fails exactly when a condition breaks first or nothing is chosen |
| Execution.AddNext | src/service/process_service/execution.rs:63-84 | Routing sees the context already proposed by the attempt, and appends at most one successor |
| Execution.AddTimeout | src/service/process_service/execution.rs:174-196 | Appends one timeout bound to the task identity, due at the absolute time or else after the delay, or refuses a missing target or an unparsable delay |
| Execution.Announce | src/service/process_service/execution.rs:207-268 | Entry effects happen only for a new visit: previous form hidden, visit announced, stage assigned |
| Execution.HandleFailure | src/service/process_service/execution.rs:456-482 | A failed handler retries while attempts remain, then takes the error route, then raises an incident |
| Execution.Serve | src/service/process_service/execution.rs:354-485 | The proposed changes for each outcome of a service handler |
| Execution.Handle | src/service/process_service/execution.rs:279-487 | The proposed changes for each node type |
| Execution.ExpireWait | src/service/process_service/execution.rs:516-570 | A timeout closes the wait only on its own open visit, and is ignored when stale |
| Execution.DeliverSignal | src/service/process_service/execution.rs:571-631 | A signal is accepted only by its own open visit, with its payload added to the context it is routed on; otherwise it is dropped, deferred or expired |
| Execution.EnterNode | src/service/process_service/execution.rs:500-506 | A queued node that differs from its published definition is refused |
| Execution.Dispatched | src/service/process_service/execution.rs:497-634 | Dispatch over the three kinds of task |
| Execution.Process | src/service/process_service/execution.rs:492-656 | After any error every proposed effect is discarded and replaced: by an incident when a call was uncertain, a condition broke or attempts ran out, by a retry in five seconds otherwise |
| Execution.TaskExecutionChanges.QueueNode | src/service/process_service/execution.rs:30-45 | Appends one node task and changes nothing else |
| Stores.Store.FetchQueueTask | src/db_service/mod.rs:691-747 | Claims, among the rows that are free and not locked, one due no later than any other, of these created no later, of these with the smallest identity; counts the attempt and sets the lease; returns nothing exactly when there is none |
| Stores.Store.RenewQueueTaskLock | src/db_service/mod.rs:772-797 | Refuses a lease of no duration, extends a lease still owned by the key, and reports any other case without a change |
| Stores.Store.RetryQueueTask | src/db_service/mod.rs:799-821 | Releases an owned row for a later attempt, or fails without a change |
| Stores.Store.LoadTaskExecution | src/db_service/task_execution.rs:90-166 | Fenced snapshot; binds an unbound signal that the current node accepts |
| Stores.Store.ConsumeWait | src/db_service/task_execution.rs:325-344 | Closes the wait and removes its sibling timeouts, or refuses a closed wait or a changed visit |
| Stores.Store.EnterVisit | src/db_service/task_execution.rs:345-355 | Makes the source task identity the visit identity and reopens the wait |
| Stores.Store.WriteContext | src/db_service/task_execution.rs:356-363 | An ordered patch takes precedence over a merged context |
| Stores.Store.WriteStage | src/db_service/task_execution.rs:223-241 | Assigns a declared stage or refuses |
| Stores.Store.Enqueue | src/db_service/task_execution.rs:243-282 | Inserts one task under a fresh identity, or refuses an undeclared target |
| Stores.Store.EnqueueTasks | src/db_service/task_execution.rs:368-374 | The loop over scheduled tasks stops at the first refused one |
| Stores.Store.Dispose | src/db_service/task_execution.rs:382-399 | Suspends with an incident, clears a finished recovery, or leaves the instance running |
| Stores.Store.SettleSource | src/db_service/task_execution.rs:400-416 | Deletes the source task, or releases it for a retry or an incident, only under a live lease |
| Stores.Store.CommitTaskExecution | src/db_service/task_execution.rs:299-428 | The whole transition in statement order, rolled back on any refusal |
| Stores.Store.ResumeInstance | src/db_service/incidents.rs:48-85 | Compare-and-set recovery of one open incident: its task starts over, due now and first |
| Stores.Store.AdminRetryQueueTask | src/admin/mod.rs:774-785 | An operator makes an unleased task due |
| Stores.Store.AdminCancelQueueTask | src/admin/mod.rs:787-814 | An operator deletes an unleased task that neither an open incident nor a recovery needs |
| Stores.Store.EnqueueSignalIfNew | src/db_service/mod.rs:1061-1138 | Admits exactly the well-formed new signals, with receipt and history, bound to the requested visit or else to the open visit of a node that awaits it; reports exactly the identical repetitions; otherwise changes nothing |
| Stores.Store.ApplyProcessInstancePatch | src/db_service/mod.rs:305-320 | Patches the context and moves the revision |
| Stores.Store.SaveProcessInstanceContext | src/db_service/mod.rs:911-943 | Merges the context and moves the revision |
| Stores.Store.SetProcessInstanceStage | src/db_service/mod.rs:495-523 | Assigns a stage the definition declares and moves the revision, or refuses without a change |
| Stores.Store.QueueNode | src/db_service/mod.rs:648-689 | Queues any node the host supplies, without a revision change |
| Stores.StartProcessInstance | src/db_service/task_execution.rs:430-501 | Instance, initial stage, context and the Start task together, or nothing when the definition has no Start node, has no initial stage, or is not active and effective when its row is locked; the first Start node is queued, due now |
| Contexts.PatchedIsLastWrite | src/models/context_map/context_map.rs:153-165 | Applying a patch leaves under each key the value of its last operation, or the stored value when the patch does not name it |
| Contexts.ApplyPatcher | src/models/context_map/context_map.rs:153-165 | The in-place loop computes the meaning of the ordered operations |
| Contexts.MergeContext | src/db_service/task_execution.rs:203-221 | Merging one variable at a time gives the union preferring the supplied values, whatever the order of iteration |
| Contexts.PersistPatch | src/db_service/task_execution.rs:179-201 | The statement-by-statement patch of stored variables has the same meaning as patching the map |
| SignalRuns.DeferralsInRun | src/db_service/mod.rs:691-747 | From any state of a run in which a signal is queued and unclaimed, with ordered tiers, one policy and one clock: in every further run its deferrals number at most the bound of the policy plus the number of times an operator made it due, whatever workers, releases, renewals and resumed incidents do; that decisions wait for the retry time before them is derived from the claim guard |
| SignalRuns.AdmittedDeferrals | src/models/signal_delivery.rs:41-74 | From its admission in any reachable state to the end of any run, a signal under the default policy is deferred at most 441 times plus once for every time an operator made it due |
| SignalRuns.OperatorDefersForever | src/admin/mod.rs:774-785 | The operator term is needed: from an instance with no current node and a due signal there is, for every n, a run of n deferrals all at one instant of the clock |
| SignalRuns.AdmissionIsIdle | src/service/process_service/execution.rs:571-631 | The state that counterexample starts from is one signal admission away from the start of an instance |
| SignalDelivery.HurriedBounded | src/models/signal_delivery.rs:95-112 | For ordered tiers with positive delays, decisions in order of time number at most the sum over tiers of ceil(width / delay) plus the decisions made before the retry time set by the one before |
| SignalDelivery.DeferralsBounded | src/models/signal_delivery.rs:95-112 | Decisions none of which is made before admission or before the retry time set by the one before number at most that sum |
| SignalDelivery.DefaultBound | src/models/signal_delivery.rs:41-74 | The default tiers are ordered and their bound is 441 |
| SignalDelivery.DefaultDeferrals | src/models/signal_delivery.rs:41-74 | Under the default policy some sequence of 441 decisions, each not before the retry time set by the one before, exists and none of 442 does |
| Validation.Validate | src/models/process_def.rs:105-369 | Validation reports no error if and only if the definition is valid: unique names, one Start, an End, one initial stage, ordered dates, every reference declared, sound waits, timers, retries and conditions |
| Validation.CheckReferences | src/models/process_def.rs:160-369 | No error exactly when every node a node refers to is declared, executed or reserved |
| Validation.CollectUniqueIds | src/models/process_def.rs:450-462 | Collects all names and reports an error exactly when one repeats |
| Reachability.UnreachableNodes | src/models/process_def.rs:375-394 | The worklist terminates; for unique node IDs it reports in definition order exactly the nodes to which no path of targets leads from Start, and with the Starts first it does so exactly under the condition of `ReportExactly` |
| Reachability.ReachedIsConnected | src/models/process_def.rs:375-394 | Everything the worklist reaches is connected to Start, and when no two different nodes share an ID everything connected is reached |
| Reachability.TargetMeans | src/models/process_def.rs:415-450 | Targets are first nodes, branches, fallbacks, successors, deadlines of waits and error routes of service tasks, and nothing else |
| Reachability.ReachedByHeads | src/models/process_def.rs:378-392 | When every Start is the first node of its ID, the worklist reaches exactly the closure from Start along the targets of the first-declared nodes |
| Reachability.HeadEdge | src/models/process_def.rs:385-392 | In that closure an ID leads where the node found under it leads |
| Reachability.ReportExactly | src/models/process_def.rs:375-394 | For every definition whose Starts come first, other IDs repeated or not, the report is the complement of the closure of all targets if and only if the closure along first-declared nodes holds every declared target of every node that shares an ID in it |
| Reachability.NothingShadowedDecides | src/models/process_def.rs:375-394 | For every definition at all, the report is that complement if and only if no node sharing a reached ID names a declared target that was not reached |
| Reachability.ReportIsComplement | src/models/process_def.rs:375-394 | Unique node IDs suffice: the report is the complement of the reflexive-transitive closure of the targets |
| Reachability.DuplicateIdsMisreport | src/models/process_def.rs:385-392 | With a repeated node ID the worklist reports a connected node as unreachable; one such definition for every choice of three IDs |
| VersionIds.CompareIsNumeric | src/models/version_id.rs:104-114 | Component-wise order is the order of the numbers major*2^64 + minor*2^32 + patch, and no two versions share a number |
| VersionIds.SuccessorAddsOne | src/migrations/legacy_versions.rs:221-233 | The successor exists exactly below 2^96 - 1 and is the next number |
| VersionIds.ParsePrint | src/models/version_id.rs:37-67 | Parsing undoes printing |
| VersionIds.PrintInjective | src/models/version_id.rs:37-67 | Different versions print differently |
| LegacyRepair.Collect | src/migrations/legacy_versions.rs:235-254 | The first loop groups rows by key and version text and keeps the largest version of each key; it fails exactly for a repeated identity or an unparsable version |
| LegacyRepair.Assignments | src/migrations/legacy_versions.rs:235-280 | Assignment succeeds if and only if identities are distinct, versions parse and every key has room; its result is a function of the set of rows, so the order of rows does not matter |
| LegacyRepair.RanOut | src/migrations/legacy_versions.rs:267-269 | A key that runs out of numbers in the middle of the loop had no room to begin with |
| LegacyVersions.SurplusCount | src/migrations/legacy_versions.rs:257-266 | However the retained members are chosen, a key gives up exactly its rows beyond one per version |
| LegacyVersions.Retained | src/migrations/legacy_versions.rs:263-266 | The retained member is ahead of every other member of its group, and it alone is not surplus |
| LegacyGuarantees.RetainedIsPreferred | src/migrations/legacy_versions.rs:260-266 | A member is retained if and only if it is preferred to every other of its group: eligible first, then by index, creation time and identity |
| LegacyGuarantees.NumbersFollowOrder | src/migrations/legacy_versions.rs:256-277 | Within a key the rows of a smaller version text get smaller numbers, and of one text the preferred members do |
| LegacyGuarantees.NewVersion | src/migrations/legacy_versions.rs:267-277 | A surplus row's new version is the normalized text of its key's old maximum plus its place among the reserved ones, above every version the key had |
| LegacyGuarantees.LaterIsLarger | src/migrations/legacy_versions.rs:267-277 | Within a key, later changes get larger versions |
| LegacyGuarantees.RepairRemovesDuplicates | src/migrations/legacy_versions.rs:235-344 | After a repair no two rows share a key and a version text, identities stay distinct and every version parses |
| LegacyGuarantees.RepairIsIdempotent | src/migrations/legacy_versions.rs:235-280 | Planning again after a repair, at any time, yields no change |
| LegacyGuarantees.UnambiguousNeedsNothing | src/migrations/legacy_versions.rs:257-262 | The plan is empty if and only if no two rows share a key and a version text |
| LegacyGuarantees.RepairTouchesVersionsOnly | src/migrations/legacy_versions.rs:282-344 | A repair changes the version fields of surplus rows and nothing else; exactly the surplus rows change |
| LegacyGuarantees.RepairKeepsSourcesConsistent | src/migrations/legacy_versions.rs:290-340 | The JSON and YAML of a repaired row name the new version |
| LegacyGuarantees.DefaultSelectionKept | src/db_service/mod.rs:406-431 | Selection without a version may pick a definition after the repair exactly when it might before, at every time |
| LegacyGuarantees.ExplicitSelection | src/db_service/mod.rs:406-431 | At every time after a repair a version that existed before selects the retained member while that is eligible and nothing otherwise, so a row selected before stays selected if and only if it is the retained one |
| LegacyGuarantees.ExplicitSelectionKept | src/migrations/legacy_versions.rs:257-266 | At every time without ties, a repair leaves the answer for such a version as it was if and only if no member of its group is eligible then or the member retained at planning would be retained then as well |
| LegacyGuarantees.LaterSelectionLost | src/db_service/mod.rs:406-431 | The condition can fail later: when the retained row expires and another of its group becomes eligible, a request that found the other row before the repair finds nothing after it |
| LegacyApply.AppliedSelectionKept | src/migrations/legacy_versions.rs:184-193 | At the moment a plan is applied no untied selection of an existing version changes, in any key of the table: the recheck at apply time is what ensures it |
| LegacyApply.RepairedRows | src/migrations/legacy_versions.rs:282-344 | Rewriting succeeds exactly when every listed row agrees with its JSON and YAML, and rewrites exactly the listed rows |
| LegacyApply.DefinitionTable.PlanLegacyVersions | src/migrations/legacy_versions.rs:79-117 | The plan holds all rows of affected keys in identity order and their assignments; it fails exactly when these cannot be numbered or rewritten |
| LegacyApply.DefinitionTable.ApplyLegacyVersionPlan | src/migrations/legacy_versions.rs:124-214 | Refused plans change nothing; accepted ones have exactly the stated outcome and effect |
| LegacyApply.DefinitionTable.UpdateRows | src/migrations/legacy_versions.rs:194-207 | The loop of single-row updates rewrites exactly the rows of the plan |
| LegacyApply.ApplyDecides | src/migrations/legacy_versions.rs:124-214 | Which plans are accepted and to what end: reviewed ones of this database whose original rows are in place and whose retained members are still preferred are applied, those whose result is in place or that have no changes are confirmed, all others are refused |
| LegacyApply.ApplyTwice | src/migrations/legacy_versions.rs:175-182 | A second apply, at any later time, finds its own result, reports so and changes nothing |
| LegacyApply.ApplyTouchesSurplusOnly | src/migrations/legacy_versions.rs:194-207 | An applied plan renumbers exactly its surplus rows and leaves every other row of the table as it was |
| LegacyApply.PlanThenApply | src/migrations/legacy_versions.rs:79-214 | A fresh plan applied while the same members are preferred succeeds and leaves no duplicate anywhere in the table; it is empty exactly when there was none |
| NormalizeScan.NormalizeExpression | src/service/mod.rs:37-124 | The index-driven scanner computes normalization on tokens, for every character sequence and every Unicode classification |
| NormalizeScan.CopyLiteral | src/service/mod.rs:61-87 | One literal: double-quoted and back-quoted ones verbatim, single-quoted ones requoted, unterminated ones and trailing backslashes included |
| NormalizeScan.CopyBlock | src/service/mod.rs:48-60 | One block comment, verbatim up to its closing mark or the end |
| NormalizeScan.SkipReserved | src/service/mod.rs:95-117 | The lookahead recognizes exactly a reserved property access behind `ctx` |
| NormalizeMeaning.NormalizedTokens | src/service/mod.rs:37-124 | Reading the normalized text gives exactly the rewritten tokens of the original text: no token merges, splits or swallows another |
| NormalizeMeaning.NormalizeIdempotent | src/service/mod.rs:37-124 | Normalizing twice is normalizing once, for every text |
| NormalizeMeaning.NormalizeKeepsMeaning | src/service/mod.rs:37-124 | Comments, back-quoted literals, words and signs are kept verbatim, every other literal keeps its text and whether it is closed, and the same accesses to the reserved property are made |
| NormalizeMeaning.RequotedSameText | src/service/mod.rs:61-87 | A requoted literal decodes to the same text, and is closed exactly at its end when the original was closed |
| NormalizeMeaning.NormalForm | src/service/mod.rs:37-124 | The result holds no single-quoted literal and needs no further rewriting |
| NormalizeMeaning.LexSeparates | src/service/mod.rs:37-124 | Reading a text gives tokens that spell it and cannot run into each other |
| NormalizeMeaning.LexInvertsText | src/service/mod.rs:37-124 | Such tokens are read back from the text they spell |
| EditorHistory.MovesKeepTimeline | src/editor/document.rs:839-853 | Any mixture of undo and redo keeps past ++ [document] ++ reverse(future) and the bound of 100 |
| EditorHistory.RedoInvertsUndo | src/editor/document.rs:839-853 | Redoing n undone steps restores the exact state |
| EditorHistory.EditExtendsTimeline | src/editor/document.rs:809-829 | An edit drops the undone part, appends one entry, keeps the bound, and undo returns to the edited document |
| EditorHistory.EditorState.Edit | src/editor/document.rs:809-820 | A failed edit changes nothing; a successful one records one step |
| EditorHistory.EditorState.Checkpoint | src/editor/document.rs:822-829 | Testing for exactly 100 entries suffices to keep past and future together within 100 |
| EditorHistory.EditorState.Undo | src/editor/document.rs:839-846 | Undo moves one step back on the same timeline |
| EditorHistory.EditorState.Redo | src/editor/document.rs:848-853 | Redo moves one step forward on the same timeline |
| EditorGraph.RenameIsIsomorphism | src/editor/document.rs:353-396 | Replacing an ID throughout the nodes replaces it throughout the connections, with the same order, labels and pointers |
| EditorGraph.TargetsAreConnections | src/editor/document.rs:353-396 | Every node ID stored in a node is listed as a connection |
| EditorGraph.ConnectionsAreTargets | src/editor/document.rs:353-396 | Every connection addresses the ID it reports |
| EditorGraph.NodeFromParts | src/editor/settings.rs:90-107 | A node is determined by its shape and the IDs at its pointers |
| EditorRename.Retarget | src/editor/settings.rs:88-107 | The loop over connections that writes one pointer at a time renames every route, self loops, branches, timeouts, error and compensation routes included |
| EditorRename.PureRename | src/editor/settings.rs:67-118 | A draft that changes only the ID yields exactly the old connections with that ID replaced |
| EditorRename.RenameKeepsValid | src/editor/settings.rs:67-118 | A definition that validated still validates after a rename to a free ID |
| EditorRename.TargetIsReference | src/models/process_def.rs:415-484 | The editor's routes are references that validation checks |
| EditorRename.ReferenceIsTarget | src/models/process_def.rs:415-484 | Every reference that validation checks is one of the editor's routes |
| EditorDocuments.EditorDocument.SaveNodeSettings | src/editor/settings.rs:67-118 | A draft is saved exactly when the block exists unchanged, the draft parses, keeps the type and takes a free ID; nodes and positions follow the rename, and any refusal changes nothing |
| EditorDocuments.EditorDocument.AutoLayout | src/editor/document.rs:476-529 | The positions of the document become the layout of its own nodes and routes; the nodes stay as they are |
| EditorDocuments.EditorDocument.Open | src/editor/document.rs:279-307 | Documents with a repeated node ID are refused |
| EditorRanks.Ranks | src/editor/document.rs:479-495 | The breadth-first loop terminates on cycles and gives exactly the reached declared nodes the length of a shortest route from a start node |
| EditorLayout.Layers | src/editor/document.rs:496-508 | Unreached nodes follow in definition order, and all ends share one rank below every other node |
| EditorLayout.Layout | src/editor/document.rs:476-529 | Every declared node and nothing else gets a position: by ranks, each row centred under the widest with its cards in definition order, each row one gap below the lowest end of a card above it, clamped to the canvas |
| EditorLayout.LayoutUnique | src/editor/document.rs:476-529 | The graph determines every position: two layouts by layers of the same nodes and routes are equal, whatever numbers they use for the ranks |
| EditorLayout.SpreadApart | src/editor/document.rs:509-528 | Cards placed by ranks and rows do not touch |
| EditorLayout.NoOverlap | src/editor/document.rs:35-41 | Two cards that are not at the edge of the canvas never overlap; in particular no two nodes inside the canvas share a position |
| EditorLayout.RowsDescend | src/editor/document.rs:509-528 | A card of a smaller rank is drawn strictly above a card of a larger one unless both are at the lower edge of the canvas |

## Left out

- Stores.Store.FetchQueueTask: the slice is one instance, so the choice among instances is not modelled; `Protocol` lets a claim take any claimable row, which covers `SKIP LOCKED` and every order.
- Stores.Store.SetProcessInstanceStage: takes a stage of the instance's definition, as `assign_stage` resolves it (src/service/process_service.rs:548-571); the writer itself would store the identity of any stage.
- SignalRuns.DeferralsInRun: the decision reads the same clock as the queue; a worker whose clock differs from that of the database is not covered.
- SignalDelivery.DeferralsBounded: says nothing of a queue row; that each decision waits for the one before is its hypothesis, and `SignalRuns` derives it for rows.
- EditorDocuments.EditorDocument.Open: forms, signals and escalations are not part of the document here, so the refusal of their repeated IDs (src/editor/document.rs:289-302) is not modelled.
- LegacyApply.DefinitionTable.ApplyLegacyVersionPlan: YAML sources are their key, version and remaining content; formatting and comments lost by rewriting the text are not represented, nor is a database without the definition table.
- EditorLayout.NoOverlap: coordinates are integers in the steps of the source; positions at the canvas limit may coincide, so the claim is for cards inside it.
- Heartbeat.MaintainLease: a call that returns at the very instant of the deadline counts as overdue.
- Validation.Validate: which errors are reported, their texts and their order; the syntax of identifiers, dates and durations.
- Context variables in scopes other than the default one, and the direct writer of a single variable.
- Widths of the attempt counter and the revision, and saturation of very long leases.
- Rows of `queue_cancel_task`, signal history, stage history and the execution log beyond entered nodes, stage changes, queued and accepted signals and accepted timeouts.
- The statement that checks status and effective period at startup, which is a parameter here, handler registration, and timeouts or panics of host code beyond an uncertain outcome.
- The low-level path (`handle_node`, `queue_next_node`, `cancel_queue_tasks`, `kill_queue_task`, `create_event_schedule`, `set_process_current_node`), which its documentation calls non-atomic.
- Editor operations that add, connect, disconnect or remove blocks, YAML import and export, canvas geometry, the web pages, and monitoring: single edits and views without consequences for other parts.
- Definition immutability, which database triggers enforce, is assumed: no step changes a definition.
