# Verified model of the Argent control plane

Argent drives agent jobs from persisted rows: every effect is a compare-and-swap on a row, and invariants must survive
restarts, replays and rival holders. This project models the parts of it where that is hardest to see and proves, for
every input, every run or every reachable store, what they are for. `dafny verify dfyconfig.toml` checks everything.

The store is a value (or a class whose fields the methods reassign) with exactly the compare-and-swaps of
`argent_core/store.py`. Times are integers, hashes and MACs are injective, and a transaction that raises leaves every row
as it was. Protocols are state machines over their atomic steps, with other actors, crashes and clock readings arbitrary
between any two steps; the imperative procedures are methods proved to be runs of those machines, or to compute the
functions the theorems are about.

| file | what it models |
|---|---|
| `Supervisor.dfy` | the single active supervisor over hosts, boots, pids and start ticks |
| `StateMachine.dfy`, `Workflow.dfy`, `WorkflowCore.dfy`, `WorkflowLaws.dfy` | the task state machine, the workflow frontier and state synchronisation, the commands as row updates, and who works when |
| `IntegrationOrder.dfy` | the deterministic integration order, Kahn's algorithm with a heap |
| `CommitGraph.dfy`, `MergeQueue.dfy`, `MergeQueueDriver.dfy`, `ProcessTarget.dfy`, `QueuePass.dfy` | merge classification, the merge queue, its procedures, and a whole processing pass |
| `Recovery.dfy`, `StuckCandidate.dfy` | recovery against a holder that comes back, and a candidate that is deferred for ever |
| `IntegratedHistory.dfy`, `OutOfOrder.dfy` | the integrated history over the commit graph, and where it is lost |
| `Provider.dfy`, `Broker.dfy`, `BrokerDriver.dfy`, `Settlement.dfy`, `Reconciliation.dfy` | the in-memory provider, the external action broker, its procedures, what each step does to its request, and what a reconciled success rests on |
| `OwnerGate.dfy`, `GateLaws.dfy`, `CallbackProcessor.dfy` | approvals, challenges, update log and cursor, who may decide and what that does, and the same as row updates |
| `ContextItems.dfy`, `ContextRender.dfy`, `ContextPack.dfy` | de-duplication, rendering, trimming and building of context packs |
| `PathRoots.dfy`, `Concurrency.dfy` | path roots and the structural concurrency policy |
| `CiAggregation.dfy` | CI aggregation and the wake decision |

## Where the code falls short of what it says

Each of these is a lemma below; the code is modelled as it is.

- Left to the open findings, the reviewer toggle of a rework cycle can change after the reviewer reported, and the task
  stalls in REVIEWING with no next role (`Workflow.DefaultToggleStalls`; exactly when: `Workflow.StallExactly`).
- `deterministic_order` blocks more than the cycles its documentation names: whatever waits for a deferred candidate too
  (`IntegrationOrder.BlockedBehindDeferred`; exactly what: `IntegrationOrder.BlockedIff`). In a processing pass, on the
  other hand, nothing is ever blocked, so the step that marks cycle members BLOCKED is unreachable
  (`MergeQueue.NeverBlocks`, `ProcessTarget.PassOrder`).
- `enqueue_candidate` stores an explicit job-id dependency untranslated, against its documentation; such a candidate, like
  one that depends on a candidate of another target, becomes READY and is then deferred in every pass
  (`ProcessTarget.DeferredForever`; reached from the initial store: `StuckCandidate.JobDependencyGetsStuck`).
- Recovery looks at the recorded holder before the reset and not with it, so a holder that regains its lock in between is
  reset although it is live (`Recovery.ResetHitsALiveHolder`; exactly when: `Recovery.ResetHitsLiveHolderIff`).  Its run can
  then never write again (`Recovery.InterruptedRunNeverWrites`).
- The integration base is the last INTEGRATED row in list order, not in time, so work integrated out of order is left out
  of later heads (`OutOfOrder.OutOfOrderLosesHistory`; exactly when: `IntegratedHistory.BaseCoversHistoryIff`).
- A policy denial of a request already in flight is no edge of the transition map: nothing changes, yet an EXECUTED audit
  row is written (`Broker.DenyTakesEffectExactly`).
- The broker consumes an owner approval without an execution record and without releasing the parked task
  (`OwnerGate.BrokerConsumptionStrandsIff`, `OwnerGate.BrokerStrandsATask`).
- `reject` lets the task of the rejected approval go without asking what else it waits for, and looks at expiry before the
  status, so even rejecting an approval executed long ago frees a task parked for another open one
  (`OwnerGate.RejectFreesATaskStillGatedIff`, `OwnerGate.RejectingAnExecutedApprovalFreesTheTask`).
- An accepted path root with whitespace at an end is not a fixed point of the normalisation that the overlap test applies,
  and may vanish from it, so that two writers of the same root are admitted (`PathRoots.NormIsIdentityIff`,
  `PathRoots.TrailingSpaceVanishes`, `Concurrency.VanishingRootAdmitsBoth`).
- The self-check of the context builder can fire: on a fact or result reference, or an artifact hash, that no earlier step
  bounds, and on a budget whose soft limit exceeds its hard one (exactly when: `ContextPack.Build`; an input:
  `ContextPack.OverlongReferenceFires`).

## Model

| member | source | states |
|---|---|---|
| `Supervisor.SingleActiveSupervisor` | argent_core/background_runtime.py:293-342 | Over every interleaving of supervisor starts, acquire, heartbeat, release, death, pid reuse and reboot on hosts sharing one store, two supervisors that live, have acquired and have not released are the same one, and it owns the row |
| `Supervisor.RebootedHostTakesOver` | argent_core/background_runtime.py:230-267 | A run from an empty store in which a supervisor started after a reboot, on the same pid and start ticks, takes over the row of the one before |
| `Supervisor.TakesOverEarlierBoot` | argent_core/background_runtime.py:293-342 | From any state, a row left by an earlier boot of the same machine is taken over by any idle live instance there that is left alone |
| `Supervisor.AcquireLeftAlone` | argent_core/background_runtime.py:201-342 | An acquisition that is left alone with every probe answered takes the row over exactly if the recorded owner is provably gone: its row is of another boot of this machine, or no live process here has its pid and start ticks; otherwise it changes nothing |
| `Supervisor.GoneIff` | argent_core/background_runtime.py:201-246 | When start ticks are not repeated, provably gone is gone, on this boot or on another one of a machine whose id was recorded |
| `Supervisor.CrashedOwnerIsReplaced` | argent_core/background_runtime.py:230-342 | An owner that died without a reboot is replaced by any idle live instance on its host that is left alone |
| `Supervisor.VerdictOfProbes` | argent_core/background_runtime.py:201-267 | With answered probes: takeover exactly on a provably gone owner, live owner exactly on the same boot and the recorded start ticks |
| `Supervisor.DeadVerdictIsSound` | argent_core/background_runtime.py:201-246 | A takeover verdict is right: the recorded owner is gone, although boot id, machine id, pid and start ticks were read at different instants |
| `Supervisor.LiveVerdictIsSound` | argent_core/background_runtime.py:201-246 | A live verdict is right when start ticks tell processes of one pid and boot apart |
| `Supervisor.ClonedMachineIdSplitsTheBrain` | argent_core/background_runtime.py:230-237 | Unique machine ids are needed: with two hosts cloned with one id, a run from the beginning ends with two live supervisors that have both acquired |
| `Supervisor.SwapDisplacesNobody` | argent_core/store.py:3199-3231 | A winning compare-and-swap of the row never displaces a live active owner |
| `Supervisor.InvPreserved` | argent_core/background_runtime.py:293-376 | Every step of the world or of a supervisor keeps the invariant behind the two results above |
| `Supervisor.HolderKeepsRow` | argent_core/background_runtime.py:349-376 | Through any run without its own release, an active instance that is still alive owns the row, and its next heartbeat commits |
| `Supervisor.DisplacedIsSilent` | argent_core/background_runtime.py:349-376 | In every run, an active instance that no longer owns the row is dead and takes no step in any continuation |
| `Supervisor.FencedOutUntilItSwaps` | argent_core/background_runtime.py:349-376 | Once the row names another instance, no heartbeat or release changes it in any continuation, until the instance swaps again |
| `Supervisor.WinnerOwnsRow` | argent_core/store.py:3199-3231 | After a won swap the row names the winner, with its true boot id, pid and start ticks |
| `Supervisor.SupervisorInstance.Acquire` | argent_core/background_runtime.py:293-342 | The bounded acquire loop, whatever interferes, takes exactly these steps: three identity reads, then up to five rounds of read, probes of an unreleased owner and a swap only on a verdict that allows it; its answer is the verdict of the last round (Ambiguous if all were lost); it reports success exactly when it made this instance the owner of the row, and never to one that is active already |
| `Supervisor.SupervisorInstance.ClassifyExisting` | argent_core/background_runtime.py:248-267 | The two probes of the recorded owner at different instants decide between takeover and refusal |
| `Supervisor.SupervisorInstance.RenewLease` | argent_core/background_runtime.py:349-359 | Renewal is never refused to a live holder and changes nothing for a displaced one |
| `Supervisor.SupervisorInstance.ReleaseRow` | argent_core/background_runtime.py:361-376 | Release always succeeds for a live holder, marks the row released, and leaves a foreign row alone |
| `Workflow.ViewsNeverDiverge` | argent_core/core.py:1801-1902 | In every run from a fresh task the task state, seen through a recovery pause, is one function of the dispatch and decision history, and no next command makes the state synchronisation raise |
| `Workflow.ConsumedExactlyOnce` | argent_core/core.py:1801-1902 | In every run the consumed positions of each cycle are exactly 0..k-1, no position of a cycle is consumed twice, and at most one dispatch is in flight |
| `Workflow.SyncFollowsHistory` | argent_core/core.py:1801-1902 | From the state the history calls for, the plan of any dispatch at the frontier is legal step by step and ends in the state the longer history calls for |
| `Workflow.ConsumeSync` | argent_core/core.py:1872-1902 | Consuming the dispatch in flight, also out of RECOVERING, never raises and lands where the new history says |
| `Workflow.StepKeepsInv` | argent_core/core.py:2337-2481 | Create, bind, receive, fail, recover and findings changes all keep the two views together |
| `Workflow.CreateView` | argent_core/core.py:2020-2054 | Admission at the frontier changes the history view in no way but to put the new row at the first unconsumed position |
| `Workflow.StatusChangeKeepsInv` | argent_core/core.py:2665-2723 | Status changes that consume nothing, recovery included, keep the invariant whatever they do to the pause |
| `Workflow.FrontierPosition` | argent_core/core.py:418-465 | The frontier is the number of consumed positions of the current cycle, with the role the sequence has there, or none past its end |
| `Workflow.Progress` | argent_core/core.py:1906-2161 | Whenever the frontier names a role, create, bind and receive carry that role through, and it is recorded at exactly the frontier position |
| `Workflow.StallExactly` | argent_core/core.py:418-482 | Exactly when an open, idle task has no next role: the final decision waits for the owner, or a rework reviewer has reported and the toggle now reads skip |
| `Workflow.ExplicitTogglesNeverStall` | argent_core/core.py:467-482 | If every rework decision fixes its reviewer, an open, idle task has no next role exactly in FINAL_DECISION |
| `Workflow.DefaultToggleStalls` | argent_core/core.py:467-482 | With the toggle left to the open findings a reachable task stalls in REVIEWING |
| `WorkflowCore.Core.CurrentFrontier` | argent_core/core.py:418-465 | The loops over history and positions compute the frontier the theorems speak of |
| `WorkflowCore.Core.FirstUnconsumed` | argent_core/core.py:459-465 | The position loop finds the first position that is not consumed |
| `WorkflowCore.Core.ReworkIncludeForCycle` | argent_core/core.py:467-482 | The reverse scan finds the latest rework decision of the previous cycle, or falls back to the open findings |
| `WorkflowCore.Core.CreateDispatch` | argent_core/core.py:2020-2054 | A dispatch is added exactly at the frontier, when none is active and the task is neither terminal nor paused |
| `WorkflowCore.Core.BindSpawnResult` | argent_core/core.py:2163-2291 | A pending row becomes running or rejected, and nothing else changes |
| `WorkflowCore.Core.ApplyStateSync` | argent_core/core.py:1872-1902 | The loop over the plan ends in the state of the synchronisation function, or raises exactly when that has none |
| `WorkflowCore.Core.ReceiveResult` | argent_core/core.py:2337-2481 | Row, decision, findings and task change together, or, when the synchronisation raises, not at all |
| `WorkflowCore.Core.MarkFailed` | argent_core/core.py:2483-2555 | Only a running or recovery-pending row is failed |
| `WorkflowCore.Core.Recover` | argent_core/core.py:2665-2723 | A running row and every unspawned writer become RECOVERY_PENDING, an unspawned reader FAILED, all else stays; a task with an unresolved row waits in RECOVERING, one without goes back |
| `WorkflowLaws.WriterFailsOnlyWhenMarked` | argent_core/core.py:2682-2693 | In every run an implementer row is FAILED only because it was marked so by name; no recovery fails one |
| `WorkflowLaws.UnresolvedWriterParks` | argent_core/core.py:2665-2723 | An unresolved writer parks its task, and nothing can be dispatched meanwhile |
| `WorkflowLaws.ReportsMark` | argent_core/core.py:2163-2520 | What binding, a malformed or unauthentic result and a failure make of a row, and when they are refused |
| `WorkflowLaws.StandardCycleCompletes` | argent_core/core.py:418-482 | A run from a fresh task through Lead, Analyst, Lead, Implementer, QA, Reviewer, Lead ends in DONE |
| `WorkflowLaws.ReworkCycleCompletes` | argent_core/core.py:418-482 | A rework cycle works through exactly the roles its opening decision asked for, with or without the reviewer, and ends in DONE |
| `IntegrationOrder.DeterministicOrder` | argent_core/integration_candidate.py:471-578 | The outcome partitions the READY candidates, each once: ordered is the greedy order and exactly the grounded ones, blocked exactly the ungrounded ones whose dependency is READY, deferred the rest, both the stable sort of their listing by position |
| `IntegrationOrder.BlockedIff` | argent_core/integration_candidate.py:558-572 | A candidate is blocked exactly if its chain of unsatisfied dependencies reaches a cycle, or a deferred candidate over at least one edge |
| `IntegrationOrder.KahnOrder` | argent_core/integration_candidate.py:534-556 | Kahn with a priority heap computes the reference order: always the least available candidate, until none is left |
| `IntegrationOrder.Round` | argent_core/integration_candidate.py:547-556 | One pop orders the least entry, frees exactly its dependents and keeps heap and counts meaning what they mean |
| `IntegrationOrder.BuildGraph` | argent_core/integration_candidate.py:504-528 | The graph has one edge per unsatisfied dependency, and counts 1 for it even when the dependency is not READY |
| `IntegrationOrder.OrderedIffGrounded` | argent_core/integration_candidate.py:477-502 | A candidate is ordered exactly when its dependency chain ends in a satisfied one, and only once |
| `IntegrationOrder.LexicographicallyLeast` | argent_core/integration_candidate.py:477-488 | Any other dependency-respecting sequence is a prefix of the order or first differs at a later key |
| `IntegrationOrder.IndependentInKeyOrder` | argent_core/integration_candidate.py:530-556 | Where no dependency interferes the order is by queue position, then higher priority, then id |
| `IntegrationOrder.OrderIgnoresListing` | argent_core/integration_candidate.py:471-502 | The order depends only on which candidates there are |
| `IntegrationOrder.CyclesAreBlocked` | argent_core/integration_candidate.py:558-572 | Every member of a dependency cycle, a self-dependency included, is blocked |
| `IntegrationOrder.BlockedBehindDeferred` | argent_core/integration_candidate.py:558-572 | Whatever waits for a deferred candidate is blocked too, though it is on no cycle |
| `IntegrationOrder.SortIsStable` | argent_core/integration_candidate.py:574-576 | The final sort is by position and keeps the listing order within one position |
| `CommitGraph.ClassificationMeaning` | argent_core/integration_candidate.py:586-639 | What each verdict says about the history, whichever best common ancestor git reports, and exactly when it is given |
| `CommitGraph.AddCommitKeepsValid` | argent_core/integration_candidate.py:404-420 | A new merge commit keeps the graph a partial order, leaves old ancestors as they are and descends from its parents |
| `MergeQueue.StepKeepsInv` | argent_core/merge_queue.py:683-853 | Every action of every run keeps the row, run and one-integrating invariants, forgets nothing recorded, and never blocks |
| `MergeQueue.DependencyClosure` | argent_core/merge_queue.py:367-437 | In every reachable store a READY, INTEGRATING or INTEGRATED candidate has an INTEGRATED prerequisite, and none is BLOCKED |
| `MergeQueue.IntegratedIsPermanent` | argent_core/merge_queue.py:683-853 | An INTEGRATED row never changes again |
| `MergeQueue.UninterruptedFinalisation` | argent_core/merge_queue.py:697-853 | An INTEGRATED row ends in claim, prepare, merge with its head, passed evidence and close, at consecutive revisions and by one holder |
| `MergeQueue.SignedMeansFenced` | argent_core/store.py:4822-4887 | Whoever signs a transition holds the job lease and the queue lock at that very step |
| `MergeQueue.StaleRunIsHarmless` | argent_core/merge_queue.py:697-727 | A run whose candidate has moved on can write nothing and stays behind for ever |
| `MergeQueue.ResetStrandsRuns` | argent_core/merge_queue.py:943-995 | A reset leaves every run of that candidate behind |
| `Recovery.ResetHitsLiveHolderIff` | argent_core/merge_queue.py:964-991 | A reset overwrites the very row the check saw; it hits a holder with both lease and lock exactly if that holder regained one between check and reset and kept both |
| `Recovery.ResetHitsALiveHolder` | argent_core/merge_queue.py:964-991 | A run from the initial store in which it does, while the run of the holder is still driving the candidate |
| `Recovery.InterruptedRunNeverWrites` | argent_core/merge_queue.py:964-991 | After a reset no run that was driving the candidate ever writes a row again, whatever follows |
| `Recovery.ResetIsTakenUpAgain` | argent_core/merge_queue.py:964-991 | What a reset leaves is made READY by the next evaluation with a clear review, with the same work recorded, and any holder of lease and lock may claim it |
| `Recovery.LiveLockIsKept` | argent_core/store.py:4451-4505 | Nobody takes the lock of a live holder |
| `Recovery.AcquireIff` | argent_core/store.py:4451-4505 | A lock is acquired exactly when it is free, is held by the caller, or its holder has no current lease |
| `Recovery.EnqueueStores` | argent_core/merge_queue.py:323-363 | What a new candidate stores: an explicit dependency as given, else that of its source job as a candidate of the same queue |
| `MergeQueue.NeverBlocks` | argent_core/merge_queue.py:897-908 | No READY candidate has a READY prerequisite in its queue, so nothing can be blocked |
| `ProcessTarget.PassOrder` | argent_core/merge_queue.py:885-919 | A pass orders exactly the READY candidates without a dependency or with one recorded in their own queue, in plain key order, and blocks none |
| `ProcessTarget.DeferredForever` | argent_core/merge_queue.py:323-363 | A READY candidate whose dependency is recorded as a job id or in another queue is deferred by every later pass, although its prerequisite is INTEGRATED |
| `StuckCandidate.JobDependencyGetsStuck` | argent_core/merge_queue.py:323-437 | A run from the initial store that integrates the prerequisite and promotes such a candidate to READY |
| `QueuePass.ProcessQueue` | argent_core/merge_queue.py:857-939 | A whole pass takes the READY candidates with a dependency of this queue (or none) in the one order by position, priority and id, counts their outcomes up to the first that stops it, reports nothing blocked, and every candidate it reports INTEGRATED is; it is refused exactly when another live holder has the lock |
| `QueuePass.OrderQueue` | argent_core/merge_queue.py:885-911 | The listing, the integrated ids and the integration order together yield exactly that sequence, with nothing blocked |
| `MergeQueueDriver.MergeQueueRunner.IntegrateLocked` | argent_core/merge_queue.py:683-853 | Whatever interferes: the claim commits exactly if lease, lock and the row as read still hold and nothing else is in flight; the steps after it are the legs of the procedure, each decided by its own answer and the classification of the store it was made in; the state reported is the row state, the state first read or INTEGRATING; it says it closed the candidate only for an unbroken run of this holder with authenticated passing tests |
| `MergeQueueDriver.MergeQueueRunner.ChooseBase` | argent_core/merge_queue.py:752-784 | The base and classification of one store decide whether the run goes on or how the candidate is marked |
| `MergeQueueDriver.MergeQueueRunner.PrepareAndMerge` | argent_core/merge_queue.py:786-815 | Worktree, preparation and merge: which steps are taken and which ends the run |
| `MergeQueueDriver.MergeQueueRunner.TestAndClose` | argent_core/merge_queue.py:817-847 | No closing transition without authentic evidence, and it is closed only by its own committed one |
| `MergeQueueDriver.MergeQueueRunner.IntegrateCandidate` | argent_core/merge_queue.py:647-681 | The same inside the lock, which is given back in every case; a candidate reported INTEGRATED is INTEGRATED, and a locked target changes nothing |
| `MergeQueueDriver.MergeQueueRunner.IntegrateInOrder` | argent_core/merge_queue.py:912-933 | The loop goes through the order one at a time, its report is the tally of the outcomes, and it ends early exactly after a conflict, a failure, a lock it cannot get or a raised error |
| `MergeQueueDriver.MergeQueueRunner.EvaluateCandidate` | argent_core/merge_queue.py:408-437 | A PENDING or STALE candidate becomes READY exactly if its prerequisite was INTEGRATED and the review is clear, else PENDING, unless its row moved, which raises; one that is READY afterwards has its prerequisite INTEGRATED |
| `MergeQueueDriver.MergeQueueRunner.EvaluateAll` | argent_core/merge_queue.py:885-892 | Unless one raises, every candidate listed PENDING or STALE has been rewritten |
| `MergeQueueDriver.MergeQueueRunner.ReconcileTarget` | argent_core/merge_queue.py:943-995 | Everything reported as reset was put back to PENDING without a holder; every candidate still in flight as it was listed had a holder with both lease and lock when it was looked at; no lock is left with a dead holder |
| `MergeQueueDriver.MergeQueueRunner.RecoverOne` | argent_core/merge_queue.py:964-991 | A candidate is reset exactly if it is in flight as listed and its holder lacks lease or lock; the reset leaves it PENDING without a holder and otherwise as it was; nothing else changes |
| `MergeQueueDriver.CurrentIntegrationBase` | argent_core/merge_queue.py:444-461 | The scan of the listing yields the head of the last INTEGRATED row in list order, or else the branch tip |
| `MergeQueueDriver.ListCandidates` | argent_core/store.py:4701-4726 | The listing holds exactly the rows of the queue, in position, priority and id order |
| `MergeQueueDriver.GitMergeBase` | argent_core/integration_candidate.py:290-299 | Climbing from a common ancestor ends at a best one |
| `IntegratedHistory.IntegratedHistoryGrows` | argent_core/merge_queue.py:444-461 | If the candidates of a queue became INTEGRATED in list order, every integrated head descends from all integrated before it |
| `IntegratedHistory.NewHead` | argent_core/merge_queue.py:751-834 | Closing a candidate: the new head descends from its source and its base, the claimed base is an ancestor of both sides, and the head descends from an earlier one exactly when the base or the source did |
| `IntegratedHistory.BaseCoversHistoryIff` | argent_core/merge_queue.py:444-461 | The next base covers all integrated heads exactly when the last in list order and the last in time share one head |
| `IntegratedHistory.StepKeepsHistory` | argent_core/merge_queue.py:751-834 | Every action keeps the graph a partial order and the base of each run up to date |
| `IntegratedHistory.Carry` | argent_core/merge_queue.py:683-853 | A READY candidate with a clean merge, a lasting holder and passing tests is carried to INTEGRATED |
| `OutOfOrder.OutOfOrderLosesHistory` | argent_core/merge_queue.py:444-461 | A reachable store whose latest integrated head does not descend from an earlier one |
| `Broker.DispatchBound` | argent_core/external_action_broker.py:1202-1335 | Over every interleaving with expiry, lost fences and crashes a request is dispatched at most 9 times and makes at most 19 transitions |
| `Broker.BudgetIsTight` | argent_core/external_action_broker.py:1437-1470 | Some run of any request reaches both bounds |
| `Broker.StepFollowsEdgeMap` | argent_core/external_action_broker.py:187-208 | Every row change is one edge of the map and uses up a lexicographic measure of attempts left and state |
| `Broker.TerminalIsForever` | argent_core/external_action_broker.py:187-208 | A terminal request is never reopened |
| `Broker.OnePullRequest` | argent_core/external_provider_adapter.py:327-362 | At most one Argent-owned pull request per repository, branches, head and key, over all runs with crashes, and every succeeded create has its own |
| `Broker.ReconcileNeedsEvidence` | argent_core/external_action_broker.py:1508-1541 | Reconciliation moves a row exactly when its probe found the object and the row is as read, and a create then has its pull request |
| `Reconciliation.ReconciledSuccessIsEarned` | argent_core/external_action_broker.py:1474-1541 | In every run, a request that reconciliation moves goes to SUCCEEDED; its driver read it in flight and unexpired at the revision it still has, and found the object, for a create a pull request of its own identity |
| `Broker.DenyTakesEffectExactly` | argent_core/external_action_broker.py:1545-1559 | A denial changes exactly a current PENDING or AUTHORIZED row, and writes its audit row in every case |
| `Broker.StepKeepsInv` | argent_core/external_action_broker.py:1202-1541 | Every step keeps revision, attempts, entries and provider facts in step |
| `BrokerDriver.ExternalActionBroker.Execute` | argent_core/external_action_broker.py:1202-1278 | Refused exactly on an unknown request or a wrong state; an expired one ends BLOCKED, a denied one DENIED unless already waiting; else the row ends as its steps and the answer of the provider say; the state reported is the row state, and SUCCEEDED is backed by the provider |
| `BrokerDriver.ExternalActionBroker.Drive` | argent_core/external_action_broker.py:1280-1335 | The fenced start, won exactly if the row is as read; then a refusal, or one dispatch and its settlement; success ends SUCCEEDED, a waiting or unavailable provider WAITING_EXTERNAL while the budget lasts, everything else FAILED |
| `Settlement.SettleMeans` | argent_core/external_action_broker.py:1367-1470 | What each answer makes of a row that is still EXECUTING under its fence, and nothing otherwise |
| `Settlement.UninterruptedRound` | argent_core/external_action_broker.py:1202-1470 | A round that nothing interrupts ends in the state its answer calls for, two revisions on, with the effect at the provider |
| `Settlement.PerformedCreateSucceeds` | argent_core/external_action_broker.py:1202-1392 | An authorised create that the provider performs ends SUCCEEDED with its pull request there |
| `Settlement.ExpireMeans` | argent_core/external_action_broker.py:1175-1200 | An expired request ends BLOCKED from any open state, and only if the row is as read |
| `Settlement.AuthorizeMeans` | argent_core/external_action_broker.py:1037-1174 | Authorization moves a request from PENDING to AUTHORIZED and nothing else |
| `BrokerDriver.ExternalActionBroker.Reconcile` | argent_core/external_action_broker.py:1474-1541 | Nothing happens unless the request is in flight; then expiry first, else exactly probe and settlement; SUCCEEDED is backed by the provider |
| `Provider.CreateThenObserve` | argent_core/external_provider_adapter.py:327-410 | A create names the one pull request of its identity, the probe finds that one, and repeating the create changes nothing |
| `Provider.PushThenObserve` | argent_core/external_provider_adapter.py:310-325 | A successful push is found by the probe and may be repeated |
| `Provider.PerformKeeps` | argent_core/external_provider_adapter.py:310-376 | No operation duplicates, drops or relabels a pull request |
| `Provider.FakeGitHubAdapter.Scan` | argent_core/external_provider_adapter.py:336-344 | The duplicate scan finds the first owned pull request of the identity |
| `Provider.FakeGitHubAdapter.CreatePr` | argent_core/external_provider_adapter.py:327-362 | An injected failure changes nothing but the call record; otherwise the create of the specification |
| `Provider.FakeGitHubAdapter.PushBranch` | argent_core/external_provider_adapter.py:310-325 | An existing branch is never moved; a push succeeds exactly on a valid commit and a new branch or one that is there already, and then sets branch and repository |
| `Provider.FakeGitHubAdapter.UpdatePr` | argent_core/external_provider_adapter.py:364-376 | Succeeds exactly on a known pull request; only its title and body change, only if given; identity, owner and all others stay |
| `Provider.FakeGitHubAdapter.Probe` | argent_core/external_provider_adapter.py:380-410 | The probe of pushes and creates, and nothing for anything else |
| `OwnerGate.ExactlyOnceDecision` | argent_core/approval_processor.py:529-702 | Over callbacks interleaved with all owner commands, a challenge and an approval have at most one decision row each; the row matches the terminal status and consumed update, and every consumed challenge has its row |
| `OwnerGate.RecordsAreFinal` | argent_core/approval_core.py:230-257 | Ended challenges and log rows never change, and the cursor only grows |
| `OwnerGate.ReplayIsNoOp` | argent_core/approval_processor.py:444-494 | Every logged update is behind the cursor or at the saturated one, and processing it again with any payload leaves the whole store as it is |
| `OwnerGate.CallbackNeverFindsStaleGate` | argent_core/approval_processor.py:620-664 | The changed-gate and expired-approval branches are unreachable: an expired outcome touches no approval and no task |
| `OwnerGate.ApprovalOutlivesChallenge` | argent_core/approval_core.py:99-186 | A live challenge has an approval with the same binding that is not expired, because its expiry is capped by it |
| `OwnerGate.CallbackTouches` | argent_core/approval_processor.py:730-772 | A callback changes tasks and approvals only as the owner command on its challenge would |
| `OwnerGate.StepKeepsInv` | argent_core/core.py:1085-1359 | Every command keeps log, challenges, approvals and executions consistent and rewrites nothing recorded |
| `OwnerGate.GatesNeverStrand` | argent_core/core.py:1148-1359 | Over all runs without the broker a parked task has an open approval and a valid state to resume |
| `OwnerGate.ClosingReleases` | argent_core/core.py:1170-1288 | Closing an open approval releases its task, even while another approval of it is open |
| `OwnerGate.OneExecutionPerConsumption` | argent_core/core.py:1290-1359 | Without the broker an approval is consumed exactly when one execution names it, and then only one |
| `OwnerGate.BrokerConsumptionStrandsIff` | argent_core/external_action_broker.py:1116-1141 | After the broker consumes an approval its parked task is grounded exactly if another approval of it is open |
| `OwnerGate.BrokerStrandsATask` | argent_core/external_action_broker.py:1116-1141 | Request, approve, then the broker: a reachable parked task with no open approval |
| `OwnerGate.RejectFreesATaskStillGatedIff` | argent_core/core.py:1170-1198 | Rejection lets a parked task go while an approval of it stays open exactly if the rejected approval is of that task and is expired, however long ago it was closed, or pending, and some open approval is untouched by it |
| `OwnerGate.RejectingAnExecutedApprovalFreesTheTask` | argent_core/core.py:1170-1198 | A run from the empty store reaches such a rejection, of an approval executed long ago |
| `CallbackProcessor.ApprovalStore.Process` | argent_core/approval_processor.py:230-303 | The checks in order compute the processing function; a callback that is not the decision of the owner in the chat of the owner touches nothing and is never answered as one; one that is decides exactly when it is timely and the approval open |
| `GateLaws.OnlyTheOwnerDecides` | argent_core/approval_processor.py:249-303 | No other callback touches a task, approval, challenge or execution, or writes a decision row |
| `GateLaws.StrangersAreLogged` | argent_core/approval_processor.py:270-295 | The first identity check that fails is logged and answered |
| `GateLaws.DecidesIff` | argent_core/approval_processor.py:529-702 | A decision takes effect exactly on a new update, an open challenge inside its window and a pending approval, and then closes challenge and approval together and blocks the task of a rejected one |
| `GateLaws.UntimelyIsAnswered` | argent_core/approval_processor.py:556-615 | What an unknown, used, expired or untimely challenge is answered with, and that only one that ran out is closed |
| `GateLaws.OneOpenEver` | argent_core/core.py:1085-1117 | In every run a gate has at most one open approval and an approval at most one open challenge |
| `GateLaws.AskedThenExecuted` | argent_core/core.py:1085-1358 | Asking parks the task where it is, and executing the approved action puts it back there with one execution record |
| `GateLaws.ExpiryReleases` | argent_core/core.py:1264-1290 | Expiry puts a parked task back where it was, or blocks it if that is no state to go back to |
| `CallbackProcessor.ApprovalStore.DecideInTransaction` | argent_core/approval_processor.py:529-619 | Stale, duplicate, unknown, ended, expired and badly dated callbacks, each with its log row and cursor move |
| `CallbackProcessor.ApprovalStore.DecideOnApproval` | argent_core/approval_processor.py:620-702 | Challenge, approval, task, log and cursor move together, and a failed decision rolls all of it back |
| `CallbackProcessor.ApprovalStore.PersistTerminalRow` | argent_core/approval_processor.py:444-494 | A terminal outcome is logged once, below the cursor only as stale |
| `CallbackProcessor.ApprovalStore.Advance` | argent_core/approval_processor.py:802-812 | The cursor is monotone and saturates |
| `CallbackProcessor.ApprovalStore.ApproveAsOwner` | argent_core/core.py:1148-1230 | Approved exactly if pending, unexpired and bound to this gate; a pending approval found expired is expired; a run of the machine |
| `CallbackProcessor.ApprovalStore.RejectAsOwner` | argent_core/core.py:1170-1262 | Rejected exactly if pending, unexpired and bound to this gate, with the expiry-first order, as a run of the machine |
| `CallbackProcessor.ApprovalStore.ExecuteAsOwner` | argent_core/core.py:1288-1358 | An approved unexpired approval is consumed with one new execution record and its task goes back; an expired one is expired; a run of the machine |
| `CallbackProcessor.ApprovalStore.ExpireAndReleaseRow` | argent_core/core.py:1264-1288 | The approval expires if it may, and a parked task is released in any case |
| `ContextPack.Build` | argent_core/context_pack.py:887-1008 | A built pack holds exactly the trimmed items, their projection, provenance and token counts, keeps every REQUIRED item, passes its self-check, and carries an expansion reason exactly when it overruns the soft budget; every refusal, the one by the self-check included, has its exact condition, and with bounded references and soft <= hard only item count, budget or a bad reason fail the build |
| `ContextPack.OverlongReferenceFires` | argent_core/context_pack.py:887-1008 | A concrete input, one REQUIRED fact with a reference of 513 characters, on which the self-check fires under any budget that fits |
| `ContextPack.Trim` | argent_core/context_pack.py:861-876 | The items minus the shortest prefix of the removal order (by group, then id) whose render fits, or minus all of it |
| `ContextPack.TrimFacts` | argent_core/context_pack.py:839-876 | Trimming fits the soft budget exactly if giving up everything removable would, and never touches a REQUIRED item |
| `ContextPack.GivenUpInOrder` | argent_core/context_pack.py:838-876 | Optional history goes first, then agent results, then optional, then normal items, then important ones that can be fetched again; nothing else ever |
| `ContextPack.InstructionsAreKept` | argent_core/context_pack.py:744-876 | The objective and every acceptance criterion, constraint and policy reference survive every trimming |
| `ContextPack.TokensShrink` | argent_core/context_pack.py:1111-1134 | Removing more items never costs more tokens |
| `ContextPack.PlaceholderIsExact` | argent_core/context_pack.py:1015-1020 | The 27-character placeholder gives the token count of any real pack id |
| `ContextPack.PackIgnoresOrder` | argent_core/context_pack.py:744-834 | The same criteria, constraints, facts, artifacts, history and results in any order and number give the same items, when colliding artifacts agree |
| `ContextRender.RenderHasLength` | argent_core/context_pack.py:1023-1073 | The length of the rendered prompt is the sum of its sections |
| `ContextRender.ProjectionKeeps` | argent_core/context_pack.py:672-743 | Every field of the projection holds exactly the contents of the items of its own source |
| `ContextRender.EstimateIsAQuarter` | argent_core/context_pack.py:215-227 | One token for every four characters, rounded down, and never none |
| `ContextRender.ProjectItems` | argent_core/context_pack.py:672-718 | The projection loop computes the schema fields |
| `ContextItems.Dedup` | argent_core/context_pack.py:813-834 | One item per key, the first with the highest importance, in canonical order |
| `ContextItems.DedupIgnoresOrder` | argent_core/context_pack.py:813-834 | Permuted or repeated inputs de-duplicate alike |
| `ContextItems.HighestImportanceWins` | argent_core/context_pack.py:813-834 | Each key keeps its highest importance on one item |
| `ContextItems.ImportanceIsKept` | argent_core/context_pack.py:813-834 | De-duplication never lowers an importance, and lists what is required first and what is optional last |
| `PathRoots.ConflictIsOverlap` | argent_core/concurrency_policy.py:294-308 | Canonical roots conflict exactly when some path lies under a root of each side |
| `PathRoots.ConflictIsOverlapOfNormalForms` | argent_core/concurrency_policy.py:294-308 | Any roots at all conflict exactly when some path lies under the non-empty normal form of a root of each side |
| `PathRoots.PrefixIsSegmentPrefix` | argent_core/concurrency_policy.py:282-291 | The string prefix test is the segment prefix test |
| `PathRoots.NormIsIdentityIff` | argent_core/concurrency_policy.py:216-279 | Normalising an accepted root gives it back exactly when it has no whitespace at its ends |
| `PathRoots.TrailingSpaceVanishes` | argent_core/concurrency_policy.py:216-308 | A concrete accepted root that the overlap test drops |
| `PathRoots.ValidatedShape` | argent_core/concurrency_policy.py:237-279 | An accepted root is a non-empty path of plain segments |
| `PathRoots.RefusedRoots` | argent_core/concurrency_policy.py:237-279 | Nothing, absolute paths, drives and paths that start above their root are refused |
| `PathRoots.PlainRootsAreAccepted` | argent_core/concurrency_policy.py:237-279 | Every path of plain segments without outer whitespace that is no drive is accepted as it is |
| `PathRoots.NormalisePath` | argent_core/concurrency_policy.py:216-234 | The segment stack loop computes the normal form |
| `PathRoots.ValidatePath` | argent_core/concurrency_policy.py:237-279 | The depth counter rejects exactly the paths that pop above the root |
| `PathRoots.RootsConflict` | argent_core/concurrency_policy.py:294-308 | The pairwise scan decides the conflict |
| `Concurrency.AdmissionStaysConflictFree` | argent_core/concurrency_policy.py:364-475 | Over all admission runs active writers have different worktrees and disjoint footprints, a GLOBAL job is alone, a REPO_GLOBAL job is alone in its repository |
| `Concurrency.AdmittedWritersShareNoPath` | argent_core/concurrency_policy.py:321-347 | Two admitted writers of one repository never have a path in common under their canonical roots |
| `Concurrency.VanishingRootAdmitsBoth` | argent_core/concurrency_policy.py:321-475 | A concrete admission run lets two writers of one repository in that declare the same accepted root with a trailing space |
| `Concurrency.AllowedIff` | argent_core/concurrency_policy.py:364-475 | A job is allowed exactly when its dependency is met and it is compatible, job by job, with everything active |
| `Concurrency.VerdictIff` | argent_core/concurrency_policy.py:364-475 | BLOCK exactly on a missing prerequisite, DEFER exactly on one not done, SERIALIZE exactly when an active job stands against it; that job is named with its reason, and it is the first of its kind |
| `Concurrency.AdmittedWritersInPlainTerms` | argent_core/concurrency_policy.py:321-475 | Two admitted jobs that write, by role or by class, share no worktree, and in one repository neither branch nor target |
| `Concurrency.OrderDoesNotMatter` | argent_core/concurrency_policy.py:364-475 | Whether a job is allowed does not depend on how the active jobs are listed |
| `Concurrency.CompatibleIsSymmetric` | argent_core/concurrency_policy.py:321-347 | Compatibility and footprint overlap are symmetric |
| `Concurrency.DecideJob` | argent_core/concurrency_policy.py:364-475 | The chain of scans with early returns yields verdict, reason and first conflicting job of the decision function |
| `CiAggregation.LadderIsWorst` | argent_core/ci_external_wait.py:265-351 | On validated checks and a non-empty required set the passes yield the worst single status |
| `CiAggregation.UnionIsWorse` | argent_core/ci_external_wait.py:265-351 | Aggregation distributes over the union of required sets |
| `CiAggregation.OptionalNeverDecides` | argent_core/ci_external_wait.py:265-351 | Readings that agree on the required names aggregate alike |
| `CiAggregation.SuccessIff` | argent_core/ci_external_wait.py:265-351 | SUCCESS exactly when something is required and all of it concluded SUCCESS |
| `CiAggregation.SuccessWakeIff` | argent_core/ci_external_wait.py:943-1169 | A SUCCESS wake happens exactly before the deadline on a valid read with the bound head and base, an OPEN pull request and every required check concluded SUCCESS |
| `CiAggregation.WakesIff` | argent_core/ci_external_wait.py:943-1169 | Each way to wake exactly when: deadline, moved head, moved base, closed or merged pull request, a required check gone, or a final worst required status |
| `CiAggregation.BadReadsNeverWake` | argent_core/ci_external_wait.py:853-892 | A read that is not about this pull request, out of bounds or not understood never wakes |
| `CiAggregation.ChangedSetIsNoSuccess` | argent_core/ci_external_wait.py:1178-1188 | A wake because a required check vanished never carries SUCCESS |
| `CiAggregation.AggregateRequired` | argent_core/ci_external_wait.py:331-351 | The successive passes compute the aggregate |

## Left out

- The rest of the repository: execution scopes, resource governor, model routing, handoffs, checkpoints, notifications, the
  service wrapper and the provider adapter over `gh`; SQLite, git and process calls appear only as the answers they give.
- Process visibility: every supervisor of a host is assumed to see all its processes (no pid namespaces or containers), and
  boot ids and machine ids to be unique; `Supervisor.ClonedMachineIdSplitsTheBrain` shows what the latter is needed for.
- Supervisor.SingleActiveSupervisor: every supervisor that starts has an instance id of its own, as the default does; an id passed in
  twice by callers is not modelled.
- The supervisor runtime loop around acquire, heartbeat and release: passes, sleeping, signals and its error states.
- Several tasks at once in the workflow; role runs, handoffs, quarantine and events; the owner gate and free lead decisions
  during a workflow run. The gate has its own model in `OwnerGate.dfy`.
- Job ids that look like candidate ids; the admission checks of `enqueue_candidate` beyond the ancestry of the claimed base.
- Policy evaluation, provenance, parameter validation and sanitising in the broker; who holds its leases and locks is left
  arbitrary, which proves more than the code needs.
- MergeQueueDriver.MergeQueueRunner.IntegrateLocked: the integration worktree, branch ownership and test planning are answers
  given from outside.
- OwnerGate.GatesNeverStrand: the expiry transaction after a raised expiry is a step of its own, allowed at any time.
- CallbackProcessor.ApprovalStore.ApproveAsOwner: idempotency keys and events are not recorded.
- Stored ids, content hashes and the canonical JSON of a context pack, and the shape checks on them; capability tiers.
- Check names and required names are taken as already normalised; backoff times, evidence records and the wake row of a CI wait.
- Text is a sequence of characters; letters are a parameter of the drive-letter check.
