# Verified model of the sealer's core

This project models the parts of a Filecoin sealer where several activities meet: the window-proof change handler, the
sealing task scheduler, the work tracker, the sector state machine, piece packing, the message batchers, and the readers
and batches around window proofs. It proves what these parts keep over every run.

| files | what they model |
|---|---|
| `Deadlines`, `ChangeHandler`, `ChangeHandlerObjects`, `ChangeHandlerLock`, `ChangeHandlerWitness` | the prover and submitter loops, their proof cache, its announcement channel and its lock |
| `RequestQueue`, `QueueRemoval`, `Scheduler`, `SchedulerObjects`, `Resources`, `WindowAccounts` | the task queue, scheduling windows, their compaction, and the resource accounts |
| `CallTracker`, `CallTrackerObjects` | works, calls, waiters and restarts of the sector manager, and the tracker of running calls |
| `SectorFsm`, `SectorHandlers`, `SectorSafety`, `SectorRuns`, `SectorUpdates`, `SectorDeals`, `SectorFreeze`, `SectorForced`, `SectorWitness` | the planner table, what events write, what every handler sends, runs of the two together, and where they get stuck |
| `PowersOfTwo`, `Packing` | padding, fillers and the layout of a sector |
| `Collateral`, `Batcher`, `BatcherObjects` | what commit and precommit messages cost, and who hears about them |
| `PieceReader`, `WindowPost` | random access over a forward stream; batches, skipped sectors and retries of window proofs |

Protocols are step systems: a state, the events enabled in it, and a function giving the next state; a run is a sequence
of such steps, and theorems speak of every position of every run. Objects whose methods change fields are classes whose
methods are proved equal to the step functions. What chain, messager, sealer, prover and storage answer is a parameter of
the step, so every answer is covered.

## Results that are not as one might expect

- A generation that was cancelled but reports success clears the prover's current generation, whichever that is; the
  failure path checks identity, the success path does not. `ChangeHandler.StepKeepsProverOk` shows that this is the only
  step that breaks the prover's bookkeeping, `ChangeHandlerWitness.LateSuccessRunsTwoGenerations` gives a run in which
  the same window is then proved twice at a time.
- A scheduling round finds positions in the queue and removes them from the last to the first, and each removal sorts the
  queue anew with an unstable sort. The round neither loses nor copies a request, whatever the sorts do, if and only if
  no picked request, but for the last one, is tied under the order with a request that was not picked
  (`QueueRemoval.RemovalRightIff`, `Scheduler.RoundConservesIff`). Otherwise a request that is in a window may stay queued
  while another one is lost (`QueueRemoval.TwinIsLost`).
- The unsigned test of virtual memory is right exactly for workers whose reserved memory fits in physical memory plus
  swap; beyond that it admits tasks that need more virtual memory than there is, while physical memory, cores and GPUs
  are still tested (`Resources.TestIsRightIffReservedFits`).
- A prover that finds the announcement channel full waits for room while it holds the cache's lock. If the submitter is
  about to look into the cache by then, neither ever moves again (`ChangeHandlerLock.ReleasesIffNotDoomed`,
  `ChangeHandlerLock.DeadlockedIff`, `ChangeHandlerWitness.DoomIsReachable`).
- Starting a work that already has a call lets the first call's result answer for the second
  (`CallTracker.StartOnlyOnce`, `CallTracker.SecondStartMisroutes`).
- Some planning rounds report no event consumed: Committing for an event it does not know, the final states (FaultReported,
  FaultedFinal, FailedUnrecoverable) for one that is not global, and the routing for ReleaseSectorKeyFailed. Since pending
  events are kept from the reported count on, such an event at the head of the queue freezes the sector, and not even
  removal or termination gets through. `SectorFreeze.FrozenIffBlocked` says exactly when, over all states and queues;
  `SectorWitness.FreezesAreReachable` gives runs into each case.
- Nothing sends the events that report a fault, so a sector comes into Faulty, FaultReported, FaultedFinal or
  FailedUnrecoverable only by a forced state, and what freezes otherwise is Committing or ReleaseSectorKeyFailed
  (`SectorForced.FaultStatesAreForced`, `SectorForced.UnforcedFreezes`). Even then there is no fault message to wait for
  (`SectorForced.FaultIsNeverConfirmed`).
- Two handlers use what they looked up without a test whether the chain has it: the cutoff of a commit its precommit, the
  submission of a replica update its partition and sector. `SectorSafety.HandlerSafe` gives the exact condition for a nil
  pointer in every state, `SectorWitness.PanicsAreReachable` runs to both.
- The commit check never reports a precommit on chain, so that branch of the CommitFailed handler, which would wait
  for a precommit message, is dead (`SectorSafety.CheckCommitSafe`).
- The GetTicket handler sends an event its planner refuses, `SectorSealPreCommit1Failed`, and it is dropped.
- A client may be told that its deal was taken although the sector does not get it: when a later deal that there was room
  for cannot be written, the pieces written before it are left out of the failure event. `Packing.AcceptedIsLostIff` says
  exactly when.
- A round of single messages and one summed message cost the same, except when the miner pays from its balance without
  fallback and the sum exceeds the total supply (`Collateral.RoundSpendsSendAmount`).
- A round decides to aggregate by the length of the queue, but leaves out sectors without a known collateral, so the
  aggregate may have fewer sectors than the network's minimum (`BatcherObjects.AggregateReachesMinimumIff`).
- An aggregate for which no collateral is known returns neither a result nor an error, and its sectors stay queued
  (`BatcherObjects.ProcessBatch`).

## Model

| member | source | states |
|---|---|---|
| Deadlines.NextDeadline | storage/wdpost_changehandler.go:528-541 | the next deadline opens, closes and is challenged exactly one challenge window later, also across the period boundary |
| Deadlines.FirstUncached | storage/wdpost_changehandler.go:228-246 | the search over cached proofs terminates and stops at a deadline without one |
| Deadlines.FirstUncachedIsEarliest | storage/wdpost_changehandler.go:228-246 | it stops at the earliest such deadline: every one before it has cached proofs |
| ChangeHandler.OneLiveSubmission | storage/wdpost_changehandler.go:409-502 | in every interleaving a window has at most one live submission, the one its tracked object waits for |
| ChangeHandler.SubmittingWindowIsLive | storage/wdpost_changehandler.go:453-502 | a window in Submitting always has a live submission to wait for |
| ChangeHandler.SubmissionStartsWhenReady | storage/wdpost_changehandler.go:453-487 | a submission starts only from Start, with non-empty cached proofs and a height in [Open + confidence, Close) |
| ChangeHandler.AbortedResultIsHarmless | storage/wdpost_changehandler.go:409-442 | the result of a cancelled submission changes no tracked window |
| ChangeHandler.CompleteUntilRevert | storage/wdpost_changehandler.go:409-442 | a completed window leaves Complete only in a head change that reverts below its opening |
| ChangeHandler.NoLostTrigger | storage/wdpost_changehandler.go:388-502 | a window that could be submitted has a trigger still to be handled, or its submission failed since the last head change |
| ChangeHandler.TriggerStep | storage/wdpost_changehandler.go:108-127 | no single step, including caching a proof between any two others, makes a ready window lose its trigger |
| ChangeHandler.StepKeepsSubmitterOk | storage/wdpost_changehandler.go:388-502 | every submitter step keeps the pairing of window objects and submissions |
| ChangeHandler.StepKeepsProverOk | storage/wdpost_changehandler.go:211-270 | a step keeps the prover's bookkeeping if and only if it is not a cancelled generation's late success |
| ChangeHandler.OneLiveGeneration | storage/wdpost_changehandler.go:211-270 | if cancelled generations report errors, at most one generation is live, and it is the current one |
| ChangeHandler.CurrentUntilDone | storage/wdpost_changehandler.go:248-270 | the current generation is given up only by its own result or by its own expiry |
| ChangeHandler.ProofsCachedOnce | storage/wdpost_changehandler.go:211-270 | under the same assumption no window's proofs enter the cache twice |
| ChangeHandlerWitness.LateSuccessRunsTwoGenerations | storage/wdpost_changehandler.go:52-83 | without it there is a run, with every head in its own deadline and handed to both loops in turn, that ends with two live generations for one window |
| ChangeHandlerObjects.PostsCache.Add | storage/wdpost_changehandler.go:108-119 | caching and announcing are one step while the channel has room; on a full channel the proofs are written and the lock stays held |
| ChangeHandlerObjects.PostsCache.Take | storage/wdpost_changehandler.go:340-388 | reading an announcement makes room for one that waits and gives the lock back |
| ChangeHandlerObjects.ProveHandler.ProcessHeadChange | storage/wdpost_changehandler.go:211-246 | the method is the prover's head-change step |
| ChangeHandlerObjects.ProveHandler.ProcessPostResult | storage/wdpost_changehandler.go:248-270 | the method is the generation-result step, with the unchecked clear on success; on a full channel the prover is left waiting with the lock |
| ChangeHandlerObjects.SubmitHandler.ProcessHeadChangeForWindow | storage/wdpost_changehandler.go:409-442 | the method is the per-window step |
| ChangeHandlerObjects.SubmitHandler.ProcessHeadChange | storage/wdpost_changehandler.go:388-407 | a whole head change handles every tracked window exactly once, in some order, and keeps the invariant |
| ChangeHandlerObjects.SubmitHandler.ProcessPostReady | storage/wdpost_changehandler.go:444-451 | the method is the post-ready step |
| ChangeHandlerObjects.SubmitHandler.ProcessSubmitResult | storage/wdpost_changehandler.go:489-502 | the method is the submit-result step |
| ChangeHandlerLock.LockedRunIsRun | storage/wdpost_changehandler.go:108-127 | a run in which a prover may wait with the lock is a run of the step system, so all its results carry over |
| ChangeHandlerLock.DoomedMoves | storage/wdpost_changehandler.go:108-127 | once the prover waits on a full channel and the submitter is about to look into the cache, whatever is still possible only brings the end nearer |
| ChangeHandlerLock.ReleasesIffNotDoomed | storage/wdpost_changehandler.go:108-127 | a waiting prover can ever get room if and only if the submitter is not about to look into the cache |
| ChangeHandlerLock.DeadlockedIff | storage/wdpost_changehandler.go:388-487 | exactly when neither loop can do anything |
| ChangeHandlerWitness.DoomIsReachable | storage/wdpost_changehandler.go:52-119 | a run from the start, with heads handed to both loops in turn, in which that deadlock can no longer be avoided |
| RequestQueue.LessIsStrictOrder | sector-storage/request_queue.go:9-24 | the comparison is a strict order |
| RequestQueue.SortedIsUnique | sector-storage/request_queue.go:32-50 | distinct requests have exactly one sorted arrangement |
| RequestQueue.SortedUniqueIffDistinct | sector-storage/request_queue.go:32-50 | an unstable re-sort leaves a sorted queue as it is if and only if its requests are distinct under the order |
| QueueRemoval.SortedAreTied | sector-storage/request_queue.go:9-24 | any two sorted arrangements of the same requests are tied place by place |
| QueueRemoval.RemovalRightIff | sector-storage/sched.go:542-546 | over all outcomes of the sorts, removing picked positions from the last to the first leaves exactly the unpicked requests if and only if no picked request but the last is tied with an unpicked one |
| QueueRemoval.TwinIsLost | sector-storage/request_queue.go:40-50 | three requests, the first two tied: removing the first and third may leave the first and lose the second |
| RequestQueue.Queue.Push | sector-storage/request_queue.go:32-38 | pushing adds exactly one request and leaves the queue sorted |
| RequestQueue.Queue.Remove | sector-storage/request_queue.go:40-50 | removing takes exactly the request at the position; for distinct requests the rest keeps its order |
| RequestQueue.Queue.RemoveAll | sector-storage/sched.go:542-546 | removing picked positions from the last to the first, re-sorting each time, is one of the outcomes; for distinct requests exactly the unpicked ones are left in order |
| Scheduler.AssignmentConserves | sector-storage/sched.go:466-540 | every queued request is kept or given to exactly one window |
| Scheduler.RemovalKeepsTheRest | sector-storage/sched.go:542-546 | what is left in the queue is exactly what was not picked |
| Scheduler.CompactConserves | sector-storage/sched_worker.go:289-340 | compaction neither loses nor copies a task, and returns one credit per dropped window |
| Scheduler.StepKeepsCredits | sector-storage/sched_worker.go:254-340 | every step keeps the credit count of every worker |
| Scheduler.RoundConservesIff | sector-storage/sched.go:466-546 | a scheduling round neither loses nor copies a request, whatever the sorts do, if and only if its picks are safe |
| Scheduler.RequestInOnePlace | sector-storage/sched.go:344-583 | over every run whose rounds had safe picks each submitted request is queued, in one window, or started: exactly once, with the queue sorted |
| Scheduler.CreditIsExact | sector-storage/sched_worker.go:254-287 | windows requested equal requests under way, open, delivered and active windows, and stay within the limit |
| Scheduler.NoWindowDropped | sector-storage/sched.go:554-569 | the non-blocking send never takes its dropping branch: a filled window reaches its worker with its tasks |
| SchedulerObjects.TaskScheduler.FillWindows | sector-storage/sched.go:466-540 | the loop builds the chosen windows, their charged accounts and the positions to remove |
| SchedulerObjects.TaskScheduler.TryToSchedule | sector-storage/sched.go:466-583 | a scheduling round with safe picks leaves exactly the unpicked requests queued, delivers the filled windows, keeps the others open |
| SchedulerObjects.WindowWorker.MoveTasks | sector-storage/sched_worker.go:299-322 | the inner compaction loop is the specified move |
| SchedulerObjects.WindowWorker.CompactWindows | sector-storage/sched_worker.go:289-340 | the in-place compaction is the specified one |
| SchedulerObjects.WindowWorker.AssignWork | sector-storage/sched_worker.go:347-455 | assigning starts tasks without losing one, charges exactly those, and stops only when the first window's tasks do not fit |
| SchedulerObjects.WindowWorker.ProcessAssignedWindows | sector-storage/sched_worker.go:342-455 | both assign loops together conserve tasks and credit |
| Resources.CanHandleIsHasRoom | sector-storage/sched_resources.go:66-111 | on accounts that fit, the unsigned 64-bit test means that there is room |
| Resources.AdmittedFits | sector-storage/sched_resources.go:38-49 | an admitted task fits and its charge does not wrap |
| Resources.ReleaseCharged | sector-storage/sched_resources.go:51-64 | freeing a charged task subtracts exactly its need |
| Resources.StepKeepsPhasesOk | sector-storage/sched_worker.go:457-585 | a preparing task tested under one lock hold and charged under another still fits |
| Resources.AccountsAreExact | sector-storage/sched_resources.go:13-64 | over every run both accounts equal the sum of their tasks and stay within memory, virtual memory, cores and GPUs |
| Resources.TestIsRightIffReservedFits | sector-storage/sched_resources.go:66-111 | the unsigned test is right, and what it admits is safe, if and only if reserved memory fits in physical memory plus swap |
| Resources.ActiveResources.CanHandleRequest | sector-storage/sched_resources.go:66-111 | the method computes the capacity test |
| WindowAccounts.MoveDownCovered | sector-storage/sched_worker.go:299-322 | moving tasks between windows keeps both accounts covering their tasks and their sum unchanged |
| WindowAccounts.CompactionNeverUnderflows | sector-storage/sched_worker.go:289-340 | over every run a window's account covers its tasks, so freeing in compaction never underflows |
| CallTracker.WaitGetsOwnResult | sector-storage/manager_calltracker.go:230-319 | a wait on a started work gets the result of the call it was started with, or blocks until it returns; the call is then forgotten |
| CallTracker.WakeGetsOwnResult | sector-storage/manager_calltracker.go:285-319 | so does a waiter that had to block, whatever happened meanwhile |
| CallTracker.NoWaiterForgotten | sector-storage/manager_calltracker.go:361-420 | a blocked waiter is woken exactly when its call has returned |
| CallTracker.ReturnIsAccepted | sector-storage/manager_calltracker.go:361-420 | returning a result never meets an earlier one |
| CallTracker.CallGetsOwnResult | sector-storage/manager_calltracker.go:331-359 | a direct wait gets the result of its call |
| CallTracker.TrackerForgets | sector-storage/worker_tracked.go:34-104 | a call recorded and returned, in either order, is neither running nor done |
| CallTracker.StepKeepsOk | sector-storage/manager_calltracker.go:67-420 | every step, including cancelled waits and restarts, keeps the five maps consistent |
| CallTracker.StartOnlyOnce | sector-storage/manager_calltracker.go:181-228 | recording a start is safe if and only if the work has no call yet |
| CallTracker.SecondStartMisroutes | sector-storage/manager_calltracker.go:181-228 | a work started twice hands out the first call's result |
| CallTrackerObjects.WorkManager.SetupWorkTracker | sector-storage/manager_calltracker.go:67-103 | after a restart the calls of the surviving works are known again |
| CallTrackerObjects.WorkManager.StartWork | sector-storage/manager_calltracker.go:181-228 | the method is the start step, successful or failed |
| CallTrackerObjects.WorkManager.WaitWork | sector-storage/manager_calltracker.go:230-283 | the method is the first part of a wait |
| CallTrackerObjects.WorkManager.ReturnResult | sector-storage/manager_calltracker.go:361-420 | the method is the return step, refused exactly where the step is |
| CallTrackerObjects.WorkTracker.CallIssued | sector-storage/worker_tracked.go:47-104 | the method is the tracking step |
| SectorFsm.SectorMachine.RunPlanOne | storage-sealing/fsm.go:738-778 | the loop over a batch is the specified planning: it stops at the first event that moves, is global or refused |
| SectorFsm.SectorMachine.RunPlanCommitting | storage-sealing/fsm.go:628-664 | the loop of Committing is the specified planning over the whole batch |
| SectorHandlers.ToFixExactly | storage-sealing/states_failed.go:518-572 | a piece is to be fixed exactly when its deal is not found or does not match, and the sector cannot be fixed exactly when padding is not zero or a valid deal has started |
| SectorHandlers.RecoveryPiecesToFix | storage-sealing/states_failed.go:518-572 | the loop returns that list |
| SectorHandlers.RecoverDeals | storage-sealing/states_failed.go:441-508 | the loop returns the current deal of every piece to fix, or fails if one has none |
| SectorSafety.TableGuards | storage-sealing/fsm.go:43-251 | how the planner table can reach the states that promise commitments, a proof or a message |
| SectorSafety.PlanKeeps | storage-sealing/fsm.go:366-395 | planning any batch keeps the promises of the states and loses nothing recorded |
| SectorSafety.HandlerSafe | storage-sealing/states_sealing.go:240-904 | over all states: every handler sends only events its sector supports, and uses a nil pointer exactly when the chain has no answer it goes on to use, or a landed update has lost its commitment |
| SectorSafety.AggregatePanicsExactly | storage-sealing/commit_batch.go:577-605 | the aggregate handler uses a nil pointer exactly when the chain has no precommit for the cutoff |
| SectorSafety.UpdatePanicsExactly | storage-sealing/states_replica_update.go:80-225 | submitting an update uses a nil pointer exactly when its check passes and the chain has no partition or no sector |
| SectorSafety.CheckCommitSafe | storage-sealing/checks.go:135-202 | the commit check uses no nil pointer on a sealed sector and never reports a precommit on chain |
| SectorSafety.PipelineHasItsData | storage-sealing/fsm.go:43-251 | in every run, however events overlap, states from PreCommitting on have both commitments, commit states a proof, waiting states their message; no nil guard of a sealing handler fires, and in every state the use of a nil pointer has its exact condition |
| SectorSafety.UpgradesAreMarked | storage-sealing/fsm.go:146-196 | in every run every snap-deal state, including AbortUpgrade, has CCUpdate set |
| SectorSafety.AbortRestores | storage-sealing/fsm_events.go:312-452 | however an upgrade wanders, reverting its abort restores exactly the pieces it started with and clears every update field |
| SectorFreeze.BlockedForever | storage-sealing/fsm.go:628-664 | a blocked sector never changes again, in any run |
| SectorFreeze.FrozenIffBlocked | storage-sealing/fsm.go:366-395 | over all states and queues: no planning round, whatever arrives, can move the sector or consume an event if and only if it is blocked; a removed sector, which does not move either, consumes its events |
| SectorFreeze.BlockedIsFrozen | storage-sealing/fsm.go:690-699 | the three kinds of blocked sector: an event Committing does not know, one that is not global in a final state, one that keeps ReleaseSectorKeyFailed as it is |
| SectorWitness.FreezesAreReachable | storage-sealing/fsm.go:628-699 | runs from a new sector, with events the code sends, into each kind: packing asked while committing, a restart after a failed key release, and each final state after a forced state |
| SectorForced.FaultStatesAreForced | storage-sealing/fsm.go:280-335 | without a forced state no run comes into a state after a fault |
| SectorForced.UnforcedFreezes | storage-sealing/fsm.go:628-699 | a sector that freezes without a forced state is in Committing or ReleaseSectorKeyFailed |
| SectorForced.FaultIsNeverConfirmed | storage-sealing/states_proving.go:23-39 | even in a forced FaultReported state the handler never sends anything |
| SectorWitness.PanicsAreReachable | storage-sealing/states_replica_update.go:92-147 | runs from a new sector to both uses of a nil pointer |
| SectorRuns.HandlersPanicExactly | storage-sealing/states_replica_update.go:38-225 | in handler-driven runs a handler uses a nil pointer exactly when the chain has no precommit, partition or sector it goes on to use, and no recovery returns to nowhere |
| SectorUpdates.WaitingUpdateHasCommitment | storage-sealing/states_replica_update.go:188-225 | also in queued runs an update that waits has its message and its commitment, provided a revert leaves no event of that update in the queue |
| SectorRuns.RecoveryNamesDeals | storage-sealing/states_failed.go:441-508 | a recovery sends new ids only for pieces of the sector that have a deal |
| SectorDeals.AppliedUpdatesNameDeals | storage-sealing/fsm_events.go:400-410 | in queued runs an update that is applied names only pieces with a deal, so writing it cannot fail, provided no upgrade starts or is reverted with such an update in the queue |
| SectorRuns.Pc2RetriesBounded | storage-sealing/states_failed.go:70-80 | the second precommit step fails at most four times in a row and is retried at most three times per completed first step |
| SectorRuns.ProofRetriesBounded | storage-sealing/states_failed.go:179-191 | between two visits to SealPreCommit1Failed, ComputeProofFailed leads back to Committing at most twice, whatever happens in between |
| PowersOfTwo.BitsShortest | storage-sealing/utils.go:31-48 | no list of powers of two with a given sum is shorter than its binary digits |
| PowersOfTwo.BitsAligned | storage-sealing/utils.go:31-48 | digits laid out from the lowest are aligned whenever they end at a multiple of a large enough power of two |
| Packing.FillersFromRem | storage-sealing/utils.go:16-50 | the loop returns the unpadded binary digits of the padded remainder, lowest first |
| Packing.GetRequiredPadding | sector-storage/ffiwrapper/sealer_cgo.go:1073-1093 | the loop returns the binary digits of the padding and their sum |
| Packing.ToFillAligns | sector-storage/ffiwrapper/sealer_cgo.go:1077-1077 | the word-wise negation leads to the next multiple of a power of two |
| Packing.AddPieces | storage-sealing/input.go:146-257 | the loop with its running unpadded offset places each assigned deal as specified and tells its client the offset, and fails exactly when a deal there is room for cannot be written, at the first such deal and with the replies before it sent |
| Packing.AcceptedIsLostIff | storage-sealing/input.go:206-231 | a client is told that its deal was taken and the sector does not have it, if and only if a later deal that there was room for could not be written |
| Packing.StepsKeep | storage-sealing/input.go:178-254 | adding deals keeps every piece aligned and the sector within its size |
| Packing.AcceptedDealsAreThere | storage-sealing/input.go:245-253 | every accepted deal lies at the offset its client was told, which is the sum of the sizes before it and a multiple of its own size |
| Packing.OnlyAcceptedDealsAreThere | storage-sealing/input.go:178-254 | the sector gains exactly the accepted deals, in order |
| Packing.HandlePacking | storage-sealing/states_sealing.go:58-100 | packing in unpadded sizes is packing in padded sizes; it refuses exactly the overfull sector |
| Packing.PackedSectorIsFull | storage-sealing/states_sealing.go:58-100 | a packed sector is exactly full, keeps its pieces, and no shorter list of powers of two would fill it |
| Packing.DealsThenPacking | storage-sealing/states_sealing.go:58-100 | deals and then packing: sizes sum to the sector size and every piece starts at a multiple of its own size |
| Collateral.ProcessSingle | storage-sealing/commit_batch.go:464-475 | collateral is split between message and balance without loss |
| Collateral.ProcessIndividually | storage-sealing/commit_batch.go:401-446 | in any order a round spends exactly what the summed collateral exceeds the available balance by |
| Collateral.RoundSpendsSendAmount | storage-sealing/utils.go:66-91 | that equals the amount of one summed message if and only if the balance flags or the supply allow it |
| Collateral.OrderDoesNotMatter | storage-sealing/precommit_batch.go:269-282 | the total does not depend on the order of the map |
| Batcher.WaitersAreServedOnce | storage-sealing/commit_batch.go:193-271 | over every run the three maps agree, and every waiter waits with an empty channel or was sent exactly one result that lists its sector |
| Batcher.RoundServes | storage-sealing/precommit_batch.go:228-242 | a round serves every waiter of a listed sector and leaves every other waiting |
| Batcher.ListedLeave | storage-sealing/commit_batch.go:254-268 | exactly the listed sectors leave the queue |
| BatcherObjects.Choose | storage-sealing/commit_batch.go:289-311 | the sectors looked at, the failed ones among them, the ones chosen and their summed collateral |
| BatcherObjects.LookedUntilFull | storage-sealing/commit_batch.go:293-311 | the sectors looked at are a prefix of the queue, cut only when the batch is full, with at most the limit chosen |
| BatcherObjects.BatchEmptyIff | storage-sealing/commit_batch.go:313-315 | a batch is empty if and only if no collateral is known in the whole queue or the limit is zero |
| BatcherObjects.ProcessBatch | storage-sealing/commit_batch.go:273-399 | numbers strictly increase, are exactly the sectors looked at with a known collateral, each beside its own proof; one result for all sectors looked at, none if the batch is empty |
| BatcherObjects.BatchSize | storage-sealing/commit_batch.go:293-311 | a batch has all sectors of the queue with a known collateral, up to the limit |
| BatcherObjects.RoundModeExactly | storage-sealing/commit_batch.go:193-244 | exactly when a round does nothing, aggregates or sends single messages |
| BatcherObjects.AggregateReachesMinimumIff | storage-sealing/commit_batch.go:226-315 | an aggregate reaches the network's minimum if and only if the limit and the number of known collaterals do |
| BatcherObjects.ChooseMode | storage-sealing/commit_batch.go:193-244 | the decisions in the order of the code give that mode |
| BatcherObjects.IndividualRoundServesAll | storage-sealing/commit_batch.go:401-446 | a round of single messages empties the queue and gives every waiter exactly the result of its own sector's message |
| BatcherObjects.CommitBatcher.AddCommit | storage-sealing/commit_batch.go:493-520 | registering is the specified step with a fresh waiter |
| BatcherObjects.CommitBatcher.HandOutSector | storage-sealing/commit_batch.go:259-267 | each send finds an empty channel, so none blocks |
| BatcherObjects.CommitBatcher.MaybeStartBatch | storage-sealing/commit_batch.go:193-271 | a round hands out exactly the results of its mode, single or aggregate, and nothing in an error round |
| PieceReader.ReadAtRefines | sector-storage/piece_reader.go:129-183 | every read, with failing opens and broken streams, returns the piece's bytes at the offset and discards at most the limit |
| PieceReader.EveryReadIsRight | sector-storage/piece_reader.go:87-127 | so over every history of reads and seeks |
| PieceReader.SequentialReads | sector-storage/piece_reader.go:87-120 | reads since the last seek concatenate to the piece from there on, whatever other reads come between |
| PieceReader.ReadAtDelivers | sector-storage/piece_reader.go:129-183 | without failures a read delivers all there is |
| PieceReader.PieceReaderObject.ReadAtUnlocked | sector-storage/piece_reader.go:129-183 | the method is the read step |
| PieceReader.PieceReaderObject.Seek | sector-storage/piece_reader.go:100-120 | the method is the seek step |
| WindowPost.BatchPartitions | storage/wdpost_run.go:760-803 | batches concatenate to the partitions, there are exactly ceil(n/k), none is empty, all but the last are full |
| WindowPost.IndexIsPosition | storage/wdpost_run.go:574-578 | the index of a partition in its batch plus the batch's start is its original position |
| WindowPost.SectorsForProof | storage/wdpost_run.go:805-845 | the prover gets all sectors in order, with the first good one in place of each that is not good |
| WindowPost.ProveBatch | storage/wdpost_run.go:586-749 | the result is that of the first attempt that is not retried, each attempt skipping what the failed ones before it named; there are at most as many retries as provable sectors |
| WindowPost.EndIsUnique | storage/wdpost_run.go:590-749 | the attempts at a batch and its result are determined by the prover's answers |
| WindowPost.SkipIsNamed | storage/wdpost_run.go:746-748 | an attempt skips exactly the sectors named by the failed attempts before it |
| WindowPost.SkippedExactly | storage/wdpost_run.go:594-646 | an entry reports as skipped exactly the sectors to prove that cannot be read or that a failed attempt named |
| WindowPost.RunCycle | storage/wdpost_run.go:524-758 | every batch is accounted for in order by its own attempts; what is returned are exactly the submissions of the batches, or nothing after an abort |
| WindowPost.EveryPartitionOnce | storage/wdpost_run.go:573-757 | a partition is listed at its own position by its own batch's submission exactly when something of it is left to prove, and by no other |

## Left out

- The change of the reported tipset of a window, the wiring of channels and goroutines, and shutdown.
- ChangeHandlerObjects.SubmitHandler.ProcessHeadChange: is the sweep over a cache that does not change meanwhile; the step system covers proofs added between two windows.
- Which acceptable window a request goes to (worker choice by utilization) is an arbitrary choice of the step; no capacity is claimed for windows after a scheduling round, since the second pass tests it with the wrong worker's data.
- Scheduler.RequestInOnePlace: is for runs whose rounds have safe picks, which Scheduler.RoundConservesIff shows to be needed; every request is taken to be a new object.
- Disabling a worker, session loss and shutdown of the scheduler, where window requests in flight are not returned.
- The counter of waiting tasks in the resource accounts and its notification; whether prepared work waits is a parameter.
- That a window's summed accounts stay below 2^64, and that a task's resource need is the same whenever it is looked up, is assumed when windows are filled.
- Several simultaneous waiters on one work, and errors of the work store.
- Forced sector states, except in SectorForced and for the final states in SectorWitness; the deprecated PackingFailed state is reachable only through them.
- How pending events are kept between planning rounds belongs to the state machine library: the model keeps them from the reported count on and runs one planning round at a time.
- SectorRuns.Pc2RetriesBounded: speaks of runs where each event is planned before the next is sent; events that overtake each other are covered by the results of SectorSafety only.
- SectorRuns.ProofRetriesBounded: the same restriction to handler-driven runs.
- SectorUpdates.WaitingUpdateHasCommitment: is for runs where no upgrade is reverted while an event of it that leads to ReplicaUpdateWait is still queued; without that, SectorSafety.PipelineHasItsData still gives the exact condition for a nil pointer.
- SectorDeals.AppliedUpdatesNameDeals: is for runs where no upgrade starts or is reverted while an update of deal ids is queued.
- SectorHandlers functions fold several calls of one kind into one answer where the code treats their failures alike; epochs of terminations, retries inside handlers and cooldown times are not modelled.
- Sizes of assigned deals are powers of two of at least 128 padded bytes, as the intake of deals makes sure; that check is not modelled.
- An assigned piece that is no longer pending, which ends the intake of deals without an event.
- Writing pieces to storage, the default-file shortcut for sectors without deals, and the assignment of deals to sectors before a sector takes them.
- Gas fees, address selection, the aggregate network fee, cutoff times and batch timers of the batchers.
- The batcher for terminations.
- Reads at negative offsets, which reopen the stream at a wrapped position, and a stream that opens without a reader.
- WindowPost.ProveBatch: assumes that randomness and verification are stable and that a failed proof which names sectors names one it was given; without that the loop need not end.
- Which sectors can be read is the same for all attempts at a batch; the code checks them anew in each attempt.
- The chain's answer for the good sectors of a partition is taken to be those of its sectors, in ascending order.
- Fault and recovery declarations, submission of proofs, and the checks that decide which sectors can be read.
- Generated code, RPC, configuration, journals, command line, cgroups and the proofs themselves.
