# Allox: a verified model of rollback, fencing, telemetry and attribution

Allox runs agents in Sessions that can be checkpointed and rolled back, fences a Session while a
tracked run may still have processes, collects traces of what agents do, and attributes processes
to runs in the kernel. This project models the stateful core of those five components and proves
what each promises over whole runs.

The model follows the program's form. What the source keeps in an object and updates in place is a
class here (`CheckpointIndex`, `Store`, `ExecutionRegistry`, `ProcessTrackingService`,
`BackgroundExporter`, `TraceCollector`, `ProcessMonitor`, `Tracker`), and every loop of the modelled
code is a loop. Each method is proved against a specification function on values, and the
properties are lemmas about those functions and about runs of them.

- `Lineage`, `LineageForest`: the checkpoint index and its forest.
- `SessionDisk`, `SessionStore`: one Session directory as a disk value (current tree, staging
  trees, snapshots, journal, index file, receipts) and the store operations as sequences of atomic
  steps. A crash keeps a prefix of the steps. `RollbackRecovery`, `RollbackAtomicity`,
  `RecoveryRestart`, `StoreRuns`, `StoreTheorems`, `StoreWindows`: what survives crashes.
  `StoreExamples`: runs into the windows in which something does not. `StoreOutcomes`: what success
  and failure of each call mean. `CheckpointEntries`: what becomes of a checkpoint until its deletion.
- `SessionRegistry`, `RegistryExclusion`, `RegistryMemory`: the registry of leases, mutations, resets,
  executions and readers, one critical section per event: who excludes whom, and for how long.
- `RunFencing`, `TrackingService`: the lifecycle of tracked runs across daemon crashes. A crash
  keeps the audit directory and any subset of the live processes.
- `Exporter`, `TraceStore`, `TraceRuns`, `TraceEvents`, `Profile`, `SelfTimes`: the telemetry pipeline.
- `ProcessDomains`, `ProcessIdentity`, `ProcessAttribution`: the kernel handlers, what their events say
  about processes, and that no process goes unattributed.
  `ProcessTracker`: the tracker. `ProcessFinish`: the two together, when a run is finished.

## Where the code falls short of its promise

Each of these is proved, with the exact condition where there is one.

- A crash after the handler of a failed rename has put the old tree back, but before it clears the
  journal, is read as a swap that went through (`RollbackAtomicity.CrashAtomicity`, `WindowOutcome`).
- Recovery promotes the staged tree without rewriting phase `prepared`; a second crash right there
  is read as an abort (`RecoveryRestart.RestartableExactly`, `PromotionIsForgotten`).
- Deleting a checkpoint does not look at the journal, and recovery resolves the journal's id again.
  A deferred rollback then commits to another checkpoint and is refused as long as its own is not the
  head (`RestartableExactly`, `RedirectionIsRefused`, `StoreWindows.DeferredRecoveryEnds`,
  `PendingCompletesExactly`); an immediate one ends at another head, or loses its old tree and raises
  (`StoreWindows.ImmediateRecoveryEnds`). Taking the checkpoint again under the same id ends both
  (`RetakingEndsRedirection`, `RetakingEndsHalt`).
- Recovery of an immediate rollback never scrubs (`StoreWindows.ImmediateRecoveryNeverScrubs`).
- Creating a checkpoint does not look at the journal either: a pending cleanup is refused as long as
  its checkpoint is not the head (`StoreWindows.PendingCompletesExactly`,
  `CheckpointBlocksPendingCleanup`, `DeletingItUnblocksPendingCleanup`).
- Nor does creating a Session, which in the middle of a swap makes an empty tree current
  (`StoreWindows.CreateSessionIsLawfulExactly`, `CreateSessionDuringSwap`).
- `describe` and `checkpoint_status` load the index, and may save it, without the Session lock; a late
  save undoes what a concurrent checkpoint did to the index (`StoreWindows.UnlockedLoadUndoesCheckpoint`).
- A reconcile that drops the head leaves the live marker behind
  (`LineageForest.MarkerFollowsHeadExactly`, `DroppedHeadLeavesTwoMarkers`).
- `reset_mutation` checks a token and holds nothing: its body has the Session to itself exactly as long
  as nobody completes the reset, which opens the Session at once
  (`RegistryExclusion.ResetBodyIsExclusiveExactly`, `CompletingOpens`, `OnlyCompletionLetsIn`,
  `ResetMutationBodyIsNotExclusive`).
- `union_ns` ignores points before zero (`Profile.UnionIsFullExactly`, `NegativePointsAreIgnored`).
- The sweep of `finish` gives up although it would end, when leftover domains sit behind many
  others (`ProcessTracker.TwoOwnDomainsCanBeTooMany`).

## Assumptions

- Every rename, snapshot, subvolume deletion, unlink and atomic JSON replacement is one atomic step;
  the Session lock is mutual exclusion for the calls that take it; rollback tokens, lease tokens and run
  ids are fresh. The index loads that do not take it are steps of their own: the load, and a save of the
  stale index at any time later, between two calls or where a call was cut.
- Nobody but the tracking service knows the lease tokens of its runs.
- Of cgroups: an empty one stays empty until `attach`, `attach` refuses a populated one, and
  `wait_empty` and `quiesce_empty` succeed only on an empty one. A gate that is not yet attached does
  nothing.
- Of the kernel: live task ids are unique and positive, clock readings differ, the old leader's exit
  precedes an exec that takes its id, and each handler runs as one step.
- Serializing a parsed event again gives text of the same length.

## Model

| member | source | states |
|---|---|---|
| Lineage.CheckpointIndex.Add | src/allox/workspace/checkpoint_index.py:52-79 | in-place insertion: the entry lands under the head, the live marker moves from the old head to it, and an indexed id is refused without change |
| Lineage.CheckpointIndex.Reconcile | src/allox/workspace/checkpoint_index.py:81-104 | the index becomes the reconciled one (found snapshots added as roots, missing flags refreshed, an absent head dropped); the result says whether anything changed |
| Lineage.CheckpointIndex.Resolve | src/allox/workspace/checkpoint_index.py:106-143 | exact id, unique prefix or n-th ancestor, with the error of each failing case, found by walking the parents |
| Lineage.CheckpointIndex.MoveHead | src/allox/workspace/checkpoint_index.py:145-154 | head and live marker move together, a checkpoint that is absent is refused |
| Lineage.CheckpointIndex.Remove | src/allox/workspace/checkpoint_index.py:156-182 | children are handed to the grandparent in place, the head falls back to the parent, nothing else changes |
| LineageForest.RunKeepsForest | src/allox/workspace/checkpoint_index.py:52-182 | under any sequence of add, move_head, remove and reconcile: c is a child of p exactly when p is its parent, parents are acyclic, the head is indexed or None |
| LineageForest.OpKeepsForest | src/allox/workspace/checkpoint_index.py:52-182 | the same for one call, whether it succeeds or raises |
| LineageForest.RemoveFiltersChain | src/allox/workspace/checkpoint_index.py:156-182 | deletion is a quotient: the ancestor chain from every start, the head included, is the old chain without the deleted checkpoint |
| LineageForest.RemovedParents | src/allox/workspace/checkpoint_index.py:156-182 | exactly the children of the deleted checkpoint, and the head if it was deleted, are redirected to its parent |
| LineageForest.RemovedChildren | src/allox/workspace/checkpoint_index.py:156-182 | every remaining child list is duplicate-free and has the deleted checkpoint replaced by its children |
| LineageForest.GrowingKeepsChains | src/allox/workspace/checkpoint_index.py:52-154 | add, move_head and reconcile change no existing ancestor chain |
| LineageForest.ResolveIsNthOfHeadChain | src/allox/workspace/checkpoint_index.py:106-143 | num_ancestors = n succeeds exactly for 1 <= n <= length of the head's chain and yields its n-th element; the chain is duplicate-free and no longer than the index |
| LineageForest.ResolvedIdIsPresent | src/allox/workspace/checkpoint_index.py:106-143 | a resolved id is present, and it is the one asked for or the only present one with that prefix |
| LineageForest.MarkerFollowsHeadExactly | src/allox/workspace/checkpoint_index.py:81-104 | each operation keeps the live marker at the head alone if and only if it is not a reconcile that drops the head |
| LineageForest.DroppedHeadLeavesTwoMarkers | src/allox/workspace/checkpoint_index.py:101-103 | a concrete run in which a dropped head leaves two live markers |
| SessionStore.Store.LoadIndex | src/allox/workspace/store.py:185-202 | the index is read, reconciled with the snapshot directories and saved exactly when that changed it |
| SessionStore.Store.ScrubRuntimeEntries | src/allox/workspace/store.py:736-747 | every socket and FIFO goes, one unlink after another, and nothing else |
| SessionStore.Store.CreateCheckpoint | src/allox/workspace/store.py:666-720 | steps and result of a checkpoint: snapshot first, then the index; the existing and invalid ids are refused |
| SessionStore.Store.DeleteCheckpoint | src/allox/workspace/store.py:1059-1100 | steps and result of a deletion with its force and unknown-id cases |
| SessionStore.Store.Rollback | src/allox/workspace/store.py:749-904 | the disks a rollback goes through, in order, for every argument and fault, and what it returns or raises; what they amount to is `StoreOutcomes.RollbackRollsBack` |
| SessionStore.Store.ChooseTarget | src/allox/workspace/store.py:798-815 | which checkpoint is chosen from id, prefix, ancestor count or default |
| SessionStore.Store.Swap | src/allox/workspace/store.py:817-876 | journal, staging snapshot, two renames and commit, with both error handlers; the last disk is pinned by `StoreOutcomes.RollbackRollsBack` |
| SessionStore.Store.FailSnapshot | src/allox/workspace/store.py:832-839 | a failing snapshot removes what it left and clears the journal |
| SessionStore.Store.CloseSwap | src/allox/workspace/store.py:853-876 | deferred: scrub, move the head, write the commit record; immediate: commit first, then scrub, forget and clear |
| SessionStore.Store.Recover | src/allox/workspace/store.py:348-548 | all branches of recovery: orphan staging, pending cleanup, abort, promotion, confirmation and conclusion, with their errors |
| SessionStore.Store.SettleCurrent | src/allox/workspace/store.py:460-474 | how recovery finds the current tree and decides between abort and commit |
| SessionStore.Store.RecoverPendingCleanup | src/allox/workspace/store.py:407-458 | a committed deferred rollback: wait, or finish a started cleanup by its receipt |
| SessionStore.Store.ConfirmDeferred | src/allox/workspace/store.py:476-514 | recovery of a deferred swap scrubs as requested, moves the head and writes the commit record |
| SessionStore.Store.CompleteDeferredRollback | src/allox/workspace/store.py:906-1057 | receipt started, tree deleted, receipt completed, journal cleared, in that order, and every refusal; what success means is `StoreOutcomes.CompletionCompletes` |
| SessionStore.Store.CreateSession | src/allox/workspace/store.py:625-645 | a Session directory gets an empty current tree when it has none |
| SessionDisk.SnapshotsAreIndexed | src/allox/workspace/store.py:185-202 | after loading, the entries that count as present are exactly the snapshots |
| StoreOutcomes.RollbackRollsBack | src/allox/workspace/store.py:749-904 | a rollback returns c if and only if the arguments are in order and name c, no rollback is unfinished, the recovery id is new and nothing fails; then c's tree is current, without runtime entries exactly when the scrub was requested, c is the head, snapshots and receipts are as before, and the journal is gone with everything staged, or, deferred, committed with the old tree set aside; when it raises it has changed nothing |
| StoreOutcomes.CompletionCompletes | src/allox/workspace/store.py:906-1057 | a completion reports success if and only if the committed rollback's checkpoint is the head; then the receipt is completed, discarded tree and journal are gone and tree, head and snapshots are as before; it reports an earlier completion if and only if there is no journal and a completed receipt, and in that case, as when it raises, changes nothing |
| StoreOutcomes.CheckpointIsTaken | src/allox/workspace/store.py:666-720 | a checkpoint is taken if and only if its id is valid and new and there is a current tree; it holds that tree and the given metadata, its parent is the old head, and it is the head |
| StoreOutcomes.CheckpointIsDeleted | src/allox/workspace/store.py:1059-1100 | a deletion returns c if and only if the id names c and c is not pinned or the call is forced; then its snapshot and entry are gone and all others keep theirs |
| StoreOutcomes.SessionIsCreated | src/allox/workspace/store.py:625-645 | a Session is created if and only if it has no current tree, and then has an empty one and no head |
| StoreOutcomes.ReconciledEntries | src/allox/workspace/checkpoint_index.py:81-104 | reconciling keeps the metadata and parent of every entry, marks it missing exactly if its snapshot is, adds found snapshots as roots, and drops the head exactly if its snapshot is missing |
| CheckpointEntries.EntriesAreKept | src/allox/workspace/store.py:185-1100 | over every run of store calls without a late save of a stale index, each call cut anywhere, up to its deletion: a checkpoint keeps its tree and its metadata |
| CheckpointEntries.CreatedEntryIsKept | src/allox/workspace/store.py:666-720 | namely the tree that was current and the metadata that was given when it was created |
| CheckpointEntries.PinnedIsKept | src/allox/workspace/store.py:1079-1083 | over every run without a forced deletion and without a late save of a stale index, a pinned checkpoint stays, pinned |
| RollbackAtomicity.CrashAtomicity | src/allox/workspace/store.py:749-904 | for every argument, fault and cut of a rollback followed by one recovery: the Session is whole (old tree and head, or checkpoint tree and head, scrubbed as requested when deferred) if and only if the cut is not the mislabelled failed-rename window |
| RollbackAtomicity.SwapAtomicity | src/allox/workspace/store.py:817-876 | the same for the swap itself, as a disjunction of the two whole outcomes |
| RollbackAtomicity.WindowOutcome | src/allox/workspace/store.py:847-852 | what recovery does inside the failed-rename window: a deferred rollback is refused for good, an immediate one keeps the old tree under the new head |
| RollbackAtomicity.NothingToRecover | src/allox/workspace/store.py:348-373 | without journal and staging trees recovery does nothing |
| RecoveryRestart.RestartableExactly | src/allox/workspace/store.py:348-548 | recovery of any reachable disk, whether it succeeds or raises, can be cut at any step and run again with the same result, tree, head, journal and receipts if and only if the disk is in neither the promotion window nor the redirection window |
| RecoveryRestart.PromotionIsForgotten | src/allox/workspace/store.py:460-466 | in the promotion window a second crash right after the promotion deletes the old tree and leaves the new one under the old head |
| RecoveryRestart.RedirectionIsRefused | src/allox/workspace/store.py:476-514 | in the redirection window (deferred, old_moved, the checkpoint deleted and another one found by prefix) recovery succeeds with that other head, and the recovery right after it raises the head mismatch |
| RecoveryRestart.OverIsDetermined | src/allox/workspace/store.py:522-548 | two finished recoveries of the same rollback with the same tree and head do not differ in anything else |
| StoreWindows.CrashingRecoveryConverges | src/allox/workspace/store.py:348-548 | outside those two windows, after any number of crashed recoveries the next one returns or raises the same, with the same outcome, as one that was never interrupted |
| StoreWindows.RecoveryCutIsSound | src/allox/workspace/store.py:348-548 | wherever any recovery with a journal is cut: current is one of the two whole trees up to scrubbed entries, a tree staged in phase preparing is never promoted, snapshots stay, the journal at most becomes committed |
| StoreWindows.CrashesKeepAWholeTree | src/allox/workspace/store.py:348-548 | the same from every phase over any number of crashed recoveries, both windows included |
| StoreWindows.FinalTreeIsWhole | src/allox/workspace/store.py:348-548 | and when the last recovery of such a chain is left to finish or to raise |
| StoreWindows.RollbackSurvivesCrashes | src/allox/workspace/store.py:348-904 | end to end: a rollback with any argument and fault, cut anywhere, then any number of crashed recoveries and a last one that finishes or raises, leaves the old tree or the checkpoint's tree current, up to scrubbed entries |
| StoreWindows.ImmediateRecoveryNeverScrubs | src/allox/workspace/store.py:522-537 | recovery of a version-1 rollback leaves every socket and FIFO in place whatever scrub was asked for |
| StoreWindows.PendingCompletesExactly | src/allox/workspace/store.py:407-424 | a committed deferred rollback can be completed, and its recovery succeeds, if and only if its checkpoint is the head; otherwise both raise the head mismatch |
| StoreWindows.CheckpointBlocksPendingCleanup | src/allox/workspace/store.py:666-720 | a checkpoint taken while a cleanup is pending takes the head away, and completion and recovery of the resulting disk refuse |
| StoreWindows.DeletingItUnblocksPendingCleanup | src/allox/workspace/store.py:1059-1100 | deleting that checkpoint again gives head, completion and recovery back |
| StoreWindows.AbortedRecoveryEnds | src/allox/workspace/store.py:460-548 | recovery of a rollback cut before its first rename keeps tree and head and deletes what was staged and the journal |
| RecoveryRestart.CleanupIsCleanedUp | src/allox/workspace/store.py:425-458 | recovery of a started cleanup ends with the receipt completed, discarded tree and journal gone, tree and head as before |
| StoreWindows.ImmediateRecoveryEnds | src/allox/workspace/store.py:522-548 | an immediate rollback that recovery finishes gets the head of its checkpoint if and only if that still exists; the id may resolve to another one, and if it resolves to nothing the staging trees are deleted and recovery raises, again and again as long as the checkpoints stay as they are |
| StoreWindows.RetakingEndsRedirection | src/allox/workspace/store.py:666-720 | once the index has forgotten the deleted id, a checkpoint taken again under it makes completion and recovery of the redirected rollback succeed |
| StoreWindows.RetakingEndsHalt | src/allox/workspace/store.py:666-720 | and for an immediate rollback whose id resolved to nothing it makes the next recovery succeed, at that head and with the current tree unchanged |
| StoreWindows.DeferredRecoveryEnds | src/allox/workspace/store.py:476-514 | a deferred one is committed while the id resolves to anything, but the next recovery succeeds if and only if the checkpoint still exists; current is the checkpoint's staged tree, scrubbed exactly as requested, and the discarded tree stays |
| StoreWindows.DeletedCheckpointIsRedirected | src/allox/workspace/store.py:1059-1100 | with the checkpoint deleted and exactly one other behind its id as a prefix, that one becomes the head |
| StoreWindows.UnlockedLoadUndoesCheckpoint | src/allox/workspace/store.py:647-734 | describe and checkpoint_status load the index without the lock: one that reads between the two steps of a checkpoint and saves after them takes the head back and drops the new checkpoint's parent, while trees, snapshots, journal, receipts and the disk invariant stay |
| StoreWindows.CreateSessionIsLawfulExactly | src/allox/workspace/store.py:625-645 | creating the Session again keeps the promises of the store if and only if there is a current tree, that is, where it refuses |
| StoreWindows.CreateSessionDuringSwap | src/allox/workspace/store.py:625-645 | in the middle of a swap it succeeds, and the next recovery deletes both trees, except exactly for a deferred rollback in phase old_moved, which is refused for good |
| StoreExamples.PromotionWindowIsReached | src/allox/workspace/store.py:840-842 | a run from a created Session into the promotion window |
| StoreExamples.FailedRenameWindowIsReached | src/allox/workspace/store.py:845-851 | one into the mislabelled failed-rename window |
| StoreExamples.RedirectionWindowIsReached | src/allox/workspace/store.py:843-846 | one into the redirection window |
| StoreTheorems.RunIsLawful | src/allox/workspace/store.py:348-1100 | every step of every run of store operations, each cut anywhere, with create_session only where a current tree exists and with late saves of stale indexes in between, keeps the disk invariant and the retention rules |
| StoreTheorems.JournalCoversStaging | src/allox/workspace/store.py:355-373 | in every reachable or crashed state each staging tree is the journal's, current is missing only in phases prepared and old_moved with both staging trees present, and the orphan and no-current branches are not taken |
| StoreTheorems.DiscardIsRetained | src/allox/workspace/store.py:906-1057 | from the commit record of a deferred rollback on, its journal and the very tree it discarded stay until a receipt exists |
| StoreTheorems.ReceiptsOnlyAdvance | src/allox/workspace/store.py:250-296 | receipts are never withdrawn nor turned back, and a completed one means that its tree is gone |
| StoreTheorems.ReceiptsStartUncompleted | src/allox/workspace/store.py:989-1019 | a receipt first appears as started, while the committed rollback of that id was waiting |
| StoreTheorems.UsedRecoveryIdNeverStarts | src/allox/workspace/store.py:790-797 | a recovery id with a receipt starts no other rollback at any later time |
| StoreTheorems.RepeatedCompletionChangesNothing | src/allox/workspace/store.py:906-963 | completing again reports success and changes nothing but the clearing of its own interrupted journal |
| StoreTheorems.IndexAgreesWithDisk | src/allox/workspace/store.py:185-202 | after any cut run the next load is a forest whose present ids are exactly the snapshots and whose head is one of them or None, and a second load changes nothing |
| StoreRuns.RollbackIsLawful | src/allox/workspace/store.py:749-904 | every step of a rollback keeps the disk invariant, receipts and retained trees |
| StoreRuns.RecoverIsLawful | src/allox/workspace/store.py:348-548 | so does every step of a recovery |
| StoreRuns.CompleteIsLawful | src/allox/workspace/store.py:906-1057 | and of a completion |
| SessionRegistry.ExecutionRegistry.Acquire | src/allox/workspace/daemon.py:36-60 | the four refusals in order, else the lease and its recovery flag |
| SessionRegistry.ExecutionRegistry.Release | src/allox/workspace/daemon.py:62-66 | lease and recovery flag go together; an unknown token changes nothing |
| SessionRegistry.ExecutionRegistry.RegisterBackground | src/allox/workspace/daemon.py:68-86 | refused while mutating or under a recovery lease, else recorded; how long is `RegistryMemory.RegistrationIsRemembered` |
| SessionRegistry.ExecutionRegistry.BeginRuntimeReset | src/allox/workspace/daemon.py:88-102 | fences the Session and returns its executions; executions do not refuse it |
| SessionRegistry.ExecutionRegistry.CompleteRuntimeReset | src/allox/workspace/daemon.py:104-112 | ends the fence, and forgets the executions only on success |
| SessionRegistry.ExecutionRegistry.EnterMutation | src/allox/workspace/daemon.py:122-142 | the four refusals of a plain mutation, else the Session is mutating |
| SessionRegistry.ExecutionRegistry.EnterShareRead | src/allox/workspace/daemon.py:144-168 | counts a reader unless the Session is mutating or reserved for recovery |
| SessionRegistry.ExecutionRegistry.LeaveShareRead | src/allox/workspace/daemon.py:164-168 | uncounts one and forgets the entry at zero |
| SessionRegistry.ExecutionRegistry.CheckResetToken | src/allox/workspace/daemon.py:114-120 | passes only for the token of the Session's own reset, and then every execution, background registration, reader, reset and mutation of the Session is refused at that moment |
| RegistryMemory.ExecutionsAfter | src/allox/workspace/daemon.py:68-112 | for each registry call and each Session: an accepted registration adds its execution, a reset completed with success forgets all of them, everything else, a failed reset included, leaves them alone |
| RegistryMemory.RegistrationIsRemembered | src/allox/workspace/daemon.py:68-142 | an accepted registration stays over any run until the Session's reset is completed with success; until then plain mutations and recovery executions are refused, and it is among what begin_runtime_reset returns |
| RegistryMemory.LeaseIsHeld | src/allox/workspace/daemon.py:36-66 | a granted lease is held over any run until its token comes back; until then executions, resets and mutations are refused, and beside a recovery execution also readers and persistent executions |
| RegistryMemory.GivingBackFrees | src/allox/workspace/daemon.py:62-66 | giving it back admits the next execution |
| RegistryMemory.BegunResetHolds | src/allox/workspace/daemon.py:88-102 | a reset that begins has a good token, and the Session is closed to everybody if and only if that token has not completed it |
| RegistryExclusion.RunsAreExclusive | src/allox/workspace/daemon.py:24-168 | any interleaving of registry calls keeps, for every Session: one lease, one mutating owner, no lease or reader beside it, no reader or execution beside a recovery lease, reader count = open scopes |
| RegistryExclusion.EventKeepsExclusion | src/allox/workspace/daemon.py:24-168 | the same for one critical section |
| RegistryExclusion.MutationIsAlone | src/allox/workspace/daemon.py:122-142 | a mutation scope excludes leases, readers, executions, resets and other mutations |
| RegistryExclusion.ResetBodyIsExclusiveExactly | src/allox/workspace/daemon.py:114-120 | from a good token on, over any run of registry calls: the Session of a reset_mutation body stays free of leases, readers and mutation scopes and refuses every execution, background registration, reader, reset and mutation, if and only if nobody completes the reset |
| RegistryExclusion.CompletingOpens | src/allox/workspace/daemon.py:104-112 | wherever the token is good, completing the reset at once admits executions, share readers and resets, and a plain mutation or a recovery execution exactly if no persistent execution is registered |
| RegistryExclusion.OnlyCompletionLetsIn | src/allox/workspace/daemon.py:104-120 | over any run of registry calls from a good token on: nobody gets into the Session before the completion, so nobody gets in at all if and only if nobody gets in after it |
| RegistryExclusion.ResetMutationBodyIsNotExclusive | src/allox/workspace/daemon.py:114-120 | a run in which completing the reset lets a plain mutation in while the body runs |
| RunFencing.MovedOk | src/allox/runtime/process_tracking/service.py:386-942 | no step of launch, watch or cleanup breaks the rules that tie a run's phase, its rows in memory and on disk, its gate and its processes |
| RunFencing.EventKeepsFence | src/allox/runtime/process_tracking/service.py:129-1046 | every step of daemon, kernel and registry, crash and restart included, keeps the fence |
| RunFencing.RunsAreFenced | src/allox/runtime/process_tracking/service.py:129-1046 | so does every run |
| RunFencing.NoLeaseMeansEmpty | src/allox/runtime/process_tracking/service.py:161-183 | while the daemon serves, the cgroup of a Session without a lease holds no process of any tracked run, over any crashes and restarts |
| RunFencing.MutationSeesNoProcess | src/allox/runtime/process_tracking/service.py:620-707 | no mutation scope or runtime reset overlaps a live tracked process of its Session |
| RunFencing.OneTrackedRunPerSession | src/allox/runtime/process_tracking/service.py:493-520 | two tracked runs never share a Session cgroup |
| RunFencing.EpochsAreNeverReused | src/allox/runtime/process_tracking/service.py:161-166 | saved run epochs are pairwise different and below the next one, across restarts |
| RunFencing.RestartLeasesExactlyTheFenced | src/allox/runtime/process_tracking/service.py:161-183 | startup ends with leases on exactly the Sessions of rows it left fenced |
| RunFencing.ReleasedRunIsNotFenced | src/allox/runtime/process_tracking/service.py:883-942 | a run whose lease was given back leaves no row that a restart would fence, and no process |
| TrackingService.ProcessTrackingService.constructor | src/allox/runtime/process_tracking/service.py:129-183 | the startup loop over the saved rows: each row fenced or kept, the next epoch above all, a lease for exactly the fenced Sessions |
| TrackingService.ProcessTrackingService.RecoverAll | src/allox/runtime/process_tracking/service.py:161-183 | that loop as a run of the state machine |
| TrackingService.ProcessTrackingService.NoLeaseNoProcess | src/allox/runtime/process_tracking/service.py:161-183 | in every state the service can be in, a Session without a lease has no tracked process in its cgroup |
| TrackingService.ProcessTrackingService.Start | src/allox/runtime/process_tracking/service.py:343-707 | refused without change, or launched with its running row saved and lease held, or failed with the lease given back or kept |
| TrackingService.ProcessTrackingService.Launch | src/allox/runtime/process_tracking/service.py:386-619 | succeeds exactly when no step raises, the running row is saved and the cgroup was empty; from the first save on, a failed launch leaves a row that a restart fences |
| TrackingService.ProcessTrackingService.Abandon | src/allox/runtime/process_tracking/service.py:620-707 | after a failed launch the lease is given back exactly when gate and cgroup are gone, everything finalized and the failed row, if any, was saved; then its token is out of the registry, no process is left and no restart fences the row |
| TrackingService.ProcessTrackingService.WatchRun | src/allox/runtime/process_tracking/service.py:826-942 | the watcher gives the lease back exactly when the cgroup is empty, everything finalized, and seal, removal and final save succeeded; then its token is out of the registry |
| TrackingService.ProcessTrackingService.FailAsynchronously | src/allox/runtime/process_tracking/service.py:1001-1046 | a provider or feature failure fences the row in memory, and on disk when the save succeeds, and moves the run no further |
| Exporter.BackgroundExporter.Submit | plugins/agent-monitor/src/allox_agent_monitor/background.py:40-83 | accepted exactly when encodable, small enough, not closed or failed, and there is room; every other outcome counts as failed |
| Exporter.BackgroundExporter.TakeBatch | plugins/agent-monitor/src/allox_agent_monitor/background.py:85-107 | the worker takes the longest fitting front of the queue, always at least one event |
| Exporter.BackgroundExporter.Settle | plugins/agent-monitor/src/allox_agent_monitor/background.py:108-133 | a complete acknowledgement counts the batch; anything else fails batch and queue and ends the worker |
| Exporter.BackgroundExporter.FlushEnd | plugins/agent-monitor/src/allox_agent_monitor/background.py:135-149 | returns normally if and only if every submission so far was accepted and none dropped and the first events up to the barrier are acknowledged, in order |
| Exporter.BackgroundExporter.CloseBegin | plugins/agent-monitor/src/allox_agent_monitor/background.py:151-163 | closes before setting the barrier |
| Exporter.Conservation | plugins/agent-monitor/src/allox_agent_monitor/background.py:40-133 | under every interleaving: attempted = acknowledged + failed + queued + in flight; pending events and bytes, and their peaks, within capacity and max_bytes |
| Exporter.EmittedInOrder | plugins/agent-monitor/src/allox_agent_monitor/background.py:85-133 | acknowledged is a prefix of emitted, emitted of accepted; every batch has 1..batch_size events, and estimate and actual text within 65536 |
| Exporter.WireFitsEstimate | plugins/agent-monitor/src/allox_agent_monitor/background.py:97-113 | the JSON text of a batch is exactly 34 bytes shorter than the worker's estimate |
| Exporter.BatchIsDetermined | plugins/agent-monitor/src/allox_agent_monitor/background.py:97-107 | the greedy rule leaves one choice |
| Exporter.NothingAfterFailure | plugins/agent-monitor/src/allox_agent_monitor/background.py:121-133 | after a failed batch nothing is accepted, emitted or acknowledged |
| Exporter.NothingAfterClose | plugins/agent-monitor/src/allox_agent_monitor/background.py:151-163 | after close nothing is accepted |
| Exporter.FlushIsABarrier | plugins/agent-monitor/src/allox_agent_monitor/background.py:135-149 | when flush returns normally everything submitted before it was accepted and acknowledged, the batch in flight included |
| Exporter.FlushReturnsExactly | plugins/agent-monitor/src/allox_agent_monitor/background.py:135-149 | over every run, a flush returns normally if and only if every submission was accepted, nothing accepted was dropped, and as many events are acknowledged as were submitted before it |
| Exporter.CloseDrains | plugins/agent-monitor/src/allox_agent_monitor/background.py:151-163 | when close returns normally the queue is empty, nothing is in flight, all accepted events are acknowledged, for good |
| Exporter.CompleteExactly | plugins/agent-monitor/src/allox_agent_monitor/background.py:165-180 | health says complete if and only if every submission was accepted and acknowledged |
| Profile.UnionNs | plugins/agent-monitor/src/allox_agent_monitor/profile.py:9-14 | for every list of intervals the result is the number of covered points from zero on |
| Profile.PointsAreCovered | plugins/agent-monitor/src/allox_agent_monitor/profile.py:9-14 | the counted points are exactly those some interval covers |
| Profile.UnionIgnoresOrder | plugins/agent-monitor/src/allox_agent_monitor/profile.py:9-14 | the result does not depend on the order |
| Profile.UnionIsFullExactly | plugins/agent-monitor/src/allox_agent_monitor/profile.py:9-14 | it measures everything covered if and only if no interval with left < right starts below zero |
| Profile.NegativePointsAreIgnored | plugins/agent-monitor/src/allox_agent_monitor/profile.py:9-14 | an interval of which it measures one point out of three |
| Profile.UnionAgainstLengths | plugins/agent-monitor/src/allox_agent_monitor/profile.py:9-14 | it is at most the sum of the lengths, with equality if and only if no two intervals share a point |
| SelfTimes.GroupChildren | plugins/agent-monitor/src/allox_agent_monitor/profile.py:25-27 | the grouping loop yields the children of every span in table order |
| SelfTimes.Measure | plugins/agent-monitor/src/allox_agent_monitor/profile.py:37-46 | clipped child intervals, and whether every child timing is usable |
| SelfTimes.Profiled | plugins/agent-monitor/src/allox_agent_monitor/profile.py:28-49 | the self time of every finished span, and complete exactly when all are finished and usable |
| SelfTimes.RecordedIsSelfTime | plugins/agent-monitor/src/allox_agent_monitor/profile.py:32-49 | with unique spans each finished span has its own self time and nothing else is recorded |
| SelfTimes.SelfTimeIsIdleTime | plugins/agent-monitor/src/allox_agent_monitor/profile.py:33-47 | a usable self time is the number of time units of the span in which none of its children runs |
| SelfTimes.CompleteExactly | plugins/agent-monitor/src/allox_agent_monitor/profile.py:28-49 | there is no warning if and only if every span ended and every child was timed by its parent's clock within its parent's times |
| SelfTimes.SelfTimeInRange | plugins/agent-monitor/src/allox_agent_monitor/profile.py:37-47 | a usable self time lies in 0..duration |
| SelfTimes.SelfTimesCoverRoots | plugins/agent-monitor/src/allox_agent_monitor/profile.py:25-49 | over a complete table the self times sum to the roots' durations plus the overlap of siblings: at least the roots, and equal if and only if no siblings overlap |
| TraceStore.TraceCollector.IngestOne | plugins/agent-monitor/src/allox_agent_monitor/store.py:72-143 | one event: accepted with exactly its effect on the table (`TraceEvents.StartIsAppended`, `EndIsWritten`), or the first applicable error and no change |
| TraceStore.TraceCollector.Ingest | plugins/agent-monitor/src/allox_agent_monitor/store.py:56-70 | counts a refused event as rejected |
| TraceStore.TraceCollector.IngestBatch | plugins/agent-monitor/src/allox_agent_monitor/store.py:145-179 | the loop in one transaction: all events, or spans and accepted count as before |
| TraceStore.BatchIsAllOrNothing | plugins/agent-monitor/src/allox_agent_monitor/store.py:145-179 | a batch equals its events sent one by one if none of them would be refused, and otherwise changes only the rejected count |
| TraceEvents.StartIsAppended | plugins/agent-monitor/src/allox_agent_monitor/store.py:90-104 | an accepted start appends one running row with the event's trace, span, parent, links, kind, name, start and clock and its sender's source and run |
| TraceEvents.EndIsWritten | plugins/agent-monitor/src/allox_agent_monitor/store.py:105-135 | an accepted end changes one row, the running one of its span, to the event's end and status and the difference of the two times |
| TraceEvents.StartIsAcceptedExactly | plugins/agent-monitor/src/allox_agent_monitor/store.py:72-104 | a start is accepted if and only if it is addressed and in order, its span is new, its trace not full, and parent and links are in the table, the parent running |
| TraceEvents.EndIsAcceptedExactly | plugins/agent-monitor/src/allox_agent_monitor/store.py:105-135 | an end is accepted if and only if its span is running, from the same sender and clock and not later, and status and metrics are in order |
| TraceEvents.SpanSaysWhatWasSent | plugins/agent-monitor/src/allox_agent_monitor/store.py:56-222 | after any requests, single or batched: a span whose start and end were accepted has what those two events said, and the difference of their times as duration |
| TraceEvents.QuerySaysWhatWasSent | plugins/agent-monitor/src/allox_agent_monitor/store.py:224-238 | and so has its row in every query of its Session or trace |
| TraceEvents.RowsWereSent | plugins/agent-monitor/src/allox_agent_monitor/store.py:56-179 | every row comes from a start event that was accepted |
| TraceRuns.RunKeepsTable | plugins/agent-monitor/src/allox_agent_monitor/store.py:72-222 | after any requests: unique spans, parents and links earlier in the same trace, one end per span with duration = end - start >= 0, at most max_spans per trace; ended spans never change |
| TraceRuns.ParentsDescend | plugins/agent-monitor/src/allox_agent_monitor/store.py:181-222 | following parents strictly descends in the table, within one trace |
| TraceRuns.QueryIsWellFormed | plugins/agent-monitor/src/allox_agent_monitor/store.py:224-238 | every query result is a table to which the profiler's accounting applies |
| TraceRuns.ProfileAccountsForRoots | plugins/agent-monitor/src/allox_agent_monitor/profile.py:25-49 | from ingestion to profile: a complete profile of any query accounts exactly for its roots |
| ProcessDomains.ProcessMonitor.DomainForCurrent | plugins/process-tree/native/allox_process.bpf.c:107-140 | the known domain, or the root of an unclaimed Session, claimed once |
| ProcessDomains.ProcessMonitor.HandleFork | plugins/process-tree/native/allox_process.bpf.c:142-174 | the child inherits the cookie with a birth of its own; that it is recorded is `ProcessAttribution.ForkIsRecorded` |
| ProcessDomains.ProcessMonitor.HandleExec | plugins/process-tree/native/allox_process.bpf.c:176-213 | the domain of the former task id moves to the new one |
| ProcessDomains.ProcessMonitor.HandleExit | plugins/process-tree/native/allox_process.bpf.c:215-237 | the exit is reported and the domain deleted |
| ProcessDomains.ProcessMonitor.Submit | plugins/process-tree/native/allox_process.bpf.c:94-105 | an event reaches the ring and the produced count, or loss is counted |
| ProcessAttribution.ForkIsRecorded | plugins/process-tree/native/allox_process.bpf.c:142-174 | a loss-free fork by a task that is tracked or claims a root puts exactly the child into the map, under the parent's cookie with a birth of its own, and logs it with its parent's identity |
| ProcessAttribution.ExecIsRecorded | plugins/process-tree/native/allox_process.bpf.c:176-213 | a loss-free exec moves the process to its new task id and is logged |
| ProcessAttribution.ExitIsRecorded | plugins/process-tree/native/allox_process.bpf.c:215-237 | a loss-free exit is logged and takes exactly that process out of the map |
| ProcessAttribution.StepIsLogged | plugins/process-tree/native/allox_process.bpf.c:107-237 | in a loss-free step the log grows by exactly the root, fork, exec and exit events of what happened |
| ProcessAttribution.RunIsAttributed | plugins/process-tree/native/allox_process.bpf.c:107-237 | after every loss-free run the maps attribute every task to the run it belongs to by descent from its root, and no task to any other |
| ProcessAttribution.DescendantsAreTracked | plugins/process-tree/native/allox_process.bpf.c:142-237 | whatever a tracked process forked, directly or through others, is in the map under its run until it exits |
| ProcessAttribution.EventsAreCounted | plugins/process-tree/native/allox_process.bpf.c:94-105 | while a run goes on and nothing is lost, its count of produced events grows by exactly its logged events |
| ProcessIdentity.StepKeeps | plugins/process-tree/native/allox_process.bpf.c:107-237 | every handler call keeps map and log in agreement, or counts a loss |
| ProcessIdentity.IntroducedOnce | plugins/process-tree/native/allox_process.bpf.c:107-174 | in a loss-free run no two root or fork events introduce the same birth: each identity once, at most one root a seed |
| ProcessIdentity.NamesAliveProcess | plugins/process-tree/native/allox_process.bpf.c:142-237 | every fork's parent, exec and exit names a process introduced earlier and not exited in between |
| ProcessIdentity.DomainsAreAliveProcesses | plugins/process-tree/native/allox_process.bpf.c:107-237 | the domain map holds exactly the introduced, not exited processes, each under one live task id |
| ProcessIdentity.QuiescentRunHasNoDomain | plugins/process-tree/native/allox_process.bpf.c:215-237 | in a loss-free run, once every introduced process of a cookie has exited, no domain of that cookie is left |
| ProcessIdentity.NonLeaderExecKeepsIdentity | plugins/process-tree/native/allox_process.bpf.c:176-213 | an exec by another thread keeps its identity under the leader's id |
| ProcessTracker.Tracker.Seed | plugins/process-tree/native/allox-process-tracker.c:168-201 | a run is registered completely, or any failure leaves everything as it was |
| ProcessTracker.Tracker.HandleEvent | plugins/process-tree/native/allox-process-tracker.c:85-110 | each event of a known run counts as seen |
| ProcessTracker.Tracker.Produce | plugins/process-tree/native/allox_process.bpf.c:94-105 | produced counts and ring stay in step |
| ProcessTracker.Tracker.Finish | plugins/process-tree/native/allox-process-tracker.c:202-235 | with events of other runs arriving meanwhile: acknowledged only with no loss and no event of the run left in the ring, its domains, counter and Session gone and all other domains kept; it does succeed after one full drain within the visit limit |
| ProcessTracker.Tracker.Sweep | plugins/process-tree/native/allox-process-tracker.c:220-232 | succeeds if and only if the visits needed stay below the limit; then exactly the run's domains are gone, and other domains are never touched |
| ProcessTracker.VisitsBound | plugins/process-tree/native/allox-process-tracker.c:220-232 | m own and n foreign domains need at most m(n+1)+n visits |
| ProcessTracker.NoOwnDomainsAlwaysEnds | plugins/process-tree/native/allox-process-tracker.c:220-232 | without own domains the sweep ends for every map the kernel can hold |
| ProcessFinish.QuiescentFinishEnds | plugins/process-tree/native/allox-process-tracker.c:202-235 | so for such a run the sweep of finish finds none of its domains and stays below its limit, whatever else the map holds |
| ProcessTracker.TwoOwnDomainsCanBeTooMany | plugins/process-tree/native/allox-process-tracker.c:220-232 | two own domains behind 65534 foreign ones exceed the limit |

## Left out

- JSON text, malformed journal fields and unsafe names in them: a journal is a typed record.
- Timestamps, fsync, the event log, and the lists of removed runtime entries in results.
- Several agents and Sessions in the store: one Session directory, whose operations do not interact with others.
- Checkpoint metadata beyond one opaque value, and what `list_checkpoints`, `checkpoint_status`, `describe` and `initialize` return. Of what they change, directories apart, the index load and save of the middle two is modelled (`LoadIndex`, and the late save of a stale index in `StoreTheorems`), and so is the recovery that `initialize` runs; an unlocked save between two steps of a call that goes on is not.
- Id validation in the registry and in `start`: their arguments are valid ids here.
- The lock-free part of `share_access` with `write`, which is `mutation` again.
- Observers, provider and feature finalization: one nondeterministic outcome in the launch cleanup and in the watcher.
- `session_launch_fence`, `stop`, timers and `close` of the tracking service: they only kill processes and wait.
- Rows without a usable run epoch in the audit directory, and the epoch skipped by a launch that fails before its row exists.
- Waiting times, condition variables and thread liveness in exporter and tracker: a wait is the state in which it ended.
- The percentiles, groups and metric sums of `profile`, and the synchronous delivery of the SDK.
- Opaque span fields (`input`, `result`, `turn_id`, `semantic_path`, metrics) are checked but not stored.
- Concurrent handlers on several CPUs, and changes of the domain map by other CPUs during a sweep.
- The control line parser, ring buffer memory, and the kernel's choice of iteration order, which is a given sequence.
- HTTP and socket servers, RPC dispatch, configuration, sandbox construction, file sharing and the turn lifecycle.
- TrackingService.ProcessTrackingService.Start: spawning, saving and cgroup operations are outside the model, so whether they fail is a parameter; and no other run moves in between (the state machine of `RunFencing` covers interleavings).
- TrackingService.ProcessTrackingService.Launch: where a step raises is a parameter, because the steps that raise are outside the model.
- TrackingService.ProcessTrackingService.Abandon: whether processes die, finalization succeeds and the save succeeds are parameters, for the same reason.
- TrackingService.ProcessTrackingService.WatchRun: so are the exit of the processes, finalization, the two saves and the removal of the cgroup.
- Exporter.BackgroundExporter.Submit: the wait for room is left to the caller; a submission that gives up is the one that still finds the queue full.
- ProcessTracker.Tracker.Finish: no event of the run itself is produced while it runs, because its cgroup is empty by then; and nothing changes the maps during the sweep.
