# Proofs about the local Dreamina task engine

Several local processes share durable JSON files to drive a paid generation provider: an invocation
arbiter hands out fenced leases, a submission journal makes sure that a paid job is submitted at most
once, a reconciler polls for results, and a product store records what became of each task. This
project models those layers as state machines over the disk images, with every locked section as one
step, and proves what holds over every interleaving of processes, crashes, stalls and expiring leases.
It also covers the canvas batch validator, the editor that applies the batches, the workflow
generator, the process-local queue, and the money parser of the payment plug-in.

The three durable layers each have a *gate*: after an interrupted file replacement, recovery compares
the left-over backup with the primary and refuses any change it cannot explain. The steps, the gates
and the compaction were written independently of each other; most of the harder results connect them.

How the files fit together:

| files | contents |
|---|---|
| `Prelude`, `Lists` | optional values, results, array idioms |
| `FileReplacement`, `Durability` | crash-prone file replacement and recovery, and its use by the three durable files |
| `Arbiter`, `ArbiterRuns`, `ArbiterEffects` | the invocation arbiter, its runs, and what each section leaves in the file |
| `JournalRecord`, `Journal`, `QueueOrder`, `RuntimeSteps`, `RuntimeGate`, `RuntimeEffects`, `RuntimeProcess` | the journal, its gate, the locked steps of the runtime, what they leave in the journal, and the process that performs them |
| `Reconciler`, `ReportEffects`, `ReconcilerProcess` | polling, what its steps leave in the journal, and the process that performs them |
| `RecordSteps`, `SubmissionProtocol`, `HarmlessSteps`, `SubmissionSafety`, `SubmissionHistory`, `SubmissionProgress` | the submission protocol over whole runs: safety, where the contents of the journal come from, and progress |
| `RecoveryGates`, `Shapes` | what the gates of the three files let nobody take back, and what their shape checks let pass |
| `TaskContract`, `Projection`, `ProjectionRuns`, `ProjectionEffects`, `LateProjections` | the product lifecycle, the projection of the journal into the store, its runs, what reaches the store, and a projection that comes too late |
| `TaskStore`, `StoreCompaction`, `StoreGate`, `StoreSteps`, `StoreEffects`, `StoreLimits`, `StoreRuns`, `StoreHistory`, `StoreProcess` | the product store, its compaction, its gate, its operations and what they leave on disk, what goes wrong in a full store, its runs, what answers mean for the rest of a run, and the process that performs its operations |
| `Canvas`, `CanvasRules`, `CanvasSoundness`, `CanvasValidator`, `Workflow`, `WorkflowValidity`, `WorkflowEffect`, `WorkflowProcess` | the canvas |
| `GenerationPool`, `Money` | the process-local queue, and yuan and fen |

Code that changes things in place is modelled by classes (`StateFiles`, `StateFile`, `JournalFile`,
`Runtime`, `Instance`, `Working`, `StoreFile`, `Projector`, `Validator`, `Generator`, `Coordinator`)
whose methods are proved against specification functions; the theorems are about those functions.

The main results, each over every run or every input:

- At most one provider process per key (`SubmissionSafety.AtMostOneSpawnPerKey`); never more open jobs
  than slots (`SubmissionProgress.OpenJobsAreBounded`); first come, first served
  (`SubmissionProgress.FirstComeFirstServed`).
- A receipt in the journal was brought by a spawned attempt for that key and is kept for ever
  (`SubmissionHistory.ReceiptCameFromAttempt`, `SubmissionHistory.ReceiptsAreKept`); observations are
  ordered (`SubmissionHistory.OlderReportChangesNothing`).
- Fencing: whoever passes holds the newest lease (`ArbiterRuns.PassingHolderIsNewest`), and the account a
  session epoch names is the one its commit gave (`ArbiterEffects.CommittedAccountStays`).
- An answered completion is on disk and happens once (`StoreHistory.AnsweredCompletionHappensOnce`), and
  every recorded result was answered (`StoreHistory.ResultsCameFromCompletion`).
- What the provider delivered reaches the store and waits there
  (`ProjectionEffects.OutputsReachTheStore`, `ProjectionEffects.DeliveredOutputsWait`), and lifecycles never
  regress (`ProjectionRuns.LifecycleNeverRegresses`).
- Every write of every layer is all or nothing under crashes, wherever the gate can explain it
  (`Durability.ArbiterStepIsAtomic`, `Durability.JournalStepIsAtomic`, `Durability.StoreStepIsAtomic`).
- An accepted canvas batch does what it says and keeps the graph sound
  (`CanvasSoundness.AcceptedBatchKeepsGraph`), and a generated workflow is built as planned
  (`WorkflowEffect.WorkflowIsBuilt`).

What the proofs found out about the code:

- The older `run` interface can never record an uncertain submission: the shape check refuses the
  write (`RuntimeGate.RunUncertainIsRefused`); the pending intent is settled by the next reload.
- Deleting a task whose reservation has not permitted a spawn is always refused
  (`RuntimeGate.DeleteExactly`), and so is failing a pending task that has a reservation
  (`RuntimeGate.FailTaskExactly`).
- Giving a key back removes a record, which the recovery gate never accepts; an interruption at the
  wrong moment blocks recovery for good (`Durability.RemovalCanBlockRecovery`).
- A process that has seen a reservation which its owner then gives back refuses every later reload,
  because the record it remembers is gone (`SubmissionProgress.GivenBackRecordBlocksReload`); in every
  other case reloads agree with what was seen (`SubmissionProgress.MemoryIsCoherentExactly`).
- Record progression does not compose through a step that resolves an uncertain submission
  (`JournalRecord.ProgressComposesExactly`).
- The journal accepts provider outputs in any order with gaps; the projector refuses all but 0, 1, 2, 3
  (`Projection.ProjectableExactly`).
- In a full store an operation writes an image that cannot be read back, or that recovery refuses, when
  an effect without product key has two consumers, when a product effect has an unprefixed key, or when
  a delivery of another effect was released (`StoreLimits.ClaimStaysReadableExactly`,
  `StoreLimits.TaskWriteStaysReadableExactly`, `StoreLimits.ClaimIsExplainedExactly`), and a renewal that
  shortens a lease is refused by recovery (`StoreSteps.RenewExactly`).
- Versions start over when compaction drops a deleted task and somebody stores it anew. A projection
  computed before that and swapped after it passes the version check and can take the lifecycle back
  (`LateProjections.RemadeTaskCanRegress`).
- The editor silently skips an accepted connection exactly when one end is a frame
  (`CanvasSoundness.ConnectionTakesEffectExactly`).
- A negative fraction of a yuan is refused only because a subtraction wraps around
  (`Money.WrapsWhenNegative`); "5.+3" and "5.-" are accepted (`Money.SignedFractionExactly`).
- `compareDurableQueueOrder` is total exactly while no two records share a ticket
  (`QueueOrder.OrderIsTotalExactlyWhenTicketsDiffer`), which every reachable journal satisfies.
- A workflow node that refers to a node of the canvas is not connected to it when a planned connection
  happens to have the same pair of texts (`WorkflowEffect.WishIsGrantedExactly`).

## Model

| member | source | states |
|---|---|---|
| FileReplacement.ReplaceIsAtomic | canvas-agent/src/dreamina-cli-state.ts:127-167 | whatever operation fails or crashes, the files keep a shape whose surviving image is the old or the new one, and the new one if the writer was told so |
| FileReplacement.RecoverKeepsSurvivor | canvas-agent/src/dreamina-cli-state.ts:93-125 | a recovery, itself interrupted anywhere, never changes which image survives; if it runs to its end only that image is left |
| FileReplacement.ReplacementIsCrashAtomic | canvas-agent/src/dreamina-cli-state.ts:93-154 | a replacement and any number of recoveries, all interrupted anywhere: the first complete recovery leaves no backup and exactly the old or the new image |
| FileReplacement.RejectedGateBlocksRecovery | canvas-agent/src/dreamina-cli-state.ts:109-122 | a pair of images the gate rejects is never recovered, however often recovery is tried |
| FileReplacement.RejectedWriteCanWedge | canvas-agent/src/dreamina-cli-state.ts:136-149 | any write whose gate check fails has an interruption point from which recovery is refused for ever |
| FileReplacement.StateFiles.ReplaceStateFile | canvas-agent/src/dreamina-cli-arbiter.ts:274-302 | the replacement, operation by operation, does what the specification function of both dialects says, for every fate of every operation |
| FileReplacement.StateFiles.RestoreBackup | canvas-agent/src/dreamina-cli-state.ts:156-167 | the backup returns exactly when the primary is missing; the error is reported whatever happens |
| FileReplacement.StateFiles.RecoverReplacement | canvas-agent/src/dreamina-cli-state.ts:93-125 | recovery, operation by operation, does what the specification function says |
| Durability.ArbiterStepIsAtomic | canvas-agent/src/dreamina-cli-arbiter.ts:254-329 | from any arbiter state, a crash-prone write of the next one is all or nothing after recovery |
| Durability.JournalStepPassesGateExactly | canvas-agent/src/dreamina-cli-state.ts:207-219 | recovery accepts what a step of the protocol wrote over what it read exactly when the step removed no record |
| Durability.JournalStepIsAtomic | canvas-agent/src/dreamina-cli-state.ts:68-125 | in every reachable journal, a crash-prone write of a step that removes no record is all or nothing after recovery |
| Durability.TicketNeverFalls | canvas-agent/src/dreamina-cli-runtime.ts:1522-1525 | no step of the protocol lowers the durable ticket counter |
| Durability.RemovalCanBlockRecovery | canvas-agent/src/dreamina-cli-runtime.ts:893-898 | a step that gives its key back has an interruption point after which recovery is refused for ever |
| Durability.StoreStepIsAtomic | canvas-agent/src/dreamina-task-store.ts:735-768 | in every reachable store, a crash-prone write of any operation, compaction included, is all or nothing after recovery |
| Arbiter.StateFile.ScanFirst | canvas-agent/src/dreamina-cli-arbiter.ts:99-101 | the scan returns the entry with the smallest ticket |
| Arbiter.StateFile.Write | canvas-agent/src/dreamina-cli-arbiter.ts:220-233 | a section bumps the revision and is written only if its result has a valid shape |
| Arbiter.StateFile.JoinQueue | canvas-agent/src/dreamina-cli-arbiter.ts:83-90 | joining prunes, draws the next ticket and appends, or refuses a full queue, as specified |
| Arbiter.StateFile.Poll | canvas-agent/src/dreamina-cli-arbiter.ts:94-112 | one polling round grants, waits or refuses as specified and leaves the specified file |
| Arbiter.StateFile.Heartbeat | canvas-agent/src/dreamina-cli-arbiter.ts:159-169 | a heartbeat extends the holder's lease, even an expired one, and nobody else's |
| Arbiter.StateFile.Leave | canvas-agent/src/dreamina-cli-arbiter.ts:190-198 | a release ends the holder's own lease only |
| Arbiter.StateFile.Abandon | canvas-agent/src/dreamina-cli-arbiter.ts:202-206 | a failed acquisition removes its queue entry and nothing else |
| Arbiter.StateFile.BindSession | canvas-agent/src/dreamina-cli-arbiter.ts:127-138 | the account changes only under the live lease with that fence, and with a new epoch |
| Arbiter.StateFile.NextSession | canvas-agent/src/dreamina-cli-arbiter.ts:140-147 | the session advances only under the live lease with that fence, and forgets the account |
| ArbiterRuns.StepKeepsInv | canvas-agent/src/dreamina-cli-arbiter.ts:79-206 | every section keeps: valid shape, strictly sorted queue without double requests, fences counting the grants, the active lease being the newest grant, one account per epoch |
| ArbiterRuns.FirstIsHead | canvas-agent/src/dreamina-cli-arbiter.ts:99-101 | in a sorted queue the minimum scan finds the head |
| ArbiterRuns.GrantedExactlyAtTheHead | canvas-agent/src/dreamina-cli-arbiter.ts:94-112 | in reachable states a poll is granted if and only if the unexpired request heads the pruned queue under its ticket, no lease is live, its session is current and the counters have room |
| ArbiterRuns.PassingHolderIsNewest | canvas-agent/src/dreamina-cli-arbiter.ts:179-189 | over all runs, whoever passes a fenced operation holds the greatest fence ever granted, although heartbeats revive expired leases |
| ArbiterRuns.FencingIsMonotone | canvas-agent/src/dreamina-cli-arbiter.ts:433-435 | of two successful fenced operations the later never has the smaller fence, and a lease followed by another grant never passes again |
| ArbiterRuns.GrantsFollowTickets | canvas-agent/src/dreamina-cli-arbiter.ts:83-112 | leases are granted in strictly increasing ticket order with strictly increasing fences |
| ArbiterRuns.EpochNamesOneAccount | canvas-agent/src/dreamina-cli-arbiter.ts:127-147 | equal session epochs anywhere in a run mean equal account bindings, and epochs never go back |
| ArbiterRuns.SessionChangesUnderNewestLease | canvas-agent/src/dreamina-cli-arbiter.ts:127-147 | the session changes only by a commit or an advance with the newest fence while its lease is live, by one epoch |
| ArbiterRuns.GateAcceptsEveryLaterState | canvas-agent/src/dreamina-cli-arbiter.ts:304-329 | recovery accepts any later state of a run over any earlier one |
| ArbiterRuns.SectionPassesGate | canvas-agent/src/dreamina-cli-arbiter.ts:324-329 | what a section writes passes the gate against what it read, from any state whatever |
| ArbiterRuns.WritesAreValid | canvas-agent/src/dreamina-cli-arbiter.ts:383-421 | with room in the counters no section of a reachable state is refused by the shape check |
| ArbiterEffects.JoinerIsLast | canvas-agent/src/dreamina-cli-arbiter.ts:83-90 | whoever joins is the last in the queue, under the next ticket, until its deadline; expired entries and an expired lease are gone, the rest stays |
| ArbiterEffects.GrantLastsExactly | canvas-agent/src/dreamina-cli-arbiter.ts:94-112 | from a grant on, the holder passes its checks, with the session it was told, exactly until the end of the term it was given |
| ArbiterEffects.WaitingTidiesUp | canvas-agent/src/dreamina-cli-arbiter.ts:94-103 | a poll that is told to wait removes what has expired and nothing else |
| ArbiterEffects.HeartbeatLastsExactly | canvas-agent/src/dreamina-cli-arbiter.ts:159-169 | after a heartbeat the holder passes its checks exactly until the end of a new term, even if the old one had run out; session, queue and counters stay |
| ArbiterEffects.ForeignHeartbeatIsRefused | canvas-agent/src/dreamina-cli-arbiter.ts:159-169 | heartbeat and check of anybody but the holder of that very lease are refused, and its release takes nothing from the holder |
| ArbiterEffects.ReleaseFreesTheLock | canvas-agent/src/dreamina-cli-arbiter.ts:190-198 | after the holder's release nobody holds the lock; anybody else's release leaves the lease |
| ArbiterEffects.AbandonForgetsOne | canvas-agent/src/dreamina-cli-arbiter.ts:202-206 | a failed acquisition takes out its own entry and leaves everybody else's, the lease and the session |
| ArbiterEffects.ReleasedLockGoesToTheHead | canvas-agent/src/dreamina-cli-arbiter.ts:94-112 | in reachable states, once the holder has released, the unexpired head of the queue is granted at its next poll, with the next fence |
| ArbiterEffects.CommitBindsTheAccount | canvas-agent/src/dreamina-cli-arbiter.ts:127-138 | a commit stores and answers the very binding it was given; the epoch moves on by one exactly when the binding differs; lease, queue and counters stay |
| ArbiterEffects.AdvanceForgetsTheAccount | canvas-agent/src/dreamina-cli-arbiter.ts:140-147 | an advance stores and answers no binding under the next epoch; lease, queue and counters stay |
| ArbiterEffects.SessionSectionsExactly | canvas-agent/src/dreamina-cli-arbiter.ts:127-147 | with room in the counters, commit and advance go through exactly with the fence of the live lease, and a refusal leaves the file |
| ArbiterEffects.CommittedAccountStays | canvas-agent/src/dreamina-cli-arbiter.ts:127-138 | over runs: in every later state that is still in the epoch of a commit, the account is the one that commit gave |
| ArbiterEffects.AccountCameFromCommit | canvas-agent/src/dreamina-cli-arbiter.ts:127-147 | over runs: an account bound in a reachable state was given by a commit of the run that answered with this very session |
| JournalRecord.ProgressIsTransitive | canvas-agent/src/dreamina-cli-state.ts:456-489 | two legal rewrites of a record compose, unless the first resolves an uncertain submission or gives it a receipt |
| JournalRecord.ProgressComposesExactly | canvas-agent/src/dreamina-cli-state.ts:456-489 | a legal rewrite composes with every legal rewrite after it if and only if it does not resolve an uncertain submission |
| JournalRecord.UncertainReceiptsComposeExactly | canvas-agent/src/dreamina-cli-state.ts:457-462 | from an uncertain record with a receipt two legal rewrites through valid records lead to one the gate refuses directly, exactly when the record belongs to a task |
| JournalRecord.SettledStateIsFinal | canvas-agent/src/dreamina-cli-state.ts:470 | a settled state becomes nothing but itself or deleted |
| Journal.GateAcceptsWrites | canvas-agent/src/dreamina-cli-state.ts:207-219 | an accepted write is accepted again by recovery if and only if it removed no record and did not lower the ticket counter |
| Journal.GateIsTransitive | canvas-agent/src/dreamina-cli-state.ts:207-219 | recovery accepts any later journal over any earlier one, through any number of accepted writes |
| Journal.PersistOne | canvas-agent/src/dreamina-cli-state.ts:427-446 | a write of one record succeeds exactly when it progresses and is well shaped; no other record changes image or version |
| Journal.PersistRemoval | canvas-agent/src/dreamina-cli-state.ts:443-454 | a removal succeeds exactly for a pre-spawn intent |
| Journal.JournalFile.AssignJournalVersions | canvas-agent/src/dreamina-cli-state.ts:427-446 | the loop accepts exactly the writable payloads and stamps the specified versions |
| Journal.JournalFile.PersistState | canvas-agent/src/dreamina-cli-state.ts:68-91 | the file changes to the stamped payload, or not at all with an error |
| RecoveryGates.ArbiterGateExactly | canvas-agent/src/dreamina-cli-arbiter.ts:304-329 | the arbiter's gate accepts the same state, or a later one that reissues no ticket or fence, returns to no earlier session, and names nobody else in the present one |
| RecoveryGates.GateKeepsSubmission | canvas-agent/src/dreamina-cli-state.ts:456-489 | the journal's gate lets nobody change request, task, receipt, outputs or bound account of a record, nor unhide it, nor lower its fence or session epoch |
| RecoveryGates.GateKeepsHolder | canvas-agent/src/dreamina-cli-state.ts:477-488 | while a record waits or is being submitted, owner, ticket and reservation stay, no term gets shorter, and a permission to spawn is not taken back |
| RecoveryGates.UncertaintyEndsByObservation | canvas-agent/src/dreamina-cli-state.ts:457-470 | an uncertain submission is resolved only with its receipt and on an observation of the provider that says so |
| RecoveryGates.JournalGateKeepsRecords | canvas-agent/src/dreamina-cli-state.ts:207-219 | a journal the gate accepts over another has all its records, none older, and the same record under the same version; tickets are not reissued |
| RecoveryGates.StoreGateKeepsTasks | canvas-agent/src/dreamina-task-store.ts:778-801 | a store the gate accepts over another has every undeleted task: same request, account and identity, not older, not back from deletion or hiding |
| RecoveryGates.StoreGateKeepsDeliveries | canvas-agent/src/dreamina-task-store.ts:816-844 | completed product effects are still completed with their results, and pending deliveries are there under no lower fence, for the same holder not shortened |
| RecoveryGates.StoreGateKeepsEffects | canvas-agent/src/dreamina-task-store.ts:803-815 | an ordinary effect with an open delivery is still there, as it was, unless its task was deleted |
| Shapes.ArbiterShapeExactly | canvas-agent/src/dreamina-cli-arbiter.ts:383-421 | which arbiter files are read: counters in range, at most a thousand entries, no double requests or tickets |
| Shapes.OutputShapeExactly | canvas-agent/src/dreamina-cli-state.ts:394-409 | which outputs a record may have: one video, or one to four images with different indexes below four |
| Shapes.TaskRecordShapeExactly | canvas-agent/src/dreamina-cli-state.ts:285-377 | which records of tasks are read: receipt, lease, reservation, fence and outputs each only in the states they belong to |
| Shapes.RunRecordShapeExactly | canvas-agent/src/dreamina-cli-state.ts:285-377 | which records of the older interface are read |
| Shapes.StoredTaskShapeExactly | canvas-agent/src/dreamina-task-store.ts:574-603 | which stored tasks are read: an outcome exactly at the end, different output indexes, safe codes, versions in range |
| Shapes.SafeCodesExactly | canvas-agent/src/dreamina-task-contract.ts:376-378 | which error codes may be stored |
| QueueOrder.OrderIsTotalExactlyWhenTicketsDiffer | canvas-agent/src/dreamina-cli-runtime.ts:1687-1693 | the comparator is a strict total order on a journal if and only if no two records share a ticket |
| QueueOrder.OrderIsTransitive | canvas-agent/src/dreamina-cli-runtime.ts:1687-1693 | the comparator is transitive and irreflexive on records of both formats |
| QueueOrder.SliceIsPriority | canvas-agent/src/dreamina-cli-runtime.ts:1536-1540 | an entry stands in the sorted live queue at the number of its live predecessors |
| QueueOrder.InsertOrdered | canvas-agent/src/dreamina-cli-runtime.ts:1538 | insertion keeps a listing sorted and adds exactly the one key |
| QueueOrder.FindPriority | canvas-agent/src/dreamina-cli-runtime.ts:1533-1541 | filter, sort and slice decide: fewer live predecessors than free slots |
| RuntimeGate.WriteBackExactly | canvas-agent/src/dreamina-cli-runtime.ts:1543-1550 | a locked write-back succeeds exactly when the record progresses and is well shaped |
| RuntimeGate.RecoverRecordShape | canvas-agent/src/dreamina-cli-runtime.ts:1494-1511 | what recovery makes of a valid record is valid again, except for an expired reserved intent without task |
| RuntimeGate.RecoveryIsAccepted | canvas-agent/src/dreamina-cli-runtime.ts:1489-1526 | recovery inside a reload is never refused by the gate on valid journals without such an intent |
| RuntimeGate.QueuedIsSafeExactly | canvas-agent/src/dreamina-cli-runtime.ts:1505-1511 | recovery leaves a queue entry alone exactly until its lease expires, and then marks it interrupted before submission |
| RuntimeGate.ReservationIsSafeExactly | canvas-agent/src/dreamina-cli-runtime.ts:1494-1504 | recovery leaves a reservation alone exactly until it expires; then it is interrupted before submission, or uncertain once the permission to spawn was stored |
| RuntimeGate.EnqueueIsAccepted | canvas-agent/src/dreamina-cli-runtime.ts:552-580 | a new key below the record limit is always stored |
| RuntimeGate.RenewQueueLeaseExactly | canvas-agent/src/dreamina-cli-runtime.ts:714-723 | renewing a live queue lease succeeds exactly when it does not shorten it |
| RuntimeGate.ReserveIsAccepted | canvas-agent/src/dreamina-cli-runtime.ts:645-667 | a queued task that asks for a slot is never refused by the gate |
| RuntimeGate.RenewReservationExactly | canvas-agent/src/dreamina-cli-runtime.ts:751-759 | renewing a live reservation succeeds exactly when it does not shorten it |
| RuntimeGate.FenceExactly | canvas-agent/src/dreamina-cli-runtime.ts:839-854 | once its own guards pass, the permission to spawn is stored exactly when neither expiry nor session epoch goes back |
| RuntimeGate.ReceiptIsAccepted | canvas-agent/src/dreamina-cli-runtime.ts:866-878 | a receipt whose guards pass is never refused: paid work is always recorded |
| RuntimeGate.UnspawnedFailureRemoves | canvas-agent/src/dreamina-cli-runtime.ts:888-899 | an attempt that never spawned gives its key back without a trace |
| RuntimeGate.SpawnedFailureExactly | canvas-agent/src/dreamina-cli-runtime.ts:894-898 | marking a spawned attempt uncertain succeeds exactly for records with a task |
| RuntimeGate.CancelIsAccepted | canvas-agent/src/dreamina-cli-runtime.ts:406-428 | cancelling a task is never refused by the gate |
| RuntimeGate.DeleteExactly | canvas-agent/src/dreamina-cli-runtime.ts:458-476 | deleting is refused exactly for a reserved submission that has not permitted a spawn |
| RuntimeGate.FailTaskExactly | canvas-agent/src/dreamina-cli-runtime.ts:1009-1017 | failing is refused exactly for a pending record that has a reservation |
| RuntimeGate.DisposeIsAccepted | canvas-agent/src/dreamina-cli-runtime.ts:1034-1046 | failing the queued tasks of a disposed process is never refused |
| RuntimeGate.RunBeginIsAccepted | canvas-agent/src/dreamina-cli-runtime.ts:1206-1214 | with a free slot a new intent of the older interface is always stored |
| RuntimeGate.RunFenceIsAccepted | canvas-agent/src/dreamina-cli-runtime.ts:1220-1226 | the fence of a fresh intent is always stored |
| RuntimeGate.RunReceiptIsAccepted | canvas-agent/src/dreamina-cli-runtime.ts:1245-1250 | the receipt of the older interface is always stored |
| RuntimeGate.RunAbandonExactly | canvas-agent/src/dreamina-cli-runtime.ts:1280-1283 | giving the key back succeeds exactly while the record is pending |
| RuntimeGate.RunUncertainIsRefused | canvas-agent/src/dreamina-cli-runtime.ts:1285-1291 | the write of an uncertain submission by the older interface is always refused, and the next reload makes the pending intent uncertain |
| RuntimeEffects.EnqueueStoresTheTask | canvas-agent/src/dreamina-cli-runtime.ts:552-580 | a new task is stored as it was given, queued for its owner for one term under the loaded ticket, without receipt or account; the next ticket is one higher and every other record stays |
| RuntimeEffects.QueueRenewalExtends | canvas-agent/src/dreamina-cli-runtime.ts:714-723 | a renewed queue entry lives for a new term; its owner, ticket and everything else stay |
| RuntimeEffects.ReservationIsMade | canvas-agent/src/dreamina-cli-runtime.ts:645-667 | a task with priority leaves the queue and is reserved for the claim for one term, in the phase before a spawn; without priority nothing changes |
| RuntimeEffects.ReservationRenewalExtends | canvas-agent/src/dreamina-cli-runtime.ts:751-759 | a renewed reservation lives for a new term in the same phase; everything else stays |
| RuntimeEffects.PermissionIsStored | canvas-agent/src/dreamina-cli-runtime.ts:839-854 | the permission to spawn is stored with the fence and the account it was given under, for a new term, and only for the live reservation of the claim |
| RuntimeEffects.ForeignClaimIsRefused | canvas-agent/src/dreamina-cli-runtime.ts:751-899 | whoever does not hold the very reservation, of that request, id and owner, is refused by every step of a submission |
| RuntimeEffects.LateClaimIsRefused | canvas-agent/src/dreamina-cli-runtime.ts:751-854 | a reservation whose time is over is neither renewed nor permits a spawn |
| RuntimeEffects.ReceiptIsStored | canvas-agent/src/dreamina-cli-runtime.ts:866-878 | the receipt stored is the one the provider gave: the record is accepted with it, the reservation is spent, and request, task, fence, account and all other records stay |
| RuntimeEffects.RunReceiptIsStored | canvas-agent/src/dreamina-cli-runtime.ts:1245-1250 | the same for the older interface |
| RuntimeEffects.UncertaintyIsStored | canvas-agent/src/dreamina-cli-runtime.ts:894-898 | a spawned attempt without receipt leaves its record uncertain, with the reason and without reservation |
| RuntimeEffects.UnspentKeyIsFree | canvas-agent/src/dreamina-cli-runtime.ts:888-895 | an attempt that never spawned takes its own record away and no other |
| RuntimeEffects.WarningIsStored | canvas-agent/src/dreamina-cli-runtime.ts:990-998 | a failed clean-up is noted beside the accepted record of that fence |
| RuntimeEffects.IntentIsStored | canvas-agent/src/dreamina-cli-runtime.ts:1206-1214 | the intent of the older interface is stored under a free key, when a slot is free, without task, receipt or account |
| RuntimeEffects.RunPermissionIsStored | canvas-agent/src/dreamina-cli-runtime.ts:1220-1226 | its permission is stored with the fence and the account it was given under |
| RuntimeEffects.AbandonedIntentIsGone | canvas-agent/src/dreamina-cli-runtime.ts:1280-1283 | its abandoned intent is gone and every other record stays |
| RuntimeEffects.CancellationIsStored | canvas-agent/src/dreamina-cli-runtime.ts:406-428 | the cancellation is stored, and the queue entry given up, exactly for a task that is neither settled nor being submitted nor accepted |
| RuntimeEffects.DeletionIsStored | canvas-agent/src/dreamina-cli-runtime.ts:458-476 | a task not yet submitted is deleted, any other one hidden, and a deleted or hidden one left alone |
| RuntimeEffects.FailureIsStored | canvas-agent/src/dreamina-cli-runtime.ts:1009-1017 | the failure is stored with its reason, and the queue entry given up, unless the task is settled |
| RuntimeEffects.DisposalFailsOwned | canvas-agent/src/dreamina-cli-runtime.ts:1034-1046 | a process that stops fails exactly the tasks it has queued, as interrupted |
| RuntimeEffects.RecoverySettles | canvas-agent/src/dreamina-cli-runtime.ts:1494-1511 | which records a reload settles and as what, with the reason: nothing else changes in any of them |
| RuntimeEffects.UsedKeyIsRefused | canvas-agent/src/dreamina-cli-runtime.ts:552-561 | a used key is refused, as a conflict for another request and as a replay for the same one; the older interface also refuses without a free slot |
| RuntimeEffects.ReservationRefusals | canvas-agent/src/dreamina-cli-runtime.ts:645-667 | reserving is refused for another request and for a task that no longer waits |
| RuntimeEffects.SubmissionRefusals | canvas-agent/src/dreamina-cli-runtime.ts:839-878 | the permission is refused under an older fence and for another account, the receipt under another fence or session and without a current lease |
| RuntimeEffects.UnknownTaskIsRefused | canvas-agent/src/dreamina-cli-runtime.ts:406-476 | nothing is cancelled or deleted under an unknown key, nor cancelled behind a record of the older interface |
| RuntimeEffects.QueuedMayReserve | canvas-agent/src/dreamina-cli-runtime.ts:645-667 | what was queued, its owner may reserve |
| RuntimeEffects.ReservedMayBePermitted | canvas-agent/src/dreamina-cli-runtime.ts:839-854 | whoever reserved gets the permission while the reservation lives |
| RuntimeEffects.PermittedMayStoreReceipt | canvas-agent/src/dreamina-cli-runtime.ts:866-878 | whoever has the permission stores a receipt at any later time |
| RuntimeProcess.Runtime.ReloadFromDisk | canvas-agent/src/dreamina-cli-runtime.ts:1478-1527 | the loops recover expired records, refuse a disk behind the memory, find the ticket counter and write when something was recovered, exactly as specified |
| RuntimeProcess.Runtime.RecoverRecords | canvas-agent/src/dreamina-cli-runtime.ts:1491-1513 | every expired reservation and queue entry is settled, every other record kept, and the flag tells whether there was one |
| RuntimeProcess.Runtime.CheckCoherent | canvas-agent/src/dreamina-cli-runtime.ts:1514-1519 | passes exactly when every remembered record is still there with its request and not behind the memory |
| RuntimeProcess.Runtime.FindNextTicket | canvas-agent/src/dreamina-cli-runtime.ts:1522-1525 | finds the least counter that is not below the stored one nor any stored ticket |
| RuntimeProcess.Runtime.PersistUnlocked | canvas-agent/src/dreamina-cli-runtime.ts:1543-1550 | memory and file agree after a write that went through; a refused one leaves the file |
| RuntimeProcess.Runtime.EnqueueNew | canvas-agent/src/dreamina-cli-runtime.ts:552-580 | the section stores a queued record with the next ticket after a reload, or refuses a known key |
| RuntimeProcess.Runtime.RenewQueueLease | canvas-agent/src/dreamina-cli-runtime.ts:714-723 | only the live owner of the queue entry extends it |
| RuntimeProcess.Runtime.ReserveSubmissionSlot | canvas-agent/src/dreamina-cli-runtime.ts:645-667 | a slot is reserved if and only if the task has the declared priority in the reloaded journal |
| RuntimeProcess.Runtime.RenewReservation | canvas-agent/src/dreamina-cli-runtime.ts:751-759 | only the live holder of the reservation extends it |
| RuntimeProcess.Runtime.CommitInvocationFence | canvas-agent/src/dreamina-cli-runtime.ts:839-854 | only the live holder gets the durable permission to spawn, with fence and account recorded |
| RuntimeProcess.Runtime.CommitAcceptedReceipt | canvas-agent/src/dreamina-cli-runtime.ts:866-878 | only the permitted holder with the recorded fence, account and a current lease stores the receipt |
| RuntimeProcess.Runtime.CommitSubmissionFailure | canvas-agent/src/dreamina-cli-runtime.ts:888-899 | a failed attempt removes its record if it never spawned and leaves it uncertain otherwise |
| RuntimeProcess.Runtime.CancelTask | canvas-agent/src/dreamina-cli-runtime.ts:406-428 | only a task without a submission is cancelled |
| RuntimeProcess.Runtime.DeleteTask | canvas-agent/src/dreamina-cli-runtime.ts:458-476 | a task not yet submitted is deleted, any other one hidden |
| RuntimeProcess.Runtime.FailTask | canvas-agent/src/dreamina-cli-runtime.ts:1100-1114 | the record read under the lock is failed unless it is settled |
| RuntimeProcess.Runtime.PersistCleanupWarning | canvas-agent/src/dreamina-cli-runtime.ts:990-998 | the warning goes to the accepted record with that fence only |
| RuntimeProcess.Runtime.FailOwnedQueuedTasks | canvas-agent/src/dreamina-cli-runtime.ts:1031-1047 | exactly the queued tasks of this process are failed, and nothing is written if there is none |
| SubmissionProtocol.PointwiseKeepsAttempts | canvas-agent/src/dreamina-cli-runtime.ts:1478-1527 | a journal change that keeps every record harmlessly keeps every attempt accounted for |
| HarmlessSteps.HarmlessStepIsPointwise | canvas-agent/src/dreamina-cli-runtime.ts:1478-1527 | all steps but enqueueing, reserving and giving back, recovery by others included, lose no attempt, forget no promise, and take no slot or ticket |
| SubmissionSafety.StepKeepsInv | canvas-agent/src/dreamina-cli-runtime.ts:534-900 | every step of every process, stalled or crashed, keeps: attempts that may spawn are accounted for and alone for their key, slots within the limit, tickets different and below the counter |
| SubmissionSafety.AtMostOneSpawnPerKey | canvas-agent/src/dreamina-cli-runtime.ts:761-900 | over every interleaving, stall, lease expiry, recovery and crash, at most one provider process is started per idempotency key |
| SubmissionSafety.UnspawnedKeys | canvas-agent/src/dreamina-cli-runtime.ts:645-667 | for a key without record, or a queued, merely reserved, interrupted, locally cancelled or deleted one, nothing was started and nobody is about to |
| SubmissionSafety.PromisesAreKept | canvas-agent/src/dreamina-cli-runtime.ts:1494-1511 | once a record says that it was interrupted before submission, cancelled or deleted locally, nothing is ever started for its key, even by a stalled owner |
| SubmissionSafety.SlotsAreConserved | canvas-agent/src/dreamina-cli-runtime.ts:1529-1541 | pending, uncertain and accepted records together never exceed the limit |
| SubmissionSafety.TicketsIncrease | canvas-agent/src/dreamina-cli-runtime.ts:559-561 | durable tickets are handed out in strictly increasing order and those in the queue differ |
| SubmissionSafety.PromotionSkipsNobody | canvas-agent/src/dreamina-cli-runtime.ts:1533-1541 | whenever a task may be promoted, so may every live task before it in the queue order |
| SubmissionSafety.RecordHistory | canvas-agent/src/dreamina-cli-state.ts:456-489 | any later image of a record passes the gate against any earlier one of the run: the same request and task, receipt and outputs written once, the account kept, hidden stays hidden, fence and observation time never falling, settled state changing only to deleted |
| SubmissionSafety.PolledRecords | canvas-agent/src/dreamina-task-reconciler.ts:206-227 | in every reachable journal a record under a poll lease was submitted and has no outputs |
| SubmissionHistory.StepFrames | canvas-agent/src/dreamina-cli-runtime.ts:534-900 | every step of every process changes only the fields of its kind, in all records: requests and tasks never, fences and accounts only by a permission, receipts only by an acceptance, outputs and observations only by a report |
| SubmissionHistory.ReceiptCameFromAttempt | canvas-agent/src/dreamina-cli-runtime.ts:866-878 | over runs: a receipt in the journal was brought by an attempt for that very key that was permitted and had spawned |
| SubmissionHistory.ReceiptsAreKept | canvas-agent/src/dreamina-cli-runtime.ts:866-878 | over runs: once an attempt has stored its receipt, the record is there for ever with that receipt, whatever the other processes do |
| SubmissionHistory.OutputsCameFromReport | canvas-agent/src/dreamina-task-reconciler.ts:261-293 | over runs: outputs in the journal were reported with a completion by a holder of the poll lease of that record |
| SubmissionHistory.AccountCameFromPermission | canvas-agent/src/dreamina-cli-runtime.ts:839-854 | over runs: the account a record is bound to is the session under which an attempt for that key was permitted |
| SubmissionHistory.OlderReportChangesNothing | canvas-agent/src/dreamina-task-reconciler.ts:266-276 | over runs: a report observed before one that was committed at any earlier step changes neither state, code, official status, outputs nor the last observation |
| SubmissionProgress.OpenJobsAreBounded | canvas-agent/src/dreamina-cli-runtime.ts:1529-1541 | over runs: whoever may have spawned is on record, and while the outcome is open holds one of the slots; never more open jobs than the limit |
| SubmissionProgress.FreeSlotIsUsable | canvas-agent/src/dreamina-cli-runtime.ts:1533-1541 | while a slot is free and somebody waits, somebody has the priority to take it |
| SubmissionProgress.LowerTicketGoesFirst | canvas-agent/src/dreamina-cli-runtime.ts:1687-1693 | of two entries the one with the lower ticket stands first, and records from before tickets even earlier |
| SubmissionProgress.FirstComeFirstServed | canvas-agent/src/dreamina-cli-runtime.ts:552-580 | over runs: of two tasks still waiting the one queued earlier stands first, and while it is alive the later one gets no slot the earlier one could not get |
| SubmissionProgress.SubmissionGoesThrough | canvas-agent/src/dreamina-cli-runtime.ts:645-878 | a queued task with priority, handled by a process that nobody disturbs, ends accepted with the receipt its spawned attempt brought |
| SubmissionProgress.NothingIsHeldBack | canvas-agent/src/dreamina-cli-runtime.ts:534-900 | while nobody holds the lock every step may be taken, those of an attempt from where the attempt is, and a process may crash at any time |
| SubmissionProgress.CancellationIsFinal | canvas-agent/src/dreamina-cli-runtime.ts:406-428 | over runs: a task cancelled while it waits stays cancelled, and nothing was or ever will be spawned for it |
| SubmissionProgress.RecoveryLeavesNothingExpired | canvas-agent/src/dreamina-cli-runtime.ts:1489-1513 | after a recovery no reservation, intent or queue entry of a task outlives its lease |
| SubmissionProgress.MemoryIsCoherentExactly | canvas-agent/src/dreamina-cli-runtime.ts:1514-1519 | over runs: the check of a reload against what the process has seen passes exactly when every remembered record is still there |
| SubmissionProgress.GivenBackRecordBlocksReload | canvas-agent/src/dreamina-cli-runtime.ts:888-899 | after a key was given back, every process that has seen its reservation refuses the file |
| SubmissionProgress.ReloadIsRefusedExactly | canvas-agent/src/dreamina-cli-runtime.ts:1514-1521 | a reload refuses the file exactly when it contradicts what was seen, or when its own recovery cannot be written |
| Reconciler.ReportProgresses | canvas-agent/src/dreamina-task-reconciler.ts:390-416 | for every eligible record and every status the observed record may follow the old one |
| Reconciler.ReportIsAccepted | canvas-agent/src/dreamina-task-reconciler.ts:261-293 | a commit of an observation that fits an eligible record is never refused by the journal |
| Reconciler.ReportsAreOrdered | canvas-agent/src/dreamina-task-reconciler.ts:261-293 | observation times never go back, success never regresses, the lease is given back, outputs come only with a success |
| Reconciler.LateReportExactly | canvas-agent/src/dreamina-task-reconciler.ts:261-293 | a report for a record that failed meanwhile is stored exactly when it is stale or confirms the failure |
| Reconciler.SyncErrorIsAccepted | canvas-agent/src/dreamina-task-reconciler.ts:295-308 | recording a failed poll is never refused |
| Reconciler.PollLeaseStepsAreAccepted | canvas-agent/src/dreamina-task-reconciler.ts:206-259 | claiming and releasing a poll lease is never refused; renewing succeeds exactly for the current lease |
| Reconciler.SchedulingIsAccepted | canvas-agent/src/dreamina-task-reconciler.ts:122-152 | scheduling and immediate requests are never refused |
| Reconciler.UnscheduledExactly | canvas-agent/src/dreamina-task-reconciler.ts:279-289 | a report leaves a still eligible record without a next poll exactly when it contradicts a success, or reports completion without outputs and without a reason to retry |
| Reconciler.LeaseCommitsOnce | canvas-agent/src/dreamina-task-reconciler.ts:261-265 | only the current lease changes the journal and it is spent by the commit: a second commit changes nothing |
| Reconciler.RetryDelayMonotone | canvas-agent/src/dreamina-task-reconciler.ts:339-343 | the back-off never shrinks with more failures and stays between base and cap |
| ReportEffects.ClaimIsStored | canvas-agent/src/dreamina-task-reconciler.ts:206-227 | the caller's lease is stored exactly on a due record that nobody else is polling |
| ReportEffects.RenewalIsStored | canvas-agent/src/dreamina-task-reconciler.ts:250-259 | a renewal moves the end of the same lease and nothing else |
| ReportEffects.ReleaseIsStored | canvas-agent/src/dreamina-task-reconciler.ts:310-318 | only the holder gives a poll lease back, and nothing else changes |
| ReportEffects.OwnLeasesAreReleased | canvas-agent/src/dreamina-task-reconciler.ts:320-332 | an instance that stops gives back exactly its own leases |
| ReportEffects.ForeignLeaseChangesNothing | canvas-agent/src/dreamina-task-reconciler.ts:250-318 | whoever does not hold the very poll lease, of that id and owner, changes nothing and is refused a renewal |
| ReportEffects.ScheduleIsStored | canvas-agent/src/dreamina-task-reconciler.ts:122-136 | polling starts at the instant asked for, unless an earlier poll is due or the record is not to be polled |
| ReportEffects.RequestedRecordIsDue | canvas-agent/src/dreamina-task-reconciler.ts:138-152 | a record asked for is due at once |
| ReportEffects.InitializeSchedules | canvas-agent/src/dreamina-task-reconciler.ts:97-113 | after a start every record to be polled has a poll time; those that had one keep it |
| ReportEffects.ReportIsRecorded | canvas-agent/src/dreamina-task-reconciler.ts:261-278 | a committed report becomes the last observation: its time and its outputs are the ones stored, the lease is given back, and no other record changes |
| ReportEffects.ReportDecidesState | canvas-agent/src/dreamina-task-reconciler.ts:390-416 | which state, code and official status each report leaves, contradicted successes included |
| ReportEffects.ReportSchedules | canvas-agent/src/dreamina-task-reconciler.ts:279-289 | when the next poll is due after each report, and that only a miss of the outputs counts as a retry |
| ReportEffects.StaleReportGivesBack | canvas-agent/src/dreamina-task-reconciler.ts:266-273 | a report older than the last observation gives the lease back and moves the next poll; it changes nothing else |
| ReportEffects.SyncErrorIsStored | canvas-agent/src/dreamina-task-reconciler.ts:295-308 | a failed poll is noted with its reason, counted, and tried again after the back-off; what was observed stays |
| ReportEffects.NextPollFollowsCount | canvas-agent/src/dreamina-task-reconciler.ts:279-285 | a retry waits for the delay of the very count that is stored with it |
| ReportEffects.RetryDelayDoubles | canvas-agent/src/dreamina-task-reconciler.ts:339-343 | the first delay is the base under the cap, every further one twice the one before up to the cap, for at most twenty doublings |
| ReportEffects.ClaimantMayCommit | canvas-agent/src/dreamina-task-reconciler.ts:206-293 | whoever has claimed a due record commits a fitting report, which becomes the last observation |
| ReconcilerProcess.Instance.FirstDue | canvas-agent/src/dreamina-task-reconciler.ts:211-216 | the loop finds a due record that no due record comes before, or that there is none |
| ReconcilerProcess.Instance.ClaimDue | canvas-agent/src/dreamina-task-reconciler.ts:206-227 | the lease goes to such a record, and to no other |
| ReconcilerProcess.Instance.RenewLease | canvas-agent/src/dreamina-task-reconciler.ts:250-259 | only the current lease is renewed |
| ReconcilerProcess.Instance.CommitObservation | canvas-agent/src/dreamina-task-reconciler.ts:261-293 | the in-place assignments and deletions of fields amount to the observed record, in one write |
| ReconcilerProcess.Instance.CommitSyncError | canvas-agent/src/dreamina-task-reconciler.ts:295-308 | the in-place changes amount to the specified step |
| ReconcilerProcess.Instance.ReleaseLease | canvas-agent/src/dreamina-task-reconciler.ts:310-318 | only the current lease is released |
| ReconcilerProcess.Instance.ReleaseOwnedLeases | canvas-agent/src/dreamina-task-reconciler.ts:320-332 | exactly the leases of this instance are dropped |
| ReconcilerProcess.Instance.InitializePolls | canvas-agent/src/dreamina-task-reconciler.ts:97-113 | exactly the eligible unscheduled records are scheduled |
| TaskContract.MergeFields | canvas-agent/src/dreamina-task-contract.ts:332-339 | the loop merges two contexts, or finds that they disagree on a field both define |
| TaskContract.ReduceIsMonotone | canvas-agent/src/dreamina-task-contract.ts:162-178 | no event takes the lifecycle back, changes a decided outcome, the outputs, a bound account or a known context field |
| TaskContract.ConflictEndsExactly | canvas-agent/src/dreamina-task-contract.ts:165-176 | exactly which events end a conflict: a sync failure, and entering or leaving the uncertain submission |
| TaskContract.FoldLaw | canvas-agent/src/dreamina-task-contract.ts:284-322 | any list of observations of one account ends with the outcome of the first final one, and in conflict exactly when a final one disagrees |
| TaskContract.FoldNeedsOneAccount | canvas-agent/src/dreamina-task-contract.ts:286-288 | with a foreign account the law fails: a conflict without disagreeing outcomes |
| TaskContract.TransitionsExactly | canvas-agent/src/dreamina-task-contract.ts:244-265 | which transitions are taken: along the lifecycle, with an outcome exactly at its end, only a rejection from submitting, no end from uncertain |
| TaskContract.TransitionIsTaken | canvas-agent/src/dreamina-task-contract.ts:267-281 | the lifecycle and outcome stored are the ones asked for, with the sync state and the result that follow |
| TaskContract.ObservationIsRecorded | canvas-agent/src/dreamina-task-contract.ts:284-322 | an observation is on record, binds an unbound account and moves an unfinished task as far as it says; one of another account only marks the conflict |
| TaskContract.SyncFailureIsRecorded | canvas-agent/src/dreamina-task-contract.ts:165-172 | an account error blocks, every other one waits for a retry, with the code stored and nothing else changed; an unsafe code is refused |
| TaskContract.RecoveryIsRecorded | canvas-agent/src/dreamina-task-contract.ts:173-176 | regained contact clears the error unless there is a conflict |
| TaskContract.ContextIsBound | canvas-agent/src/dreamina-task-contract.ts:324-345 | a binding adds exactly the new fields and an unbound account, and a disagreement only marks the conflict |
| TaskStore.OutboxCandidate | canvas-agent/src/dreamina-task-store.ts:700-705 | the next effect to drop is a product effect or fully delivered, and there is one unless no effect qualifies |
| TaskStore.DropTask | canvas-agent/src/dreamina-task-store.ts:692-694 | dropping a task drops exactly its effects and deliveries |
| StoreGate.CompactKeeps | canvas-agent/src/dreamina-task-store.ts:684-728 | compaction keeps the store sound and drops only deleted tasks, product effects, fully delivered effects and settled deliveries; never a pending delivery, nor the result of a product effect whose task is not deleted |
| StoreGate.WrittenShape | canvas-agent/src/dreamina-task-store.ts:417-423 | the image written holds exactly what compaction kept, within capacity, readable, under the next revision |
| StoreGate.WrittenIsSorted | canvas-agent/src/dreamina-task-store.ts:420-421 | tasks are sorted by id and deliveries by consumer and effect |
| StoreGate.GrowthPassesGate | canvas-agent/src/dreamina-task-store.ts:778-828 | an operation that only lets tasks progress and adds effects or claims is explained to recovery, whatever compaction drops with it |
| StoreGate.DropItemExactly | canvas-agent/src/dreamina-task-store.ts:714-727 | forgetting a delivery without product key leaves the store readable exactly when the effect had no other delivery |
| StoreGate.DropProductEffectExactly | canvas-agent/src/dreamina-task-store.ts:698-711 | dropping a product effect leaves the store readable exactly when its key is prefixed or it has no delivery |
| StoreGate.ReleasedEffectExactly | canvas-agent/src/dreamina-task-store.ts:714-727 | forgetting a released delivery of another effect is explained to recovery exactly when the task is deleted |
| StoreCompaction.ForgettableExactly | canvas-agent/src/dreamina-task-store.ts:714-727 | which completed deliveries may be forgotten: ordinary ones, and those of product effects once their task is deleted |
| StoreCompaction.InboxCandidateExactly | canvas-agent/src/dreamina-task-store.ts:714-727 | a released delivery is forgotten before a completed one, and something is as long as anything may be |
| StoreCompaction.OutboxCandidateExactly | canvas-agent/src/dreamina-task-store.ts:698-711 | a product effect is dropped before one that only was delivered, and something is as long as anything may be |
| StoreCompaction.OutboxGivesUpExactly | canvas-agent/src/dreamina-task-store.ts:698-711 | an outbox that fits is left alone, and one that does not is given up on only when nothing in it may be dropped |
| StoreCompaction.InboxGivesUpExactly | canvas-agent/src/dreamina-task-store.ts:714-727 | the same for the inbox |
| StoreCompaction.OldestComeFirst | canvas-agent/src/dreamina-task-store.ts:685-687 | deleted tasks are considered in the order of their last change |
| StoreCompaction.TasksDropInOrder | canvas-agent/src/dreamina-task-store.ts:685-696 | deleted tasks are dropped in that order, those with a pending delivery passed over, until the rest fits; it gives up only when every deleted task left has one |
| StoreSteps.CompareAndSwapIsExplained | canvas-agent/src/dreamina-task-store.ts:143-167 | what a projection writes is readable and accepted by recovery |
| StoreSteps.MutateTaskIsExplained | canvas-agent/src/dreamina-task-store.ts:169-196 | what a product mutation writes is readable and accepted by recovery |
| StoreSteps.ClaimOutboxIsExplained | canvas-agent/src/dreamina-task-store.ts:198-227 | so is a claim of an effect by its one consumer |
| StoreSteps.ClaimProductIsExplained | canvas-agent/src/dreamina-task-store.ts:229-290 | so is a claim of a product effect, even if compaction drops the effect it has just created |
| StoreSteps.DeliverExactly | canvas-agent/src/dreamina-task-store.ts:830-844 | a change of one pending delivery changes nothing else, and recovery accepts it exactly when the delivery progresses |
| StoreSteps.RenewExactly | canvas-agent/src/dreamina-task-store.ts:292-316 | a renewal is explained to recovery exactly when it does not shorten the lease |
| StoreSteps.FinishIsExplained | canvas-agent/src/dreamina-task-store.ts:340-377 | completing, and releasing a product delivery, is explained to recovery |
| StoreSteps.CompleteOutboxIsExplained | canvas-agent/src/dreamina-task-store.ts:379-395 | completing an effect by token is explained to recovery |
| StoreSteps.HolderMayFinish | canvas-agent/src/dreamina-task-store.ts:229-377 | whoever is granted a product effect may complete it until the lease expires, even if compaction dropped the effect itself |
| StoreEffects.FinishIsStored | canvas-agent/src/dreamina-task-store.ts:340-377 | a completion or release is answered as done exactly to the holder of the unexpired lease, and then the slot holds the completion with its result, or the release, and nothing else changed; otherwise nothing did |
| StoreEffects.OutboxCompletionIsStored | canvas-agent/src/dreamina-task-store.ts:379-395 | the same for an ordinary delivery, identified by its token |
| StoreEffects.RenewalIsStored | canvas-agent/src/dreamina-task-store.ts:292-316 | a renewal gives exactly its holder a full new term under the same token and fence |
| StoreEffects.ProductClaimExactly | canvas-agent/src/dreamina-task-store.ts:244-288 | a product claim is granted with the next fence and a full term exactly when the slot is free, and is otherwise answered with the result or with the end of the lease |
| StoreEffects.ProductGrantIsStored | canvas-agent/src/dreamina-task-store.ts:256-288 | a granted product claim leaves the lease of its caller in the slot and the effect in the outbox, everything else as it was |
| StoreEffects.OutboxClaimExactly | canvas-agent/src/dreamina-task-store.ts:206-227 | the delivery of an ordinary effect is granted exactly when its slot can be had, and the lease is what is stored |
| StoreEffects.UnknownEffectIsNotClaimed | canvas-agent/src/dreamina-task-store.ts:206-208 | there is nothing to claim without the effect |
| StoreEffects.SwapIsStored | canvas-agent/src/dreamina-task-store.ts:143-167 | a swap conflicts exactly on another version than the stored one; one that goes through stores the given task under the next version and announces it, one that does not stores nothing |
| StoreEffects.SwapGuardExactly | canvas-agent/src/dreamina-task-store.ts:474-499 | what an accepted projection may do to a stored task: a newer journal version of the same request, nobody brought back or rebound, the same context, outputs only for a task that awaits them |
| StoreEffects.AnsweredSwapWasAllowed | canvas-agent/src/dreamina-task-store.ts:143-167 | an answered swap passed that guard against the stored task, and its effect names the task and the version projected |
| StoreEffects.MutationIsStored | canvas-agent/src/dreamina-task-store.ts:169-196 | the same for a product mutation of a stored task |
| StoreEffects.AnsweredSwapIsKept | canvas-agent/src/dreamina-task-store.ts:143-167 | however full the store is, an answered swap has stored the given task under the next version, unless it deleted it, and lost no other undeleted task |
| StoreEffects.AnsweredMutationIsKept | canvas-agent/src/dreamina-task-store.ts:169-196 | the same for a product mutation |
| StoreEffects.MaterializationIsStored | canvas-agent/src/dreamina-task-store.ts:525-534 | a materialization of a success stores exactly the result and outputs it was given, when the result may follow the stored one |
| StoreEffects.EventIsStored | canvas-agent/src/dreamina-task-store.ts:535-547 | what each product event stores: the failure with its code, the recovery, the added context, and nothing else |
| StoreEffects.ResultTableExactly | canvas-agent/src/dreamina-task-store.ts:956-963 | which result may follow which |
| StoreLimits.ClaimStaysReadableExactly | canvas-agent/src/dreamina-task-store.ts:714-727 | a claim that finds the inbox full leaves the store readable exactly when the delivery that is forgotten was the only one of its effect, unless that is a product effect |
| StoreLimits.ClaimIsExplainedExactly | canvas-agent/src/dreamina-task-store.ts:714-727 | when the forgotten delivery was a released one of another effect, recovery accepts the claim exactly when the task is deleted |
| StoreLimits.TaskWriteStaysReadableExactly | canvas-agent/src/dreamina-task-store.ts:698-711 | a task write that drops a product effect from a full outbox leaves the store readable exactly when its key is prefixed or it has no delivery |
| StoreRuns.StepKeepsInv | canvas-agent/src/dreamina-task-store.ts:143-395 | every operation in disciplined use keeps the store readable, disciplined, its leases within one lease length of the clock and under drawn tokens |
| StoreRuns.EveryWriteIsExplained | canvas-agent/src/dreamina-task-store.ts:143-395 | in every reachable store, whatever the operation and the compaction it causes, the new image is readable and accepted by recovery over the old one |
| StoreRuns.ProductEffectsHappenOnce | canvas-agent/src/dreamina-task-store.ts:229-377 | while its task is not deleted a completed product effect stays as it was completed, every later claim is answered with its result, and nothing about it can be renewed, completed or released |
| StoreRuns.FormerHoldersAreRefused | canvas-agent/src/dreamina-task-store.ts:292-395 | the holder of a lease that expired or was taken over is refused in every continuation of the run |
| StoreRuns.ResultsOnlyAdvance | canvas-agent/src/dreamina-task-store.ts:474-548 | while the task stays in the store its result only moves on, from none over materializing and ready: a ready or permanently failed one never changes again, nor do its outputs, under any mix of operations |
| StoreHistory.AnsweredEndIsOnDisk | canvas-agent/src/dreamina-task-store.ts:340-377 | in every reachable store an answered completion or release leaves its slot exactly as it says, and every other delivery, task and effect as it was |
| StoreHistory.AnsweredCompletionHappensOnce | canvas-agent/src/dreamina-task-store.ts:229-377 | from the answer on, through every continuation, the effect is recorded as done while its task lives, and the next claim is answered with the result given |
| StoreHistory.ReleasedIsGrantedNext | canvas-agent/src/dreamina-task-store.ts:244-288 | in every reachable store a released delivery is granted to the next claim, at any later time, with the next fence and a full term |
| StoreHistory.AnsweredDeliveryIsOnDisk | canvas-agent/src/dreamina-task-store.ts:379-395 | in every reachable store an answered ordinary completion is recorded for the lease it was made with, and is not handed out again |
| StoreHistory.ResultsCameFromCompletion | canvas-agent/src/dreamina-task-store.ts:340-377 | over runs: every recorded result was stored by an answered completion of that very lease |
| StoreProcess.Working.CompactTasks | canvas-agent/src/dreamina-task-store.ts:685-696 | the loop drops deleted tasks without pending deliveries, oldest change first, until the tasks fit |
| StoreProcess.Working.CompactOutbox | canvas-agent/src/dreamina-task-store.ts:698-711 | the loop drops candidates until the outbox fits or none is left |
| StoreProcess.Working.CompactInbox | canvas-agent/src/dreamina-task-store.ts:714-727 | the loop drops candidates with their effects until the inbox fits or none is left |
| StoreProcess.Working.CompactStore | canvas-agent/src/dreamina-task-store.ts:684-733 | the four passes in order, and whether the store then fits |
| StoreProcess.StoreFile.Persist | canvas-agent/src/dreamina-task-store.ts:417-423 | the file becomes the compacted, sorted image with the next revision, or stays when it does not fit |
| StoreProcess.StoreFile.CompareAndSwapTask | canvas-agent/src/dreamina-task-store.ts:143-167 | reply and file are those of the specified operation, from any file |
| StoreProcess.StoreFile.MutateTask | canvas-agent/src/dreamina-task-store.ts:169-196 | reply and file are those of the specified operation, from any file |
| StoreProcess.StoreFile.ClaimOutboxEffect | canvas-agent/src/dreamina-task-store.ts:198-227 | reply and file are those of the specified operation, from any file |
| StoreProcess.StoreFile.ClaimProductEffect | canvas-agent/src/dreamina-task-store.ts:229-290 | reply and file are those of the specified operation, from any file |
| StoreProcess.StoreFile.RenewProductEffect | canvas-agent/src/dreamina-task-store.ts:292-316 | reply and file are those of the specified operation, from any file |
| StoreProcess.StoreFile.FinishProductEffect | canvas-agent/src/dreamina-task-store.ts:340-377 | reply and file are those of the specified operation, for completion and release |
| StoreProcess.StoreFile.CompleteOutboxEffect | canvas-agent/src/dreamina-task-store.ts:379-395 | reply and file are those of the specified operation, from any file |
| Projection.ProjectableExactly | canvas-agent/src/dreamina-task-projection.ts:289-300 | a valid journal record passes the projector's own check exactly when its outputs count up from zero |
| Projection.OutOfSequenceOutputsExist | canvas-agent/src/dreamina-cli-state.ts:394-409 | a valid journal record that the projector refuses |
| Projection.JournalStateIsWellFormed | canvas-agent/src/dreamina-task-contract.ts:180-242 | the product reading of any record is terminal exactly when it has an outcome, and carries no outputs |
| Projection.ObservationReadsAlike | canvas-agent/src/dreamina-task-contract.ts:180-242 | recording a provider answer in the journal and reading the record back gives the lifecycle and outcome that the reducer gives an accepted task |
| Projection.MergeIsMonotone | canvas-agent/src/dreamina-task-projection.ts:222-246 | merging never takes the lifecycle back, never changes a decided outcome, and ends in conflict exactly when there was one or the outcomes disagree |
| Projection.ProjectedIsShaped | canvas-agent/src/dreamina-task-projection.ts:140-193 | a projected task passes the store's shape check whatever it replaces |
| Projection.ProjectionExactly | canvas-agent/src/dreamina-task-store.ts:474-499 | a projection of a newer version passes the store's guard exactly when record and task agree on operation id and context |
| Projection.DeletionIsAllowed | canvas-agent/src/dreamina-task-projection.ts:195-213 | the projection of a deletion always passes the guard |
| Projection.ProjectionIsAccepted | canvas-agent/src/dreamina-task-projection.ts:65-105 | whatever newer version of an agreeing record the projector meets, guard and shape check accept the result |
| Projection.ProjectionIsMonotone | canvas-agent/src/dreamina-task-projection.ts:222-246 | projecting over a stored task never takes its lifecycle back, changes its outcome or ends its conflict |
| Projection.MutationIsMonotone | canvas-agent/src/dreamina-task-store.ts:523-548 | a product mutation leaves lifecycle and outcome alone, and a task without a result without outputs |
| ProjectionEffects.LocalCodesExactly | canvas-agent/src/dreamina-task-contract.ts:364-367 | which error codes say that only the contact was lost |
| ProjectionEffects.LifecycleReadsExactly | canvas-agent/src/dreamina-task-contract.ts:180-242 | which journal records stand for which lifecycle and outcome, lost contact and a stopped wait included |
| ProjectionEffects.SyncReadsExactly | canvas-agent/src/dreamina-task-contract.ts:180-242 | when the product is told of a blocked account, a retry or an uncertain submission, with which code, and when a result is to be made |
| ProjectionEffects.OutputsAreProjected | canvas-agent/src/dreamina-task-projection.ts:152-175 | what the provider delivered is projected, output by output in its place, into a task that awaits it; in every other case the stored outputs and result stay, or there are none |
| ProjectionEffects.FieldsAreProjected | canvas-agent/src/dreamina-task-projection.ts:157-192 | the other fields of a projected task: the record's where it has them, else the stored ones; a bound account, deletion and hiding stay |
| ProjectionEffects.LifecycleIsProjected | canvas-agent/src/dreamina-task-projection.ts:222-246 | a first projection reads the record; a later one keeps whichever of stored task and record is further |
| ProjectionEffects.DeletionIsProjected | canvas-agent/src/dreamina-task-projection.ts:195-220 | projecting a deletion marks the task deleted and keeps everything else of a stored one |
| ProjectionRuns.VersionIdentifiesTask | canvas-agent/src/dreamina-task-store.ts:152-157 | while a task stays in the store, finding the version one has read means finding the task one has read |
| ProjectionRuns.LateSwapIsFaithfulOrRefused | canvas-agent/src/dreamina-task-projection.ts:80-105 | a projection of a task read at any earlier moment either changes nothing, or replaces exactly the task it was computed from |
| ProjectionRuns.StaleSwapIsRefused | canvas-agent/src/dreamina-task-store.ts:152-157 | a swap whose version is out of date changes nothing |
| ProjectionRuns.RoundSwapsWhatItRead | canvas-agent/src/dreamina-task-projection.ts:80-105 | a round of the retry loop asks for such a swap |
| LateProjections.RemadeTaskCanRegress | canvas-agent/src/dreamina-task-store.ts:684-696 | a run in which a task is dropped and stored anew between read and swap, and the swap takes the lifecycle back |
| ProjectionRuns.LifecycleNeverRegresses | canvas-agent/src/dreamina-task-projection.ts:222-246 | over any mix of projections, each computed from the task as it was at any earlier moment, mutations, deliveries and compactions the lifecycle never steps back and a terminal outcome never changes while the task stays in the store |
| ProjectionRuns.NewerVersionsGoThrough | canvas-agent/src/dreamina-task-projection.ts:79-106 | in every store so reached, lost races included, the projection of a newer version of an agreeing record is stored unless the store is full |
| ProjectionRuns.LoopDelivers | canvas-agent/src/dreamina-task-projection.ts:80-105 | a task the loop answers with has seen the wanted version of the same record, and the loop gives up only if the task changed between read and swap in all four rounds |
| ProjectionEffects.LoopDeliversOutputs | canvas-agent/src/dreamina-task-projection.ts:80-105 | the task the retry loop answers with, when it has written, carries the outputs of the record if the task it had read awaited them, and else the stored ones |
| ProjectionEffects.OutputsReachTheStore | canvas-agent/src/dreamina-task-projection.ts:152-175 | in every store reached by projections, lost races included, mutations and deliveries, the swap of a record with outputs into a task that awaits them goes through and stores exactly those outputs |
| ProjectionEffects.DeliveredOutputsWait | canvas-agent/src/dreamina-task-store.ts:474-548 | over runs: delivered outputs stay as the provider gave them until a materialization takes them |
| ProjectionRuns.Projector.ProjectJournalVersion | canvas-agent/src/dreamina-task-projection.ts:65-106 | the retry loop answers with the first round that meets no conflict, whatever other processes write in between |
| GenerationPool.PlacesAreFairAndBounded | canvas-agent/src/dreamina-generation.ts:66-110 | over all arrivals, endings and aborts: never more runs than the limit, nobody waits while a place is free, places go in order of arrival |
| GenerationPool.NobodyIsForgotten | canvas-agent/src/dreamina-generation.ts:66-110 | whoever has come was given a place, still waits, or was aborted |
| GenerationPool.ArrivalIsServedOrWaits | canvas-agent/src/dreamina-generation.ts:86-105 | an arrival starts at once exactly when a place is free, and else waits last |
| GenerationPool.EndServesTheNext | canvas-agent/src/dreamina-generation.ts:80-109 | the end of a run gives its place to the one who has waited longest and to nobody else |
| GenerationPool.AbortedIsNeverServed | canvas-agent/src/dreamina-generation.ts:97-101 | over all events: whoever is aborted while waiting never gets a place |
| GenerationPool.Coordinator.AcquirePlace | canvas-agent/src/dreamina-generation.ts:86-105 | a caller starts exactly when a place is free and otherwise queues last |
| GenerationPool.Coordinator.ReleasePlace | canvas-agent/src/dreamina-generation.ts:80-109 | an ending run wakes waiters in order until the places are taken |
| GenerationPool.Coordinator.CancelWaiting | canvas-agent/src/dreamina-generation.ts:97-101 | an abort removes that caller and keeps the order of the others |
| CanvasValidator.ValidateCanvasOps | canvas-agent/src/canvas-context.ts:199-314 | the loop over sets and maps reports no error exactly for the accepted batches |
| CanvasValidator.Validator.RemoveConnections | canvas-agent/src/canvas-context.ts:211-216 | removing connections one by one, keys with their last user, is removing them together |
| CanvasValidator.Validator.Judge | canvas-agent/src/canvas-context.ts:221-310 | counts the errors of one operation as specified |
| CanvasValidator.Validator.Follow | canvas-agent/src/canvas-context.ts:226-297 | updates the view for one operation as specified |
| CanvasRules.AddIsCleanExactly | canvas-agent/src/canvas-context.ts:228-240 | an addition is reported without error exactly when its type is supported, its geometry sound and its id never used |
| CanvasRules.UpdateIsCleanExactly | canvas-agent/src/canvas-context.ts:241-257 | an update exactly when its node exists, nothing is renamed or retyped, the geometry is sound, and no status of a media node is set by hand |
| CanvasRules.GenerationIsCleanExactly | canvas-agent/src/canvas-context.ts:258-264 | a generation exactly when its node exists and the mode fits its type |
| CanvasRules.DoomedExactly | canvas-agent/src/canvas-context.ts:266 | whom a deletion means: the list, else the one named, else every node of the type |
| CanvasRules.DeletionIsCleanExactly | canvas-agent/src/canvas-context.ts:265-274 | a deletion exactly when it means somebody, nobody twice, and only nodes that exist |
| CanvasRules.ConnectionIsCleanExactly | canvas-agent/src/canvas-context.ts:275-285 | a connection exactly when it joins two different existing nodes under a free name and repeats none |
| CanvasRules.DisconnectionIsCleanExactly | canvas-agent/src/canvas-context.ts:289-297 | a disconnection exactly when it names all or some, not both, none twice, and only those that exist |
| CanvasRules.OtherIsCleanExactly | canvas-agent/src/canvas-context.ts:286-310 | a selection of existing nodes, a viewport in numbers with a supported scale, and no unknown operation |
| CanvasRules.EditorAdds | web/src/lib/canvas/canvas-agent-ops.ts:324-340 | a new node comes last, under its id or a made-up one, with its type or as text |
| CanvasRules.EditorUpdates | web/src/lib/canvas/canvas-agent-ops.ts:341-352 | an update changes the named node alone, in its place, as far as the patch goes |
| CanvasRules.EditorDeletes | web/src/lib/canvas/canvas-agent-ops.ts:353-358 | a deletion takes the nodes it means at that moment and every connection that touches them |
| CanvasRules.EditorConnects | web/src/lib/canvas/canvas-agent-ops.ts:363-370 | a connection is added exactly when both ends are nodes other than frames and no connection with the same ends and handles is there |
| CanvasRules.EditorDisconnects | web/src/lib/canvas/canvas-agent-ops.ts:359-362 | a disconnection removes the named connections or all; every other operation leaves nodes and connections alone |
| CanvasSoundness.OpAgrees | canvas-agent/src/canvas-context.ts:226-310 | through an operation without error the validator's nodes and connections stay those of the editor, and its keys those of its connections |
| CanvasSoundness.AcceptedBatchTouchesPresent | web/src/lib/canvas/canvas-agent-ops.ts:316-376 | whenever the editor reaches an operation of an accepted batch, every node it refers to exists |
| CanvasSoundness.AcceptedBatchKeepsGraph | web/src/lib/canvas/canvas-agent-ops.ts:363-370 | an accepted batch leaves no dangling connection, adds no self-loop, and repeats a connection only if the snapshot does; the validator's keys stay the key image of its connections |
| CanvasSoundness.AcceptedConnectionIsNew | canvas-agent/src/canvas-context.ts:276-284 | an accepted connection differs from every connection the editor has at that moment, whatever the snapshot repeats |
| CanvasSoundness.ConnectionTakesEffectExactly | web/src/lib/canvas/canvas-agent-ops.ts:363-370 | an accepted connection takes effect in the editor exactly when neither end is a frame |
| CanvasSoundness.AnonymousNameIsSafeExactly | canvas-agent/src/canvas-context.ts:283 | after an unnamed connection the keys are the key image of the connections exactly when no link under the made-up name is lost, or its key lives on |
| CanvasSoundness.DeletionByTypeAgreesExactly | web/src/lib/canvas/canvas-agent-ops.ts:353-358 | validator and editor agree about a node after a deletion by type exactly when both or neither find it under the type |
| CanvasSoundness.AnonymousNameIsOverwritten | canvas-agent/src/canvas-context.ts:283 | an accepted batch in which an explicit id that looks like the validator's own is overwritten and its key outlives it |
| CanvasSoundness.DeletionByTypeDisagrees | web/src/lib/canvas/canvas-agent-ops.ts:353-358 | an accepted batch that refers to a node which the editor has just deleted by type |
| Workflow.LayoutIsDisjoint | canvas-agent/src/canvas-session.ts:277-296 | placed nodes keep the gap between each other |
| Workflow.LayoutIsClear | canvas-agent/src/canvas-session.ts:277-282 | with an automatic start every placed node keeps 160 from every node already there |
| Workflow.LayoutIsALine | canvas-agent/src/canvas-session.ts:285-296 | the nodes stand in one line from the start on, in the direction asked for, each one gap behind the one before it |
| Workflow.LayoutDefaults | canvas-agent/src/canvas-session.ts:277-282 | the gap is the one asked for, at least 48, else 120; the start is the one asked for, and 80, 80 on an empty canvas |
| Workflow.SizesExactly | canvas-agent/src/canvas-session.ts:346-349 | a node has the size its plan gives as far as that is positive, and else that of its kind |
| Workflow.NodeTypesExactly | canvas-agent/src/canvas-session.ts:338-344 | which kinds of plans become which nodes |
| Workflow.WantedExactly | canvas-agent/src/canvas-session.ts:297-324 | which connections a workflow wants: the listed edges, or the chain, and one for every reference |
| Workflow.BatchIsAsPlanned | canvas-agent/src/canvas-session.ts:284-332 | the batch begins with the planned nodes, in order, each under its id, as its kind says and where the layout puts it; it creates and deletes nothing else and selects the new nodes |
| Workflow.Dedupe | canvas-agent/src/canvas-session.ts:298-324 | one wish per pair is kept and no pair is lost |
| WorkflowValidity.WorkflowIsAcceptedExactly | canvas-agent/src/canvas-session.ts:260-332 | on any canvas and with fresh ids, a generated workflow passes the validator if and only if no edge and no reference is a self-loop |
| WorkflowValidity.DedupeKeepsLoops | canvas-agent/src/canvas-session.ts:298-324 | dropping repeated pairs neither makes nor hides a self-loop |
| WorkflowEffect.WorkflowIsBuilt | web/src/lib/canvas/canvas-agent-ops.ts:316-376 | applied in the editor, a generated workflow adds exactly the planned nodes, keeps every connection, and adds only wanted ones |
| WorkflowEffect.WishIsGrantedExactly | web/src/lib/canvas/canvas-agent-ops.ts:363-370 | the ends of a wanted connection are then joined exactly when it neither starts at a frame nor has the texts of a planned connection |
| WorkflowEffect.ReferenceCanBeShadowed | canvas-agent/src/canvas-session.ts:317-324 | a workflow whose reference to a node of the canvas is dropped as a repetition |
| WorkflowEffect.RunsAreRequested | canvas-agent/src/canvas-session.ts:326-330 | generation is requested exactly for the planned media nodes that are to run |
| WorkflowEffect.WorkflowRequestsExactly | canvas-agent/src/canvas-session.ts:326-330 | the batch asks for a generation exactly for a planned image, video or sound that is to run by itself or by the workflow |
| WorkflowEffect.WorkflowIsRefusedExactly | canvas-agent/src/canvas-session.ts:260-315 | exactly when the generator refuses: no plans, a plan without reference or title, a repeated reference, a missing prompt, or an unknown node or reference |
| WorkflowProcess.Generator.Generate | canvas-agent/src/canvas-session.ts:260-332 | the loops with the moving cursor and the set of connected pairs build exactly the specified batch, or throw when specified |
| WorkflowProcess.Generator.CheckPlans | canvas-agent/src/canvas-session.ts:263-276 | the first loop throws exactly for a plan without nodes, with a bad node or a repeated reference |
| WorkflowProcess.Generator.ConnectAll | canvas-agent/src/canvas-session.ts:298-324 | the connecting loops add each wanted pair once, or throw for an unknown reference |
| Money.ParseYuanToFen | backend/payment-plugins/alipay.go:373-406 | the machine arithmetic computes the amount a text denotes, for every text |
| Money.WrapsWhenNegative | backend/payment-plugins/alipay.go:401-402 | the overflow guard fires exactly for a negative fraction, by wrap-around, and for an amount that does not fit |
| Money.RoundTripExactly | backend/payment-plugins/alipay.go:369-406 | over all 64-bit amounts, reading a printed amount gives it back if it is not negative and is refused otherwise |
| Money.AcceptedAmountsFit | backend/payment-plugins/alipay.go:373-406 | every accepted text gives a non-negative 64-bit amount |
| Money.SignedFractionExactly | backend/payment-plugins/alipay.go:393-399 | a fraction with a minus sign is accepted only before nothing or a zero, and a plus sign counts as absent |

## Left out

- The directory lock: one critical section at a time is assumed; safety under a stolen lock is not claimed.
- File contents as JSON text, key shapes, hashes, UUIDs and dates: ids are opaque numbers, timestamps integers, `localeCompare` on ids is the order of numbers.
- One reading of the clock stands for all readings inside a critical section, and recovery inside a reload is a step of its own in the runs, so that anything may happen between it and the step that follows.
- RuntimeProcess.Runtime.ReloadFromDisk: a missing file reads as an empty journal, so that the ticket counter starts at 1; the source keeps the counter of a process that has seen a file which is gone and remembers no record.
- A journal with records of other owners: a journal here has one owner, as the shape check demands.
- Integers are unbounded; the safe-integer bounds that the code checks are modelled, and steps that would exceed them are excluded by named hypotheses (`Room`).
- SubmissionSafety.AtMostOneSpawnPerKey: starts from an empty journal, so records of the previous reservation format and uncertain records with a receipt do not occur in its runs.
- SubmissionSafety.RecordHistory: speaks of the time in which the record stays in the journal; a key that was given back starts over.
- Durability.JournalStepIsAtomic: excludes steps that remove a record, because recovery refuses them (`Durability.RemovalCanBlockRecovery`).
- StoreRuns.EveryWriteIsExplained: assumes disciplined callers (`StoreRuns.Allowed`) and one lease length; where each of these is needed the `Exactly` lemmas of `StoreGate` and `StoreSteps` say so.
- StoreEffects.SwapIsStored: gives the whole image while the store has room for one more effect; in a full store compaction may drop what `StoreGate.CompactKeeps` says, and `StoreEffects.AnsweredSwapIsKept` holds.
- StoreEffects.MutationIsStored: likewise, with `StoreEffects.AnsweredMutationIsKept`.
- StoreEffects.ProductGrantIsStored: gives the whole image while the store has room; in a full one the lease is kept all the same (`StoreSteps.HolderMayFinish`).
- StoreEffects.ProductClaimExactly: a first claim into a full inbox may be refused; it speaks of known slots and of inboxes with room.
- StoreEffects.OutboxClaimExactly: likewise; `StoreLimits` says what happens in a full inbox.
- StoreHistory.AnsweredCompletionHappensOnce: speaks of product effects while their task is not deleted; afterwards the result may be forgotten (`StoreCompaction.ForgettableExactly`).
- SubmissionProgress.SubmissionGoesThrough: one process that nobody disturbs; that an attempt comes through under contention is not claimed.
- SubmissionProgress.FirstComeFirstServed: speaks of tasks whose records stay from queueing on; a key that was given back and queued again is a new task.
- ProjectionEffects.OutputsReachTheStore: assumes a store with room, and that record and stored task agree (`Projection.AgreesOnProduct`).
- ProjectionEffects.DeliveredOutputsWait: speaks of the time in which the task stays in the store.
- ProjectionRuns.LifecycleNeverRegresses: assumes that no projection spans the dropping and remaking of its task; `LateProjections.RemadeTaskCanRegress` shows why.
- ProjectionRuns.NewerVersionsGoThrough: assumes the same, and that record and stored task agree on operation id and context; after a product event has extended the stored context the guard refuses further projections (`Projection.ProjectionExactly`).
- CanvasSoundness.AcceptedBatchKeepsGraph: assumes ordinary ids and deletions that name what they delete; `CanvasSoundness.AnonymousNameIsOverwritten` and `CanvasSoundness.DeletionByTypeDisagrees` show why.
- The editor's metadata, frames' children, selection and viewport: only nodes and connections are modelled.
- WorkflowValidity.WorkflowIsAcceptedExactly: sizes, gap and start are finite numbers.
- Whether an eligible record is always polled again: some reports unschedule it (`Reconciler.UnscheduledExactly`).
- Paging of task lists, heartbeat timers, process and network input and output, artifact files, login, the web interface, Python workers, and the remaining Go services.
