# Verification of the CNC control plane

These Dafny files model the parts of the control plane that keep state across steps, faults,
interleavings or restarts, and prove what each of them keeps. `dafny verify dfyconfig.toml` checks
the whole project.

Everything outside a component, such as a shell command, a database session, a lock, the clock, a
socket or a worker thread, is an argument that may answer anything: an oracle, a list of faults, or
the choice of the next action. Statements hold for all of them. Objects whose methods update fields
are classes; their methods are proved against functions of the old state, and the lemmas are about
those functions. Protocols with several tasks are state machines over the steps between two awaits
or two lock regions; a run is any sequence of actions, and an action that is not possible changes
nothing.

| file | component |
|---|---|
| `BlockBuffer.dfy` | block buffering of log records, and the operations that write them |
| `RecordQueue.dfy` | the bounded queue between callers and the log thread |
| `Rotation.dfy` | rotation of compressed log segments, stopped anywhere |
| `ContextSnapshot.dfy` | the budgeted, redacted copy of a log context |
| `NetworkIsolation.dfy` | the firewall transaction between output networks |
| `AccessGate.dfy` | throttled verification of the access key |
| `RootfsSeed.dfy` | seeding and swapping a guest root filesystem |
| `RuntimeReconcile.dfy` | the reconciler of one app runtime |
| `ApplyBackends.dfy` | starting all selected apps, with cleanup after a failure |
| `HardeningRun.dfy` | the Phase 2 hardening run, interrupted and resumed |
| `Allocators.dfy` | fresh clone names and ports |
| `SshPublicKey.dfy`, `SshKeys.dfy` | SSH public keys, in the database and on the host |
| `PtySession.dfy` | the tasks of a terminal session |
| `RepairPlan.dfy` | diagnose, plan and repair an app |
| `LogTail.dfy`, `LogEntries.dfy`, `AdminLog.dfy` | reading the admin log back |
| `Common.dfy`, `Text.dfy` | what several models share |

## What turned out false, and what holds instead

- A log record can be accepted and then reach no handler. The listener thread sees an empty queue
  and reads the stop flag in two steps, and a record may be accepted and stop requested in between
  (`DrainCanMissARecord`). Nothing is left over exactly when no record was accepted after the last
  `get` that timed out (`ExitLeavesExactly`).
- The firewall transaction restores nothing when it is cancelled, because cancellation is not an
  ordinary exception: it aborts exactly if the first checked command that is not successful is a
  cancelled one (`EndingIffFirstFault`). A flush cancelled after it took effect leaves no rules, and
  the audit does not notice (`CancelledFlushLeavesNoRules`). A chain creation that took effect but
  was reported as failed leaves an empty chain (`HalfCreatedChainStays`). Of all calls that raise,
  `RaiseKeepsTablesIff` says exactly which leave the tables as they were. More than twenty old
  jumps leave the rest behind, after the new one (`AllSucceed`).
- Mounted storage is not always unmounted before it is removed. Entries are matched by `Id`, `id` or
  `ContainerID`, while the plan compares the `Id` of the mounts with the `Id` or else the `Name` of
  the orphan (`LowerCaseIdIsNotUnmounted`). It is unmounted first exactly if the ids agree
  (`ReleasesMountsIff`): if no name is an id, exactly if every mounted orphan and its mount carry
  the same `Id` (`IdsAgreeIffSameId`).
- A repair plan settles what it plans for (`PlanSettles`), but two issues can be new after it. A
  container that is removed alone leaves its network behind, and a removed guest that was up leaves
  the record of an earlier failed bootstrap (`PlanLeaves` says exactly when).
- `remove_runtime_on_apply_failure` means that the prepare phase found no container and got past
  automatic repair. A saved spec does not matter, because that repair forgets it before it is looked
  at; but if a file of it cannot be removed the flag stays false (`PrepareBody`, `Reconcile`).
- A rollback of a guest isolation migration puts back the files that existed when it started. A
  file that did not exist then stays as the failed migration left it (`Restore`).
- `bootstrap.json` is put back when the readiness observation meets a busy or unavailable guard. A
  busy guard in the later isolation check, or another bootstrap under way, does not restore it
  (`BootstrapPhase`).
- After a failed app start the removal of new runtimes stops at the first backend whose Quadlet or
  control files cannot be removed, since these two steps are not guarded (`AllTriedIff`).
- A host whose SSH update took effect but was reported as failed is left with keys that the
  database does not have: the recovery runs only after an update that returned
  (`KeyStore.Apply`, `Diverges`).
- A hardening clone can be taken for a clone of another run. `RecognisedForIff` says for all valid
  names, all runs and every clone when that is so: the two runs have the same base, or one base is
  the other one with a number. The families:
  - Bases are cut. Two runs of one output have the same base exactly if their numbers agree in the
    digits that find room, 47 less the length of the name (`BasesOfOneOutputIff`): runs 120 to 129 of
    a name of 45 characters (`TenRunsShareTheirBase`), and all runs of a name of 47 or more
    (`LongNameSharesItsBase`). Different outputs that agree in their first 48 characters share it too
    (`SameHeadSharesItsBase`). `BasesCoincideIff` is the condition for any two runs.
  - Names end in numbers. Run j of the output `a-5` names its first clone like clone j of run 5 of
    `a`, and clone k of run 5 of `a` has the name of the first clone of run k of `a-5`
    (`AnotherRunsCloneMatches`, `TwoRunsNameTheSameClone`). When nothing is cut these are the only
    two (`PlainRecognisedForIff`).

  With ten thousand or more clones a run may fail to recognise its own (`RecognisedIffItFits`).
  Without a free port the port search never ends (`NoFreePortNoEnd`).
- A wait task of a terminal session that is cancelled before its first step ends without giving
  the guest guard back (`UnenteredWaitLeavesTheGuard`). That is the only way in which it ends so, and
  then a call that will give it back is under way (`GuardIsReleasedOnce`).
- A verification can start before the end of a recorded delay, because a successful login lifts the
  delays of earlier failures (`SuccessLiftsTheDelay`). A caller is let through exactly if every
  failure recorded since its client's last recorded success has run out (`StartsIffAllOver`).
- A cancelled hardening run can count and list one setting whose rating its row does not hold,
  because the handler of a cancellation writes details and no ratings
  (`CancelledDuringFirstTest`, `AheadMeans`): exactly if it is cancelled while a setting is rated
  that is not the last one, after rounds that all went well (`RunsAheadIff`).
- The progress of a chain of resumed runs falls at a row whose run has not begun (`ProgressFalls`),
  and only there (`Chain`).
- A hardening run that is cancelled while it is still queued runs all the same: how it ends does not
  depend on what its row said before it began (`RunPhase2`).
- A body line that looks like a header splits an entry in two when the admin log is read back
  (`ReadAdminLogBack` says exactly when).
- The loop that takes over the tested settings of an interrupted hardening run keeps repeated
  items; the result is free of repetitions exactly when the rated items were (`RuntimeDetails`).

Where a comment in the code promises more than the code does, as for the drain of the log queue
(`app/logger.py:470`), the model follows the code.

## Model

| member | source | states |
|---|---|---|
| BlockBuffer.EmitKeeps | app/logger.py:606-640 | every emit keeps the bounds (at most 128 blocks, 512 buffered records, 1 to 127 records a bucket, counter equal to the summed bucket sizes), and written plus buffered records of each block id grow by exactly the emitted record |
| BlockBuffer.RunConserves | app/logger.py:606-640 | for every sequence of emits and every block id, the records written for it followed by its bucket are those emitted with it, in order |
| BlockBuffer.DrainConserves | app/logger.py:642-651 | flushing incomplete blocks empties the table and neither loses nor reorders a record |
| BlockBuffer.ShutdownWritesEverything | app/logger.py:642-661 | after any run and a close, what was written for an id is what was emitted with it |
| BlockBuffer.FitsIsExact | app/logger.py:606-640 | an emit behaves like an unbounded buffer exactly when it stays within the limits |
| BlockBuffer.NoEvictionIff | app/logger.py:606-640 | a run leaves the same state as unbounded buffering if and only if it stays within the limits at every step |
| BlockBuffer.OperationShape | app/logger.py:1400-1450 | the records of an operation: numbered from 0, one result at least, one timing record, at the end |
| BlockBuffer.OperationTells | app/logger.py:1400-1450 | what the records say: the root, the body in order, how the operation ended if the body gave no result, the timing |
| BlockBuffer.Operation.Emit | app/logger.py:1260-1332 | an emitted record gets the next sequence number, and the result flag remembers results |
| BlockBuffer.Operation.Run | app/logger.py:1400-1450 | however the body ends, the log is the specified one: a result is added exactly when the body gave none, and timing comes last |
| BlockBuffer.SortedStaysPut | app/logger.py:698-701 | rendering a block in sequence order does not move records that already are |
| BlockBuffer.SortsStably | app/logger.py:698-701 | rendering a block puts its records into sequence order, keeps all of them, and keeps the order of those with one number |
| BlockBuffer.UnevictedOperationIsOneBlock | app/logger.py:606-640 | whatever is interleaved with it, an operation without an incomplete fragment is written as exactly one complete block that ends in its timing record |
| BlockBuffer.BlockBufferedHandler.Emit | app/logger.py:606-640 | the handler's fields change as the specification says, and stay valid |
| BlockBuffer.BlockBufferedHandler.Hold | app/logger.py:613-618 | making room for a 129th block id and appending to the bucket |
| BlockBuffer.BlockBufferedHandler.TakeOut | app/logger.py:619-625 | the bucket leaves when its timing record comes or at 128 records, and not otherwise |
| BlockBuffer.BlockBufferedHandler.TrimOverflow | app/logger.py:629-632 | the overflow loop never pops an empty table, and one pop suffices |
| BlockBuffer.BlockBufferedHandler.WriteIncomplete | app/logger.py:633-638 | every evicted bucket is counted and written once, in order |
| BlockBuffer.BlockBufferedHandler.FlushIncomplete | app/logger.py:642-651 | the pending buckets are written in order as incomplete blocks, without being counted |
| BlockBuffer.DrainWritesInOrder | app/logger.py:642-651 | draining writes the table's buckets in their order |
| RecordQueue.StepKeepsValid | app/logger.py:469-571 | every step of a caller or of the thread keeps the queue protocol's invariant |
| RecordQueue.RunIsValid | app/logger.py:439-571 | the invariant holds in every interleaving |
| RecordQueue.NothingLostAtEntrance | app/logger.py:469-484 | offered records are the accepted and the dropped ones, the counters per level are right, the queue keeps its capacity |
| RecordQueue.DroppedIffNoRoom | app/logger.py:469-484 | at every point of every run: an offered record is accepted, as the last item of the queue, exactly if stop has not been called and there is room; otherwise it is dropped, and nothing else changes what is accepted or dropped |
| RecordQueue.RoomDropsNothing | app/logger.py:469-478 | a run that is not stopped and offers no more items than the capacity accepts every record, in order |
| RecordQueue.RecordQueueListener.Enqueue | app/logger.py:469-484 | accepted at the end of the queue exactly if not stopping and below capacity, dropped otherwise |
| RecordQueue.HandledIsFifoPrefix | app/logger.py:533-553 | each handler has seen a prefix of the accepted records, in order, even when others raise |
| RecordQueue.NothingAcceptedAfterStop | app/logger.py:469-478 | after stop nothing is accepted |
| RecordQueue.TrueFlushMeansHandled | app/logger.py:499-516 | a flush that answers true: everything accepted before it went through every handler |
| RecordQueue.NoTrueAnswerAfterAFailure | app/logger.py:513-516 | once a handler has failed no flush answers true any more |
| RecordQueue.ThreadGetsThrough | app/logger.py:533-553 | from every reachable state a thread that has not seen the queue empty gets through it in a known number of its own steps, whichever handlers raise: every handler has then had every accepted record and every waiting flush is signalled |
| RecordQueue.IdleThreadLeavesIff | app/logger.py:533-541 | a thread that finds the queue empty leaves exactly if stop has been called |
| RecordQueue.ExitLeavesExactly | app/logger.py:533-541 | what the exit of the thread leaves unhandled, exactly |
| RecordQueue.RecordQueueListener.RequestFlush | app/logger.py:499-509 | a flush request is queued, with the number of records accepted before it, exactly when the thread is alive, not stopping, and there is room |
| RecordQueue.RecordQueueListener.HandRound | app/logger.py:548-553 | the loop over the handlers gives the record to each of them once, whichever raise |
| RecordQueue.DrainCanMissARecord | app/logger.py:533-541 | the trace in which an accepted record is never handled |
| Rotation.AdvanceKeepsValid | app/logger.py:297-334 | every filesystem step keeps the invariant of the segments |
| Rotation.RunKeepsValid | app/logger.py:293-334 | so does every run of steps, writes, crashes and restarts |
| Rotation.NothingElseIsLost | app/logger.py:293-334 | the lines on disk are the written log without the lines of deleted oldest slots, in order, wherever the run is stopped |
| Rotation.NoReplaceOverwrites | app/logger.py:297-330 | no replace overwrites a different segment; a plain first segment coexists only with a missing or equal compressed one |
| Rotation.OnlyOldestIsDeleted | app/logger.py:323-325 | only slot backupCount is ever deleted |
| Rotation.OlderSlotsAreHigher | app/logger.py:326-332 | ages are strictly ordered by index |
| Rotation.HigherSlotsUntouched | app/logger.py:322-330 | slots above backupCount are never touched |
| Rotation.AdvanceTerminates | app/logger.py:297-334 | an operation that is not interrupted ends |
| Rotation.CompressionIsIdempotent | app/logger.py:297-315 | pending compression ends on the same disk from wherever it is resumed |
| Rotation.ShiftLoop | app/logger.py:326-330 | the loop moves every slot up by one |
| Rotation.UninterruptedRollover | app/logger.py:317-334 | a complete rollover: slots moved up, the oldest dropped, the base file in slot 1, nothing temporary left |
| Rotation.UninterruptedAppend | app/logger.py:293-315 | a complete append: pending compression is completed, the base file is opened if need be, and the line is the last one of it and of the written log |
| Rotation.SegmentFiles.FinishPendingCompression | app/logger.py:297-315 | the files after the pending compression |
| Rotation.SegmentFiles.ShiftSlots | app/logger.py:326-330 | the for loop moves every slot up by one |
| Rotation.SegmentFiles.RolloverLocked | app/logger.py:317-334 | the whole rollover on the files: the same result as the machine's steps |
| ContextSnapshot.SnapIsPaid | app/logger.py:1092-1132 | every visit and every kept character is paid for from the shared budget |
| ContextSnapshot.SnapshotIsBounded | app/logger.py:1092-1132 | at most 256 visits, kept keys and text of at most 8192 plus 255 characters, bounded depth |
| ContextSnapshot.SnapshotIsSafe | app/logger.py:1092-1132 | every kept entry with a sensitive key holds only the redaction marker, and no dictionary has a key twice |
| ContextSnapshot.UnspentBudgetIsInvisible | app/logger.py:1092-1132 | as long as the budget is not used up the copy is the one without a budget, and exactly its visits and characters have been charged |
| ContextSnapshot.CopyMirrors | app/logger.py:1097-1130 | the copy without a budget is faithful for every context graph: the same values in the same order, and of a dictionary each cut key with the value of the last entry that has it |
| ContextSnapshot.CopiedInFullIff | app/logger.py:1092-1132 | the budget is not used up exactly if the full copy takes fewer than 256 visits and fewer than 8192 characters; then the copy is faithful |
| ContextSnapshot.SnapshotIsACut | app/logger.py:1097-1130 | for every context graph: a marker, the beginning of a text, or the first entries or items and a marker; what was copied before the budget ran out stays |
| ContextSnapshot.Snapshot.Take | app/logger.py:1097-1130 | the recursion over shared counters computes the specified copy and leaves the specified budget |
| ContextSnapshot.Snapshot.TakeEntries | app/logger.py:1103-1115 | the same for the entries of a dictionary |
| ContextSnapshot.Snapshot.TakeItems | app/logger.py:1117-1123 | the same for the items of a list |
| NetworkIsolation.EnsureIsolationChain | app/services/app_network_isolation.py:321-394 | the commands issued one by one leave exactly the tables, and give the ending, of a closed form in the number of commands that succeed first |
| NetworkIsolation.Install | app/services/app_network_isolation.py:344-378 | the guarded part, for every fate of its commands: what is in the chain and in FORWARD when it ends, and how many commands were issued |
| NetworkIsolation.EndingIffFirstFault | app/services/app_network_isolation.py:321-394 | the exact condition of each of the six endings, by the first checked command that is not successful and the restore after it |
| NetworkIsolation.FaultDecides | app/services/app_network_isolation.py:379-394 | the tables that a fault at a given command leaves: those of the commands before it after a cancellation, the snapshot after a restore |
| NetworkIsolation.RaiseKeepsTablesIff | app/services/app_network_isolation.py:321-394 | a call that raises leaves the tables as they were exactly if nothing was done, no chain was half created, the snapshot was restored, or the commands up to the fault changed nothing |
| NetworkIsolation.LeavesNothingChangedIff | app/services/app_network_isolation.py:344-378 | when the commands up to a fault change nothing: the chain held what was appended, and the jumps deleted and inserted cancel out |
| NetworkIsolation.EveryEndingKeepsOthers | app/services/app_network_isolation.py:321-394 | however a call ends, other chains are untouched and FORWARD keeps its other rules in order; a return means the installation is complete |
| NetworkIsolation.AllSucceed | app/services/app_network_isolation.py:321-394 | if every command succeeds the call returns, with the new jump and those old ones that twenty deletes leave |
| NetworkIsolation.AppendPairs | app/services/app_network_isolation.py:349-366 | the nested loops append the ordered pairs in order up to the first command that is not successful, and touch nothing else |
| NetworkIsolation.DeleteJumps | app/services/app_network_isolation.py:368-374 | how many jumps go and how many deletes are issued: at most twenty, up to the first that fails |
| NetworkIsolation.Checked | app/services/app_network_isolation.py:345-348 | one checked command: its effect and how it is reported |
| NetworkIsolation.EachPairOnce | app/services/app_network_isolation.py:349-366 | the chain lists each ordered pair of distinct subnets exactly once |
| NetworkIsolation.InstalledPassesAudit | app/services/app_network_isolation.py:106-157 | after a return the audit accepts with n*(n-1) reject rules |
| NetworkIsolation.AuditAcceptsIff | app/services/app_network_isolation.py:135-143 | what a refusal means: a packet that the chain rejects gets past it where the first rule of FORWARD decides it or there is none |
| NetworkIsolation.AcceptedChainDecides | app/services/app_network_isolation.py:135-143 | where the audit accepts, what the chain rejects is rejected whatever the other rules say |
| NetworkIsolation.AuditCounts | app/services/app_network_isolation.py:116-157 | without a chain the audit refuses; otherwise it counts the reject rules of the chain |
| NetworkIsolation.PacketsAfterReturn | app/services/app_network_isolation.py:321-394 | a packet is rejected exactly when it crosses from one subnet to another, and otherwise treated as before |
| NetworkIsolation.InsideTrafficFlowsIffDisjoint | app/services/app_network_isolation.py:349-366 | traffic inside a subnet flows exactly when the subnets are disjoint |
| NetworkIsolation.RejectedIffHomesDiffer | app/services/app_network_isolation.py:349-366 | for disjoint subnets a packet is rejected exactly when its ends lie in two different ones |
| NetworkIsolation.Dedup | app/services/app_network_isolation.py:84-96 | the subnets that are installed are distinct and are those found |
| NetworkIsolation.Reconcile | app/services/app_network_isolation.py:77-103 | a reconcile that returns has installed the discovered subnets, with the reported rule count |
| NetworkIsolation.CancelledFlushLeavesNoRules | app/services/app_network_isolation.py:344-379 | for all tables with the chain: a call whose flush is cancelled after it took effect aborts with the chain emptied, no packet is rejected by it any more, and the audit accepts |
| NetworkIsolation.HalfCreatedChainStays | app/services/app_network_isolation.py:334-342 | a creation that took effect but is reported as failed raises and leaves the new chain |
| AccessGate.DelayTable | app/access.py:221-239 | delays of 1, 2, 4, 8, 16 and 30 seconds, growing and capped |
| AccessGate.CleanupNeverChangesBackoff | app/access.py:197-218 | forgetting old clients never changes a backoff answer |
| AccessGate.BackoffIsTheWait | app/access.py:207-218 | a client is told to wait exactly while it is blocked, long enough and never more than the cap |
| AccessGate.AttemptTable.CleanupAttempts | app/access.py:197-204 | the stale entries go, the others stay |
| AccessGate.AttemptTable.BackoffSeconds | app/access.py:207-218 | the answer and the cleaned table |
| AccessGate.AttemptTable.RecordAttempt | app/access.py:221-239 | a success forgets the client, a failure counts and blocks it |
| AccessGate.StepKeepsBounded | app/access.py:78-112 | permits and holders always add up to two |
| AccessGate.RunKeepsValid | app/access.py:78-112 | the invariant of the verifier holds in every interleaving with cancellation |
| AccessGate.AtMostTwoAndRecordedOnce | app/access.py:78-112 | at most two verifications run at once, and each finished one is recorded once |
| AccessGate.NoEarlyStart | app/access.py:78-112 | no verification starts before the end of the delay of a recorded failure of its client, unless a success of the client was recorded in between |
| AccessGate.StartsIffAllOver | app/access.py:78-112 | in every run, the recheck lets a caller through exactly if every failure recorded since its client's last recorded success has run out |
| AccessGate.SuccessLiftsTheDelay | app/access.py:78-112 | a trace with a start before the end of a recorded delay, after a success |
| AccessGate.ThirdFailureWaits | app/access.py:78-112 | of three consecutive failures the third comes at least the first one's delay later |
| AccessGate.DelayCountsTheStreak | app/access.py:221-239 | in every run, a recorded failure holds its client back for the delay that belongs to the number of failures in a row, none later than ten minutes after the one before it |
| AccessGate.TurnedAwayIff | app/access.py:84-86 | in every run, an arriving caller is turned away exactly if some delay is not over, and is told a time after which all are |
| AccessGate.StartedIsNeverLost | app/access.py:95-112 | a verification that has started goes on until it is answered, whoever cancels its caller, and then its outcome has been recorded |
| AccessGate.CancelGivesUp | app/access.py:88-93 | a caller cancelled before its verification starts never starts one, in any run, and gives back the permit it holds |
| AccessGate.CancelledWhileStarted | app/access.py:100-110 | a caller cancelled while its verification runs stays cancelled and its verification goes on, in any run |
| RootfsSeed.QuarantinePath | app/services/app_runtime.py:1123-1131 | the first free quarantine name |
| RootfsSeed.Seed | app/services/app_runtime.py:1318-1557 | whatever raises, a non-empty root filesystem stays in place or goes to quarantine, and nothing leaves quarantine; when each outcome is reached |
| RootfsSeed.SeedAgain | app/services/app_runtime.py:1072-1112 | after a successful seed the next call reuses it and changes nothing |
| RuntimeReconcile.TableMoves | app/services/app_runtime.py:1964-1971 | running, failing and succeeding in order keep the shape of the phase table |
| RuntimeReconcile.RebuildsIff | app/services/app_runtime.py:2158-2275 | which differences make prepare rebuild a container, and that nothing else does |
| RuntimeReconcile.ReadyIff | app/services/app_runtime.py:2973-3290 | when the guest counts as ready, by what the two looks at it find |
| RuntimeReconcile.GuardMetIff | app/services/app_runtime.py:2973-3290 | when the readiness observation has met a busy or unavailable guard |
| RuntimeReconcile.AppRuntimeReconciler.AutoRepair | app/services/app_runtime.py:1892-1941 | automatic repair leaves everything alone under a held lock, and otherwise forgets the spec and its files, as far as they can be removed; a repair that works leaves the units and no control file |
| RuntimeReconcile.AppRuntimeReconciler.EndPhase | app/services/app_runtime.py:2003-2050 | the end of a phase: its status, its record, the failure artifact or the restored file |
| RuntimeReconcile.AppRuntimeReconciler.PrepareBody | app/services/app_runtime.py:2128-2275 | exactly when prepare succeeds, and when a runtime is removable, saved for rollback, rebuilt or reused; what is saved are the unit, network, spec and bootstrap files of the host |
| RuntimeReconcile.AppRuntimeReconciler.CreateBody | app/services/app_runtime.py:2277-2553 | exactly when create succeeds, also when the container dies right after its start; then it runs on freshly written assets, and the started, created and recreated flags say how this call started it, if it did |
| RuntimeReconcile.AppRuntimeReconciler.Reuse | app/services/app_runtime.py:2345-2511 | the same for a container that is kept, restarted or rebuilt |
| RuntimeReconcile.AppRuntimeReconciler.BootstrapBackend | app/services/app_runtime.py:2973-3290 | which observations end in success, failure, a stop or an untouched bootstrap file |
| RuntimeReconcile.AppRuntimeReconciler.BootstrapBody | app/services/app_runtime.py:2555-2617 | a container is stopped only if this reconcile started it |
| RuntimeReconcile.AppRuntimeReconciler.BootstrapPhase | app/services/app_runtime.py:2003-2050 | the bootstrap file is as before the phase exactly when the readiness observation met the guard |
| RuntimeReconcile.AppRuntimeReconciler.RunPhases | app/services/app_runtime.py:2052-2058 | the four phases with faults: when they all succeed, and the table, flags, starts and stops otherwise |
| RuntimeReconcile.AppRuntimeReconciler.Restore | app/services/app_runtime.py:2101-2121 | a completed rollback puts each of the four saved files back, leaves every other file as it was and starts the old container; one that is cut short leaves each file as it was or as it was saved |
| RuntimeReconcile.AppRuntimeReconciler.Reconcile | app/services/app_runtime.py:2052-2073 | in every run with faults: it publishes exactly when each phase can succeed and be recorded, a published container runs, the table is well formed, publishing means the first four phases succeeded, the removal flag means the no-container branch, a rolled back migration has put back each of the unit, network and spec files there were before the call and the bootstrap file as its first record wrote it, a stop only follows a start |
| RuntimeReconcile.AppRuntimeReconciler.VerifySteadyState | app/services/app_runtime.py:2123-2126 | the last two phases, and that success clears the failure artifact |
| RuntimeReconcile.NormalizeSavedSpec | app/services/app_runtime.py:2885-2900 | missing keys of a saved spec are filled in, present ones kept |
| RuntimeReconcile.OnlySavedKeysForceARebuild | app/services/app_runtime.py:2903-2921 | which keys force a rebuild: schema drift does not, but for the hardening policy and the isolation revision |
| RuntimeReconcile.AppliedSpecIsStable | app/services/app_runtime.py:2885-2921 | an applied spec is never rebuilt again, provided it names its hardening policy |
| ApplyBackends.CleanupFailedNewRuntimes | app/services/app_runtime.py:950-1009 | removal is tried for the flagged reconcilers in order, up to the first unguarded failure |
| ApplyBackends.AllTriedIff | app/services/app_runtime.py:957-1009 | all of them are tried exactly when no cleanup but the last breaks off |
| ApplyBackends.PendingIsTheRest | app/services/app_runtime.py:277-284 | the pending backends are the rest of the sorted selection |
| ApplyBackends.StartBackend | app/services/app_runtime.py:236-264 | one start: exactly when it publishes, and the reconciler's flag and phase table |
| ApplyBackends.StartAll | app/services/app_runtime.py:233-264 | the start loop stops at the first backend that cannot be published |
| ApplyBackends.ReportFailure | app/services/app_runtime.py:265-301 | completed, failed and pending backends partition the sorted selection |
| ApplyBackends.ApplyBackends | app/services/app_runtime.py:232-301 | for the whole call: success exactly when every start works, otherwise the partition at the first that does not, and cleanup for exactly the processed backends that were new |
| HardeningRun.RuntimeDetails | app/services/app_hardening.py:2388-2427 | tested and skipped cover exactly the rated settings, disjointly; lists of a run by the current code are taken over unchanged |
| HardeningRun.Skipped | app/services/app_hardening.py:2404-2412 | the second loop keeps the first of repeated items |
| HardeningRun.Remaining | app/services/app_hardening.py:2415-2419 | ratings without an item are filed as tested |
| HardeningRun.FailInterrupted | app/services/app_hardening.py:743-769 | a restart makes active runs resumable and touches no other |
| HardeningRun.Resume | app/services/app_hardening.py:668-686 | a resumed run starts from exactly the usable ratings of its source |
| HardeningRun.OneSetting | app/services/app_hardening.py:1175-1296 | one round of the loop, cut, raising or cancelled anywhere: exactly how it ends, what is tested, and what variables and row hold afterwards |
| HardeningRun.TestSettings | app/services/app_hardening.py:1175-1296 | the loop: variables and row are those of the closed form; no setting tested twice, none that Phase 1 found unsafe, at most the last test without a stored rating, progress never falls |
| HardeningRun.CountCompleted | app/services/app_hardening.py:1067-1069 | the sum over the strict settings is the number of rated ones |
| HardeningRun.RatedCount | app/services/app_hardening.py:1093-1118 | the count reaches the total exactly when every strict setting is rated |
| HardeningRun.Begin | app/services/app_hardening.py:1063-1083 | a run goes on from what its row holds, and its progress counts all of it |
| HardeningRun.RunPhase2 | app/services/app_hardening.py:1009-1380 | a run cut at any point leaves the ratings, progress and lists of the closed form, and it ends in success, in failure, cancelled or cut short exactly under the conditions on its steps and commits that `EndsAs` spells out; within it ratings and progress never fall, what was rated is not tested again, and success rates every strict setting |
| HardeningRun.RunEndsAs | app/services/app_hardening.py:1093-1377 | the status of a run: success exactly if every round goes well and the commits suffice; failure exactly if there is no clone or the first round that does not go well raises; cancelled exactly if that round is cancelled; still running exactly if a commit is missing |
| HardeningRun.LoopStatusIff | app/services/app_hardening.py:1175-1377 | the same for the loop over the strict settings, from the first round that does not go well |
| HardeningRun.Finish | app/services/app_hardening.py:1297-1377 | success, failure and cancellation: the status, which ratings the row has, what it counts and lists, and that its progress never falls |
| HardeningRun.RunsAheadIff | app/services/app_hardening.py:1332-1347 | a row runs ahead of its ratings exactly if it is cancelled while a setting but the last is rated, after rounds that went well, with commits to spare |
| HardeningRun.AheadMeans | app/services/app_hardening.py:1332-1347 | such a row counts and lists exactly one setting whose rating it does not hold |
| HardeningRun.NotAheadMeans | app/services/app_hardening.py:1297-1377 | every other row counts and lists exactly the settings it has ratings of |
| HardeningRun.CancelledDuringFirstTest | app/services/app_hardening.py:1332-1347 | the input: a new run that is cancelled during its first test |
| HardeningRun.Chain | app/services/app_hardening.py:668-769 | across any chain of cut and resumed runs no setting is rated twice, each run wastes at most one test, each row is the one its run leaves and holds the ratings of all rows before it, its progress is as high exactly if its run has begun or there was none, and a run is followed by another one exactly if its process died before it was over |
| HardeningRun.ProgressFalls | app/services/app_hardening.py:668-685 | the two attempts at which the progress falls |
| Allocators.ValueOfNumeral | app/services/clone_defaults.py:18 | counters can be read off their decimal numerals |
| Allocators.TakenBelow | app/services/clone_defaults.py:16-23 | the pigeonhole argument for numbered candidates |
| Allocators.CloneCandidateIsValid | app/services/clone_defaults.py:17-20 | the candidates are valid backend names |
| Allocators.NextCloneName | app/services/clone_defaults.py:13-23 | a fresh valid name within two rounds more than there are names, the first free candidate |
| Allocators.FirstTwoCandidatesMayCoincide | app/services/clone_defaults.py:17-20 | the names for which two candidates coincide |
| Allocators.NextClonePort | app/services/clone_defaults.py:26-49 | None exactly when no port of the range is free; the next port first, then lower gaps |
| Allocators.CloneBase | app/services/app_hardening.py:2443-2447 | the base of a clone name has 1 to 58 characters and no dash at its ends |
| Allocators.RecognisedIffItFits | app/services/app_hardening.py:2450-2492 | a clone name is recognised exactly when its number fits behind the whole base |
| Allocators.RecognisedBelowTenThousand | app/services/app_hardening.py:2450-2492 | names with a number below 10000 are always recognised |
| Allocators.BaseIsKept | app/services/app_hardening.py:2443-2447 | what the base keeps of every valid name and run: the name and the digits that find room, or the first 48 characters |
| Allocators.BasesCoincideIff | app/services/app_hardening.py:2443-2447 | for all valid names and runs: when two bases are the same |
| Allocators.BasesOfOneOutputIff | app/services/app_hardening.py:2443-2447 | two runs of one output share the base exactly if their numbers agree in the digits that find room |
| Allocators.TenRunsShareTheirBase | app/services/app_hardening.py:2443-2447 | runs with one digit more than there is room share it by tens |
| Allocators.LongNameSharesItsBase | app/services/app_hardening.py:2443-2475 | a name of 47 characters or more: each run recognises the clones of every other |
| Allocators.SameHeadSharesItsBase | app/services/app_hardening.py:2443-2475 | so do outputs whose names agree in their first 48 characters |
| Allocators.RecognisedForIff | app/services/app_hardening.py:2443-2492 | for all valid names, all runs and every clone: when a run recognises the clone |
| Allocators.PlainRecognisedForIff | app/services/app_hardening.py:2443-2492 | for names that are not cut: exactly its own clones and two families of others |
| Allocators.NumberedCloneMatchesIff | app/services/app_hardening.py:2450-2492 | for all bases: a numbered clone matches exactly what its number was put behind and a base that is its very name |
| Allocators.AnotherRunsCloneMatches | app/services/app_hardening.py:2450-2475 | the first family: the first clone of an output whose name ends like a run number |
| Allocators.TwoRunsNameTheSameClone | app/services/app_hardening.py:2443-2492 | the second family: two runs of two outputs that give a clone the same name |
| Allocators.Phase2CloneName | app/services/app_hardening.py:2478-2492 | a fresh name within two rounds more than there are names |
| Allocators.NoFreePortNoEnd | app/services/app_hardening.py:2495-2516 | without a reachable free port the search never ends |
| Allocators.NextPhase2Port | app/services/app_hardening.py:2495-2516 | otherwise it ends at or below 65535 and skips no free port |
| SshPublicKey.PrefixCheckReadsTheKey | app/services/backend_ssh_keys.py:62-65 | the prefix and length check accepts exactly the blobs of section 4 of RFC 8709 |
| SshPublicKey.KeyLineIsAccepted | app/services/backend_ssh_keys.py:46-69 | every Ed25519 key line is accepted, and its comment dropped |
| SshPublicKey.StoredLineIsStable | app/services/backend_ssh_keys.py:46-69 | what is stored is one line that parses to itself with the same fingerprint |
| SshKeys.ActiveRevoke | app/services/backend_ssh_keys.py:144-148 | revoking takes exactly one key out of its output's active keys |
| SshKeys.ActiveInOrder | app/services/backend_ssh_keys.py:72-86 | the active keys of an output are its rows that are not revoked, each once, in the order of the table |
| SshKeys.HostOfIs | app/services/backend_ssh_keys.py:185-204 | for a valid table the host is the specified one exactly if it has an entry for each enabled app and for no other output, and line i of the entry is the line of the i-th active key |
| SshKeys.AllocateKeyId | app/services/backend_ssh_keys.py:102-109 | an unused id, or all draws are used |
| SshKeys.AddedIsValid | app/services/backend_ssh_keys.py:149-188 | an addition keeps names and fingerprints distinct, at most 100 keys, and line i of each output the line of its i-th active key |
| SshKeys.RevokedIsValid | app/services/backend_ssh_keys.py:144-188 | so does a revocation |
| SshKeys.StageAdd | app/services/backend_ssh_keys.py:149-184 | exactly when an addition is refused for which reason, in the order of the checks, and what an accepted key looks like |
| SshKeys.FindKey | app/services/backend_ssh_keys.py:145-147 | a key is found exactly when the output has it |
| SshKeys.KeyStore.Apply | app/services/backend_ssh_keys.py:190-213 | host and committed database agree afterwards exactly unless the update or the way back failed half way |
| SshKeys.KeyStore.AddKey | app/services/backend_ssh_keys.py:112-217 | an addition, whatever raises: what the database becomes, when it is reported done, and when the host lets in exactly the active keys of each enabled app |
| SshKeys.KeyStore.RevokeKey | app/services/backend_ssh_keys.py:112-217 | a revocation, in the same way |
| SshKeys.KeyStore.Serve | app/services/backend_ssh_keys.py:112-217 | every run of mutations keeps the table valid, takes back no revocation and leaves the host with exactly the lines of the active keys of each enabled app, in order, unless a call diverges |
| PtySession.StepKeeps | app/services/agent_channel.py:131-379 | every step of start, pump, wait, close and expire keeps the session's invariant |
| PtySession.RunKeeps | app/services/agent_channel.py:131-379 | so does every interleaving |
| PtySession.GuardIsReleasedOnce | app/services/agent_channel.py:277-298 | the guard is released at most once, and has been once close or an entered wait task has finished; after a wait task that was never entered a call that will release it is under way |
| PtySession.NothingIsHeldAtTheEnd | app/services/agent_channel.py:234-258 | when all tasks have ended neither guard nor descriptor is held |
| PtySession.NothingFollowsTheExit | app/services/agent_channel.py:300-379 | pty.exit is sent at most once, and no pty.output follows it |
| PtySession.DueExitIsSent | app/services/agent_channel.py:357-379 | in every run, a wait task that finds the pump ended in an open session closes it with its next step and sends pty.exit, for the first time, with the one after it, whatever the other tasks do in between, unless it is cancelled first |
| PtySession.ExitFollowsTheProcess | app/services/agent_channel.py:357-379 | in every run, pty.exit is sent only after the process has ended, and a descriptor is open only while nobody has shut the session down |
| PtySession.EndOfPumpDecides | app/services/agent_channel.py:362-379 | what the wait task makes of each way in which the pump can end: the exit, another wait, or an end without an exit |
| PtySession.CancelledExit | app/services/agent_channel.py:371-379 | a wait task that is cancelled while it sends the exit ends and lets go; the exit may have got through |
| PtySession.InterruptedGatherLetsGo | app/services/agent_channel.py:234-258 | a close that is interrupted while it gathers cancels what still runs and lets go |
| PtySession.PumpOfClosedSessionEnds | app/services/agent_channel.py:300-303 | the pump of a closed session ends without a frame, idle or not |
| PtySession.SlowPumpIsCancelled | app/services/agent_channel.py:362-370 | a pump that ends with a timeout or is too slow is cancelled, and the wait task waits for it |
| PtySession.ClosedSessionSendsNoExit | app/services/agent_channel.py:371-376 | a session that somebody else has closed never sends pty.exit |
| PtySession.UndisturbedSession | app/services/agent_channel.py:131-379 | an undisturbed session from beginning to end: pty.start, one pty.output for each chunk and for what is left in the decoder, pty.exit, and nothing is held; without output exactly pty.start and pty.exit |
| PtySession.CloseEndsEverything | app/services/agent_channel.py:226-275 | a close that is not interrupted, in any run in which the pump is not closing the session itself: all tasks end, nothing more is sent, descriptor and guard are let go of |
| PtySession.IdleSessionIsClosed | app/services/agent_channel.py:300-322 | an idle session reports that and is closed |
| PtySession.ThePumpReadsAnOpenDescriptor | app/services/agent_channel.py:322-331 | the pump never reads a descriptor that has been closed |
| PtySession.UnenteredWaitLeavesTheGuard | app/services/agent_channel.py:357-379 | a trace in which the wait task ends and the guard is still held |
| PtySession.Session.Drive | app/services/agent_channel.py:131-379 | the session object under any scheduler is the state machine's run, and keeps its invariant |
| PtySession.Live | app/services/agent_channel.py:131-379 | a session object from its construction on: guard given back at most once, nothing held at the end, the exit last |
| RepairPlan.OkIffHealthyWithoutIssues | app/services/app_diagnostics.py:180-272 | the ok flag holds exactly when the diagnosis is healthy or unmonitored and there is no issue |
| RepairPlan.BootstrapStatusIff | app/services/app_diagnostics.py:402-422 | each bootstrap status, in the fields of the observation |
| RepairPlan.ObservationOnlyIff | app/services/app_diagnostics.py:194-224 | when a snapshot is for observation only: host or guest could not be looked at |
| RepairPlan.DiagnosisIsFirstWrong | app/services/app_diagnostics.py:180-272 | the diagnosis names the first layer, from the host to the app, at which something is wrong |
| RepairPlan.StorageSteps | app/services/app_repair.py:157-171 | every storage candidate is removed, once; mounted storage is unmounted before exactly if the ids of entries and mounts agree |
| RepairPlan.ReleasesMountsIff | app/services/app_repair.py:157-171 | for every snapshot: each removal of mounted storage comes after its unmount if and only if the ids agree |
| RepairPlan.IdsAgreeIffSameId | app/services/app_diagnostics.py:87-89 | when no container is called what another has as its id, the ids agree exactly if each mounted entry has an `Id` and its mount the same one |
| RepairPlan.LowerCaseIdIsNotUnmounted | app/services/app_repair.py:157-171 | the input for which a mounted container is removed without an unmount |
| RepairPlan.MountedExternal | app/services/app_diagnostics.py:314-324 | the mounted entries found are those that some entry of this name is matched with, by `Id`, `id` or `ContainerID` |
| RepairPlan.CandidateIff | app/services/app_repair.py:163-168 | what the planner calls an orphan: a text under `Id`, or under `Name` when there is no `Id` at all |
| RepairPlan.EntryIdIff | app/services/app_diagnostics.py:87-89 | the id that entries are matched by: the first of `Id`, `id` and `ContainerID` that is there |
| RepairPlan.PlanRepair | app/services/app_repair.py:130-228 | the plan: no duplicate, mounted storage unmounted before its removal exactly if the ids agree, never remove and restart the container, empty for ok and for unobserved snapshots, one restart for an unavailable exec |
| RepairPlan.PlannedWhen | app/services/app_repair.py:173-228 | when each runtime step is planned, in the fields of the observation |
| RepairPlan.PlanSettles | app/services/app_repair.py:173-228 | once the runtime steps of a plan have succeeded, none of eight issues is left, for every observed snapshot |
| RepairPlan.PlanLeaves | app/services/app_repair.py:173-228 | exactly when a network without its container, or a failed bootstrap, is left after them |
| RepairPlan.StorageStepsSettle | app/services/app_repair.py:157-171 | the storage steps leave exactly the entries that have neither an `Id` nor a `Name` |
| RepairPlan.RepairBackend | app/services/app_repair.py:231-305 | the plan is carried out up to the first step that raises; a RuntimeError is reported, any other exception escapes |
| RepairPlan.CollectAfter | app/services/app_fix.py:29-48 | looking again until ok or until the time is up |
| RepairPlan.Fix | app/services/app_fix.py:142-298 | no result exactly if a step lets an exception escape; otherwise ok and deferred exclude each other, deferred means exactly that the same observation-only diagnosis is seen twice, and then nothing was planned or changed; ok means the last snapshot needs no repair; which failure is reported, and what counts as a change |
| LogTail.TailLines | app/cli/logs.py:132-154 | exactly the last lines for every file up to the cap, as many as asked for or all; beyond the cap only the first line may be a part; no byte is read twice, those read are the end of the file, never more than the cap, and at most one block more than holds newlines enough |
| LogTail.ReadBackwards | app/cli/logs.py:141-152 | the loop reads blocks until there are newlines enough, the cap or the start of the file, and not one block more than that |
| LogTail.CountIs | app/cli/logs.py:152 | the counter is the number of newlines |
| LogTail.TailIsExact | app/cli/logs.py:153-154 | when the tail of a file ends in the same lines as the file |
| LogTail.SplitLinesObeysTheLaws | app/cli/logs.py:153 | line splitting meets the laws the reader relies on |
| LogTail.SplitLinesIsTheSplit | app/cli/logs.py:153 | no line holds a break, each line but perhaps the last is followed by one break, and together they are the text |
| LogEntries.ParseEntries | app/cli/logs.py:157-205 | parsed entries partition the lines from the first header on |
| LogEntries.EntriesAreDetermined | app/cli/logs.py:157-205 | there is only one such partition |
| LogEntries.ReadBack | app/cli/logs.py:157-205 | written items are read back exactly when no body line looks like a header |
| AdminLog.HeaderIsReadBack | app/logger.py:1176-1181 | a rendered header matches the reader's pattern and gives its level, app id and category back |
| AdminLog.HeaderLineIff | app/cli/logs.py:20-25 | a line is taken for a header exactly if it is a stamp, a level, white space, a bar, an app id, a bar, a category and dashes; then those are its groups |
| AdminLog.ReadAdminLogBack | app/cli/logs.py:17-25 | parsing rendered events and blocks gives one entry each, with its level and category, exactly when no body line looks like a header |

## Left out

- PtySession.StepKeeps: `write` and `resize` are not modelled, and `process.wait()` is taken not to raise; interleavings are runs of the step function, which the session object is proved to follow (`Drive`).
- RecordQueue.StepKeepsValid: the interleavings of callers and thread are runs of the step function; the methods cover the locked parts and the loop over the handlers.
- AccessGate.RunKeepsValid: the verifier's tasks are steps of a state machine on values; the table of attempts is an object.
- AccessGate.NoEarlyStart: assumes that the wall clock never goes back; an attempt whose worker raised is not recorded, as in the code.
- NetworkIsolation.EnsureIsolationChain: assumes one writer of iptables and a snapshot that restores what it saved; snapshot, creation, deletes and restore are not awaited, so a cancellation of theirs counts as a failure.
- Rotation.NothingElseIsLost: backupCount is positive, without which a rollover rotates nothing; gzip is taken as injective and a rename as atomic; when a process is stopped between dropping the oldest slot and moving the others, the next rollover may drop one more, which is again the one in slot backupCount.
- RootfsSeed.Seed: the steps inside the temporary directory only succeed or raise; moves are renames within one filesystem; a profile state that cannot be written leaves the new root filesystem with an unreadable profile.
- RuntimeReconcile.AppRuntimeReconciler.CreateBody: seeding, control files, Quadlet files, limits and the reboot bridge only succeed or raise.
- RuntimeReconcile.NormalizeSavedSpec: spec values are compared as values; the comparison of numbers with booleans in Python is not modelled.
- ApplyBackends.CleanupFailedNewRuntimes: the guarded commands are tried and their errors listed; only the unguarded file removals can break off, so only they are arguments.
- HardeningRun.RunPhase2: starts from a row as the current code creates it, new or resumed (`Resume` says what becomes of older rows); evidence files, events and the clone's containers are left out; cancellation requests reach the row at the head of a round or while a setting is rated, and one that comes while the clone is made is seen at the first round; `commits` counts those at the start, the two of each new setting and the one at the end, since the others write nothing new.
- Allocators.NextCloneName: the source name has passed `ensure_backend_name`; for `safe_slug` only ASCII letters are modelled.
- SshKeys.KeyStore.AddKey: creation times are taken to grow, so that the order of the table is the order of creation; the private key and the key file name are left out.
- RepairPlan.MountedExternal: which listed containers have the name of the app is not modelled; only those are in the list.
- RepairPlan.RepairBackend: a step that raises after it changed something is not reported as a change, as in the code, so `changed` may be false although files were removed.
- LogTail.TailLines: the file does not shrink while it is read; decoding is part of the line splitting, whose laws are proved for the line breaks of ASCII.
- AdminLog.HeaderIsReadBack: ASCII digits and white space; the pattern of the older header format and the body text are arbitrary.
- HTTP routes, pages, CLI formatting, argument parsing and notifications.
- Podman, systemd, iptables, Argon2, gzip and base64 themselves.
- Detection of database revisions: the migrations it must match are not part of this model.
- Exec frames of the agent channel, guest command guards, operations and job records, which only appear as answers.
- Regular expressions for redaction: whether a key is sensitive is a predicate.
- Quadlet text, apply-slice hashing, schemas, Phase 1 rating tables and Phase 2 hit patterns.
