# A verified model of the TaskerRT scheduler

TaskerRT is a batch scheduler: jobs are submitted with dependencies and resource requests, packed onto worker
slots in priority order, backfilled around a blocked head, evicted for work of a higher class, and accounted for
per account with decaying usage. Every transition is written to a log before it is acknowledged, and a restart
rebuilds the engine from a snapshot and the log behind it.

This project models that core in Dafny and proves what it keeps, from single calls up to whole runs with crashes.

| files | what they model |
|---|---|
| `Domain`, `Slots`, `Arena` | machine widths, resource vectors, job handles, worker slots, the generational arena |
| `Heap`, `ReadySet`, `Priority`, `Decay`, `FairShare` | the indexed heap, the four class queues, scores, the decay table, the ledgers |
| `Eligibility` | the dependency tracker: counters, reverse edges, cascades |
| `Reservation`, `Placement`, `Preemption` | reservation time, packing, EASY backfill, the eviction planner |
| `Lifecycle`, `Admission`, `Transitions`, `Cycle`, `Scheduler` | the scheduler invariant and every lifecycle call |
| `Replay`, `Life`, `Binding`, `Engine`, `Service` | the log's meaning, worker bindings, every engine command and tick, runs of them |
| `Codec`, `Record`, `Log`, `SnapshotCodec` | the bytes of records, log files and snapshots |
| `Store`, `WriteAhead`, `Journal` | the data directory, the write-ahead protocol with crashes, the journal and the writer |
| `Restore`, `Recovery`, `Restart` | loading a snapshot, recovery, the end-to-end restart |
| `EvictionRun`, `Findings` | runs that reach what the code gets wrong |

Objects the source updates in place are classes (`SlotInventory`, `PriorityHeap`, `ReadySet`, `DependencyTracker`,
`FairShare`, `Scheduler`, `Engine`, `Journal`, `Channel`, `Store`, `Cursor`); each has a value view, and the
invariants are predicates over those values. Many predicates are sealed: `forall k :: Key(k) ==> body` behaves like
`body` but is only unfolded where a proof asserts the key. `var p := P(x); p` in a contract means `P(x)`.

## Main results

* **The scheduler invariant.** Ready set, dependency counters and charges are functions of the arena
  (`BooksAreDetermined`). Over every sequence of commands and ticks, whatever they are, they stay so, the arena is the
  replay of what was logged, and what is bound to a worker holds cpu and is charged there once (`Serve`, through
  `Engine.Steady`). A job on cpu that is bound to nothing can only come from the two inputs under Findings, and
  `Handle` says exactly which jobs those are; without them every job on cpu is bound (`Engine.Valid`).
* **Whom a cycle serves.** A cycle looks at the front of the queues, with nobody left out while there is room, in
  order of class, present score and age, and packs a prefix of them: no job is placed by packing while a Ready job of
  a higher class is passed over (`RunCycle`, `PackingRespectsClass`).
* **Backfill.** No job admitted ahead of the head delays the head's reservation, over a whole cycle and a whole tick
  (`BackfillNeverDelaysHead`, `PlanKeepsReservation`, `Tick`).
* **Preemption.** The plan is the cheapest any slot offers, exists exactly when evicting could help, and makes room.
* **Write-ahead safety.** Over every interleaving of engine, writer and crashes, recovery finds a prefix of the history
  that holds everything released (`SafeIff`), and merging batches loses and reorders nothing (`NothingLost`). The
  imperative journal and writer are runs of that protocol (`RunWriter`, `Boot`).
* **Restart.** After any crash, even one that cuts a command's records in two, the engine that comes up is in good
  order and stands where the first records lead, at least all released ones (`Restart`). All it asks of the engine that
  crashed is what `Serve` ensures.
* **Bytes.** Records, logs and snapshots are read back as written; a log cut anywhere reads as the records wholly
  inside the cut.

## Findings

Where the code does not do what its documentation promises, the model keeps the code, gives an input and proves the
exact condition.

* **A snapshot restore can lose a reverse edge.** Resubmission in slot order registers an edge only if the dependency
  is already tracked. The rebuilt tracker is right exactly when every wait points to a lower slot
  (`RebuiltRightIff`, `RestoreRightIff`); a log that leads to a wait pointing upward is `WaitsUpward`, and the lost
  edge is `RestoreLosesAnEdge`. The waiter would never be promoted.
* **A snapshot can be unloadable.** Retention may forget a completed job that an open job still names; resubmission
  then reports an unresolved dependency. Loading succeeds exactly when every open job's dependencies are live
  (`RestoreSnapshot`, reached by `ForgottenDependency`).
* **An eviction in flight does not survive a snapshot.** The restored engine has it back in the queue but still
  charged (`ResumedCharge`), and the confirmation logged afterwards cannot be replayed. Snapshot plus log equals the
  whole log, for every log, exactly when no eviction was in flight (`SnapshotThenLogIff`, reached by
  `SnapshotMidEviction`).
* **A stray eviction report leaks a job.** A Preempted report for a Running job frees its slot and leaves it Running,
  bound to nothing. It joins the strays exactly when it was bound and Running (`OnPreemptedReport`, reached by
  `StrayPreemptedReport`); only cancelling it ends it.
* **Losing a worker while quiescing** drops its entries and keeps its jobs Running. Exactly the jobs on the slot join
  the strays (`EvictSlot`, reached by `LostWhileQuiescing`).
* **The log's magic is not written with the file.** A crash between creating a log and its magic leaves a file that
  recovery refuses. Together with the sync policy and the writer's answer to a failed write, this gives the exact
  condition of `SafeIff`.
* **The age factor can overflow.** Clamping before multiplying keeps the product inside 64 bits exactly when the age
  horizon is at most `u64::MAX / FACTOR_SCALE` (`ScoresFitIff`).
* **A request for nothing on a draining slot.** First fit accepts it and allocation refuses it, exactly then
  (`AllocationFailsIff`, at a slot in `AllocationFailsWhileDraining`); packing asserts that this cannot happen.
* **Eviction counters are not replayed.** A Requeued record does not say why the job was requeued. An engine that had
  counted no eviction when its log began equals its log's replay exactly when no live job has been evicted since
  (`ReplayIsExactIff`); a run with one confirmed eviction is `EvictionNotReplayed`. The cap on evictions therefore
  starts over: a job may be evicted the full number of times again after every restart that replays its evictions.

## Model

| member | source | states |
|---|---|---|
| `Restarts.Restart` | crates/taskerd/src/engine.rs:535-581 | Restart after any crash of any protocol run, given the good life that crashed and the earlier moment its snapshot was taken: recover, decode the file, replay. The engine is valid and stands, up to eviction counters and requeued evictions, where the first m emitted records lead, with m at least everything released. |
| `Restarts.TwinReplay` | crates/taskerd/src/engine.rs:619-695 | Two arenas that differ only in eviction counters replay every lawful log alike. |
| `Restarts.LogBetween` | crates/taskerd/src/engine.rs:619-695 | What an engine logged from one moment of its run up to any later record, in the middle of a command or not, leads from the arena of that moment to where the log up to that record leads. |
| `Restarts.PicksUpPresent` | crates/taskerd/src/engine.rs:535-581 | If nothing emitted was lost, the restarted engine picks up where the crashed one stood. |
| `WriteAhead.SafeIff` | crates/taskerd/src/journal.rs:157-192 | Every reachable state, over all interleavings and any number of crashes, survives any crash with a prefix holding all that was released, if and only if logs are born whole and either nothing is ever handed over or every batch is synced and no write fails. |
| `WriteAhead.TrustedIsSafe` | crates/taskerd/src/journal.rs:157-170 | The safe half: real sync policy, no failing writes, whole logs. |
| `WriteAhead.CrashSurvived` | crates/tasker-wal/src/store.rs:62-91 | In every protocol state, whatever a crash leaves is recovered to a prefix of the history with everything released, and the protocol goes on from there. |
| `WriteAhead.PairSurvives` | crates/tasker-wal/src/log.rs:103-127 | A snapshot and a torn log read as a prefix that holds every synced record and are mended to exactly that prefix. |
| `WriteAhead.RunsKeep` | crates/taskerd/src/journal.rs:76-192 | The protocol invariant holds after every sequence of actions. |
| `WriteAhead.WorkLeads` | crates/tasker-wal/src/store.rs:111-139 | Each durable effect of resume, persist and rotate leaves the disk as the next phase needs it. |
| `WriteAhead.NothingLost` | crates/taskerd/src/journal.rs:121-143 | At every reachable state the unfinished batch, the queue and the pending batch are, end to end, exactly the records not yet finished, however often batches merged. |
| `WriteAhead.SplitOpenIsUnsafe` | crates/tasker-wal/src/log.rs:37-51 | If a new log and its magic do not reach the disk together, a crash can make recovery refuse. |
| `WriteAhead.NoSyncIsUnsafe` | crates/tasker-wal/src/log.rs:69-75 | Without syncing, a run loses a record whose reply was released. |
| `WriteAhead.FaultsAreUnsafe` | crates/taskerd/src/journal.rs:174-179 | A failed batch is dropped and the next batch's reply released: the acknowledged history is not on disk. |
| `Journals.Journal.Record` | crates/taskerd/src/journal.rs:91-96 | The framed bytes stay the frames of the pending records, one more now, and the rotation counter grows by their length. |
| `Journals.Journal.AttachSnapshot` | crates/taskerd/src/journal.rs:121-127 | Records so far move before the snapshot; every record is kept if and only if none was set aside for an earlier snapshot, as is so when none is pending; no further snapshot is wanted. |
| `Journals.Journal.Commit` | crates/taskerd/src/journal.rs:130-143 | Hands the batch over exactly when the queue has room; a refused batch stays whole. |
| `Journals.Persist` | crates/taskerd/src/journal.rs:157-170 | What persisting a batch does to the directory is a run of the protocol's effects. |
| `Journals.RunWriter` | crates/taskerd/src/journal.rs:173-192 | Draining the queue is a run of the protocol; what is released is, in order, the replies of exactly the batches that were persisted. |
| `Journals.WriteNext` | crates/taskerd/src/journal.rs:173-192 | One batch: its replies are released if and only if it was persisted; a failed batch is dropped with them. |
| `Journals.Boot` | crates/taskerd/src/daemon.rs:77-88 | Succeeds if and only if recovery does; it is a crash followed by an effect of the protocol, on the salvaged history. |
| `Stores.Recover` | crates/tasker-wal/src/store.rs:62-91 | The loop over the directory finds the highest generation; its files are read and a torn tail cut off. |
| `Stores.RecoveredOpens` | crates/tasker-wal/src/store.rs:62-109 | Whatever recovery could read can be opened for appending once the torn tail is cut. |
| `Stores.Store.Rotate` | crates/tasker-wal/src/store.rs:111-129 | Rename, directory sync, open, remove, in that order; stops half-way only at a foreign log. |
| `Logs.ParseLog` | crates/tasker-wal/src/log.rs:103-127 | The parsing loop computes the recursive reading, errors and torn offset included. |
| `Logs.CutParses` | crates/tasker-wal/src/log.rs:97-127 | A log cut anywhere behind its magic reads as exactly the records wholly inside the cut, and reports where the torn frame starts. |
| `Logs.ParseOfImage` | crates/tasker-wal/src/log.rs:103-127 | A whole log reads back as what was written. |
| `Logs.TornLog` | crates/tasker-wal/src/log.rs:139-145 | A log cut behind its first j records keeps those, and cutting the torn tail leaves exactly the log of what was read. |
| `Logs.AppendAfterTruncate` | crates/tasker-wal/src/log.rs:139-145 | Cutting the torn tail and appending reads as the kept records followed by the new ones. |
| `Logs.CutMagicRefused` | crates/tasker-wal/src/log.rs:104-106 | A log shorter than its magic is refused. |
| `Records.DecodeRoundTrip` | crates/tasker-wal/src/record.rs:63-113 | Decoding an encoded record gives it back, for every record whose lists fit their prefixes. |
| `Records.JobBack` | crates/tasker-wal/src/record.rs:139-200 | A job written anywhere in a buffer is read back from there, whole. |
| `Records.DecodeRecord` | crates/tasker-wal/src/record.rs:85-113 | Reading through the cursor computes the decoding function, with its errors. |
| `Codec.LittleRoundTrip` | crates/tasker-wal/src/codec.rs:12-22 | Little-endian bytes of a number in range read back as the number. |
| `Codec.Cursor.GetIds` | crates/tasker-wal/src/record.rs:183-186 | The loop over handles reads the list or stops at the first that is cut short. |
| `SnapshotCodec.SnapshotRoundTrip` | crates/tasker-wal/src/snapshot.rs:23-140 | Decoding an encoded snapshot gives it back: slots, free list, running handles, ledgers. |
| `Services.Serve` | crates/taskerd/src/engine.rs:144-243 | Over any run of commands and ticks, quiescing or not at each, the arena is the replay of the log, counters, queues and charges agree with it and the bindings are sound; a job on cpu is bound to nothing only if it was so before or an input derailed it. |
| `Services.Handle` | crates/taskerd/src/engine.rs:181-243 | In every state a run can reach, each input keeps all that, the log only grows, and exactly the jobs it derails join the strays; cancelling takes one out. |
| `Engines.Engine.OnSubmit` | crates/taskerd/src/engine.rs:246-277 | Accepted exactly for a known account and resolvable dependencies; then arena and log take it together, and a doomed job is noted as over; otherwise nothing changes. |
| `Engines.Engine.OnCancel` | crates/taskerd/src/engine.rs:280-315 | Accepted exactly for jobs that are not over, bound or stray; cancels the job and all it dooms, unbinds it, logs it. |
| `Engines.Engine.OnCompletedReport` | crates/taskerd/src/engine.rs:317-335 | Counts exactly for a job bound to a worker or held, which completes, is unbound and logged; otherwise nothing changes. |
| `Engines.Engine.OnFailedReport` | crates/taskerd/src/engine.rs:337-356 | The same for failure, with its cascade. |
| `Engines.Engine.OnPreemptedReport` | crates/taskerd/src/engine.rs:359-370 | A bound job being evicted is counted, requeued and logged; a bound Running job is unbound and strays; for any other nothing changes. |
| `Engines.Engine.EvictSlot` | crates/taskerd/src/engine.rs:934-967 | The slot is zeroed and detached; its jobs are requeued and logged, or, while quiescing, exactly they stray. |
| `Engines.Engine.OnWorkerJoined` | crates/taskerd/src/engine.rs:187-215 | The worker is told to stop exactly those claimed jobs that are bound nowhere afterwards; no other job changes. |
| `Engines.Engine.Claim` | crates/taskerd/src/engine.rs:697-752 | Told to stop exactly when the job is bound nowhere afterwards; a held or bound job is kept exactly when the slot can hold it, and then runs there; a job given up is requeued and logged; a job bound nowhere changes nothing. |
| `Engines.Engine.Attach` | crates/taskerd/src/engine.rs:193-212 | Takes the lowest detached, zeroed slot or appends one; every binding stays. |
| `Engines.Engine.Cycle` | crates/taskerd/src/engine.rs:372-394 | The plan is made from the front of the queues at present scores; what it placed is running, charged, bound and logged, and its head keeps its reservation. |
| `Engines.Engine.Tick` | crates/taskerd/src/engine.rs:372-422 | The cycle, the evictions that are the best plan for its head, retention and reconciliation, in this order: arena, log, notes and held jobs at the end are stated outright, and the head keeps its reservation. |
| `Engines.Engine.PlanEvictions` | crates/taskerd/src/engine.rs:754-790 | The best plan for the head is carried out: exactly its victims are being evicted, and each eviction is logged. |
| `Engines.Engine.ForgetExpired` | crates/taskerd/src/engine.rs:853-863 | Exactly the notes at least as old as the window go, oldest first, each with its job, logged if it was still there. |
| `Engines.ForgetTakesNoted` | crates/taskerd/src/engine.rs:853-863 | Forgetting removes exactly the noted jobs and leaves every other job as it was. |
| `Engines.Engine.ExpireReconcile` | crates/taskerd/src/engine.rs:813-837 | All unclaimed jobs are requeued and logged if and only if their deadline has come; the deadline is set when some are first found waiting and cleared when none are. |
| `Engines.Engine.ReplayLog` | crates/taskerd/src/engine.rs:619-695 | Replaying a lawful log leads to the arena its records determine, with counters, queues and charges right. |
| `Engines.Engine.FinishRecovery` | crates/taskerd/src/engine.rs:549-573 | Running jobs wait for their workers, evictions in flight are requeued, and the log starts over from the result. |
| `Recoveries.ReplayIsExactIff` | crates/taskerd/src/engine.rs:678-682 | For an engine with no counted eviction at the base of its log, replay gives the live arena if and only if no live job has been evicted; in any case it gives it with every counter at zero. |
| `Engines.BooksFollowArena` | crates/taskerd/src/engine.rs:530-581 | Two engines over arenas that agree up to eviction counters agree on queues, counters and charges. |
| `Recoveries.RestoreSnapshot` | crates/taskerd/src/engine.rs:584-617 | Accepted if and only if every open job's dependencies are live; right if and only if no job waits upward and no eviction in flight holds cpu. |
| `Recoveries.SnapshotThenLogIff` | crates/taskerd/src/engine.rs:535-548 | Snapshot plus log equals the whole log, for every log that may follow, if and only if no eviction was in flight. |
| `Recoveries.ConfirmationRefused` | crates/taskerd/src/engine.rs:676-682 | The confirmation logged after such a snapshot replays on the old engine and not on the restored one. |
| `Recoveries.RecoverFromLog` | crates/taskerd/src/engine.rs:535-581 | From the first log: a valid engine with the replayed arena, its evictions requeued and its Running jobs held. |
| `Recoveries.RecoverFromSnapshot` | crates/taskerd/src/engine.rs:535-617 | From a snapshot that may be restored and the log behind it: a valid engine with the arena the old one had reached. |
| `Restores.RestoreRightIff` | crates/taskerd/src/engine.rs:591-617 | The restored scheduler satisfies the invariant if and only if nobody waits upward and no eviction in flight holds cpu. |
| `Restores.RebuiltRightIff` | crates/tasker-core/src/policy/eligibility.rs:129-174 | Resubmitting in slot order rebuilds the tracker if and only if every wait points to a lower slot. |
| `Restores.ResumedCharge` | crates/taskerd/src/engine.rs:591-617 | The saved charges are right for the restored arena if and only if no eviction in flight holds cpu. |
| `Restores.RestoreLosesAnEdge` | crates/tasker-core/src/policy/eligibility.rs:142-167 | Two jobs, one waiting for the other's higher slot: after the restore nothing will report the dependency. |
| `Findings.WaitsUpward` | crates/taskerd/src/engine.rs:599-606 | A log an engine writes leads to that state. |
| `Findings.ForgottenDependency` | crates/taskerd/src/engine.rs:853-863 | A log an engine writes leads to a valid engine whose snapshot cannot be loaded. |
| `Findings.SnapshotMidEviction` | crates/taskerd/src/engine.rs:866-884 | A join, two submissions and two ticks lead to an eviction in flight at which snapshot and log disagree with the whole log. |
| `Findings.EvictionNotReplayed` | crates/taskerd/src/engine.rs:359-370 | The same run with the eviction confirmed: the live counter is one and the replayed arena differs. |
| `EvictionRuns.Occupy` | crates/taskerd/src/engine.rs:372-394 | A worker joins, a job is submitted and the tick starts it there. |
| `EvictionRuns.Contest` | crates/taskerd/src/engine.rs:754-790 | A rival of a higher class is submitted and the tick has the first job evicted for it. |
| `Findings.StrayPreemptedReport` | crates/taskerd/src/engine.rs:359-370 | A run in which a stray report leaves a Running job bound to nothing. |
| `Findings.LostWhileQuiescing` | crates/taskerd/src/engine.rs:934-967 | A run in which a worker lost while quiescing does the same. |
| `Replay.PrefixReplays` | crates/taskerd/src/engine.rs:545-548 | Every prefix of a log that replays, replays. |
| `Replay.MirrorStep` | crates/taskerd/src/engine.rs:619-695 | Logging a transition keeps replay and live arena together, up to eviction counters. |
| `Replay.ApplyIgnoresCounters` | crates/taskerd/src/engine.rs:619-695 | What a record does never depends on eviction counters. |
| `Schedulers.Scheduler.Submit` | crates/tasker-core/src/engine/cycle.rs:198-236 | Accepted exactly for a Submitted job with a known account and resolvable dependencies; state, queue, tracker and ledgers follow the verdict; otherwise nothing is queued or tracked. |
| `Schedulers.Scheduler.OnCompleted` | crates/tasker-core/src/engine/cycle.rs:239-276 | Accepted exactly where the state diagram allows; the charge goes and dependents with nothing left are promoted; otherwise nothing changes. |
| `Schedulers.Scheduler.OnFailed` | crates/tasker-core/src/engine/cycle.rs:279-300 | The same for failure: the cascade is cancelled and unqueued. |
| `Schedulers.Scheduler.Cancel` | crates/tasker-core/src/engine/cycle.rs:308-333 | The same for cancellation, from any open state. |
| `Schedulers.Scheduler.Requeue` | crates/tasker-core/src/engine/cycle.rs:338-366 | Accepted exactly from Running or where the diagram allows Ready; afterwards queued at its present score and uncharged. |
| `Schedulers.Scheduler.Preempt` | crates/tasker-core/src/engine/cycle.rs:150-162 | Accepted exactly for a Running job; only its state changes. |
| `Schedulers.Scheduler.RunCycle` | crates/tasker-core/src/engine/cycle.rs:384-487 | The candidates are the front of the queues, none left out below the limit, at present scores and in order; they are packed and backfilled as planned; exactly the dispatched jobs leave the queues, become Running and are charged. |
| `Schedulers.PackingRespectsClass` | crates/tasker-core/src/engine/cycle.rs:394-440 | No job is packed while a Ready job of a higher class is passed over. |
| `Schedulers.Scheduler.TakeCandidates` | crates/tasker-core/src/engine/cycle.rs:394-424 | Drained, rescored and sorted: the front of the queues by class, present score and age, off the queues meanwhile. |
| `Transitions.MoveKeeps` | crates/tasker-core/src/engine/cycle.rs:338-366 | One job changing state keeps the scheduler invariant. |
| `Transitions.CompletionKeeps` | crates/tasker-core/src/engine/cycle.rs:239-276 | Completion keeps it, and promotes exactly the jobs whose last dependency this was. |
| `Transitions.TerminationKeeps` | crates/tasker-core/src/engine/cycle.rs:279-333 | Failure and cancellation keep it, and cancel exactly what is reachable along waits. |
| `Transitions.SubmissionKeeps` | crates/tasker-core/src/engine/cycle.rs:198-236 | Submission keeps it. |
| `Cycles.CycleKeeps` | crates/tasker-core/src/engine/cycle.rs:384-487 | A cycle keeps it. |
| `Cycles.PlanKeepsReservation` | crates/tasker-core/src/engine/cycle.rs:384-487 | After packing and backfill the head can still start by its reservation. |
| `Cycles.PlanCharges` | crates/tasker-core/src/engine/cycle.rs:384-487 | The inventory after a cycle is exactly the decisions charged to it, overcommitting nothing. |
| `Lifecycle.BooksAreDetermined` | crates/tasker-core/src/engine/cycle.rs:58-65 | Ready set, counters and charges are functions of the arena. |
| `Lifecycle.BlockedCounter` | crates/tasker-core/src/policy/eligibility.rs:31-37 | A blocked job's counter is its number of dependencies not completed, and positive. |
| `Lifecycle.CascadeAgrees` | crates/tasker-core/src/policy/eligibility.rs:201-219 | The cascade is exactly the set of jobs that transitively wait for the one that ended. |
| `Lifecycle.PromotionAgrees` | crates/tasker-core/src/policy/eligibility.rs:176-199 | The promoted jobs are exactly those a scan of the arena would promote. |
| `Eligibility.DependencyTracker.Classify` | crates/tasker-core/src/policy/eligibility.rs:89-127 | The first dependency that cannot be resolved or has ended badly decides; otherwise whether any is pending. |
| `Eligibility.DependencyTracker.Register` | crates/tasker-core/src/policy/eligibility.rs:129-174 | A verdict, and a tracker that changes exactly for jobs that can run or must wait. |
| `Eligibility.DependencyTracker.OnCompleted` | crates/tasker-core/src/policy/eligibility.rs:176-199 | Counters fall by the number of edges, reaching zero promotes once, stale handles are ignored. |
| `Eligibility.DependencyTracker.OnTerminated` | crates/tasker-core/src/policy/eligibility.rs:201-219 | The work-list loop visits exactly the tracked jobs reachable along reverse edges, each once, and untracks them. |
| `Eligibility.RegistrationKeepsCounters` | crates/tasker-core/src/policy/eligibility.rs:129-174 | Registering keeps every counter and edge count exact. |
| `Reservation.ReservationTime` | crates/tasker-core/src/policy/backfill.rs:41-93 | The earliest time at which some slot has room if every running job ends at its deadline, or none if there is no such time. |
| `Placement.BackfillNeverDelaysHead` | crates/tasker-core/src/policy/backfill.rs:107-214 | Whatever backfill admits, the head can still start by its reservation. |
| `Placement.EasyBackfill` | crates/tasker-core/src/policy/backfill.rs:107-214 | The loop admits exactly what the rule admits, marks every candidate, and touches nothing without a reservation. |
| `Placement.TryCandidate` | crates/tasker-core/src/policy/backfill.rs:160-206 | Kept exactly when harmless; a refused candidate leaves the inventory as it was. |
| `Placement.Pack` | crates/tasker-core/src/policy/pack.rs:56-104 | The loop packs in order up to the first misfit or the budget, charging and marking as it goes. |
| `Placement.PackIsPrefix` | crates/tasker-core/src/policy/pack.rs:56-104 | The packed jobs are a prefix of the live candidates, and the head is the next of them and fits nowhere. |
| `Placement.PackCharges` | crates/tasker-core/src/policy/pack.rs:84-98 | The inventory afterwards is the decisions charged one by one; every allocation succeeds. |
| `Slots.AllocationFailsIff` | crates/tasker-core/src/cluster/slot.rs:105-141 | A request first fit accepts is refused by allocation if and only if it asks for nothing on a busy draining slot. |
| `Slots.AllocationFailsWhileDraining` | crates/tasker-core/src/cluster/slot.rs:105-141 | A draining slot at which first fit says yes and allocation no. |
| `Slots.SlotInventory.TryAllocate` | crates/tasker-core/src/cluster/slot.rs:117-141 | Succeeds exactly when the slot exists and stays within capacity; otherwise nothing changes. |
| `Preemption.PlanPreemption` | crates/tasker-core/src/policy/preempt.rs:51-141 | The offer with fewest victims, then least lost runtime, then lowest slot; none exactly when evicting everything eligible anywhere would not help. |
| `Preemption.EvictingMakesRoom` | crates/tasker-core/src/policy/preempt.rs:115-128 | Once the chosen victims are gone the head fits the slot. |
| `Preemption.Sort` | crates/tasker-core/src/policy/preempt.rs:109-114 | A stable sort of the victims by class and start. |
| `Preemption.OfferIsUnique` | crates/tasker-core/src/policy/preempt.rs:51-141 | One slot makes at most one offer. |
| `Heaps.PriorityHeap.Push` | crates/tasker-core/src/policy/ready_set.rs:148-162 | Inserts or rescores; heap order and the position index are kept. |
| `Heaps.PriorityHeap.PopMax` | crates/tasker-core/src/policy/ready_set.rs:171-176 | Returns and removes the entry that outranks all others. |
| `Heaps.PriorityHeap.Remove` | crates/tasker-core/src/policy/ready_set.rs:195-224 | Removes exactly the given handle, if present. |
| `ReadySets.ReadySet.PopNext` | crates/tasker-core/src/policy/ready_set.rs:300-311 | The entry nothing queued precedes, by class, score and age; all others stay. |
| `ReadySets.ReadySet.DrainOrdered` | crates/tasker-core/src/policy/ready_set.rs:313-323 | The first entries in that order, up to the limit; the rest stay. |
| `ReadySets.DrainsTop` | crates/tasker-core/src/policy/ready_set.rs:313-323 | What is drained is sorted and precedes everything left. |
| `ReadySets.DrainsPartition` | crates/tasker-core/src/policy/ready_set.rs:313-323 | Nothing is lost or duplicated by draining. |
| `Priority.ScoresFitIff` | crates/tasker-core/src/policy/priority.rs:65-103 | Every score fits its word if and only if the age horizon is at most u64::MAX / FACTOR_SCALE. |
| `Decay.BuildDecayTable` | crates/tasker-core/src/policy/fairshare.rs:52-75 | The table holds the powers of the largest fixed-point root whose full power is at most one half. |
| `Decay.FindRoot` | crates/tasker-core/src/policy/fairshare.rs:52-63 | The binary search finds the root at which the power crosses one half. |
| `Decay.RootIsLargest` | crates/tasker-core/src/policy/fairshare.rs:52-63 | A base qualifies if and only if it is at most the root found. |
| `Decay.PowQ48` | crates/tasker-core/src/policy/fairshare.rs:38-50 | The squaring loop computes the recursive power. |
| `Decay.DecayFactorNonIncreasing` | crates/tasker-core/src/policy/fairshare.rs:77-86 | More steps never decay less, across octaves too. |
| `FairShares.FactorFallsWithUsage` | crates/tasker-core/src/policy/fairshare.rs:210-224 | An account that used more has no larger factor, though its usage is part of the total too. |
| `FairShares.FactorRisesWithShares` | crates/tasker-core/src/policy/fairshare.rs:210-224 | An account with more shares has no smaller factor, though its shares are part of the total too. |
| `FairShares.FactorArithmeticFits` | crates/tasker-core/src/policy/fairshare.rs:210-224 | The 128-bit products do not overflow. |
| `FairShares.TouchGranularity` | crates/tasker-core/src/policy/fairshare.rs:187-207 | Touching often or once consumes the same decay steps and milliseconds; remainders are never lost. |
| `FairShares.FairShare.OnDispatch` | crates/tasker-core/src/policy/fairshare.rs:294-305 | The account's ledger is brought up to date and charged; no other moves. |
| `FairShares.FairShare.Refresh` | crates/tasker-core/src/policy/fairshare.rs:321-333 | Every ledger is brought up to date and every factor follows from the totals. |
| `FairShares.FairShare.SetShares` | crates/tasker-core/src/policy/fairshare.rs:270-276 | Exactly the account's share changes; missing ledgers up to it are opened; out of bounds nothing changes. |
| `Arenas.CheckFreeList` | crates/tasker-core/src/domain/arena.rs:181-224 | Restored parts are accepted if and only if the free list visits every vacant slot once and nothing else. |
| `Arenas.Restored` | crates/tasker-core/src/domain/arena.rs:181-224 | An arena with exactly the given parts, if and only if the free list is exact. |
| `Arenas.Arena.InsertValue` | crates/tasker-core/src/domain/arena.rs:227-256 | The predicted handle is issued, every other handle keeps its meaning, stale handles stay stale. |
| `Arenas.Arena.RemoveId` | crates/tasker-core/src/domain/arena.rs:285-314 | Exactly the given handle goes; its slot is reused under a new generation. |
| `Arenas.Arena.SetValue` | crates/tasker-core/src/domain/arena.rs:270-275 | Exactly the live handle's value changes. |

## Left out

- Metrics, queries, the demand signal, gRPC services, the autoscaler hook and the simulator: they read the state modelled here or drive it, and would add easy members.
- Dispatch messages and the outbox: which worker is told to stop is an out-parameter of `OnWorkerJoined`; sending is not modelled.
- Real time: clocks are parameters; only order and saturation of the values passed in matter.
- The checksum is a parameter, any function from bytes to 32-bit words; that different payloads may collide is allowed, so a corrupted frame that passes the checksum is outside the cut theorems.
- WriteAhead.SafeIff: a crash drops a suffix of a file's unsynced bytes; reordered sectors inside one file are not modelled, and a file whose directory entry was never synced counts as kept together with its synced bytes.
- WriteAhead.Run: snapshots are named by how many records they stand for; their bytes are joined in `Restarts.Restart`.
- Restarts.Restart: asks that the snapshot recovery picks was written by the engine that crashed; until a restarted engine has its first snapshot on disk, a crash restarts the engine before it, since requeueing evictions in flight is not logged.
- Stores.Store.Rotate: the temporary file is not modelled, as recovery ignores its name.
- Journals.Journal.Record: the rotation counter is an unbounded number where the source has 64 bits.
- Journals.RunWriter: runs until the queue is empty, where the source waits for more until the engine lets go of its end.
- Engines.Engine.OnSubmit: asks for room below 2^32 - 1 slots, beyond which the source panics, a fresh Submitted job, as its callers build, and a non-zero request, since packing can panic on one (`AllocationFailsIff`).
- Services.Serve: stops at an input that `OnSubmit` or `ForgetExpired` exclude.
- WriteAhead.DepthZeroIsIdeal: a queue of depth 0 accepts nothing, where a rendezvous channel of the library would hand over directly; the source's depth is 1.
- Engines.Engine.ForgetExpired: asks that no slot has been reused 2^32 times; beyond that the source's generation wraps and an old handle can come back to life.
- Engines.Engine.ReplayLog: usage in the ledgers after a replay is what replayed times give it, not what the live engine had; only charges are compared.
- Schedulers.Scheduler.RunCycle: the arena is a value passed in and returned, where the source mutates it through a reference.
- Schedulers.Scheduler.Requeue: also accepts Blocked and Submitted jobs, as the source does; the invariant lemma covers jobs that hold cpu.
- Cycles.SortCandidates: an insertion sort stands for the library's unstable sort; the order is total, so the result is the same.
- Records.DecodeRoundTrip: the snapshot's decoder is a function over positions; only the record decoder also goes through the cursor.
- SlotInventory.add_slot and from_capacities, Scheduler::withdraw and the share configuration read at start-up: easy members.
