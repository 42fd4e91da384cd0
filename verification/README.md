# Verification model of apalis-surrealdb

apalis-surrealdb is a persistent job queue: worker instances in any number of processes share one
SurrealDB database holding a `job` table, a `worker` table and a clock. A job is pushed, claimed, locked,
executed and acknowledged; it may fail and be retried, be parked when its payload cannot be decoded, be
re-enqueued by the sweep that looks for dead workers, and finally be vacuumed. No single guard makes this
safe. Safety comes from how `status`, `lock_by`, `lock_at`, `attempts`, the liveness window and the copies of
claimed tasks held by the clients work together, and that interplay is what this project proves.

`dafny verify dfyconfig.toml` checks the whole project.

## How it is organised

* **Statements.** `JobTable` gives each SurrealQL statement as a function on tables. `Claims` is about the claim
  order, `Pushing` about the insert loop, `Scheduling` about what becomes of the columns pushed.
  `StoreObject.Store` is the database as an object, one method per transaction or statement.
* **Protocol.** `Protocol` is a state machine over the store, the client-side copies, crashes, lost answers and
  half-done sweeps: every transaction or single statement is one atomic action, the sweep is three. `Effects`
  says what one action does to one row. A run is any finite sequence of actions from the empty store.
* **Theorems over all runs.** `Safety`, `Recovery`, `Fencing` and `Idempotency` assume nothing about timing
  (but for `Recovery.LostCopiesStayQueued`). `Exclusion`, `Attempts` and `Terminal` add the two timing
  hypotheses below. `Tightness` shows that neither of them can be relaxed by a tick, `Codecs` which of the
  conclusions depend on codecs and exactly when they hold. `Witness` builds the runs that both of them exhibit.
* **Client machines.** `TxErrors`, `TxRetry` and `TxClient` (error reading, retry loop, the transactions),
  `PollFetcher`, `Sink`, `SharedDriver`, `WaitFor`, `LivenessWindow`, and the board's `Metrics` and `Board`.

## Hypotheses

Part of the state machine, so assumed by every theorem over runs:

* Transactions and single statements are atomic and take effect at one instant of a clock that never goes
  back. An answer may be lost after the commit: `Lose` drops a claimed copy, `LockError` is a failed lock call
  that may have committed, and a crash or a lost ack is an action of its own.
* Pushed ids were never used before, and `max_attempts` is not negative (`Protocol.Enabled`, case `Push`).
* An instance registers before its first exclusive claim, before it locks and before it parks what comes out of its
  own stream (src/lib.rs:299-309, src/shared.rs:254-262, src/shared.rs:296-315). The shared driver claims only while
  some registered shared instance polls it (src/shared.rs:218-226); it may hand tasks to instances that have not
  registered yet. A row that no instance of its queue decodes, as when the row itself does not parse, is parked by
  whoever claimed it (`Protocol.CanKill`).
* The first statement of a sweep, the read of the live set, succeeds; the client looks at the second one's result
  alone (src/queries/reenqueue_orphaned.rs:45).
* The attempt an ack writes is the claimed `attempts` plus one; apalis-core does the addition and is not part
  of this model.
* The ack names the `lock_by` of the claim in the polling backend, and the one set by the lock layer in the
  shared backend (src/lib.rs:282-286, src/shared.rs:241-252). After a failed lock the polling backend still
  acks with an error, the shared backend does not.

Additional hypotheses of mutual exclusion and of what builds on it, both about timing:

* `Exclusion.Timely`: the heartbeat of an instance that has not crashed is never more than the queue's
  smallest window behind the clock.
* `Exclusion.Prompt`: a sweep uses at least that window, and its reset runs less than its window after its read.

There is no hypothesis about codecs. Instances of one queue may decode different payloads (`with_codec`, a
deployment half done), and at most one execution, the bounds on attempts and termination hold all the same. But
parking a job has no guard (queries/task/kill_task.surql:1-7), so a shared instance that cannot decode a payload
may park a job while another instance executes it, or after it is done. Hence every statement that a row names
its holder, or stays as it finished, carries that one exception in its conclusion (`Exclusion.Undercut`,
`Exclusion.SharedRejects`). `Codecs` proves it exact, queue by queue: on timely runs no execution is ever parked
under its holder, and no finished job ever changes its status, if and only if every shared instance of the queue
decodes whatever some instance of the queue decodes. The queue's window has to be positive for that, as for
`Tightness`: with a window of zero a timely run lets no time pass while an instance of the queue is live. Unless it
overflows, a window is zero only when both the configured duration and twice the heartbeat interval are below a
millisecond.

Code and documentation: README.md:9 says that claims being atomic means "two workers never run the same job".
Atomic claims alone do not give this. A sweep can take a job from a worker that is late with its heartbeat, or
that registered after a slow sweep had read the live set. `Tightness.ExclusionExactlyWhenTimely` gives the exact
boundary, for every environment in which two instances can race for a job: with no slack in the timing no job is
ever executed twice at once, and a slack of one tick in either hypothesis admits a run in which one is.

## Model

| member | source | states |
|---|---|---|
| JobTable.First | queries/backend/fetch_next.surql:7 | any non-empty set of rows has one that comes before all the others by priority descending, run_at, id |
| Claims.OrderByRanks | queries/backend/fetch_next.surql:7 | ordering a set of rows lists each of them once, every earlier one before every later one |
| Claims.RankingUnique | queries/backend/fetch_next.surql:7 | the order is total: two rankings of the same rows are the same list, even from tables that differ in status, owner or attempts |
| Claims.BatchIsFront | queries/backend/fetch_next.surql:2-8 | a claim selects the front of the ranking of the due rows, as long as its limit |
| Claims.BatchIsBest | queries/backend/fetch_next.surql:7-8 | a claim takes min(limit, due) rows, and every due row left behind comes after every row taken |
| Claims.ClaimDropsFront | queries/backend/fetch_next.surql:9 | after a claim the due rows are the old ranking without its front, in the same order |
| Claims.ClaimsDrainInOrder | queries/backend/fetch_next.surql:2-9 | at a fixed clock any sequence of claims by any claimants with any limits returns, joined together, the front of the ranking, as far as the limits reach, and leaves the rest due |
| Claims.BatchesDisjoint | queries/backend/fetch_next_shared.surql:2-9 | no two claims of such a sequence return the same row, whether they write an owner or not |
| Scheduling.BetterIsClaimedFirst | queries/backend/fetch_next.surql:7 | of two due rows the one of higher priority, or of equal priority and earlier run_at, or alike in both with the lower id, is taken whenever the other is, and before it |
| Scheduling.HigherPriorityIsClaimedFirst | queries/task/push_tasks.surql:11-12 | over every run, of two due jobs a claim takes the one that was pushed with the higher priority first |
| Scheduling.PushedColumnsStay | queries/task/push_tasks.surql:5-15 | over every run a pushed row is stored pending and due from its run_at on; as long as it is stored its queue, payload, limit, run_at, priority and key are those pushed, and no copy of it exists before the run_at pushed |
| Pushing.KeyTakenInside | queries/task/push_tasks.surql:3-4 | inside the loop a key counts as taken just when the store had it or an earlier row of the batch carried it |
| Pushing.PushLoopMeaning | queries/task/push_tasks.surql:2-17 | the loop keeps every stored job and adds exactly the keyless rows and the first row of each new key; it aborts just when two ids clash |
| Pushing.PushAllOrNothing | queries/task/push_tasks.surql:1-18 | the transaction inserts all of that, or leaves the table as it was |
| Pushing.PushKeepsKeysUnique | queries/task/push_tasks.surql:3-4 | a push never gives two stored jobs the same queue and key |
| Pushing.RepushAddsNothing | queries/task/push_tasks.surql:3-4 | a keyed batch whose keys are all present adds nothing, under any ids |
| StoreObject.Store.Push | queries/task/push_tasks.surql:1-18 | succeeds just when no two of the inserted ids clash, then the table is the old one plus the fresh rows, pending, untouched and with the columns pushed; otherwise it is unchanged |
| StoreObject.Store.ClaimBatch | queries/backend/fetch_next.surql:1-10 | takes only rows of the queues past their run_at that wait unowned or failed with attempts left, and leaves such a row only when the limit is reached; the returned rows are the batch as written, best first |
| StoreObject.Store.Lock | queries/task/lock_task.surql:1-3 | reports an update just when the guard on owner and status held; after it no claim and no further lock takes the job, and only the locking instance's ack is let through |
| StoreObject.Store.Ack | queries/task/ack_task.surql:1-3 | reports an update just when the row names this worker; afterwards still only this worker may ack, a Done or Killed job can be neither claimed nor locked, a Failed one claimed just while it has attempts left |
| StoreObject.Store.Kill | queries/task/kill_task.surql:1-7 | whatever the row was, afterwards no claim, lock, ack or sweep of any instance can touch it, and its fixed columns are as pushed |
| StoreObject.Store.Register | queries/backend/register_worker.surql:1-9 | the instance is at once in every live set of its queue, whatever the window, and the liveness of every other instance is unchanged for every sweep |
| StoreObject.Store.KeepAlive | src/queries/keep_alive.rs:21-37 | refreshes an existing row and only it; reports failure just when the row is gone and then creates none |
| StoreObject.Store.ReadLive | queries/backend/reenqueue_orphaned.surql:1-2 | exactly the instances with a row of the queue seen within the window |
| StoreObject.Store.ResetOrphans | queries/backend/reenqueue_orphaned.surql:3-14 | row by row: in flight, locked at least a window ago and held outside the live set, or queued by nobody, becomes pending, unowned, unlocked and one attempt up; every other row is equal; the count is of the rows that changed |
| StoreObject.Store.PruneDead | queries/backend/reenqueue_orphaned.surql:16-17 | gone are exactly the queue's rows unseen for more than four windows; the sweep's live set is as it was |
| StoreObject.Store.Reenqueue | src/queries/reenqueue_orphaned.rs:35-52 | whatever others do between the three statements and whichever of them fail, the database ends as these make it, the reset going by the live set as it was read first; the count is of the jobs reset, given whether or not the deletion succeeded, and none when the reset failed or the answer was lost |
| StoreObject.Store.ReenqueueAlone | src/queries/reenqueue_orphaned.rs:35-52 | undisturbed and answered, the call leaves exactly the orphaned rows reset, every other job as it was and exactly the dead worker rows gone, and returns the number of jobs it changed |
| StoreObject.Store.InitialHeartbeat | src/queries/keep_alive.rs:40-50 | sweeps first, against the workers of before, then registers; without an answer from the sweep nothing is registered; on success the instance is live for every window |
| StoreObject.Store.VacuumFinished | src/queries/vacuum.rs:21-28 | removes exactly the finished rows and reports how many |
| StoreObject.PruneKeepsLive | queries/backend/reenqueue_orphaned.surql:16-17 | deleting long-dead rows does not change the live set of the same sweep |
| Effects.StepEffect | queries/task/lock_task.surql:1-3 | in every action of the protocol, what a row becomes is exactly what the one statement concerned writes, under that statement's guard |
| Effects.WrittenKeepsSpec | queries/task/push_tasks.surql:5-15 | no statement but the insert writes payload, queue, limit, run_at, priority or key |
| Safety.RunSafe | queries/backend/reenqueue_orphaned.surql:3-14 | the untimed invariant of all runs: rows well formed, owners registered for the job's queue, lock and done times ordered, copies routed to their queue and not early, keys unique |
| Safety.CopiesHaveANextStep | src/lib.rs:57-82 | every copy of a live instance has exactly one way on: locked if decodable, parked if not, acked when executing, acked as an error when its lock failed |
| Safety.HeartbeatMakesLive | queries/backend/keep_alive.surql:1 | a heartbeat puts an instance that has a row in every live set of its queue read at that instant, creates no row and touches nobody else |
| Safety.CrashIsFinal | src/queries/keep_alive.rs:53-70 | after a crash an instance takes no step and has no copy; other instances' copies and the whole database are as they were |
| Safety.PruneForgetsTheDead | queries/backend/reenqueue_orphaned.surql:16-17 | in the protocol the last statement of a sweep forgets exactly its queue's rows unseen for more than four windows; a forgotten instance's heartbeats do nothing until it registers, which makes it live at once |
| Safety.StoreStepsAreOpen | src/queries/reenqueue_orphaned.rs:35-52 | anybody may start a sweep or a vacuum at any time, a started sweep may reset and then prune, an instance may register and heartbeat until it crashes and claim once registered |
| Safety.BrokenRowsAreParked | src/queries/fetch_next_shared.rs:42-50 | a row that nobody decodes is parked for whichever instance the driver drew it |
| Recovery.NoJobIsLost | queries/backend/reenqueue_orphaned.surql:10-14 | every stored job of every run is Done or Killed, claimable, or in flight with a lock time; Running jobs have an owner and every owner serves the queue |
| Recovery.OnlyFinishedJobsVanish | queries/backend/vacuum.surql:1-3 | a stored job disappears only by a vacuum and only when Done or Killed |
| Recovery.NoCopyIsEarly | queries/backend/fetch_next.surql:6 | in no run does a claimed copy exist before its job's run_at, or with an instance of another queue |
| Recovery.LiveSetMeaning | queries/backend/reenqueue_orphaned.surql:1-2 | an instance is in the live set just when its row is of this queue and its last heartbeat within the window |
| Recovery.SweepRemembersRead | queries/backend/reenqueue_orphaned.surql:1-2 | the reset uses the live set as it was read, whatever happened in between |
| Recovery.SweepRecoversExactly | queries/backend/reenqueue_orphaned.surql:1-14 | a sweep whose read and reset are apart makes a job pending, unowned, one attempt up and due at once, just when it is in flight, locked at least a window ago and unowned or owned by an instance unseen at the read; any other job is untouched |
| Recovery.QueuedWaits | queries/backend/fetch_next_shared.surql:9 | over all runs a Queued row, owned or not, is unchanged any number of steps later unless it was locked, acked, parked or re-enqueued |
| Recovery.LostCopiesStayQueued | src/shared.rs:119-127 | in a timely run a task that the shared claim took, a retry with its old owner included, is any number of steps later exactly as the claim wrote it, Queued with its lock time, until locked, parked or re-enqueued; no ack can reach it before |
| Recovery.UnownedWaits | queries/backend/fetch_next_shared.surql:9 | such a task without owner stays exactly as it is, out of reach of claims, acks and vacuums, until it is locked, parked or re-enqueued |
| Fencing.OwnerIsLastWriter | queries/task/lock_task.surql:1 | over every run lock_by tells who claimed or locked the job last, or that nobody did since it was pushed, parked or re-enqueued |
| Fencing.AckIsFenced | src/queries/ack_task.rs:28-40 | an ack takes effect just when the last writer of lock_by was a claim or lock by the worker it names, and then writes its outcome and nothing else; a refused one changes no job |
| Fencing.LockIsFenced | src/queries/lock_task.rs:16-32 | a lock takes effect just when nobody or the same instance wrote lock_by last and the job is not running or finished; a refused one changes no job and leaves the polling backend's copy to be acked as an error, the shared backend's gone |
| Fencing.AcksNameTheirInstance | src/shared.rs:241-252 | on every run of both backends an ack names the very instance that makes it |
| Fencing.ParkedForever | queries/task/kill_task.surql:1-7 | a parked job stays Killed and unowned under every later step until it is vacuumed, and its id never comes back |
| Exclusion.HeldNotStranded | queries/backend/reenqueue_orphaned.surql:10-14 | a reset never takes a job from a running holder, not even one that registered after the live set was read |
| Exclusion.StepGuarded | queries/backend/reenqueue_orphaned.surql:1-17 | whatever the codecs, every action keeps the timed invariant: each exclusive copy owns its job or was undercut, no job has two owners, unfinished sweeps cover the live instances, live rows are not pruned |
| Exclusion.RunGuarded | queries/task/lock_task.surql:1-2 | the timed invariant holds in every state of every timely run |
| Exclusion.MutualExclusion | queries/task/lock_task.surql:1-2 | at most one execution of a job at any time, by an instance registered and not crashed, with no codec hypothesis; while it lasts the row is Running and names the instance, or was parked by a shared instance that cannot decode it |
| Exclusion.PollingCopyIsSole | queries/backend/fetch_next.surql:9 | of the polling backends' copies a job has at most one, executing or not, with no codec hypothesis; its row is in flight and names the holder for as long as the copy lives, with the same exception |
| Exclusion.OwnersAreNeverRefused | src/ack.rs:110-124 | in a timely run a polling copy's lock and an execution's ack are refused if and only if the job was parked under them, which needs a shared instance that cannot decode the payload |
| Tightness.GapBoundIsTight | queries/backend/reenqueue_orphaned.surql:1-12 | in every environment where two instances can race, a reset exactly one window after its read lets some run have both execute one job at once |
| Tightness.HeartbeatBoundIsTight | src/queries/keep_alive.rs:21-37 | so does a heartbeat one tick past a positive window |
| Tightness.TimelyNeverTwice | queries/task/lock_task.surql:1-2 | with no slack no two copies of any job execute at once, in any environment |
| Tightness.ExclusionExactlyWhenTimely | queries/backend/reenqueue_orphaned.surql:1-14 | in every such environment, no run within a lateness and an overrun executes any job twice at once if and only if both are zero |
| Attempts.RunBalanced | src/queries/ack_task.rs:45-57 | the ledger of a job in every state of every timely run on a polling queue: attempts, acks, re-enqueues and locks balance |
| Attempts.ExecutionsAreBounded | src/ack.rs:41-53 | attempts equal acks plus re-enqueues; acks never exceed max(1, max_attempts) and locks never exceed that plus the re-enqueues |
| Attempts.AttemptsNeverExceedSpent | queries/task/ack_task.surql:1-2 | on every run of every backend, with no timing hypothesis, attempts never exceed acks plus re-enqueues, and locks never exceed acks, re-enqueues and parkings plus the execution under way |
| Attempts.RunWithinSpent | src/ack.rs:47 | nor does the count in any client's copy, however stale, exceed what was spent on its job |
| Attempts.RankPaysForEveryWrite | src/queries/ack_task.rs:49-55 | between re-enqueues every step that writes the row lowers its rank (remaining attempts, then phase) and every other step leaves it alone, so it ends Done or Killed after boundedly many writes |
| Terminal.FinishedIsOneNotion | queries/backend/fetch_completed_tasks.surql:2 | on reachable states the waiters' and the vacuum's predicates both mean Done or Killed, and every job is exactly one of finished and still to be worked on |
| Terminal.RetryAgreesWithClaim | src/queries/ack_task.rs:52 | the status of a failed attempt agrees with the claim predicate on every attempt if and only if max_attempts is not negative |
| Terminal.AckRecordsOutcome | src/queries/ack_task.rs:45-57 | every accepted ack of every run leaves the job Done just when the execution succeeded, with its value; an error leaves it claimable while attempts remain and Killed after the last, an abort Killed whatever remains, each with its message |
| Terminal.ResultsFitStatus | src/ack.rs:44-46 | in every state of every run a Done job stores a value and a Failed or Killed one a message |
| Terminal.FinishedIsFinal | src/lib.rs:57-82 | in a timely run a Done or Killed row is not written again before a vacuum removes it, save by a shared instance that cannot decode it; if the queue's codecs agree, that happens only to rows parked before |
| Terminal.FinishedForever | src/queries/ack_task.rs:49-55 | in a timely run a finished job is never claimable again and its id never returns |
| Codecs.NamedExactlyWhenCodecsAgree | queries/task/kill_task.surql:1-7 | on the timely runs of any environment every execution on a queue with a positive window is named by its Running row if and only if every shared instance of the queue decodes whatever some instance of it decodes |
| Codecs.FinalExactlyWhenCodecsAgree | src/lib.rs:57-82 | and exactly then no finished job of the queue changes its status before a vacuum |
| Codecs.ParkedUnderExecution | src/shared.rs:254-262 | wherever codecs disagree on such a queue there is a timely run in which a registered, live shared instance parks, from a stale copy in its channel, the job another instance is executing |
| Codecs.ParkedAfterDone | src/shared.rs:254-262 | and one in which it turns a Done job Killed |
| Idempotency.NoTwoJobsShareAKey | queries/task/push_tasks.surql:3-4 | in no state of any run do two stored jobs share a queue and a key |
| Idempotency.KeysStayTaken | queries/backend/vacuum.surql:1-2 | only a vacuum can free a key |
| Idempotency.RepeatedPushAddsNothing | queries/task/push_tasks.surql:1-18 | pushing a keyed batch again, under any ids and after any steps but a vacuum, leaves the job table as it was |
| TxErrors.ReadingIsUnique | src/queries/mod.rs:57-83 | what an error set means does not depend on the order it is iterated in |
| TxErrors.ConflictIsRecognised | src/queries/mod.rs:47-50 | an error is a conflict if and only if its details say so or its message contains the database's words for one |
| TxErrors.KindsPartition | src/queries/mod.rs:67-73 | a conflict counts as one whatever else it says, and is never noise of a statement that did not run |
| TxErrors.ClassifyTxErrors | src/queries/mod.rs:57-83 | nothing just for no errors; else fail with the lowest-slot real error; else retry the lowest-slot conflict; else fail with the lowest-slot error of a statement that did not run |
| TxRetry.Connection.Attempt | src/queries/push_tasks.rs:62 | one attempt, at an instant of its own, leaves the effect of its transaction at that instant on what it found if it committed, and what it found if it aborted |
| TxRetry.Connection.Retrying | src/queries/push_tasks.rs:60-75 | at most five attempts at ascending instants, all before the last pure conflicts; the last reply decides the result |
| TxRetry.CommittedExactlyOnce | src/queries/mod.rs:38-83 | when every attempt is answered, Ok if and only if exactly one attempt committed, Err if and only if none did |
| TxRetry.NeverCommitsTwice | src/queries/kill_task.rs:22-41 | even with a lost answer no call commits twice |
| TxRetry.EffectOnce | src/queries/push_tasks.rs:60-75 | undisturbed but for time passing, the whole call leaves its transaction's effect, at the instant of its last attempt, once or not at all |
| TxRetry.SettlesOneWay | src/queries/fetch_next.rs:26-41 | the answers alone decide how many attempts are made and what is returned |
| TxRetry.GivesUpAfterFive | src/queries/mod.rs:38 | at most five attempts are made, and a call gives up with a conflict, the last one, if and only if all five were |
| TxClient.Client.PushBatch | src/queries/push_tasks.rs:31-76 | every attempt pushes the same rows, fixed before the first; success means that the deciding attempt left all the fresh ones inserted |
| TxClient.Client.Park | src/queries/kill_task.rs:17-42 | every committed attempt leaves the job Killed, unowned and saying why, and every other row as it was |
| TxClient.ClaimedIsReturned | queries/backend/fetch_next.surql:9 | the rows of a committed claim are the front of the ranking of the due rows, each as the claim left it: Queued, stamped and owned; every other row is as it was |
| TxClient.Client.KeepOrPark | src/queries/fetch_next.rs:44-57 | the claimed rows that decode are returned in claim order, and each of the others is parked by its own retried call whose failure is ignored |
| TxClient.Client.FetchNext | src/queries/fetch_next.rs:17-66 | Ok returns the decodable rows of the claim that committed, as it left them and in rank order, and parks the others; rows which do not parse are an error of a committed claim, any other error is the deciding attempt's; no error parks anything |
| PollFetcher.Fetcher.constructor | src/fetcher.rs:86-102 | a new fetcher is ready, with nothing claimed or handed out |
| PollFetcher.Fetcher.AnswerTick | src/fetcher.rs:128-142 | a tick makes the fetcher ready, the end of the delays ends it |
| PollFetcher.Fetcher.AnswerFetch | src/fetcher.rs:143-158 | an empty claim leads to the delay, a non-empty one is buffered whole, an error ends the stream |
| PollFetcher.Fetcher.PopFront | src/fetcher.rs:159-165 | yields the oldest buffered task and is ready again when it was the last |
| PollFetcher.Fetcher.PollNext | src/fetcher.rs:108-171 | a poll yields the next claimed task not yet handed out; a claim is in flight only when everything claimed before was handed out; failure and end are final and discard nothing; batches are taken over whole in the order the claims answer |
| PollFetcher.PolledGoesByScript | src/fetcher.rs:119-171 | with nothing buffered and no delay on, a poll issues a claim and comes to what it answers: the first task, the failure, or Pending; an empty claim leads to the delay and a tick to the next claim |
| PollFetcher.PolledFromScript | src/fetcher.rs:128-158 | no failure and no end is reported that did not occur |
| PollFetcher.Fetcher.TakePending | src/fetcher.rs:176-181 | hands over exactly what is claimed and not yet yielded |
| PollFetcher.Collect | src/fetcher.rs:108-171 | over any number of polls, handed out plus still buffered is everything claimed, in claim order |
| Sink.BufferedSink.constructor | src/sink.rs:43-51 | a new sink has nothing sent, buffered or in flight |
| Sink.BufferedSink.StartSend | src/sink.rs:76-79 | the item is appended to the buffer and nothing else changes |
| Sink.BufferedSink.PollInsert | src/sink.rs:85-94 | an answer settles the batch in flight and is recorded with it; Pending leaves it in flight |
| Sink.BufferedSink.StartFlush | src/sink.rs:100-105 | the whole buffer becomes one insert in flight |
| Sink.BufferedSink.PollFlush | src/sink.rs:81-107 | terminates; Ready(Ok) means everything sent is in a settled batch and none failed in this call; Ready(Err) reports exactly one failed batch, with its error; every batch in flight or buffered is inserted whole, once and in order |
| SharedDriver.OfQueueSplit | src/shared.rs:119-126 | the part of a claim that goes to one queue, in claim order, splits with the claim |
| SharedDriver.Driver.constructor | src/shared.rs:82-94 | a new driver has no queues and no tasks |
| SharedDriver.Driver.MakeShared | src/shared.rs:158-177 | fails while tasks are being routed or the queue is registered, and never replaces a channel |
| SharedDriver.Driver.BeginRound | src/shared.rs:111-115 | a round claims for the queues registered at its start, at least ten tasks or one a queue |
| SharedDriver.Driver.ClaimAnswered | src/shared.rs:116-119 | the claimed tasks are to be routed, and the account per queue still balances |
| SharedDriver.Driver.ClaimFailed | src/shared.rs:129 | a failed claim ends the round and changes nothing |
| SharedDriver.Driver.RouteNext | src/shared.rs:119-127 | the channel of a claimed task is always there; the task is refused by a closed channel or goes to the end of its own queue's channel, which always has room, and a send that fills the channel has to be flushed before the next |
| SharedDriver.Driver.Flush | src/shared.rs:125 | the driver waits with everything else until the channel it filled has room again or is closed |
| SharedDriver.Driver.EndRound | src/shared.rs:119-128 | when all tasks are routed the registry is free again |
| SharedDriver.Driver.Receive | src/shared.rs:218-226 | a receiver only yields tasks of its queue, and what it has yielded is the front of what was claimed for that queue |
| SharedDriver.Driver.CloseReceiver | src/shared.rs:123-126 | a dropped receiver closes its channel and loses nothing from the account |
| WaitFor.Fetch | queries/backend/fetch_completed_tasks.surql:1-2 | the query returns each finished job among the ids once |
| WaitFor.RoundKeepsPartition | src/queries/wait_for.rs:88-94 | removing the returned ids and reporting them keeps the partition of the requested ids |
| WaitFor.Waiter.constructor | src/queries/wait_for.rs:58-65 | at the start every requested id remains and none is reported |
| WaitFor.Waiter.Next | src/queries/wait_for.rs:65-97 | one round reports every remaining job that is Done, Killed or failed with no attempt left, and no other, each id once over the whole stream, with its stored status; the stream ends just when nothing remains, and without a failed query that is when all are reported; a non-empty round shrinks the rest |
| LivenessWindow.WindowIsExactWhenItFits | src/queries/reenqueue_orphaned.rs:19-32 | the window is max(configured, 2 * keep_alive) in whole milliseconds if and only if that fits in an i64 |
| LivenessWindow.SecondsAreAThousandMillis | src/queries/reenqueue_orphaned.rs:19-32 | a configured window of whole seconds, no shorter than twice the heartbeat interval, comes out as a thousand times as many milliseconds |
| LivenessWindow.WindowCanWrap | src/queries/reenqueue_orphaned.rs:29-31 | a window too long for an i64 can come out negative |
| LivenessWindow.HeartbeatKeepsAlive | src/queries/reenqueue_orphaned.rs:18-32 | a worker less than a millisecond short of two intervals behind is in every live set of its queue |
| LivenessWindow.PruneChangesNoLiveSet | queries/backend/reenqueue_orphaned.surql:16-17 | deleting rows dead for four windows changes no live set read then or later, of any queue, with any window up to four times the sweeper's |
| LivenessWindow.PruneBoundIsTight | queries/backend/reenqueue_orphaned.surql:16-17 | with a window one tick above four times it can |
| Metrics.TotalAny | queries/backend/overview.surql:1-12 | aggregates do not depend on the order the rows are added up in |
| Metrics.QueuesSumToOverview | queries/backend/list_queues.surql:1-13 | the per-queue rows add up field by field to the overview of the same instant |
| Metrics.ColumnsCountRows | queries/backend/overview.surql:2-10 | every column of every scope is the number of the rows it is named for |
| Metrics.DurationsAddUp | queries/backend/overview.surql:11 | the duration column adds up, row by row, the whole seconds from lock to end |
| Metrics.DurationsAreNonNegative | queries/backend/overview.surql:10-11 | on every run each finished job was locked before it was done, so every summed duration is non-negative and the counts are consistent; all columns fit an i64 while the rows, and the rows times the clock's seconds, do |
| Board.Bucket | src/queries/list_queues.rs:95-105 | seven slots a queue, each the count of its day, days outside the range dropped and no index out of bounds |
| Board.ListQueues | src/queries/list_queues.rs:107-140 | every queue with jobs or workers appears once, strictly ascending by name, with exactly its worker rows; a counted queue shows its counts and its days, one known by its workers alone zeros, and activity of any other queue is not listed |
| Board.Values | src/queries/list_queues.rs:140 | the map's entries come out once each, in key order |
| Board.FilterSparesShownDays | queries/backend/list_queues.surql:16-18 | the seven-times-24-hours filter never cuts into the seven calendar days shown |
| Board.SlotCountsItsDay | queries/backend/list_queues.surql:16-18 | slot i is the number of the queue's jobs done on the client's day less 6 - i, for every slot while the client's day is not behind the database's, else for the slots within the database's seven days |
| Board.SecondsNumberDays | src/queries/list_queues.rs:95-98 | dividing the database's seconds of a floored instant, or the client's own seconds, by the seconds of a day numbers the day |

## Left out

* SurrealDB itself: networking, live-query transport, indexes and the schema's constraints.
* Real interleaving inside one transaction or statement: each is one atomic step at one instant, aborted or not.
* Futures, wakers, `select` and `ready_chunks` scheduling, and the worker loop and layers of apalis-core; polls
  are calls whose environment answers Pending or Ready.
* Codecs and payload bytes: an abstract predicate says which instance decodes what, and decoding a claimed row
  and decoding its arguments are one test in the protocol.
* `SurrealLiveFetcher` and its backoff: doubling to a cap, reset by a notification, with no effect on the
  store; the claims it triggers are the protocol's polls.
* Plain reads that filter and page: `fetch_by_id`, `list_tasks`, `list_workers`, `check_status`.
* Logging, Debug and Clone implementations, statistic titles, rounding, and the oldest pending job.
* The columns `metadata`, `storage_name` and `layers`, which nothing here reads.
* Generated ids and the fall-back of `run_at` to the current time: both are inputs of a push.
* Fairness between queues and prompt progress of a shared retry whose owner is another live instance: the code
  promises neither.
* Crash recovery of the database and clocks that go back.
- StoreObject.Store.Reenqueue: takes a non-negative window; when the configured one can come out negative is LivenessWindow.WindowIsExactWhenItFits, and what the database does with a negative duration is not part of this model.
- Attempts.ExecutionsAreBounded: is stated for timely runs of queues served by polling backends alone, because a stale shared copy can write an older count; what holds of every run is Attempts.AttemptsNeverExceedSpent.
- SharedDriver.Driver.MakeShared: takes the channel's capacity to be the buffer size plus one, the slot of the single sender.
- SharedDriver.Driver.ClaimAnswered: assumes that the claim returns only tasks of the queues it was asked for, which is what Recovery.NoCopyIsEarly and JobTable.Batch show of the store.
- Board.ListQueues: assumes one counts row a queue, which one GROUP BY gives; nothing is assumed between the counts, the activity and the workers, which are separate statements.
- Terminal.RetryAgreesWithClaim: the conversions of a stored limit through apalis-sql on the way back to a task are not part of this model.
- PollFetcher.Fetcher.PollNext: does not model how the count of the last claim drives the delay strategy, which belongs to apalis-core.
