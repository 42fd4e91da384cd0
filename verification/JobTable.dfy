/** The `job` and `worker` tables and the meaning of every statement that reads or writes
    them. Each SurrealQL statement is a function from the table before to the table after. */
module JobTable {
  import opened Wrappers

  type Time = nat
  type Queue = string
  type Bytes = seq<bv8>
  /** A ULID. Its canonical text sorts exactly like its number. */
  type JobId = nat
  /** The ULID of one worker run. */
  type Instance = nat

  datatype Status = Pending | Queued | Running | Done | Failed | Killed

  datatype TaskResult = OkValue(value: string) | ErrMessage(message: string)

  datatype Job = Job(
    queue: Queue,
    args: Bytes,
    status: Status,
    attempts: nat,
    maxAttempts: int,
    runAt: Time,
    lastResult: Option<TaskResult>,
    lockAt: Option<Time>,
    lockBy: Option<Instance>,
    doneAt: Option<Time>,
    priority: int,
    key: Option<string>)

  datatype WorkerRow = WorkerRow(name: string, queue: Queue, instance: Instance, startedAt: Time, lastSeen: Time)

  type Table = map<JobId, Job>
  type Workers = map<Instance, WorkerRow>

  const ORPHAN_MESSAGE := "Re-enqueued: locking worker instance is no longer live."

  /** The columns no statement ever writes after the row is created. */
  predicate SameSpec(a: Job, b: Job) {
    && a.queue == b.queue && a.args == b.args && a.maxAttempts == b.maxAttempts
    && a.runAt == b.runAt && a.priority == b.priority && a.key == b.key
  }

  // ---------------------------------------------------------------- claiming

  predicate Claimable(job: Job) {
    || (job.status == Pending && job.lockBy.None?)
    || (job.status == Failed && job.attempts < job.maxAttempts)
  }

  predicate Due(job: Job, queues: set<Queue>, now: Time) {
    job.queue in queues && Claimable(job) && job.runAt <= now
  }

  function DueIds(jobs: Table, queues: set<Queue>, now: Time): set<JobId> {
    set id | id in jobs && Due(jobs[id], queues, now)
  }

  /** ORDER BY priority DESC, run_at ASC, id ASC. */
  predicate Before(jobs: Table, a: JobId, b: JobId) {
    && a in jobs && b in jobs
    && (|| jobs[a].priority > jobs[b].priority
        || (jobs[a].priority == jobs[b].priority
            && (jobs[a].runAt < jobs[b].runAt || (jobs[a].runAt == jobs[b].runAt && a < b))))
  }

  predicate IsFirst(jobs: Table, ids: set<JobId>, x: JobId)
    requires ids <= jobs.Keys
  {
    x in ids && forall y :: y in ids && y != x ==> Before(jobs, x, y)
  }

  lemma FirstExists(jobs: Table, ids: set<JobId>)
    requires ids <= jobs.Keys && ids != {}
    ensures exists x :: IsFirst(jobs, ids, x)
    decreases |ids|
  {
    var a :| a in ids;
    if ids == {a} {
      assert IsFirst(jobs, ids, a);
    } else {
      var rest := ids - {a};
      assert ids == rest + {a};
      FirstExists(jobs, rest);
      var b :| IsFirst(jobs, rest, b);
      assert IsFirst(jobs, ids, if Before(jobs, a, b) then a else b);
    }
  }

  function First(jobs: Table, ids: set<JobId>): (x: JobId)
    requires ids <= jobs.Keys && ids != {}
    ensures IsFirst(jobs, ids, x)
  {
    FirstExists(jobs, ids);
    var x :| IsFirst(jobs, ids, x);
    x
  }

  function OrderBy(jobs: Table, ids: set<JobId>): (r: seq<JobId>)
    requires ids <= jobs.Keys
    ensures |r| == |ids|
    ensures forall id :: id in r <==> id in ids
    decreases |ids|
  {
    if ids == {} then []
    else
      var x := First(jobs, ids);
      assert ids == (ids - {x}) + {x};
      [x] + OrderBy(jobs, ids - {x})
  }

  /** SELECT VALUE id ... ORDER BY ... LIMIT. */
  function Batch(jobs: Table, queues: set<Queue>, limit: nat, now: Time): (ids: seq<JobId>)
    ensures forall id :: id in ids ==> id in jobs && Due(jobs[id], queues, now)
  {
    var ranked := OrderBy(jobs, DueIds(jobs, queues, now));
    assert forall id :: id in ranked ==> id in DueIds(jobs, queues, now);
    if |ranked| <= limit then ranked
    else
      assert forall i :: 0 <= i < limit ==> ranked[i] in ranked;
      ranked[..limit]
  }

  /** An exclusive claim writes its owner; the shared claim leaves the owner column alone. */
  function ClaimRow(job: Job, owner: Option<Instance>, now: Time): Job {
    job.(status := Queued, lockBy := if owner.Some? then owner else job.lockBy, lockAt := Some(now))
  }

  function ClaimIds(jobs: Table, ids: seq<JobId>, owner: Option<Instance>, now: Time): Table {
    map id | id in jobs :: if id in ids then ClaimRow(jobs[id], owner, now) else jobs[id]
  }

  function Claim(jobs: Table, queues: set<Queue>, owner: Option<Instance>, limit: nat, now: Time): Table {
    ClaimIds(jobs, Batch(jobs, queues, limit, now), owner, now)
  }

  // ------------------------------------------------- locking, acking, parking

  predicate LockGuard(job: Job, w: Instance) {
    (job.lockBy == Some(w) || job.lockBy.None?) && job.status in {Queued, Pending, Failed}
  }

  function LockTask(jobs: Table, id: JobId, w: Instance, now: Time): Table {
    if id in jobs && LockGuard(jobs[id], w)
    then jobs[id := jobs[id].(status := Running, lockAt := Some(now), lockBy := Some(w))]
    else jobs
  }

  predicate AckGuard(jobs: Table, id: JobId, w: Instance) {
    id in jobs && jobs[id].lockBy == Some(w)
  }

  function AckTask(jobs: Table, id: JobId, w: Instance, status: Status, attempts: nat, result: TaskResult,
                   now: Time): Table {
    if AckGuard(jobs, id, w)
    then jobs[id := jobs[id].(status := status, attempts := attempts, lastResult := Some(result), doneAt := Some(now))]
    else jobs
  }

  function KillTask(jobs: Table, id: JobId, reason: string, now: Time): Table {
    if id in jobs
    then jobs[id := jobs[id].(status := Killed, lastResult := Some(ErrMessage(reason)), doneAt := Some(now),
                              lockBy := None, lockAt := None)]
    else jobs
  }

  // ------------------------------------------------------------ orphan sweep

  function LiveSet(workers: Workers, queue: Queue, window: nat, now: Time): set<Instance> {
    set w | w in workers && workers[w].queue == queue && now <= workers[w].lastSeen + window :: workers[w].instance
  }

  predicate Stranded(job: Job, queue: Queue, live: set<Instance>, window: nat, now: Time) {
    && job.queue == queue
    && job.lockAt.Some? && job.lockAt.value + window <= now
    && (|| (job.status in {Queued, Running} && job.lockBy.Some? && job.lockBy.value !in live)
        || (job.status == Queued && job.lockBy.None?))
  }

  function ResetRow(job: Job): Job {
    job.(status := Pending, attempts := job.attempts + 1, lockBy := None, lockAt := None, doneAt := None,
         lastResult := Some(ErrMessage(ORPHAN_MESSAGE)))
  }

  function ResetStranded(jobs: Table, queue: Queue, live: set<Instance>, window: nat, now: Time): Table {
    map id | id in jobs :: if Stranded(jobs[id], queue, live, window, now) then ResetRow(jobs[id]) else jobs[id]
  }

  function PruneWorkers(workers: Workers, queue: Queue, window: nat, now: Time): Workers {
    map w | w in workers && !(workers[w].queue == queue && workers[w].lastSeen + window * 4 < now) :: workers[w]
  }

  // ----------------------------------------------------- vacuum and waiting

  predicate Vacuumable(job: Job) {
    job.status in {Done, Killed} || (job.status == Failed && job.attempts >= job.maxAttempts)
  }

  function Vacuum(jobs: Table): Table {
    map id | id in jobs && !Vacuumable(jobs[id]) :: jobs[id]
  }

  /** The WHERE clause of fetch_completed_tasks. */
  predicate Completed(job: Job) {
    job.status == Done || (job.status == Failed && job.attempts >= job.maxAttempts) || job.status == Killed
  }

  // ------------------------------------------------------------------- push

  datatype PushRow = PushRow(id: JobId, args: Bytes, queue: Queue, maxAttempts: int, runAt: Time, priority: int,
                             key: Option<string>)

  function NewJob(row: PushRow): Job {
    Job(row.queue, row.args, Pending, 0, row.maxAttempts, row.runAt, None, None, None, None, row.priority, row.key)
  }

  predicate KeyTaken(jobs: Table, queue: Queue, key: string) {
    exists id :: id in jobs && jobs[id].queue == queue && jobs[id].key == Some(key)
  }

  predicate Wanted(jobs: Table, row: PushRow) {
    row.key.None? || !KeyTaken(jobs, row.queue, row.key.value)
  }

  /** One iteration of the insert loop; None when CREATE meets an existing record id, which aborts the transaction. */
  function PushOne(jobs: Table, row: PushRow): Option<Table> {
    if !Wanted(jobs, row) then Some(jobs)
    else if row.id in jobs then None
    else Some(jobs[row.id := NewJob(row)])
  }

  /** The table after the first n iterations. */
  function PushLoop(jobs: Table, rows: seq<PushRow>, n: nat): Option<Table>
    requires n <= |rows|
  {
    if n == 0 then Some(jobs)
    else
      var before := PushLoop(jobs, rows, n - 1);
      if before.None? then None else PushOne(before.value, rows[n - 1])
  }

  /** The whole transaction: an aborted batch leaves the table as it was. */
  function PushTasks(jobs: Table, rows: seq<PushRow>): Table {
    var r := PushLoop(jobs, rows, |rows|);
    if r.Some? then r.value else jobs
  }
}
