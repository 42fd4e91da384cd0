/** What one step of the protocol does to one row of the job table. */
module Effects {
  import opened Wrappers
  import opened JobTable
  import opened Protocol
  import opened Pushing

  /** The ways a step can write a job row, with what the statement wrote. */
  datatype Change =
    | Unchanged
    | Inserted(job: Job)
    | Claimed(owner: Option<Instance>)
    | LockedBy(w: Instance)
    | AckedBy(w: Instance, status: Status, attempts: nat, result: TaskResult)
    | ParkedFor(reason: string)
    | Requeued
    | Vacuumed

  function Row(jobs: Table, id: JobId): Option<Job> {
    if id in jobs then Some(jobs[id]) else None
  }

  function LockChange(s: State, t: Ticket, id: JobId): Change
    requires t in s.copies
  {
    var w := s.copies[t].holder;
    if t.job == id && id in s.jobs && LockGuard(s.jobs[id], w) then LockedBy(w) else Unchanged
  }

  function AckChange(env: Env, s: State, t: Ticket, outcome: Outcome, id: JobId): Change
    requires t in s.copies
  {
    var c := s.copies[t];
    var w, attempt := AckWorker(env, c), c.row.attempts + 1;
    if t.job == id && w.Some? && AckGuard(s.jobs, id, w.value)
    then AckedBy(w.value, CalculateStatus(c.row.maxAttempts, attempt, outcome), attempt, ResultOf(outcome))
    else Unchanged
  }

  ghost function ChangeOf(env: Env, s: State, a: Action, id: JobId): Change
    requires Enabled(env, s, a)
  {
    match a
    case Push(rows) =>
      var after := PushTasks(s.jobs, rows);
      if id !in s.jobs && id in after then Inserted(after[id]) else Unchanged
    case Poll(w, limit) => if id in Batch(s.jobs, {env.queueOf(w)}, limit, s.now) then Claimed(Some(w)) else Unchanged
    case SharedPoll(route, limit) => if id in Batch(s.jobs, route.Keys, limit, s.now) then Claimed(None) else Unchanged
    case Lock(t) => LockChange(s, t, id)
    case LockError(t, committed) => if committed then LockChange(s, t, id) else Unchanged
    case Ack(t, outcome) => AckChange(env, s, t, outcome, id)
    case Kill(t, reason) => if t.job == id && id in s.jobs then ParkedFor(reason) else Unchanged
    case SweepReset(k) =>
      var sw := s.sweeps[k];
      if id in s.jobs && Stranded(s.jobs[id], sw.queue, sw.live, sw.window, s.now) then Requeued else Unchanged
    case VacuumJobs => if id in s.jobs && Vacuumable(s.jobs[id]) then Vacuumed else Unchanged
    case _ => Unchanged
  }

  /** The condition under which a statement writes the row at all. */
  predicate Allowed(change: Change, row: Option<Job>, now: Time) {
    match change
    case Unchanged => true
    case Inserted(job) =>
      && row.None? && job.status == Pending && job.attempts == 0
      && job.lockBy.None? && job.lockAt.None? && job.doneAt.None?
    case Claimed(_) => row.Some? && Claimable(row.value) && row.value.runAt <= now
    case LockedBy(w) => row.Some? && LockGuard(row.value, w)
    case AckedBy(w, _, _, _) => row.Some? && row.value.lockBy == Some(w)
    case ParkedFor(_) => row.Some?
    case Requeued => row.Some? && row.value.status in {Queued, Running} && row.value.lockAt.Some?
    case Vacuumed => row.Some? && Vacuumable(row.value)
  }

  /** What it writes. */
  function Written(change: Change, row: Option<Job>, now: Time): Option<Job>
    requires Allowed(change, row, now)
  {
    match change
    case Unchanged => row
    case Inserted(job) => Some(job)
    case Claimed(owner) => Some(ClaimRow(row.value, owner, now))
    case LockedBy(w) => Some(row.value.(status := Running, lockAt := Some(now), lockBy := Some(w)))
    case AckedBy(w, status, attempts, result) =>
      Some(row.value.(status := status, attempts := attempts, lastResult := Some(result), doneAt := Some(now)))
    case ParkedFor(reason) =>
      Some(row.value.(status := Killed, lastResult := Some(ErrMessage(reason)), doneAt := Some(now),
                      lockBy := None, lockAt := None))
    case Requeued => Some(ResetRow(row.value))
    case Vacuumed => None
  }

  /** The row after the step is what the change writes. */
  ghost predicate Effect(env: Env, s: State, a: Action, id: JobId)
    requires Enabled(env, s, a)
  {
    var change := ChangeOf(env, s, a, id);
    && Allowed(change, Row(s.jobs, id), s.now)
    && Row(Apply(env, s, a).jobs, id) == Written(change, Row(s.jobs, id), s.now)
  }

  lemma PushEffect(env: Env, s: State, rows: seq<PushRow>, id: JobId)
    requires Enabled(env, s, Push(rows))
    ensures Effect(env, s, Push(rows), id)
  {
    PushOnlyAdds(s.jobs, rows);
  }

  lemma LockEffect(env: Env, s: State, a: Action, id: JobId)
    requires Enabled(env, s, a) && (a.Lock? || a.LockError?)
    ensures Effect(env, s, a, id)
  {
  }

  lemma AckEffect(env: Env, s: State, a: Action, id: JobId)
    requires Enabled(env, s, a) && (a.Ack? || a.Kill?)
    ensures Effect(env, s, a, id)
  {
  }

  lemma PollEffect(env: Env, s: State, a: Action, id: JobId)
    requires Enabled(env, s, a) && a.Poll?
    ensures Effect(env, s, a, id)
  {
  }

  lemma SharedPollEffect(env: Env, s: State, a: Action, id: JobId)
    requires Enabled(env, s, a) && a.SharedPoll?
    ensures Effect(env, s, a, id)
  {
  }

  lemma StoreEffect(env: Env, s: State, a: Action, id: JobId)
    requires Enabled(env, s, a) && (a.SweepReset? || a.VacuumJobs?)
    ensures Effect(env, s, a, id)
  {
  }

  /** The steps that write no job row at all. */
  predicate JobFree(a: Action) {
    a.Lose? || a.Register? || a.Heartbeat? || a.Crash? || a.SweepRead? || a.SweepPrune? || a.Tick?
  }

  lemma NoEffect(env: Env, s: State, a: Action, id: JobId)
    requires Enabled(env, s, a) && JobFree(a)
    ensures Effect(env, s, a, id) && ChangeOf(env, s, a, id).Unchanged? && Apply(env, s, a).jobs == s.jobs
  {
  }

  /** Every step writes a row as its change says. */
  lemma StepEffect(env: Env, s: State, a: Action, id: JobId)
    requires Enabled(env, s, a)
    ensures Effect(env, s, a, id)
  {
    if a.Push? {
      PushEffect(env, s, a.rows, id);
    } else if a.Poll? {
      PollEffect(env, s, a, id);
    } else if a.SharedPoll? {
      SharedPollEffect(env, s, a, id);
    } else if a.Lock? || a.LockError? {
      LockEffect(env, s, a, id);
    } else if a.Ack? || a.Kill? {
      AckEffect(env, s, a, id);
    } else if a.SweepReset? || a.VacuumJobs? {
      StoreEffect(env, s, a, id);
    } else {
      NoEffect(env, s, a, id);
    }
  }

  /** No change touches the columns fixed at creation. */
  lemma WrittenKeepsSpec(change: Change, row: Option<Job>, now: Time)
    requires Allowed(change, row, now)
    ensures row.Some? && Written(change, row, now).Some? ==> SameSpec(row.value, Written(change, row, now).value)
    ensures row.None? && Written(change, row, now).Some? ==> change.Inserted?
  {
  }
}
