/** The database as its clients use it: one method per transaction or statement, each proved to make
    exactly the change its table function describes. */
module StoreObject {
  import opened Wrappers
  import opened JobTable
  import opened Pushing
  import opened Claims

  /** A row of one of the queues, past its run_at, that waits unowned or failed with attempts left. */
  predicate Open(job: Job, queues: set<Queue>, now: Time) {
    && job.queue in queues && job.runAt <= now
    && match job.status
       case Pending => job.lockBy == None
       case Failed => job.attempts < job.maxAttempts
       case _ => false
  }

  /** Nobody may claim, lock or ack the row, and no sweep resets it. */
  ghost predicate Sealed(jobs: Table, id: JobId)
    requires id in jobs
  {
    && !Claimable(jobs[id])
    && (forall v :: !LockGuard(jobs[id], v) && !AckGuard(jobs, id, v))
    && (forall queue, live, window: nat, now :: !Stranded(jobs[id], queue, live, window, now))
  }

  /** Only w may ack the row, and nobody may claim or lock it. */
  ghost predicate ReservedFor(jobs: Table, id: JobId, w: Instance)
    requires id in jobs
  {
    !Claimable(jobs[id]) && forall v :: !LockGuard(jobs[id], v) && (AckGuard(jobs, id, v) <==> v == w)
  }

  /** Every worker row is filed under its own instance. */
  ghost predicate OwnRows(workers: Workers) {
    forall w :: w in workers ==> workers[w].instance == w
  }

  /** Two worker tables give the same answer about v to every sweep. */
  ghost predicate SameLiveness(a: Workers, b: Workers, v: Instance) {
    forall queue, window: nat, now :: v in LiveSet(a, queue, window, now) <==> v in LiveSet(b, queue, window, now)
  }

  /** What a client finds in the database at one instant. */
  datatype View = View(now: Time, jobs: Table, workers: Workers)

  /** Exactly the instances with a row of this queue seen within the window. */
  ghost predicate ReadRight(workers: Workers, live: set<Instance>, queue: Queue, window: nat, now: Time) {
    forall v :: v in live <==>
      exists k :: && k in workers && workers[k].instance == v && workers[k].queue == queue
                  && now <= workers[k].lastSeen + window
  }

  /** What a sweep may take a job for: in flight, locked at least a window ago, and held outside `live` or, if it is
      only queued, by nobody. */
  predicate Orphaned(job: Job, queue: Queue, live: set<Instance>, window: nat, now: Time) {
    && job.queue == queue && job.lockAt.Some? && job.lockAt.value + window <= now
    && (if job.lockBy.Some? then job.status in {Queued, Running} && job.lockBy.value !in live else job.status == Queued)
  }

  /** Orphaned rows are pending again, without owner, lock or finish, one attempt up; every other row is as it was. */
  ghost predicate ResetRight(found: Table, left: Table, queue: Queue, live: set<Instance>, window: nat, now: Time) {
    && left.Keys == found.Keys
    && forall id :: id in found ==>
         if Orphaned(found[id], queue, live, window, now) then
           && SameSpec(left[id], found[id]) && left[id].status == Pending && left[id].attempts == found[id].attempts + 1
           && left[id].lockBy.None? && left[id].lockAt.None? && left[id].doneAt.None?
           && left[id].lastResult == Some(ErrMessage(ORPHAN_MESSAGE))
         else left[id] == found[id]
  }

  /** Gone are the queue's rows unseen for more than four windows, and only they. */
  ghost predicate PruneRight(found: Workers, left: Workers, queue: Queue, window: nat, now: Time) {
    forall w :: if w in found && !(found[w].queue == queue && found[w].lastSeen + 4 * window < now)
                then w in left && left[w] == found[w] else w !in left
  }

  /** The rows that differ. */
  function Changed(found: Table, left: Table): set<JobId> {
    set id | id in found && (id !in left || left[id] != found[id])
  }

  /** Everything about a sweep call that is not its own doing: what others do to the database before the reset and
      before the deletion, whether these take effect, and whether the client gets its answer. */
  datatype SweepWeather = SweepWeather(beforeReset: View -> View, beforePrune: View -> View,
                                       resets: bool, prunes: bool, answers: bool)

  /** What a sweep call that starts in `start` makes of the database and answers; `left` is what its reset left. */
  ghost predicate SweepLeaves(start: View, queue: Queue, window: nat, weather: SweepWeather, live: set<Instance>,
                              left: View, count: Option<nat>, end: View)
  {
    var found, late := weather.beforeReset(start), weather.beforePrune(left);
    && ReadRight(start.workers, live, queue, window, start.now)
    && left == found.(jobs := left.jobs)
    && (if weather.resets then ResetRight(found.jobs, left.jobs, queue, live, window, found.now) else left == found)
    && end == late.(workers := end.workers)
    && (if weather.prunes then PruneRight(late.workers, end.workers, queue, window, late.now) else end == late)
    && count == if weather.resets && weather.answers then Some(|Changed(found.jobs, left.jobs)|) else None
  }

  class Store {
    var now: Time
    var jobs: Table
    var workers: Workers

    constructor ()
      ensures now == 0 && jobs == map[] && workers == map[]
    {
      now, jobs, workers := 0, map[], map[];
    }

    /** The insert loop of one transaction; false when CREATE met an existing id, and then nothing is kept. */
    method Push(rows: seq<PushRow>) returns (ok: bool)
      modifies this`jobs
      ensures ok <==> IdsFree(old(jobs), rows, |rows|)
      ensures ok ==> AddsFresh(old(jobs), rows, |rows|, jobs)
      ensures !ok ==> jobs == old(jobs)
      ensures jobs == PushTasks(old(jobs), rows)
    {
      PushAborts(jobs, rows);
      PushAllOrNothing(jobs, rows);
      var work := jobs;
      for i := 0 to |rows|
        invariant jobs == old(jobs)
        invariant PushLoop(jobs, rows, i) == Some(work)
      {
        if Wanted(work, rows[i]) {
          if rows[i].id in work {
            RefusedForGood(jobs, rows, i + 1, |rows|);
            return false;
          }
          work := work[rows[i].id := NewJob(rows[i])];
        }
      }
      jobs := work;
      ok := true;
    }

    /** Claims a batch of open rows and returns them as written, best first; an open row is left only when the limit
        is reached. */
    method ClaimBatch(queues: set<Queue>, owner: Option<Instance>, limit: nat) returns (rows: seq<(JobId, Job)>)
      modifies this`jobs
      ensures jobs == Claim(old(jobs), queues, owner, limit, now)
      ensures |rows| == |Batch(old(jobs), queues, limit, now)|
      ensures forall i :: 0 <= i < |rows| ==>
                && rows[i].0 == Batch(old(jobs), queues, limit, now)[i]
                && rows[i].0 in jobs && rows[i].1 == jobs[rows[i].0]
                && rows[i].1.status == Queued && rows[i].1.lockAt == Some(now)
                && Open(old(jobs)[rows[i].0], queues, now)
      ensures forall id :: id in old(jobs) && Open(old(jobs)[id], queues, now) && jobs[id] == old(jobs)[id] ==>
                |rows| == limit
    {
      var due := Batch(jobs, queues, limit, now);
      var after := ClaimIds(jobs, due, owner, now);
      BatchIsOpen(jobs, queues, limit, now);
      assert forall i :: 0 <= i < |due| ==> due[i] in due && due[i] in after;
      jobs := after;
      rows := seq(|due|, i requires 0 <= i < |due| && due[i] in after => (due[i], after[due[i]]));
    }

    /** False is the empty update that lock_task reports as a missing task. After a successful lock every other
        lock and every other instance's ack is refused, and no claim takes the job. */
    method Lock(id: JobId, w: Instance) returns (updated: bool)
      modifies this`jobs
      ensures updated <==> id in old(jobs) && LockGuard(old(jobs)[id], w)
      ensures jobs == LockTask(old(jobs), id, w, now)
      ensures updated ==> ReservedFor(jobs, id, w)
    {
      updated := && id in jobs && (jobs[id].lockBy == Some(w) || jobs[id].lockBy.None?)
                 && jobs[id].status in {Queued, Pending, Failed};
      if updated {
        var job := jobs[id];
        jobs := jobs[id := job.(status := Running, lockAt := Some(now), lockBy := Some(w))];
      }
    }

    /** The owner keeps its fence: after an ack it is still the only one whose ack would be let through. A job
        acked Done or Killed can be neither claimed nor locked, one acked Failed can be claimed just while it has
        attempts left. */
    method Ack(id: JobId, w: Instance, status: Status, attempts: nat, result: TaskResult) returns (updated: bool)
      modifies this`jobs
      ensures updated <==> AckGuard(old(jobs), id, w)
      ensures jobs == AckTask(old(jobs), id, w, status, attempts, result, now)
      ensures updated && status in {Done, Killed} ==> ReservedFor(jobs, id, w)
      ensures updated && status == Failed ==>
                && (Claimable(jobs[id]) <==> attempts < jobs[id].maxAttempts)
                && forall v :: (AckGuard(jobs, id, v) <==> v == w) && (LockGuard(jobs[id], v) <==> v == w)
    {
      updated := id in jobs && jobs[id].lockBy == Some(w);
      if updated {
        var job := jobs[id];
        jobs := jobs[id := job.(status := status, attempts := attempts, lastResult := Some(result),
                                doneAt := Some(now))];
      }
    }

    /** Parking has no guard at all, and seals the row: no claim, lock, ack or sweep can touch it again. */
    method Kill(id: JobId, reason: string)
      modifies this`jobs
      ensures jobs == KillTask(old(jobs), id, reason, now)
      ensures id in old(jobs) ==> id in jobs && Sealed(jobs, id) && SameSpec(jobs[id], old(jobs)[id])
    {
      if id in jobs {
        var job := jobs[id];
        jobs := jobs[id := job.(status := Killed, lastResult := Some(ErrMessage(reason)), doneAt := Some(now),
                                lockBy := None, lockAt := None)];
      }
    }

    /** One row per instance: registering again overwrites it. From now on the instance is in every live set of its
        queue that is read at this instant, whatever the window, and no other instance's liveness changes. */
    method Register(w: Instance, name: string, queue: Queue)
      modifies this`workers
      ensures workers == old(workers)[w := WorkerRow(name, queue, w, now, now)]
      ensures forall window: nat :: w in LiveSet(workers, queue, window, now)
      ensures OwnRows(old(workers)) ==>
                OwnRows(workers) && forall v :: v != w ==> SameLiveness(workers, old(workers), v)
    {
      RegisterTouchesOne(workers, WorkerRow(name, queue, w, now, now));
      workers := workers[w := WorkerRow(name, queue, w, now, now)];
    }

    /** False is the empty update that keep_alive reports as a missing worker: a pruned row never comes back. */
    method KeepAlive(w: Instance) returns (updated: bool)
      modifies this`workers
      ensures updated <==> w in old(workers)
      ensures workers.Keys == old(workers).Keys
      ensures forall v :: v in workers ==>
                workers[v] == if v == w then old(workers)[v].(lastSeen := now) else old(workers)[v]
    {
      updated := w in workers;
      if updated {
        workers := workers[w := workers[w].(lastSeen := now)];
      }
    }

    function Now(): View
      reads this
    {
      View(now, jobs, workers)
    }

    /** First statement of a sweep. */
    method ReadLive(queue: Queue, window: nat) returns (live: set<Instance>)
      ensures ReadRight(workers, live, queue, window, now)
    {
      live := LiveSet(workers, queue, window, now);
    }

    /** Second statement. The count is of the rows it changed. */
    method ResetOrphans(queue: Queue, live: set<Instance>, window: nat) returns (count: nat)
      modifies this`jobs
      ensures ResetRight(old(jobs), jobs, queue, live, window, now)
      ensures count == |Changed(old(jobs), jobs)|
    {
      var orphans := set id | id in jobs && Stranded(jobs[id], queue, live, window, now);
      ghost var found := jobs;
      jobs := ResetStranded(jobs, queue, live, window, now);
      assert orphans == Changed(found, jobs);
      count := |orphans|;
    }

    /** Third statement. It changes no live set of its sweep. */
    method PruneDead(queue: Queue, window: nat)
      modifies this`workers
      ensures PruneRight(old(workers), workers, queue, window, now)
      ensures LiveSet(workers, queue, window, now) == LiveSet(old(workers), queue, window, now)
    {
      PruneKeepsLive(workers, queue, window, now);
      workers := PruneWorkers(workers, queue, window, now);
    }

    /** Others leave the database like this. */
    method Leave(view: View)
      modifies this
      ensures Now() == view
    {
      now, jobs, workers := view.now, view.jobs, view.workers;
    }

    /** The three statements of a sweep, with other clients in between. The reset uses the live set as the first
        statement read it. The client looks at the reset's result alone: it gets the count of the jobs reset whether
        or not the deletion succeeded, and none when the reset failed or the answer was lost. */
    method Reenqueue(queue: Queue, window: nat, weather: SweepWeather)
      returns (count: Option<nat>, ghost live: set<Instance>, ghost left: View)
      modifies this
      ensures SweepLeaves(old(Now()), queue, window, weather, live, left, count, Now())
    {
      var seen := ReadLive(queue, window);
      live := seen;
      Leave(weather.beforeReset(Now()));
      var reset := 0;
      if weather.resets { reset := ResetOrphans(queue, seen, window); }
      left := Now();
      Leave(weather.beforePrune(Now()));
      if weather.prunes { PruneDead(queue, window); }
      count := if weather.resets && weather.answers then Some(reset) else None;
    }

    /** A sweep that nobody disturbs and that succeeds. */
    method ReenqueueAlone(queue: Queue, window: nat) returns (count: Option<nat>, ghost live: set<Instance>)
      modifies this
      ensures ReadRight(old(workers), live, queue, window, now) && now == old(now)
      ensures ResetRight(old(jobs), jobs, queue, live, window, now) && count == Some(|Changed(old(jobs), jobs)|)
      ensures PruneRight(old(workers), workers, queue, window, now)
    {
      ghost var left;
      count, live, left := Reenqueue(queue, window, SweepWeather(v => v, v => v, true, true, true));
    }

    /** Sweep first, then register: the live set is read before the new row exists, so it cannot save its own
        queue's orphans by being there. Without an answer from the sweep no registration is tried; on success the
        new instance is live for every window. `between` is what others do in between, `arrives` whether the
        registration takes effect, `answered` whether the client learns of it. */
    method InitialHeartbeat(w: Instance, name: string, queue: Queue, window: nat, weather: SweepWeather,
                            between: View -> View, arrives: bool, answered: bool)
      returns (ok: bool, ghost live: set<Instance>, ghost left: View, ghost count: Option<nat>, ghost swept: View)
      modifies this
      ensures SweepLeaves(old(Now()), queue, window, weather, live, left, count, swept)
      ensures ok <==> count.Some? && arrives && answered
      ensures var found := between(swept);
              Now() == if count.None? then swept
                       else if !arrives then found
                       else found.(workers := found.workers[w := WorkerRow(name, queue, w, found.now, found.now)])
      ensures ok ==> forall window': nat :: w in LiveSet(workers, queue, window', now)
    {
      var c;
      c, live, left := Reenqueue(queue, window, weather);
      count, swept := c, Now();
      if c.None? { return false, live, left, count, swept; }
      Leave(between(Now()));
      if arrives { Register(w, name, queue); }
      ok := arrives && answered;
    }

    method VacuumFinished() returns (deleted: nat)
      modifies this`jobs
      ensures jobs == Vacuum(old(jobs))
      ensures deleted + |jobs| == |old(jobs)|
    {
      var gone := set id | id in jobs && Vacuumable(jobs[id]);
      deleted := |gone|;
      ghost var before := jobs;
      jobs := Vacuum(jobs);
      assert jobs.Keys + gone == before.Keys && jobs.Keys !! gone;
    }
  }

  /** A batch takes only open rows, and leaves one only when the limit is reached. */
  lemma BatchIsOpen(jobs: Table, queues: set<Queue>, limit: nat, now: Time)
    ensures var batch := Batch(jobs, queues, limit, now);
            && (forall id :: id in batch ==> Open(jobs[id], queues, now))
            && (forall id :: id in jobs && Open(jobs[id], queues, now) && id !in batch ==> |batch| == limit)
  {
    var due, batch := DueIds(jobs, queues, now), Batch(jobs, queues, limit, now);
    BatchIsBest(jobs, queues, limit, now);
    if |batch| < limit {
      OrderByRanks(jobs, due);
      assert batch == OrderBy(jobs, due);
      assert forall id :: id in jobs && Open(jobs[id], queues, now) ==> id in due;
    }
  }

  lemma RegisterTouchesOne(workers: Workers, row: WorkerRow)
    ensures var after := workers[row.instance := row];
            && (forall window: nat :: row.instance in LiveSet(after, row.queue, window, row.lastSeen))
            && (OwnRows(workers) ==>
                  OwnRows(after) && forall v :: v != row.instance ==> SameLiveness(after, workers, v))
  {
    var after := workers[row.instance := row];
    forall window: nat
      ensures row.instance in LiveSet(after, row.queue, window, row.lastSeen)
    {
      assert after[row.instance].instance == row.instance;
    }
    if OwnRows(workers) {
      forall v, queue, window: nat, now | v != row.instance
        ensures v in LiveSet(after, queue, window, now) <==> v in LiveSet(workers, queue, window, now)
      {
        assert v in workers ==> after[v] == workers[v];
      }
    }
  }

  lemma PruneKeepsLive(workers: Workers, queue: Queue, window: nat, now: Time)
    ensures LiveSet(PruneWorkers(workers, queue, window, now), queue, window, now)
         == LiveSet(workers, queue, window, now)
  {
    var pruned := PruneWorkers(workers, queue, window, now);
    forall w | w in workers && workers[w].queue == queue && now <= workers[w].lastSeen + window
      ensures workers[w].instance in LiveSet(pruned, queue, window, now)
    {
      assert w in pruned && pruned[w] == workers[w];
    }
  }

  lemma {:induction false} RefusedForGood(jobs: Table, rows: seq<PushRow>, i: nat, n: nat)
    requires i <= n <= |rows| && PushLoop(jobs, rows, i).None?
    ensures PushLoop(jobs, rows, n).None?
    decreases n
  {
    if i == n {
    } else {
      RefusedForGood(jobs, rows, i, n - 1);
    }
  }
}
