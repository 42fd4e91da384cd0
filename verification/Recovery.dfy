/** No job is lost: what every stored job can still become, and what a sweep does to a stranded one. */
module Recovery {
  import opened Wrappers
  import opened JobTable
  import opened Protocol
  import opened Effects
  import opened Safety
  import opened Exclusion

  predicate InFlight(job: Job) {
    job.status in {Queued, Running}
  }

  /** Every stored job of every run is finished, claimable now or at its run_at, or in flight with a lock
      time and, if anybody holds it, a holder registered for its queue. Timing plays no part. */
  lemma NoJobIsLost(env: Env, r: Run, i: nat, id: JobId)
    requires IsRun(env, r) && i < |r.states| && id in r.states[i].jobs
    ensures var s := r.states[i];
            var job := s.jobs[id];
            && (job.status in {Done, Killed} || Claimable(job) || InFlight(job))
            && (InFlight(job) ==> job.lockAt.Some? && job.runAt <= job.lockAt.value <= s.now)
            && (job.status == Running ==> job.lockBy.Some?)
            && (job.lockBy.Some? ==> job.lockBy.value in s.registeredAt && env.queueOf(job.lockBy.value) == job.queue)
  {
    RunSafe(env, r, i);
    assert JobOk(env, r.states[i], r.states[i].jobs[id]);
  }

  /** A stored job disappears only by a vacuum, and only once it is Done or Killed. */
  lemma OnlyFinishedJobsVanish(env: Env, r: Run, i: nat, id: JobId)
    requires IsRun(env, r) && i < |r.actions| && id in r.states[i].jobs
    ensures id in r.states[i + 1].jobs || (r.actions[i].VacuumJobs? && r.states[i].jobs[id].status in {Done, Killed})
  {
    RunSafe(env, r, i);
    assert JobOk(env, r.states[i], r.states[i].jobs[id]);
    assert StepAt(env, r, i);
    StepEffect(env, r.states[i], r.actions[i], id);
  }

  /** No claimed copy exists before its job's run_at, and copies belong to instances of the job's queue. */
  lemma NoCopyIsEarly(env: Env, r: Run, i: nat, t: Ticket)
    requires IsRun(env, r) && i < |r.states| && t in r.states[i].copies
    ensures var s := r.states[i];
            && s.copies[t].row.runAt <= s.now
            && (t.job in s.jobs ==>
                  s.jobs[t.job].runAt <= s.now && s.jobs[t.job].queue == env.queueOf(s.copies[t].holder))
  {
    RunSafe(env, r, i);
    assert CopyOk(env, r.states[i], t, r.states[i].copies[t]);
  }

  /** When a sweep of this queue with this window read the worker table, this instance was not live. */
  predicate Unseen(workers: Workers, w: Instance, queue: Queue, window: nat, readAt: Time) {
    w !in workers || workers[w].queue != queue || workers[w].lastSeen + window < readAt
  }

  lemma LiveSetMeaning(env: Env, s: State, queue: Queue, window: nat, w: Instance)
    requires Safe(env, s)
    ensures w in LiveSet(s.workers, queue, window, s.now) <==> !Unseen(s.workers, w, queue, window, s.now)
  {
  }

  /** A sweep's record stays as its read left it until its reset runs, whatever else happens. */
  lemma {:induction false} SweepRemembersRead(env: Env, r: Run, i: nat, j: nat, k: nat)
    requires IsRun(env, r) && i < j < |r.states|
    requires r.actions[i].SweepRead? && r.actions[i].k == k
    requires forall m :: i < m < j ==> r.actions[m] != SweepReset(k)
    ensures k in r.states[j].sweeps
    ensures var a, s := r.actions[i], r.states[i];
            var live := LiveSet(s.workers, a.queue, a.window, s.now);
            r.states[j].sweeps[k] == Sweep(a.queue, a.window, live, s.now, false)
    decreases j
  {
    assert StepAt(env, r, j - 1);
    if i == j - 1 {
    } else {
      SweepRemembersRead(env, r, i, j - 1, k);
      SweepStays(env, r.states[j - 1], r.actions[j - 1], k);
    }
  }

  lemma SweepStays(env: Env, s: State, a: Action, k: nat)
    requires Enabled(env, s, a) && a != SweepReset(k) && k in s.sweeps && !s.sweeps[k].reset
    ensures k in Apply(env, s, a).sweeps && Apply(env, s, a).sweeps[k] == s.sweeps[k]
  {
  }

  /** What a sweep that read the worker table in state `read` does to one job when it resets in `s`. */
  ghost predicate SweptExactly(read: State, s: State, queue: Queue, window: nat, job: Job, after: Job)
    requires InFlight(job) ==> job.lockAt.Some?
  {
    if && InFlight(job) && job.lockAt.value + window <= s.now
       && (job.lockBy.Some? ==> Unseen(read.workers, job.lockBy.value, queue, window, read.now))
    then && after.status == Pending && after.lockBy.None? && after.lockAt.None? && after.doneAt.None?
         && after.attempts == job.attempts + 1 && SameSpec(job, after) && Due(after, {queue}, s.now)
    else after == job
  }

  lemma ResetIsExact(env: Env, read: State, s: State, k: nat, id: JobId)
    requires Safe(env, read) && Safe(env, s) && Enabled(env, s, SweepReset(k)) && id in s.jobs
    requires var sw := s.sweeps[k];
             s.jobs[id].queue == sw.queue && sw.live == LiveSet(read.workers, sw.queue, sw.window, read.now)
    ensures InFlight(s.jobs[id]) ==> s.jobs[id].lockAt.Some?
    ensures id in Apply(env, s, SweepReset(k)).jobs
    ensures SweptExactly(read, s, s.sweeps[k].queue, s.sweeps[k].window, s.jobs[id],
                         Apply(env, s, SweepReset(k)).jobs[id])
  {
  }

  /** A sweep, read at step i and reset at step j with anything at all in between, resets a job of its queue
      just when the job is then in flight, was locked at least a window ago, and either nobody holds it or
      the holder's last heartbeat was more than a window before the read. A reset job is pending, unowned,
      one attempt up and due at once; any other job is left exactly as it was. */
  lemma SweepRecoversExactly(env: Env, r: Run, i: nat, j: nat, k: nat, id: JobId)
    requires IsRun(env, r) && i < j < |r.actions|
    requires r.actions[i].SweepRead? && r.actions[i].k == k && r.actions[j] == SweepReset(k)
    requires forall m :: i < m < j ==> r.actions[m] != SweepReset(k)
    requires id in r.states[j].jobs && r.states[j].jobs[id].queue == r.actions[i].queue
    ensures InFlight(r.states[j].jobs[id]) ==> r.states[j].jobs[id].lockAt.Some?
    ensures id in r.states[j + 1].jobs
    ensures SweptExactly(r.states[i], r.states[j], r.actions[i].queue, r.actions[i].window, r.states[j].jobs[id],
                         r.states[j + 1].jobs[id])
  {
    RunSafe(env, r, i);
    RunSafe(env, r, j);
    assert StepAt(env, r, j);
    SweepRemembersRead(env, r, i, j, k);
    ResetIsExact(env, r.states[i], r.states[j], k, id);
  }

  // ------------------------------------------------------- tasks nobody runs

  predicate IsQueued(jobs: Table, id: JobId) {
    id in jobs && jobs[id].status == Queued
  }

  lemma QueuedOnlyTaken(env: Env, s: State, a: Action, id: JobId)
    requires Enabled(env, s, a) && IsQueued(s.jobs, id)
    ensures var change := ChangeOf(env, s, a, id);
            || (change.Unchanged? && id in Apply(env, s, a).jobs && Apply(env, s, a).jobs[id] == s.jobs[id])
            || change.LockedBy? || change.AckedBy? || change.ParkedFor? || change.Requeued?
  {
    StepEffect(env, s, a, id);
  }

  ghost predicate AckedAt(env: Env, r: Run, i: nat, id: JobId)
    requires IsRun(env, r) && i < |r.actions|
  {
    assert StepAt(env, r, i);
    ChangeOf(env, r.states[i], r.actions[i], id).AckedBy?
  }

  /** A Queued row, whoever its owner and whatever became of its copies, waits in the store untouched until it
      is locked, acked, parked or re-enqueued. */
  lemma {:induction false} QueuedWaits(env: Env, r: Run, i: nat, j: nat, id: JobId)
    requires IsRun(env, r) && i <= j < |r.states| && IsQueued(r.states[i].jobs, id)
    requires forall m :: i <= m < j ==> !TakenAt(env, r, m, id) && !AckedAt(env, r, m, id)
    ensures id in r.states[j].jobs && r.states[j].jobs[id] == r.states[i].jobs[id]
    decreases j
  {
    if i == j {
    } else {
      QueuedWaits(env, r, i, j - 1, id);
      assert StepAt(env, r, j - 1);
      assert !TakenAt(env, r, j - 1, id) && !AckedAt(env, r, j - 1, id);
      QueuedOnlyTaken(env, r.states[j - 1], r.actions[j - 1], id);
    }
  }

  /** Nobody holds a copy of the job that entitles to an ack. */
  ghost predicate NoOwner(env: Env, s: State, id: JobId) {
    forall t :: t in s.copies && t.job == id ==> !Exclusive(env, s.copies[t])
  }

  lemma SharedCopyOwnsNothing(env: Env, s: State, a: Action, t: Ticket)
    requires Enabled(env, s, a) && a.SharedPoll? && t !in s.copies && t in Apply(env, s, a).copies
    ensures !Exclusive(env, Apply(env, s, a).copies[t])
  {
    SharedPollMakes(env, s, a.route, a.limit, t);
  }

  lemma OldCopyOwnsNothing(env: Env, s: State, a: Action, t: Ticket)
    requires Safe(env, s) && Guarded(env, s) && Enabled(env, s, a) && a.SharedPoll?
    requires t in s.copies && t in Apply(env, s, a).copies && t.job in s.jobs && Claimable(s.jobs[t.job])
    ensures !Exclusive(env, Apply(env, s, a).copies[t])
  {
    BystanderSame(env, s, a, t);
    if Exclusive(env, s.copies[t]) { OwnedNotClaimable(env, s, t); }
  }

  lemma ClaimedIsClaimable(env: Env, s: State, a: Action, id: JobId)
    requires Enabled(env, s, a) && ChangeOf(env, s, a, id).Claimed?
    ensures id in s.jobs && Claimable(s.jobs[id])
  {
    StepEffect(env, s, a, id);
  }

  lemma SharedClaimHasNoOwner(env: Env, s: State, a: Action, id: JobId)
    requires Safe(env, s) && Guarded(env, s) && Enabled(env, s, a) && a.SharedPoll?
    requires ChangeOf(env, s, a, id).Claimed?
    ensures NoOwner(env, Apply(env, s, a), id)
  {
    ClaimedIsClaimable(env, s, a, id);
    var s' := Apply(env, s, a);
    forall t | t in s'.copies && t.job == id
      ensures !Exclusive(env, s'.copies[t])
    {
      if t in s.copies { OldCopyOwnsNothing(env, s, a, t); } else { SharedCopyOwnsNothing(env, s, a, t); }
    }
  }

  /** While the job is Queued and not locked, no copy that could ack it comes into being. */
  lemma StepKeepsNoOwner(env: Env, s: State, a: Action, id: JobId)
    requires Safe(env, s) && Enabled(env, s, a) && IsQueued(s.jobs, id) && NoOwner(env, s, id)
    requires !ChangeOf(env, s, a, id).LockedBy?
    ensures NoOwner(env, Apply(env, s, a), id) && !ChangeOf(env, s, a, id).AckedBy?
  {
    var s' := Apply(env, s, a);
    forall t | t in s'.copies && t.job == id
      ensures !Exclusive(env, s'.copies[t])
    {
      if t !in s.copies {
        NewCopiesClaimed(env, s, a, t);
        ClaimedWasClaimable(env, s, a, t);
      } else if ActsFor(a, t) {
        ActorSurvives(env, s, a);
      } else {
        BystanderSame(env, s, a, t);
      }
    }
    if a.Ack? && a.t.job == id { assert CopyOk(env, s, a.t, s.copies[a.t]); }
  }

  ghost predicate SharedClaimAt(env: Env, r: Run, i: nat, id: JobId)
    requires IsRun(env, r) && i < |r.actions|
  {
    assert StepAt(env, r, i);
    r.actions[i].SharedPoll? && ChangeOf(env, r.states[i], r.actions[i], id).Claimed?
  }

  /** In a timely run a task that the shared driver claimed stays as the claim wrote it, Queued with the claim's
      lock time, until it is locked, parked or re-enqueued - be it dropped on the way to its worker, refused by a
      closed channel or lost in a crash, and be it a retry whose row still names an earlier owner. No ack can
      reach it before that. */
  lemma {:induction false} LostCopiesStayQueued(env: Env, r: Run, i: nat, j: nat, id: JobId)
    requires IsRun(env, r) && TimelyRun(env, r) && i < j < |r.states| && SharedClaimAt(env, r, i, id)
    requires forall m :: i < m < j ==> !TakenAt(env, r, m, id)
    ensures id in r.states[i].jobs && id in r.states[j].jobs
    ensures r.states[j].jobs[id] == ClaimRow(r.states[i].jobs[id], None, r.states[i].now)
    ensures NoOwner(env, r.states[j], id)
    decreases j
  {
    assert StepAt(env, r, j - 1);
    if i == j - 1 {
      RunGuarded(env, r, i);
      StepEffect(env, r.states[i], r.actions[i], id);
      SharedClaimHasNoOwner(env, r.states[i], r.actions[i], id);
    } else {
      LostCopiesStayQueued(env, r, i, j - 1, id);
      assert !TakenAt(env, r, j - 1, id);
      RunSafe(env, r, j - 1);
      StepKeepsNoOwner(env, r.states[j - 1], r.actions[j - 1], id);
      QueuedOnlyTaken(env, r.states[j - 1], r.actions[j - 1], id);
    }
  }

  predicate QueuedUnowned(jobs: Table, id: JobId) {
    id in jobs && jobs[id].status == Queued && jobs[id].lockBy.None?
  }

  lemma UnownedOnlyTaken(env: Env, s: State, a: Action, id: JobId)
    requires Enabled(env, s, a) && QueuedUnowned(s.jobs, id)
    ensures var change := ChangeOf(env, s, a, id);
            || (change.Unchanged? && id in Apply(env, s, a).jobs && Apply(env, s, a).jobs[id] == s.jobs[id])
            || change.LockedBy? || change.ParkedFor? || change.Requeued?
  {
    StepEffect(env, s, a, id);
  }

  ghost predicate TakenAt(env: Env, r: Run, i: nat, id: JobId)
    requires IsRun(env, r) && i < |r.actions|
  {
    assert StepAt(env, r, i);
    var change := ChangeOf(env, r.states[i], r.actions[i], id);
    change.LockedBy? || change.ParkedFor? || change.Requeued?
  }

  /** A task that the shared driver claimed and nobody owns waits in the store, row untouched - no claim,
      ack or vacuum can reach it - until it is locked, parked or re-enqueued. */
  lemma {:induction false} UnownedWaits(env: Env, r: Run, i: nat, j: nat, id: JobId)
    requires IsRun(env, r) && i <= j < |r.states| && QueuedUnowned(r.states[i].jobs, id)
    requires forall m :: i <= m < j ==> !TakenAt(env, r, m, id)
    ensures id in r.states[j].jobs && r.states[j].jobs[id] == r.states[i].jobs[id]
    decreases j
  {
    if i == j {
    } else {
      UnownedWaits(env, r, i, j - 1, id);
      assert StepAt(env, r, j - 1);
      assert !TakenAt(env, r, j - 1, id);
      UnownedOnlyTaken(env, r.states[j - 1], r.actions[j - 1], id);
    }
  }
}
