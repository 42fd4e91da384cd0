/** What every reachable state satisfies, with no assumption about timing: no job is lost, no copy
    is early or misrouted, and no two stored jobs share an idempotency key. */
module Safety {
  import opened Wrappers
  import opened JobTable
  import opened Protocol
  import opened Effects
  import opened Pushing

  /** Some instance serving the job's queue can decode its payload. */
  ghost predicate Decodable(env: Env, queue: Queue, args: Bytes) {
    exists w :: env.queueOf(w) == queue && env.decodes(w, args)
  }

  ghost predicate HolderOk(env: Env, s: State, job: Job) {
    job.lockBy.Some? ==>
      job.lockAt.Some? && job.lockBy.value in s.registeredAt && env.queueOf(job.lockBy.value) == job.queue
  }

  ghost predicate TimesOk(job: Job, now: Time) {
    && (job.lockAt.Some? ==> job.runAt <= job.lockAt.value <= now)
    && (job.doneAt.Some? ==> job.doneAt.value <= now)
    && (job.status in {Done, Failed, Killed} ==>
          job.doneAt.Some? && (job.lockAt.Some? ==> job.lockAt.value <= job.doneAt.value))
  }

  /** Every job is terminal, claimable, or in flight with a lock time the sweep can judge. */
  ghost predicate PhaseOk(job: Job) {
    && job.maxAttempts >= 0
    && (job.status == Pending ==> job.lockBy.None? && job.lockAt.None?)
    && (job.status == Queued ==> job.lockAt.Some?)
    && (job.status == Running ==> job.lockAt.Some? && job.lockBy.Some?)
    && (job.status == Failed ==> job.lockBy.Some? && job.attempts < job.maxAttempts)
    && (job.status == Killed && job.lockBy.None? ==> job.lockAt.None?)
  }

  /** A job that ever got past its lock, or was acked, had a payload someone could decode. */
  ghost predicate TriedOk(env: Env, job: Job) {
    (job.status in {Running, Done, Failed} || (job.status == Killed && job.lockBy.Some?))
    ==> Decodable(env, job.queue, job.args)
  }

  /** A Done job keeps the value it returned, a Failed or Killed one the message of its error. */
  ghost predicate ResultOk(job: Job) {
    && (job.status == Done ==> job.lastResult.Some? && job.lastResult.value.OkValue?)
    && (job.status in {Failed, Killed} ==> job.lastResult.Some? && job.lastResult.value.ErrMessage?)
  }

  ghost predicate JobOk(env: Env, s: State, job: Job) {
    PhaseOk(job) && ResultOk(job) && HolderOk(env, s, job) && TimesOk(job, s.now) && TriedOk(env, job)
  }

  ghost predicate CopyOk(env: Env, s: State, t: Ticket, c: Copy) {
    && t.claim < s.claims && t.job in s.usedIds
    && env.queueOf(c.holder) == c.row.queue
    && c.row.runAt <= s.now
    && c.row.maxAttempts >= 0
    && (t.job in s.jobs ==> SameSpec(c.row, s.jobs[t.job]))
    && (c.phase != Waiting ==> env.decodes(c.holder, c.row.args))
    && (c.phase != Waiting || env.kindOf(c.holder).PollingBackend? ==>
          c.holder in s.registeredAt && c.holder !in s.crashed)
    && (env.kindOf(c.holder).PollingBackend? ==> c.row.lockBy == Some(c.holder))
    && (c.phase == LockFailed ==> env.kindOf(c.holder).PollingBackend?)
  }

  ghost predicate WorkerOk(env: Env, s: State, w: Instance, row: WorkerRow) {
    && w in s.registeredAt && row.instance == w && row.queue == env.queueOf(w)
    && row.lastSeen <= s.now
  }

  ghost predicate JobsOk(env: Env, s: State) {
    s.jobs.Keys <= s.usedIds && forall id :: id in s.jobs ==> JobOk(env, s, s.jobs[id])
  }

  ghost predicate CopiesOk(env: Env, s: State) {
    forall t :: t in s.copies ==> CopyOk(env, s, t, s.copies[t])
  }

  ghost predicate WorkersOk(env: Env, s: State) {
    && (forall w :: w in s.workers ==> WorkerOk(env, s, w, s.workers[w]))
    && (forall w :: w in s.registeredAt ==> s.registeredAt[w] <= s.now)
    && (forall k :: k in s.sweeps ==> s.sweeps[k].readAt <= s.now)
  }

  ghost predicate Safe(env: Env, s: State) {
    JobsOk(env, s) && CopiesOk(env, s) && WorkersOk(env, s) && KeysUnique(s.jobs)
  }

  // ------------------------------------------------------- one step at a time

  /** What the client side guarantees about a change, beyond the statement's own guard. */
  ghost predicate Justified(env: Env, s: State, change: Change, row: Option<Job>) {
    match change
    case Inserted(job) => job.maxAttempts >= 0
    case Claimed(Some(w)) => w in s.registeredAt && row.Some? && env.queueOf(w) == row.value.queue
    case LockedBy(w) =>
      && w in s.registeredAt && row.Some? && env.queueOf(w) == row.value.queue
      && env.decodes(w, row.value.args) && row.value.runAt <= s.now
    case AckedBy(w, status, attempts, result) =>
      && status in {Done, Failed, Killed} && row.Some? && (status == Done <==> result.OkValue?)
      && (status == Failed ==> attempts < row.value.maxAttempts) && Decodable(env, row.value.queue, row.value.args)
    case _ => true
  }

  lemma LockJustified(env: Env, s: State, a: Action, id: JobId)
    requires Safe(env, s) && Enabled(env, s, a) && (a.Lock? || a.LockError?)
    ensures Justified(env, s, ChangeOf(env, s, a, id), Row(s.jobs, id))
  {
  }

  lemma AckJustified(env: Env, s: State, a: Action, id: JobId)
    requires Safe(env, s) && Enabled(env, s, a) && a.Ack?
    ensures Justified(env, s, ChangeOf(env, s, a, id), Row(s.jobs, id))
  {
  }

  lemma PushJustified(env: Env, s: State, a: Action, id: JobId)
    requires Enabled(env, s, a) && a.Push?
    ensures Justified(env, s, ChangeOf(env, s, a, id), Row(s.jobs, id))
    ensures ChangeOf(env, s, a, id).Inserted? ==> id in Apply(env, s, a).usedIds && id !in s.usedIds
  {
    PushOnlyAdds(s.jobs, a.rows);
  }

  lemma PollJustified(env: Env, s: State, a: Action, id: JobId)
    requires Enabled(env, s, a) && (a.Poll? || a.SharedPoll?)
    ensures Justified(env, s, ChangeOf(env, s, a, id), Row(s.jobs, id))
  {
  }

  lemma StepJustified(env: Env, s: State, a: Action, id: JobId)
    requires Safe(env, s) && Enabled(env, s, a)
    ensures Justified(env, s, ChangeOf(env, s, a, id), Row(s.jobs, id))
  {
    if a.Push? {
      PushJustified(env, s, a, id);
    } else if a.Poll? || a.SharedPoll? {
      PollJustified(env, s, a, id);
    } else if a.Lock? || a.LockError? {
      LockJustified(env, s, a, id);
    } else if a.Ack? {
      AckJustified(env, s, a, id);
    }
  }

  /** A justified change keeps a row well formed. */
  lemma ChangeKeepsJob(env: Env, s: State, s': State, change: Change, row: Option<Job>)
    requires Allowed(change, row, s.now) && Justified(env, s, change, row)
    requires row.Some? ==> JobOk(env, s, row.value)
    requires s.now <= s'.now && forall w :: w in s.registeredAt ==> w in s'.registeredAt
    ensures Written(change, row, s.now).Some? ==> JobOk(env, s', Written(change, row, s.now).value)
  {
  }

  lemma StepKeepsJob(env: Env, s: State, a: Action, id: JobId)
    requires Safe(env, s) && Enabled(env, s, a) && id in Apply(env, s, a).jobs
    ensures JobOk(env, Apply(env, s, a), Apply(env, s, a).jobs[id])
    ensures id in Apply(env, s, a).usedIds
  {
    var s' := Apply(env, s, a);
    var change := ChangeOf(env, s, a, id);
    StepEffect(env, s, a, id);
    StepJustified(env, s, a, id);
    StepGrows(env, s, a);
    ChangeKeepsJob(env, s, s', change, Row(s.jobs, id));
    WrittenKeepsSpec(change, Row(s.jobs, id), s.now);
    if a.Push? { PushJustified(env, s, a, id); }
  }

  lemma StepKeepsJobs(env: Env, s: State, a: Action)
    requires Safe(env, s) && Enabled(env, s, a)
    ensures JobsOk(env, Apply(env, s, a))
  {
    forall id | id in Apply(env, s, a).jobs
      ensures id in Apply(env, s, a).usedIds && JobOk(env, Apply(env, s, a), Apply(env, s, a).jobs[id])
    {
      StepKeepsJob(env, s, a, id);
    }
  }

  /** No step touches the columns fixed at creation, and only a push adds a row, under an unused id. */
  lemma StepKeepsSpecs(env: Env, s: State, a: Action, id: JobId)
    requires Enabled(env, s, a) && id in Apply(env, s, a).jobs
    ensures id in s.jobs ==> SameSpec(s.jobs[id], Apply(env, s, a).jobs[id])
    ensures id !in s.jobs ==> a.Push? && id !in s.usedIds
  {
    StepEffect(env, s, a, id);
    WrittenKeepsSpec(ChangeOf(env, s, a, id), Row(s.jobs, id), s.now);
    if id !in s.jobs { InsertsArePushes(env, s, a, id); }
  }

  lemma InsertsArePushes(env: Env, s: State, a: Action, id: JobId)
    requires Enabled(env, s, a) && ChangeOf(env, s, a, id).Inserted?
    ensures a.Push? && id !in s.usedIds
  {
    if a.Push? { PushOnlyAdds(s.jobs, a.rows); }
  }

  lemma StepKeepsKeysUnique(env: Env, s: State, a: Action)
    requires KeysUnique(s.jobs) && Enabled(env, s, a)
    ensures KeysUnique(Apply(env, s, a).jobs)
  {
    if a.Push? {
      PushKeepsKeysUnique(s.jobs, a.rows);
    } else {
      var s' := Apply(env, s, a);
      forall id | id in s'.jobs
        ensures id in s.jobs && SameSpec(s.jobs[id], s'.jobs[id])
      {
        StepKeepsSpecs(env, s, a, id);
      }
    }
  }

  lemma StepKeepsWorkers(env: Env, s: State, a: Action)
    requires Safe(env, s) && Enabled(env, s, a)
    ensures WorkersOk(env, Apply(env, s, a))
  {
  }

  /** What a step may do to the copies that already exist. */
  ghost predicate CopiesEvolve(env: Env, s: State, s': State) {
    forall t :: t in s'.copies && t in s.copies ==> SameCopy(env, s, s', t, s.copies[t], s'.copies[t])
  }

  ghost predicate SameCopy(env: Env, s: State, s': State, t: Ticket, c: Copy, c': Copy) {
    && c'.holder == c.holder && c'.row == c.row && c.holder !in s'.crashed - s.crashed
    && (c'.phase == c.phase || (c.phase == Waiting && CanLock(env, s, t)
        && (c'.phase == LockFailed ==> env.kindOf(c.holder).PollingBackend?)))
  }

  lemma LockCopies(env: Env, s: State, a: Action)
    requires Enabled(env, s, a) && (a.Lock? || a.LockError?)
    ensures Apply(env, s, a).copies.Keys <= s.copies.Keys
    ensures CopiesEvolve(env, s, Apply(env, s, a))
  {
  }

  lemma OtherCopies(env: Env, s: State, a: Action)
    requires CopiesOk(env, s) && Enabled(env, s, a) && !a.Poll? && !a.SharedPoll? && !a.Lock? && !a.LockError?
    ensures Apply(env, s, a).copies.Keys <= s.copies.Keys
    ensures CopiesEvolve(env, s, Apply(env, s, a))
  {
  }

  lemma StepCopies(env: Env, s: State, a: Action)
    requires CopiesOk(env, s) && Enabled(env, s, a) && !a.Poll? && !a.SharedPoll?
    ensures Apply(env, s, a).copies.Keys <= s.copies.Keys
    ensures CopiesEvolve(env, s, Apply(env, s, a))
  {
    if a.Lock? || a.LockError? { LockCopies(env, s, a); } else { OtherCopies(env, s, a); }
  }

  lemma ClaimCopies(env: Env, s: State, a: Action)
    requires CopiesOk(env, s) && Enabled(env, s, a) && (a.Poll? || a.SharedPoll?)
    ensures CopiesEvolve(env, s, Apply(env, s, a))
  {
  }

  lemma StepGrows(env: Env, s: State, a: Action)
    requires Enabled(env, s, a)
    ensures var s' := Apply(env, s, a);
            && s.now <= s'.now && s.usedIds <= s'.usedIds && s.claims <= s'.claims && s.crashed <= s'.crashed
            && (forall w :: w in s.registeredAt ==> w in s'.registeredAt && s'.registeredAt[w] == s.registeredAt[w])
  {
  }

  lemma OldCopyOk(env: Env, s: State, a: Action, t: Ticket)
    requires Safe(env, s) && Enabled(env, s, a)
    requires t in s.copies && t in Apply(env, s, a).copies
    ensures CopyOk(env, Apply(env, s, a), t, Apply(env, s, a).copies[t])
  {
    var s' := Apply(env, s, a);
    assert CopyOk(env, s, t, s.copies[t]);
    if a.Poll? || a.SharedPoll? { ClaimCopies(env, s, a); } else { StepCopies(env, s, a); }
    assert SameCopy(env, s, s', t, s.copies[t], s'.copies[t]);
    StepGrows(env, s, a);
    if t.job in s'.jobs { StepKeepsSpecs(env, s, a, t.job); }
  }

  /** A fresh copy is the row as the claim left it, of a job that was due. */
  ghost predicate FreshCopy(s: State, queues: set<Queue>, owner: Option<Instance>, holder: Instance, s': State,
                            t: Ticket) {
    && t in s'.copies && t.claim == s.claims && s'.claims == s.claims + 1
    && t.job in s.jobs && Due(s.jobs[t.job], queues, s.now)
    && t.job in s'.jobs && s'.jobs[t.job] == ClaimRow(s.jobs[t.job], owner, s.now)
    && s'.copies[t] == Copy(holder, s'.jobs[t.job], Waiting)
  }

  lemma PollMakes(env: Env, s: State, w: Instance, limit: nat, t: Ticket)
    requires t !in s.copies && t in AfterPoll(env, s, w, limit).copies
    ensures FreshCopy(s, {env.queueOf(w)}, Some(w), w, AfterPoll(env, s, w, limit), t)
  {
  }

  lemma SharedPollMakes(env: Env, s: State, route: map<Queue, Instance>, limit: nat, t: Ticket)
    requires t !in s.copies && t in AfterSharedPoll(env, s, route, limit).copies
    ensures t.job in s.jobs && s.jobs[t.job].queue in route
    ensures FreshCopy(s, route.Keys, None, route[s.jobs[t.job].queue], AfterSharedPoll(env, s, route, limit), t)
  {
  }

  lemma FreshCopyOk(env: Env, s: State, queues: set<Queue>, owner: Option<Instance>, holder: Instance, s': State,
                    t: Ticket)
    requires Safe(env, s) && FreshCopy(s, queues, owner, holder, s', t)
    requires s'.now == s.now && s'.usedIds == s.usedIds && s'.registeredAt == s.registeredAt && s'.crashed == s.crashed
    requires env.queueOf(holder) == s.jobs[t.job].queue
    requires env.kindOf(holder).PollingBackend? ==>
               owner == Some(holder) && holder in s.registeredAt && holder !in s.crashed
    ensures CopyOk(env, s', t, s'.copies[t])
  {
  }

  lemma StepKeepsCopy(env: Env, s: State, a: Action, t: Ticket)
    requires Safe(env, s) && Enabled(env, s, a)
    requires t in Apply(env, s, a).copies
    ensures CopyOk(env, Apply(env, s, a), t, Apply(env, s, a).copies[t])
  {
    if t in s.copies {
      OldCopyOk(env, s, a, t);
    } else if a.Poll? {
      PollMakes(env, s, a.w, a.limit, t);
      FreshCopyOk(env, s, {env.queueOf(a.w)}, Some(a.w), a.w, Apply(env, s, a), t);
    } else if a.SharedPoll? {
      SharedPollMakes(env, s, a.route, a.limit, t);
      FreshCopyOk(env, s, a.route.Keys, None, a.route[s.jobs[t.job].queue], Apply(env, s, a), t);
    } else {
      StepCopies(env, s, a);
      assert false;
    }
  }

  lemma StepSafe(env: Env, s: State, a: Action)
    requires Safe(env, s) && Enabled(env, s, a)
    ensures Safe(env, Apply(env, s, a))
  {
    StepKeepsJobs(env, s, a);
    StepKeepsWorkers(env, s, a);
    StepKeepsKeysUnique(env, s, a);
    forall t | t in Apply(env, s, a).copies
      ensures CopyOk(env, Apply(env, s, a), t, Apply(env, s, a).copies[t])
    {
      StepKeepsCopy(env, s, a, t);
    }
  }

  // --------------------------------------------------------------- next steps

  /** Every copy of a live instance has a next step, and only one: a waiting one is locked if the instance decodes it
      and parked if not, an executing one is acked whatever it came to, one whose lock failed is acked as an error. A
      lock call may fail, committed or not, and any copy may be lost. */
  lemma CopiesHaveANextStep(env: Env, s: State, t: Ticket, outcome: Outcome, reason: string, committed: bool)
    requires t in s.copies && Alive(s, s.copies[t].holder)
    ensures var c := s.copies[t];
            && Enabled(env, s, Lose(t))
            && (Enabled(env, s, Lock(t)) <==> c.phase == Waiting && env.decodes(c.holder, c.row.args))
            && (Enabled(env, s, LockError(t, committed)) <==> Enabled(env, s, Lock(t)))
            && (Enabled(env, s, Kill(t, reason)) <==> c.phase == Waiting && !env.decodes(c.holder, c.row.args))
            && (Enabled(env, s, Ack(t, outcome)) <==>
                  c.phase == Executing || (c.phase == LockFailed && outcome.Errored?))
  {
  }

  /** A row that nobody decodes is parked for whichever instance the driver drew it. */
  lemma BrokenRowsAreParked(env: Env, s: State, t: Ticket, u: Instance, reason: string)
    requires t in s.copies && s.copies[t].phase == Waiting && Alive(s, u) && env.kindOf(u).SharedBackend?
    requires forall w :: env.queueOf(w) == env.queueOf(s.copies[t].holder) ==> !env.decodes(w, s.copies[t].row.args)
    ensures Enabled(env, s, Kill(t, reason))
  {
  }

  /** An instance may register and heartbeat until it crashes and, once registered, claim; anybody may start a sweep
      or a vacuum, a started sweep may reset and one that has reset may prune, and time may pass. */
  lemma StoreStepsAreOpen(env: Env, s: State, w: Instance, name: string, limit: nat, k: nat, queue: Queue, window: nat,
                          to: Time)
    ensures Enabled(env, s, Crash(w)) && Enabled(env, s, VacuumJobs) && (s.now <= to ==> Enabled(env, s, Tick(to)))
    ensures w !in s.crashed ==> Enabled(env, s, Register(w, name)) && Enabled(env, s, Heartbeat(w))
    ensures Alive(s, w) ==> Enabled(env, s, Poll(w, limit))
    ensures Alive(s, w) && env.kindOf(w).SharedBackend? ==> Enabled(env, s, SharedPoll(map[env.queueOf(w) := w], limit))
    ensures k !in s.sweeps ==> Enabled(env, s, SweepRead(k, queue, window))
    ensures k in s.sweeps ==> Enabled(env, s, if s.sweeps[k].reset then SweepPrune(k) else SweepReset(k))
  {
  }

  // ------------------------------------------------------- heartbeat and crash

  /** A heartbeat of an instance that still has its row puts it in every live set of its queue read at that instant;
      one whose row was pruned stays without. Nobody else's row changes. */
  lemma HeartbeatMakesLive(env: Env, s: State, w: Instance, window: nat)
    requires Safe(env, s) && Enabled(env, s, Heartbeat(w))
    ensures var s' := Apply(env, s, Heartbeat(w));
            && (w in s.workers <==> w in LiveSet(s'.workers, env.queueOf(w), window, s'.now))
            && s'.workers.Keys == s.workers.Keys && s'.jobs == s.jobs && s'.copies == s.copies
            && (forall v :: v in s.workers && v != w ==> s'.workers[v] == s.workers[v])
  {
    var s' := Apply(env, s, Heartbeat(w));
    if w in s.workers {
      assert WorkerOk(env, s, w, s.workers[w]);
      assert s'.workers[w].instance == w && s'.workers[w].queue == env.queueOf(w) && s'.workers[w].lastSeen == s'.now;
    } else {
      assert forall v :: v in s.workers ==> WorkerOk(env, s, v, s.workers[v]);
    }
  }

  /** The last statement of a sweep forgets exactly its queue's rows unseen for more than four windows: such an
      instance is in no live set and its heartbeats fail until it registers again, which makes it live at once. */
  lemma PruneForgetsTheDead(env: Env, s: State, k: nat, w: Instance, name: string, window: nat)
    requires Safe(env, s) && Enabled(env, s, SweepPrune(k)) && w !in s.crashed
    ensures var s', sw := Apply(env, s, SweepPrune(k)), s.sweeps[k];
            && (if w in s.workers && !(s.workers[w].queue == sw.queue && s.workers[w].lastSeen + 4 * sw.window < s.now)
                then w in s'.workers && s'.workers[w] == s.workers[w] else w !in s'.workers)
            && (w !in s'.workers ==> Apply(env, s', Heartbeat(w)) == s')
            && s'.jobs == s.jobs && s'.copies == s.copies && k !in s'.sweeps
    ensures var s' := Apply(env, s, Register(w, name));
            w in LiveSet(s'.workers, env.queueOf(w), window, s'.now) && Alive(s', w) && s'.jobs == s.jobs
  {
    var s' := Apply(env, s, Register(w, name));
    assert s'.workers[w].instance == w && s'.workers[w].queue == env.queueOf(w);
  }

  /** After a crash the instance acts no more and all its copies are gone; everybody else's are as they were, and so
      is the whole database. */
  lemma CrashIsFinal(env: Env, s: State, w: Instance, a: Action)
    ensures var s' := Apply(env, s, Crash(w));
            && (forall t :: t in s'.copies <==> t in s.copies && s.copies[t].holder != w)
            && (forall t :: t in s'.copies ==> s'.copies[t] == s.copies[t])
            && s'.jobs == s.jobs && s'.workers == s.workers && s'.registeredAt == s.registeredAt
            && (forall v :: v != w && v in s'.registeredAt && v !in s.crashed ==> v !in s'.crashed)
            && w in s'.crashed
            && (Enabled(env, s', a) ==>
                  && w in Apply(env, s', a).crashed
                  && (a.Poll? || a.Heartbeat? || a.Register? ==> a.w != w)
                  && (a.Lock? || a.LockError? || a.Ack? || a.Kill? ==> s'.copies[a.t].holder != w))
  {
  }

  /** Every state of every run is safe. */
  lemma {:induction false} RunSafe(env: Env, r: Run, i: nat)
    requires IsRun(env, r) && i < |r.states|
    ensures Safe(env, r.states[i])
  {
    if i == 0 {
    } else {
      RunSafe(env, r, i - 1);
      assert StepAt(env, r, i - 1);
      StepSafe(env, r.states[i - 1], r.actions[i - 1]);
    }
  }
}
