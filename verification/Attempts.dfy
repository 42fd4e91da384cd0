/** Bounded execution: what the attempt counter counts, how often a job can be locked, and why a job that is
    not re-enqueued ends Done or Killed. Exactly on timely runs of queues served by polling backends alone;
    from one side on every run of every queue. */
module Attempts {
  import opened Wrappers
  import opened JobTable
  import opened Protocol
  import opened Effects
  import opened Safety
  import opened Exclusion

  ghost predicate PollingQueue(env: Env, queue: Queue) {
    forall w :: env.queueOf(w) == queue ==> env.kindOf(w).PollingBackend?
  }

  datatype Event = AckEvent | RequeueEvent | LockEvent | ParkEvent

  predicate IsEvent(change: Change, event: Event) {
    match event
    case AckEvent => change.AckedBy?
    case RequeueEvent => change.Requeued?
    case LockEvent => change.LockedBy?
    case ParkEvent => change.ParkedFor?
  }

  /** How many of the first i steps did this to the job. Refused acks and locks do not count. */
  ghost function Count(env: Env, r: Run, i: nat, id: JobId, event: Event): nat
    requires IsRun(env, r) && i < |r.states|
  {
    if i == 0 then 0
    else
      assert StepAt(env, r, i - 1);
      var change := ChangeOf(env, r.states[i - 1], r.actions[i - 1], id);
      Count(env, r, i - 1, id, event) + (if IsEvent(change, event) then 1 else 0)
  }

  /** The ledger of one job: its row against its acks, re-enqueues and locks so far. */
  predicate Balanced(job: Job, acks: nat, requeues: nat, locks: nat) {
    && job.attempts == acks + requeues
    && locks <= acks + requeues + (if job.status == Running then 1 else 0)
    && acks <= Max(1, job.maxAttempts)
    && (job.status !in {Done, Killed} ==> acks + 1 <= Max(1, job.maxAttempts))
  }

  /** What a timely polling queue adds to a change: the acked or parked row was in flight, unchanged in its
      attempts since the claim, and a parked one had not been locked. */
  predicate InStep(change: Change, row: Option<Job>) {
    match change
    case AckedBy(_, status, attempts, _) =>
      && row.Some? && row.value.status in {Queued, Running} && attempts == row.value.attempts + 1
      && status in {Done, Failed, Killed} && (status == Failed ==> attempts < row.value.maxAttempts)
    case ParkedFor(_) => row.Some? && row.value.status == Queued
    case LockedBy(_) => row.Some? && row.value.status == Queued
    case _ => true
  }

  lemma ActorHolds(env: Env, s: State, t: Ticket)
    requires Safe(env, s) && Guarded(env, s) && t in s.copies && t.job in s.jobs
    requires PollingQueue(env, s.jobs[t.job].queue)
    ensures env.kindOf(s.copies[t].holder).PollingBackend? && Held(env, s, t, s.copies[t])
  {
  }

  lemma AckInStep(env: Env, s: State, a: Action, id: JobId)
    requires Safe(env, s) && Guarded(env, s) && Enabled(env, s, a) && id in s.jobs && a.Ack?
    requires PollingQueue(env, s.jobs[id].queue)
    ensures InStep(ChangeOf(env, s, a, id), Row(s.jobs, id))
  {
    if a.t.job == id {
      ActorHolds(env, s, a.t);
      AckJustified(env, s, a, id);
    }
  }

  lemma LockOrParkInStep(env: Env, s: State, a: Action, id: JobId)
    requires Safe(env, s) && Guarded(env, s) && Enabled(env, s, a) && id in s.jobs
    requires a.Lock? || a.LockError? || a.Kill?
    requires PollingQueue(env, s.jobs[id].queue)
    ensures InStep(ChangeOf(env, s, a, id), Row(s.jobs, id))
  {
  }

  lemma StepInStep(env: Env, s: State, a: Action, id: JobId)
    requires Safe(env, s) && Guarded(env, s) && Enabled(env, s, a) && id in s.jobs
    requires PollingQueue(env, s.jobs[id].queue)
    ensures InStep(ChangeOf(env, s, a, id), Row(s.jobs, id))
  {
    if a.Ack? {
      AckInStep(env, s, a, id);
    } else if a.Lock? || a.LockError? || a.Kill? {
      LockOrParkInStep(env, s, a, id);
    }
  }

  predicate Counts(change: Change, event: Event, before: nat, after: nat) {
    after == before + (if IsEvent(change, event) then 1 else 0)
  }

  lemma ChangeKeepsBalance(change: Change, row: Option<Job>, now: Time, acks: nat, requeues: nat, locks: nat,
                           acks': nat, requeues': nat, locks': nat)
    requires Allowed(change, row, now) && InStep(change, row)
    requires row.Some? ==> Balanced(row.value, acks, requeues, locks)
    requires row.None? ==> acks == requeues == locks == 0
    requires Counts(change, AckEvent, acks, acks') && Counts(change, RequeueEvent, requeues, requeues')
    requires Counts(change, LockEvent, locks, locks')
    ensures Written(change, row, now).Some? ==> Balanced(Written(change, row, now).value, acks', requeues', locks')
  {
  }

  /** Nothing happens to an id before its job is pushed. */
  lemma {:induction false} NoEventsBeforePush(env: Env, r: Run, i: nat, id: JobId, event: Event)
    requires IsRun(env, r) && i < |r.states| && id !in r.states[i].usedIds
    ensures Count(env, r, i, id, event) == 0
  {
    if i == 0 {
    } else {
      assert StepAt(env, r, i - 1);
      StepGrows(env, r.states[i - 1], r.actions[i - 1]);
      NoEventsBeforePush(env, r, i - 1, id, event);
      RunSafe(env, r, i - 1);
      StepEffect(env, r.states[i - 1], r.actions[i - 1], id);
    }
  }

  /** The ledger of a stored job after one step. */
  lemma StepKeepsBalance(env: Env, s: State, a: Action, id: JobId, acks: nat, requeues: nat, locks: nat,
                         acks': nat, requeues': nat, locks': nat)
    requires Safe(env, s) && Guarded(env, s) && Enabled(env, s, a)
    requires id in Apply(env, s, a).jobs && PollingQueue(env, Apply(env, s, a).jobs[id].queue)
    requires if id in s.jobs then Balanced(s.jobs[id], acks, requeues, locks) else acks == requeues == locks == 0
    requires var change := ChangeOf(env, s, a, id);
             && Counts(change, AckEvent, acks, acks') && Counts(change, RequeueEvent, requeues, requeues')
             && Counts(change, LockEvent, locks, locks')
    ensures Balanced(Apply(env, s, a).jobs[id], acks', requeues', locks')
  {
    StepEffect(env, s, a, id);
    StepKeepsSpecs(env, s, a, id);
    if id in s.jobs { StepInStep(env, s, a, id); }
    var change := ChangeOf(env, s, a, id);
    ChangeKeepsBalance(change, Row(s.jobs, id), s.now, acks, requeues, locks, acks', requeues', locks');
  }

  lemma {:induction false} RunBalanced(env: Env, r: Run, i: nat, id: JobId)
    requires IsRun(env, r) && TimelyRun(env, r) && i < |r.states|
    requires id in r.states[i].jobs && PollingQueue(env, r.states[i].jobs[id].queue)
    ensures Balanced(r.states[i].jobs[id], Count(env, r, i, id, AckEvent), Count(env, r, i, id, RequeueEvent),
                     Count(env, r, i, id, LockEvent))
  {
    if i == 0 {
    } else {
      var s, a := r.states[i - 1], r.actions[i - 1];
      assert StepAt(env, r, i - 1);
      RunGuarded(env, r, i - 1);
      StepKeepsSpecs(env, s, a, id);
      if id in s.jobs {
        RunBalanced(env, r, i - 1, id);
      } else {
        NoEventsBeforePush(env, r, i - 1, id, AckEvent);
        NoEventsBeforePush(env, r, i - 1, id, RequeueEvent);
        NoEventsBeforePush(env, r, i - 1, id, LockEvent);
      }
      StepKeepsBalance(env, s, a, id,
        Count(env, r, i - 1, id, AckEvent), Count(env, r, i - 1, id, RequeueEvent), Count(env, r, i - 1, id, LockEvent),
        Count(env, r, i, id, AckEvent), Count(env, r, i, id, RequeueEvent), Count(env, r, i, id, LockEvent));
    }
  }

  /** Stored attempts are exactly the acks plus the re-enqueues; a job is acked at most max(1, max_attempts)
      times and locked at most that often plus once for each re-enqueue. */
  lemma ExecutionsAreBounded(env: Env, r: Run, i: nat, id: JobId)
    requires IsRun(env, r) && TimelyRun(env, r) && i < |r.states|
    requires id in r.states[i].jobs && PollingQueue(env, r.states[i].jobs[id].queue)
    ensures var job := r.states[i].jobs[id];
            && job.attempts == Count(env, r, i, id, AckEvent) + Count(env, r, i, id, RequeueEvent)
            && Count(env, r, i, id, AckEvent) <= Max(1, job.maxAttempts)
            && Count(env, r, i, id, LockEvent) <= Max(1, job.maxAttempts) + Count(env, r, i, id, RequeueEvent)
  {
    RunBalanced(env, r, i, id);
  }

  // ------------------------------------------------------- every run, every queue

  /** The steps that may have counted one attempt. */
  ghost function Spent(env: Env, r: Run, i: nat, id: JobId): nat
    requires IsRun(env, r) && i < |r.states|
  {
    Count(env, r, i, id, AckEvent) + Count(env, r, i, id, RequeueEvent)
  }

  /** Neither a row nor a copy, however stale, counts more attempts than were spent on its job. */
  ghost predicate WithinSpent(env: Env, r: Run, i: nat)
    requires IsRun(env, r) && i < |r.states|
  {
    && (forall id :: id in r.states[i].jobs ==> r.states[i].jobs[id].attempts <= Spent(env, r, i, id))
    && (forall t :: t in r.states[i].copies ==> r.states[i].copies[t].row.attempts <= Spent(env, r, i, t.job))
  }

  lemma RowWithinSpent(env: Env, r: Run, i: nat, id: JobId)
    requires IsRun(env, r) && 0 < i < |r.states| && WithinSpent(env, r, i - 1) && id in r.states[i].jobs
    ensures r.states[i].jobs[id].attempts <= Spent(env, r, i, id)
  {
    assert StepAt(env, r, i - 1);
    StepEffect(env, r.states[i - 1], r.actions[i - 1], id);
  }

  /** A copy keeps its row, and a new one is the row as stored. */
  lemma CopyKeepsRow(env: Env, s: State, a: Action, t: Ticket)
    requires CopiesOk(env, s) && Enabled(env, s, a) && t in Apply(env, s, a).copies
    ensures var s' := Apply(env, s, a);
            if t in s.copies then s'.copies[t].row == s.copies[t].row
            else t.job in s'.jobs && s'.copies[t].row == s'.jobs[t.job]
  {
    if t in s.copies {
      if a.Poll? || a.SharedPoll? { ClaimCopies(env, s, a); } else { StepCopies(env, s, a); }
      assert SameCopy(env, s, Apply(env, s, a), t, s.copies[t], Apply(env, s, a).copies[t]);
    } else {
      NewCopiesClaimed(env, s, a, t);
      if a.Poll? { PollMakes(env, s, a.w, a.limit, t); } else { SharedPollMakes(env, s, a.route, a.limit, t); }
    }
  }

  lemma CopyWithinSpent(env: Env, r: Run, i: nat, t: Ticket)
    requires IsRun(env, r) && 0 < i < |r.states| && WithinSpent(env, r, i - 1) && t in r.states[i].copies
    ensures r.states[i].copies[t].row.attempts <= Spent(env, r, i, t.job)
  {
    assert StepAt(env, r, i - 1);
    RunSafe(env, r, i - 1);
    CopyKeepsRow(env, r.states[i - 1], r.actions[i - 1], t);
    if t !in r.states[i - 1].copies { RowWithinSpent(env, r, i, t.job); }
  }

  lemma {:induction false} RunWithinSpent(env: Env, r: Run, i: nat)
    requires IsRun(env, r) && i < |r.states|
    ensures WithinSpent(env, r, i)
  {
    if i == 0 {
    } else {
      RunWithinSpent(env, r, i - 1);
      forall id | id in r.states[i].jobs
        ensures r.states[i].jobs[id].attempts <= Spent(env, r, i, id)
      {
        RowWithinSpent(env, r, i, id);
      }
      forall t | t in r.states[i].copies
        ensures r.states[i].copies[t].row.attempts <= Spent(env, r, i, t.job)
      {
        CopyWithinSpent(env, r, i, t);
      }
    }
  }

  /** A lock is paid for by what ends the execution it starts. */
  predicate LocksPaid(job: Job, acks: nat, requeues: nat, parks: nat, locks: nat) {
    locks <= acks + requeues + parks + (if job.status == Running then 1 else 0)
  }

  lemma ChangeKeepsLocksPaid(change: Change, row: Option<Job>, now: Time, acks: nat, requeues: nat, parks: nat,
                             locks: nat, acks': nat, requeues': nat, parks': nat, locks': nat)
    requires Allowed(change, row, now)
    requires if row.Some? then LocksPaid(row.value, acks, requeues, parks, locks) else locks == 0
    requires Counts(change, AckEvent, acks, acks') && Counts(change, RequeueEvent, requeues, requeues')
    requires Counts(change, ParkEvent, parks, parks') && Counts(change, LockEvent, locks, locks')
    ensures Written(change, row, now).Some? ==>
              LocksPaid(Written(change, row, now).value, acks', requeues', parks', locks')
  {
  }

  lemma {:induction false} RunLocksPaid(env: Env, r: Run, i: nat, id: JobId)
    requires IsRun(env, r) && i < |r.states| && id in r.states[i].jobs
    ensures LocksPaid(r.states[i].jobs[id], Count(env, r, i, id, AckEvent), Count(env, r, i, id, RequeueEvent),
                      Count(env, r, i, id, ParkEvent), Count(env, r, i, id, LockEvent))
  {
    if i == 0 {
    } else {
      var s, a := r.states[i - 1], r.actions[i - 1];
      assert StepAt(env, r, i - 1);
      StepKeepsSpecs(env, s, a, id);
      if id in s.jobs { RunLocksPaid(env, r, i - 1, id); } else { NoEventsBeforePush(env, r, i - 1, id, LockEvent); }
      StepEffect(env, s, a, id);
      ChangeKeepsLocksPaid(ChangeOf(env, s, a, id), Row(s.jobs, id), s.now,
        Count(env, r, i - 1, id, AckEvent), Count(env, r, i - 1, id, RequeueEvent),
        Count(env, r, i - 1, id, ParkEvent), Count(env, r, i - 1, id, LockEvent),
        Count(env, r, i, id, AckEvent), Count(env, r, i, id, RequeueEvent),
        Count(env, r, i, id, ParkEvent), Count(env, r, i, id, LockEvent));
    }
  }

  /** On every run, whatever the backend, the codecs and the timing: stored attempts never exceed the acks and
      re-enqueues, and successful locks never exceed those and the parkings, but for an execution under way. */
  lemma AttemptsNeverExceedSpent(env: Env, r: Run, i: nat, id: JobId)
    requires IsRun(env, r) && i < |r.states| && id in r.states[i].jobs
    ensures var job := r.states[i].jobs[id];
            && job.attempts <= Count(env, r, i, id, AckEvent) + Count(env, r, i, id, RequeueEvent)
            && Count(env, r, i, id, LockEvent)
               <= Count(env, r, i, id, AckEvent) + Count(env, r, i, id, RequeueEvent) + Count(env, r, i, id, ParkEvent)
                  + (if job.status == Running then 1 else 0)
  {
    RunWithinSpent(env, r, i);
    RunLocksPaid(env, r, i, id);
  }

  // ------------------------------------------------------------- termination

  /** Remaining attempts first, then how far the current attempt has come; zero when finished. */
  function Rank(job: Job): nat {
    if job.status in {Done, Killed} then 0
    else
      var remaining := Max(0, job.maxAttempts - job.attempts);
      4 * remaining + (match job.status case Queued => 2 case Running => 1 case _ => 3)
  }

  lemma ChangeLowersRank(change: Change, row: Option<Job>, now: Time)
    requires Allowed(change, row, now) && InStep(change, row) && row.Some?
    requires !change.Unchanged? && !change.Requeued?
    ensures Written(change, row, now).Some? ==> Rank(Written(change, row, now).value) < Rank(row.value)
  {
  }

  /** How many of the steps i..j wrote the job's row. */
  ghost function Writes(env: Env, r: Run, i: nat, j: nat, id: JobId): nat
    requires IsRun(env, r) && i <= j < |r.states|
    decreases j
  {
    if i == j then 0
    else
      assert StepAt(env, r, j - 1);
      Writes(env, r, i, j - 1, id) + (if ChangeOf(env, r.states[j - 1], r.actions[j - 1], id).Unchanged? then 0 else 1)
  }

  lemma StepPaysRank(env: Env, s: State, a: Action, id: JobId)
    requires Safe(env, s) && Guarded(env, s) && Enabled(env, s, a)
    requires id in s.jobs && id in Apply(env, s, a).jobs && PollingQueue(env, s.jobs[id].queue)
    requires !ChangeOf(env, s, a, id).Requeued?
    ensures if ChangeOf(env, s, a, id).Unchanged? then Apply(env, s, a).jobs[id] == s.jobs[id]
            else Rank(Apply(env, s, a).jobs[id]) < Rank(s.jobs[id])
    ensures Apply(env, s, a).jobs[id].queue == s.jobs[id].queue
  {
    StepEffect(env, s, a, id);
    StepKeepsSpecs(env, s, a, id);
    StepInStep(env, s, a, id);
    var change := ChangeOf(env, s, a, id);
    if !change.Unchanged? { ChangeLowersRank(change, Row(s.jobs, id), s.now); }
  }

  ghost predicate RequeuedAt(env: Env, r: Run, i: nat, id: JobId)
    requires IsRun(env, r) && i < |r.actions|
  {
    assert StepAt(env, r, i);
    ChangeOf(env, r.states[i], r.actions[i], id).Requeued?
  }

  /** While a job is stored and not re-enqueued, every step that writes its row lowers its rank and every
      other step leaves the row alone: so at most Rank steps can write it before it is Done or Killed. */
  lemma {:induction false} RankPaysForEveryWrite(env: Env, r: Run, i: nat, j: nat, id: JobId)
    requires IsRun(env, r) && TimelyRun(env, r) && i <= j < |r.states|
    requires forall m :: i <= m <= j ==> id in r.states[m].jobs
    requires forall m :: i <= m < j ==> !RequeuedAt(env, r, m, id)
    requires PollingQueue(env, r.states[i].jobs[id].queue)
    ensures r.states[j].jobs[id].queue == r.states[i].jobs[id].queue
    ensures Writes(env, r, i, j, id) + Rank(r.states[j].jobs[id]) <= Rank(r.states[i].jobs[id])
    decreases j
  {
    if i == j {
    } else {
      RankPaysForEveryWrite(env, r, i, j - 1, id);
      assert StepAt(env, r, j - 1);
      assert !RequeuedAt(env, r, j - 1, id);
      RunGuarded(env, r, j - 1);
      StepPaysRank(env, r.states[j - 1], r.actions[j - 1], id);
    }
  }
}
