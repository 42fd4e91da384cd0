/** Ownership fencing, with no assumption about timing. */
module Fencing {
  import opened Wrappers
  import opened JobTable
  import opened Protocol
  import opened Safety
  import opened Effects

  /** Who wrote a job's lock_by last, and how. */
  datatype Writer = Nobody | ByClaim(w: Instance) | ByLock(w: Instance)

  function OwnerOf(writer: Writer): Option<Instance> {
    match writer
    case Nobody => None
    case ByClaim(w) => Some(w)
    case ByLock(w) => Some(w)
  }

  /** The writer after one change. Acks and shared claims write no owner. */
  function WriterAfter(change: Change, before: Writer): Writer {
    match change
    case Claimed(Some(w)) => ByClaim(w)
    case LockedBy(w) => ByLock(w)
    case Inserted(_) => Nobody
    case ParkedFor(_) => Nobody
    case Requeued => Nobody
    case _ => before
  }

  /** Who wrote the job's owner last before state i. */
  ghost function LastWriter(env: Env, r: Run, i: nat, id: JobId): Writer
    requires IsRun(env, r) && i < |r.states|
  {
    if i == 0 then Nobody
    else
      assert StepAt(env, r, i - 1);
      WriterAfter(ChangeOf(env, r.states[i - 1], r.actions[i - 1], id), LastWriter(env, r, i - 1, id))
  }

  lemma StepWritesOwner(env: Env, s: State, a: Action, id: JobId, before: Writer)
    requires Enabled(env, s, a) && id in Apply(env, s, a).jobs
    requires id in s.jobs ==> s.jobs[id].lockBy == OwnerOf(before)
    ensures Apply(env, s, a).jobs[id].lockBy == OwnerOf(WriterAfter(ChangeOf(env, s, a, id), before))
  {
    StepEffect(env, s, a, id);
  }

  /** The store's owner column always tells who claimed or locked the job last. */
  lemma {:induction false} OwnerIsLastWriter(env: Env, r: Run, i: nat, id: JobId)
    requires IsRun(env, r) && i < |r.states| && id in r.states[i].jobs
    ensures r.states[i].jobs[id].lockBy == OwnerOf(LastWriter(env, r, i, id))
  {
    if i == 0 {
    } else {
      if id in r.states[i - 1].jobs { OwnerIsLastWriter(env, r, i - 1, id); }
      assert StepAt(env, r, i - 1);
      StepWritesOwner(env, r.states[i - 1], r.actions[i - 1], id, LastWriter(env, r, i - 1, id));
    }
  }

  /** Every other row of the table is as it was. */
  ghost predicate OnlyRow(before: Table, after: Table, id: JobId) {
    forall other :: other != id ==> Row(after, other) == Row(before, other)
  }

  /** What an ack leaves behind, given whether it was let through. */
  ghost predicate AckResult(s: State, s': State, t: Ticket, outcome: Outcome, accepted: bool)
    requires t in s.copies && t.job in s.jobs
  {
    var c := s.copies[t];
    if accepted
    then && Row(s'.jobs, t.job) == Some(s.jobs[t.job].(
              status := CalculateStatus(c.row.maxAttempts, c.row.attempts + 1, outcome),
              attempts := c.row.attempts + 1, lastResult := Some(ResultOf(outcome)), doneAt := Some(s.now)))
         && OnlyRow(s.jobs, s'.jobs, t.job)
    else s'.jobs == s.jobs
  }

  lemma AckResultAt(env: Env, s: State, t: Ticket, outcome: Outcome)
    requires Enabled(env, s, Ack(t, outcome)) && t.job in s.jobs
    ensures AckResult(s, Apply(env, s, Ack(t, outcome)), t, outcome,
                      AckWorker(env, s.copies[t]).Some? && s.jobs[t.job].lockBy == AckWorker(env, s.copies[t]))
  {
  }

  /** Naming the last writer is the same as holding the owner column. */
  lemma WriterNames(env: Env, r: Run, i: nat, id: JobId, w: Instance)
    requires IsRun(env, r) && i < |r.states| && id in r.states[i].jobs
    ensures r.states[i].jobs[id].lockBy == Some(w) <==> LastWriter(env, r, i, id) in {ByClaim(w), ByLock(w)}
    ensures r.states[i].jobs[id].lockBy == None <==> LastWriter(env, r, i, id) == Nobody
  {
    OwnerIsLastWriter(env, r, i, id);
  }

  /** Over every interleaving, an ack takes effect just when the last step that wrote the job's owner was a
      claim or a lock by the instance the ack names; a refused ack changes no job. */
  lemma AckIsFenced(env: Env, r: Run, i: nat, t: Ticket, outcome: Outcome)
    requires IsRun(env, r) && i < |r.actions| && r.actions[i] == Ack(t, outcome)
    ensures t in r.states[i].copies
    ensures t.job in r.states[i].jobs ==>
              AckResult(r.states[i], r.states[i + 1], t, outcome,
                var w := AckWorker(env, r.states[i].copies[t]);
                w.Some? && LastWriter(env, r, i, t.job) in {ByClaim(w.value), ByLock(w.value)})
    ensures t.job !in r.states[i].jobs ==> r.states[i + 1].jobs == r.states[i].jobs
  {
    assert StepAt(env, r, i);
    if t.job in r.states[i].jobs {
      var w := AckWorker(env, r.states[i].copies[t]);
      if w.Some? { WriterNames(env, r, i, t.job, w.value); }
      AckResultAt(env, r.states[i], t, outcome);
    }
  }

  /** What a lock leaves behind, given whether it was let through. After a refusal the polling backend's copy is
      still there, to be acked as an error, and the shared backend's is gone. */
  ghost predicate LockResult(env: Env, s: State, s': State, t: Ticket, accepted: bool)
    requires t in s.copies && t.job in s.jobs
  {
    if accepted
    then && Row(s'.jobs, t.job) == Some(s.jobs[t.job].(
              status := Running, lockBy := Some(s.copies[t].holder), lockAt := Some(s.now)))
         && OnlyRow(s.jobs, s'.jobs, t.job)
         && t in s'.copies && s'.copies[t].phase == Executing
    else && s'.jobs == s.jobs
         && s'.copies == if env.kindOf(s.copies[t].holder).PollingBackend?
                         then s.copies[t := s.copies[t].(phase := LockFailed)] else s.copies - {t}
  }

  lemma LockResultAt(env: Env, s: State, t: Ticket)
    requires Enabled(env, s, Lock(t)) && t.job in s.jobs
    ensures LockResult(env, s, Apply(env, s, Lock(t)), t, LockGuard(s.jobs[t.job], s.copies[t].holder))
  {
  }

  /** A lock takes effect just when nobody, or the locking instance itself, wrote the owner last and the job
      is not yet running or finished; a refused lock changes no job. */
  lemma LockIsFenced(env: Env, r: Run, i: nat, t: Ticket)
    requires IsRun(env, r) && i < |r.actions| && r.actions[i] == Lock(t)
    ensures t in r.states[i].copies
    ensures t.job in r.states[i].jobs ==>
              LockResult(env, r.states[i], r.states[i + 1], t,
                var w := r.states[i].copies[t].holder;
                && LastWriter(env, r, i, t.job) in {Nobody, ByClaim(w), ByLock(w)}
                && r.states[i].jobs[t.job].status in {Queued, Pending, Failed})
    ensures t.job !in r.states[i].jobs ==> r.states[i + 1].jobs == r.states[i].jobs
  {
    assert StepAt(env, r, i);
    if t.job in r.states[i].jobs {
      WriterNames(env, r, i, t.job, r.states[i].copies[t].holder);
      LockResultAt(env, r.states[i], t);
    }
  }

  /** In both backends, on every run, an ack names the very instance that makes it: in the polling backend because the
      claim wrote it into the row, in the shared one because the lock layer put it there. */
  lemma AcksNameTheirInstance(env: Env, r: Run, i: nat, t: Ticket)
    requires IsRun(env, r) && i < |r.states| && t in r.states[i].copies
    ensures AckWorker(env, r.states[i].copies[t]) == Some(r.states[i].copies[t].holder)
  {
    RunSafe(env, r, i);
    assert CopyOk(env, r.states[i], t, r.states[i].copies[t]);
  }

  predicate KilledUnowned(jobs: Table, id: JobId) {
    id in jobs ==> jobs[id].status == Killed && jobs[id].lockBy.None?
  }

  lemma KilledStaysOneStep(env: Env, s: State, a: Action, id: JobId)
    requires Enabled(env, s, a) && id in s.usedIds && KilledUnowned(s.jobs, id)
    ensures KilledUnowned(Apply(env, s, a).jobs, id)
    ensures id in Apply(env, s, a).usedIds
  {
    StepEffect(env, s, a, id);
    StepGrows(env, s, a);
    if ChangeOf(env, s, a, id).Inserted? { InsertsArePushes(env, s, a, id); }
  }

  /** A parked job stays Killed and unowned under every later step until a vacuum removes it, and its id
      never comes back. */
  lemma {:induction false} ParkedForever(env: Env, r: Run, i: nat, j: nat, id: JobId)
    requires IsRun(env, r) && i <= j < |r.states|
    requires id in r.states[i].usedIds && KilledUnowned(r.states[i].jobs, id)
    ensures id in r.states[j].usedIds && KilledUnowned(r.states[j].jobs, id)
    decreases j
  {
    if i == j {
    } else {
      ParkedForever(env, r, i, j - 1, id);
      assert StepAt(env, r, j - 1);
      KilledStaysOneStep(env, r.states[j - 1], r.actions[j - 1], id);
    }
  }
}
