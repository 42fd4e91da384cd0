/** What a push asks for is what the claims go by: run_at and priority, from the insert to the claim. */
module Scheduling {
  import opened Wrappers
  import opened JobTable
  import opened Protocol
  import opened Effects
  import opened Safety
  import opened Pushing
  import opened Claims
  import Attempts

  /** Wherever the job is stored or held by a client, it has the columns that were pushed. */
  ghost predicate CarriedThroughout(s: State, row: PushRow) {
    && row.id in s.usedIds
    && (row.id in s.jobs ==> Carries(s.jobs[row.id], row))
    && (forall t :: t in s.copies && t.job == row.id ==> Carries(s.copies[t].row, row))
  }

  /** At step i row k of a batch is inserted: its key is new, and the batch went through. */
  ghost predicate InsertedAt(env: Env, r: Run, i: nat, k: nat)
    requires IsRun(env, r) && i < |r.actions|
  {
    && r.actions[i].Push? && k < |r.actions[i].rows|
    && Fresh(r.states[i].jobs, r.actions[i].rows, k)
    && IdsFree(r.states[i].jobs, r.actions[i].rows, |r.actions[i].rows|)
  }

  lemma PushCarries(env: Env, s: State, rows: seq<PushRow>, k: nat)
    requires Safe(env, s) && Enabled(env, s, Push(rows)) && k < |rows|
    requires Fresh(s.jobs, rows, k) && IdsFree(s.jobs, rows, |rows|)
    ensures var s' := Apply(env, s, Push(rows));
            && rows[k].id in s'.jobs && InsertedAs(s'.jobs[rows[k].id], rows[k]) && CarriedThroughout(s', rows[k])
  {
    PushAllOrNothing(s.jobs, rows);
    forall t | t in s.copies
      ensures t.job != rows[k].id
    {
      assert CopyOk(env, s, t, s.copies[t]);
    }
  }

  lemma StepCarries(env: Env, s: State, a: Action, row: PushRow)
    requires Safe(env, s) && Enabled(env, s, a) && CarriedThroughout(s, row)
    ensures CarriedThroughout(Apply(env, s, a), row)
  {
    var s' := Apply(env, s, a);
    StepGrows(env, s, a);
    if row.id in s'.jobs { StepKeepsSpecs(env, s, a, row.id); }
    forall t | t in s'.copies && t.job == row.id
      ensures Carries(s'.copies[t].row, row)
    {
      Attempts.CopyKeepsRow(env, s, a, t);
    }
  }

  lemma {:induction false} RunCarries(env: Env, r: Run, i: nat, k: nat, j: nat)
    requires IsRun(env, r) && i < j < |r.states| && InsertedAt(env, r, i, k)
    ensures CarriedThroughout(r.states[j], r.actions[i].rows[k])
    decreases j
  {
    assert StepAt(env, r, j - 1);
    RunSafe(env, r, j - 1);
    if j == i + 1 {
      PushCarries(env, r.states[i], r.actions[i].rows, k);
    } else {
      RunCarries(env, r, i, k, j - 1);
      StepCarries(env, r.states[j - 1], r.actions[j - 1], r.actions[i].rows[k]);
    }
  }

  ghost predicate DueFrom(job: Job, queues: set<Queue>, from: Time) {
    forall t :: Due(job, queues, t) <==> from <= t
  }

  /** What a push inserts is stored at once, pending, untouched and due from its run_at on, and in every later state
      that still stores it its queue, payload, limit, run_at, priority and key are those pushed. No copy of it,
      waiting or executing, exists before the run_at that was pushed. */
  lemma PushedColumnsStay(env: Env, r: Run, i: nat, k: nat, j: nat)
    requires IsRun(env, r) && i < j < |r.states| && InsertedAt(env, r, i, k)
    ensures var row := r.actions[i].rows[k];
            && row.id in r.states[i + 1].jobs && InsertedAs(r.states[i + 1].jobs[row.id], row)
            && DueFrom(r.states[i + 1].jobs[row.id], {row.queue}, row.runAt)
            && (row.id in r.states[j].jobs ==> Carries(r.states[j].jobs[row.id], row))
            && (forall t :: t in r.states[j].copies && t.job == row.id ==> row.runAt <= r.states[j].now)
  {
    var row := r.actions[i].rows[k];
    assert StepAt(env, r, i);
    RunSafe(env, r, i);
    PushCarries(env, r.states[i], r.actions[i].rows, k);
    RunCarries(env, r, i, k, j);
    RunSafe(env, r, j);
    forall t | t in r.states[j].copies && t.job == row.id
      ensures row.runAt <= r.states[j].now
    {
      assert CopyOk(env, r.states[j], t, r.states[j].copies[t]);
    }
  }

  /** Of two due rows, the one of higher priority, or of the same priority and earlier run_at, or alike in both and
      with the lower id, is claimed first: whenever a claim takes the other, it takes this one too, and before it. */
  lemma BetterIsClaimedFirst(jobs: Table, queues: set<Queue>, limit: nat, now: Time, a: JobId, b: JobId)
    requires a in jobs && b in jobs && Due(jobs[a], queues, now) && Due(jobs[b], queues, now)
    requires jobs[a].priority > jobs[b].priority
             || (jobs[a].priority == jobs[b].priority && jobs[a].runAt < jobs[b].runAt)
             || (jobs[a].priority == jobs[b].priority && jobs[a].runAt == jobs[b].runAt && a < b)
    requires b in Batch(jobs, queues, limit, now)
    ensures var batch := Batch(jobs, queues, limit, now);
            exists m, n :: 0 <= m < n < |batch| && batch[m] == a && batch[n] == b
  {
    var ranked := DueIsRanked(jobs, queues, now);
    var batch := Batch(jobs, queues, limit, now);
    BatchIsFront(jobs, queues, limit, now, ranked);
    var n :| 0 <= n < |batch| && batch[n] == b;
    assert a in ranked;
    var m :| 0 <= m < |ranked| && ranked[m] == a;
    assert ranked[n] == b && m < n;
    assert batch[m] == a;
  }

  /** So of two due jobs, each pushed at some earlier step, a claim takes the one pushed with the higher priority
      first. */
  lemma HigherPriorityIsClaimedFirst(env: Env, r: Run, i: nat, k: nat, i': nat, k': nat, j: nat, queues: set<Queue>,
                                     limit: nat)
    requires IsRun(env, r) && i < j < |r.states| && i' < j && InsertedAt(env, r, i, k) && InsertedAt(env, r, i', k')
    requires var jobs, now := r.states[j].jobs, r.states[j].now;
             var a, b := r.actions[i].rows[k], r.actions[i'].rows[k'];
             && a.id in jobs && Due(jobs[a.id], queues, now) && b.id in jobs && Due(jobs[b.id], queues, now)
             && a.priority > b.priority && b.id in Batch(jobs, queues, limit, now)
    ensures var batch := Batch(r.states[j].jobs, queues, limit, r.states[j].now);
            exists m, n :: 0 <= m < n < |batch|
                           && batch[m] == r.actions[i].rows[k].id && batch[n] == r.actions[i'].rows[k'].id
  {
    RunCarries(env, r, i, k, j);
    RunCarries(env, r, i', k', j);
    var a, b := r.actions[i].rows[k].id, r.actions[i'].rows[k'].id;
    BetterIsClaimedFirst(r.states[j].jobs, queues, limit, r.states[j].now, a, b);
  }
}
