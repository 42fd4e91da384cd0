/** Idempotency keys over whole runs. */
module Idempotency {
  import opened Wrappers
  import opened JobTable
  import opened Protocol
  import opened Effects
  import opened Safety
  import opened Pushing

  /** In no state of any run do two stored jobs share a queue and a key. */
  lemma NoTwoJobsShareAKey(env: Env, r: Run, i: nat, a: JobId, b: JobId)
    requires IsRun(env, r) && i < |r.states| && a in r.states[i].jobs && b in r.states[i].jobs && a != b
    ensures var jobs := r.states[i].jobs;
            jobs[a].key.Some? && jobs[a].queue == jobs[b].queue ==> jobs[a].key != jobs[b].key
  {
    RunSafe(env, r, i);
  }

  lemma StepKeepsKey(env: Env, s: State, a: Action, queue: Queue, key: string)
    requires Enabled(env, s, a) && !a.VacuumJobs? && KeyTaken(s.jobs, queue, key)
    ensures KeyTaken(Apply(env, s, a).jobs, queue, key)
  {
    var id :| id in s.jobs && s.jobs[id].queue == queue && s.jobs[id].key == Some(key);
    StepEffect(env, s, a, id);
    WrittenKeepsSpec(ChangeOf(env, s, a, id), Row(s.jobs, id), s.now);
    assert id in Apply(env, s, a).jobs;
  }

  /** Only a vacuum can free a key. */
  lemma {:induction false} KeysStayTaken(env: Env, r: Run, i: nat, j: nat, rows: seq<PushRow>)
    requires IsRun(env, r) && i <= j < |r.states| && AllTaken(r.states[i].jobs, rows)
    requires forall m :: i <= m < j ==> !r.actions[m].VacuumJobs?
    ensures AllTaken(r.states[j].jobs, rows)
    decreases j
  {
    if i == j {
    } else {
      KeysStayTaken(env, r, i, j - 1, rows);
      assert StepAt(env, r, j - 1);
      forall k | 0 <= k < |rows|
        ensures KeyTaken(r.states[j].jobs, rows[k].queue, rows[k].key.value)
      {
        StepKeepsKey(env, r.states[j - 1], r.actions[j - 1], rows[k].queue, rows[k].key.value);
      }
    }
  }

  /** The two batches carry the same queues and keys, row by row; ids and payloads may differ. */
  predicate SameKeys(a: seq<PushRow>, b: seq<PushRow>) {
    |a| == |b| && forall i :: 0 <= i < |a| ==> SameKey(a[i], b[i])
  }

  lemma StepPushes(env: Env, r: Run, i: nat)
    requires IsRun(env, r) && i < |r.actions| && r.actions[i].Push?
    ensures r.states[i + 1].jobs == PushTasks(r.states[i].jobs, r.actions[i].rows)
  {
    assert StepAt(env, r, i);
  }

  lemma PushTakesKeysAt(env: Env, r: Run, i: nat)
    requires IsRun(env, r) && i < |r.actions| && r.actions[i].Push?
    requires var rows := r.actions[i].rows;
             IdsFree(r.states[i].jobs, rows, |rows|) && forall k :: 0 <= k < |rows| ==> rows[k].key.Some?
    ensures AllTaken(r.states[i + 1].jobs, r.actions[i].rows)
  {
    StepPushes(env, r, i);
    PushTakesKeys(r.states[i].jobs, r.actions[i].rows);
  }

  lemma KeysTakenSince(env: Env, r: Run, i: nat, j: nat)
    requires IsRun(env, r) && i < j < |r.states| && r.actions[i].Push?
    requires var rows := r.actions[i].rows;
             IdsFree(r.states[i].jobs, rows, |rows|) && forall k :: 0 <= k < |rows| ==> rows[k].key.Some?
    requires forall m :: i < m < j ==> !r.actions[m].VacuumJobs?
    ensures AllTaken(r.states[j].jobs, r.actions[i].rows)
  {
    PushTakesKeysAt(env, r, i);
    KeysStayTaken(env, r, i + 1, j, r.actions[i].rows);
  }

  lemma RepushAt(env: Env, r: Run, j: nat)
    requires IsRun(env, r) && j < |r.actions| && r.actions[j].Push? && AllTaken(r.states[j].jobs, r.actions[j].rows)
    ensures r.states[j + 1].jobs == r.states[j].jobs
  {
    StepPushes(env, r, j);
    RepushAddsNothing(r.states[j].jobs, r.actions[j].rows);
  }

  lemma SameKeysTaken(jobs: Table, a: seq<PushRow>, b: seq<PushRow>)
    requires AllTaken(jobs, a) && SameKeys(a, b)
    ensures AllTaken(jobs, b)
  {
  }

  /** Pushing a keyed batch again, under any ids and after any steps but a vacuum, adds nothing. */
  lemma RepeatedPushAddsNothing(env: Env, r: Run, i: nat, j: nat, first: seq<PushRow>, again: seq<PushRow>)
    requires IsRun(env, r) && i < j < |r.actions|
    requires r.actions[i] == Push(first) && r.actions[j] == Push(again) && SameKeys(first, again)
    requires IdsFree(r.states[i].jobs, first, |first|) && forall k :: 0 <= k < |first| ==> first[k].key.Some?
    requires forall m :: i < m < j ==> !r.actions[m].VacuumJobs?
    ensures r.states[j + 1].jobs == r.states[j].jobs
  {
    KeysTakenSince(env, r, i, j);
    SameKeysTaken(r.states[j].jobs, first, again);
    RepushAt(env, r, j);
  }
}
