/** The insert loop with its idempotency keys. */
module Pushing {
  import opened Wrappers
  import opened JobTable

  ghost predicate KeysUnique(jobs: Table) {
    forall a, b ::
      a in jobs && b in jobs && jobs[a].key.Some? && jobs[a].queue == jobs[b].queue && jobs[a].key == jobs[b].key
      ==> a == b
  }

  predicate SameKey(a: PushRow, b: PushRow) {
    a.queue == b.queue && a.key == b.key
  }

  /** Row i is keyless, or its key is new to the store and no earlier row of the batch carries it. */
  ghost predicate Fresh(jobs: Table, rows: seq<PushRow>, i: nat)
    requires i < |rows|
  {
    || rows[i].key.None?
    || (!KeyTaken(jobs, rows[i].queue, rows[i].key.value)
        && forall k :: 0 <= k < i ==> !SameKey(rows[k], rows[i]))
  }

  /** Among the first n rows, no fresh row reuses the id of a stored job or of another fresh row. */
  ghost predicate IdsFree(jobs: Table, rows: seq<PushRow>, n: nat)
    requires n <= |rows|
  {
    && (forall i :: 0 <= i < n && Fresh(jobs, rows, i) ==> rows[i].id !in jobs)
    && (forall i, k :: 0 <= i < k < n && Fresh(jobs, rows, i) && Fresh(jobs, rows, k) ==> rows[i].id != rows[k].id)
  }

  /** The job has the columns that were pushed. */
  predicate Carries(job: Job, row: PushRow) {
    && job.queue == row.queue && job.args == row.args && job.maxAttempts == row.maxAttempts
    && job.runAt == row.runAt && job.priority == row.priority && job.key == row.key
  }

  /** And it has never been touched since. */
  predicate InsertedAs(job: Job, row: PushRow) {
    && Carries(job, row) && job.status == Pending && job.attempts == 0
    && job.lockBy.None? && job.lockAt.None? && job.doneAt.None? && job.lastResult.None?
  }

  /** `after` is the stored jobs untouched, plus one pending job for each fresh row among the first n,
      and nothing else. */
  ghost predicate AddsFresh(jobs: Table, rows: seq<PushRow>, n: nat, after: Table)
    requires n <= |rows|
  {
    && (forall id :: id in jobs ==> id in after && after[id] == jobs[id])
    && (forall i :: 0 <= i < n && Fresh(jobs, rows, i) ==>
          rows[i].id in after && InsertedAs(after[rows[i].id], rows[i]))
    && (forall id :: id in after && id !in jobs ==> AddedBy(jobs, rows, n, id))
  }

  ghost predicate AddedBy(jobs: Table, rows: seq<PushRow>, n: nat, id: JobId)
    requires n <= |rows|
  {
    exists i :: 0 <= i < n && Fresh(jobs, rows, i) && rows[i].id == id
  }

  predicate RowHasKey(row: PushRow, queue: Queue, key: string) {
    row.queue == queue && row.key == Some(key)
  }

  lemma FirstWithKey(rows: seq<PushRow>, n: nat, queue: Queue, key: string) returns (k: nat)
    requires n <= |rows| && exists k :: 0 <= k < n && RowHasKey(rows[k], queue, key)
    ensures k < n && RowHasKey(rows[k], queue, key)
    ensures forall j :: 0 <= j < k ==> !RowHasKey(rows[j], queue, key)
  {
    k := 0;
    while !RowHasKey(rows[k], queue, key)
      invariant k < n
      invariant forall j :: 0 <= j < k ==> !RowHasKey(rows[j], queue, key)
      invariant exists j :: k <= j < n && RowHasKey(rows[j], queue, key)
      decreases n - k
    {
      k := k + 1;
    }
  }

  /** Inside the loop a key is taken just when the store had it or an earlier row brought it. */
  lemma KeyTakenInside(jobs: Table, rows: seq<PushRow>, n: nat, after: Table, queue: Queue, key: string)
    requires n <= |rows| && AddsFresh(jobs, rows, n, after)
    ensures KeyTaken(after, queue, key) <==>
            KeyTaken(jobs, queue, key) || exists k :: 0 <= k < n && RowHasKey(rows[k], queue, key)
  {
    if KeyTaken(jobs, queue, key) {
      var id :| id in jobs && jobs[id].queue == queue && jobs[id].key == Some(key);
      assert after[id].key == Some(key);
    } else if exists k :: 0 <= k < n && RowHasKey(rows[k], queue, key) {
      var k := FirstWithKey(rows, n, queue, key);
      assert Fresh(jobs, rows, k);
      assert after[rows[k].id].key == Some(key);
    }
    if KeyTaken(after, queue, key) {
      var id :| id in after && after[id].queue == queue && after[id].key == Some(key);
      if id !in jobs {
        var k :| 0 <= k < n && Fresh(jobs, rows, k) && rows[k].id == id;
        assert RowHasKey(rows[k], queue, key);
      }
    }
  }

  lemma WantedIsFresh(jobs: Table, rows: seq<PushRow>, n: nat, before: Table)
    requires n < |rows| && AddsFresh(jobs, rows, n, before)
    ensures Wanted(before, rows[n]) == Fresh(jobs, rows, n)
  {
    var row := rows[n];
    if row.key.Some? {
      KeyTakenInside(jobs, rows, n, before, row.queue, row.key.value);
      assert forall k :: 0 <= k < n ==> SameKey(rows[k], row) == RowHasKey(rows[k], row.queue, row.key.value);
    }
  }

  /** The next iteration is refused just when the row is fresh and its id is taken. */
  lemma NextIdFree(jobs: Table, rows: seq<PushRow>, n: nat, before: Table)
    requires n < |rows| && AddsFresh(jobs, rows, n, before) && IdsFree(jobs, rows, n)
    ensures IdsFree(jobs, rows, n + 1) <==> (Fresh(jobs, rows, n) ==> rows[n].id !in before)
  {
  }

  lemma NextAdds(jobs: Table, rows: seq<PushRow>, n: nat, before: Table)
    requires n < |rows| && AddsFresh(jobs, rows, n, before)
    requires Fresh(jobs, rows, n) && rows[n].id !in before
    ensures AddsFresh(jobs, rows, n + 1, before[rows[n].id := NewJob(rows[n])])
  {
  }

  lemma NextSkips(jobs: Table, rows: seq<PushRow>, n: nat, before: Table)
    requires n < |rows| && AddsFresh(jobs, rows, n, before) && !Fresh(jobs, rows, n)
    ensures AddsFresh(jobs, rows, n + 1, before)
  {
  }

  ghost predicate LoopMeans(jobs: Table, rows: seq<PushRow>, n: nat, r: Option<Table>)
    requires n <= |rows|
  {
    (r.Some? <==> IdsFree(jobs, rows, n)) && (r.Some? ==> AddsFresh(jobs, rows, n, r.value))
  }

  lemma NextIteration(jobs: Table, rows: seq<PushRow>, n: nat, before: Table)
    requires n < |rows| && IdsFree(jobs, rows, n) && AddsFresh(jobs, rows, n, before)
    ensures LoopMeans(jobs, rows, n + 1, PushOne(before, rows[n]))
  {
    WantedIsFresh(jobs, rows, n, before);
    NextIdFree(jobs, rows, n, before);
    if !Fresh(jobs, rows, n) {
      NextSkips(jobs, rows, n, before);
    } else if rows[n].id !in before {
      NextAdds(jobs, rows, n, before);
    }
  }

  lemma NoIterations(jobs: Table, rows: seq<PushRow>)
    ensures LoopMeans(jobs, rows, 0, Some(jobs))
  {
  }

  lemma RefusedStaysRefused(jobs: Table, rows: seq<PushRow>, n: nat)
    requires n < |rows| && !IdsFree(jobs, rows, n)
    ensures LoopMeans(jobs, rows, n + 1, None)
  {
  }

  lemma NextMeans(jobs: Table, rows: seq<PushRow>, n: nat, before: Option<Table>)
    requires n < |rows| && LoopMeans(jobs, rows, n, before)
    ensures LoopMeans(jobs, rows, n + 1, if before.None? then None else PushOne(before.value, rows[n]))
  {
    if before.Some? { NextIteration(jobs, rows, n, before.value); } else { RefusedStaysRefused(jobs, rows, n); }
  }

  /** The loop, whose every iteration sees the earlier inserts, means: keep the store, add every keyless
      row and the first row of each new key; and it aborts just when two of those ids clash. */
  lemma {:induction false} PushLoopMeaning(jobs: Table, rows: seq<PushRow>, n: nat)
    requires n <= |rows|
    ensures LoopMeans(jobs, rows, n, PushLoop(jobs, rows, n))
  {
    if n == 0 {
      NoIterations(jobs, rows);
    } else {
      PushLoopMeaning(jobs, rows, n - 1);
      NextMeans(jobs, rows, n - 1, PushLoop(jobs, rows, n - 1));
    }
  }

  lemma PushAborts(jobs: Table, rows: seq<PushRow>)
    ensures PushLoop(jobs, rows, |rows|).Some? <==> IdsFree(jobs, rows, |rows|)
  {
    PushLoopMeaning(jobs, rows, |rows|);
  }

  /** All or nothing. */
  lemma PushAllOrNothing(jobs: Table, rows: seq<PushRow>)
    ensures IdsFree(jobs, rows, |rows|) ==> AddsFresh(jobs, rows, |rows|, PushTasks(jobs, rows))
    ensures !IdsFree(jobs, rows, |rows|) ==> PushTasks(jobs, rows) == jobs
  {
    PushLoopMeaning(jobs, rows, |rows|);
  }

  lemma PushOnlyAdds(jobs: Table, rows: seq<PushRow>)
    ensures var after := PushTasks(jobs, rows);
            && (forall id :: id in jobs ==> id in after && after[id] == jobs[id])
            && (forall id :: id in after && id !in jobs ==>
                  exists i :: 0 <= i < |rows| && rows[i].id == id && InsertedAs(after[id], rows[i]))
  {
    PushLoopMeaning(jobs, rows, |rows|);
  }

  lemma {:induction false} LoopKeepsKeysUnique(jobs: Table, rows: seq<PushRow>, n: nat)
    requires n <= |rows| && KeysUnique(jobs)
    ensures PushLoop(jobs, rows, n).Some? ==> KeysUnique(PushLoop(jobs, rows, n).value)
  {
    if n == 0 {
    } else {
      LoopKeepsKeysUnique(jobs, rows, n - 1);
    }
  }

  lemma PushKeepsKeysUnique(jobs: Table, rows: seq<PushRow>)
    requires KeysUnique(jobs)
    ensures KeysUnique(PushTasks(jobs, rows))
  {
    LoopKeepsKeysUnique(jobs, rows, |rows|);
  }

  /** Every row's key is already in the store. */
  ghost predicate AllTaken(jobs: Table, rows: seq<PushRow>) {
    forall i :: 0 <= i < |rows| ==> rows[i].key.Some? && KeyTaken(jobs, rows[i].queue, rows[i].key.value)
  }

  /** A keyed batch pushed once, or found present by whatever history, adds nothing under any ids. */
  lemma RepushAddsNothing(jobs: Table, rows: seq<PushRow>)
    requires AllTaken(jobs, rows)
    ensures PushTasks(jobs, rows) == jobs
  {
    PushAllOrNothing(jobs, rows);
    assert forall i :: 0 <= i < |rows| ==> !Fresh(jobs, rows, i);
    var after := PushTasks(jobs, rows);
    if IdsFree(jobs, rows, |rows|) {
      assert forall id :: id in after ==> id in jobs;
      assert after.Keys == jobs.Keys;
    }
  }

  lemma PushTakesKeys(jobs: Table, rows: seq<PushRow>)
    requires IdsFree(jobs, rows, |rows|)
    requires forall i :: 0 <= i < |rows| ==> rows[i].key.Some?
    ensures AllTaken(PushTasks(jobs, rows), rows)
  {
    PushAllOrNothing(jobs, rows);
    forall i | 0 <= i < |rows|
      ensures KeyTaken(PushTasks(jobs, rows), rows[i].queue, rows[i].key.value)
    {
      assert RowHasKey(rows[i], rows[i].queue, rows[i].key.value);
      KeyTakenInside(jobs, rows, |rows|, PushTasks(jobs, rows), rows[i].queue, rows[i].key.value);
    }
  }
}
