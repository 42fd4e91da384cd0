/** Waiting for completion: rounds of one query over the ids still missing. */
module WaitFor {
  import opened Wrappers
  import opened JobTable

  /** What the stream yields: a finished task, a finished task whose stored result does not parse, or the
      error of a failed query. */
  datatype Item = Finished(id: JobId, status: Status) | Unreadable(id: JobId) | FetchFailed(error: string)

  datatype Answer = QueryFailed(error: string) | Snapshot(jobs: Table)

  function Selected(jobs: Table, ids: set<JobId>): set<JobId> {
    set id | id in ids && id in jobs && Completed(jobs[id])
  }

  /** Done, Killed, or failed with no attempt left. */
  predicate IsOver(job: Job) {
    job.status == Done || job.status == Killed || (job.status == Failed && job.maxAttempts <= job.attempts)
  }

  function Ids(rows: seq<JobId>): set<JobId> {
    set id | id in rows
  }

  lemma IdsNext(rows: seq<JobId>, id: JobId)
    ensures Ids(rows + [id]) == Ids(rows) + {id}
  {
  }

  /** The rows of the query, in whatever order the database gives. */
  method Fetch(jobs: Table, ids: set<JobId>) returns (rows: seq<JobId>)
    ensures Distinct(rows) && Ids(rows) == Selected(jobs, ids)
  {
    rows := [];
    var all := Selected(jobs, ids);
    var rest := all;
    while rest != {}
      invariant rest <= all
      invariant Distinct(rows) && Ids(rows) == all - rest
      decreases |rest|
    {
      var id :| id in rest;
      assert id !in Ids(rows);
      IdsNext(rows, id);
      rows := rows + [id];
      rest := rest - {id};
    }
  }

  /** Reported and remaining ids partition the requested ones, each reported once, unless a query failed:
      then nothing remains. */
  predicate Partition(requested: set<JobId>, remaining: set<JobId>, reported: seq<JobId>, failed: bool) {
    && Distinct(reported)
    && (forall id :: id in reported ==> id in requested && id !in remaining)
    && remaining <= requested
    && (if failed then remaining == {} else forall id :: id in requested ==> id in reported || id in remaining)
  }

  lemma RoundKeepsPartition(requested: set<JobId>, remaining: set<JobId>, reported: seq<JobId>, failed: bool,
                            rows: seq<JobId>)
    requires Partition(requested, remaining, reported, failed) && Distinct(rows) && Ids(rows) <= remaining
    ensures Partition(requested, remaining - Ids(rows), reported + rows, failed)
  {
    assert forall id :: id in rows <==> id in Ids(rows);
    assert forall id :: id in reported + rows <==> id in reported || id in rows;
    assert forall i, j :: 0 <= i < |reported| <= j < |reported + rows| ==>
        reported[i] in reported && (reported + rows)[j] in rows;
  }

  class Waiter {
    var remaining: set<JobId>
    ghost var requested: set<JobId>
    ghost var reported: seq<JobId>
    ghost var failed: bool

    ghost predicate Valid()
      reads this
    {
      Partition(requested, remaining, reported, failed)
    }

    constructor (ids: set<JobId>)
      ensures Valid() && requested == ids && remaining == ids && reported == [] && !failed
    {
      remaining, requested, reported, failed := ids, ids, [], false;
    }

    /** One round of the stream; None ends it. Everything finished in the snapshot among the remaining ids is
        yielded now, and only that. */
    method Next(answer: Answer, readable: JobId -> bool) returns (batch: Option<seq<Item>>)
      requires Valid()
      modifies this
      ensures Valid() && requested == old(requested) && old(reported) <= reported
      ensures batch.None? <==> old(remaining) == {}
      ensures batch.None? ==> remaining == {} && reported == old(reported) && failed == old(failed)
      ensures batch.None? && !failed ==> forall id :: id in requested <==> id in reported
      ensures batch.Some? && answer.QueryFailed? ==>
                batch.value == [FetchFailed(answer.error)] && failed && remaining == {} && reported == old(reported)
      ensures batch.Some? && answer.Snapshot? ==>
                && failed == old(failed)
                && remaining == old(remaining) - Selected(answer.jobs, old(remaining))
                && |reported| == |old(reported)| + |batch.value|
                && (forall i :: 0 <= i < |batch.value| ==>
                      ItemFor(batch.value[i], answer.jobs, old(remaining), reported[|old(reported)| + i], readable))
      ensures batch.Some? && batch.value != [] ==> remaining < old(remaining)
      ensures batch.Some? && answer.Snapshot? ==>
                forall id :: id in old(remaining) ==>
                  && (id in reported <==> id in answer.jobs && IsOver(answer.jobs[id]))
                  && (id in remaining <==> id !in reported)
    {
      if remaining == {} { return None; }
      if answer.QueryFailed? {
        remaining, failed := {}, true;
        return Some([FetchFailed(answer.error)]);
      }
      var rows := Fetch(answer.jobs, remaining);
      ghost var selected := Selected(answer.jobs, remaining);
      ghost var before := remaining;
      assert forall i :: 0 <= i < |rows| ==> rows[i] in rows && rows[i] in selected;
      if rows == [] {
        assert selected == {};
        return Some([]);
      }
      var items: seq<Item> := [];
      for i := 0 to |rows|
        invariant |items| == i && reported == old(reported) + rows[..i]
        invariant failed == old(failed) && requested == old(requested)
        invariant remaining == before - Ids(rows[..i])
        invariant forall k :: 0 <= k < i ==> ItemFor(items[k], answer.jobs, before, rows[k], readable)
      {
        var id := rows[i];
        assert rows[..i + 1] == rows[..i] + [id];
        IdsNext(rows[..i], id);
        remaining := remaining - {id};
        items := items + [if readable(id) then Finished(id, answer.jobs[id].status) else Unreadable(id)];
        reported := reported + [id];
      }
      assert rows[..|rows|] == rows;
      RoundKeepsPartition(requested, before, old(reported), failed, rows);
      assert rows[0] in before && rows[0] !in remaining;
      batch := Some(items);
    }
  }

  /** The item yielded for one id: of a job finished in the snapshot, with its stored status. */
  predicate ItemFor(item: Item, jobs: Table, remaining: set<JobId>, id: JobId, readable: JobId -> bool) {
    && id in remaining && id in jobs && Completed(jobs[id])
    && item == if readable(id) then Finished(id, jobs[id].status) else Unreadable(id)
  }
}
