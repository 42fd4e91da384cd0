/** The transactions a client sends: push a batch, claim a batch and sort its rows, park a row. */
module TxClient {
  import opened Wrappers
  import opened JobTable
  import opened TxErrors
  import opened TxRetry
  import opened Pushing
  import opened Claims

  type Rows = seq<(JobId, Job)>

  datatype Tx =
    | PushTx(rows: seq<PushRow>)
    | ClaimTx(queues: set<Queue>, owner: Option<Instance>, limit: nat)
    | ParkTx(id: JobId, reason: string)

  /** Why a fetch failed: its transaction did, or the response of a committed claim did not parse. */
  datatype FetchError = TxFailed(error: DbError) | Unparsed

  const UNDECODABLE := "args this codec cannot decode"

  function Effect(tx: Tx, jobs: Table, now: Time): Table {
    match tx
    case PushTx(rows) => PushTasks(jobs, rows)
    case ClaimTx(queues, owner, limit) => Claim(jobs, queues, owner, limit, now)
    case ParkTx(id, reason) => KillTask(jobs, id, reason, now)
  }

  type Log = seq<Event<Tx, Table>>

  /** RETURN AFTER of a claim. */
  function Claimed(jobs: Table, queues: set<Queue>, owner: Option<Instance>, limit: nat, now: Time): Rows {
    var ids := Batch(jobs, queues, limit, now);
    var after := ClaimIds(jobs, ids, owner, now);
    seq(|ids|, i requires 0 <= i < |ids| => (ids[i], (assert ids[i] in ids; after[ids[i]])))
  }

  /** The ids of the front of the ranking of the due rows, as far as the limit allows. */
  ghost predicate FrontIds(rows: Rows, found: Table, queues: set<Queue>, limit: nat, now: Time) {
    forall ranked :: RanksDue(found, queues, now, ranked) ==>
      |rows| == Min(limit, |ranked|) && forall i :: 0 <= i < |rows| ==> rows[i].0 == ranked[i]
  }

  /** A claimed row: as the table left has it, queued at the claim's instant, owned as the claim says. */
  ghost predicate RowReturned(row: (JobId, Job), found: Table, left: Table, owner: Option<Instance>, now: Time) {
    && row.0 in found && row.0 in left && left[row.0] == row.1
    && SameSpec(row.1, found[row.0]) && row.1.attempts == found[row.0].attempts
    && row.1.lastResult == found[row.0].lastResult && row.1.doneAt == found[row.0].doneAt
    && row.1.status == Queued && row.1.lockAt == Some(now)
    && row.1.lockBy == (if owner.Some? then owner else found[row.0].lockBy)
  }

  ghost predicate OthersKept(rows: Rows, found: Table, left: Table) {
    && left.Keys == found.Keys
    && forall id :: id in found && (forall i :: 0 <= i < |rows| ==> rows[i].0 != id) ==> left[id] == found[id]
  }

  /** What a committed claim returns, and what it leaves of every other row. */
  ghost predicate ClaimReturned(rows: Rows, found: Table, left: Table, queues: set<Queue>, owner: Option<Instance>,
                                limit: nat, now: Time)
  {
    && FrontIds(rows, found, queues, limit, now) && OthersKept(rows, found, left)
    && forall i :: 0 <= i < |rows| ==> RowReturned(rows[i], found, left, owner, now)
  }

  lemma ClaimedIsFront(jobs: Table, queues: set<Queue>, owner: Option<Instance>, limit: nat, now: Time)
    ensures FrontIds(Claimed(jobs, queues, owner, limit, now), jobs, queues, limit, now)
  {
    forall ranked | RanksDue(jobs, queues, now, ranked)
      ensures Batch(jobs, queues, limit, now) == ranked[..Min(limit, |ranked|)]
    {
      BatchIsFront(jobs, queues, limit, now, ranked);
    }
  }

  lemma OthersAreKept(jobs: Table, queues: set<Queue>, owner: Option<Instance>, limit: nat, now: Time)
    ensures OthersKept(Claimed(jobs, queues, owner, limit, now), jobs, Claim(jobs, queues, owner, limit, now))
  {
    var ids := Batch(jobs, queues, limit, now);
    var rows := Claimed(jobs, queues, owner, limit, now);
    assert forall i :: 0 <= i < |ids| ==> rows[i].0 == ids[i];
    forall id | id in ids
      ensures exists i :: 0 <= i < |rows| && rows[i].0 == id
    {
      var i :| 0 <= i < |ids| && ids[i] == id;
      assert rows[i].0 == id;
    }
  }

  lemma ClaimedIsReturned(jobs: Table, queues: set<Queue>, owner: Option<Instance>, limit: nat, now: Time)
    ensures ClaimReturned(Claimed(jobs, queues, owner, limit, now), jobs,
                          Effect(ClaimTx(queues, owner, limit), jobs, now), queues, owner, limit, now)
  {
    var ids, rows := Batch(jobs, queues, limit, now), Claimed(jobs, queues, owner, limit, now);
    ClaimedIsFront(jobs, queues, owner, limit, now);
    OthersAreKept(jobs, queues, owner, limit, now);
    forall i | 0 <= i < |rows|
      ensures RowReturned(rows[i], jobs, Claim(jobs, queues, owner, limit, now), owner, now)
    {
      assert ids[i] in ids;
    }
  }

  /** What a committed push leaves: all the fresh rows, unless two of their ids clash. */
  ghost predicate PushCommitted(rows: seq<PushRow>, e: Event<Tx, Table>) {
    IdsFree(e.found, rows, |rows|) ==> AddsFresh(e.found, rows, |rows|, e.left)
  }

  /** What a committed parking leaves: the job Killed, unowned and saying why, and all else as it was. */
  ghost predicate ParkCommitted(id: JobId, e: Event<Tx, Table>) {
    && e.left.Keys == e.found.Keys
    && (forall other :: other in e.found && other != id ==> e.left[other] == e.found[other])
    && (id in e.found ==>
          && SameSpec(e.left[id], e.found[id]) && e.left[id].status == Killed
          && e.left[id].lockBy.None? && e.left[id].lockAt.None?
          && e.left[id].doneAt == Some(e.at) && e.left[id].lastResult == Some(ErrMessage(UNDECODABLE)))
  }

  /** The rows of which decoding says `wanted`, in order. */
  function Keep(rows: Rows, decodes: Job -> bool, wanted: bool): Rows {
    if rows == [] then []
    else
      var last := rows[|rows| - 1];
      var front := Keep(rows[..|rows| - 1], decodes, wanted);
      if decodes(last.1) == wanted then front + [last] else front
  }

  lemma KeepNext(rows: Rows, decodes: Job -> bool, i: nat, wanted: bool)
    requires i < |rows|
    ensures Keep(rows[..i + 1], decodes, wanted)
         == if decodes(rows[i].1) == wanted then Keep(rows[..i], decodes, wanted) + [rows[i]]
            else Keep(rows[..i], decodes, wanted)
  {
    assert rows[..i + 1][..i] == rows[..i];
  }

  /** One settled call per row to park, in row order, whatever each call returned. */
  ghost predicate ParksEach(calls: seq<Log>, rows: Rows) {
    && |calls| == |rows|
    && forall i :: 0 <= i < |rows| ==> ParkCall(calls[i], rows[i].0)
  }

  ghost predicate ParkCall(call: Log, id: JobId) {
    && (exists result :: Settled(call, result))
    && forall e :: e in call ==> e.tx == ParkTx(id, UNDECODABLE) && (Committed(e.reply) ==> ParkCommitted(id, e))
  }

  lemma ParksNext(calls: seq<Log>, rows: Rows, call: Log, row: (JobId, Job))
    requires ParksEach(calls, rows) && ParkCall(call, row.0)
    ensures ParksEach(calls + [call], rows + [row])
  {
  }

  ghost function Flat(calls: seq<Log>): Log {
    if calls == [] then [] else Flat(calls[..|calls| - 1]) + calls[|calls| - 1]
  }

  lemma FlatNext(start: Log, calls: seq<Log>, call: Log)
    ensures start + Flat(calls) + call == start + Flat(calls + [call])
  {
  }

  class Client {
    const conn: Connection<Tx, Table>

    ghost predicate Valid()
      reads this
    {
      conn.run == Effect
    }

    constructor (now: Time, jobs: Table)
      ensures Valid() && conn.now == now && conn.store == jobs && conn.log == [] && fresh(conn)
    {
      conn := new Connection(jobs, now, Effect);
    }

    /** push_tasks: the rows are fixed once, before the first attempt, and success means that they are inserted. */
    method PushBatch(rows: seq<PushRow>) returns (result: Result<(), DbError>, ghost call: Log)
      requires Valid()
      modifies conn
      ensures conn.log == old(conn.log) + call && Settled(call, result) && AllHonest(conn.run, PushTx(rows), call)
      ensures result.Ok? ==> Committed(call[|call| - 1].reply) && PushCommitted(rows, call[|call| - 1])
    {
      var seen;
      result, seen, call := conn.Retrying(PushTx(rows));
      if result.Ok? {
        var e := call[|call| - 1];
        assert e in call && Honest(conn.run, PushTx(rows), e);
        PushAllOrNothing(e.found, rows);
      }
    }

    /** kill_task, with what it returned ignored. */
    method Park(id: JobId) returns (ghost call: Log)
      requires Valid()
      modifies conn
      ensures conn.log == old(conn.log) + call && ParkCall(call, id)
    {
      var ignored, seen;
      ignored, seen, call := conn.Retrying(ParkTx(id, UNDECODABLE));
      assert forall e :: e in call ==> Honest(conn.run, ParkTx(id, UNDECODABLE), e);
    }

    /** The loop over claimed rows: keep those that decode, park each of the others; a failed park is ignored. */
    method KeepOrPark(rows: Rows, decodes: Job -> bool) returns (tasks: Rows, ghost parks: seq<Log>)
      requires Valid()
      modifies conn
      ensures tasks == Keep(rows, decodes, true)
      ensures conn.log == old(conn.log) + Flat(parks) && ParksEach(parks, Keep(rows, decodes, false))
    {
      tasks, parks := [], [];
      assert rows[..0] == [];
      for i := 0 to |rows|
        invariant tasks == Keep(rows[..i], decodes, true)
        invariant conn.log == old(conn.log) + Flat(parks) && ParksEach(parks, Keep(rows[..i], decodes, false))
      {
        KeepNext(rows, decodes, i, true);
        KeepNext(rows, decodes, i, false);
        if decodes(rows[i].1) {
          tasks := tasks + [rows[i]];
        } else {
          ghost var call := Park(rows[i].0);
          FlatNext(old(conn.log), parks, call);
          ParksNext(parks, Keep(rows[..i], decodes, false), call, rows[i]);
          parks := parks + [call];
        }
      }
      assert rows[..|rows|] == rows;
    }

    /** fetch_next and fetch_next_shared: claim, keep the rows that decode, park each of the others. Rows that do
        not even parse make an error of a claim that was committed, and then none of them is parked. */
    method FetchNext(queues: set<Queue>, owner: Option<Instance>, limit: nat, parses: Rows -> bool,
                     decodes: Job -> bool)
      returns (result: Result<Rows, FetchError>, ghost call: Log, ghost rows: Rows, ghost parks: seq<Log>)
      requires Valid()
      modifies conn
      ensures AllHonest(conn.run, ClaimTx(queues, owner, limit), call)
      ensures conn.log == old(conn.log) + call + Flat(parks)
      ensures result.Err? && result.error.TxFailed? ==> Settled(call, Err(result.error.error)) && parks == []
      ensures result.Ok? || result.error == Unparsed ==>
                && Settled(call, Ok(()))
                && var last := call[|call| - 1];
                && Committed(last.reply)
                && ClaimReturned(rows, last.found, last.left, queues, owner, limit, last.at)
      ensures result.Ok? ==>
                && parses(rows) && result.value == Keep(rows, decodes, true)
                && ParksEach(parks, Keep(rows, decodes, false))
      ensures result.Err? && result.error == Unparsed ==> !parses(rows) && parks == []
    {
      var outcome, seen;
      outcome, seen, call := conn.Retrying(ClaimTx(queues, owner, limit));
      if outcome.Err? { return Err(TxFailed(outcome.error)), call, [], []; }
      var claimed := Claimed(seen, queues, owner, limit, conn.now);
      rows := claimed;
      ghost var last := call[|call| - 1];
      assert last in call && Honest(conn.run, ClaimTx(queues, owner, limit), last);
      ClaimedIsReturned(seen, queues, owner, limit, conn.now);
      if !parses(claimed) { return Err(Unparsed), call, rows, []; }
      var tasks;
      tasks, parks := KeepOrPark(claimed, decodes);
      result := Ok(tasks);
    }
  }
}
