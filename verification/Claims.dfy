/** Claim order: what ORDER BY ... LIMIT selects, and how successive claims drain a queue. */
module Claims {
  import opened Wrappers
  import opened JobTable

  function Min(a: nat, b: nat): nat { if a <= b then a else b }

  /** `s` lists exactly `ids`, each once, every earlier id before every later one. */
  ghost predicate IsRanking(jobs: Table, ids: set<JobId>, s: seq<JobId>)
  {
    && (forall id :: id in s <==> id in ids)
    && Ascending(jobs, s)
  }

  ghost predicate Ascending(jobs: Table, s: seq<JobId>) {
    forall i, j :: 0 <= i < j < |s| ==> Before(jobs, s[i], s[j])
  }

  /** The due rows of some queues, best first. */
  ghost predicate RanksDue(jobs: Table, queues: set<Queue>, now: Time, s: seq<JobId>) {
    IsRanking(jobs, DueIds(jobs, queues, now), s)
  }

  lemma RankingCons(jobs: Table, ids: set<JobId>, x: JobId, tail: seq<JobId>)
    requires x in ids && IsRanking(jobs, ids - {x}, tail)
    requires forall y :: y in ids && y != x ==> Before(jobs, x, y)
    ensures IsRanking(jobs, ids, [x] + tail)
  {
  }

  lemma {:induction false} OrderByRanks(jobs: Table, ids: set<JobId>)
    requires ids <= jobs.Keys
    ensures IsRanking(jobs, ids, OrderBy(jobs, ids))
    decreases |ids|
  {
    if ids == {} {
    } else {
      var x := First(jobs, ids);
      OrderByRanks(jobs, ids - {x});
      RankingCons(jobs, ids, x, OrderBy(jobs, ids - {x}));
    }
  }

  lemma RankingHead(jobs: Table, ids: set<JobId>, s: seq<JobId>)
    requires IsRanking(jobs, ids, s)
    ensures s == [] <==> ids == {}
    ensures s != [] ==> s[0] in ids && forall y :: y in ids && y != s[0] ==> Before(jobs, s[0], y)
  {
    if s != [] { assert s[0] in s; }
  }

  lemma RankingDrop(jobs: Table, ids: set<JobId>, s: seq<JobId>, k: nat)
    requires k <= |s| && IsRanking(jobs, ids, s)
    ensures IsRanking(jobs, ids - (set id | id in s[..k]), s[k..])
  {
  }

  lemma RankingTail(jobs: Table, ids: set<JobId>, s: seq<JobId>)
    requires s != [] && IsRanking(jobs, ids, s)
    ensures IsRanking(jobs, ids - {s[0]}, s[1..])
  {
  }

  /** The order is total: any two rankings of the same rows are the same list, even when taken from
      two tables, as long as they agree on the ordering columns. */
  lemma {:induction false} RankingUnique(a: Table, b: Table, ids: set<JobId>, s: seq<JobId>, t: seq<JobId>)
    requires ids <= a.Keys && ids <= b.Keys
    requires forall id :: id in ids ==> SameSpec(a[id], b[id])
    requires IsRanking(a, ids, s) && IsRanking(b, ids, t)
    ensures s == t
    decreases |s|
  {
    RankingHead(a, ids, s);
    RankingHead(b, ids, t);
    if s == [] {
    } else {
      assert s[0] == t[0];
      RankingTail(a, ids, s);
      RankingTail(b, ids, t);
      RankingUnique(a, b, ids - {s[0]}, s[1..], t[1..]);
      assert s == [s[0]] + s[1..] && t == [t[0]] + t[1..];
    }
  }

  /** ORDER BY ... LIMIT takes the front of the ranking of the due rows. */
  lemma BatchIsFront(jobs: Table, queues: set<Queue>, limit: nat, now: Time, ranked: seq<JobId>)
    requires RanksDue(jobs, queues, now, ranked)
    ensures Batch(jobs, queues, limit, now) == ranked[..Min(limit, |ranked|)]
  {
    var due := DueIds(jobs, queues, now);
    OrderByRanks(jobs, due);
    RankingUnique(jobs, jobs, due, ranked, OrderBy(jobs, due));
  }

  lemma DueIsRanked(jobs: Table, queues: set<Queue>, now: Time) returns (ranked: seq<JobId>)
    ensures RanksDue(jobs, queues, now, ranked)
    ensures |ranked| == |DueIds(jobs, queues, now)|
  {
    ranked := OrderBy(jobs, DueIds(jobs, queues, now));
    OrderByRanks(jobs, DueIds(jobs, queues, now));
  }

  /** Every due row a claim leaves behind comes after every row it takes, and it takes as many as it may. */
  lemma BatchIsBest(jobs: Table, queues: set<Queue>, limit: nat, now: Time)
    ensures |Batch(jobs, queues, limit, now)| == Min(limit, |DueIds(jobs, queues, now)|)
    ensures forall taken, left :: (&& taken in Batch(jobs, queues, limit, now)
                                   && left in DueIds(jobs, queues, now)
                                   && left !in Batch(jobs, queues, limit, now))
                                  ==> Before(jobs, taken, left)
  {
    var ranked := DueIsRanked(jobs, queues, now);
    BatchIsFront(jobs, queues, limit, now, ranked);
    var batch := Batch(jobs, queues, limit, now);
    forall taken, left | taken in batch && left in DueIds(jobs, queues, now) && left !in batch
      ensures Before(jobs, taken, left)
    {
      var i :| 0 <= i < |batch| && batch[i] == taken;
      assert left in ranked;
      var j :| 0 <= j < |ranked| && ranked[j] == left;
      assert forall m :: 0 <= m < |batch| ==> batch[m] == ranked[m] && batch[m] in batch;
      assert |batch| <= j;
    }
  }

  // ---------------------------------------------------------------- draining

  /** One claim of a run: `owner` is Some for a polling claim and None for the shared driver's. */
  datatype ClaimCall = ClaimCall(owner: Option<Instance>, limit: nat)

  function Drained(jobs: Table, queues: set<Queue>, now: Time, calls: seq<ClaimCall>): Table
    decreases |calls|
  {
    if calls == [] then jobs
    else Drained(Claim(jobs, queues, calls[0].owner, calls[0].limit, now), queues, now, calls[1..])
  }

  /** The batches those claims return, in call order. */
  function Batches(jobs: Table, queues: set<Queue>, now: Time, calls: seq<ClaimCall>): (b: seq<seq<JobId>>)
    ensures |b| == |calls|
    decreases |calls|
  {
    if calls == [] then []
    else [Batch(jobs, queues, calls[0].limit, now)]
         + Batches(Claim(jobs, queues, calls[0].owner, calls[0].limit, now), queues, now, calls[1..])
  }

  function Concat<T>(parts: seq<seq<T>>): seq<T> {
    if parts == [] then [] else parts[0] + Concat(parts[1..])
  }

  function LimitSum(calls: seq<ClaimCall>): nat {
    if calls == [] then 0 else calls[0].limit + LimitSum(calls[1..])
  }

  lemma ClaimIdsDue(jobs: Table, queues: set<Queue>, ids: seq<JobId>, owner: Option<Instance>, now: Time)
    ensures DueIds(ClaimIds(jobs, ids, owner, now), queues, now) == DueIds(jobs, queues, now) - (set id | id in ids)
  {
  }

  lemma ClaimKeepsOrder(jobs: Table, ids: seq<JobId>, owner: Option<Instance>, now: Time, s: seq<JobId>)
    requires Ascending(jobs, s)
    ensures Ascending(ClaimIds(jobs, ids, owner, now), s)
  {
  }

  /** A claim removes exactly its batch from the due rows and keeps the order of the others. */
  lemma ClaimDropsFront(jobs: Table, queues: set<Queue>, now: Time, ranked: seq<JobId>, k: nat, owner: Option<Instance>)
    requires k <= |ranked| && RanksDue(jobs, queues, now, ranked)
    ensures RanksDue(ClaimIds(jobs, ranked[..k], owner, now), queues, now, ranked[k..])
  {
    ClaimIdsDue(jobs, queues, ranked[..k], owner, now);
    RankingDrop(jobs, DueIds(jobs, queues, now), ranked, k);
    ClaimKeepsOrder(jobs, ranked[..k], owner, now, ranked[k..]);
  }

  lemma FirstCall(jobs: Table, queues: set<Queue>, now: Time, calls: seq<ClaimCall>, batch: seq<JobId>, after: Table)
    requires calls != [] && batch == Batch(jobs, queues, calls[0].limit, now)
    requires after == ClaimIds(jobs, batch, calls[0].owner, now)
    ensures Batches(jobs, queues, now, calls) == [batch] + Batches(after, queues, now, calls[1..])
    ensures Concat(Batches(jobs, queues, now, calls)) == batch + Concat(Batches(after, queues, now, calls[1..]))
    ensures Drained(jobs, queues, now, calls) == Drained(after, queues, now, calls[1..])
  {
  }

  lemma PrefixSplit(ranked: seq<JobId>, a: nat, b: nat)
    ensures var k := Min(a, |ranked|);
            var m := Min(b, |ranked| - k);
            && ranked[..k] + ranked[k..][..m] == ranked[..Min(a + b, |ranked|)]
            && ranked[k..][m..] == ranked[Min(a + b, |ranked|)..]
  {
  }

  /** At a fixed clock, any sequence of claims by any claimants with any limits hands out the due rows
      best first: the batches joined together are the front of the ranking, as far as the limits allow,
      and what stays due is the rest of it. */
  lemma {:induction false} ClaimsDrainInOrder(jobs: Table, queues: set<Queue>, now: Time, calls: seq<ClaimCall>,
      ranked: seq<JobId>)
    requires RanksDue(jobs, queues, now, ranked)
    ensures Concat(Batches(jobs, queues, now, calls)) == ranked[..Min(LimitSum(calls), |ranked|)]
    ensures RanksDue(Drained(jobs, queues, now, calls), queues, now, ranked[Min(LimitSum(calls), |ranked|)..])
    decreases |calls|
  {
    if calls == [] {
      assert ranked[0..] == ranked;
    } else {
      var k := Min(calls[0].limit, |ranked|);
      var after := ClaimIds(jobs, ranked[..k], calls[0].owner, now);
      BatchIsFront(jobs, queues, calls[0].limit, now, ranked);
      ClaimDropsFront(jobs, queues, now, ranked, k, calls[0].owner);
      ClaimsDrainInOrder(after, queues, now, calls[1..], ranked[k..]);
      FirstCall(jobs, queues, now, calls, ranked[..k], after);
      PrefixSplit(ranked, calls[0].limit, LimitSum(calls[1..]));
    }
  }

  lemma ConcatMember<T>(parts: seq<seq<T>>, i: nat, x: T)
    requires i < |parts| && x in parts[i]
    ensures x in Concat(parts)
  {
    if i == 0 {
    } else {
      ConcatMember(parts[1..], i - 1, x);
    }
  }

  /** What a claim takes, no later claim at that clock returns. */
  lemma TakenOnce(jobs: Table, queues: set<Queue>, now: Time, ids: seq<JobId>, owner: Option<Instance>,
                  calls: seq<ClaimCall>, id: JobId)
    requires id in ids
    ensures id !in Concat(Batches(ClaimIds(jobs, ids, owner, now), queues, now, calls))
  {
    var after := ClaimIds(jobs, ids, owner, now);
    ClaimIdsDue(jobs, queues, ids, owner, now);
    var ranked := DueIsRanked(after, queues, now);
    ClaimsDrainInOrder(after, queues, now, calls, ranked);
    assert id !in ranked;
  }

  /** No two claims of such a run return the same row. */
  lemma {:induction false} BatchesDisjoint(jobs: Table, queues: set<Queue>, now: Time, calls: seq<ClaimCall>, i: nat,
      j: nat, id: JobId)
    requires i < j < |calls|
    requires id in Batches(jobs, queues, now, calls)[i]
    ensures id !in Batches(jobs, queues, now, calls)[j]
    decreases i
  {
    var batch := Batch(jobs, queues, calls[0].limit, now);
    var after := ClaimIds(jobs, batch, calls[0].owner, now);
    var tail := Batches(after, queues, now, calls[1..]);
    FirstCall(jobs, queues, now, calls, batch, after);
    if i > 0 {
      BatchesDisjoint(after, queues, now, calls[1..], i - 1, j - 1, id);
    } else {
      TakenOnce(jobs, queues, now, batch, calls[0].owner, calls[1..], id);
      if id in tail[j - 1] { ConcatMember(tail, j - 1, id); }
    }
  }
}
