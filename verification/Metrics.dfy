/** The aggregates of the board: counts per queue and over all queues, and what they add up to. */
module Metrics {
  import opened Wrappers
  import opened JobTable
  import opened Protocol
  import opened Safety

  const HOUR: nat := 3_600_000_000_000
  const SECOND: nat := 1_000_000_000

  /** One row of the overview; durations are whole seconds. */
  datatype Counts = Counts(
    total: int, pending: int, running: int, failed: int, done: int, killed: int,
    backlog: int, pastHour: int, finished: int, durSecs: int)

  const ZERO := Counts(0, 0, 0, 0, 0, 0, 0, 0, 0, 0)

  function Plus(a: Counts, b: Counts): Counts {
    Counts(a.total + b.total, a.pending + b.pending, a.running + b.running, a.failed + b.failed, a.done + b.done,
           a.killed + b.killed, a.backlog + b.backlog, a.pastHour + b.pastHour, a.finished + b.finished,
           a.durSecs + b.durSecs)
  }

  function One(b: bool): int { if b then 1 else 0 }

  predicate HasDuration(job: Job) {
    job.status in {Done, Failed, Killed} && job.doneAt.Some? && job.lockAt.Some?
  }

  /** duration::secs, which truncates toward zero. */
  function Secs(nanos: int): (s: int)
    ensures nanos >= 0 ==> s >= 0
  {
    if nanos >= 0 then nanos / SECOND else -((-nanos) / SECOND)
  }

  function Tally(job: Job, now: Time): Counts {
    Counts(1, One(job.status == Pending), One(job.status == Running), One(job.status == Failed),
           One(job.status == Done), One(job.status == Killed),
           One(job.status == Pending && job.runAt <= now), One(job.runAt + HOUR >= now), One(HasDuration(job)),
           if HasDuration(job) then Secs(job.doneAt.value - job.lockAt.value) else 0)
  }

  type Tallies = map<JobId, Counts>

  function TalliesOf(jobs: Table, now: Time): Tallies {
    map id | id in jobs :: Tally(jobs[id], now)
  }

  lemma PlusLaws(a: Counts, b: Counts, c: Counts)
    ensures Plus(a, Plus(b, c)) == Plus(b, Plus(a, c))
    ensures Plus(Plus(a, b), c) == Plus(a, Plus(b, c))
    ensures Plus(ZERO, a) == a
  {
  }

  /** The total of some rows, added up in any order. */
  ghost function Total(tallies: Tallies, ids: set<JobId>): Counts
    requires ids <= tallies.Keys
    decreases |ids|
  {
    if ids == {} then ZERO
    else
      var id :| id in ids;
      Plus(tallies[id], Total(tallies, ids - {id}))
  }

  /** Any row may be counted first. */
  lemma {:induction false} TotalAny(tallies: Tallies, ids: set<JobId>, id: JobId)
    requires ids <= tallies.Keys && id in ids
    ensures Total(tallies, ids) == Plus(tallies[id], Total(tallies, ids - {id}))
    decreases |ids|
  {
    var first :| first in ids && Total(tallies, ids) == Plus(tallies[first], Total(tallies, ids - {first}));
    if first == id {
    } else {
      TotalAny(tallies, ids - {first}, id);
      TotalAny(tallies, ids - {id}, first);
      assert ids - {first} - {id} == ids - {id} - {first};
      PlusLaws(tallies[first], tallies[id], Total(tallies, ids - {first} - {id}));
    }
  }

  lemma {:induction false} TotalUnion(tallies: Tallies, a: set<JobId>, b: set<JobId>)
    requires a <= tallies.Keys && b <= tallies.Keys && a !! b
    ensures Total(tallies, a + b) == Plus(Total(tallies, a), Total(tallies, b))
    decreases |a|
  {
    if a == {} {
      assert a + b == b;
      PlusLaws(Total(tallies, b), ZERO, ZERO);
    } else {
      var id :| id in a;
      TotalAny(tallies, a, id);
      TotalAny(tallies, a + b, id);
      assert a + b - {id} == (a - {id}) + b;
      TotalUnion(tallies, a - {id}, b);
      PlusLaws(tallies[id], Total(tallies, a - {id}), Total(tallies, b));
    }
  }

  ghost function Aggregate(jobs: Table, ids: set<JobId>, now: Time): Counts
    requires ids <= jobs.Keys
  {
    Total(TalliesOf(jobs, now), ids)
  }

  function InQueues(jobs: Table, queues: set<Queue>): set<JobId> {
    set id | id in jobs && jobs[id].queue in queues
  }

  /** SELECT ... GROUP BY queue, one queue's row. */
  ghost function PerQueue(jobs: Table, queue: Queue, now: Time): Counts {
    Aggregate(jobs, InQueues(jobs, {queue}), now)
  }

  /** SELECT ... GROUP ALL. */
  ghost function Overview(jobs: Table, now: Time): Counts {
    Aggregate(jobs, jobs.Keys, now)
  }

  ghost function SumOf(jobs: Table, queues: seq<Queue>, now: Time): Counts {
    if queues == [] then ZERO else Plus(PerQueue(jobs, queues[0], now), SumOf(jobs, queues[1..], now))
  }

  function NamesIn(queues: seq<Queue>): set<Queue> {
    set q | q in queues
  }

  lemma NamesSplit(queues: seq<Queue>)
    requires queues != [] && Distinct(queues)
    ensures NamesIn(queues) == {queues[0]} + NamesIn(queues[1..]) && queues[0] !in NamesIn(queues[1..])
  {
  }

  lemma InQueuesSplit(jobs: Table, a: set<Queue>, b: set<Queue>)
    requires a !! b
    ensures InQueues(jobs, a + b) == InQueues(jobs, a) + InQueues(jobs, b) && InQueues(jobs, a) !! InQueues(jobs, b)
  {
  }

  lemma {:induction false} QueueRowsAddUp(jobs: Table, queues: seq<Queue>, now: Time)
    requires Distinct(queues)
    ensures SumOf(jobs, queues, now) == Aggregate(jobs, InQueues(jobs, NamesIn(queues)), now)
    decreases |queues|
  {
    if queues == [] {
      assert InQueues(jobs, NamesIn(queues)) == {};
    } else {
      QueueRowsAddUp(jobs, queues[1..], now);
      NamesSplit(queues);
      InQueuesSplit(jobs, {queues[0]}, NamesIn(queues[1..]));
      TotalUnion(TalliesOf(jobs, now), InQueues(jobs, {queues[0]}), InQueues(jobs, NamesIn(queues[1..])));
    }
  }

  /** However the queues are listed, their rows add up, field by field, to the overview of the same instant. */
  lemma QueuesSumToOverview(jobs: Table, queues: seq<Queue>, now: Time)
    requires Distinct(queues) && forall id :: id in jobs ==> jobs[id].queue in queues
    ensures SumOf(jobs, queues, now) == Overview(jobs, now)
  {
    QueueRowsAddUp(jobs, queues, now);
    assert InQueues(jobs, NamesIn(queues)) == jobs.Keys;
  }

  // ------------------------------------------------------ what the columns are

  function WithStatus(jobs: Table, ids: set<JobId>, status: Status): set<JobId> {
    set id | id in ids && id in jobs && jobs[id].status == status
  }

  /** Pending and past their run_at. */
  function Waiting(jobs: Table, ids: set<JobId>, now: Time): set<JobId> {
    set id | id in ids && id in jobs && jobs[id].status == Pending && jobs[id].runAt <= now
  }

  /** Scheduled within the last hour, or later. */
  function Recent(jobs: Table, ids: set<JobId>, now: Time): set<JobId> {
    set id | id in ids && id in jobs && now <= jobs[id].runAt + HOUR
  }

  /** Ended, and locked when they ended. */
  function Timed(jobs: Table, ids: set<JobId>): set<JobId> {
    set id | id in ids && id in jobs && jobs[id].status in {Done, Failed, Killed}
             && jobs[id].doneAt.Some? && jobs[id].lockAt.Some?
  }

  predicate CountsStatuses(c: Counts, jobs: Table, ids: set<JobId>) {
    && c.total == |ids|
    && c.pending == |WithStatus(jobs, ids, Pending)| && c.running == |WithStatus(jobs, ids, Running)|
    && c.failed == |WithStatus(jobs, ids, Failed)| && c.done == |WithStatus(jobs, ids, Done)|
    && c.killed == |WithStatus(jobs, ids, Killed)|
  }

  predicate CountsTimes(c: Counts, jobs: Table, ids: set<JobId>, now: Time) {
    && c.backlog == |Waiting(jobs, ids, now)| && c.pastHour == |Recent(jobs, ids, now)|
    && c.finished == |Timed(jobs, ids)|
  }

  lemma WithStatusNext(jobs: Table, ids: set<JobId>, id: JobId, status: Status)
    requires id in ids && ids <= jobs.Keys
    ensures |WithStatus(jobs, ids, status)| == One(jobs[id].status == status) + |WithStatus(jobs, ids - {id}, status)|
  {
    var rest := WithStatus(jobs, ids - {id}, status);
    assert WithStatus(jobs, ids, status) == if jobs[id].status == status then rest + {id} else rest;
  }

  lemma WaitingNext(jobs: Table, ids: set<JobId>, id: JobId, now: Time)
    requires id in ids && ids <= jobs.Keys
    ensures |Waiting(jobs, ids, now)|
         == One(jobs[id].status == Pending && jobs[id].runAt <= now) + |Waiting(jobs, ids - {id}, now)|
  {
    var rest := Waiting(jobs, ids - {id}, now);
    assert Waiting(jobs, ids, now) == if jobs[id].status == Pending && jobs[id].runAt <= now then rest + {id} else rest;
  }

  lemma RecentNext(jobs: Table, ids: set<JobId>, id: JobId, now: Time)
    requires id in ids && ids <= jobs.Keys
    ensures |Recent(jobs, ids, now)| == One(now <= jobs[id].runAt + HOUR) + |Recent(jobs, ids - {id}, now)|
  {
    var rest := Recent(jobs, ids - {id}, now);
    assert Recent(jobs, ids, now) == if now <= jobs[id].runAt + HOUR then rest + {id} else rest;
  }

  lemma TimedNext(jobs: Table, ids: set<JobId>, id: JobId)
    requires id in ids && ids <= jobs.Keys
    ensures |Timed(jobs, ids)| == One(HasDuration(jobs[id])) + |Timed(jobs, ids - {id})|
  {
    var rest := Timed(jobs, ids - {id});
    assert Timed(jobs, ids) == if HasDuration(jobs[id]) then rest + {id} else rest;
  }

  lemma StatusesNext(jobs: Table, ids: set<JobId>, id: JobId, now: Time, rest: Counts)
    requires id in ids && ids <= jobs.Keys && CountsStatuses(rest, jobs, ids - {id})
    ensures CountsStatuses(Plus(Tally(jobs[id], now), rest), jobs, ids)
  {
    WithStatusNext(jobs, ids, id, Pending);
    WithStatusNext(jobs, ids, id, Running);
    WithStatusNext(jobs, ids, id, Failed);
    WithStatusNext(jobs, ids, id, Done);
    WithStatusNext(jobs, ids, id, Killed);
    assert |ids| == 1 + |ids - {id}|;
  }

  lemma TimesNext(jobs: Table, ids: set<JobId>, id: JobId, now: Time, rest: Counts)
    requires id in ids && ids <= jobs.Keys && CountsTimes(rest, jobs, ids - {id}, now)
    ensures CountsTimes(Plus(Tally(jobs[id], now), rest), jobs, ids, now)
  {
    WaitingNext(jobs, ids, id, now);
    RecentNext(jobs, ids, id, now);
    TimedNext(jobs, ids, id);
  }

  lemma NothingToCount(jobs: Table, now: Time)
    ensures CountsStatuses(ZERO, jobs, {}) && CountsTimes(ZERO, jobs, {}, now)
  {
    assert forall status :: WithStatus(jobs, {}, status) == {};
    assert Waiting(jobs, {}, now) == {} && Recent(jobs, {}, now) == {} && Timed(jobs, {}) == {};
  }

  /** Every column of an aggregate is the number of its scope's rows that the column is named for. */
  lemma {:induction false} ColumnsCountRows(jobs: Table, ids: set<JobId>, now: Time)
    requires ids <= jobs.Keys
    ensures CountsStatuses(Aggregate(jobs, ids, now), jobs, ids)
    ensures CountsTimes(Aggregate(jobs, ids, now), jobs, ids, now)
    decreases |ids|
  {
    if ids == {} {
      NothingToCount(jobs, now);
    } else {
      var id :| id in ids;
      ColumnsCountRows(jobs, ids - {id}, now);
      TotalAny(TalliesOf(jobs, now), ids, id);
      StatusesNext(jobs, ids, id, now, Aggregate(jobs, ids - {id}, now));
      TimesNext(jobs, ids, id, now, Aggregate(jobs, ids - {id}, now));
    }
  }

  /** The duration column adds up, row by row, the whole seconds from lock to end of the timed rows. */
  lemma DurationsAddUp(jobs: Table, ids: set<JobId>, id: JobId, now: Time)
    requires ids <= jobs.Keys && id in ids
    ensures Aggregate(jobs, {}, now).durSecs == 0
    ensures var own := Aggregate(jobs, ids, now).durSecs - Aggregate(jobs, ids - {id}, now).durSecs;
            if id in Timed(jobs, ids) then
              jobs[id].lockAt.value <= jobs[id].doneAt.value ==>
                own * 1_000_000_000 <= jobs[id].doneAt.value - jobs[id].lockAt.value < (own + 1) * 1_000_000_000
            else own == 0
  {
    TotalAny(TalliesOf(jobs, now), ids, id);
  }

  // --------------------------------------------- agreement with the protocol

  /** The counts of n rows are consistent with each other, and no duration among them exceeds `cap` seconds. */
  predicate InRange(c: Counts, n: nat, cap: nat) {
    && 0 <= c.durSecs <= n * cap && 0 <= c.backlog <= c.pending && 0 <= c.finished <= c.done + c.failed + c.killed
    && c.total == n && 0 <= c.pastHour <= n && 0 <= c.pending + c.running + c.failed + c.done + c.killed <= n
    && 0 <= c.running && 0 <= c.failed && 0 <= c.done && 0 <= c.killed
  }

  /** Every column fits the signed 64-bit integer it is read into. */
  predicate FitsI64(c: Counts) {
    var columns := [c.total, c.pending, c.running, c.failed, c.done, c.killed,
                    c.backlog, c.pastHour, c.finished, c.durSecs];
    forall n :: n in columns ==> -I64_LIMIT <= n < I64_LIMIT
  }

  lemma TallyInRange(job: Job, now: Time, cap: nat)
    requires HasDuration(job) ==> job.lockAt.value <= job.doneAt.value && Secs(job.doneAt.value) <= cap
    ensures InRange(Tally(job, now), 1, cap)
  {
  }

  lemma PlusInRange(a: Counts, m: nat, b: Counts, n: nat, cap: nat)
    requires InRange(a, m, cap) && InRange(b, n, cap)
    ensures InRange(Plus(a, b), m + n, cap)
  {
    assert m * cap + n * cap == (m + n) * cap;
  }

  ghost predicate EachInRange(tallies: Tallies, ids: set<JobId>, cap: nat)
    requires ids <= tallies.Keys
  {
    forall id :: id in ids ==> InRange(tallies[id], 1, cap)
  }

  lemma OneMoreInRange(tallies: Tallies, ids: set<JobId>, id: JobId, cap: nat)
    requires ids <= tallies.Keys && id in ids && InRange(tallies[id], 1, cap)
    requires InRange(Total(tallies, ids - {id}), |ids - {id}|, cap)
    ensures InRange(Total(tallies, ids), |ids|, cap)
  {
    TotalAny(tallies, ids, id);
    PlusInRange(tallies[id], 1, Total(tallies, ids - {id}), |ids - {id}|, cap);
    assert |ids| == 1 + |ids - {id}|;
  }

  lemma {:induction false} TotalInRange(tallies: Tallies, ids: set<JobId>, cap: nat)
    requires ids <= tallies.Keys && EachInRange(tallies, ids, cap)
    ensures InRange(Total(tallies, ids), |ids|, cap)
    decreases |ids|
  {
    if ids == {} {
    } else {
      var id :| id in ids;
      TotalInRange(tallies, ids - {id}, cap);
      OneMoreInRange(tallies, ids, id, cap);
    }
  }

  lemma InRangeFits(c: Counts, n: nat, cap: nat)
    requires InRange(c, n, cap) && n < I64_LIMIT && n * cap < I64_LIMIT
    ensures FitsI64(c)
  {
  }

  /** In every state of every run, each finished job was locked before it was done, and not after the present: so
      every scope's summed duration is non-negative and its counts are consistent, and they all fit their columns
      while the number of rows, and that number times the seconds of the clock, do. */
  lemma DurationsAreNonNegative(env: Env, r: Run, i: nat, ids: set<JobId>, now: Time)
    requires IsRun(env, r) && i < |r.states| && ids <= r.states[i].jobs.Keys
    ensures forall id :: id in ids && HasDuration(r.states[i].jobs[id]) ==>
              r.states[i].jobs[id].lockAt.value <= r.states[i].jobs[id].doneAt.value
    ensures InRange(Aggregate(r.states[i].jobs, ids, now), |ids|, Secs(r.states[i].now))
    ensures |ids| < I64_LIMIT && |ids| * Secs(r.states[i].now) < I64_LIMIT
            ==> FitsI64(Aggregate(r.states[i].jobs, ids, now))
  {
    RunSafe(env, r, i);
    var jobs, cap := r.states[i].jobs, Secs(r.states[i].now);
    var tallies := TalliesOf(jobs, now);
    forall id | id in ids
      ensures HasDuration(jobs[id]) ==> jobs[id].lockAt.value <= jobs[id].doneAt.value
      ensures InRange(tallies[id], 1, cap)
    {
      assert JobOk(env, r.states[i], jobs[id]);
      TallyInRange(jobs[id], now, cap);
    }
    TotalInRange(tallies, ids, cap);
    if |ids| < I64_LIMIT && |ids| * cap < I64_LIMIT { InRangeFits(Aggregate(jobs, ids, now), |ids|, cap); }
  }
}
