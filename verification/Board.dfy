/** The queue listing: counts, activity and workers joined into one entry per queue. */
module Board {
  import opened JobTable
  import opened Metrics

  const SECS_PER_DAY: int := 86_400
  const ACTIVITY_DAYS: int := 7
  const DAY: nat := 24 * HOUR

  datatype CountsRow = CountsRow(queue: Queue, counts: Counts)
  datatype ActivityRow = ActivityRow(queue: Queue, day: int, doneCount: nat)
  datatype NameRow = NameRow(name: string, queue: Queue)
  datatype QueueInfo = QueueInfo(name: Queue, stats: Counts, workers: seq<string>, activity: seq<nat>)

  const NO_ACTIVITY: seq<nat> := [0, 0, 0, 0, 0, 0, 0]

  /** Integer division that truncates toward zero. */
  function TruncDiv(a: int, b: int): int
    requires b > 0
  {
    if a >= 0 then a / b else -((-a) / b)
  }

  function Offset(row: ActivityRow, today: int): int {
    today - TruncDiv(row.day, SECS_PER_DAY)
  }

  /** The count of the last of the first n rows for this queue and slot; zero without one. */
  function SlotCount(rows: seq<ActivityRow>, n: nat, today: int, queue: Queue, slot: int): nat
    requires n <= |rows|
  {
    if n == 0 then 0
    else
      var row := rows[n - 1];
      if row.queue == queue && Offset(row, today) == ACTIVITY_DAYS - 1 - slot then row.doneCount
      else SlotCount(rows, n - 1, today, queue, slot)
  }

  /** Seven slots, each the count of its day; days outside the range are dropped. */
  ghost predicate ShowsDays(days: seq<nat>, rows: seq<ActivityRow>, n: nat, today: int, queue: Queue)
    requires n <= |rows|
  {
    && |days| == ACTIVITY_DAYS
    && forall slot :: 0 <= slot < ACTIVITY_DAYS ==> days[slot] == SlotCount(rows, n, today, queue, slot)
  }

  function DaysOf(daily: map<Queue, seq<nat>>, queue: Queue): seq<nat> {
    if queue in daily then daily[queue] else NO_ACTIVITY
  }

  ghost predicate DailyOk(daily: map<Queue, seq<nat>>, rows: seq<ActivityRow>, n: nat, today: int)
    requires n <= |rows|
  {
    forall q :: ShowsDays(DaysOf(daily, q), rows, n, today, q)
  }

  lemma NextDay(daily: map<Queue, seq<nat>>, rows: seq<ActivityRow>, n: nat, today: int, daily': map<Queue, seq<nat>>)
    requires n < |rows| && DailyOk(daily, rows, n, today)
    requires var row := rows[n];
             var offset := Offset(row, today);
             var days := DaysOf(daily, row.queue);
             daily' == if 0 <= offset < ACTIVITY_DAYS && |days| == ACTIVITY_DAYS
                       then daily[row.queue := days[ACTIVITY_DAYS - 1 - offset := row.doneCount]] else daily
    ensures DailyOk(daily', rows, n + 1, today)
  {
    assert ShowsDays(DaysOf(daily, rows[n].queue), rows, n, today, rows[n].queue);
    forall q
      ensures ShowsDays(DaysOf(daily', q), rows, n + 1, today, q)
    {
      assert ShowsDays(DaysOf(daily, q), rows, n, today, q);
    }
  }

  /** Bucketing the activity rows by day; no index is ever out of range. */
  method Bucket(rows: seq<ActivityRow>, today: int) returns (daily: map<Queue, seq<nat>>)
    ensures DailyOk(daily, rows, |rows|, today)
  {
    daily := map[];
    for i := 0 to |rows|
      invariant DailyOk(daily, rows, i, today)
    {
      var row := rows[i];
      var offset := Offset(row, today);
      ghost var before := daily;
      if 0 <= offset < ACTIVITY_DAYS {
        var days := DaysOf(daily, row.queue);
        assert ShowsDays(days, rows, i, today, row.queue);
        daily := daily[row.queue := days[ACTIVITY_DAYS - 1 - offset := row.doneCount]];
      }
      assert ShowsDays(DaysOf(before, row.queue), rows, i, today, row.queue);
      NextDay(before, rows, i, today, daily);
    }
  }

  predicate OncePerQueue(counts: seq<CountsRow>) {
    forall i, j :: 0 <= i < j < |counts| ==> counts[i].queue != counts[j].queue
  }

  /** The names of the first n worker rows of a queue, in row order. */
  function NamesOf(workers: seq<NameRow>, n: nat, queue: Queue): seq<string>
    requires n <= |workers|
  {
    if n == 0 then []
    else NamesOf(workers, n - 1, queue) + (if workers[n - 1].queue == queue then [workers[n - 1].name] else [])
  }

  ghost predicate IsCounted(counts: seq<CountsRow>, c: nat, queue: Queue)
    requires c <= |counts|
  {
    exists i :: 0 <= i < c && counts[i].queue == queue
  }

  ghost predicate HasWorker(workers: seq<NameRow>, w: nat, queue: Queue)
    requires w <= |workers|
  {
    exists k :: 0 <= k < w && workers[k].queue == queue
  }

  /** The statistics and days of a queue: those of its counts row, or zeros when only its workers are known. */
  ghost predicate ShowsCounts(info: QueueInfo, counts: seq<CountsRow>, c: nat, activity: seq<ActivityRow>, today: int)
    requires c <= |counts|
  {
    if IsCounted(counts, c, info.name)
    then && (exists i :: 0 <= i < c && counts[i].queue == info.name && counts[i].counts == info.stats)
         && ShowsDays(info.activity, activity, |activity|, today, info.name)
    else info.stats == ZERO && info.activity == NO_ACTIVITY
  }

  /** The entry of one queue after c counts rows and w worker rows. */
  ghost predicate EntryOk(info: QueueInfo, counts: seq<CountsRow>, c: nat, activity: seq<ActivityRow>,
                          workers: seq<NameRow>, w: nat, today: int, queue: Queue)
    requires c <= |counts| && w <= |workers|
  {
    info.name == queue && ShowsCounts(info, counts, c, activity, today) && info.workers == NamesOf(workers, w, queue)
  }

  ghost predicate EntriesOk(queues: map<Queue, QueueInfo>, counts: seq<CountsRow>, c: nat, activity: seq<ActivityRow>,
                            workers: seq<NameRow>, w: nat, today: int)
    requires c <= |counts| && w <= |workers|
  {
    && (forall q :: q in queues <==> IsCounted(counts, c, q) || HasWorker(workers, w, q))
    && (forall q :: q in queues ==> EntryOk(queues[q], counts, c, activity, workers, w, today, q))
  }

  lemma NamesOfNone(workers: seq<NameRow>, n: nat, queue: Queue)
    requires n <= |workers| && !HasWorker(workers, n, queue)
    ensures NamesOf(workers, n, queue) == []
  {
  }

  lemma NextCounts(queues: map<Queue, QueueInfo>, counts: seq<CountsRow>, c: nat, activity: seq<ActivityRow>,
                   workers: seq<NameRow>, today: int, info: QueueInfo)
    requires c < |counts| && OncePerQueue(counts) && EntriesOk(queues, counts, c, activity, workers, 0, today)
    requires info.name == counts[c].queue && info.stats == counts[c].counts && info.workers == []
    requires ShowsDays(info.activity, activity, |activity|, today, counts[c].queue)
    ensures EntriesOk(queues[counts[c].queue := info], counts, c + 1, activity, workers, 0, today)
  {
    var queues' := queues[counts[c].queue := info];
    forall q
      ensures q in queues' <==> IsCounted(counts, c + 1, q) || HasWorker(workers, 0, q)
    {
      assert q in queues <==> IsCounted(counts, c, q) || HasWorker(workers, 0, q);
    }
    forall q | q in queues'
      ensures EntryOk(queues'[q], counts, c + 1, activity, workers, 0, today, q)
    {
      if q != counts[c].queue { assert EntryOk(queues[q], counts, c, activity, workers, 0, today, q); }
    }
  }

  lemma HasWorkerNext(workers: seq<NameRow>, w: nat, q: Queue)
    requires w < |workers|
    ensures HasWorker(workers, w + 1, q) <==> HasWorker(workers, w, q) || q == workers[w].queue
  {
  }

  lemma NextWorker(queues: map<Queue, QueueInfo>, counts: seq<CountsRow>, activity: seq<ActivityRow>,
                   workers: seq<NameRow>, w: nat, today: int, info: QueueInfo)
    requires w < |workers| && EntriesOk(queues, counts, |counts|, activity, workers, w, today)
    requires var q := workers[w].queue; info == if q in queues then queues[q] else QueueInfo(q, ZERO, [], NO_ACTIVITY)
    ensures var info' := info.(workers := info.workers + [workers[w].name]);
            EntriesOk(queues[workers[w].queue := info'], counts, |counts|, activity, workers, w + 1, today)
  {
    var queue := workers[w].queue;
    var queues' := queues[queue := info.(workers := info.workers + [workers[w].name])];
    if queue in queues {
      assert EntryOk(queues[queue], counts, |counts|, activity, workers, w, today, queue);
    } else {
      assert !IsCounted(counts, |counts|, queue);
      NamesOfNone(workers, w, queue);
    }
    forall q
      ensures q in queues' <==> IsCounted(counts, |counts|, q) || HasWorker(workers, w + 1, q)
    {
      HasWorkerNext(workers, w, q);
      assert q in queues <==> IsCounted(counts, |counts|, q) || HasWorker(workers, w, q);
    }
    forall q | q in queues'
      ensures EntryOk(queues'[q], counts, |counts|, activity, workers, w + 1, today, q)
    {
      if q != queue { assert EntryOk(queues[q], counts, |counts|, activity, workers, w, today, q); }
    }
  }

  // ------------------------------------------------------------ order of names

  /** The order of strings: the first differing character decides. */
  predicate NameLess(a: string, b: string) {
    b != [] && (a == [] || a[0] < b[0] || (a[0] == b[0] && NameLess(a[1..], b[1..])))
  }

  lemma {:induction false} NameLessIsStrict(a: string, b: string)
    ensures NameLess(a, b) ==> !NameLess(b, a)
    ensures a != b ==> NameLess(a, b) || NameLess(b, a)
  {
    if a == [] || b == [] {
    } else {
      NameLessIsStrict(a[1..], b[1..]);
      assert a == [a[0]] + a[1..] && b == [b[0]] + b[1..];
    }
  }

  lemma {:induction false} NameLessIsTransitive(a: string, b: string, c: string)
    requires NameLess(a, b) && NameLess(b, c)
    ensures NameLess(a, c)
  {
    if a == [] {
    } else if a[0] == b[0] == c[0] {
      NameLessIsTransitive(a[1..], b[1..], c[1..]);
    }
  }

  predicate IsLeast(names: set<string>, m: string) {
    m in names && forall q :: q in names && q != m ==> NameLess(m, q)
  }

  lemma {:induction false} LeastExists(names: set<string>)
    requires names != {}
    ensures exists m :: IsLeast(names, m)
    decreases |names|
  {
    var a :| a in names;
    if names == {a} {
      assert IsLeast(names, a);
    } else {
      LeastExists(names - {a});
      var b :| IsLeast(names - {a}, b);
      NameLessIsStrict(a, b);
      forall q | q in names - {a, b} && NameLess(a, b)
        ensures NameLess(a, q)
      {
        NameLessIsTransitive(a, b, q);
      }
      assert IsLeast(names, if NameLess(a, b) then a else b);
    }
  }

  function Least(names: set<string>): (m: string)
    requires names != {}
    ensures IsLeast(names, m)
  {
    LeastExists(names);
    LeastIsUnique(names);
    var m :| IsLeast(names, m);
    m
  }

  lemma LeastIsUnique(names: set<string>)
    ensures forall m, m' :: IsLeast(names, m) && IsLeast(names, m') ==> m == m'
  {
    forall m, m' | IsLeast(names, m) && IsLeast(names, m')
      ensures m == m'
    {
      NameLessIsStrict(m, m');
    }
  }

  /** Strictly ascending by name, so no name comes twice. */
  ghost predicate AscendingNames(listing: seq<QueueInfo>) {
    forall i, j :: 0 <= i < j < |listing| ==> NameLess(listing[i].name, listing[j].name)
  }

  ghost predicate IsListed(listing: seq<QueueInfo>, queue: Queue) {
    exists i :: 0 <= i < |listing| && listing[i].name == queue
  }

  /** The values of the ordered map, in key order. */
  method Values(queues: map<Queue, QueueInfo>) returns (listing: seq<QueueInfo>)
    requires forall q :: q in queues ==> queues[q].name == q
    ensures AscendingNames(listing) && forall q :: IsListed(listing, q) <==> q in queues
    ensures forall i :: 0 <= i < |listing| ==> listing[i].name in queues && listing[i] == queues[listing[i].name]
  {
    listing := [];
    var rest := queues.Keys;
    while rest != {}
      invariant rest <= queues.Keys && AscendingNames(listing)
      invariant forall q :: IsListed(listing, q) <==> q in queues.Keys - rest
      invariant forall i :: 0 <= i < |listing| ==> listing[i].name in queues && listing[i] == queues[listing[i].name]
      invariant forall i, q :: 0 <= i < |listing| && q in rest ==> NameLess(listing[i].name, q)
      decreases |rest|
    {
      var q := Least(rest);
      IsListedNext(listing, queues[q]);
      listing := listing + [queues[q]];
      rest := rest - {q};
    }
  }

  lemma IsListedNext(listing: seq<QueueInfo>, info: QueueInfo)
    ensures forall q :: IsListed(listing + [info], q) <==> IsListed(listing, q) || q == info.name
  {
    forall q
      ensures IsListed(listing + [info], q) <==> IsListed(listing, q) || q == info.name
    {
      if q == info.name { assert (listing + [info])[|listing|].name == q; }
      if i :| 0 <= i < |listing| && listing[i].name == q { assert (listing + [info])[i].name == q; }
    }
  }

  // ---------------------------------------------------------------- the listing

  /** Every queue with jobs or workers appears once, in name order, with exactly its worker rows. A queue with a
      counts row shows its counts and its own seven days, one known by its workers alone shows zeros; activity
      of a queue that is neither, from a job finished after the counts were read, is not listed. */
  method ListQueues(counts: seq<CountsRow>, activity: seq<ActivityRow>, workers: seq<NameRow>, today: int)
    returns (listing: seq<QueueInfo>)
    requires OncePerQueue(counts)
    ensures AscendingNames(listing)
    ensures forall q :: IsListed(listing, q) <==> IsCounted(counts, |counts|, q) || HasWorker(workers, |workers|, q)
    ensures forall i :: 0 <= i < |listing| ==>
              EntryOk(listing[i], counts, |counts|, activity, workers, |workers|, today, listing[i].name)
  {
    var daily := Bucket(activity, today);
    var queues: map<Queue, QueueInfo> := map[];
    for i := 0 to |counts|
      invariant EntriesOk(queues, counts, i, activity, workers, 0, today)
      invariant forall k :: i <= k < |counts| ==>
                  ShowsDays(DaysOf(daily, counts[k].queue), activity, |activity|, today, counts[k].queue)
    {
      var queue := counts[i].queue;
      var info := QueueInfo(queue, counts[i].counts, [], DaysOf(daily, queue));
      daily := daily - {queue};
      NextCounts(queues, counts, i, activity, workers, today, info);
      queues := queues[queue := info];
    }
    for k := 0 to |workers|
      invariant EntriesOk(queues, counts, |counts|, activity, workers, k, today)
    {
      var queue := workers[k].queue;
      var info := if queue in queues then queues[queue] else QueueInfo(queue, ZERO, [], NO_ACTIVITY);
      NextWorker(queues, counts, activity, workers, k, today, info);
      queues := queues[queue := info.(workers := info.workers + [workers[k].name])];
    }
    listing := Values(queues);
  }

  // ------------------------------------------------- what the slots count

  function DayOf(t: Time): nat { t / DAY }

  /** time::unix and chrono's timestamp: whole seconds. */
  function Unix(t: Time): nat { t / SECOND }

  /** time::floor to one day. */
  function FloorDay(t: Time): Time { t / DAY * DAY }

  /** The client's day number. */
  function Today(clock: Time): int { TruncDiv(Unix(clock), SECS_PER_DAY) }

  /** The rows of the activity query: Done jobs of the last seven times 24 hours, grouped by queue and day. */
  function DoneSince(jobs: Table, now: Time, queue: Queue, day: int): set<JobId> {
    set id | id in jobs && jobs[id].status == Done && jobs[id].doneAt.Some? && jobs[id].doneAt.value + 7 * DAY >= now
             && jobs[id].queue == queue && Unix(FloorDay(jobs[id].doneAt.value)) == day
  }

  ghost predicate IsActivity(jobs: Table, now: Time, rows: seq<ActivityRow>) {
    && (forall i :: 0 <= i < |rows| ==>
          && rows[i].doneCount == |DoneSince(jobs, now, rows[i].queue, rows[i].day)|
          && exists t: Time :: rows[i].day == Unix(FloorDay(t)))
    && (forall i, j :: 0 <= i < j < |rows| ==> rows[i].queue != rows[j].queue || rows[i].day != rows[j].day)
    && (forall q, day :: DoneSince(jobs, now, q, day) != {} ==>
          exists i :: 0 <= i < |rows| && rows[i].queue == q && rows[i].day == day)
  }

  /** All Done jobs of one queue and calendar day, with no other limit. */
  function DoneOnDay(jobs: Table, queue: Queue, day: int): set<JobId> {
    set id | id in jobs && jobs[id].status == Done && jobs[id].doneAt.Some?
             && jobs[id].queue == queue && DayOf(jobs[id].doneAt.value) == day
  }

  lemma {:induction false} SlotCountIs(rows: seq<ActivityRow>, n: nat, today: int, queue: Queue, slot: int, i: nat)
    requires i < n <= |rows| && rows[i].queue == queue && Offset(rows[i], today) == ACTIVITY_DAYS - 1 - slot
    requires forall k :: i < k < n ==> rows[k].queue != queue || Offset(rows[k], today) != ACTIVITY_DAYS - 1 - slot
    ensures SlotCount(rows, n, today, queue, slot) == rows[i].doneCount
  {
    if i == n - 1 {
    } else {
      SlotCountIs(rows, n - 1, today, queue, slot, i);
    }
  }

  lemma {:induction false} SlotCountNone(rows: seq<ActivityRow>, n: nat, today: int, queue: Queue, slot: int)
    requires n <= |rows|
    requires forall k :: 0 <= k < n ==> rows[k].queue != queue || Offset(rows[k], today) != ACTIVITY_DAYS - 1 - slot
    ensures SlotCount(rows, n, today, queue, slot) == 0
  {
    if n == 0 {
    } else {
      SlotCountNone(rows, n - 1, today, queue, slot);
    }
  }

  /** The seconds of a floored instant, divided as the client divides them, number its day. */
  lemma SecondsNumberDays(t: Time)
    ensures Unix(FloorDay(t)) == DayOf(t) * SECS_PER_DAY
    ensures TruncDiv(Unix(FloorDay(t)), SECS_PER_DAY) == DayOf(t)
    ensures Today(t) == DayOf(t)
  {
  }

  /** The seven-day filter never cuts into the days shown. */
  lemma FilterSparesShownDays(jobs: Table, now: Time, queue: Queue, day: int)
    requires DayOf(now) - 6 <= day
    ensures DoneSince(jobs, now, queue, day * SECS_PER_DAY) == DoneOnDay(jobs, queue, day)
  {
    forall id | id in jobs && jobs[id].doneAt.Some?
      ensures Unix(FloorDay(jobs[id].doneAt.value)) == DayOf(jobs[id].doneAt.value) * SECS_PER_DAY
    {
      SecondsNumberDays(jobs[id].doneAt.value);
    }
  }

  /** Slot i of a queue is the number of its jobs done on the client's day less 6 - i, all of them: for every slot
      while the client's day is not behind the database's, else for the slots whose day the database's filter still
      covers. The database numbers days in seconds, the client in days. */
  lemma SlotCountsItsDay(jobs: Table, now: Time, rows: seq<ActivityRow>, clock: Time, queue: Queue, slot: int)
    requires IsActivity(jobs, now, rows) && 0 <= slot < ACTIVITY_DAYS && DayOf(now) <= DayOf(clock) + slot
    ensures SlotCount(rows, |rows|, Today(clock), queue, slot) == |DoneOnDay(jobs, queue, DayOf(clock) - 6 + slot)|
  {
    var today: int := DayOf(clock);
    var day := today - 6 + slot;
    SecondsNumberDays(clock);
    FilterSparesShownDays(jobs, now, queue, day);
    forall k | 0 <= k < |rows|
      ensures Offset(rows[k], today) == ACTIVITY_DAYS - 1 - slot <==> rows[k].day == day * SECS_PER_DAY
    {
      var t: Time :| rows[k].day == Unix(FloorDay(t));
      SecondsNumberDays(t);
    }
    if i: nat :| i < |rows| && rows[i].queue == queue && rows[i].day == day * SECS_PER_DAY {
      SlotCountIs(rows, |rows|, today, queue, slot, i);
    } else {
      SlotCountNone(rows, |rows|, today, queue, slot);
      assert DoneSince(jobs, now, queue, day * SECS_PER_DAY) == {};
    }
  }
}
