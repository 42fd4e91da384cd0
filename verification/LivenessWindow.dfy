/** The liveness window a sweep uses, from two configured durations; times here are in nanoseconds. */
module LivenessWindow {
  import opened Wrappers
  import opened JobTable

  const NANOS_PER_MILLI: nat := 1_000_000
  /** The largest Duration: u64::MAX seconds and 999,999,999 nanoseconds. */
  const MAX_DURATION: nat := 0xFFFF_FFFF_FFFF_FFFF * 1_000_000_000 + 999_999_999

  type Duration = d: nat | d <= MAX_DURATION

  function SaturatingDouble(d: Duration): Duration {
    if 2 * d <= MAX_DURATION then 2 * d else MAX_DURATION
  }

  function AsMillis(d: Duration): nat {
    d / NANOS_PER_MILLI
  }

  /** `as i64` keeps the low 64 bits. */
  function AsI64(n: nat): int {
    var low := n % (2 * I64_LIMIT);
    if low < I64_LIMIT then low else low - 2 * I64_LIMIT
  }

  function EffectiveReenqueueMillis(after: Duration, keepAlive: Duration): int {
    var floor := SaturatingDouble(keepAlive);
    if after < floor then AsI64(AsMillis(floor)) else AsI64(AsMillis(after))
  }

  /** A configured window of whole seconds, at least twice the heartbeat interval, is a thousand times as many
      milliseconds. */
  lemma SecondsAreAThousandMillis(seconds: nat, keepAlive: Duration)
    requires seconds < I64_LIMIT / 1000 && 2 * keepAlive <= seconds * 1_000_000_000
    ensures EffectiveReenqueueMillis(seconds * 1_000_000_000, keepAlive) == 1000 * seconds
  {
    assert seconds * 1_000_000_000 / NANOS_PER_MILLI == 1000 * seconds;
  }

  /** The window is the larger of the configured one and twice the heartbeat interval, rounded down to
      milliseconds, just when that number of milliseconds fits in an i64. */
  lemma WindowIsExactWhenItFits(after: Duration, keepAlive: Duration)
    ensures EffectiveReenqueueMillis(after, keepAlive) == Max(after, 2 * keepAlive) / NANOS_PER_MILLI
            <==> Max(after, 2 * keepAlive) / NANOS_PER_MILLI < I64_LIMIT
  {
  }

  /** A window too long for an i64 can come out negative: a sweep would then find nobody live. */
  lemma WindowCanWrap()
    ensures EffectiveReenqueueMillis(I64_LIMIT * NANOS_PER_MILLI, 0) == -I64_LIMIT
  {
  }

  /** A worker whose last heartbeat is two intervals ago, short of less than a millisecond, is in every live
      set; rounding down to milliseconds takes no more than that. */
  lemma HeartbeatKeepsAlive(workers: Workers, w: Instance, after: Duration, keepAlive: Duration, now: Time)
    requires w in workers && workers[w].instance == w
    requires Max(after, 2 * keepAlive) / NANOS_PER_MILLI < I64_LIMIT
    requires now + NANOS_PER_MILLI <= workers[w].lastSeen + 2 * keepAlive + 1
    ensures EffectiveReenqueueMillis(after, keepAlive) >= 0
    ensures w in LiveSet(workers, workers[w].queue, EffectiveReenqueueMillis(after, keepAlive) * NANOS_PER_MILLI, now)
  {
  }

  // ------------------------------------------------------------------ pruning

  /** Deleting rows unseen for four windows changes no live set read then or later, of any queue, with any
      window up to four times the sweeper's. */
  lemma PruneChangesNoLiveSet(workers: Workers, queue: Queue, window: nat, now: Time, queue': Queue, window': nat,
                              now': Time)
    requires now <= now' && window' <= 4 * window
    ensures LiveSet(PruneWorkers(workers, queue, window, now), queue', window', now')
         == LiveSet(workers, queue', window', now')
  {
    var pruned := PruneWorkers(workers, queue, window, now);
    forall w | w in workers && workers[w].queue == queue' && now' <= workers[w].lastSeen + window'
      ensures workers[w].instance in LiveSet(pruned, queue', window', now')
    {
      assert w in pruned && pruned[w] == workers[w];
    }
  }

  /** Four is exact: a sweeper whose window is a tick more than four times another's can miss a row it
      would have counted live. */
  lemma PruneBoundIsTight(window: nat)
    ensures var row := WorkerRow("a", "q", 1, 0, 0);
            var now := 4 * window + 1;
            && 1 in LiveSet(map[1 := row], "q", 4 * window + 1, now)
            && 1 !in LiveSet(PruneWorkers(map[1 := row], "q", window, now), "q", 4 * window + 1, now)
  {
    var workers := map[1 := WorkerRow("a", "q", 1, 0, 0)];
    assert workers[1].instance == 1;
    assert PruneWorkers(workers, "q", window, 4 * window + 1) == map[];
  }
}
