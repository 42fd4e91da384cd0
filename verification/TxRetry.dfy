/** The bounded retry loop around every multi-statement transaction, over a connection that may conflict
    or break, while time passes and other clients keep writing the same store. */
module TxRetry {
  import opened Wrappers
  import opened TxErrors

  const MAX_TX_RETRIES: nat := 5

  /** What comes back from one attempt. Lost: the call itself failed, and the attempt may or may not have
      committed. Replied: the error set of the transaction, which committed just when the set is empty. */
  datatype Reply = Lost(error: DbError, committed: bool) | Replied(errors: ErrorSet)

  /** One attempt: the transaction, its instant, the store it found, the answer, and the store it left. */
  datatype Event<T, S> = Event(tx: T, at: nat, found: S, reply: Reply, left: S)

  predicate Committed(reply: Reply) {
    match reply
    case Lost(_, committed) => committed
    case Replied(errors) => errors == map[]
  }

  ghost predicate Conflicted(reply: Reply) {
    reply.Replied? && exists e :: Reads(reply.errors, Some(Retry(e)))
  }

  /** What the n-th reply makes the loop return. */
  ghost predicate Verdict(reply: Reply, n: nat, result: Result<(), DbError>) {
    match reply
    case Lost(e, _) => result == Err(e)
    case Replied(errors) =>
      || (Reads(errors, None) && result == Ok(()))
      || (result.Err? && Reads(errors, Some(Fail(result.error))))
      || (result.Err? && Reads(errors, Some(Retry(result.error))) && n == MAX_TX_RETRIES)
  }

  /** What one call of the loop has seen when it returns: conflicts only, up to the attempt that decided. */
  ghost predicate Settled<T, S>(events: seq<Event<T, S>>, result: Result<(), DbError>) {
    && 1 <= |events| <= MAX_TX_RETRIES
    && (forall i :: 0 <= i < |events| - 1 ==> Conflicted(events[i].reply))
    && Verdict(events[|events| - 1].reply, |events|, result)
  }

  /** An aborted attempt leaves the store it found; a committed one leaves its transaction's effect. */
  ghost predicate Honest<T, S>(run: (T, S, nat) -> S, tx: T, e: Event<T, S>) {
    e.tx == tx && e.left == if Committed(e.reply) then run(tx, e.found, e.at) else e.found
  }

  ghost predicate AllHonest<T, S>(run: (T, S, nat) -> S, tx: T, events: seq<Event<T, S>>) {
    forall e :: e in events ==> Honest(run, tx, e)
  }

  /** Later attempts come at no earlier instants. */
  ghost predicate Ascending<T, S>(events: seq<Event<T, S>>) {
    forall i :: 0 < i < |events| ==> events[i - 1].at <= events[i].at
  }

  lemma AscendingNext<T, S>(events: seq<Event<T, S>>, e: Event<T, S>)
    requires Ascending(events) && (events != [] ==> events[|events| - 1].at <= e.at)
    ensures Ascending(events + [e])
  {
  }

  /** The number of committed attempts. */
  ghost function Commits<T, S>(events: seq<Event<T, S>>): nat {
    if events == [] then 0
    else Commits(events[..|events| - 1]) + (if Committed(events[|events| - 1].reply) then 1 else 0)
  }

  lemma {:induction false} ConflictsCommitNothing<T, S>(events: seq<Event<T, S>>)
    requires forall i :: 0 <= i < |events| ==> Conflicted(events[i].reply)
    ensures Commits(events) == 0
  {
    if events == [] {
    } else {
      ConflictsCommitNothing(events[..|events| - 1]);
      assert Conflicted(events[|events| - 1].reply);
      var e :| Reads(events[|events| - 1].reply.errors, Some(Retry(e)));
    }
  }

  /** When every attempt gets a reply, the loop returns Ok just when exactly one attempt committed, and it
      was the last; otherwise none did. */
  lemma CommittedExactlyOnce<T, S>(events: seq<Event<T, S>>, result: Result<(), DbError>)
    requires Settled(events, result)
    requires events[|events| - 1].reply.Replied?
    ensures result.Ok? <==> Commits(events) == 1
    ensures result.Err? <==> Commits(events) == 0
  {
    ConflictsCommitNothing(events[..|events| - 1]);
  }

  /** Even when the last reply is lost, no call ever commits twice. */
  lemma NeverCommitsTwice<T, S>(events: seq<Event<T, S>>, result: Result<(), DbError>)
    requires Settled(events, result)
    ensures Commits(events) <= 1
    ensures result.Ok? ==> Commits(events) == 1
  {
    ConflictsCommitNothing(events[..|events| - 1]);
  }

  /** No other client wrote between these attempts. */
  ghost predicate Undisturbed<T, S>(events: seq<Event<T, S>>, store: S) {
    && (events != [] ==> events[0].found == store)
    && (forall i :: 0 < i < |events| ==> events[i].found == events[i - 1].left)
  }

  /** Then the whole call leaves the effect of its transaction, at the instant of its last attempt, once or not
      at all. */
  lemma {:induction false} EffectOnce<T, S>(run: (T, S, nat) -> S, tx: T, events: seq<Event<T, S>>, store: S,
      result: Result<(), DbError>)
    requires Settled(events, result) && AllHonest(run, tx, events) && Undisturbed(events, store)
    ensures var last := events[|events| - 1];
            && last.left == (if Commits(events) == 1 then run(tx, store, last.at) else store)
            && (result.Ok? ==> last.left == run(tx, store, last.at))
  {
    NeverCommitsTwice(events, result);
    var front := events[..|events| - 1];
    ConflictsCommitNothing(front);
    assert forall i :: 0 <= i < |front| ==> front[i] == events[i] && front[i] in events;
    ConflictsLeaveStore(run, tx, front, store);
    assert events[|events| - 1] in events;
  }

  lemma {:induction false} ConflictsLeaveStore<T, S>(run: (T, S, nat) -> S, tx: T, events: seq<Event<T, S>>, store: S)
    requires AllHonest(run, tx, events) && Undisturbed(events, store)
    requires forall i :: 0 <= i < |events| ==> Conflicted(events[i].reply)
    ensures events != [] ==> events[|events| - 1].left == store
  {
    if events == [] {
    } else {
      var n := |events| - 1;
      ConflictsLeaveStore(run, tx, events[..n], store);
      assert events[n] in events && Conflicted(events[n].reply);
      var e :| Reads(events[n].reply.errors, Some(Retry(e)));
    }
  }

  /** The replies alone decide how many attempts are made and what is returned: two calls answered alike as
      far as both went stop at the same attempt with the same result. */
  lemma SettlesOneWay<T, S>(a: seq<Event<T, S>>, r: Result<(), DbError>, b: seq<Event<T, S>>, r': Result<(), DbError>)
    requires Settled(a, r) && Settled(b, r')
    requires forall i :: 0 <= i < |a| && i < |b| ==> a[i].reply == b[i].reply
    ensures |a| == |b| && r == r'
  {
  }

  /** A call gives up with a conflict just after five of them. */
  lemma GivesUpAfterFive<T, S>(events: seq<Event<T, S>>, result: Result<(), DbError>)
    requires Settled(events, result)
    ensures |events| <= 5
    ensures (forall i :: 0 <= i < |events| ==> Conflicted(events[i].reply)) <==>
            |events| == 5 && Conflicted(events[4].reply)
    ensures var last := events[|events| - 1].reply;
            Conflicted(last) ==> result.Err? && Reads(last.errors, Some(Retry(result.error)))
  {
    var last := events[|events| - 1].reply;
    if Conflicted(last) {
      var e :| Reads(last.errors, Some(Retry(e)));
      if result.Ok? {
        ReadingIsUnique(last.errors, None, Some(Retry(e)));
      } else if Reads(last.errors, Some(Fail(result.error))) {
        ReadingIsUnique(last.errors, Some(Fail(result.error)), Some(Retry(e)));
      }
    }
  }

  /** A reply without conflict, or the last one, settles what is returned. */
  lemma OutcomeDecides(reply: Reply, outcome: Option<TxOutcome>, n: nat)
    requires reply.Replied? && Reads(reply.errors, outcome)
    ensures match outcome
            case None => Committed(reply) && Verdict(reply, n, Ok(()))
            case Some(Fail(e)) => Verdict(reply, n, Err(e))
            case Some(Retry(e)) => Conflicted(reply) && Verdict(reply, MAX_TX_RETRIES, Err(e))
  {
  }

  class Connection<T, S(0)> {
    var store: S
    var now: nat
    /** Every attempt ever made over this connection. */
    ghost var log: seq<Event<T, S>>
    const run: (T, S, nat) -> S

    constructor (store: S, now: nat, run: (T, S, nat) -> S)
      ensures this.store == store && this.now == now && this.run == run && log == []
    {
      this.store, this.now, this.run, log := store, now, run, [];
    }

    /** One attempt. Before it time passes and other clients may leave the store in any state; the answer is the
        database's choice. */
    method Attempt(tx: T) returns (reply: Reply, seen: S, ghost e: Event<T, S>)
      modifies this
      ensures log == old(log) + [e] && Honest(run, tx, e) && e.reply == reply && e.found == seen && store == e.left
      ensures old(now) <= now == e.at
    {
      var later: nat :| now <= later;
      now := later;
      var disturbed: bool := *;
      if disturbed { store := *; }
      seen, reply := store, *;
      if Committed(reply) { store := run(tx, seen, now); }
      e := Event(tx, now, seen, reply, store);
      log := log + [e];
    }

    /** Retries conflicts up to five times; any other answer is final. `seen` is what the deciding attempt
        found, from which the rows of its response are made. */
    method Retrying(tx: T) returns (result: Result<(), DbError>, seen: S, ghost events: seq<Event<T, S>>)
      modifies this
      ensures log == old(log) + events && AllHonest(run, tx, events) && Settled(events, result)
      ensures store == events[|events| - 1].left && seen == events[|events| - 1].found && now == events[|events| - 1].at
      ensures Ascending(events) && old(now) <= events[0].at
      ensures result.Ok? ==> Committed(events[|events| - 1].reply)
    {
      var conflict: Option<DbError> := None;
      seen, events := store, [];
      for i := 0 to MAX_TX_RETRIES
        invariant |events| == i && log == old(log) + events && AllHonest(run, tx, events)
        invariant forall k :: 0 <= k < i ==> Conflicted(events[k].reply)
        invariant i > 0 ==> conflict.Some? && Verdict(events[i - 1].reply, MAX_TX_RETRIES, Err(conflict.value))
        invariant i > 0 ==> store == events[i - 1].left && seen == events[i - 1].found && now == events[i - 1].at
        invariant Ascending(events) && old(now) <= now && (i > 0 ==> old(now) <= events[0].at)
      {
        var reply;
        ghost var e;
        reply, seen, e := Attempt(tx);
        AscendingNext(events, e);
        events := events + [e];
        match reply {
          case Lost(error, _) => return Err(error), seen, events;
          case Replied(errors) =>
            var outcome := ClassifyTxErrors(errors);
            OutcomeDecides(reply, outcome, |events|);
            match outcome {
              case None => return Ok(()), seen, events;
              case Some(Fail(error)) => return Err(error), seen, events;
              case Some(Retry(error)) => conflict := Some(error);
            }
        }
      }
      result := Err(conflict.value);
    }
  }
}
