/** The shared storage's driver: one claim over all registered queues, fanned out to one bounded channel
    per queue while workers register, receive and go away. */
module SharedDriver {
  import opened Wrappers

  type Queue = string

  datatype Task = Task(id: nat, queue: Option<Queue>)

  /** A bounded channel: what its receiver has not taken yet, and whether the receiver is gone. */
  datatype Channel = Channel(capacity: nat, queued: seq<Task>, closed: bool)

  /** A driver round: idle, claiming over a snapshot of the queues, or sending the claimed tasks one by one
      with the registry locked, where a send that filled its channel has to be flushed before the next. */
  datatype Round =
    | Idle
    | Claiming(queues: set<Queue>, limit: nat)
    | Routing(pending: seq<Task>, flushing: Option<Queue>)

  datatype MakeResult = Made | NamespaceExists | RegistryLocked

  function OfQueue(tasks: seq<Task>, q: Queue): seq<Task> {
    if tasks == [] then []
    else
      var n := |tasks| - 1;
      OfQueue(tasks[..n], q) + (if tasks[n].queue == Some(q) then [tasks[n]] else [])
  }

  lemma {:induction false} OfQueueSplit(a: seq<Task>, b: seq<Task>, q: Queue)
    ensures OfQueue(a + b, q) == OfQueue(a, q) + OfQueue(b, q)
    decreases |b|
  {
    if b == [] {
      assert a + b == a;
    } else {
      var n := |b| - 1;
      OfQueueSplit(a, b[..n], q);
      assert (a + b)[..|a| + n] == a + b[..n];
    }
  }

  lemma OfQueueHead(tasks: seq<Task>, q: Queue)
    requires tasks != []
    ensures OfQueue(tasks, q) == (if tasks[0].queue == Some(q) then [tasks[0]] else []) + OfQueue(tasks[1..], q)
  {
    assert tasks == [tasks[0]] + tasks[1..];
    OfQueueSplit([tasks[0]], tasks[1..], q);
    assert OfQueue([tasks[0]], q) == if tasks[0].queue == Some(q) then [tasks[0]] else [] by {
      assert [tasks[0]][..0] == [];
      assert OfQueue([], q) == [];
    }
  }

  function At(m: map<Queue, seq<Task>>, q: Queue): seq<Task> {
    if q in m then m[q] else []
  }

  /** What sending one task to its channel does; a channel it fills is to be flushed. */
  ghost predicate Sent(t: Task, flushing: Option<Queue>, before: map<Queue, Channel>,
                       refusedBefore: map<Queue, seq<Task>>, after: map<Queue, Channel>,
                       refusedAfter: map<Queue, seq<Task>>)
    requires t.queue.Some? ==> t.queue.value in before
  {
    match t.queue
    case None => flushing.None? && after == before && refusedAfter == refusedBefore
    case Some(q) =>
      var channel := before[q];
      if channel.closed then
        flushing.None? && after == before && refusedAfter == refusedBefore[q := At(refusedBefore, q) + [t]]
      else
        && |channel.queued| < channel.capacity
        && flushing == (if |channel.queued| + 1 == channel.capacity then Some(q) else None)
        && after == before[q := channel.(queued := channel.queued + [t])] && refusedAfter == refusedBefore
  }

  /** No channel holds more than its capacity, and an open one is full only while its last send is being flushed. */
  ghost predicate Roomy(registry: map<Queue, Channel>, flushing: Option<Queue>) {
    && (flushing.Some? ==> flushing.value in registry)
    && (forall q :: q in registry ==>
          && |registry[q].queued| <= registry[q].capacity && 0 < registry[q].capacity
          && (|registry[q].queued| == registry[q].capacity ==> registry[q].closed || flushing == Some(q)))
  }

  lemma SendKeepsRoom(registry: map<Queue, Channel>, q: Queue, t: Task)
    requires Roomy(registry, None) && q in registry && !registry[q].closed
    ensures var channel := registry[q];
            Roomy(registry[q := channel.(queued := channel.queued + [t])],
                  if |channel.queued| + 1 == channel.capacity then Some(q) else None)
  {
  }

  /** Delivered, then buffered, then refused, then still to be sent, is everything claimed. */
  predicate Balance(all: seq<Task>, delivered: seq<Task>, queued: seq<Task>, refused: seq<Task>, pending: seq<Task>) {
    all == delivered + queued + refused + pending
  }

  lemma BalanceMore(all: seq<Task>, more: seq<Task>, delivered: seq<Task>, queued: seq<Task>, refused: seq<Task>)
    requires Balance(all, delivered, queued, refused, [])
    ensures Balance(all + more, delivered, queued, refused, more)
  {
  }

  lemma BalanceClaim(claimed: seq<Task>, tasks: seq<Task>, q: Queue, delivered: seq<Task>, queued: seq<Task>,
                     refused: seq<Task>)
    requires Balance(OfQueue(claimed, q), delivered, queued, refused, OfQueue([], q))
    ensures Balance(OfQueue(claimed + tasks, q), delivered, queued, refused, OfQueue(tasks, q))
  {
    OfQueueSplit(claimed, tasks, q);
    BalanceMore(OfQueue(claimed, q), OfQueue(tasks, q), delivered, queued, refused);
  }

  /** Moving the next pending task to the refused ones, or to the buffer while nothing was refused, keeps the order. */
  lemma BalanceSend(all: seq<Task>, delivered: seq<Task>, queued: seq<Task>, refused: seq<Task>, pending: seq<Task>,
                    q: Queue)
    requires pending != [] && Balance(all, delivered, queued, refused, OfQueue(pending, q))
    ensures pending[0].queue == Some(q) ==>
              Balance(all, delivered, queued, refused + [pending[0]], OfQueue(pending[1..], q))
    ensures pending[0].queue == Some(q) && refused == [] ==>
              Balance(all, delivered, queued + [pending[0]], refused, OfQueue(pending[1..], q))
    ensures pending[0].queue != Some(q) ==> Balance(all, delivered, queued, refused, OfQueue(pending[1..], q))
  {
    OfQueueHead(pending, q);
    var tail := OfQueue(pending[1..], q);
    if pending[0].queue == Some(q) {
      var t := pending[0];
      assert delivered + queued + refused + ([t] + tail) == delivered + queued + (refused + [t]) + tail;
      if refused == [] {
        assert delivered + queued + refused + ([t] + tail) == delivered + (queued + [t]) + refused + tail;
      }
    } else {
      assert [] + tail == tail;
    }
  }

  lemma BalanceReceive(all: seq<Task>, delivered: seq<Task>, queued: seq<Task>, refused: seq<Task>, pending: seq<Task>)
    requires queued != [] && Balance(all, delivered, queued, refused, pending)
    ensures Balance(all, delivered + [queued[0]], queued[1..], refused, pending)
    ensures forall t :: t in queued[1..] ==> t in queued
    ensures delivered + [queued[0]] <= all
  {
  }

  function QueuedIn(registry: map<Queue, Channel>, q: Queue): seq<Task> {
    if q in registry then registry[q].queued else []
  }

  /** Per queue, in claim order: delivered, then buffered in its channel, then refused by it, then still to be
      sent, is everything claimed for that queue. */
  ghost predicate AccountOk(q: Queue, claimed: seq<Task>, delivered: map<Queue, seq<Task>>,
                            registry: map<Queue, Channel>, refused: map<Queue, seq<Task>>, pending: seq<Task>)
  {
    var queued := QueuedIn(registry, q);
    && Balance(OfQueue(claimed, q), At(delivered, q), queued, At(refused, q), OfQueue(pending, q))
    && (At(refused, q) != [] ==> q in registry && registry[q].closed)
    && (forall t :: t in queued ==> t.queue == Some(q))
  }

  lemma SendKeepsAccount(q: Queue, claimed: seq<Task>, delivered: map<Queue, seq<Task>>, registry: map<Queue, Channel>,
                         refused: map<Queue, seq<Task>>, pending: seq<Task>, flushing: Option<Queue>,
                         registry': map<Queue, Channel>, refused': map<Queue, seq<Task>>)
    requires pending != [] && (pending[0].queue.Some? ==> pending[0].queue.value in registry)
    requires AccountOk(q, claimed, delivered, registry, refused, pending)
    requires Sent(pending[0], flushing, registry, refused, registry', refused')
    ensures AccountOk(q, claimed, delivered, registry', refused', pending[1..])
  {
    BalanceSend(OfQueue(claimed, q), At(delivered, q), QueuedIn(registry, q), At(refused, q), pending, q);
  }

  class Driver {
    var registry: map<Queue, Channel>
    var round: Round
    /** Everything ever claimed; what each receiver took; what closed channels refused. */
    ghost var claimed: seq<Task>
    ghost var delivered: map<Queue, seq<Task>>
    ghost var refused: map<Queue, seq<Task>>

    function Pending(): seq<Task>
      reads this
    {
      if round.Routing? then round.pending else []
    }

    function Flushing(): Option<Queue>
      reads this
    {
      if round.Routing? then round.flushing else None
    }

    function Queued(q: Queue): seq<Task>
      reads this
    {
      QueuedIn(registry, q)
    }

    ghost predicate Accounted(q: Queue)
      reads this
    {
      AccountOk(q, claimed, delivered, registry, refused, Pending())
    }

    ghost predicate Valid()
      reads this
    {
      && (forall q :: Accounted(q))
      && Roomy(registry, Flushing())
      && (round.Claiming? ==> round.queues <= registry.Keys)
      && (forall t :: t in Pending() && t.queue.Some? ==> t.queue.value in registry)
    }

    /** A registered channel is never replaced or forgotten. */
    twostate predicate Keeps()
      reads this
    {
      forall q :: q in old(registry) ==> q in registry && registry[q].capacity == old(registry)[q].capacity
                                         && (old(registry)[q].closed ==> registry[q].closed)
    }

    constructor ()
      ensures Valid() && registry == map[] && round == Idle && claimed == []
    {
      registry, round, claimed, delivered, refused := map[], Idle, [], map[], map[];
    }

    /** Registering takes the registry lock or gives up, and never touches a channel already there. */
    method MakeShared(q: Queue, bufferSize: nat) returns (r: MakeResult)
      requires Valid()
      modifies this`registry
      ensures Valid() && Keeps()
      ensures r == if round.Routing? then RegistryLocked else if q in old(registry) then NamespaceExists else Made
      ensures registry == if r == Made then old(registry)[q := Channel(bufferSize + 1, [], false)] else old(registry)
    {
      if round.Routing? { return RegistryLocked; }
      if q in registry { return NamespaceExists; }
      registry := registry[q := Channel(bufferSize + 1, [], false)];
      forall p
        ensures Accounted(p)
      {
        assert old(Accounted(p));
        assert Queued(p) == old(Queued(p));
      }
      r := Made;
    }

    /** A round starts by copying the registered queue names; the lock is free again during the claim. */
    method BeginRound()
      requires Valid() && round == Idle
      modifies this`round
      ensures Valid() && Keeps()
      ensures round == if registry == map[] then Idle
                       else Claiming(registry.Keys, if |registry.Keys| > 10 then |registry.Keys| else 10)
    {
      if registry.Keys != {} {
        var n := |registry.Keys|;
        round := Claiming(registry.Keys, if n > 10 then n else 10);
      }
      forall q
        ensures Accounted(q)
      {
        assert old(Accounted(q));
      }
    }

    /** The claim answers with tasks of the snapshot's queues only. */
    method ClaimAnswered(tasks: seq<Task>)
      requires Valid() && round.Claiming?
      requires forall t :: t in tasks && t.queue.Some? ==> t.queue.value in round.queues
      modifies this`round, this`claimed
      ensures Valid() && Keeps() && round == Routing(tasks, None) && claimed == old(claimed) + tasks
    {
      round := Routing(tasks, None);
      claimed := claimed + tasks;
      forall q
        ensures Accounted(q)
      {
        assert old(Accounted(q));
        BalanceClaim(old(claimed), tasks, q, At(delivered, q), Queued(q), At(refused, q));
      }
    }

    method ClaimFailed()
      requires Valid() && round.Claiming?
      modifies this`round
      ensures Valid() && Keeps() && round == Idle
    {
      round := Idle;
      forall q
        ensures Accounted(q)
      {
        assert old(Accounted(q));
      }
    }

    /** Sends the next pending task. A task without a queue is skipped and a closed channel refuses; an open one
        always has room, since the send that filled it was flushed, and the channel of a claimed task is always
        there. */
    method RouteNext()
      requires Valid() && round.Routing? && round.flushing.None? && round.pending != []
      modifies this`registry, this`round, this`refused
      ensures Valid() && Keeps()
      ensures round == Routing(old(round).pending[1..], Flushing())
      ensures var t := old(round).pending[0];
              && (t.queue.Some? ==> t.queue.value in old(registry))
              && Sent(t, Flushing(), old(registry), old(refused), registry, refused)
    {
      var t := round.pending[0];
      var flushing: Option<Queue> := None;
      if t.queue.Some? {
        var q := t.queue.value;
        assert t in Pending();
        assert Accounted(q);
        var channel := registry[q];
        if channel.closed {
          refused := refused[q := At(refused, q) + [t]];
        } else {
          SendKeepsRoom(registry, q, t);
          registry := registry[q := channel.(queued := channel.queued + [t])];
          flushing := if |channel.queued| + 1 == channel.capacity then Some(q) else None;
        }
      }
      round := Routing(round.pending[1..], flushing);
      forall q
        ensures Accounted(q)
      {
        assert old(Accounted(q));
        SendKeepsAccount(q, claimed, delivered, old(registry), old(refused), old(round).pending, flushing,
                         registry, refused);
      }
    }

    /** Polls the flush of the send that filled a channel: done once the receiver took a task or is gone. Until
        then the driver sends nothing, to whatever queue, and keeps the registry locked. */
    method Flush() returns (done: bool)
      requires Valid() && Flushing().Some?
      modifies this`round
      ensures Valid() && Keeps()
      ensures var channel := registry[old(Flushing()).value];
              done <==> channel.closed || |channel.queued| < channel.capacity
      ensures round == if done then old(round).(flushing := None) else old(round)
    {
      var channel := registry[round.flushing.value];
      done := channel.closed || |channel.queued| < channel.capacity;
      if done {
        round := round.(flushing := None);
        forall q
          ensures Accounted(q)
        {
          assert old(Accounted(q));
        }
      }
    }

    /** When every task is sent the lock is released and the round is over. */
    method EndRound()
      requires Valid() && round == Routing([], None)
      modifies this`round
      ensures Valid() && Keeps() && round == Idle
    {
      round := Idle;
      forall q
        ensures Accounted(q)
      {
        assert old(Accounted(q));
      }
    }

    /** A queue's receiver only ever yields that queue's tasks, in claim order. */
    method Receive(q: Queue) returns (task: Option<Task>)
      requires Valid() && q in registry && !registry[q].closed
      modifies this`registry, this`delivered
      ensures Valid() && Keeps()
      ensures task.None? <==> old(registry)[q].queued == []
      ensures task.Some? ==> task.value.queue == Some(q) && At(delivered, q) == At(old(delivered), q) + [task.value]
      ensures At(delivered, q) <= OfQueue(claimed, q)
    {
      assert Accounted(q);
      var channel := registry[q];
      if channel.queued == [] { return None; }
      var t := channel.queued[0];
      registry := registry[q := channel.(queued := channel.queued[1..])];
      delivered := delivered[q := At(delivered, q) + [t]];
      forall p
        ensures Accounted(p)
      {
        assert old(Accounted(p));
        if p == q {
          var all, pending := OfQueue(claimed, q), OfQueue(Pending(), q);
          BalanceReceive(all, old(At(delivered, q)), channel.queued, At(refused, q), pending);
        } else {
          assert Queued(p) == old(Queued(p)) && At(delivered, p) == old(At(delivered, p));
        }
      }
      assert Accounted(q);
      task := Some(t);
    }

    /** The worker's stream is dropped. What sits in the channel stays undelivered, still in the account. */
    method CloseReceiver(q: Queue)
      requires Valid() && q in registry
      modifies this`registry
      ensures Valid() && Keeps() && registry == old(registry)[q := old(registry)[q].(closed := true)]
    {
      registry := registry[q := registry[q].(closed := true)];
      forall p
        ensures Accounted(p)
      {
        assert old(Accounted(p));
        assert Queued(p) == old(Queued(p));
      }
    }
  }
}
