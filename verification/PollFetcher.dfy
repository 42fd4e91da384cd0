/** The poll fetcher: a stream that claims a batch, yields it task by task, and waits between empty claims. */
module PollFetcher {

  type Task = nat

  /** What a pending claim answers when polled, and what the delay stream answers. A script that has run
      out answers Pending. */
  datatype FetchAnswer = FetchPending | FetchOk(tasks: seq<Task>) | FetchErr(error: string)
  datatype TickAnswer = TickPending | Tick | TickEnd

  datatype StreamState = Ready | Delay | Fetch | Buffered(tasks: seq<Task>) | Empty

  datatype Poll = Pending | Yield(task: Task) | Failure(error: string) | Ended

  function Join(batches: seq<seq<Task>>): seq<Task> {
    if batches == [] then [] else Join(batches[..|batches| - 1]) + batches[|batches| - 1]
  }

  lemma JoinNext(batches: seq<seq<Task>>, batch: seq<Task>)
    ensures Join(batches + [batch]) == Join(batches) + batch
  {
  }

  /** The batches of the claims that succeed. */
  function Batches(fetches: seq<FetchAnswer>): seq<seq<Task>> {
    if fetches == [] then [] else (if fetches[0].FetchOk? then [fetches[0].tasks] else []) + Batches(fetches[1..])
  }

  /** What was claimed, then what the coming claims will return. */
  function Supply(claimed: seq<seq<Task>>, fetches: seq<FetchAnswer>): seq<seq<Task>> {
    claimed + Batches(fetches)
  }

  lemma SupplyNext(claimed: seq<seq<Task>>, fetches: seq<FetchAnswer>)
    requires fetches != []
    ensures Supply(claimed, fetches)
         == Supply(if fetches[0].FetchOk? then claimed + [fetches[0].tasks] else claimed, fetches[1..])
  {
  }

  /** One poll: its answer, and what is left of the state and the scripts. */
  datatype Outcome = Outcome(p: Poll, state: StreamState, fetches: seq<FetchAnswer>, ticks: seq<TickAnswer>)

  /** The poll of a fetcher that has nothing buffered and may claim: it goes by the next answer of a claim. */
  function PolledFetch(fetches: seq<FetchAnswer>, ticks: seq<TickAnswer>): Outcome
    decreases |fetches| + |ticks|
  {
    if fetches == [] then Outcome(Pending, Fetch, [], ticks)
    else
      match fetches[0]
      case FetchPending => Outcome(Pending, Fetch, fetches[1..], ticks)
      case FetchErr(e) => Outcome(Failure(e), Empty, fetches[1..], ticks)
      case FetchOk(ts) => if ts == [] then PolledDelay(fetches[1..], ticks) else PolledBuffer(ts, fetches[1..], ticks)
  }

  /** The poll of a fetcher that waits: it goes by the next answer of the delay stream. */
  function PolledDelay(fetches: seq<FetchAnswer>, ticks: seq<TickAnswer>): Outcome
    decreases |fetches| + |ticks|
  {
    if ticks == [] then Outcome(Pending, Delay, fetches, [])
    else
      match ticks[0]
      case TickPending => Outcome(Pending, Delay, fetches, ticks[1..])
      case TickEnd => Outcome(Ended, Empty, fetches, ticks[1..])
      case Tick => PolledFetch(fetches, ticks[1..])
  }

  function PolledBuffer(tasks: seq<Task>, fetches: seq<FetchAnswer>, ticks: seq<TickAnswer>): Outcome
    requires tasks != []
  {
    Outcome(Yield(tasks[0]), if |tasks| == 1 then Ready else Buffered(tasks[1..]), fetches, ticks)
  }

  function Polled(state: StreamState, fetches: seq<FetchAnswer>, ticks: seq<TickAnswer>): Outcome {
    match state
    case Ready => PolledFetch(fetches, ticks)
    case Fetch => PolledFetch(fetches, ticks)
    case Delay => PolledDelay(fetches, ticks)
    case Buffered(ts) => if ts == [] then PolledFetch(fetches, ticks) else PolledBuffer(ts, fetches, ticks)
    case Empty => Outcome(Ended, Empty, fetches, ticks)
  }

  /** A poll reports no failure and no end that is not in the scripts. */
  lemma {:induction false} PolledFromScript(state: StreamState, fetches: seq<FetchAnswer>, ticks: seq<TickAnswer>)
    ensures var o := Polled(state, fetches, ticks);
            && (o.p.Failure? ==> FetchErr(o.p.error) in fetches)
            && (o.p.Ended? && state != Empty ==> TickEnd in ticks)
    decreases |fetches| + |ticks|
  {
    if state == Delay {
      if ticks != [] && ticks[0] == Tick { PolledFromScript(Fetch, fetches, ticks[1..]); }
    } else if fetches != [] && fetches[0] == FetchOk([]) {
      PolledFromScript(Delay, fetches[1..], ticks);
    }
  }

  /** A fetcher that has nothing buffered and waits for no delay issues a claim, and the poll is what the claim
      answers: a first task, a failure, or Pending while there is no answer. After an empty claim, or in a delay, it
      is Pending without a claim until the delay stream ticks, and then it claims again. */
  lemma PolledGoesByScript(state: StreamState, fetches: seq<FetchAnswer>, ticks: seq<TickAnswer>)
    requires state in {Ready, Fetch, Buffered([])}
    ensures var o := Polled(state, fetches, ticks);
            && (fetches == [] ==> o == Outcome(Pending, Fetch, [], ticks))
            && (fetches != [] ==>
                  match fetches[0]
                  case FetchPending => o.p == Pending && o.state == Fetch && o.fetches == fetches[1..]
                  case FetchErr(e) => o.p == Failure(e) && o.fetches == fetches[1..]
                  case FetchOk(ts) => if ts != [] then o.p == Yield(ts[0]) && o.fetches == fetches[1..]
                                      else o == Polled(Delay, fetches[1..], ticks))
    ensures var d := Polled(Delay, fetches, ticks);
            if ticks == [] || ticks[0] == TickPending then d.p == Pending && d.state == Delay && d.fetches == fetches
            else if ticks[0] == TickEnd then d.p == Ended && d.state == Empty
            else d == Polled(state, fetches, ticks[1..])
  {
  }

  class Fetcher {
    var state: StreamState
    var prevCount: nat
    var fetches: seq<FetchAnswer>
    var ticks: seq<TickAnswer>
    /** Every batch claimed so far, and every task yielded or drained so far. */
    ghost var claimed: seq<seq<Task>>
    ghost var handed: seq<Task>

    /** Claimed tasks not handed out yet. */
    function Buffer(): seq<Task>
      reads this
    {
      if state.Buffered? then state.tasks else []
    }

    /** Conservation: handed out, then still buffered, is everything claimed, in claim order. The fetcher waits
        only after an empty claim. */
    ghost predicate Valid()
      reads this
    {
      && handed + Buffer() == Join(claimed)
      && prevCount == (if claimed == [] then 0 else |claimed[|claimed| - 1]|)
      && (state == Delay ==> claimed != [] && claimed[|claimed| - 1] == [])
    }

    constructor (fetches: seq<FetchAnswer>, ticks: seq<TickAnswer>)
      ensures Valid() && state == Ready && claimed == [] && handed == []
      ensures this.fetches == fetches && this.ticks == ticks
    {
      state, prevCount, this.fetches, this.ticks := Ready, 0, fetches, ticks;
      claimed, handed := [], [];
    }

    method AnswerTick() returns (answer: TickAnswer)
      requires Valid() && state == Delay
      modifies this`state, this`ticks
      ensures Valid()
      ensures state == match answer case TickPending => Delay case Tick => Ready case TickEnd => Empty
      ensures old(ticks) == [] ==> answer == TickPending && ticks == []
      ensures old(ticks) != [] ==> answer == old(ticks)[0] && ticks == old(ticks)[1..]
      ensures old(Polled(state, fetches, ticks))
           == match answer
              case Tick => Polled(state, fetches, ticks)
              case TickPending => Outcome(Pending, state, fetches, ticks)
              case TickEnd => Outcome(Ended, state, fetches, ticks)
    {
      answer := if ticks == [] then TickPending else ticks[0];
      ticks := if ticks == [] then [] else ticks[1..];
      match answer {
        case TickPending =>
        case Tick => state := Ready;
        case TickEnd => state := Empty;
      }
    }

    /** The claim in flight answers; its size is what drives the delay strategy. */
    method AnswerFetch() returns (answer: FetchAnswer)
      requires Valid() && state == Fetch
      modifies this`state, this`fetches, this`prevCount, this`claimed
      ensures Valid()
      ensures claimed == if answer.FetchOk? then old(claimed) + [answer.tasks] else old(claimed)
      ensures state == match answer
                       case FetchPending => Fetch
                       case FetchErr(_) => Empty
                       case FetchOk(tasks) => if tasks == [] then Delay else Buffered(tasks)
      ensures old(fetches) == [] ==> answer == FetchPending && fetches == []
      ensures old(fetches) != [] ==> answer == old(fetches)[0] && fetches == old(fetches)[1..]
      ensures Supply(claimed, fetches) == old(Supply(claimed, fetches))
      ensures old(Polled(state, fetches, ticks))
           == match answer
              case FetchOk(_) => Polled(state, fetches, ticks)
              case FetchPending => Outcome(Pending, state, fetches, ticks)
              case FetchErr(e) => Outcome(Failure(e), state, fetches, ticks)
    {
      if fetches != [] { SupplyNext(claimed, fetches); }
      answer := if fetches == [] then FetchPending else fetches[0];
      fetches := if fetches == [] then [] else fetches[1..];
      match answer {
        case FetchPending =>
        case FetchErr(_) => state := Empty;
        case FetchOk(tasks) =>
          prevCount := |tasks|;
          JoinNext(claimed, tasks);
          claimed := claimed + [tasks];
          state := if tasks == [] then Delay else Buffered(tasks);
      }
    }

    method PopFront() returns (task: Task)
      requires Valid() && Buffer() != []
      modifies this`state, this`handed
      ensures Valid() && task == old(Buffer())[0] && handed == old(handed) + [task]
      ensures state == if |old(Buffer())| == 1 then Ready else Buffered(old(Buffer())[1..])
      ensures old(Polled(state, fetches, ticks)) == Outcome(Yield(task), state, fetches, ticks)
    {
      task := state.tasks[0];
      var rest := state.tasks[1..];
      state := if rest == [] then Ready else Buffered(rest);
      handed := handed + [task];
      assert handed + Buffer() == old(handed) + old(Buffer());
    }

    /** One poll. A yielded task is the next claimed task not yet handed out; a claim is in flight only once
        everything claimed before has been handed out; failure and the end of the delays are final and
        leave nothing behind. Every batch is taken over whole, in the order the claims answer. What the poll comes
        to depends on the scripts alone: whenever nothing is buffered and no delay is on, the next answer of a
        claim decides. */
    method PollNext() returns (p: Poll)
      requires Valid()
      modifies this
      ensures Valid() && old(claimed) <= claimed
      ensures old(Buffer()) != [] ==> p == Yield(old(Buffer())[0]) && claimed == old(claimed)
      ensures p.Yield? ==> handed == old(handed) + [p.task]
      ensures !p.Yield? ==> handed == old(handed) && handed == Join(claimed)
      ensures p.Failure? || p.Ended? <==> state == Empty
      ensures old(state) == Empty ==> p == Ended && claimed == old(claimed)
      ensures p.Pending? ==> state == Fetch || state == Delay
      ensures state == Fetch ==> handed == Join(claimed)
      ensures Supply(claimed, fetches) == old(Supply(claimed, fetches))
      ensures p.Failure? ==> FetchErr(p.error) in old(fetches)
      ensures p.Ended? && old(state) != Empty ==> TickEnd in old(ticks)
      ensures Outcome(p, state, fetches, ticks) == Polled(old(state), old(fetches), old(ticks))
    {
      PolledFromScript(state, fetches, ticks);
      while true
        invariant Valid() && handed == old(handed) && old(claimed) <= claimed
        invariant old(Buffer()) != [] ==> state == old(state) && claimed == old(claimed)
        invariant old(state) == Empty ==> state == Empty && claimed == old(claimed)
        invariant state == Empty ==> old(state) == Empty
        invariant Supply(claimed, fetches) == old(Supply(claimed, fetches))
        invariant Polled(state, fetches, ticks) == Polled(old(state), old(fetches), old(ticks))
        decreases |fetches| + |ticks|,
                  match state case Buffered(_) => 3 case Ready => 2 case Fetch => 1 case Delay => 1 case Empty => 0
      {
        match state {
          case Ready =>
            state := Fetch;
          case Delay =>
            var answer := AnswerTick();
            match answer {
              case TickPending => return Pending;
              case TickEnd => return Ended;
              case Tick =>
            }
          case Fetch =>
            var answer := AnswerFetch();
            match answer {
              case FetchPending => return Pending;
              case FetchErr(e) => return Failure(e);
              case FetchOk(_) =>
            }
          case Buffered(tasks) =>
            if tasks != [] {
              var task := PopFront();
              return Yield(task);
            }
            state := Ready;
          case Empty =>
            return Ended;
        }
      }
    }

    /** Drains what is claimed but not yet yielded. */
    method TakePending() returns (tasks: seq<Task>)
      requires Valid()
      modifies this
      ensures Valid() && tasks == old(Buffer()) && Buffer() == []
      ensures handed == old(handed) + tasks && claimed == old(claimed) && handed == Join(claimed)
      ensures state == if old(state).Buffered? then Buffered([]) else old(state)
    {
      tasks := [];
      if state.Buffered? {
        tasks := state.tasks;
        state := Buffered([]);
        handed := handed + tasks;
      }
    }
  }

  /** Polling until nothing is ready: what comes out is what was claimed, whole and in claim order, except
      what is still buffered when the reader stops early. */
  method Collect(f: Fetcher, limit: nat) returns (out: seq<Task>, last: Poll)
    requires f.Valid()
    modifies f
    ensures f.Valid() && f.handed == old(f.handed) + out
    ensures old(f.handed) + out + f.Buffer() == Join(f.claimed)
    ensures Supply(f.claimed, f.fetches) == old(Supply(f.claimed, f.fetches))
    ensures |out| <= limit && (|out| < limit ==> !last.Yield? && f.Buffer() == [])
  {
    out, last := [], Pending;
    while |out| < limit
      invariant f.Valid() && f.handed == old(f.handed) + out && |out| <= limit
      invariant Supply(f.claimed, f.fetches) == old(Supply(f.claimed, f.fetches))
      decreases limit - |out|
    {
      last := f.PollNext();
      if !last.Yield? { return; }
      out := out + [last.task];
    }
  }
}
