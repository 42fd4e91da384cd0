/** The buffering sink: tasks are collected and handed to the insert transaction in batches. */
module Sink {
  type Task = nat

  /** What the pending insert answers when polled; a script that has run out answers Pending. */
  datatype FlushAnswer = FlushPending | FlushOk | FlushErr(error: string)

  datatype Poll = Pending | ReadyOk | ReadyErr(error: string)

  /** A batch whose insert has answered, and the answer. */
  datatype Settled = Settled(batch: seq<Task>, answer: FlushAnswer)

  function Join(settled: seq<Settled>): seq<Task> {
    if settled == [] then [] else Join(settled[..|settled| - 1]) + settled[|settled| - 1].batch
  }

  lemma JoinNext(settled: seq<Settled>, s: Settled)
    ensures Join(settled + [s]) == Join(settled) + s.batch
  {
  }

  function Failures(settled: seq<Settled>): nat {
    if settled == [] then 0
    else Failures(settled[..|settled| - 1]) + (if settled[|settled| - 1].answer.FlushErr? then 1 else 0)
  }

  lemma FailuresNext(settled: seq<Settled>, s: Settled)
    ensures Failures(settled + [s]) == Failures(settled) + (if s.answer.FlushErr? then 1 else 0)
  {
  }

  lemma SettledKeepsBalance(sent: seq<Task>, settled: seq<Settled>, s: Settled, buffer: seq<Task>)
    requires sent == Join(settled) + s.batch + buffer
    ensures sent == Join(settled + [s]) + [] + buffer
  {
  }

  /** The answers so far and those to come. */
  function Answers(settled: seq<Settled>, answers: seq<FlushAnswer>): seq<FlushAnswer>
    decreases |settled|
  {
    var n := |settled| - 1;
    if settled == [] then answers else Answers(settled[..n], [settled[n].answer] + answers)
  }

  lemma SettledKeepsAnswers(settled: seq<Settled>, s: Settled, answers: seq<FlushAnswer>)
    ensures Answers(settled + [s], answers) == Answers(settled, [s.answer] + answers)
  {
  }

  /** Every insert there has been or will be for what was sent: the settled batches, the one in flight, the buffer. */
  function Inserts(settled: seq<Settled>, inFlight: seq<Task>, buffer: seq<Task>): seq<seq<Task>> {
    seq(|settled|, i requires 0 <= i < |settled| => settled[i].batch)
    + (if inFlight == [] then [] else [inFlight]) + (if buffer == [] then [] else [buffer])
  }

  lemma SettledKeepsInserts(settled: seq<Settled>, s: Settled, buffer: seq<Task>)
    requires s.batch != []
    ensures Inserts(settled + [s], [], buffer) == Inserts(settled, s.batch, buffer)
  {
  }

  lemma StartKeepsInserts(settled: seq<Settled>, buffer: seq<Task>)
    ensures Inserts(settled, buffer, []) == Inserts(settled, [], buffer)
  {
  }

  class BufferedSink {
    var buffer: seq<Task>
    /** The batch of the insert in flight. */
    var flushing: bool
    var inFlight: seq<Task>
    var answers: seq<FlushAnswer>
    /** Everything ever sent, every batch whose insert has answered, and how many errors were returned. */
    ghost var sent: seq<Task>
    ghost var settled: seq<Settled>
    ghost var reported: nat

    /** Everything sent is in a settled batch, in flight or buffered, in send order and once; no batch is
        empty, and every failed one has been reported. */
    ghost predicate Valid()
      reads this
    {
      && sent == Join(settled) + inFlight + buffer
      && (flushing <==> inFlight != [])
      && (forall s :: s in settled ==> s.batch != [] && s.answer != FlushPending)
      && reported == Failures(settled)
    }

    constructor (answers: seq<FlushAnswer>)
      ensures Valid() && sent == [] && settled == [] && this.answers == answers
    {
      buffer, flushing, inFlight, this.answers := [], false, [], answers;
      sent, settled, reported := [], [], 0;
    }

    method StartSend(item: Task)
      requires Valid()
      modifies this
      ensures Valid() && sent == old(sent) + [item] && buffer == old(buffer) + [item]
      ensures settled == old(settled) && inFlight == old(inFlight) && answers == old(answers)
    {
      buffer := buffer + [item];
      sent := sent + [item];
    }

    /** Polls the insert in flight: an answer settles its batch, Pending (or a script that has run out) does not. */
    method PollInsert() returns (answer: FlushAnswer)
      requires Valid() && flushing
      modifies this`flushing, this`inFlight, this`settled, this`reported, this`answers
      ensures Valid() && Inserts(settled, inFlight, buffer) == old(Inserts(settled, inFlight, buffer))
      ensures answer == FlushPending ==>
                flushing && settled == old(settled) && inFlight == old(inFlight) && reported == old(reported)
      ensures answer == FlushPending ==> old(answers) == [] == answers || old(answers) == [FlushPending] + answers
      ensures answer != FlushPending ==>
                && !flushing && settled == old(settled) + [Settled(old(inFlight), answer)]
                && reported == old(reported) + (if answer.FlushErr? then 1 else 0)
                && Answers(settled, answers) == Answers(old(settled), old(answers))
    {
      if answers == [] { return FlushPending; }
      answer := answers[0];
      assert answers == [answer] + answers[1..];
      answers := answers[1..];
      if answer == FlushPending { return; }
      var s := Settled(inFlight, answer);
      SettledKeepsAnswers(settled, s, answers);
      SettledKeepsInserts(settled, s, buffer);
      SettledKeepsBalance(sent, settled, s, buffer);
      FailuresNext(settled, s);
      settled := settled + [s];
      flushing, inFlight := false, [];
      if answer.FlushErr? { reported := reported + 1; }
    }

    /** The whole buffer becomes the batch of a new insert. */
    method StartFlush()
      requires Valid() && !flushing && buffer != []
      modifies this`buffer, this`flushing, this`inFlight
      ensures Valid() && flushing && inFlight == old(buffer) && buffer == []
      ensures Inserts(settled, inFlight, buffer) == old(Inserts(settled, inFlight, buffer))
    {
      StartKeepsInserts(settled, buffer);
      inFlight, buffer, flushing := buffer, [], true;
    }

    /** Ready(Ok) means nothing is buffered or in flight any more, and that nothing failed in this call;
        Ready(Err) reports exactly one failed batch; Pending keeps the insert in flight. Every batch in flight
        or buffered at the call is inserted whole, in that order, and once; answers are kept with their batches. */
    method PollFlush() returns (p: Poll)
      requires Valid()
      modifies this
      ensures Valid() && sent == old(sent) && old(settled) <= settled
      ensures p == ReadyOk ==> buffer == [] && !flushing && Join(settled) == sent && reported == old(reported)
      ensures p.ReadyErr? ==> !flushing && reported == old(reported) + 1
      ensures p.ReadyErr? ==> settled != [] && settled[|settled| - 1].answer == FlushErr(p.error)
      ensures p == Pending ==> flushing && reported == old(reported)
      ensures Inserts(settled, inFlight, buffer) == old(Inserts(settled, inFlight, buffer))
      ensures p != Pending ==> Answers(settled, answers) == old(Answers(settled, answers))
      ensures p == Pending ==>
                || (answers == [] && Answers(settled, []) == old(Answers(settled, answers)))
                || Answers(settled, [FlushPending] + answers) == old(Answers(settled, answers))
    {
      while true
        invariant Valid() && sent == old(sent) && old(settled) <= settled
        invariant reported == old(reported)
        invariant Answers(settled, answers) == old(Answers(settled, answers))
        invariant Inserts(settled, inFlight, buffer) == old(Inserts(settled, inFlight, buffer))
        decreases buffer != [], flushing
      {
        if flushing {
          var answer := PollInsert();
          match answer {
            case FlushPending => return Pending;
            case FlushOk =>
            case FlushErr(e) => return ReadyErr(e);
          }
        }
        if buffer == [] { return ReadyOk; }
        StartFlush();
      }
    }
  }
}
