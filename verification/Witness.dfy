/** Runs built one action at a time, for showing what can go wrong: one job, pushed to one queue. */
module Witness {
  import opened Wrappers
  import opened JobTable
  import opened Protocol
  import opened Exclusion

  /** The queue and payload of the one job, which has id 7 and a limit of one attempt. */
  datatype Scene = Scene(queue: Queue, args: Bytes)

  const FIRST := Ticket(0, 7)
  const SECOND := Ticket(1, 7)

  function RowOf(sc: Scene): PushRow {
    PushRow(7, sc.args, sc.queue, 1, 0, 0, None)
  }

  /** The pushed row as it stands after a claim, a lock or a sweep. */
  function JobWith(sc: Scene, status: Status, attempts: nat, lockBy: Option<Instance>, lockAt: Option<Time>): Job {
    var result := if attempts == 0 then None else Some(ErrMessage(ORPHAN_MESSAGE));
    Job(sc.queue, sc.args, status, attempts, 1, 0, result, lockAt, lockBy, None, 0, None)
  }

  // ------------------------------------------------------ nearly timely runs

  ghost predicate NearlyTimely(env: Env, s: State, lateness: nat) {
    forall w :: w in s.workers && Alive(s, w) ==>
      s.now <= s.workers[w].lastSeen + env.window(env.queueOf(w)) + lateness
  }

  ghost predicate NearlyPrompt(env: Env, s: State, a: Action, overrun: nat) {
    match a
    case SweepRead(_, q, window) => env.window(q) <= window
    case SweepReset(k) => k in s.sweeps ==> s.now < s.sweeps[k].readAt + s.sweeps[k].window + overrun
    case _ => true
  }

  /** A run whose heartbeats are at most `lateness` past their window, and whose resets miss the sweep's
      window by less than `overrun`; with 0 and 0 this is a timely run. */
  ghost predicate NearlyTimelyRun(env: Env, r: Run, lateness: nat, overrun: nat) {
    && IsRun(env, r)
    && (forall i :: 0 <= i < |r.states| ==> NearlyTimely(env, r.states[i], lateness))
    && (forall i :: 0 <= i < |r.actions| ==> NearlyPrompt(env, r.states[i], r.actions[i], overrun))
  }

  lemma ZeroZeroIsTimely(env: Env, r: Run)
    requires NearlyTimelyRun(env, r, 0, 0)
    ensures TimelyRun(env, r)
  {
  }

  function Last(r: Run): State
    requires r.states != []
  {
    r.states[|r.states| - 1]
  }

  // --------------------------------------------------------- one more action

  lemma Extend(env: Env, r: Run, lateness: nat, overrun: nat, a: Action) returns (r': Run)
    requires NearlyTimelyRun(env, r, lateness, overrun)
    requires Enabled(env, Last(r), a) && NearlyPrompt(env, Last(r), a, overrun)
    requires NearlyTimely(env, Apply(env, Last(r), a), lateness)
    ensures NearlyTimelyRun(env, r', lateness, overrun) && Last(r') == Apply(env, Last(r), a)
    ensures |r'.actions| == |r.actions| + 1 && r'.actions[|r.actions|] == a && r'.states[|r.actions|] == Last(r)
  {
    var s' := Apply(env, Last(r), a);
    r' := Run(r.states + [s'], r.actions + [a]);
    ExtendIsRun(env, r, a, s', r');
    ExtendIsTimely(env, r, lateness, overrun, a, s', r');
  }

  lemma ExtendIsTimely(env: Env, r: Run, lateness: nat, overrun: nat, a: Action, s': State, r': Run)
    requires |r.states| == |r.actions| + 1 && r' == Run(r.states + [s'], r.actions + [a])
    requires forall i :: 0 <= i < |r.states| ==> NearlyTimely(env, r.states[i], lateness)
    requires forall i :: 0 <= i < |r.actions| ==> NearlyPrompt(env, r.states[i], r.actions[i], overrun)
    requires NearlyTimely(env, s', lateness) && NearlyPrompt(env, Last(r), a, overrun)
    ensures forall i :: 0 <= i < |r'.states| ==> NearlyTimely(env, r'.states[i], lateness)
    ensures forall i :: 0 <= i < |r'.actions| ==> NearlyPrompt(env, r'.states[i], r'.actions[i], overrun)
  {
  }

  lemma ExtendIsRun(env: Env, r: Run, a: Action, s': State, r': Run)
    requires IsRun(env, r) && Enabled(env, Last(r), a) && s' == Apply(env, Last(r), a)
    requires r' == Run(r.states + [s'], r.actions + [a])
    ensures IsRun(env, r')
  {
    forall i | 0 <= i < |r'.actions|
      ensures StepAt(env, r', i)
    {
      if i < |r.actions| {
        assert StepAt(env, r, i);
        assert r'.states[i] == r.states[i] && r'.states[i + 1] == r.states[i + 1] && r'.actions[i] == r.actions[i];
      } else {
        assert r'.states[i] == Last(r) && r'.states[i + 1] == s' && r'.actions[i] == a;
      }
    }
  }

  lemma EmptyRun(env: Env, lateness: nat, overrun: nat) returns (r: Run)
    ensures NearlyTimelyRun(env, r, lateness, overrun) && Last(r) == INITIAL
  {
    r := Run([INITIAL], []);
  }

  // ------------------------------------------------- what each action leaves

  lemma PushSeven(env: Env, sc: Scene, s: State)
    requires s.jobs == map[] && s.usedIds == {}
    ensures Enabled(env, s, Push([RowOf(sc)]))
    ensures Apply(env, s, Push([RowOf(sc)]))
         == s.(jobs := map[7 := JobWith(sc, Pending, 0, None, None)], usedIds := {7})
  {
    var rows := [RowOf(sc)];
    assert PushLoop(s.jobs, rows, 0) == Some(s.jobs);
    assert PushLoop(s.jobs, rows, 1) == Some(map[7 := NewJob(RowOf(sc))]);
    assert (set i | 0 <= i < |rows| :: rows[i].id) == {7} by { assert rows[0].id == 7; }
  }

  lemma BatchSeven(sc: Scene, jobs: Table, attempts: nat, now: Time)
    requires jobs == map[7 := JobWith(sc, Pending, attempts, None, None)]
    ensures Batch(jobs, {sc.queue}, 1, now) == [7]
  {
    assert DueIds(jobs, {sc.queue}, now) == {7};
    var ranked := OrderBy(jobs, {7});
    assert ranked[0] in ranked;
    assert ranked == [7];
  }

  /** The state a claim leaves, when the only job is pending. */
  function Claimed(sc: Scene, s: State, owner: Option<Instance>, holder: Instance, attempts: nat): State {
    var job := JobWith(sc, Queued, attempts, owner, Some(s.now));
    s.(jobs := map[7 := job], claims := s.claims + 1,
       copies := s.copies[Ticket(s.claims, 7) := Copy(holder, job, Waiting)])
  }

  lemma ClaimRowSeven(sc: Scene, jobs: Table, owner: Option<Instance>, attempts: nat, now: Time)
    requires jobs == map[7 := JobWith(sc, Pending, attempts, None, None)]
    ensures ClaimIds(jobs, [7], owner, now) == map[7 := JobWith(sc, Queued, attempts, owner, Some(now))]
  {
  }

  lemma NewCopySeven(n: nat, job: Job, holders: map<JobId, Instance>)
    requires 7 in holders
    ensures NewCopies(n, [7], map[7 := job], holders) == map[Ticket(n, 7) := Copy(holders[7], job, Waiting)]
  {
  }

  lemma PollSeven(env: Env, sc: Scene, s: State, w: Instance, attempts: nat)
    requires env.queueOf(w) == sc.queue && s.jobs == map[7 := JobWith(sc, Pending, attempts, None, None)]
    ensures AfterPoll(env, s, w, 1) == Claimed(sc, s, Some(w), w, attempts)
  {
    var job := JobWith(sc, Queued, attempts, Some(w), Some(s.now));
    BatchSeven(sc, s.jobs, attempts, s.now);
    ClaimRowSeven(sc, s.jobs, Some(w), attempts, s.now);
    NewCopySeven(s.claims, job, map id | id in [7] :: w);
    AddOne(s.copies, Ticket(s.claims, 7), Copy(w, job, Waiting));
  }

  lemma SharedPollSeven(env: Env, sc: Scene, s: State, w: Instance)
    requires s.jobs == map[7 := JobWith(sc, Pending, 0, None, None)]
    ensures AfterSharedPoll(env, s, map[sc.queue := w], 1) == Claimed(sc, s, None, w, 0)
  {
    var job, route := JobWith(sc, Queued, 0, None, Some(s.now)), map[sc.queue := w];
    assert route.Keys == {sc.queue};
    BatchSeven(sc, s.jobs, 0, s.now);
    ClaimRowSeven(sc, s.jobs, None, 0, s.now);
    var ids := Batch(s.jobs, route.Keys, 1, s.now);
    NewCopySeven(s.claims, job, map id | id in ids :: route[s.jobs[id].queue]);
    AddOne(s.copies, Ticket(s.claims, 7), Copy(w, job, Waiting));
  }

  lemma AddOne(copies: map<Ticket, Copy>, t: Ticket, c: Copy)
    ensures copies + map[t := c] == copies[t := c]
  {
  }

  lemma LockSeven(env: Env, sc: Scene, s: State, t: Ticket, w: Instance, attempts: nat, row: Job, at: Time)
    requires t.job == 7 && t in s.copies && s.copies[t] == Copy(w, row, Waiting)
    requires w in s.registeredAt && w !in s.crashed && env.decodes(w, row.args)
    requires s.jobs == map[7 := JobWith(sc, Queued, attempts, Some(w), Some(at))]
    ensures Enabled(env, s, Lock(t))
    ensures Apply(env, s, Lock(t)) == s.(jobs := map[7 := JobWith(sc, Running, attempts, Some(w), Some(s.now))],
                                         copies := s.copies[t := Copy(w, row, Executing)])
  {
  }

  /** A reset takes the job from a holder that the sweep did not see, or from nobody. */
  lemma SweepSeven(env: Env, sc: Scene, s: State, k: nat, status: Status, owner: Option<Instance>, at: Time)
    requires k in s.sweeps && !s.sweeps[k].reset && s.sweeps[k].queue == sc.queue && at + s.sweeps[k].window <= s.now
    requires s.jobs == map[7 := JobWith(sc, status, 0, owner, Some(at))]
    requires if owner.None? then status == Queued else status == Running && owner.value !in s.sweeps[k].live
    ensures Enabled(env, s, SweepReset(k))
    ensures Apply(env, s, SweepReset(k)) == s.(jobs := map[7 := JobWith(sc, Pending, 1, None, None)],
                                               sweeps := s.sweeps[k := s.sweeps[k].(reset := true)])
  {
  }

  // ------------------------------------------------------ scenes put together

  lemma TakeClaim(env: Env, sc: Scene, r: Run, lateness: nat, overrun: nat, w: Instance, attempts: nat)
    returns (r': Run)
    requires NearlyTimelyRun(env, r, lateness, overrun) && env.queueOf(w) == sc.queue
    requires w in Last(r).registeredAt && w !in Last(r).crashed
    requires Last(r).jobs == map[7 := JobWith(sc, Pending, attempts, None, None)]
    ensures NearlyTimelyRun(env, r', lateness, overrun) && Last(r') == Claimed(sc, Last(r), Some(w), w, attempts)
  {
    assert NearlyTimely(env, Last(r), lateness);
    PollSeven(env, sc, Last(r), w, attempts);
    r' := Extend(env, r, lateness, overrun, Poll(w, 1));
  }

  lemma TakeLock(env: Env, sc: Scene, r: Run, lateness: nat, overrun: nat, t: Ticket, w: Instance, attempts: nat,
                 row: Job, at: Time)
    returns (r': Run)
    requires NearlyTimelyRun(env, r, lateness, overrun)
    requires var s := Last(r);
             && t.job == 7 && t in s.copies && s.copies[t] == Copy(w, row, Waiting)
             && w in s.registeredAt && w !in s.crashed && env.decodes(w, row.args)
             && s.jobs == map[7 := JobWith(sc, Queued, attempts, Some(w), Some(at))]
    ensures NearlyTimelyRun(env, r', lateness, overrun)
    ensures var s := Last(r);
            Last(r') == s.(jobs := map[7 := JobWith(sc, Running, attempts, Some(w), Some(s.now))],
                           copies := s.copies[t := Copy(w, row, Executing)])
  {
    assert NearlyTimely(env, Last(r), lateness);
    LockSeven(env, sc, Last(r), t, w, attempts, row, at);
    r' := Extend(env, r, lateness, overrun, Lock(t));
  }

  /** The copy that executes, given when its instance claimed and locked at once. */
  function Execution(sc: Scene, w: Instance, attempts: nat, at: Time): Copy {
    Copy(w, JobWith(sc, Queued, attempts, Some(w), Some(at)), Executing)
  }

  /** Instance w claims the pending job and locks it at once. */
  lemma Take(env: Env, sc: Scene, r: Run, lateness: nat, overrun: nat, w: Instance, attempts: nat)
    returns (r': Run)
    requires NearlyTimelyRun(env, r, lateness, overrun) && env.queueOf(w) == sc.queue && env.decodes(w, sc.args)
    requires w in Last(r).registeredAt && w !in Last(r).crashed
    requires Last(r).jobs == map[7 := JobWith(sc, Pending, attempts, None, None)]
    ensures NearlyTimelyRun(env, r', lateness, overrun)
    ensures var s := Last(r);
            Last(r') == s.(jobs := map[7 := JobWith(sc, Running, attempts, Some(w), Some(s.now))],
                           claims := s.claims + 1,
                           copies := s.copies[Ticket(s.claims, 7) := Execution(sc, w, attempts, s.now)])
  {
    var s := Last(r);
    var t, row := Ticket(s.claims, 7), JobWith(sc, Queued, attempts, Some(w), Some(s.now));
    r' := TakeClaim(env, sc, r, lateness, overrun, w, attempts);
    r' := TakeLock(env, sc, r', lateness, overrun, t, w, attempts, row, s.now);
    assert s.copies[t := Copy(w, row, Waiting)][t := Copy(w, row, Executing)] == s.copies[t := Copy(w, row, Executing)];
  }
}
