/** The two timing hypotheses of mutual exclusion cannot be weakened by a single tick: wherever two instances
    serve one queue, some run misses just one of them, by the smallest amount, and executes a job twice at once. */
module Tightness {
  import opened Wrappers
  import opened JobTable
  import opened Protocol
  import opened Exclusion
  import opened Witness

  /** Two executions of one job at the same time. */
  ghost predicate RunsTwice(s: State) {
    exists t, u :: && t in s.copies && u in s.copies && t != u && t.job == u.job
                   && s.copies[t].phase == Executing && s.copies[u].phase == Executing
  }

  ghost predicate BreaksExclusion(env: Env, r: Run, lateness: nat, overrun: nat) {
    NearlyTimelyRun(env, r, lateness, overrun) && RunsTwice(Last(r))
  }

  /** Two running instances execute one job at the same time. */
  ghost predicate RunTogether(s: State, a: Instance, b: Instance) {
    && a != b && Alive(s, a) && Alive(s, b)
    && exists t, u :: && t in s.copies && u in s.copies && t.job == u.job
                      && s.copies[t].phase == Executing && s.copies[u].phase == Executing
                      && s.copies[t].holder == a && s.copies[u].holder == b
  }

  ghost predicate RaceRun(env: Env, r: Run, lateness: nat, overrun: nat, a: Instance, b: Instance) {
    NearlyTimelyRun(env, r, lateness, overrun) && RunTogether(Last(r), a, b)
  }

  /** Two instances of one queue that can execute the same job. */
  ghost predicate CanRace(env: Env, sc: Scene, a: Instance, b: Instance) {
    && a != b && env.queueOf(a) == env.queueOf(b) == sc.queue
    && env.decodes(a, sc.args) && env.decodes(b, sc.args)
  }

  /** Instance a registers and the job is pushed. */
  lemma Arrive(env: Env, sc: Scene, r: Run, lateness: nat, overrun: nat, a: Instance) returns (r': Run)
    requires NearlyTimelyRun(env, r, lateness, overrun) && env.queueOf(a) == sc.queue
    requires var s := Last(r);
             s.crashed == {} && s.jobs == map[] && s.usedIds == {} && s.workers == map[] && s.registeredAt == map[]
    ensures NearlyTimelyRun(env, r', lateness, overrun)
    ensures var s := Last(r);
            Last(r') == s.(
              jobs := map[7 := JobWith(sc, Pending, 0, None, None)], usedIds := {7},
              workers := map[a := WorkerRow("a", sc.queue, a, s.now, s.now)], registeredAt := map[a := s.now])
  {
    r' := Extend(env, r, lateness, overrun, Register(a, "a"));
    PushSeven(env, sc, Last(r'));
    r' := Extend(env, r', lateness, overrun, Push([RowOf(sc)]));
  }

  /** The first execution: registration, push, claim and lock, all at one instant. */
  lemma FirstExecution(env: Env, sc: Scene, r: Run, lateness: nat, overrun: nat, a: Instance) returns (r': Run)
    requires NearlyTimelyRun(env, r, lateness, overrun) && env.queueOf(a) == sc.queue && env.decodes(a, sc.args)
    requires var s := Last(r);
             && s.crashed == {} && s.claims == 0 && s.jobs == map[] && s.usedIds == {}
             && s.workers == map[] && s.registeredAt == map[] && s.copies == map[]
    ensures NearlyTimelyRun(env, r', lateness, overrun)
    ensures var s := Last(r);
            Last(r') == s.(
              jobs := map[7 := JobWith(sc, Running, 0, Some(a), Some(s.now))], usedIds := {7}, claims := 1,
              workers := map[a := WorkerRow("a", sc.queue, a, s.now, s.now)], registeredAt := map[a := s.now],
              copies := map[FIRST := Execution(sc, a, 0, s.now)])
  {
    r' := Arrive(env, sc, r, lateness, overrun, a);
    r' := Take(env, sc, r', lateness, overrun, a, 0);
  }

  /** Instance a executes since `at`, and sweep 0 has read a live set without it that it may still use. */
  ghost predicate AboutToLose(sc: Scene, s: State, overrun: nat, a: Instance, at: Time) {
    && s.crashed == {} && s.registeredAt == map[a := at] && s.claims == 1
    && s.copies == map[FIRST := Execution(sc, a, 0, at)]
    && s.jobs == map[7 := JobWith(sc, Running, 0, Some(a), Some(at))]
    && 0 in s.sweeps && !s.sweeps[0].reset && s.sweeps[0].queue == sc.queue && a !in s.sweeps[0].live
    && at + s.sweeps[0].window <= s.now < s.sweeps[0].readAt + s.sweeps[0].window + overrun
  }

  /** It loses its job to the sweep, and a second instance registers. */
  lemma LoseToSweep(env: Env, sc: Scene, r: Run, lateness: nat, overrun: nat, a: Instance, at: Time, b: Instance)
    returns (r': Run)
    requires NearlyTimelyRun(env, r, lateness, overrun) && AboutToLose(sc, Last(r), overrun, a, at) && a != b
    ensures NearlyTimelyRun(env, r', lateness, overrun)
    ensures var s, s' := Last(r), Last(r');
            && s'.crashed == {} && s'.registeredAt == map[a := at, b := s.now] && s'.now == s.now
            && s'.claims == s.claims && s'.copies == s.copies
            && s'.jobs == map[7 := JobWith(sc, Pending, 1, None, None)]
  {
    SweepSeven(env, sc, Last(r), 0, Running, Some(a), at);
    assert NearlyTimely(env, Last(r), lateness);
    r' := Extend(env, r, lateness, overrun, SweepReset(0));
    r' := Extend(env, r', lateness, overrun, Register(b, "b"));
  }

  /** So the second instance executes the job while the first still does. */
  lemma SecondExecution(env: Env, sc: Scene, r: Run, lateness: nat, overrun: nat, a: Instance, at: Time, b: Instance)
    returns (r': Run)
    requires NearlyTimelyRun(env, r, lateness, overrun) && AboutToLose(sc, Last(r), overrun, a, at)
    requires CanRace(env, sc, a, b)
    ensures RaceRun(env, r', lateness, overrun, a, b)
  {
    r' := LoseToSweep(env, sc, r, lateness, overrun, a, at, b);
    r' := Take(env, sc, r', lateness, overrun, b, 1);
    var copies := Last(r').copies;
    assert copies[FIRST].holder == a && copies[SECOND].holder == b && FIRST.job == SECOND.job;
  }

  /** A reset exactly one window after its read already breaks mutual exclusion, for every window. */
  lemma GapBoundIsTight(env: Env, sc: Scene, a: Instance, b: Instance)
    requires CanRace(env, sc, a, b)
    ensures exists r: Run :: RaceRun(env, r, 0, 1, a, b)
  {
    var window := env.window(sc.queue);
    var r := EmptyRun(env, 0, 1);
    r := Extend(env, r, 0, 1, SweepRead(0, sc.queue, window));
    assert Last(r).sweeps[0].live == {};
    r := FirstExecution(env, sc, r, 0, 1, a);
    r := Extend(env, r, 0, 1, Tick(window));
    r := SecondExecution(env, sc, r, 0, 1, a, 0, b);
  }

  /** A heartbeat one tick past the window already breaks mutual exclusion, for every positive window. */
  lemma HeartbeatBoundIsTight(env: Env, sc: Scene, a: Instance, b: Instance)
    requires CanRace(env, sc, a, b) && 0 < env.window(sc.queue)
    ensures exists r: Run :: RaceRun(env, r, 1, 0, a, b)
  {
    var window := env.window(sc.queue);
    var r := EmptyRun(env, 1, 0);
    r := FirstExecution(env, sc, r, 1, 0, a);
    r := Extend(env, r, 1, 0, Tick(window + 1));
    r := Extend(env, r, 1, 0, SweepRead(0, sc.queue, window));
    assert a !in Last(r).sweeps[0].live;
    r := SecondExecution(env, sc, r, 1, 0, a, 0, b);
  }

  lemma SlackWidens(env: Env, r: Run, lateness: nat, overrun: nat, lateness': nat, overrun': nat)
    requires NearlyTimelyRun(env, r, lateness, overrun) && lateness <= lateness' && overrun <= overrun'
    ensures NearlyTimelyRun(env, r, lateness', overrun')
  {
  }

  /** With no slack no job at all is executed twice at once, in any environment. */
  lemma TimelyNeverTwice(env: Env, r: Run)
    requires NearlyTimelyRun(env, r, 0, 0)
    ensures !RunsTwice(Last(r))
  {
    ZeroZeroIsTimely(env, r);
    forall t | t in Last(r).copies && Last(r).copies[t].phase == Executing
      ensures forall u :: u in Last(r).copies && u.job == t.job && Last(r).copies[u].phase == Executing ==> u == t
    {
      MutualExclusion(env, r, |r.states| - 1, t);
    }
  }

  /** So, wherever two instances can race for a job of a queue with a positive window, mutual exclusion of all
      jobs holds on all runs within a lateness and an overrun just when both are zero. */
  lemma ExclusionExactlyWhenTimely(env: Env, sc: Scene, a: Instance, b: Instance, lateness: nat, overrun: nat)
    requires CanRace(env, sc, a, b) && 0 < env.window(sc.queue)
    ensures (forall r: Run :: !BreaksExclusion(env, r, lateness, overrun)) <==> lateness == 0 && overrun == 0
  {
    if lateness == 0 && overrun == 0 {
      forall r: Run
        ensures !BreaksExclusion(env, r, 0, 0)
      {
        if NearlyTimelyRun(env, r, 0, 0) { TimelyNeverTwice(env, r); }
      }
    } else if 0 < lateness {
      HeartbeatBoundIsTight(env, sc, a, b);
      var r: Run :| RaceRun(env, r, 1, 0, a, b);
      SlackWidens(env, r, 1, 0, lateness, overrun);
      assert BreaksExclusion(env, r, lateness, overrun);
    } else {
      GapBoundIsTight(env, sc, a, b);
      var r: Run :| RaceRun(env, r, 0, 1, a, b);
      SlackWidens(env, r, 0, 1, lateness, overrun);
      assert BreaksExclusion(env, r, lateness, overrun);
    }
  }
}
