/** Where codecs matter. At most one execution needs no codec hypothesis; that the row names the executing
    instance, and that finished jobs stay as they are, hold on a queue exactly when its codecs agree. */
module Codecs {
  import opened Wrappers
  import opened JobTable
  import opened Protocol
  import opened Exclusion
  import opened Terminal
  import Safety
  import opened Witness

  /** Every execution on the queue is named by its row. */
  ghost predicate RowsNameHolders(env: Env, queue: Queue, s: State) {
    forall t :: t in s.copies && s.copies[t].phase == Executing && env.queueOf(s.copies[t].holder) == queue
      ==> NamesHolder(s, t, {Running})
  }

  ghost predicate AlwaysNamed(env: Env, queue: Queue) {
    forall r: Run :: NearlyTimelyRun(env, r, 0, 0) ==> RowsNameHolders(env, queue, Last(r))
  }

  /** The i-th action keeps the status of every finished job of the queue that it does not vacuum. */
  ghost predicate KeepsFinished(r: Run, queue: Queue, i: nat)
    requires i < |r.actions| && |r.states| == |r.actions| + 1
  {
    forall id :: id in r.states[i].jobs && r.states[i].jobs[id].queue == queue && Finished(r.states[i].jobs[id])
      ==> if id in r.states[i + 1].jobs then r.states[i + 1].jobs[id].status == r.states[i].jobs[id].status
          else r.actions[i].VacuumJobs?
  }

  ghost predicate AlwaysFinal(env: Env, queue: Queue) {
    forall r: Run, i: nat :: NearlyTimelyRun(env, r, 0, 0) && i < |r.actions| ==> KeepsFinished(r, queue, i)
  }

  // ------------------------------------------------------- agreement suffices

  lemma AgreementNames(env: Env, queue: Queue, r: Run)
    requires CodecsAgreeOn(env, queue) && NearlyTimelyRun(env, r, 0, 0)
    ensures RowsNameHolders(env, queue, Last(r))
  {
    var s := Last(r);
    ZeroZeroIsTimely(env, r);
    Safety.RunSafe(env, r, |r.states| - 1);
    forall t | t in s.copies && s.copies[t].phase == Executing && env.queueOf(s.copies[t].holder) == queue
      ensures NamesHolder(s, t, {Running})
    {
      MutualExclusion(env, r, |r.states| - 1, t);
      assert Safety.CopyOk(env, s, t, s.copies[t]);
    }
  }

  lemma AgreementKeeps(env: Env, queue: Queue, r: Run, i: nat)
    requires CodecsAgreeOn(env, queue) && NearlyTimelyRun(env, r, 0, 0) && i < |r.actions|
    ensures KeepsFinished(r, queue, i)
  {
    ZeroZeroIsTimely(env, r);
    forall id | id in r.states[i].jobs && r.states[i].jobs[id].queue == queue && Finished(r.states[i].jobs[id])
      ensures if id in r.states[i + 1].jobs then r.states[i + 1].jobs[id].status == r.states[i].jobs[id].status
              else r.actions[i].VacuumJobs?
    {
      FinishedIsFinal(env, r, i, id);
    }
  }

  // ------------------------------------------------------ agreement is needed

  /** The shared instance v cannot decode what w decodes, on the same queue. */
  ghost predicate Disagree(env: Env, sc: Scene, v: Instance, w: Instance) {
    && env.kindOf(v).SharedBackend? && env.queueOf(v) == env.queueOf(w) == sc.queue
    && env.decodes(w, sc.args) && !env.decodes(v, sc.args)
  }

  /** v registers and the job is pushed. */
  function Pushed(sc: Scene, v: Instance): State {
    INITIAL.(usedIds := {7}, registeredAt := map[v := 0], workers := map[v := WorkerRow("v", sc.queue, v, 0, 0)],
             jobs := map[7 := JobWith(sc, Pending, 0, None, None)])
  }

  /** Then v's stream polls the driver, whose claim hands the job to v: the copy waits in its channel. */
  lemma ClaimForShared(env: Env, sc: Scene, v: Instance) returns (r: Run)
    requires env.kindOf(v).SharedBackend? && env.queueOf(v) == sc.queue
    ensures NearlyTimelyRun(env, r, 0, 0)
    ensures Last(r) == Claimed(sc, Pushed(sc, v), None, v, 0)
  {
    r := EmptyRun(env, 0, 0);
    r := Extend(env, r, 0, 0, Register(v, "v"));
    PushSeven(env, sc, Last(r));
    r := Extend(env, r, 0, 0, Push([RowOf(sc)]));
    assert Alive(Last(r), v);
    SharedPollSeven(env, sc, Last(r), v);
    r := Extend(env, r, 0, 0, SharedPoll(map[sc.queue := v], 1));
  }

  /** A window later, with v just in time, a sweep reads the live set. */
  lemma ReadLate(env: Env, sc: Scene, v: Instance) returns (r: Run)
    requires env.kindOf(v).SharedBackend? && env.queueOf(v) == sc.queue
    ensures NearlyTimelyRun(env, r, 0, 0)
    ensures var window := env.window(sc.queue);
            var before := Claimed(sc, Pushed(sc, v), None, v, 0);
            Last(r) == before.(now := window, sweeps := map[0 := Sweep(sc.queue, window, {v}, window, false)])
  {
    var window := env.window(sc.queue);
    r := ClaimForShared(env, sc, v);
    r := Extend(env, r, 0, 0, Tick(window));
    assert LiveSet(Pushed(sc, v).workers, sc.queue, window, window) == {v};
    r := Extend(env, r, 0, 0, SweepRead(0, sc.queue, window));
  }

  /** It re-enqueues the job, whose row names nobody, and w registers. */
  lemma Requeue(env: Env, sc: Scene, v: Instance, w: Instance) returns (r: Run)
    requires Disagree(env, sc, v, w) && 0 < env.window(sc.queue)
    ensures NearlyTimelyRun(env, r, 0, 0)
    ensures var s := Last(r);
            && s.jobs == map[7 := JobWith(sc, Pending, 1, None, None)] && s.claims == 1 && s.crashed == {}
            && Alive(s, v) && Alive(s, w) && FIRST in s.copies && s.copies[FIRST].holder == v
            && s.copies[FIRST].phase == Waiting && s.copies[FIRST].row.args == sc.args
  {
    r := ReadLate(env, sc, v);
    SweepSeven(env, sc, Last(r), 0, Queued, None, 0);
    r := Extend(env, r, 0, 0, SweepReset(0));
    r := Extend(env, r, 0, 0, Register(w, "w"));
  }

  /** Now w executes the job, while the copy of v still waits. */
  lemma ExecuteBeside(env: Env, sc: Scene, v: Instance, w: Instance) returns (r: Run)
    requires Disagree(env, sc, v, w) && 0 < env.window(sc.queue)
    ensures NearlyTimelyRun(env, r, 0, 0)
    ensures var s := Last(r);
            && s.jobs.Keys == {7} && s.jobs[7].lockBy == Some(w) && s.jobs[7].queue == sc.queue
            && Enabled(env, s, Kill(FIRST, "undecodable")) && FIRST != SECOND
            && SECOND in s.copies && s.copies[SECOND] == Execution(sc, w, 1, s.now)
  {
    r := Requeue(env, sc, v, w);
    r := Take(env, sc, r, 0, 0, w, 1);
  }

  /** The stale copy reaches v, which parks the job that w executes. */
  lemma ParkedUnderExecution(env: Env, sc: Scene, v: Instance, w: Instance)
    requires Disagree(env, sc, v, w) && 0 < env.window(sc.queue)
    ensures !AlwaysNamed(env, sc.queue)
  {
    var r := ExecuteBeside(env, sc, v, w);
    assert NearlyTimely(env, Last(r), 0);
    r := Extend(env, r, 0, 0, Kill(FIRST, "undecodable"));
    var s := Last(r);
    assert SECOND in s.copies && !NamesHolder(s, SECOND, {Running});
    assert !RowsNameHolders(env, sc.queue, s);
  }

  /** Or it reaches v after w is done, and a Done job becomes Killed. */
  lemma ParkedAfterDone(env: Env, sc: Scene, v: Instance, w: Instance)
    requires Disagree(env, sc, v, w) && 0 < env.window(sc.queue)
    ensures !AlwaysFinal(env, sc.queue)
  {
    var r := ExecuteBeside(env, sc, v, w);
    assert NearlyTimely(env, Last(r), 0);
    r := Extend(env, r, 0, 0, Ack(SECOND, Succeeded("")));
    assert NearlyTimely(env, Last(r), 0);
    var i := |r.actions|;
    assert 7 in Last(r).jobs && Last(r).jobs[7].status == Done;
    r := Extend(env, r, 0, 0, Kill(FIRST, "undecodable"));
    assert r.states[i + 1] == Last(r) && r.states[i + 1].jobs[7].status == Killed;
    assert !KeepsFinished(r, sc.queue, i);
  }

  // ------------------------------------------------------------------ exactly

  /** On timely runs every execution on a queue is named by its row exactly when its codecs agree. */
  lemma NamedExactlyWhenCodecsAgree(env: Env, queue: Queue)
    requires 0 < env.window(queue)
    ensures AlwaysNamed(env, queue) <==> CodecsAgreeOn(env, queue)
  {
    if CodecsAgreeOn(env, queue) {
      forall r: Run | NearlyTimelyRun(env, r, 0, 0)
        ensures RowsNameHolders(env, queue, Last(r))
      {
        AgreementNames(env, queue, r);
      }
    } else {
      var v, w, args :| env.kindOf(v).SharedBackend? && env.queueOf(v) == env.queueOf(w) == queue
                        && env.decodes(w, args) && !env.decodes(v, args);
      ParkedUnderExecution(env, Scene(queue, args), v, w);
    }
  }

  /** And exactly then Done and Killed are final. */
  lemma FinalExactlyWhenCodecsAgree(env: Env, queue: Queue)
    requires 0 < env.window(queue)
    ensures AlwaysFinal(env, queue) <==> CodecsAgreeOn(env, queue)
  {
    if CodecsAgreeOn(env, queue) {
      forall r: Run, i: nat | NearlyTimelyRun(env, r, 0, 0) && i < |r.actions|
        ensures KeepsFinished(r, queue, i)
      {
        AgreementKeeps(env, queue, r, i);
      }
    } else {
      var v, w, args :| env.kindOf(v).SharedBackend? && env.queueOf(v) == env.queueOf(w) == queue
                        && env.decodes(w, args) && !env.decodes(v, args);
      ParkedAfterDone(env, Scene(queue, args), v, w);
    }
  }
}
