/** Mutual exclusion. Under timely heartbeats and a sweep whose reset follows its read by less than the
    liveness window, no job is ever executed twice at once, and nobody takes a job from a running holder. */
module Exclusion {
  import opened Wrappers
  import opened JobTable
  import opened Protocol
  import opened Effects
  import opened Safety
  import opened Pushing

  // -------------------------------------------------------------- hypotheses

  /** A running instance's heartbeat is never more than its queue's smallest window behind the clock. */
  ghost predicate Timely(env: Env, s: State) {
    forall w :: w in s.workers && Alive(s, w) ==> s.now <= s.workers[w].lastSeen + env.window(env.queueOf(w))
  }

  /** Sweeps use at least the queue's smallest window, and the reset runs within it after the read. */
  ghost predicate Prompt(env: Env, s: State, a: Action) {
    match a
    case SweepRead(_, q, window) => env.window(q) <= window
    case SweepReset(k) => k in s.sweeps ==> s.now < s.sweeps[k].readAt + s.sweeps[k].window
    case _ => true
  }

  ghost predicate TimelyAt(env: Env, r: Run, i: nat)
    requires i < |r.actions| && i < |r.states|
  {
    Timely(env, r.states[i]) && Prompt(env, r.states[i], r.actions[i])
  }

  ghost predicate TimelyRun(env: Env, r: Run)
    requires |r.actions| <= |r.states|
  {
    forall i :: 0 <= i < |r.actions| ==> TimelyAt(env, r, i)
  }

  // --------------------------------------------------------------- invariant

  /** The copies that own their job: all of a polling instance's, and every execution. */
  predicate Exclusive(env: Env, c: Copy) {
    env.kindOf(c.holder).PollingBackend? || c.phase == Executing
  }

  predicate PhaseMatches(phase: Phase, status: Status) {
    match phase
    case Waiting => status == Queued
    case Executing => status == Running
    case LockFailed => status in {Queued, Running}
  }

  /** The store agrees that the copy's holder has the job, since after it registered. */
  ghost predicate Held(env: Env, s: State, t: Ticket, c: Copy) {
    && t.job in s.jobs
    && s.jobs[t.job].lockBy == Some(c.holder)
    && Alive(s, c.holder)
    && s.jobs[t.job].lockAt.Some? && s.registeredAt[c.holder] <= s.jobs[t.job].lockAt.value
    && PhaseMatches(c.phase, s.jobs[t.job].status)
    && (env.kindOf(c.holder).PollingBackend? ==> s.jobs[t.job].attempts == c.row.attempts)
  }

  predicate Parked(jobs: Table, id: JobId) {
    id !in jobs || (jobs[id].status == Killed && jobs[id].lockBy.None? && jobs[id].lockAt.None?)
  }

  /** Some shared instance of the queue cannot decode the payload, so it may park the job at any time. */
  ghost predicate SharedRejects(env: Env, queue: Queue, args: Bytes) {
    exists v :: env.kindOf(v).SharedBackend? && env.queueOf(v) == queue && !env.decodes(v, args)
  }

  /** The job was parked under the copy, by a shared instance that cannot decode it. */
  ghost predicate Undercut(env: Env, jobs: Table, t: Ticket, c: Copy) {
    Parked(jobs, t.job) && SharedRejects(env, env.queueOf(c.holder), c.row.args)
  }

  ghost predicate Owns(env: Env, s: State, t: Ticket, c: Copy) {
    Held(env, s, t, c) || Undercut(env, s.jobs, t, c)
  }

  ghost predicate OwnersOk(env: Env, s: State) {
    forall t :: t in s.copies && Exclusive(env, s.copies[t]) ==> Owns(env, s, t, s.copies[t])
  }

  ghost predicate OneOwner(env: Env, s: State) {
    forall t, u ::
      t in s.copies && u in s.copies && t.job == u.job && Exclusive(env, s.copies[t]) && Exclusive(env, s.copies[u])
      ==> t == u
  }

  /** Whoever the live set of an unfinished sweep misses registered after it was read. */
  ghost predicate SweepCovers(env: Env, s: State, sw: Sweep) {
    && env.window(sw.queue) <= sw.window
    && (!sw.reset ==>
          forall w :: Alive(s, w) && env.queueOf(w) == sw.queue ==> w in sw.live || sw.readAt <= s.registeredAt[w])
  }

  ghost predicate SweepsOk(env: Env, s: State) {
    forall k :: k in s.sweeps ==> SweepCovers(env, s, s.sweeps[k])
  }

  ghost predicate RowsKept(s: State) {
    forall w :: Alive(s, w) ==> w in s.workers
  }

  ghost predicate Guarded(env: Env, s: State) {
    OwnersOk(env, s) && OneOwner(env, s) && SweepsOk(env, s) && RowsKept(s)
  }

  // --------------------------------------------------------- rows and sweeps

  lemma StepKeepsRows(env: Env, s: State, a: Action)
    requires Safe(env, s) && Guarded(env, s) && Timely(env, s) && Enabled(env, s, a) && Prompt(env, s, a)
    ensures RowsKept(Apply(env, s, a))
  {
  }

  lemma StepKeepsSweeps(env: Env, s: State, a: Action)
    requires Safe(env, s) && Guarded(env, s) && Timely(env, s) && Enabled(env, s, a) && Prompt(env, s, a)
    ensures SweepsOk(env, Apply(env, s, a))
  {
  }

  // ------------------------------------------------------------ owned copies

  /** The reset never strands a job that a running instance holds. */
  lemma HeldNotStranded(env: Env, s: State, t: Ticket, k: nat)
    requires Safe(env, s) && Guarded(env, s) && Enabled(env, s, SweepReset(k)) && Prompt(env, s, SweepReset(k))
    requires t in s.copies && Held(env, s, t, s.copies[t])
    ensures !Stranded(s.jobs[t.job], s.sweeps[k].queue, s.sweeps[k].live, s.sweeps[k].window, s.now)
  {
  }

  /** A step taken for another copy leaves an owned job as it was, or parks it for an instance that cannot decode it. */
  ghost predicate LeavesAlone(env: Env, s: State, s': State, t: Ticket)
    requires t in s.copies
  {
    || (t.job in s.jobs && t.job in s'.jobs && s'.jobs[t.job] == s.jobs[t.job])
    || Undercut(env, s'.jobs, t, s.copies[t])
  }

  lemma AckLeavesOthers(env: Env, s: State, a: Action, t: Ticket)
    requires Safe(env, s) && Guarded(env, s) && Enabled(env, s, a) && a.Ack? && a.t != t
    requires t in s.copies && Exclusive(env, s.copies[t])
    ensures ChangeOf(env, s, a, t.job).Unchanged?
  {
  }

  lemma LockLeavesOthers(env: Env, s: State, a: Action, t: Ticket)
    requires Safe(env, s) && Guarded(env, s) && Enabled(env, s, a) && (a.Lock? || a.LockError?) && a.t != t
    requires t in s.copies && Exclusive(env, s.copies[t])
    ensures ChangeOf(env, s, a, t.job).Unchanged?
  {
  }

  lemma SweepLeavesHeld(env: Env, s: State, k: nat, t: Ticket)
    requires Safe(env, s) && Guarded(env, s) && Enabled(env, s, SweepReset(k)) && Prompt(env, s, SweepReset(k))
    requires t in s.copies && Exclusive(env, s.copies[t])
    ensures ChangeOf(env, s, SweepReset(k), t.job).Unchanged?
  {
  }

  lemma InsertsNotOwned(env: Env, s: State, a: Action, t: Ticket)
    requires Safe(env, s) && Enabled(env, s, a) && a.Push? && t in s.copies
    ensures ChangeOf(env, s, a, t.job).Unchanged?
  {
    assert CopyOk(env, s, t, s.copies[t]);
    PushOnlyAdds(s.jobs, a.rows);
  }

  predicate ActsFor(a: Action, t: Ticket) {
    (a.Lock? || a.LockError? || a.Ack? || a.Kill? || a.Lose?) && a.t == t
  }

  lemma KillLeavesAlone(env: Env, s: State, a: Action, t: Ticket)
    requires Safe(env, s) && Guarded(env, s) && Enabled(env, s, a) && a.Kill? && a.t != t
    requires t in s.copies && Exclusive(env, s.copies[t])
    ensures LeavesAlone(env, s, Apply(env, s, a), t)
  {
  }

  lemma VacuumLeavesAlone(env: Env, s: State, t: Ticket)
    requires Guarded(env, s) && t in s.copies && Exclusive(env, s.copies[t])
    ensures LeavesAlone(env, s, Apply(env, s, VacuumJobs), t)
  {
  }

  lemma ClaimsSkipOwned(env: Env, s: State, a: Action, t: Ticket)
    requires OwnersOk(env, s) && Enabled(env, s, a) && (a.Poll? || a.SharedPoll?)
    requires t in s.copies && Exclusive(env, s.copies[t])
    ensures ChangeOf(env, s, a, t.job).Unchanged?
  {
    OwnedNotClaimable(env, s, t);
    StepEffect(env, s, a, t.job);
  }

  lemma UnchangedLeavesAlone(env: Env, s: State, a: Action, t: Ticket)
    requires Guarded(env, s) && Enabled(env, s, a) && t in s.copies && Exclusive(env, s.copies[t])
    requires ChangeOf(env, s, a, t.job).Unchanged?
    ensures LeavesAlone(env, s, Apply(env, s, a), t)
  {
    assert Owns(env, s, t, s.copies[t]);
    StepEffect(env, s, a, t.job);
  }

  lemma StepLeavesAlone(env: Env, s: State, a: Action, t: Ticket)
    requires Safe(env, s) && Guarded(env, s) && Enabled(env, s, a) && Prompt(env, s, a)
    requires t in s.copies && Exclusive(env, s.copies[t]) && !ActsFor(a, t)
    ensures LeavesAlone(env, s, Apply(env, s, a), t)
  {
    if a.Kill? {
      KillLeavesAlone(env, s, a, t);
    } else if a.VacuumJobs? {
      VacuumLeavesAlone(env, s, t);
    } else {
      if a.Push? {
        InsertsNotOwned(env, s, a, t);
      } else if a.Poll? || a.SharedPoll? {
        ClaimsSkipOwned(env, s, a, t);
      } else if a.Lock? || a.LockError? {
        LockLeavesOthers(env, s, a, t);
      } else if a.Ack? {
        AckLeavesOthers(env, s, a, t);
      } else if a.SweepReset? {
        SweepLeavesHeld(env, s, a.k, t);
      } else {
        NoEffect(env, s, a, t.job);
      }
      UnchangedLeavesAlone(env, s, a, t);
    }
  }

  lemma BystanderStillOwns(env: Env, s: State, a: Action, t: Ticket)
    requires Safe(env, s) && Guarded(env, s) && Enabled(env, s, a) && Prompt(env, s, a)
    requires t in s.copies && t in Apply(env, s, a).copies && !ActsFor(a, t)
    requires Exclusive(env, Apply(env, s, a).copies[t])
    ensures s.copies[t] == Apply(env, s, a).copies[t]
    ensures Owns(env, Apply(env, s, a), t, s.copies[t])
  {
    var s' := Apply(env, s, a);
    BystanderSame(env, s, a, t);
    assert Owns(env, s, t, s.copies[t]);
    StepLeavesAlone(env, s, a, t);
    StepGrows(env, s, a);
  }

  lemma BystanderSame(env: Env, s: State, a: Action, t: Ticket)
    requires CopiesOk(env, s) && Enabled(env, s, a) && t in s.copies && t in Apply(env, s, a).copies && !ActsFor(a, t)
    ensures s.copies[t] == Apply(env, s, a).copies[t]
    ensures s.copies[t].holder in Apply(env, s, a).crashed ==> s.copies[t].holder in s.crashed
  {
  }

  /** A successful lock makes the copy the job's one owner. */
  lemma LockerOwns(env: Env, s: State, a: Action)
    requires Safe(env, s) && Guarded(env, s) && Enabled(env, s, a)
    requires a.Lock? || a.LockError?
    requires a.t in Apply(env, s, a).copies && Exclusive(env, Apply(env, s, a).copies[a.t])
    ensures Owns(env, Apply(env, s, a), a.t, Apply(env, s, a).copies[a.t])
  {
    if a.Lock? { LockedOwns(env, s, a.t); } else { LockErrorOwns(env, s, a.t, a.committed); }
  }

  lemma LockedOwns(env: Env, s: State, t: Ticket)
    requires Safe(env, s) && Guarded(env, s) && Enabled(env, s, Lock(t))
    requires var s' := Apply(env, s, Lock(t)); t in s'.copies && Exclusive(env, s'.copies[t])
    ensures var s' := Apply(env, s, Lock(t)); Owns(env, s', t, s'.copies[t])
  {
    assert CopyOk(env, s, t, s.copies[t]);
    if t.job in s.jobs && LockGuard(s.jobs[t.job], s.copies[t].holder) {
      assert Held(env, Apply(env, s, Lock(t)), t, Apply(env, s, Lock(t)).copies[t]);
    } else {
      assert Owns(env, s, t, s.copies[t]);
    }
  }

  lemma LockErrorOwns(env: Env, s: State, t: Ticket, committed: bool)
    requires Safe(env, s) && Guarded(env, s) && Enabled(env, s, LockError(t, committed))
    requires var s' := Apply(env, s, LockError(t, committed)); t in s'.copies && Exclusive(env, s'.copies[t])
    ensures var s' := Apply(env, s, LockError(t, committed)); Owns(env, s', t, s'.copies[t])
  {
  }

  lemma ClaimerOwns(env: Env, s: State, a: Action, t: Ticket)
    requires Safe(env, s) && Guarded(env, s) && Enabled(env, s, a) && (a.Poll? || a.SharedPoll?)
    requires t !in s.copies && t in Apply(env, s, a).copies && Exclusive(env, Apply(env, s, a).copies[t])
    ensures Owns(env, Apply(env, s, a), t, Apply(env, s, a).copies[t])
  {
    if a.Poll? {
      PollMakes(env, s, a.w, a.limit, t);
    } else {
      SharedPollMakes(env, s, a.route, a.limit, t);
    }
  }

  lemma StepKeepsOwners(env: Env, s: State, a: Action)
    requires Safe(env, s) && Guarded(env, s) && Enabled(env, s, a) && Prompt(env, s, a)
    ensures OwnersOk(env, Apply(env, s, a))
  {
    var s' := Apply(env, s, a);
    forall t | t in s'.copies && Exclusive(env, s'.copies[t])
      ensures Owns(env, s', t, s'.copies[t])
    {
      if t !in s.copies {
        NewCopiesClaimed(env, s, a, t);
        ClaimerOwns(env, s, a, t);
      } else if ActsFor(a, t) {
        ActorSurvives(env, s, a);
        LockerOwns(env, s, a);
      } else {
        BystanderStillOwns(env, s, a, t);
      }
    }
  }

  lemma NewCopiesClaimed(env: Env, s: State, a: Action, t: Ticket)
    requires CopiesOk(env, s) && Enabled(env, s, a) && t !in s.copies && t in Apply(env, s, a).copies
    ensures a.Poll? || a.SharedPoll?
  {
    if !a.Poll? && !a.SharedPoll? { StepCopies(env, s, a); }
  }

  lemma ActorSurvives(env: Env, s: State, a: Action)
    requires Enabled(env, s, a) && (a.Lock? || a.LockError? || a.Ack? || a.Kill? || a.Lose?)
    requires a.t in Apply(env, s, a).copies
    ensures a.Lock? || a.LockError?
  {
  }

  // ------------------------------------------------------------ only one owner

  lemma OwnedNotClaimable(env: Env, s: State, u: Ticket)
    requires OwnersOk(env, s) && u in s.copies && Exclusive(env, s.copies[u])
    ensures u.job in s.jobs ==> !Claimable(s.jobs[u.job])
  {
  }

  /** Claiming makes an owner only of a job that nobody owned. */
  lemma ClaimedWasClaimable(env: Env, s: State, a: Action, t: Ticket)
    requires Enabled(env, s, a) && (a.Poll? || a.SharedPoll?)
    requires t !in s.copies && t in Apply(env, s, a).copies
    ensures t.job in s.jobs && Claimable(s.jobs[t.job])
  {
  }

  /** Locking succeeds only on a job that no other copy owns. */
  lemma LockedWasFree(env: Env, s: State, a: Action, u: Ticket)
    requires Safe(env, s) && Guarded(env, s) && Enabled(env, s, a) && (a.Lock? || a.LockError?)
    requires a.t in Apply(env, s, a).copies && Exclusive(env, Apply(env, s, a).copies[a.t])
    requires u in s.copies && u != a.t && Exclusive(env, s.copies[u])
    ensures u.job != a.t.job
  {
    assert Owns(env, s, u, s.copies[u]);
    assert CopyOk(env, s, a.t, s.copies[a.t]) && CopyOk(env, s, u, s.copies[u]);
  }

  lemma PairStaysDistinct(env: Env, s: State, a: Action, t: Ticket, u: Ticket)
    requires Safe(env, s) && Guarded(env, s) && Enabled(env, s, a) && Prompt(env, s, a)
    requires t in Apply(env, s, a).copies && u in Apply(env, s, a).copies && t != u
    requires Exclusive(env, Apply(env, s, a).copies[t]) && Exclusive(env, Apply(env, s, a).copies[u])
    requires u in s.copies && !ActsFor(a, u)
    ensures t.job != u.job
  {
    BystanderSame(env, s, a, u);
    if t !in s.copies {
      NewCopiesClaimed(env, s, a, t);
      ClaimedWasClaimable(env, s, a, t);
      OwnedNotClaimable(env, s, u);
    } else if ActsFor(a, t) {
      ActorSurvives(env, s, a);
      LockedWasFree(env, s, a, u);
    } else {
      BystanderSame(env, s, a, t);
    }
  }

  lemma StepKeepsOneOwner(env: Env, s: State, a: Action)
    requires Safe(env, s) && Guarded(env, s) && Enabled(env, s, a) && Prompt(env, s, a)
    ensures OneOwner(env, Apply(env, s, a))
  {
    var s' := Apply(env, s, a);
    forall t, u | && t in s'.copies && u in s'.copies && t != u
                  && Exclusive(env, s'.copies[t]) && Exclusive(env, s'.copies[u])
      ensures t.job != u.job
    {
      if u in s.copies && !ActsFor(a, u) {
        PairStaysDistinct(env, s, a, t, u);
      } else if t in s.copies && !ActsFor(a, t) {
        PairStaysDistinct(env, s, a, u, t);
      } else {
        BothFresh(env, s, a, t, u);
      }
    }
  }

  lemma BothFresh(env: Env, s: State, a: Action, t: Ticket, u: Ticket)
    requires CopiesOk(env, s) && Enabled(env, s, a)
    requires t in Apply(env, s, a).copies && u in Apply(env, s, a).copies && t != u
    requires (t !in s.copies || ActsFor(a, t)) && (u !in s.copies || ActsFor(a, u))
    ensures t.job != u.job
  {
    if t !in s.copies { NewCopiesClaimed(env, s, a, t); }
    if u !in s.copies { NewCopiesClaimed(env, s, a, u); }
    if a.Poll? {
      PollMakes(env, s, a.w, a.limit, t);
      PollMakes(env, s, a.w, a.limit, u);
    } else if a.SharedPoll? {
      SharedPollMakes(env, s, a.route, a.limit, t);
      SharedPollMakes(env, s, a.route, a.limit, u);
    }
  }

  // -------------------------------------------------------------- all runs

  lemma StepGuarded(env: Env, s: State, a: Action)
    requires Safe(env, s) && Guarded(env, s) && Timely(env, s) && Enabled(env, s, a) && Prompt(env, s, a)
    ensures Guarded(env, Apply(env, s, a))
  {
    StepKeepsOwners(env, s, a);
    StepKeepsOneOwner(env, s, a);
    StepKeepsSweeps(env, s, a);
    StepKeepsRows(env, s, a);
  }

  lemma {:induction false} RunGuarded(env: Env, r: Run, i: nat)
    requires IsRun(env, r) && TimelyRun(env, r) && i < |r.states|
    ensures Safe(env, r.states[i]) && Guarded(env, r.states[i])
  {
    RunSafe(env, r, i);
    if i == 0 {
    } else {
      RunGuarded(env, r, i - 1);
      assert StepAt(env, r, i - 1) && TimelyAt(env, r, i - 1);
      StepGuarded(env, r.states[i - 1], r.actions[i - 1]);
    }
  }

  /** Mutual exclusion over all runs: at most one execution of a job at any time, by an instance that is
      registered and has not crashed. While it lasts the store says Running and names that instance, unless a
      shared instance that cannot decode the payload has parked the job meanwhile. */
  lemma MutualExclusion(env: Env, r: Run, i: nat, t: Ticket)
    requires IsRun(env, r) && TimelyRun(env, r) && i < |r.states|
    requires t in r.states[i].copies && r.states[i].copies[t].phase == Executing
    ensures var s := r.states[i];
            && (forall u :: u in s.copies && u.job == t.job && s.copies[u].phase == Executing ==> u == t)
            && Alive(s, s.copies[t].holder)
            && (NamesHolder(s, t, {Running}) || Undercut(env, s.jobs, t, s.copies[t]))
  {
    var s := r.states[i];
    RunGuarded(env, r, i);
    assert CopyOk(env, s, t, s.copies[t]);
    assert Owns(env, s, t, s.copies[t]);
  }

  /** The row has one of these statuses and the copy's holder as its owner. */
  predicate NamesHolder(s: State, t: Ticket, statuses: set<Status>)
    requires t in s.copies
  {
    t.job in s.jobs && s.jobs[t.job].status in statuses && s.jobs[t.job].lockBy == Some(s.copies[t].holder)
  }

  /** In the polling backend a job has at most one copy in total, and the store names the copy's holder for
      as long as the copy lives, with the same exception. */
  lemma PollingCopyIsSole(env: Env, r: Run, i: nat, t: Ticket)
    requires IsRun(env, r) && TimelyRun(env, r) && i < |r.states|
    requires t in r.states[i].copies && env.kindOf(r.states[i].copies[t].holder).PollingBackend?
    ensures var s := r.states[i];
            && (forall u :: u in s.copies && u.job == t.job && env.kindOf(s.copies[u].holder).PollingBackend?
                  ==> u == t)
            && (forall u :: u in s.copies && u.job == t.job && s.copies[u].phase == Executing ==> u == t)
            && (NamesHolder(s, t, {Queued, Running}) || Undercut(env, s.jobs, t, s.copies[t]))
  {
    RunGuarded(env, r, i);
    assert Owns(env, r.states[i], t, r.states[i].copies[t]);
  }

  /** Under the same hypotheses a polling copy's lock and an execution's ack are refused in one case only, that
      the job was parked under them; where every shared instance of the queue decodes the payload, never. */
  lemma OwnersAreNeverRefused(env: Env, r: Run, i: nat, t: Ticket, outcome: Outcome)
    requires IsRun(env, r) && TimelyRun(env, r) && i < |r.states|
    ensures var s := r.states[i];
            Enabled(env, s, Lock(t)) && env.kindOf(s.copies[t].holder).PollingBackend? ==>
              (t.job in s.jobs && LockGuard(s.jobs[t.job], s.copies[t].holder) <==> !Parked(s.jobs, t.job))
    ensures var s := r.states[i];
            Enabled(env, s, Ack(t, outcome)) ==>
              && AckWorker(env, s.copies[t]).Some?
              && (AckGuard(s.jobs, t.job, AckWorker(env, s.copies[t]).value) <==> !Parked(s.jobs, t.job))
    ensures var s := r.states[i];
            t in s.copies && Exclusive(env, s.copies[t]) && Parked(s.jobs, t.job) ==>
              SharedRejects(env, env.queueOf(s.copies[t].holder), s.copies[t].row.args)
  {
    var s := r.states[i];
    RunGuarded(env, r, i);
    if t in s.copies {
      assert CopyOk(env, s, t, s.copies[t]);
      if Exclusive(env, s.copies[t]) { assert Owns(env, s, t, s.copies[t]); }
    }
  }
}
