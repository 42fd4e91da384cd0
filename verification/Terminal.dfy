/** Finished jobs: what counts as finished, and that finishing is final. */
module Terminal {
  import opened Wrappers
  import opened JobTable
  import opened Protocol
  import opened Effects
  import opened Safety
  import opened Exclusion

  predicate Finished(job: Job) {
    job.status in {Done, Killed}
  }

  /** On every state of every run the waiters' query and the vacuum select the same jobs, the Done and the
      Killed ones, and none of those is claimable or in flight. */
  lemma FinishedIsOneNotion(env: Env, r: Run, i: nat, id: JobId)
    requires IsRun(env, r) && i < |r.states| && id in r.states[i].jobs
    ensures var job := r.states[i].jobs[id];
            && (Completed(job) <==> Finished(job)) && (Vacuumable(job) <==> Finished(job))
            && (Finished(job) ==> !Claimable(job) && job.status !in {Queued, Running})
            && (!Finished(job) ==> Claimable(job) || job.status in {Queued, Running})
  {
    RunSafe(env, r, i);
    assert JobOk(env, r.states[i], r.states[i].jobs[id]);
  }

  /** An ordinary error leaves a job to be retried just when it is Failed and claimable again. The
      limit's integer type is one that converts to i64 without loss, so it lies in the range below; there the
      status and the claim agree on every attempt exactly when the limit is not negative. A negative one casts to
      a huge unsigned limit, so its jobs end Failed and stay so. */
  lemma RetryAgreesWithClaim(maxAttempts: int)
    requires -I64_LIMIT <= maxAttempts < I64_LIMIT
    ensures (forall attempt: nat, m: string ::
               CalculateStatus(maxAttempts, attempt, Errored(m)) == Failed <==> attempt < maxAttempts)
            <==> 0 <= maxAttempts
  {
    if maxAttempts < 0 {
      assert CalculateStatus(maxAttempts, 0, Errored("")) == Failed;
    }
  }

  /** The row an ack of attempt n leaves, by what the execution came to. */
  ghost predicate RecordsOutcome(job: Job, n: nat, outcome: Outcome, now: Time) {
    && job.attempts == n && job.doneAt == Some(now)
    && (job.status == Done <==> outcome.Succeeded?)
    && (match outcome
        case Succeeded(v) => job.lastResult == Some(OkValue(v))
        case Errored(m) =>
          && job.lastResult == Some(ErrMessage(m))
          && (if n < job.maxAttempts then job.status == Failed && Claimable(job) else job.status == Killed)
        case Aborted(m) => job.lastResult == Some(ErrMessage(m)) && job.status == Killed)
  }

  /** Every accepted ack of every run records its outcome: Done just when the execution succeeded, with its value; an
      error leaves the job claimable again while attempts remain and Killed after the last; an abort leaves it Killed
      whatever remains. */
  lemma AckRecordsOutcome(env: Env, r: Run, i: nat, t: Ticket, outcome: Outcome)
    requires IsRun(env, r) && i < |r.actions| && r.actions[i] == Ack(t, outcome)
    ensures t in r.states[i].copies
    ensures var s, s' := r.states[i], r.states[i + 1];
            var w := AckWorker(env, s.copies[t]);
            t.job in s.jobs && w.Some? && s.jobs[t.job].lockBy == w ==>
              t.job in s'.jobs && RecordsOutcome(s'.jobs[t.job], s.copies[t].row.attempts + 1, outcome, s.now)
  {
    assert StepAt(env, r, i);
    RunSafe(env, r, i);
    assert CopyOk(env, r.states[i], t, r.states[i].copies[t]);
  }

  /** In every state of every run a finished job's stored result fits its status: a value if Done, a message if
      Failed or Killed. */
  lemma ResultsFitStatus(env: Env, r: Run, i: nat, id: JobId)
    requires IsRun(env, r) && i < |r.states| && id in r.states[i].jobs
    ensures var job := r.states[i].jobs[id];
            && (job.status == Done ==> job.lastResult.Some? && job.lastResult.value.OkValue?)
            && (job.status in {Failed, Killed} ==> job.lastResult.Some? && job.lastResult.value.ErrMessage?)
  {
    RunSafe(env, r, i);
    assert JobOk(env, r.states[i], r.states[i].jobs[id]);
  }

  lemma AckNeverHitsFinished(env: Env, s: State, a: Action, id: JobId)
    requires Safe(env, s) && Guarded(env, s) && Enabled(env, s, a) && a.Ack?
    requires id in s.jobs && Finished(s.jobs[id])
    ensures ChangeOf(env, s, a, id).Unchanged?
  {
  }

  lemma KillNeedsRejection(env: Env, s: State, a: Action, id: JobId)
    requires Safe(env, s) && Guarded(env, s) && Enabled(env, s, a) && a.Kill?
    requires id in s.jobs && Finished(s.jobs[id]) && a.t.job == id
    ensures SharedRejects(env, s.jobs[id].queue, s.jobs[id].args)
  {
    assert CopyOk(env, s, a.t, s.copies[a.t]);
    if env.kindOf(s.copies[a.t].holder).PollingBackend? { assert Owns(env, s, a.t, s.copies[a.t]); }
  }

  /** What a step may do to a finished row: vacuum it, leave it, or park it for a shared instance that cannot
      decode it. */
  ghost predicate StaysFinished(env: Env, s: State, a: Action, s': State, id: JobId)
    requires id in s.jobs
  {
    || (id !in s'.jobs && a.VacuumJobs?)
    || (id in s'.jobs && s'.jobs[id] == s.jobs[id])
    || (&& id in s'.jobs && a.Kill? && SharedRejects(env, s.jobs[id].queue, s.jobs[id].args)
        && Parked(s'.jobs, id) && SameSpec(s.jobs[id], s'.jobs[id]))
  }

  lemma OthersKeepFinished(env: Env, s: State, a: Action, id: JobId)
    requires Safe(env, s) && Enabled(env, s, a) && !a.Ack? && !a.Kill? && id in s.jobs && Finished(s.jobs[id])
    ensures StaysFinished(env, s, a, Apply(env, s, a), id)
  {
    assert JobOk(env, s, s.jobs[id]);
    StepEffect(env, s, a, id);
  }

  lemma StepKeepsFinished(env: Env, s: State, a: Action, id: JobId)
    requires Safe(env, s) && Guarded(env, s) && Enabled(env, s, a)
    requires id in s.jobs && Finished(s.jobs[id])
    ensures StaysFinished(env, s, a, Apply(env, s, a), id)
  {
    if a.Ack? {
      StepEffect(env, s, a, id);
      AckNeverHitsFinished(env, s, a, id);
    } else if a.Kill? {
      StepEffect(env, s, a, id);
      if a.t.job == id { KillNeedsRejection(env, s, a, id); }
    } else {
      OthersKeepFinished(env, s, a, id);
    }
  }

  /** Whatever some instance of the queue decodes, every shared instance of it decodes. */
  ghost predicate CodecsAgreeOn(env: Env, queue: Queue) {
    forall v, w, args ::
      env.kindOf(v).SharedBackend? && env.queueOf(v) == env.queueOf(w) == queue && env.decodes(w, args)
      ==> env.decodes(v, args)
  }

  /** In timely runs a finished row is not written again before a vacuum removes it, except that a shared
      instance that cannot decode the payload may park it. If the codecs of its queue agree, that happens only
      to rows that were parked before: so Done and Killed are final. */
  lemma FinishedIsFinal(env: Env, r: Run, i: nat, id: JobId)
    requires IsRun(env, r) && TimelyRun(env, r) && i < |r.actions|
    requires id in r.states[i].jobs && Finished(r.states[i].jobs[id])
    ensures StaysFinished(env, r.states[i], r.actions[i], r.states[i + 1], id)
    ensures var before, after := r.states[i].jobs, r.states[i + 1].jobs;
            CodecsAgreeOn(env, before[id].queue) && id in after && after[id] != before[id] ==> Parked(before, id)
  {
    var s := r.states[i];
    assert StepAt(env, r, i);
    RunGuarded(env, r, i);
    StepKeepsFinished(env, s, r.actions[i], id);
    assert JobOk(env, s, s.jobs[id]);
  }

  /** So a finished job - a success, an abort, an error on the last attempt - is never claimable, locked or executed
      from a claim again: in a timely run it stays finished for as long as it is stored, and its id never returns. */
  lemma {:induction false} FinishedForever(env: Env, r: Run, i: nat, j: nat, id: JobId)
    requires IsRun(env, r) && TimelyRun(env, r) && i <= j < |r.states|
    requires id in r.states[i].usedIds && (id in r.states[i].jobs ==> Finished(r.states[i].jobs[id]))
    ensures id in r.states[j].usedIds
    ensures id in r.states[j].jobs ==> Finished(r.states[j].jobs[id]) && !Claimable(r.states[j].jobs[id])
    decreases j
  {
    if i == j {
    } else {
      FinishedForever(env, r, i, j - 1, id);
      var s, a := r.states[j - 1], r.actions[j - 1];
      assert StepAt(env, r, j - 1);
      StepGrows(env, s, a);
      if id in r.states[j].jobs {
        StepKeepsSpecs(env, s, a, id);
        FinishedIsFinal(env, r, j - 1, id);
      }
    }
  }
}
