/** The protocol: any number of worker instances acting on one store, as a state machine.
    Every transaction or single statement is one atomic action; the orphan sweep is three. */
module Protocol {
  import opened Wrappers
  import opened JobTable

  /** A polling backend (also the live-query one) or a backend made by the shared storage. */
  datatype Kind = PollingBackend | SharedBackend

  /** What is fixed for a whole run: each instance's configuration, the smallest liveness window used
      on each queue, and which payloads each instance's codec can decode. */
  datatype Env = Env(
    queueOf: Instance -> Queue,
    kindOf: Instance -> Kind,
    window: Queue -> nat,
    decodes: (Instance, Bytes) -> bool)

  /** Waiting: claimed, not locked. Executing: locked, not acked. LockFailed: the lock call returned an
      error, which the polling backend's outer ack layer goes on to record as a failed attempt. */
  datatype Phase = Waiting | Executing | LockFailed

  /** The n-th claim's copy of one job. */
  datatype Ticket = Ticket(claim: nat, job: JobId)

  /** A client-side copy of a claimed task: the row as the claim returned it. */
  datatype Copy = Copy(holder: Instance, row: Job, phase: Phase)

  /** A sweep whose live set has been read; `reset` once its UPDATE has run. */
  datatype Sweep = Sweep(queue: Queue, window: nat, live: set<Instance>, readAt: Time, reset: bool)

  datatype State = State(
    now: Time,
    jobs: Table,
    workers: Workers,
    usedIds: set<JobId>,
    registeredAt: map<Instance, Time>,
    crashed: set<Instance>,
    claims: nat,
    copies: map<Ticket, Copy>,
    sweeps: map<nat, Sweep>)

  datatype Outcome = Succeeded(value: string) | Errored(message: string) | Aborted(message: string)

  datatype Action =
    | Push(rows: seq<PushRow>)
    | Poll(w: Instance, limit: nat)
    | SharedPoll(route: map<Queue, Instance>, limit: nat)
    | Lock(t: Ticket)
    | LockError(t: Ticket, committed: bool)
    | Ack(t: Ticket, outcome: Outcome)
    | Kill(t: Ticket, reason: string)
    | Lose(t: Ticket)
    | Register(w: Instance, name: string)
    | Heartbeat(w: Instance)
    | Crash(w: Instance)
    | SweepRead(k: nat, queue: Queue, window: nat)
    | SweepReset(k: nat)
    | SweepPrune(k: nat)
    | VacuumJobs
    | Tick(to: Time)

  const INITIAL := State(0, map[], map[], {}, map[], {}, 0, map[], map[])

  // ------------------------------------------------------------ ack outcome

  /** `max_attempts as usize` on a 64-bit target. */
  function AsUsize(n: int): int { if n >= 0 then n else n + 0x1_0000_0000_0000_0000 }

  function CalculateStatus(maxAttempts: int, attempt: nat, outcome: Outcome): Status {
    match outcome
    case Succeeded(_) => Done
    case Errored(_) => if AsUsize(maxAttempts) <= attempt then Killed else Failed
    case Aborted(_) => Killed
  }

  function ResultOf(outcome: Outcome): TaskResult {
    match outcome
    case Succeeded(v) => OkValue(v)
    case Errored(m) => ErrMessage(m)
    case Aborted(m) => ErrMessage(m)
  }

  /** Whose lock the ack names: the claim's in the polling backend, the lock layer's in the shared one. */
  function AckWorker(env: Env, c: Copy): Option<Instance> {
    if env.kindOf(c.holder).PollingBackend? then c.row.lockBy else Some(c.holder)
  }

  function AckCopy(env: Env, jobs: Table, id: JobId, c: Copy, outcome: Outcome, now: Time): Table {
    var attempt := c.row.attempts + 1;
    match AckWorker(env, c)
    case None => jobs
    case Some(w) =>
      AckTask(jobs, id, w, CalculateStatus(c.row.maxAttempts, attempt, outcome), attempt, ResultOf(outcome), now)
  }

  // ---------------------------------------------------------------- actions

  predicate Alive(s: State, w: Instance) {
    w in s.registeredAt && w !in s.crashed
  }

  /** The shared driver is polled only from the stream of a shared instance, after it registered. */
  ghost predicate Driven(env: Env, s: State) {
    exists u :: Alive(s, u) && env.kindOf(u).SharedBackend?
  }

  /** A row that no instance of its queue decodes, as when the row itself does not parse. */
  ghost predicate Broken(env: Env, c: Copy) {
    forall w :: env.queueOf(w) == env.queueOf(c.holder) ==> !env.decodes(w, c.row.args)
  }

  /** An instance parks what comes out of its own stream, after it registered; a broken row is parked by whoever
      claimed it, which for a shared claim is the driver. */
  ghost predicate CanKill(env: Env, s: State, t: Ticket) {
    && t in s.copies && s.copies[t].phase == Waiting
    && !env.decodes(s.copies[t].holder, s.copies[t].row.args)
    && (Alive(s, s.copies[t].holder) || (Broken(env, s.copies[t]) && Driven(env, s)))
  }

  ghost predicate Enabled(env: Env, s: State, a: Action) {
    match a
    case Push(rows) => forall i :: 0 <= i < |rows| ==> rows[i].id !in s.usedIds && rows[i].maxAttempts >= 0
    case Poll(w, _) => Alive(s, w)
    case SharedPoll(route, _) =>
      Driven(env, s) && forall q :: q in route ==> env.queueOf(route[q]) == q && env.kindOf(route[q]).SharedBackend?
    case Lock(t) => CanLock(env, s, t)
    case LockError(t, _) => CanLock(env, s, t)
    case Ack(t, outcome) => t in s.copies
        && (s.copies[t].phase == Executing || (s.copies[t].phase == LockFailed && outcome.Errored?))
    case Kill(t, _) => CanKill(env, s, t)
    case Lose(t) => t in s.copies
    case Register(w, _) => w !in s.crashed
    case Heartbeat(w) => w !in s.crashed
    case Crash(w) => true
    case SweepRead(k, _, _) => k !in s.sweeps
    case SweepReset(k) => k in s.sweeps && !s.sweeps[k].reset
    case SweepPrune(k) => k in s.sweeps && s.sweeps[k].reset
    case VacuumJobs => true
    case Tick(to) => s.now <= to
  }

  /** Only a registered, running instance that could decode the payload goes on to lock it. */
  predicate CanLock(env: Env, s: State, t: Ticket) {
    && t in s.copies && s.copies[t].phase == Waiting
    && Alive(s, s.copies[t].holder)
    && env.decodes(s.copies[t].holder, s.copies[t].row.args)
  }

  /** The copies one claim hands out. */
  function NewCopies(n: nat, ids: seq<JobId>, jobs: Table, holders: map<JobId, Instance>): map<Ticket, Copy> {
    map id | id in ids && id in jobs && id in holders :: Ticket(n, id) := Copy(holders[id], jobs[id], Waiting)
  }

  function AfterPoll(env: Env, s: State, w: Instance, limit: nat): State {
    var queues := {env.queueOf(w)};
    var ids := Batch(s.jobs, queues, limit, s.now);
    var jobs := ClaimIds(s.jobs, ids, Some(w), s.now);
    s.(jobs := jobs, claims := s.claims + 1,
       copies := s.copies + NewCopies(s.claims, ids, jobs, map id | id in ids :: w))
  }

  function AfterSharedPoll(env: Env, s: State, route: map<Queue, Instance>, limit: nat): State {
    var ids := Batch(s.jobs, route.Keys, limit, s.now);
    var jobs := ClaimIds(s.jobs, ids, None, s.now);
    s.(jobs := jobs, claims := s.claims + 1,
       copies := s.copies + NewCopies(s.claims, ids, jobs, map id | id in ids :: route[s.jobs[id].queue]))
  }

  /** A failed lock call drops the copy in the shared backend; the polling backend still acks it. */
  function AfterLockFailure(env: Env, s: State, t: Ticket): map<Ticket, Copy>
    requires t in s.copies
  {
    if env.kindOf(s.copies[t].holder).PollingBackend?
    then s.copies[t := s.copies[t].(phase := LockFailed)]
    else s.copies - {t}
  }

  function AfterLock(env: Env, s: State, t: Ticket): State
    requires t in s.copies
  {
    var w := s.copies[t].holder;
    if t.job in s.jobs && LockGuard(s.jobs[t.job], w)
    then s.(jobs := LockTask(s.jobs, t.job, w, s.now), copies := s.copies[t := s.copies[t].(phase := Executing)])
    else s.(copies := AfterLockFailure(env, s, t))
  }

  function AfterHeartbeat(s: State, w: Instance): State {
    if w in s.workers then s.(workers := s.workers[w := s.workers[w].(lastSeen := s.now)]) else s
  }

  function AfterRegister(env: Env, s: State, w: Instance, name: string): State {
    s.(workers := s.workers[w := WorkerRow(name, env.queueOf(w), w, s.now, s.now)],
       registeredAt := if w in s.registeredAt then s.registeredAt else s.registeredAt[w := s.now])
  }

  function Apply(env: Env, s: State, a: Action): State
    requires Enabled(env, s, a)
  {
    match a
    case Push(rows) => s.(jobs := PushTasks(s.jobs, rows), usedIds := s.usedIds + set i | 0 <= i < |rows| :: rows[i].id)
    case Poll(w, limit) => AfterPoll(env, s, w, limit)
    case SharedPoll(route, limit) => AfterSharedPoll(env, s, route, limit)
    case Lock(t) => AfterLock(env, s, t)
    case LockError(t, committed) =>
      s.(jobs := if committed then LockTask(s.jobs, t.job, s.copies[t].holder, s.now) else s.jobs,
         copies := AfterLockFailure(env, s, t))
    case Ack(t, outcome) =>
      s.(jobs := AckCopy(env, s.jobs, t.job, s.copies[t], outcome, s.now), copies := s.copies - {t})
    case Kill(t, reason) => s.(jobs := KillTask(s.jobs, t.job, reason, s.now), copies := s.copies - {t})
    case Lose(t) => s.(copies := s.copies - {t})
    case Register(w, name) => AfterRegister(env, s, w, name)
    case Heartbeat(w) => AfterHeartbeat(s, w)
    case Crash(w) =>
      s.(crashed := s.crashed + {w}, copies := map t | t in s.copies && s.copies[t].holder != w :: s.copies[t])
    case SweepRead(k, q, window) =>
      s.(sweeps := s.sweeps[k := Sweep(q, window, LiveSet(s.workers, q, window, s.now), s.now, false)])
    case SweepReset(k) =>
      var sw := s.sweeps[k];
      s.(jobs := ResetStranded(s.jobs, sw.queue, sw.live, sw.window, s.now),
         sweeps := s.sweeps[k := sw.(reset := true)])
    case SweepPrune(k) =>
      var sw := s.sweeps[k];
      s.(workers := PruneWorkers(s.workers, sw.queue, sw.window, s.now), sweeps := s.sweeps - {k})
    case VacuumJobs => s.(jobs := Vacuum(s.jobs))
    case Tick(to) => s.(now := to)
  }

  // ------------------------------------------------------------------- runs

  /** A run from the empty store: the actions taken and every state passed through. */
  datatype Run = Run(states: seq<State>, actions: seq<Action>)

  ghost predicate StepAt(env: Env, r: Run, i: nat)
    requires i < |r.actions| && i + 1 < |r.states|
  {
    Enabled(env, r.states[i], r.actions[i]) && r.states[i + 1] == Apply(env, r.states[i], r.actions[i])
  }

  ghost predicate IsRun(env: Env, r: Run) {
    && |r.states| == |r.actions| + 1
    && r.states[0] == INITIAL
    && forall i :: 0 <= i < |r.actions| ==> StepAt(env, r, i)
  }
}
