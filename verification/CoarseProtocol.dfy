/** The whole upgrade protocol over all tasks, with time: Prepare, Submit and the reconciliation of
    one task are single steps, the worker advances one action at a time, any process may die, and
    each bootstrap yields at most one worker start. */
module CoarseProtocol {
  import opened UpgradeTask
  import opened Effects
  import W = WorkerAutomaton
  import S = SubmitAutomaton
  import C = ReconcileAutomaton
  import P = WorkerProcess

  /** The worker that holds the install lock, with the time its pending action is due. */
  datatype Active = Active(id: TaskId, w: W.Worker, due: Time)

  /** One task: its record, whether only the retained summary is left, whether launchd holds a job
      that has not started, what its worker did, and the file work charged to it so far. */
  datatype Slot = Slot(task: Task, archived: bool, job: bool, started: bool, log: seq<Event>, spent: nat)

  datatype Sys = Sys(clock: Time, tasks: map<TaskId, Slot>, running: Option<Active>)

  /** What a new task is made of: the request, the fetched candidate and the fresh randomness. */
  datatype Order = Order(id: TaskId, initiator: string, stable: string, raw: string, body: Bytes,
                         secret: string, port: int)

  function Fresh(o: Order, now: Time): Task {
    FreshTask(o.id, o.initiator, o.stable, o.raw, o.body, o.secret, o.port, now)
  }

  datatype Step =
    | Prepare(order: Order, fetch: nat)
    | Submit(id: TaskId, req: S.Request, launch: S.Launch, boot: nat, files: nat)
    | StartWorker(id: TaskId, pid: nat)
    | Work(reply: Reply, files: nat)
    | KillWorker
    | Reconcile(id: TaskId, alive: bool, gone: bool)
    | Tick(d: nat)

  /** The bounds an environment may keep, one by one: the timeout of the bootstrap and of each command,
      the launch window for a worker to start and report in, and the length of a sleep. */
  datatype Bound =
    | BootTime | LaunchWindow | InstallTime | ListTime | StopTime | StartTime | HealthTime | SleepTime

  /** Which bounds are kept, and how much file work a task may cost beyond its timed actions. */
  datatype Env = Env(kept: set<Bound>, slack: nat)

  function BoundOf(a: Act): Option<Bound> {
    match a
    case RunBrew(Upgrade) => Some(InstallTime)
    case RunBrew(Stop) => Some(StopTime)
    case RunBrew(Start) => Some(StartTime)
    case ListPid => Some(ListTime)
    case GetHealth(_) => Some(HealthTime)
    case Sleep => Some(SleepTime)
    case _ => None
  }

  predicate Reporting(pc: W.Pc) { pc.WritingReady? || pc.SavingReady? }

  /** Whether the pending action of a worker must end when it is due. Clock readings take no time, and
      file work is bounded by the slack. */
  predicate Binds(env: Env, w: W.Worker) {
    if w.pc.Exited? then true
    else if Reporting(w.pc) then LaunchWindow in env.kept
    else BoundOf(W.Action(w)).Some? ==> BoundOf(W.Action(w)).value in env.kept
  }

  predicate Live(s: Sys, id: TaskId) { id in s.tasks && !s.tasks[id].archived }

  predicate Answers(s: Sys, id: TaskId, a: Act, r: Reply) {
    && Fits(a, r)
    && (a.Load? ==> (r.load.Loaded? ==> Live(s, id) && s.tasks[id].task == r.load.task) &&
                    (r.load.Missing? ==> !Live(s, id)))
    && (a.Save? ==> r.at == s.clock)
    && (a.ReadClock? ==> r.now == s.clock)
  }

  /** A live worker that has reported in answers the signal-0 probe; a dead one's PID may be reused. */
  predicate ProbeFits(s: Sys, id: TaskId, alive: bool)
    requires id in s.tasks
  {
    var pid := s.tasks[id].task.workerPid;
    && (alive ==> pid != 0)
    && (s.running.Some? && s.running.value.id == id && pid == s.running.value.w.pid ==> alive)
  }

  predicate Enabled(env: Env, s: Sys, e: Step) {
    match e
    case Prepare(o, _) =>
      && s.running.None?
      && (forall id | id in s.tasks :: !Blocks(s.tasks[id].task, s.clock))
      && o.id !in s.tasks
    case Submit(id, req, launch, boot, files) =>
      && s.running.None? && req.confirm && Live(s, id)
      && s.tasks[id].task.initiator == req.initiator && s.tasks[id].task.state.Awaiting?
      && (BootTime in env.kept ==> boot <= BOOTSTRAP_TIMEOUT)
      && s.tasks[id].spent + files <= env.slack
    case StartWorker(id, pid) =>
      && id in s.tasks && s.tasks[id].job && pid > 0
      && (LaunchWindow in env.kept && s.running.None? && s.tasks[id].task.state.Queued? ==>
            s.clock <= s.tasks[id].task.updatedAt + 2 * BOOTSTRAP_TIMEOUT)
    case Work(r, files) =>
      && s.running.Some? && s.running.value.id in s.tasks
      && var a := s.running.value;
         && !a.w.pc.Exited?
         && Answers(s, a.id, W.Action(a.w), r)
         && s.tasks[a.id].spent + files <= env.slack
    case KillWorker => s.running.Some?
    case Reconcile(id, alive, gone) => Live(s, id) && ProbeFits(s, id, alive)
    case Tick(d) =>
      s.running.Some? && Binds(env, s.running.value.w) ==> s.clock + d <= s.running.value.due
  }

  function Submitted(sl: Slot, e: Step, now: Time): (Slot, Time)
    requires e.Submit?
  {
    var t := sl.task;
    if now > t.expiry then (sl.(task := Written(t.(state := Expired), now)), now)
    else if Sha256(e.req.credential) != t.credential then (sl, now)
    else
      var later := now + e.boot + e.files;
      (sl.(task := S.Left(t, e.req.credential, e.launch, now, later),
      job := S.JobLoaded(e.launch), spent := sl.spent + e.files), later)
  }

  function SubmitTo(s: Sys, e: Step): Sys
    requires e.Submit? && e.id in s.tasks
  {
    var (sl, later) := Submitted(s.tasks[e.id], e, s.clock);
    s.(clock := later, tasks := s.tasks[e.id := sl])
  }

  /** A started job: without the lock it only marks its task, with the lock it loads the record and
      goes on if the task is queued. */
  function Begun(sl: Slot, locked: bool, pid: nat, now: Time): Slot {
    if locked then
      if sl.archived then sl.(job := false)
      else sl.(job := false,
      task := Written(sl.task.(state := NeedsAttention, failureStage := LockStage,
                               errorKind := OutcomeUnknown, phase := NoPhase), now))
    else if sl.archived || !sl.task.state.Queued? then sl.(job := false)
    else sl.(job := false, started := true,
    log := [Event(TryLock, LockR(Acquired)), Event(Load, LoadR(Loaded(sl.task)))])
  }

  function StartTo(prefix: string, s: Sys, id: TaskId, pid: nat): Sys
    requires id in s.tasks
  {
    var sl := s.tasks[id];
    var s1 := s.(tasks := s.tasks[id := Begun(sl, s.running.Some?, pid, s.clock)]);
    if s.running.Some? || sl.archived || !sl.task.state.Queued? then s1
    else
      var w := W.Worker(W.WritingReady, pid, prefix, sl.task.(workerPid := pid), true);
      s1.(running := Some(Active(id, w, sl.task.updatedAt + 2 * BOOTSTRAP_TIMEOUT)))
  }

  /** The latest end of the action pending at w, entered now, with that much file work. Reporting in
      has its own deadline, the launch window. */
  function Due(w: W.Worker, now: Time, due: Time, files: nat): Time {
    if w.pc.Exited? then now
    else if Reporting(w.pc) then due
    else match P.Limit(W.Action(w))
      case Some(limit) => now + limit
      case None => now + files
  }

  /** One worker action on its slot: a save lands unless the directory is gone. */
  function Worked(sl: Slot, a: Act, r: Reply, files: nat): Slot
    requires Fits(a, r)
  {
    var sl' := sl.(log := sl.log + [Event(a, r)], spent := sl.spent + files);
    if a.Save? && !sl.archived then sl'.(task := Written(a.task, r.at)) else sl'
  }

  function WorkTo(s: Sys, r: Reply, files: nat): Sys
    requires s.running.Some? && s.running.value.id in s.tasks && !s.running.value.w.pc.Exited?
    requires Fits(W.Action(s.running.value.w), r)
  {
    var a := s.running.value;
    var w' := W.Next(a.w, r);
    s.(tasks := s.tasks[a.id := Worked(s.tasks[a.id], W.Action(a.w), r, files)],
    running := if w'.pc.Exited? then None else Some(Active(a.id, w', Due(w', s.clock, a.due, files))))
  }

  function ReconciledSlot(sl: Slot, now: Time, alive: bool, gone: bool): Slot {
    match C.Reconciled(sl.task, now, alive)
    case Some(t') => sl.(task := Written(t', now))
    case None =>
      if C.Cleanable(sl.task) && gone
      then sl.(task := sl.task.(cleaned := true, cleanupPending := false), archived := true)
      else sl
  }

  function Apply(env: Env, prefix: string, s: Sys, e: Step): Sys
    requires Enabled(env, s, e)
  {
    match e
    case Prepare(o, fetch) =>
      var now := s.clock + fetch;
      s.(clock := now, tasks := s.tasks[o.id := Slot(Fresh(o, now), false, false, false, [], 0)])
    case Submit(_, _, _, _, _) => SubmitTo(s, e)
    case StartWorker(id, pid) => StartTo(prefix, s, id, pid)
    case Work(r, files) => WorkTo(s, r, files)
    case KillWorker => s.(running := None)
    case Reconcile(id, alive, gone) =>
      s.(tasks := s.tasks[id := ReconciledSlot(s.tasks[id], s.clock, alive, gone)])
    case Tick(d) => s.(clock := s.clock + d)
  }

  function Start(now: Time): Sys {
    Sys(now, map[], None)
  }

  predicate Possible(env: Env, prefix: string, now: Time, run: seq<Step>)
    decreases |run|, 0
  {
    run == [] ||
    (Possible(env, prefix, now, run[..|run| - 1]) &&
     Enabled(env, After(env, prefix, now, run[..|run| - 1]), run[|run| - 1]))
  }

  function After(env: Env, prefix: string, now: Time, run: seq<Step>): Sys
    requires Possible(env, prefix, now, run)
    decreases |run|, 1
  {
    if run == [] then Start(now)
    else Apply(env, prefix, After(env, prefix, now, run[..|run| - 1]), run[|run| - 1])
  }
}
