/** The upgrade protocol of one task at the granularity of single loads, saves and commands: any
    number of submits, unlocked reconcilers and worker starts interleave, and any process may die. */
module FineProtocol {
  import opened UpgradeTask
  import opened Effects
  import W = WorkerAutomaton
  import S = SubmitAutomaton
  import C = ReconcileAutomaton

  datatype Owner = ByWorker(i: nat) | BySubmit(i: nat) | Foreign

  datatype WorkerProc = WorkerProc(w: W.Worker, log: seq<Event>, alive: bool)
  datatype SubmitProc = SubmitProc(s: S.Submitter, alive: bool)

  /** The shared record, the retained summary, the lock and every process ever started. */
  datatype Sys = Sys(
    rec: Option<Task>,
    archive: Option<Task>,
    clock: Time,
    lock: Option<Owner>,
    workers: seq<WorkerProc>,
    submits: seq<SubmitProc>,
    recons: seq<C.Reconciler>,
    bootstraps: nat)

  datatype Step =
    | Arrive(req: S.Request)
    | Submit(i: nat, reply: Reply)
    | KillSubmit(i: nat)
    | StartWorker(pid: nat)
    | Work(i: nat, reply: Reply)
    | KillWorker(i: nat)
    | StartReconcile
    | Reconcile(i: nat, reply: Reply)
    | ForeignLock
    | ForeignUnlock
    | Tick(d: nat)

  /** What the environment may do beyond the interleaving itself: kill a submit between the save of
      an unknown launch and the save of needs_attention; start the worker again after its one job. */
  datatype Env = Env(submitDiesUnknown: bool, restarts: bool)

  /** The replies the shared state allows. Everything outside it replies freely. */
  predicate Answers(s: Sys, a: Act, r: Reply) {
    && Fits(a, r)
    && (a.TryLock? ==> (r.lock.Acquired? ==> s.lock.None?) && (r.lock.Busy? ==> s.lock.Some?))
    && (a.Load? ==> (r.load.Loaded? ==> s.rec == Some(r.load.task)) && (r.load.Missing? ==> s.rec.None?))
    && (a.Save? ==> r.at == s.clock)
    && (a.ReadClock? ==> r.now == s.clock)
  }

  /** What an action does to the shared state. A save into a removed directory fails. */
  function Effect(s: Sys, a: Act, r: Reply, me: Owner): Sys
    requires Fits(a, r)
  {
    match a
    case TryLock => if r.lock.Acquired? then s.(lock := Some(me)) else s
    case Unlock => s.(lock := None)
    case Save(t) => if s.rec.Some? then s.(rec := Some(Written(t, r.at))) else s
    case Bootstrap => s.(bootstraps := s.bootstraps + 1)
    case AppendIndex(t) => if r.ok then s.(archive := Some(t)) else s
    case RemoveDir => s.(rec := None)
    case _ => s
  }

  predicate MayDie(env: Env, p: SubmitProc) {
    env.submitDiesUnknown || !(p.s.pc.SavingAttention? && p.s.task.launchUnknown)
  }

  predicate Enabled(env: Env, s: Sys, e: Step) {
    match e
    case Arrive(_) => true
    case Submit(i, r) =>
      && i < |s.submits| && s.submits[i].alive && !s.submits[i].s.pc.Exited?
      && Answers(s, S.Action(s.submits[i].s), r)
    case KillSubmit(i) => i < |s.submits| && s.submits[i].alive && MayDie(env, s.submits[i])
    case StartWorker(pid) => env.restarts || |s.workers| < s.bootstraps
    case Work(i, r) =>
      && i < |s.workers| && s.workers[i].alive && !s.workers[i].w.pc.Exited?
      && Answers(s, W.Action(s.workers[i].w), r)
    case KillWorker(i) => i < |s.workers| && s.workers[i].alive
    case StartReconcile => true
    case Reconcile(i, r) =>
      && i < |s.recons| && !s.recons[i].pc.Exited?
      && Answers(s, C.Action(s.recons[i]), r)
    case ForeignLock => s.lock.None?
    case ForeignUnlock => s.lock == Some(Foreign)
    case Tick(_) => true
  }

  function Freed(s: Sys, me: Owner): Sys {
    if s.lock == Some(me) then s.(lock := None) else s
  }

  function SubmitTo(s: Sys, i: nat, r: Reply): Sys
    requires i < |s.submits| && !s.submits[i].s.pc.Exited? && Fits(S.Action(s.submits[i].s), r)
  {
    var p := s.submits[i];
    Effect(s, S.Action(p.s), r, BySubmit(i)).(submits := s.submits[i := p.(s := S.Next(p.s, r))])
  }

  function WorkTo(s: Sys, i: nat, r: Reply): Sys
    requires i < |s.workers| && !s.workers[i].w.pc.Exited? && Fits(W.Action(s.workers[i].w), r)
  {
    var p := s.workers[i];
    var a := W.Action(p.w);
    Effect(s, a, r, ByWorker(i)).(workers := s.workers[i := p.(w := W.Next(p.w, r), log := p.log + [Event(a, r)])])
  }

  function ReconcileTo(s: Sys, i: nat, r: Reply): Sys
    requires i < |s.recons| && !s.recons[i].pc.Exited? && Fits(C.Action(s.recons[i]), r)
  {
    var c := s.recons[i];
    Effect(s, C.Action(c), r, Foreign).(recons := s.recons[i := C.Next(c, r)])
  }

  function Apply(env: Env, prefix: string, s: Sys, e: Step): Sys
    requires Enabled(env, s, e)
  {
    match e
    case Arrive(req) => s.(submits := s.submits + [SubmitProc(S.Arrived(req), true)])
    case Submit(i, r) => SubmitTo(s, i, r)
    case KillSubmit(i) => Freed(s, BySubmit(i)).(submits := s.submits[i := s.submits[i].(alive := false)])
    case StartWorker(pid) => s.(workers := s.workers + [WorkerProc(W.Launched(pid, prefix), [], true)])
    case Work(i, r) => WorkTo(s, i, r)
    case KillWorker(i) => Freed(s, ByWorker(i)).(workers := s.workers[i := s.workers[i].(alive := false)])
    case StartReconcile => s.(recons := s.recons + [C.STARTED])
    case Reconcile(i, r) => ReconcileTo(s, i, r)
    case ForeignLock => s.(lock := Some(Foreign))
    case ForeignUnlock => s.(lock := None)
    case Tick(d) => s.(clock := s.clock + d)
  }

  /** What Prepare leaves behind: a record nobody has acted on yet. */
  predicate Genesis(t: Task) {
    && t.state.Awaiting? && t.accepted.Blank? && t.credential.Sha256? && t.formula.Sha256?
    && t.workerPid == 0 && t.servicePid == 0 && !t.launchUnknown && !t.cleanupPending && !t.cleaned
  }

  function Start(g: Task, now: Time): Sys {
    Sys(Some(g), None, now, None, [], [], [], 0)
  }

  /** A run is a sequence of steps each of which the state before it allows. */
  predicate Possible(env: Env, prefix: string, g: Task, now: Time, run: seq<Step>)
    decreases |run|, 0
  {
    run == [] ||
    (Possible(env, prefix, g, now, run[..|run| - 1]) &&
     Enabled(env, After(env, prefix, g, now, run[..|run| - 1]), run[|run| - 1]))
  }

  function After(env: Env, prefix: string, g: Task, now: Time, run: seq<Step>): Sys
    requires Possible(env, prefix, g, now, run)
    decreases |run|, 1
  {
    if run == [] then Start(g, now)
    else Apply(env, prefix, After(env, prefix, g, now, run[..|run| - 1]), run[|run| - 1])
  }
}
