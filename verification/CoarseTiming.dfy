/** The budget arithmetic: a worker that keeps its stage budgets is never marked by a reconciler. */
module CoarseTiming {
  import opened UpgradeTask
  import opened Effects
  import opened CoarseProtocol
  import opened CoarseInvariant
  import W = WorkerAutomaton
  import C = ReconcileAutomaton
  import T = WorkerTrace

  /** What moving states forward needs; the length of a sleep is not among it. */
  const NEEDED: set<Bound> :=
    {BootTime, LaunchWindow, InstallTime, ListTime, StopTime, StartTime, HealthTime}

  /** The most the timed work from creation to the verification deadline can take: confirmation,
      bootstrap, launch window, install, list, stop, start and the verification budget. */
  const TO_DEADLINE: int := (300 + 15 + 30 + 600 + 10 + 90 + 120 + 180) * SECOND

  /** The last poll begins before the deadline, so one unit of time earlier. A worker that succeeds in
      it is at work for a list and a health request more, one that fails for a sleep on top. */
  const LAST_POLL: int := 13 * SECOND - 1
  const LAST_ITERATION: int := 15 * SECOND - 1

  /** File work a task may cost before a worker can outlast the accepted budget and still succeed. */
  const FORWARD_SLACK: int := ACCEPTED_BUDGET - TO_DEADLINE - LAST_POLL

  /** File work a task may cost before a worker can be marked at all. */
  const UNMARKED_SLACK: int := ACCEPTED_BUDGET - TO_DEADLINE - LAST_ITERATION

  /** Every bound is kept and the slack is small enough that no worker at work is ever marked. */
  predicate Strict(env: Env) {
    NEEDED + {SleepTime} <= env.kept && env.slack <= UNMARKED_SLACK
  }

  /** What forward-only states need. */
  predicate Paced(env: Env) {
    NEEDED <= env.kept && env.slack <= FORWARD_SLACK
  }

  /** The timed work between the end of the pending action and the verification deadline. */
  function Ahead(pc: W.Pc): int {
    match pc
    case SavingDownloading => 1000 * SECOND
    case ReadingSnapshot => 1000 * SECOND
    case WritingTap(_) => 1000 * SECOND
    case ReadingTap => 1000 * SECOND
    case SavingInstalling => 1000 * SECOND
    case Upgrading => 400 * SECOND
    case SavingRestarting => 400 * SECOND
    case CapturingPid => 390 * SECOND
    case SavingStop => 390 * SECOND
    case Stopping => 300 * SECOND
    case SavingStart => 300 * SECOND
    case Starting => 180 * SECOND
    case SavingVerifying => 180 * SECOND
    case SettingDeadline => 180 * SECOND
    case _ => 0
  }

  /** How late a reported worker may be at a control point, if the deadline may come as late as limit. */
  predicate OnPace(env: Env, pc: W.Pc, due: Time, limit: Time) {
    match pc
    case CheckingClock(deadline) =>
      deadline <= limit && (SleepTime in env.kept ==> due <= deadline + LAST_ITERATION)
    case PollingPid(deadline) => deadline <= limit && due <= deadline - 1 + 10 * SECOND
    case CheckingHealth(deadline, _) => deadline <= limit && due <= deadline + LAST_POLL
    case Sleeping(deadline) =>
      deadline <= limit && (SleepTime in env.kept ==> due <= deadline + LAST_ITERATION)
    case StampingSuccess => due <= limit + LAST_POLL
    case SavingSucceeded => due <= limit + LAST_POLL
    case _ => due + Ahead(pc) <= limit
  }

  /** A worker that still means to move its task forward. */
  predicate Working(pc: W.Pc) { Unfinished(pc) && !pc.Reloading? && !pc.SavingUnknown? }

  /** The state the record has while a well-timed worker is at a control point. */
  function StateAt(pc: W.Pc): State {
    match pc
    case WritingReady => Queued
    case SavingReady => Queued
    case SavingDownloading => Queued
    case ReadingSnapshot => Downloading
    case WritingTap(_) => Downloading
    case ReadingTap => Downloading
    case SavingInstalling => Downloading
    case Upgrading => Installing
    case SavingRestarting => Installing
    case CapturingPid => Restarting
    case SavingStop => Restarting
    case Stopping => Restarting
    case SavingStart => Restarting
    case Starting => Restarting
    case SavingVerifying => Restarting
    case _ => Verifying
  }

  /** A failing stage keeps the state the worker was in. */
  predicate StateFits(pc: W.Pc, st: State) {
    if pc.SavingFailed? then st.Downloading? || st.Installing? else st == StateAt(pc)
  }

  /** A task on its own: its window, and when it was queued while no worker has reported. */
  predicate SlotTimed(env: Env, sl: Slot) {
    && sl.spent <= env.slack
    && (sl.task.state.Awaiting? ==> sl.task.expiry == sl.task.createdAt + CONFIRM_TTL)
    && (!sl.started ==> sl.task.workerPid == 0)
    && (sl.task.state.Queued? && sl.task.workerPid == 0 ==>
          sl.task.updatedAt <= sl.task.createdAt + CONFIRM_TTL + BOOTSTRAP_TIMEOUT + sl.spent)
  }

  /** A worker between two polls that can only find its time is up. */
  predicate TimeIsUp(pc: W.Pc, now: Time) {
    match pc
    case CheckingClock(deadline) => now >= deadline
    case Sleeping(deadline) => now >= deadline
    case _ => false
  }

  /** The record is where the worker left it, or was marked when nothing but giving up was left. */
  predicate StateTimed(env: Env, pc: W.Pc, st: State, now: Time) {
    StateFits(pc, st) || (!Strict(env) && st.NeedsAttention? && TimeIsUp(pc, now))
  }

  /** The running worker: inside the launch window until it reports, on pace after that. */
  predicate RunTimed(env: Env, a: Active, sl: Slot, now: Time) {
    && (Binds(env, a.w) ==> now <= a.due)
    && (Working(a.w.pc) ==>
          && StateTimed(env, a.w.pc, sl.task.state, now)
          && a.w.task.createdAt == sl.task.createdAt && a.w.task.workerPid == a.w.pid)
    && (Reporting(a.w.pc) ==> sl.task.workerPid == 0 && a.due == sl.task.updatedAt + 2 * BOOTSTRAP_TIMEOUT)
    && (Working(a.w.pc) && !Reporting(a.w.pc) ==>
          && sl.task.workerPid == a.w.pid
          && OnPace(env, a.w.pc, a.due, sl.task.createdAt + TO_DEADLINE + sl.spent))
  }

  ghost predicate Timed(env: Env, s: Sys) {
    && (forall id | id in s.tasks :: SlotTimed(env, s.tasks[id]))
    && (s.running.Some? ==> s.running.value.id in s.tasks &&
                            RunTimed(env, s.running.value, s.tasks[s.running.value.id], s.clock))
  }

  /** Only a worker between two polls can be past the accepted budget, and then past its deadline. */
  lemma InBudget(env: Env, a: Active, sl: Slot, now: Time)
    requires Paced(env) && SlotTimed(env, sl) && RunTimed(env, a, sl, now)
    requires Working(a.w.pc) && !Reporting(a.w.pc)
    ensures now - sl.task.createdAt > ACCEPTED_BUDGET ==> !Strict(env) && TimeIsUp(a.w.pc, now)
  {
  }

  /** A pass over the task of a working worker leaves its state alone, at most clearing the
      unknown-launch flag, unless the worker's time is up and the environment is not strict. */
  lemma NeverMarked(env: Env, prefix: string, s: Sys, alive: bool)
    requires Paced(env) && Records(prefix, s) && Timed(env, s) && s.running.Some? && Working(s.running.value.w.pc)
    requires ProbeFits(s, s.running.value.id, alive)
    ensures var t := s.tasks[s.running.value.id].task;
            var r := C.Reconciled(t, s.clock, alive);
            || r.None?
            || (r.value == t.(launchUnknown := false) && t.workerPid == s.running.value.w.pid)
            || (!Strict(env) && TimeIsUp(s.running.value.w.pc, s.clock) &&
                r.value == t.(state := NeedsAttention, phase := r.value.phase, errorKind := r.value.errorKind))
  {
    var a := s.running.value;
    var sl := s.tasks[a.id];
    assert SlotTimed(env, sl) && RunTimed(env, a, sl, s.clock);
    if !Reporting(a.w.pc) {
      InBudget(env, a, sl, s.clock);
    }
  }

  // ----- every paced step keeps it

  /** The step that reports in: the launch window and the earlier budgets add up to what is left. */
  lemma ReportStep(env: Env, a: Active, sl: Slot, now: Time, r: Reply, files: nat)
    requires Paced(env) && a.w.pc.SavingReady? && sl.task.state.Queued? && !sl.archived && sl.started && a.w.pid > 0
    requires SlotTimed(env, sl) && RunTimed(env, a, sl, now) && r == SavedR(now) && sl.spent + files <= env.slack
    requires a.w.task.state.Queued?
    ensures var w' := W.Next(a.w, r);
            var sl' := Worked(sl, W.Action(a.w), r, files);
            RunTimed(env, Active(a.id, w', Due(w', now, a.due, files)), sl', now) && SlotTimed(env, sl')
  {
  }

  /** A working worker keeps its copy's identity, and saves a state past queued once it has reported. */
  lemma CopyFacts(w: W.Worker, r: Reply)
    requires Working(w.pc) && Fits(W.Action(w), r) && T.StateInv(w)
    ensures var w' := W.Next(w, r);
            && w'.pid == w.pid
            && (Working(w'.pc) ==> w'.task.createdAt == w.task.createdAt && w'.task.workerPid == w.task.workerPid)
            && (W.Action(w).Save? ==>
                  && W.Action(w).task.createdAt == w.task.createdAt
                  && W.Action(w).task.workerPid == w.task.workerPid
                  && (W.Action(w).task.state.Queued? ==> w.pc.SavingReady?) && !W.Action(w).task.state.Awaiting?)
            && (Reporting(w'.pc) ==> w.pc.WritingReady?)
  {
    if W.Action(w).Save? {
      SavedCopy(w);
      SaveFacts(w, r);
    }
  }

  lemma SavedCopy(w: W.Worker)
    requires Working(w.pc) && W.Action(w).Save? && T.StateInv(w)
    ensures var t := W.Action(w).task;
            && t.createdAt == w.task.createdAt && t.workerPid == w.task.workerPid
            && (t.state.Queued? ==> w.pc.SavingReady?) && !t.state.Awaiting?
  {
  }

  lemma SaveStates(w: W.Worker, r: Reply)
    requires Working(w.pc) && Fits(W.Action(w), r) && T.StateInv(w) && W.Action(w).Save?
    ensures Working(W.Next(w, r).pc) ==> StateFits(W.Next(w, r).pc, W.Action(w).task.state)
  {
  }

  lemma QuietStates(w: W.Worker, r: Reply, st: State)
    requires Working(w.pc) && Fits(W.Action(w), r) && !W.Action(w).Save?
    requires StateFits(w.pc, st) && Working(W.Next(w, r).pc)
    ensures StateFits(W.Next(w, r).pc, st)
  {
    if Polls(w.pc) {
      QuietPolls(w, r, st);
    } else {
      QuietStages(w, r, st);
    }
  }

  lemma QuietPolls(w: W.Worker, r: Reply, st: State)
    requires Polls(w.pc) && Fits(W.Action(w), r) && StateFits(w.pc, st) && Working(W.Next(w, r).pc)
    ensures StateFits(W.Next(w, r).pc, st)
  {
  }

  lemma QuietStages(w: W.Worker, r: Reply, st: State)
    requires Working(w.pc) && !Polls(w.pc) && Fits(W.Action(w), r) && !W.Action(w).Save?
    requires StateFits(w.pc, st) && Working(W.Next(w, r).pc)
    ensures StateFits(W.Next(w, r).pc, st)
  {
  }

  /** A step inside the verify loop. */
  predicate Polls(pc: W.Pc) {
    pc.CheckingClock? || pc.PollingPid? || pc.CheckingHealth? || pc.Sleeping? || pc.StampingSuccess?
  }

  lemma PaceStages(env: Env, w: W.Worker, r: Reply, now: Time, due: Time, files: nat, limit: Time)
    requires Paced(env) && Working(w.pc) && !Reporting(w.pc) && !Polls(w.pc) && Fits(W.Action(w), r)
    requires W.Action(w).ReadClock? ==> r.now == now
    requires now <= due && OnPace(env, w.pc, due, limit) && Working(W.Next(w, r).pc)
    ensures var w' := W.Next(w, r);
            var due' := Due(w', now, due, files);
            now <= due' && OnPace(env, w'.pc, due', limit + files)
  {
    if W.Action(w).Save? {
      PaceSaves(env, w, r, now, due, files, limit);
    }
  }

  lemma PaceSaves(env: Env, w: W.Worker, r: Reply, now: Time, due: Time, files: nat, limit: Time)
    requires Paced(env) && Working(w.pc) && !Reporting(w.pc) && W.Action(w).Save? && r.SavedR?
    requires now <= due && OnPace(env, w.pc, due, limit) && Working(W.Next(w, r).pc)
    ensures var w' := W.Next(w, r);
            var due' := Due(w', now, due, files);
            now <= due' && OnPace(env, w'.pc, due', limit + files)
  {
  }

  lemma PacePolls(env: Env, w: W.Worker, r: Reply, now: Time, due: Time, files: nat, limit: Time)
    requires Paced(env) && Polls(w.pc) && Fits(W.Action(w), r)
    requires W.Action(w).ReadClock? ==> r.now == now
    requires (Binds(env, w) ==> now <= due) && OnPace(env, w.pc, due, limit) && Working(W.Next(w, r).pc)
    ensures var w' := W.Next(w, r);
            var due' := Due(w', now, due, files);
            (Binds(env, w') ==> now <= due') && OnPace(env, w'.pc, due', limit + files)
  {
  }

  lemma PaceStep(env: Env, w: W.Worker, r: Reply, now: Time, due: Time, files: nat, limit: Time)
    requires Paced(env) && Working(w.pc) && !Reporting(w.pc) && Fits(W.Action(w), r)
    requires W.Action(w).ReadClock? ==> r.now == now
    requires (Binds(env, w) ==> now <= due) && OnPace(env, w.pc, due, limit) && Working(W.Next(w, r).pc)
    ensures var w' := W.Next(w, r);
            var due' := Due(w', now, due, files);
            (Binds(env, w') ==> now <= due') && OnPace(env, w'.pc, due', limit + files)
  {
    if Polls(w.pc) {
      PacePolls(env, w, r, now, due, files, limit);
    } else {
      PaceStages(env, w, r, now, due, files, limit);
    }
  }

  /** A worker whose time is up goes on to give up. */
  lemma TimeStaysUp(w: W.Worker, r: Reply, now: Time)
    requires Working(w.pc) && TimeIsUp(w.pc, now) && Fits(W.Action(w), r)
    requires W.Action(w).ReadClock? ==> r.now == now
    ensures !W.Action(w).Save? && (Working(W.Next(w, r).pc) ==> TimeIsUp(W.Next(w, r).pc, now))
  {
  }

  lemma EndStep(env: Env, w: W.Worker, r: Reply, now: Time, due: Time, files: nat)
    requires !w.pc.Exited? && !w.pc.Locking? && !w.pc.Loading? && Fits(W.Action(w), r)
    requires !W.Next(w, r).pc.Exited? && !Working(W.Next(w, r).pc)
    ensures now <= Due(W.Next(w, r), now, due, files)
  {
  }

  lemma EndsNeverWork(w: W.Worker, r: Reply)
    requires !Working(w.pc) && !w.pc.Exited? && !w.pc.Locking? && !w.pc.Loading? && Fits(W.Action(w), r)
    ensures !Working(W.Next(w, r).pc) && !Reporting(W.Next(w, r).pc)
    ensures W.Action(w).Save? ==> W.Action(w).task.state.NeedsAttention?
  {
  }

  ghost predicate WorkEnabled(env: Env, prefix: string, s: Sys, r: Reply, files: nat) {
    && Paced(env) && Records(prefix, s) && Timed(env, s) && s.running.Some?
    && s.running.value.id in s.tasks && !s.running.value.w.pc.Exited?
    && Answers(s, s.running.value.id, W.Action(s.running.value.w), r)
    && s.tasks[s.running.value.id].spent + files <= env.slack
  }

  /** The state of the record after a worker's step fits where the worker is then. */
  lemma WorkStates(env: Env, w: W.Worker, r: Reply, st: State, now: Time)
    requires Working(w.pc) && Fits(W.Action(w), r) && T.StateInv(w) && StateTimed(env, w.pc, st, now)
    requires W.Action(w).ReadClock? ==> r.now == now
    ensures Working(W.Next(w, r).pc) ==>
              StateTimed(env, W.Next(w, r).pc, if W.Action(w).Save? then W.Action(w).task.state else st, now)
  {
    if !StateFits(w.pc, st) {
      TimeStaysUp(w, r, now);
    } else if W.Action(w).Save? {
      SaveStates(w, r);
    } else if Working(W.Next(w, r).pc) {
      QuietStates(w, r, st);
    }
  }

  lemma WorkRunTimed(env: Env, prefix: string, s: Sys, r: Reply, files: nat)
    requires WorkEnabled(env, prefix, s, r, files)
    ensures var (a, w') := (s.running.value, W.Next(s.running.value.w, r));
            !w'.pc.Exited? ==>
              RunTimed(env, Active(a.id, w', Due(w', s.clock, a.due, files)),
                       Worked(s.tasks[a.id], W.Action(a.w), r, files), s.clock)
  {
    var (a, w') := (s.running.value, W.Next(s.running.value.w, r));
    var sl := s.tasks[a.id];
    assert RunningOk(prefix, a, sl) && RunTimed(env, a, sl, s.clock) && SlotTimed(env, sl);
    T.RunState(a.w.pid, prefix, sl.log);
    if w'.pc.Exited? {
    } else if !Working(a.w.pc) {
      EndsNeverWork(a.w, r);
      EndStep(env, a.w, r, s.clock, a.due, files);
    } else if a.w.pc.SavingReady? {
      ReportStep(env, a, sl, s.clock, r, files);
    } else if !Working(w'.pc) {
      CopyFacts(a.w, r);
      EndStep(env, a.w, r, s.clock, a.due, files);
    } else {
      CopyFacts(a.w, r);
      WorkStates(env, a.w, r, sl.task.state, s.clock);
      if !Reporting(a.w.pc) {
        PaceStep(env, a.w, r, s.clock, a.due, files, sl.task.createdAt + TO_DEADLINE + sl.spent);
      }
    }
  }

  lemma WorkSlotTimed(env: Env, prefix: string, s: Sys, r: Reply, files: nat)
    requires WorkEnabled(env, prefix, s, r, files)
    ensures SlotTimed(env, Worked(s.tasks[s.running.value.id], W.Action(s.running.value.w), r, files))
  {
    var a := s.running.value;
    var sl := s.tasks[a.id];
    assert RunningOk(prefix, a, sl) && RunTimed(env, a, sl, s.clock) && SlotTimed(env, sl);
    T.RunState(a.w.pid, prefix, sl.log);
    if Working(a.w.pc) {
      CopyFacts(a.w, r);
    } else {
      EndsNeverWork(a.w, r);
    }
  }

  lemma ReconciledTimed(env: Env, prefix: string, id: TaskId, sl: Slot, now: Time, alive: bool, gone: bool)
    requires SlotTimed(env, sl) && SlotOk(prefix, id, sl) && (alive ==> sl.task.workerPid != 0)
    ensures SlotTimed(env, ReconciledSlot(sl, now, alive, gone))
  {
  }

  lemma ReconciledRunTimed(env: Env, prefix: string, s: Sys, alive: bool, gone: bool)
    requires Paced(env) && Records(prefix, s) && Timed(env, s) && s.running.Some?
    requires ProbeFits(s, s.running.value.id, alive)
    ensures var a := s.running.value;
            RunTimed(env, a, ReconciledSlot(s.tasks[a.id], s.clock, alive, gone), s.clock)
  {
    var a := s.running.value;
    if Working(a.w.pc) {
      NeverMarked(env, prefix, s, alive);
    }
  }

  lemma ReconcileTimed(env: Env, prefix: string, s: Sys, e: Step)
    requires Paced(env) && Records(prefix, s) && Timed(env, s) && e.Reconcile? && Enabled(env, s, e)
    ensures Timed(env, Apply(env, prefix, s, e))
  {
    ReconciledTimed(env, prefix, e.id, s.tasks[e.id], s.clock, e.alive, e.gone);
    if s.running.Some? && s.running.value.id == e.id {
      ReconciledRunTimed(env, prefix, s, e.alive, e.gone);
    }
  }

  lemma StartTimed(env: Env, prefix: string, s: Sys, e: Step)
    requires Paced(env) && Records(prefix, s) && Timed(env, s) && e.StartWorker? && Enabled(env, s, e)
    ensures Timed(env, Apply(env, prefix, s, e))
  {
    var sl := s.tasks[e.id];
    assert SlotTimed(env, sl) && SlotOk(prefix, e.id, sl);
    if s.running.Some? {
      assert RunningOk(prefix, s.running.value, s.tasks[s.running.value.id]);
      assert s.running.value.id != e.id;
    }
  }

  lemma SubmitTimed(env: Env, prefix: string, s: Sys, e: Step)
    requires Records(prefix, s) && Timed(env, s) && e.Submit? && s.running.None?
    requires e.id in s.tasks && s.tasks[e.id].task.state.Awaiting?
    requires e.boot <= BOOTSTRAP_TIMEOUT && s.tasks[e.id].spent + e.files <= env.slack
    ensures Timed(env, SubmitTo(s, e))
  {
    assert SlotTimed(env, s.tasks[e.id]) && SlotOk(prefix, e.id, s.tasks[e.id]);
  }

  lemma WorkTimed(env: Env, prefix: string, s: Sys, r: Reply, files: nat)
    requires WorkEnabled(env, prefix, s, r, files)
    ensures Timed(env, WorkTo(s, r, files))
  {
    WorkRunTimed(env, prefix, s, r, files);
    WorkSlotTimed(env, prefix, s, r, files);
  }

  lemma TickTimed(env: Env, prefix: string, s: Sys, d: nat)
    requires Timed(env, s) && Enabled(env, s, Tick(d))
    ensures Timed(env, s.(clock := s.clock + d))
  {
    if s.running.Some? {
      assert RunTimed(env, s.running.value, s.tasks[s.running.value.id], s.clock);
    }
  }

  lemma TimedStep(env: Env, prefix: string, s: Sys, e: Step)
    requires Paced(env) && Records(prefix, s) && Timed(env, s) && Enabled(env, s, e)
    ensures Timed(env, Apply(env, prefix, s, e))
  {
    match e {
      case Submit(_, _, _, _, _) => SubmitTimed(env, prefix, s, e);
      case StartWorker(_, _) => StartTimed(env, prefix, s, e);
      case Work(r, files) => WorkTimed(env, prefix, s, r, files);
      case Reconcile(_, _, _) => ReconcileTimed(env, prefix, s, e);
      case Tick(d) => TickTimed(env, prefix, s, d);
      case _ =>
    }
  }

  // ----- forward only

  predicate Advances(a: State, b: State) { a == b || Rank(a) < Rank(b) }

  ghost predicate Forward(s: Sys, s': Sys) {
    forall id | id in s.tasks :: id in s'.tasks && Advances(s.tasks[id].task.state, s'.tasks[id].task.state)
  }

  lemma SavesUnfinished(w: W.Worker)
    requires !w.pc.Exited? && W.Action(w).Save?
    ensures Unfinished(w.pc)
  {
  }

  /** A save of a worker whose record was not touched moves the state forward. */
  lemma SaveRanks(w: W.Worker, st: State)
    requires Unfinished(w.pc) && W.Action(w).Save? && T.StateInv(w)
    requires Open(st) && (Working(w.pc) ==> StateFits(w.pc, st))
    ensures Advances(st, W.Action(w).task.state)
  {
  }

  lemma WorkAdvances(env: Env, prefix: string, a: Active, sl: Slot, now: Time, r: Reply, files: nat)
    requires RunningOk(prefix, a, sl) && RunTimed(env, a, sl, now) && Fits(W.Action(a.w), r)
    ensures Advances(sl.task.state, Worked(sl, W.Action(a.w), r, files).task.state)
  {
    if W.Action(a.w).Save? {
      T.RunState(a.w.pid, prefix, sl.log);
      SavesUnfinished(a.w);
      SaveRanks(a.w, sl.task.state);
    }
  }

  lemma StartAdvances(prefix: string, id: TaskId, sl: Slot, locked: bool, pid: nat, now: Time)
    requires SlotOk(prefix, id, sl) && sl.job
    ensures Advances(sl.task.state, Begun(sl, locked, pid, now).task.state)
  {
  }

  lemma PassAdvances(sl: Slot, now: Time, alive: bool, gone: bool)
    ensures Advances(sl.task.state, ReconciledSlot(sl, now, alive, gone).task.state)
  {
    C.PassForward(sl.task, now, alive, gone);
  }

  lemma SubmitAdvances(sl: Slot, e: Step, now: Time)
    requires e.Submit? && sl.task.state.Awaiting?
    ensures Advances(sl.task.state, Submitted(sl, e, now).0.task.state)
  {
  }

  lemma ForwardStep(env: Env, prefix: string, s: Sys, e: Step)
    requires Paced(env) && Records(prefix, s) && Timed(env, s) && Enabled(env, s, e)
    ensures Forward(s, Apply(env, prefix, s, e))
  {
    match e {
      case Work(r, files) =>
        var a := s.running.value;
        WorkAdvances(env, prefix, a, s.tasks[a.id], s.clock, r, files);
      case StartWorker(id, pid) => StartAdvances(prefix, id, s.tasks[id], s.running.Some?, pid, s.clock);
      case Reconcile(id, alive, gone) => PassAdvances(s.tasks[id], s.clock, alive, gone);
      case Submit(id, _, _, _, _) => SubmitAdvances(s.tasks[id], e, s.clock);
      case _ =>
    }
  }
}
