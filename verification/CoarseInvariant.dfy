/** What every reachable state of the whole protocol satisfies. */
module CoarseInvariant {
  import opened UpgradeTask
  import opened Effects
  import opened CoarseProtocol
  import W = WorkerAutomaton
  import T = WorkerTrace

  // ----- records, jobs and logs

  ghost predicate LogValid(prefix: string, log: seq<Event>) {
    exists pid :: W.Valid(W.Launched(pid, prefix), log)
  }

  /** Accepted work whose end is not on record. */
  predicate Open(st: State) { st.Queued? || Inflight(st) || st.NeedsAttention? }

  /** One task on its own: nothing is launched before acceptance, and a finished record has the log
      of the worker that finished it. */
  ghost predicate SlotOk(prefix: string, id: TaskId, sl: Slot) {
    && sl.task.id == id
    && (sl.task.state.Awaiting? || sl.task.state.Expired? ==> !sl.job && !sl.started)
    && (sl.job ==> (sl.task.state.Queued? || sl.task.state.NeedsAttention?) && !sl.started)
    && (sl.task.cleanupPending ==> sl.task.state.Succeeded?)
    && (sl.archived ==> sl.task.state.Succeeded?)
    && (sl.started ==> LogValid(prefix, sl.log))
    && (sl.task.state.Succeeded? ==> sl.started && T.SavedState(sl.log, Succeeded))
    && (sl.task.state.Failed? ==> sl.started && T.SavedState(sl.log, Failed))
  }

  /** The worker's control points that are followed by a save of its task. */
  predicate Unfinished(pc: W.Pc) {
    !(pc.Locking? || pc.Loading? || pc.BootingOut? || pc.Unlocking? || pc.Exited?)
  }

  ghost predicate RunningOk(prefix: string, a: Active, sl: Slot) {
    && sl.started && !sl.job
    && W.Valid(W.Launched(a.w.pid, prefix), sl.log) && W.Play(W.Launched(a.w.pid, prefix), sl.log) == a.w
    && a.w.locked && a.w.pid > 0 && !a.w.pc.Locking? && !a.w.pc.Loading? && !a.w.pc.Exited?
    && (Unfinished(a.w.pc) ==> !sl.archived && Open(sl.task.state))
    && (Unfinished(a.w.pc) && !a.w.pc.Reloading? ==> a.w.task.id == a.id && !a.w.task.cleanupPending)
  }

  ghost predicate Records(prefix: string, s: Sys) {
    && (forall id | id in s.tasks :: SlotOk(prefix, id, s.tasks[id]))
    && (s.running.Some? ==> s.running.value.id in s.tasks &&
                            RunningOk(prefix, s.running.value, s.tasks[s.running.value.id]))
  }

  /** What a worker's save can put on disk, by control point. */
  lemma SaveFacts(w: W.Worker, r: Reply)
    requires T.StateInv(w) && !w.pc.Exited? && Fits(W.Action(w), r) && W.Action(w).Save?
    ensures var (t, w') := (W.Action(w).task, W.Next(w, r));
            && t.id == w.task.id && Unfinished(w.pc)
            && !t.state.Awaiting? && !t.state.Expired?
            && (t.cleanupPending ==> t.state.Succeeded? || w.task.cleanupPending)
            && (Open(t.state) || !Unfinished(w'.pc))
            && w'.task == Written(t, r.at)
            && (Unfinished(w'.pc) ==> Unfinished(w.pc) && !w'.pc.Reloading?)
            && (t.state.Queued? ==> w.pc.SavingReady?)
  {
  }

  /** What the other steps of a worker keep. */
  lemma OtherFacts(w: W.Worker, r: Reply)
    requires !w.pc.Exited? && !w.pc.Locking? && !w.pc.Loading? && Fits(W.Action(w), r) && !W.Action(w).Save?
    ensures var w' := W.Next(w, r);
            && (Unfinished(w'.pc) ==> Unfinished(w.pc))
            && !w'.pc.Locking? && !w'.pc.Loading?
            && (Unfinished(w'.pc) && !w'.pc.Reloading? ==>
                  if W.Action(w).Load? then r.load.Loaded? && w'.task == r.load.task
                  else !w.pc.Reloading? && w'.task.id == w.task.id && w'.task.cleanupPending == w.task.cleanupPending)
  {
  }

  lemma LockKept(w: W.Worker, r: Reply)
    requires !w.pc.Exited? && !w.pc.Locking? && !w.pc.Loading? && w.locked && Fits(W.Action(w), r)
    ensures var w' := W.Next(w, r);
            && w'.pid == w.pid && !w'.pc.Locking? && !w'.pc.Loading? && (!w'.pc.Exited? ==> w'.locked)
  {
  }

  lemma WorkLog(prefix: string, a: Active, sl: Slot, r: Reply, files: nat)
    requires RunningOk(prefix, a, sl) && Fits(W.Action(a.w), r)
    ensures var sl' := Worked(sl, W.Action(a.w), r, files);
            && W.Valid(W.Launched(a.w.pid, prefix), sl'.log)
            && W.Play(W.Launched(a.w.pid, prefix), sl'.log) == W.Next(a.w, r)
            && (forall st :: T.SavedState(sl'.log, st) <==>
                  T.SavedState(sl.log, st) || (W.Action(a.w).Save? && W.Action(a.w).task.state == st))
            && T.StateInv(a.w)
  {
    var e := Event(W.Action(a.w), r);
    W.PlayStep(W.Launched(a.w.pid, prefix), sl.log, r);
    T.RunState(a.w.pid, prefix, sl.log);
    forall st
      ensures T.SavedState(sl.log + [e], st) <==> T.SavedState(sl.log, st) || (e.act.Save? && e.act.task.state == st)
    {
      T.SavedStateStep(sl.log, e, st);
    }
  }

  lemma SaveRunning(prefix: string, a: Active, sl: Slot, r: Reply, files: nat, due: Time)
    requires RunningOk(prefix, a, sl) && Fits(W.Action(a.w), r) && W.Action(a.w).Save?
    ensures !W.Next(a.w, r).pc.Exited? ==>
              RunningOk(prefix, Active(a.id, W.Next(a.w, r), due), Worked(sl, W.Action(a.w), r, files))
  {
    WorkLog(prefix, a, sl, r, files);
    LockKept(a.w, r);
    SaveFacts(a.w, r);
  }

  lemma OtherRunning(prefix: string, s: Sys, a: Active, sl: Slot, r: Reply, files: nat, due: Time)
    requires SlotOk(prefix, a.id, sl) && RunningOk(prefix, a, sl)
    requires a.id in s.tasks && s.tasks[a.id] == sl && Answers(s, a.id, W.Action(a.w), r) && !W.Action(a.w).Save?
    ensures !W.Next(a.w, r).pc.Exited? ==>
              RunningOk(prefix, Active(a.id, W.Next(a.w, r), due), Worked(sl, W.Action(a.w), r, files))
  {
    WorkLog(prefix, a, sl, r, files);
    LockKept(a.w, r);
    OtherFacts(a.w, r);
  }

  lemma WorkSlot(prefix: string, a: Active, sl: Slot, r: Reply, files: nat)
    requires SlotOk(prefix, a.id, sl) && RunningOk(prefix, a, sl) && Fits(W.Action(a.w), r)
    ensures SlotOk(prefix, a.id, Worked(sl, W.Action(a.w), r, files))
  {
    WorkLog(prefix, a, sl, r, files);
    if W.Action(a.w).Save? {
      SaveFacts(a.w, r);
    }
  }

  lemma SubmitSlot(prefix: string, e: Step, sl: Slot, now: Time)
    requires e.Submit? && SlotOk(prefix, e.id, sl) && sl.task.state.Awaiting?
    ensures SlotOk(prefix, e.id, Submitted(sl, e, now).0)
  {
  }

  lemma StartLog(pid: nat, prefix: string, t: Task)
    requires t.state.Queued?
    ensures var log := [Event(TryLock, LockR(Acquired)), Event(Load, LoadR(Loaded(t)))];
            && W.Valid(W.Launched(pid, prefix), log)
            && W.Play(W.Launched(pid, prefix), log) ==
               W.Worker(W.WritingReady, pid, prefix, t.(workerPid := pid), true)
            && forall st :: !T.SavedState(log, st)
  {
    var e1 := Event(TryLock, LockR(Acquired));
    var w1 := W.Launched(pid, prefix);
    W.PlayStep(w1, [], LockR(Acquired));
    assert [] + [e1] == [e1];
    W.PlayStep(w1, [e1], LoadR(Loaded(t)));
    assert [e1] + [Event(Load, LoadR(Loaded(t)))] == [e1, Event(Load, LoadR(Loaded(t)))];
  }

  lemma StartRecords(env: Env, prefix: string, s: Sys, e: Step)
    requires Records(prefix, s) && e.StartWorker? && Enabled(env, s, e)
    ensures Records(prefix, StartTo(prefix, s, e.id, e.pid))
  {
    var sl := s.tasks[e.id];
    assert SlotOk(prefix, e.id, sl);
    if s.running.None? && sl.task.state.Queued? {
      StartLog(e.pid, prefix, sl.task);
    }
  }

  lemma WorkRecords(prefix: string, s: Sys, r: Reply, files: nat)
    requires Records(prefix, s) && s.running.Some? && !s.running.value.w.pc.Exited?
    requires Answers(s, s.running.value.id, W.Action(s.running.value.w), r)
    ensures Records(prefix, WorkTo(s, r, files))
  {
    var a := s.running.value;
    var sl := s.tasks[a.id];
    assert SlotOk(prefix, a.id, sl) && RunningOk(prefix, a, sl);
    WorkSlot(prefix, a, sl, r, files);
    var due := Due(W.Next(a.w, r), s.clock, a.due, files);
    if W.Action(a.w).Save? {
      SaveRunning(prefix, a, sl, r, files, due);
    } else {
      OtherRunning(prefix, s, a, sl, r, files, due);
    }
  }

  lemma ReconcileSlot(prefix: string, id: TaskId, sl: Slot, now: Time, alive: bool, gone: bool)
    requires SlotOk(prefix, id, sl)
    ensures SlotOk(prefix, id, ReconciledSlot(sl, now, alive, gone))
    ensures Open(sl.task.state) ==>
              var sl' := ReconciledSlot(sl, now, alive, gone);
              Open(sl'.task.state) && sl'.archived == sl.archived
  {
  }

  lemma ReconcileRecords(prefix: string, s: Sys, id: TaskId, alive: bool, gone: bool)
    requires Records(prefix, s) && id in s.tasks
    ensures Records(prefix, s.(tasks := s.tasks[id := ReconciledSlot(s.tasks[id], s.clock, alive, gone)]))
  {
    ReconcileSlot(prefix, id, s.tasks[id], s.clock, alive, gone);
  }

  lemma SubmitRecords(prefix: string, s: Sys, e: Step)
    requires Records(prefix, s) && e.Submit? && s.running.None?
    requires e.id in s.tasks && s.tasks[e.id].task.state.Awaiting?
    ensures Records(prefix, SubmitTo(s, e))
  {
    SubmitSlot(prefix, e, s.tasks[e.id], s.clock);
  }

  lemma RecordsStep(env: Env, prefix: string, s: Sys, e: Step)
    requires Records(prefix, s) && Enabled(env, s, e)
    ensures Records(prefix, Apply(env, prefix, s, e))
  {
    match e {
      case Submit(_, _, _, _, _) => SubmitRecords(prefix, s, e);
      case StartWorker(_, _) => StartRecords(env, prefix, s, e);
      case Work(r, files) => WorkRecords(prefix, s, r, files);
      case Reconcile(id, alive, gone) => ReconcileRecords(prefix, s, id, alive, gone);
      case _ =>
    }
  }

  // ----- at most one blocking task

  predicate Blocking(s: Sys, id: TaskId)
    requires id in s.tasks
  {
    Blocks(s.tasks[id].task, s.clock)
  }

  ghost predicate OneBlocking(s: Sys) {
    forall a, b | a in s.tasks && b in s.tasks && Blocking(s, a) && Blocking(s, b) :: a == b
  }

  lemma WorkBlocking(env: Env, prefix: string, s: Sys, r: Reply, files: nat, id: TaskId)
    requires Records(prefix, s) && Enabled(env, s, Work(r, files)) && id in s.tasks
    ensures Blocking(WorkTo(s, r, files), id) ==> Blocking(s, id)
  {
    var a := s.running.value;
    if id == a.id && W.Action(a.w).Save? {
      WorkLog(prefix, a, s.tasks[a.id], r, files);
      SaveFacts(a.w, r);
    }
  }

  lemma StartBlocking(env: Env, prefix: string, s: Sys, started: TaskId, pid: nat, id: TaskId)
    requires Records(prefix, s) && Enabled(env, s, StartWorker(started, pid)) && id in s.tasks
    ensures Blocking(StartTo(prefix, s, started, pid), id) ==> Blocking(s, id)
  {
    assert SlotOk(prefix, started, s.tasks[started]);
  }

  /** Only Prepare makes a task blocking: a confirmation past its window never becomes work again. */
  lemma BlockingStep(env: Env, prefix: string, s: Sys, e: Step, id: TaskId)
    requires Records(prefix, s) && Enabled(env, s, e)
    requires id in Apply(env, prefix, s, e).tasks && Blocking(Apply(env, prefix, s, e), id)
    ensures (e.Prepare? && id == e.order.id) || (id in s.tasks && Blocking(s, id))
  {
    match e {
      case StartWorker(started, pid) => StartBlocking(env, prefix, s, started, pid, id);
      case Work(r, files) => WorkBlocking(env, prefix, s, r, files, id);
      case _ =>
    }
  }

  lemma OneBlockingStep(env: Env, prefix: string, s: Sys, e: Step)
    requires Records(prefix, s) && OneBlocking(s) && Enabled(env, s, e)
    ensures OneBlocking(Apply(env, prefix, s, e))
  {
    var s' := Apply(env, prefix, s, e);
    forall a, b | a in s'.tasks && b in s'.tasks && Blocking(s', a) && Blocking(s', b)
      ensures a == b
    {
      BlockingStep(env, prefix, s, e, a);
      BlockingStep(env, prefix, s, e, b);
    }
  }
}
