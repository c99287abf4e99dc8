/** What every reachable state of the fine protocol satisfies, step by step. */
module FineInvariant {
  import opened UpgradeTask
  import opened Effects
  import opened FineProtocol
  import W = WorkerAutomaton
  import S = SubmitAutomaton
  import C = ReconcileAutomaton
  import T = WorkerTrace

  // ----- the lock

  predicate SubmitHolds(p: SubmitProc) { p.alive && S.HoldsLock(p.s) }

  predicate WorkerHolds(p: WorkerProc) { p.alive && p.w.locked }

  /** The lock names exactly the live process that is past its TryLock. */
  ghost predicate Owned(s: Sys) {
    && (forall i | 0 <= i < |s.submits| :: SubmitHolds(s.submits[i]) <==> s.lock == Some(BySubmit(i)))
    && (forall i | 0 <= i < |s.workers| :: WorkerHolds(s.workers[i]) <==> s.lock == Some(ByWorker(i)))
    && (s.lock.Some? && s.lock.value.BySubmit? ==> s.lock.value.i < |s.submits|)
    && (s.lock.Some? && s.lock.value.ByWorker? ==> s.lock.value.i < |s.workers|)
  }

  /** Worker control points past a successful load of a queued record. */
  predicate Engaged(pc: W.Pc) {
    !(pc.Locking? || pc.Loading? || pc.Reloading? || pc.SavingUnknown? || pc.Unlocking? || pc.Exited?)
  }

  predicate LockFits(w: W.Worker) {
    && (Engaged(w.pc) || w.pc.Loading? || w.pc.Unlocking? ==> w.locked)
    && (w.pc.Locking? || w.pc.Exited? ==> !w.locked)
  }

  ghost predicate Journaled(prefix: string, p: WorkerProc) {
    && W.Valid(W.Launched(p.w.pid, prefix), p.log)
    && W.Play(W.Launched(p.w.pid, prefix), p.log) == p.w
    && LockFits(p.w)
  }

  lemma LockFitsStep(w: W.Worker, r: Reply)
    requires LockFits(w) && !w.pc.Exited? && Fits(W.Action(w), r)
    ensures LockFits(W.Next(w, r)) && W.Next(w, r).pid == w.pid && W.Next(w, r).prefix == w.prefix
    ensures W.Next(w, r).locked <==>
              if W.Action(w).TryLock? then r.lock.Acquired? else if W.Action(w).Unlock? then false else w.locked
  {
  }

  lemma SubmitOwned(s: Sys, i: nat, r: Reply)
    requires Owned(s) && i < |s.submits| && s.submits[i].alive && !s.submits[i].s.pc.Exited?
    requires Answers(s, S.Action(s.submits[i].s), r)
    ensures Owned(SubmitTo(s, i, r))
  {
    var s' := SubmitTo(s, i, r);
    assert S.Action(s.submits[i].s).Unlock? ==> SubmitHolds(s.submits[i]);
    forall j | 0 <= j < |s'.submits| ensures SubmitHolds(s'.submits[j]) <==> s'.lock == Some(BySubmit(j)) {
      assert SubmitHolds(s.submits[j]) <==> s.lock == Some(BySubmit(j));
    }
    forall j | 0 <= j < |s'.workers| ensures WorkerHolds(s'.workers[j]) <==> s'.lock == Some(ByWorker(j)) {
      assert WorkerHolds(s.workers[j]) <==> s.lock == Some(ByWorker(j));
    }
  }

  lemma WorkOwned(prefix: string, s: Sys, i: nat, r: Reply)
    requires Owned(s) && i < |s.workers| && s.workers[i].alive && !s.workers[i].w.pc.Exited?
    requires Answers(s, W.Action(s.workers[i].w), r) && LockFits(s.workers[i].w)
    ensures Owned(WorkTo(s, i, r))
  {
    var s' := WorkTo(s, i, r);
    LockFitsStep(s.workers[i].w, r);
    assert WorkerHolds(s.workers[i]) <==> s.lock == Some(ByWorker(i));
    forall j | 0 <= j < |s'.submits| ensures SubmitHolds(s'.submits[j]) <==> s'.lock == Some(BySubmit(j)) {
      assert SubmitHolds(s.submits[j]) <==> s.lock == Some(BySubmit(j));
    }
    forall j | 0 <= j < |s'.workers| ensures WorkerHolds(s'.workers[j]) <==> s'.lock == Some(ByWorker(j)) {
      assert WorkerHolds(s.workers[j]) <==> s.lock == Some(ByWorker(j));
    }
  }

  lemma OtherOwned(env: Env, prefix: string, s: Sys, e: Step)
    requires Owned(s) && Enabled(env, s, e) && !e.Submit? && !e.Work?
    ensures Owned(Apply(env, prefix, s, e))
  {
    var s' := Apply(env, prefix, s, e);
    forall j | 0 <= j < |s'.submits| ensures SubmitHolds(s'.submits[j]) <==> s'.lock == Some(BySubmit(j)) {
      assert j < |s.submits| ==> (SubmitHolds(s.submits[j]) <==> s.lock == Some(BySubmit(j)));
    }
    forall j | 0 <= j < |s'.workers| ensures WorkerHolds(s'.workers[j]) <==> s'.lock == Some(ByWorker(j)) {
      assert j < |s.workers| ==> (WorkerHolds(s.workers[j]) <==> s.lock == Some(ByWorker(j)));
    }
  }

  // ----- the copies of the record, on disk and in memory

  predicate SameTarget(g: Task, t: Task) {
    && t.id == g.id && t.targetVersion == g.targetVersion && t.targetKeg == g.targetKeg
    && t.port == g.port && t.formula == g.formula
  }

  /** What every copy satisfies: one target, one secret, and what an unlaunched record looks like. */
  predicate Copy(g: Task, t: Task) {
    && SameTarget(g, t)
    && (t.accepted.Blank? || t.accepted == g.credential)
    && (t.state.Awaiting? ==> t.credential == g.credential && t.accepted.Blank? && t.workerPid == 0 &&
                              t.servicePid == 0 && !t.launchUnknown)
    && (t.state.Queued? ==> t.accepted == g.credential && t.servicePid == 0)
  }

  /** The control points of a submit that carries the record it loaded awaiting. */
  predicate Deciding(pc: S.Pc) {
    pc.ReadingClock? || pc.SavingExpired? || pc.SavingQueued?
  }

  /** The control points of a submit that has queued the record and still has a save to make. */
  predicate Launching(pc: S.Pc) {
    pc.Preparing? || pc.Bootstrapping? || pc.SavingLaunched? || pc.SavingUnknown? || pc.SavingAttention?
  }

  predicate SubmitCopy(g: Task, s: S.Submitter) {
    && (Deciding(s.pc) ==> Copy(g, s.task) && s.task.state.Awaiting?)
    && (s.pc.SavingQueued? ==> Sha256(s.req.credential) == g.credential)
    && (Launching(s.pc) ==> Copy(g, s.task) && s.task.state.Queued? && s.task.workerPid == 0)
    && (s.pc.Preparing? || s.pc.Bootstrapping? || s.pc.SavingLaunched? ==> !s.task.launchUnknown)
  }

  lemma SubmitCopyStep(g: Task, sys: Sys, s: S.Submitter, r: Reply)
    requires SubmitCopy(g, s) && !s.pc.Exited? && Answers(sys, S.Action(s), r)
    requires sys.rec.Some? ==> Copy(g, sys.rec.value)
    ensures SubmitCopy(g, S.Next(s, r))
    ensures S.Action(s).Save? ==> Copy(g, Written(S.Action(s).task, r.at)) && !S.Action(s).task.state.Awaiting?
  {
  }

  ghost predicate WorkerCopy(g: Task, w: W.Worker) {
    Engaged(w.pc) || w.pc.SavingUnknown? ==> Copy(g, w.task)
  }

  lemma EngagedCopyStep(g: Task, sys: Sys, w: W.Worker, r: Reply)
    requires WorkerCopy(g, w) && T.StateInv(w) && !w.pc.Exited? && Answers(sys, W.Action(w), r)
    requires sys.rec.Some? ==> Copy(g, sys.rec.value)
    ensures Engaged(W.Next(w, r).pc) ==> Copy(g, W.Next(w, r).task)
  {
    if W.Action(w).Save? {
      WorkerSaves(g, w);
      SavedNext(w, r);
    } else if w.pc.Loading? {
      LoadedCopy(g, sys, w, r);
    } else {
      QuietCopy(g, w, r);
    }
  }

  lemma SavedNext(w: W.Worker, r: Reply)
    requires !w.pc.Exited? && W.Action(w).Save? && r.SavedR?
    ensures W.Next(w, r).task == Written(W.Action(w).task, r.at) && !W.Next(w, r).pc.SavingUnknown?
  {
  }

  lemma LoadedCopy(g: Task, sys: Sys, w: W.Worker, r: Reply)
    requires w.pc.Loading? && Answers(sys, W.Action(w), r)
    requires sys.rec.Some? ==> Copy(g, sys.rec.value)
    ensures Engaged(W.Next(w, r).pc) ==> Copy(g, W.Next(w, r).task)
  {
  }

  lemma QuietCopy(g: Task, w: W.Worker, r: Reply)
    requires WorkerCopy(g, w) && T.StateInv(w) && !w.pc.Exited? && Fits(W.Action(w), r)
    requires !W.Action(w).Save? && !w.pc.Loading?
    ensures Engaged(W.Next(w, r).pc) ==> Copy(g, W.Next(w, r).task)
  {
  }

  lemma ReloadedCopyStep(g: Task, sys: Sys, w: W.Worker, r: Reply)
    requires !w.pc.Exited? && Answers(sys, W.Action(w), r)
    requires sys.rec.Some? ==> Copy(g, sys.rec.value)
    ensures W.Next(w, r).pc.SavingUnknown? ==> Copy(g, W.Next(w, r).task)
  {
    if W.Action(w).Save? {
      SavedNext(w, r);
    }
  }

  lemma WorkerCopyStep(g: Task, sys: Sys, w: W.Worker, r: Reply)
    requires WorkerCopy(g, w) && T.StateInv(w) && !w.pc.Exited? && Answers(sys, W.Action(w), r)
    requires sys.rec.Some? ==> Copy(g, sys.rec.value)
    ensures WorkerCopy(g, W.Next(w, r))
  {
    EngagedCopyStep(g, sys, w, r);
    ReloadedCopyStep(g, sys, w, r);
  }

  lemma WorkerSaves(g: Task, w: W.Worker)
    requires WorkerCopy(g, w) && T.StateInv(w) && !w.pc.Exited? && W.Action(w).Save?
    ensures forall at :: Copy(g, Written(W.Action(w).task, at))
    ensures !W.Action(w).task.state.Awaiting?
    ensures W.Action(w).task.state.Queued? ==> w.pc.SavingReady?
  {
  }

  predicate ReconCopy(g: Task, c: C.Reconciler) {
    && (!c.pc.Listing? && !c.pc.Exited? ==> Copy(g, c.task))
    && (c.pc.Probing? ==> c.task.workerPid != 0)
    && (c.pc.Saving? ==> Copy(g, c.pc.task) && !c.pc.task.state.Awaiting?)
    && (c.pc.Indexing? ==> SameTarget(g, c.pc.task))
  }

  lemma ReconCopyStep(g: Task, sys: Sys, c: C.Reconciler, r: Reply)
    requires ReconCopy(g, c) && !c.pc.Exited? && Answers(sys, C.Action(c), r)
    requires sys.rec.Some? ==> Copy(g, sys.rec.value)
    ensures ReconCopy(g, C.Next(c, r))
    ensures C.Action(c).Save? ==> Copy(g, Written(C.Action(c).task, r.at))
  {
  }

  ghost predicate Targeted(g: Task, log: seq<Event>) {
    forall k | 0 <= k < |log| && log[k].act.Save? :: SameTarget(g, log[k].act.task)
  }

  ghost predicate Copies(prefix: string, g: Task, s: Sys) {
    && (s.rec.Some? ==> Copy(g, s.rec.value))
    && (forall i | 0 <= i < |s.submits| :: SubmitCopy(g, s.submits[i].s))
    && (forall i | 0 <= i < |s.workers| :: Journaled(prefix, s.workers[i]))
    && (forall i | 0 <= i < |s.workers| :: WorkerCopy(g, s.workers[i].w))
    && (forall i | 0 <= i < |s.workers| :: Targeted(g, s.workers[i].log))
    && (forall i | 0 <= i < |s.recons| :: ReconCopy(g, s.recons[i]))
  }

  lemma WorkCopies(prefix: string, g: Task, s: Sys, i: nat, r: Reply)
    requires Copies(prefix, g, s)
    requires i < |s.workers| && !s.workers[i].w.pc.Exited? && Answers(s, W.Action(s.workers[i].w), r)
    ensures Copies(prefix, g, WorkTo(s, i, r))
  {
    var p := s.workers[i];
    var p' := WorkTo(s, i, r).workers[i];
    assert Journaled(prefix, p) && WorkerCopy(g, p.w) && Targeted(g, p.log);
    T.RunState(p.w.pid, prefix, p.log);
    WorkerCopyStep(g, s, p.w, r);
    LockFitsStep(p.w, r);
    assert Journaled(prefix, p') by {
      W.PlayStep(W.Launched(p.w.pid, prefix), p.log, r);
    }
    if W.Action(p.w).Save? {
      WorkerSaves(g, p.w);
      assert Copy(g, Written(W.Action(p.w).task, r.at));
    }
    assert Targeted(g, p'.log);
  }

  lemma SubmitCopies(prefix: string, g: Task, s: Sys, i: nat, r: Reply)
    requires Copies(prefix, g, s)
    requires i < |s.submits| && !s.submits[i].s.pc.Exited? && Answers(s, S.Action(s.submits[i].s), r)
    ensures Copies(prefix, g, SubmitTo(s, i, r))
  {
    SubmitCopyStep(g, s, s.submits[i].s, r);
  }

  lemma ReconcileCopies(prefix: string, g: Task, s: Sys, i: nat, r: Reply)
    requires Copies(prefix, g, s)
    requires i < |s.recons| && !s.recons[i].pc.Exited? && Answers(s, C.Action(s.recons[i]), r)
    ensures Copies(prefix, g, ReconcileTo(s, i, r))
  {
    ReconCopyStep(g, s, s.recons[i], r);
    ReconcileShares(s, i, r);
  }

  lemma OtherCopies(env: Env, prefix: string, g: Task, s: Sys, e: Step)
    requires Copies(prefix, g, s) && Enabled(env, s, e) && !e.Submit? && !e.Work? && !e.Reconcile?
    ensures Copies(prefix, g, Apply(env, prefix, s, e))
  {
  }

  // ----- at most one bootstrap

  /** A bootstrap still ahead, or an awaiting record on disk, means no bootstrap so far; awaiting is
      never re-entered once a submit has queued the record. */
  ghost predicate Launches(s: Sys) {
    && s.bootstraps <= 1
    && (s.rec.Some? && s.rec.value.state.Awaiting? ==> s.bootstraps == 0)
    && (forall i | 0 <= i < |s.submits| :: SubmitLaunch(s, s.submits[i]))
  }

  ghost predicate SubmitLaunch(s: Sys, p: SubmitProc) {
    && (p.alive && (Deciding(p.s.pc) || p.s.pc.Preparing? || p.s.pc.Bootstrapping?) ==> s.bootstraps == 0)
    && (p.alive && Launching(p.s.pc) && s.rec.Some? ==> !s.rec.value.state.Awaiting?)
  }

  lemma SubmitLaunches(prefix: string, g: Task, s: Sys, i: nat, r: Reply)
    requires Owned(s) && Copies(prefix, g, s) && Launches(s)
    requires i < |s.submits| && s.submits[i].alive && !s.submits[i].s.pc.Exited?
    requires Answers(s, S.Action(s.submits[i].s), r)
    ensures Launches(SubmitTo(s, i, r))
  {
    var (p, s') := (s.submits[i], SubmitTo(s, i, r));
    SubmitCopyStep(g, s, p.s, r);
    assert SubmitLaunch(s, p);
    assert SubmitHolds(p) ==> s.lock == Some(BySubmit(i));
    forall j | 0 <= j < |s'.submits| ensures SubmitLaunch(s', s'.submits[j]) {
      assert SubmitLaunch(s, s.submits[j]);
      assert SubmitHolds(s.submits[j]) ==> s.lock == Some(BySubmit(j));
    }
  }

  /** What one worker step does to what is shared. */
  lemma WorkShares(s: Sys, i: nat, r: Reply)
    requires i < |s.workers| && !s.workers[i].w.pc.Exited? && Fits(W.Action(s.workers[i].w), r)
    ensures var s' := WorkTo(s, i, r);
            var a := W.Action(s.workers[i].w);
            && s'.submits == s.submits && s'.bootstraps == s.bootstraps
            && s'.rec == if a.Save? && s.rec.Some? then Some(Written(a.task, r.at)) else s.rec
  {
  }

  lemma WorkNeverAwaits(prefix: string, g: Task, s: Sys, i: nat, r: Reply)
    requires Copies(prefix, g, s)
    requires i < |s.workers| && !s.workers[i].w.pc.Exited? && Answers(s, W.Action(s.workers[i].w), r)
    ensures var s' := WorkTo(s, i, r);
            && s'.submits == s.submits && s'.bootstraps == s.bootstraps && (s'.rec.Some? ==> s.rec.Some?)
            && (s'.rec.Some? && s'.rec.value.state.Awaiting? ==> s.rec.value.state.Awaiting?)
  {
    var p := s.workers[i];
    assert Journaled(prefix, p) && WorkerCopy(g, p.w);
    WorkShares(s, i, r);
    if W.Action(p.w).Save? {
      T.RunState(p.w.pid, prefix, p.log);
      WorkerSaves(g, p.w);
    }
  }

  lemma WorkLaunches(prefix: string, g: Task, s: Sys, i: nat, r: Reply)
    requires Copies(prefix, g, s) && Launches(s)
    requires i < |s.workers| && !s.workers[i].w.pc.Exited? && Answers(s, W.Action(s.workers[i].w), r)
    ensures Launches(WorkTo(s, i, r))
  {
    var s' := WorkTo(s, i, r);
    WorkNeverAwaits(prefix, g, s, i, r);
    forall j | 0 <= j < |s'.submits| ensures SubmitLaunch(s', s'.submits[j]) {
      assert SubmitLaunch(s, s.submits[j]);
    }
  }

  lemma ReconcileLaunches(prefix: string, g: Task, s: Sys, i: nat, r: Reply)
    requires Copies(prefix, g, s) && Launches(s)
    requires i < |s.recons| && !s.recons[i].pc.Exited? && Answers(s, C.Action(s.recons[i]), r)
    ensures Launches(ReconcileTo(s, i, r))
  {
    var s' := ReconcileTo(s, i, r);
    assert ReconCopy(g, s.recons[i]);
    forall j | 0 <= j < |s'.submits| ensures SubmitLaunch(s', s'.submits[j]) {
      assert SubmitLaunch(s, s.submits[j]);
    }
  }

  lemma OtherLaunches(env: Env, prefix: string, s: Sys, e: Step)
    requires Launches(s) && Enabled(env, s, e) && !e.Submit? && !e.Work? && !e.Reconcile?
    ensures Launches(Apply(env, prefix, s, e))
  {
    var s' := Apply(env, prefix, s, e);
    forall j | 0 <= j < |s'.submits| ensures SubmitLaunch(s', s'.submits[j]) {
      if j < |s.submits| {
        assert SubmitLaunch(s, s.submits[j]);
      }
    }
  }

  // ----- terminal records have a worker behind them

  ghost predicate SomeoneSaved(s: Sys, st: State) {
    exists i :: 0 <= i < |s.workers| && T.SavedState(s.workers[i].log, st)
  }

  /** Every copy that says succeeded, or failed, stems from a worker that saved it. */
  ghost predicate Backed(s: Sys, t: Task) {
    && (t.state.Succeeded? ==> SomeoneSaved(s, Succeeded))
    && (t.state.Failed? ==> SomeoneSaved(s, Failed))
  }

  ghost predicate Origins(s: Sys) {
    && (s.rec.Some? ==> Backed(s, s.rec.value))
    && (s.archive.Some? ==> Backed(s, s.archive.value))
    && (forall i | 0 <= i < |s.recons| :: ReconBacked(s, s.recons[i]))
  }

  ghost predicate ReconBacked(s: Sys, c: C.Reconciler) {
    && (c.pc.Saving? ==> !c.pc.task.state.Succeeded? && !c.pc.task.state.Failed?)
    && (c.pc.Indexing? ==> Backed(s, c.pc.task))
  }

  lemma SubmitOrigins(g: Task, s: Sys, i: nat, r: Reply)
    requires Origins(s)
    requires i < |s.submits| && SubmitCopy(g, s.submits[i].s)
    requires !s.submits[i].s.pc.Exited? && Answers(s, S.Action(s.submits[i].s), r)
    ensures Origins(SubmitTo(s, i, r))
  {
    var s' := SubmitTo(s, i, r);
    assert forall st :: SomeoneSaved(s, st) ==> SomeoneSaved(s', st);
    forall j | 0 <= j < |s'.recons| ensures ReconBacked(s', s'.recons[j]) {
      assert ReconBacked(s, s.recons[j]);
    }
  }

  lemma SavedGrows(s: Sys, i: nat, r: Reply, st: State)
    requires i < |s.workers| && !s.workers[i].w.pc.Exited? && Fits(W.Action(s.workers[i].w), r)
    ensures SomeoneSaved(s, st) ==> SomeoneSaved(WorkTo(s, i, r), st)
    ensures W.Action(s.workers[i].w).Save? && W.Action(s.workers[i].w).task.state == st
            ==> SomeoneSaved(WorkTo(s, i, r), st)
  {
    var (p, s') := (s.workers[i], WorkTo(s, i, r));
    T.SavedStateStep(p.log, Event(W.Action(p.w), r), st);
    if SomeoneSaved(s, st) {
      var j :| 0 <= j < |s.workers| && T.SavedState(s.workers[j].log, st);
      assert T.SavedState(s'.workers[j].log, st);
    }
    if W.Action(p.w).Save? && W.Action(p.w).task.state == st {
      assert T.SavedState(s'.workers[i].log, st);
    }
  }

  lemma WorkOrigins(s: Sys, i: nat, r: Reply)
    requires Origins(s)
    requires i < |s.workers| && !s.workers[i].w.pc.Exited? && Answers(s, W.Action(s.workers[i].w), r)
    ensures Origins(WorkTo(s, i, r))
  {
    var s' := WorkTo(s, i, r);
    SavedGrows(s, i, r, Succeeded);
    SavedGrows(s, i, r, Failed);
    forall j | 0 <= j < |s'.recons| ensures ReconBacked(s', s'.recons[j]) {
      assert ReconBacked(s, s.recons[j]);
    }
  }

  lemma ReconcileOrigins(s: Sys, i: nat, r: Reply)
    requires Origins(s)
    requires i < |s.recons| && !s.recons[i].pc.Exited? && Answers(s, C.Action(s.recons[i]), r)
    ensures Origins(ReconcileTo(s, i, r))
  {
    var s' := ReconcileTo(s, i, r);
    ReconcileBacks(s, i, r);
    SameBacking(s, s');
    forall j | 0 <= j < |s'.recons| ensures ReconBacked(s, s'.recons[j]) {
      assert j != i ==> ReconBacked(s, s.recons[j]);
    }
  }

  /** The evidence behind a copy is in the workers' logs alone. */
  lemma SameBacking(s: Sys, s': Sys)
    requires s'.workers == s.workers
    ensures forall t :: Backed(s, t) ==> Backed(s', t)
    ensures forall c :: ReconBacked(s, c) ==> ReconBacked(s', c)
  {
    SavedStays(s, s', Succeeded);
    SavedStays(s, s', Failed);
  }

  /** What one reconciler step does to what is shared. */
  lemma ReconcileShares(s: Sys, i: nat, r: Reply)
    requires i < |s.recons| && !s.recons[i].pc.Exited? && Fits(C.Action(s.recons[i]), r)
    ensures var (s', a) := (ReconcileTo(s, i, r), C.Action(s.recons[i]));
            && s'.workers == s.workers && s'.submits == s.submits && s'.lock == s.lock
            && (s'.rec == s.rec || s'.rec.None? || (a.Save? && s'.rec == Some(Written(a.task, r.at))))
            && (s'.archive == s.archive || (a.AppendIndex? && s'.archive == Some(a.task)))
            && (s'.rec.Some? ==> s.rec.Some?)
  {
  }

  lemma ReconNext(s: Sys, c: C.Reconciler, r: Reply)
    requires ReconBacked(s, c) && !c.pc.Exited? && Answers(s, C.Action(c), r)
    requires s.rec.Some? ==> Backed(s, s.rec.value)
    ensures ReconBacked(s, C.Next(c, r))
    ensures C.Action(c).Save? ==> Backed(s, Written(C.Action(c).task, r.at))
    ensures C.Action(c).AppendIndex? ==> Backed(s, C.Action(c).task)
  {
  }

  lemma ReconcileBacks(s: Sys, i: nat, r: Reply)
    requires Origins(s)
    requires i < |s.recons| && !s.recons[i].pc.Exited? && Answers(s, C.Action(s.recons[i]), r)
    ensures ReconBacked(s, C.Next(s.recons[i], r))
    ensures var s' := ReconcileTo(s, i, r);
            && s'.workers == s.workers
            && (s'.rec.Some? ==> Backed(s, s'.rec.value)) && (s'.archive.Some? ==> Backed(s, s'.archive.value))
  {
    assert ReconBacked(s, s.recons[i]);
    ReconNext(s, s.recons[i], r);
    ReconcileShares(s, i, r);
  }

  lemma OtherOrigins(env: Env, prefix: string, s: Sys, e: Step)
    requires Origins(s) && Enabled(env, s, e) && !e.Submit? && !e.Work? && !e.Reconcile?
    ensures Origins(Apply(env, prefix, s, e))
  {
    var s' := Apply(env, prefix, s, e);
    SavedStays(s, s', Succeeded);
    SavedStays(s, s', Failed);
    forall j | 0 <= j < |s'.recons| ensures ReconBacked(s', s'.recons[j]) {
      if j < |s.recons| {
        assert ReconBacked(s, s.recons[j]);
      }
    }
  }

  lemma SavedStays(s: Sys, s': Sys, st: State)
    requires |s.workers| <= |s'.workers| && forall j | 0 <= j < |s.workers| :: s'.workers[j].log == s.workers[j].log
    ensures SomeoneSaved(s, st) ==> SomeoneSaved(s', st)
  {
    if SomeoneSaved(s, st) {
      var j :| 0 <= j < |s.workers| && T.SavedState(s.workers[j].log, st);
      assert T.SavedState(s'.workers[j].log, st);
    }
  }

  // ----- at most one upgrade, when a submit does not die between its two launch saves

  predicate PreCommit(pc: W.Pc) {
    pc.WritingReady? || pc.SavingReady? || pc.SavingDownloading?
  }

  ghost predicate Committed(p: WorkerProc) {
    T.SavedState(p.log, Downloading)
  }

  /** Nobody has gone past queued yet. */
  ghost predicate Uncommitted(s: Sys) {
    forall i | 0 <= i < |s.workers| :: !Committed(s.workers[i])
  }

  predicate UnknownQueued(t: Task) { t.state.Queued? && t.launchUnknown }

  ghost predicate Once(s: Sys) {
    && (s.rec.Some? && UnknownQueued(s.rec.value) ==>
          && s.rec.value.workerPid == 0
          && s.lock.Some? && s.lock.value.BySubmit? && s.lock.value.i < |s.submits|
          && s.submits[s.lock.value.i].s.pc.SavingAttention? && s.submits[s.lock.value.i].s.task.launchUnknown)
    && (s.rec.Some? && (s.rec.value.state.Queued? || s.rec.value.state.Awaiting?) ==> Uncommitted(s))
    && (forall i | 0 <= i < |s.submits| :: SubmitOnce(s, s.submits[i]))
    && (forall i | 0 <= i < |s.workers| :: WorkerOnce(s, s.workers[i]))
    && (forall i | 0 <= i < |s.recons| :: ReconOnce(s.recons[i]))
    && (forall i, j | 0 <= i < |s.workers| && 0 <= j < |s.workers| && Committed(s.workers[i]) &&
                      Committed(s.workers[j]) :: i == j)
  }

  ghost predicate SubmitOnce(s: Sys, p: SubmitProc) {
    p.alive && (Deciding(p.s.pc) || Launching(p.s.pc)) ==> Uncommitted(s)
  }

  ghost predicate WorkerOnce(s: Sys, p: WorkerProc) {
    && (p.w.pc.WritingReady? || p.w.pc.SavingReady? ==> !p.w.task.launchUnknown)
    && (p.alive && PreCommit(p.w.pc) ==> Uncommitted(s))
  }

  /** No reconciler holds a queued record with an unknown launch and a worker PID, so none saves queued. */
  predicate ReconOnce(c: C.Reconciler) {
    && (!c.pc.Listing? && !c.pc.Exited? && UnknownQueued(c.task) ==> c.task.workerPid == 0)
    && (c.pc.Saving? ==> !c.pc.task.state.Queued?)
  }

  /** What one submit step can do to the queue. */
  lemma SubmitOnceFacts(g: Task, s: S.Submitter, r: Reply)
    requires SubmitCopy(g, s) && !s.pc.Exited? && Fits(S.Action(s), r)
    ensures S.Action(s).Save? && UnknownQueued(S.Action(s).task) ==>
              S.Action(s).task.workerPid == 0 && S.Next(s, r).pc.SavingAttention? && S.Next(s, r).task.launchUnknown
    ensures S.Action(s).Save? && (S.Action(s).task.state.Queued? || S.Action(s).task.state.Awaiting?) ==>
              Deciding(s.pc) || Launching(s.pc)
    ensures Deciding(S.Next(s, r).pc) || Launching(S.Next(s, r).pc) ==>
              Deciding(s.pc) || Launching(s.pc) || (s.pc.Loading? && r.load.Loaded? && r.load.task.state.Awaiting?)
    ensures s.pc.SavingAttention? ==> S.Action(s).Save? && !S.Action(s).task.state.Queued?
  {
  }

  ghost predicate SubmitReady(prefix: string, g: Task, s: Sys, i: nat, r: Reply) {
    && Owned(s) && Copies(prefix, g, s) && Launches(s) && Once(s)
    && i < |s.submits| && s.submits[i].alive && !s.submits[i].s.pc.Exited?
    && Answers(s, S.Action(s.submits[i].s), r)
  }

  /** What stays of the queue: the record, and who may still queue it. */
  lemma SubmitOnceRecord(prefix: string, g: Task, s: Sys, i: nat, r: Reply)
    requires SubmitReady(prefix, g, s, i, r)
    ensures var s' := SubmitTo(s, i, r);
            && (s'.rec.Some? && UnknownQueued(s'.rec.value) ==>
                  && s'.rec.value.workerPid == 0
                  && s'.lock.Some? && s'.lock.value.BySubmit? && s'.lock.value.i < |s'.submits|
                  && s'.submits[s'.lock.value.i].s.pc.SavingAttention?
                  && s'.submits[s'.lock.value.i].s.task.launchUnknown)
            && (s'.rec.Some? && (s'.rec.value.state.Queued? || s'.rec.value.state.Awaiting?) ==> Uncommitted(s))
  {
    var p := s.submits[i];
    assert SubmitCopy(g, p.s) && SubmitOnce(s, p);
    SubmitOnceFacts(g, p.s, r);
    assert SubmitHolds(p) <==> s.lock == Some(BySubmit(i));
  }

  lemma SubmitOnceStep(prefix: string, g: Task, s: Sys, i: nat, r: Reply)
    requires SubmitReady(prefix, g, s, i, r)
    ensures Once(SubmitTo(s, i, r))
  {
    var (p, s') := (s.submits[i], SubmitTo(s, i, r));
    SubmitOnceRecord(prefix, g, s, i, r);
    assert SubmitCopy(g, p.s) && SubmitOnce(s, p);
    SubmitOnceFacts(g, p.s, r);
    assert s'.workers == s.workers && (Uncommitted(s) ==> Uncommitted(s'));
    forall j | 0 <= j < |s'.submits| ensures SubmitOnce(s', s'.submits[j]) {
      assert SubmitOnce(s, s.submits[j]);
    }
    forall j | 0 <= j < |s'.workers| ensures WorkerOnce(s', s'.workers[j]) {
      assert WorkerOnce(s, s.workers[j]);
    }
  }

  lemma ReconOnceNext(g: Task, c: C.Reconciler, r: Reply)
    requires ReconCopy(g, c) && ReconOnce(c) && !c.pc.Exited? && Fits(C.Action(c), r)
    requires C.Action(c).Load? && r.load.Loaded? && UnknownQueued(r.load.task) ==> r.load.task.workerPid == 0
    ensures ReconOnce(C.Next(c, r))
    ensures C.Action(c).Save? ==> !C.Action(c).task.state.Queued? && !C.Action(c).task.state.Awaiting?
    ensures !C.Action(c).TryLock? && !C.Action(c).Unlock? && !C.Action(c).Bootstrap?
  {
  }

  lemma ReconcileOnceStep(prefix: string, g: Task, s: Sys, i: nat, r: Reply)
    requires Copies(prefix, g, s) && Once(s)
    requires i < |s.recons| && !s.recons[i].pc.Exited? && Answers(s, C.Action(s.recons[i]), r)
    ensures Once(ReconcileTo(s, i, r))
  {
    var s' := ReconcileTo(s, i, r);
    assert ReconCopy(g, s.recons[i]) && ReconOnce(s.recons[i]);
    ReconOnceNext(g, s.recons[i], r);
    ReconcileShares(s, i, r);
    assert Uncommitted(s) ==> Uncommitted(s');
    forall j | 0 <= j < |s'.submits| ensures SubmitOnce(s', s'.submits[j]) {
      assert SubmitOnce(s, s.submits[j]);
    }
    forall j | 0 <= j < |s'.workers| ensures WorkerOnce(s', s'.workers[j]) {
      assert WorkerOnce(s, s.workers[j]);
    }
  }

  /** What one worker step can do to the queue and to its own commitment. */
  lemma WorkerOnceFacts(w: W.Worker, log: seq<Event>, r: Reply)
    requires T.StateInv(w) && !w.pc.Exited? && Fits(W.Action(w), r)
    requires w.pc.WritingReady? || w.pc.SavingReady? ==> !w.task.launchUnknown
    ensures W.Action(w).Save? && W.Action(w).task.state.Queued? ==>
              w.pc.SavingReady? && !W.Action(w).task.launchUnknown
    ensures W.Action(w).Save? && W.Action(w).task.state.Downloading? <==> w.pc.SavingDownloading?
    ensures PreCommit(W.Next(w, r).pc) ==>
              || (PreCommit(w.pc) && !w.pc.SavingDownloading?)
              || (w.pc.Loading? && r.load.Loaded? && r.load.task.state.Queued? &&
                  W.Next(w, r).task.launchUnknown == r.load.task.launchUnknown)
    ensures (W.Next(w, r).pc.SavingReady? ==> w.pc.WritingReady? && W.Next(w, r).task == w.task)
  {
  }

  /** Only the save of `downloading` commits a worker. */
  lemma CommitStep(s: Sys, i: nat, r: Reply)
    requires i < |s.workers| && !s.workers[i].w.pc.Exited? && Fits(W.Action(s.workers[i].w), r)
    requires T.StateInv(s.workers[i].w)
    requires s.workers[i].w.pc.WritingReady? || s.workers[i].w.pc.SavingReady? ==> !s.workers[i].w.task.launchUnknown
    ensures forall j | 0 <= j < |s.workers| ::
              Committed(WorkTo(s, i, r).workers[j]) <==>
                Committed(s.workers[j]) || (j == i && s.workers[i].w.pc.SavingDownloading?)
    ensures !s.workers[i].w.pc.SavingDownloading? ==> (Uncommitted(s) <==> Uncommitted(WorkTo(s, i, r)))
  {
    var (p, s') := (s.workers[i], WorkTo(s, i, r));
    WorkerOnceFacts(p.w, p.log, r);
    T.SavedStateStep(p.log, Event(W.Action(p.w), r), Downloading);
    assert forall j | 0 <= j < |s.workers| && j != i :: s'.workers[j] == s.workers[j];
    assert Committed(s'.workers[i]) <==> Committed(s.workers[i]) || p.w.pc.SavingDownloading?;
  }

  ghost predicate WorkReady(prefix: string, g: Task, s: Sys, i: nat, r: Reply) {
    && Owned(s) && Copies(prefix, g, s) && Once(s)
    && i < |s.workers| && s.workers[i].alive && !s.workers[i].w.pc.Exited?
    && Answers(s, W.Action(s.workers[i].w), r)
  }

  lemma WorkOnceUnknown(prefix: string, g: Task, s: Sys, i: nat, r: Reply)
    requires WorkReady(prefix, g, s, i, r)
    ensures var s' := WorkTo(s, i, r);
            s'.rec.Some? && UnknownQueued(s'.rec.value) ==>
              s.rec.Some? && UnknownQueued(s.rec.value) && s'.rec == s.rec && s'.lock == s.lock
  {
    var p := s.workers[i];
    WorkKnows(prefix, g, s, i, r);
    WorkShares(s, i, r);
    WorkerOnceFacts(p.w, p.log, r);
    if W.Action(p.w).Unlock? {
      assert WorkerHolds(p);
    }
  }

  /** What is known of the worker about to step. */
  lemma WorkKnows(prefix: string, g: Task, s: Sys, i: nat, r: Reply)
    requires WorkReady(prefix, g, s, i, r)
    ensures var p := s.workers[i];
            && T.StateInv(p.w) && WorkerCopy(g, p.w) && WorkerOnce(s, p)
            && (WorkerHolds(p) <==> s.lock == Some(ByWorker(i)))
  {
    var p := s.workers[i];
    assert Journaled(prefix, p) && WorkerOnce(s, p);
    T.RunState(p.w.pid, prefix, p.log);
  }

  lemma WorkOnceRecord(prefix: string, g: Task, s: Sys, i: nat, r: Reply)
    requires WorkReady(prefix, g, s, i, r)
    ensures var s' := WorkTo(s, i, r);
            s'.rec.Some? && (s'.rec.value.state.Queued? || s'.rec.value.state.Awaiting?) ==> Uncommitted(s')
  {
    var p := s.workers[i];
    WorkKnows(prefix, g, s, i, r);
    WorkShares(s, i, r);
    WorkerOnceFacts(p.w, p.log, r);
    CommitStep(s, i, r);
    if W.Action(p.w).Save? {
      WorkerSaves(g, p.w);
    }
  }

  lemma WorkOnceSubmits(prefix: string, g: Task, s: Sys, i: nat, r: Reply)
    requires WorkReady(prefix, g, s, i, r)
    ensures forall j | 0 <= j < |s.submits| :: SubmitOnce(WorkTo(s, i, r), s.submits[j])
  {
    WorkKnows(prefix, g, s, i, r);
    CommitStep(s, i, r);
    forall j | 0 <= j < |s.submits| ensures SubmitOnce(WorkTo(s, i, r), s.submits[j]) {
      assert SubmitOnce(s, s.submits[j]);
      assert SubmitHolds(s.submits[j]) <==> s.lock == Some(BySubmit(j));
    }
  }

  lemma WorkOnceSelf(prefix: string, g: Task, s: Sys, i: nat, r: Reply)
    requires WorkReady(prefix, g, s, i, r)
    ensures WorkerOnce(WorkTo(s, i, r), WorkTo(s, i, r).workers[i])
  {
    var p := s.workers[i];
    WorkKnows(prefix, g, s, i, r);
    WorkerOnceFacts(p.w, p.log, r);
    CommitStep(s, i, r);
  }

  lemma WorkOnceWorkers(prefix: string, g: Task, s: Sys, i: nat, r: Reply)
    requires WorkReady(prefix, g, s, i, r)
    ensures forall j | 0 <= j < |s.workers| :: WorkerOnce(WorkTo(s, i, r), WorkTo(s, i, r).workers[j])
  {
    var s' := WorkTo(s, i, r);
    WorkKnows(prefix, g, s, i, r);
    CommitStep(s, i, r);
    WorkOnceSelf(prefix, g, s, i, r);
    forall j | 0 <= j < |s'.workers| && j != i ensures WorkerOnce(s', s'.workers[j]) {
      assert WorkerOnce(s, s.workers[j]) && Journaled(prefix, s.workers[j]);
      assert WorkerHolds(s.workers[j]) <==> s.lock == Some(ByWorker(j));
    }
  }

  lemma WorkOnceUnique(prefix: string, g: Task, s: Sys, i: nat, r: Reply)
    requires WorkReady(prefix, g, s, i, r)
    ensures var ws := WorkTo(s, i, r).workers;
            forall j, k | 0 <= j < |ws| && 0 <= k < |ws| && Committed(ws[j]) && Committed(ws[k]) :: j == k
  {
    WorkKnows(prefix, g, s, i, r);
    CommitStep(s, i, r);
  }

  lemma WorkOnceStep(prefix: string, g: Task, s: Sys, i: nat, r: Reply)
    requires WorkReady(prefix, g, s, i, r)
    ensures Once(WorkTo(s, i, r))
  {
    var s' := WorkTo(s, i, r);
    WorkOnceUnknown(prefix, g, s, i, r);
    WorkOnceRecord(prefix, g, s, i, r);
    WorkOnceSubmits(prefix, g, s, i, r);
    WorkOnceWorkers(prefix, g, s, i, r);
    WorkOnceUnique(prefix, g, s, i, r);
  }

  /** Steps that only add processes, let one die, or move the clock keep the invariant. */
  lemma OnceFrame(s: Sys, s': Sys)
    requires Once(s) && s'.rec == s.rec
    requires |s.workers| <= |s'.workers| && |s.submits| <= |s'.submits| && |s.recons| <= |s'.recons|
    requires forall j | 0 <= j < |s'.workers| ::
               if j < |s.workers|
               then s'.workers[j].w == s.workers[j].w && s'.workers[j].log == s.workers[j].log &&
                    (s'.workers[j].alive ==> s.workers[j].alive)
               else s'.workers[j].log == [] && s'.workers[j].w.pc.Locking?
    requires forall j | 0 <= j < |s'.submits| ::
               if j < |s.submits|
               then s'.submits[j].s == s.submits[j].s && (s'.submits[j].alive ==> s.submits[j].alive)
               else s'.submits[j].s.pc.Locking? || s'.submits[j].s.pc.Exited?
    requires forall j | 0 <= j < |s'.recons| ::
               s'.recons[j] == if j < |s.recons| then s.recons[j] else C.STARTED
    requires s.rec.Some? && UnknownQueued(s.rec.value) ==> s'.lock == s.lock
    ensures Once(s')
  {
    forall j | 0 <= j < |s'.workers| ensures Committed(s'.workers[j]) <==> j < |s.workers| && Committed(s.workers[j]) {
    }
    assert Uncommitted(s) ==> Uncommitted(s');
    forall j | 0 <= j < |s'.submits| ensures SubmitOnce(s', s'.submits[j]) {
      assert j < |s.submits| ==> SubmitOnce(s, s.submits[j]);
    }
    forall j | 0 <= j < |s'.workers| ensures WorkerOnce(s', s'.workers[j]) {
      assert j < |s.workers| ==> WorkerOnce(s, s.workers[j]);
    }
    forall j | 0 <= j < |s'.recons| ensures ReconOnce(s'.recons[j]) {
      assert j < |s.recons| ==> ReconOnce(s.recons[j]);
    }
  }

  lemma OtherOnceStep(env: Env, prefix: string, g: Task, s: Sys, e: Step)
    requires Owned(s) && Once(s)
    requires Enabled(env, s, e) && !e.Submit? && !e.Work? && !e.Reconcile?
    requires !env.submitDiesUnknown
    ensures Once(Apply(env, prefix, s, e))
  {
    if e.KillSubmit? {
      assert SubmitHolds(s.submits[e.i]) <==> s.lock == Some(BySubmit(e.i));
    } else if e.KillWorker? {
      assert WorkerHolds(s.workers[e.i]) <==> s.lock == Some(ByWorker(e.i));
    }
    OnceFrame(s, Apply(env, prefix, s, e));
  }
}
