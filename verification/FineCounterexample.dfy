/** The run that issues `brew upgrade` twice, and the exact condition under which none does. */
module FineCounterexample {
  import opened UpgradeTask
  import opened Effects
  import opened FineProtocol
  import opened FineTheorems
  import W = WorkerAutomaton
  import S = SubmitAutomaton
  import C = ReconcileAutomaton

  /** Appends one step to a possible run. */
  lemma Extend(env: Env, prefix: string, g: Task, now: Time, run: seq<Step>, e: Step) returns (run': seq<Step>)
    requires Possible(env, prefix, g, now, run) && Enabled(env, After(env, prefix, g, now, run), e)
    ensures run' == run + [e] && Possible(env, prefix, g, now, run')
    ensures After(env, prefix, g, now, run') == Apply(env, prefix, After(env, prefix, g, now, run), e)
  {
    run' := run + [e];
    assert run'[..|run|] == run;
  }

  /** A worker alive at a control point, holding the lock and a copy of a record. */
  predicate At(s: Sys, i: nat, pc: W.Pc, t: Task) {
    && i < |s.workers| && s.workers[i].alive && s.workers[i].w.locked
    && s.workers[i].w.pc == pc && s.workers[i].w.task == t
    && s.lock == Some(ByWorker(i)) && s.rec.Some?
  }

  lemma UpgradesStep(log: seq<Event>, e: Event)
    ensures UpgradesIn(log + [e]) == UpgradesIn(log) + if e.act == RunBrew(Upgrade) then 1 else 0
  {
    assert (log + [e])[..|log|] == log;
  }

  /** Everything but the record, the lock and worker i is as before; worker i was the last to start. */
  ghost predicate OnlyWorker(s: Sys, s': Sys, i: nat) {
    && s' == s.(rec := s'.rec, lock := s'.lock, workers := s'.workers)
    && i <= |s.workers| && |s'.workers| == i + 1 && s'.workers[..i] == s.workers[..i]
  }

  lemma KeepsLock(w: W.Worker, r: Reply)
    requires !w.pc.Exited? && !w.pc.Unlocking? && !w.pc.Locking? && Fits(W.Action(w), r)
    ensures W.Next(w, r).locked == w.locked
    ensures !W.Action(w).Unlock? && !W.Action(w).TryLock? && !W.Action(w).RemoveDir?
  {
  }

  /** What a step of the last worker does to the state. */
  lemma WorkFacts(s: Sys, i: nat, w: W.Worker, r: Reply)
    requires !w.pc.Exited? && !w.pc.Unlocking? && !w.pc.Locking? && Fits(W.Action(w), r)
    requires |s.workers| == i + 1 && At(s, i, w.pc, w.task) && s.workers[i].w == w
    ensures var (s', n) := (WorkTo(s, i, r), W.Next(w, r));
            && OnlyWorker(s, s', i) && At(s', i, n.pc, n.task) && s'.workers[i].w == n
            && s'.rec == (if W.Action(w).Save? then Some(Written(W.Action(w).task, r.at)) else s.rec)
            && UpgradesIn(s'.workers[i].log) ==
                 UpgradesIn(s.workers[i].log) + if W.Action(w) == RunBrew(Upgrade) then 1 else 0
  {
    KeepsLock(w, r);
    UpgradesStep(s.workers[i].log, Event(W.Action(w), r));
  }

  /** One step of the last worker, which keeps the lock. */
  lemma WorkOn(env: Env, prefix: string, g: Task, now: Time, run: seq<Step>, i: nat, w: W.Worker, r: Reply)
    returns (run': seq<Step>)
    requires !w.pc.Exited? && !w.pc.Unlocking? && !w.pc.Locking?
    requires Possible(env, prefix, g, now, run)
    requires var s := After(env, prefix, g, now, run);
             |s.workers| == i + 1 && At(s, i, w.pc, w.task) && s.workers[i].w == w && Answers(s, W.Action(w), r)
    ensures Possible(env, prefix, g, now, run')
    ensures var (s, s', n) := (After(env, prefix, g, now, run), After(env, prefix, g, now, run'), W.Next(w, r));
            && OnlyWorker(s, s', i) && At(s', i, n.pc, n.task) && s'.workers[i].w == n
            && s'.rec == (if W.Action(w).Save? then Some(Written(W.Action(w).task, r.at)) else s.rec)
            && UpgradesIn(s'.workers[i].log) ==
                 UpgradesIn(s.workers[i].log) + if W.Action(w) == RunBrew(Upgrade) then 1 else 0
  {
    run' := Extend(env, prefix, g, now, run, Work(i, r));
    WorkFacts(After(env, prefix, g, now, run), i, w, r);
  }

  /** The only submit, alive, at a control point with a copy of the record. */
  predicate Submitting(s: Sys, req: S.Request, pc: S.Pc, t: Task) {
    && s.submits == [SubmitProc(S.Submitter(pc, req, t), true)]
    && s.lock == Some(BySubmit(0)) && s.rec.Some? && s.workers == [] && s.recons == []
  }

  /** One step of that submit while it keeps the lock. */
  lemma SubmitOn(env: Env, prefix: string, g: Task, now: Time, run: seq<Step>, s: S.Submitter, r: Reply)
    returns (run': seq<Step>)
    requires Possible(env, prefix, g, now, run) && Submitting(After(env, prefix, g, now, run), s.req, s.pc, s.task)
    requires !s.pc.Locking? && !s.pc.Unlocking? && !s.pc.Exited?
    requires Answers(After(env, prefix, g, now, run), S.Action(s), r)
    ensures Possible(env, prefix, g, now, run')
    ensures var (s0, s', n) := (After(env, prefix, g, now, run), After(env, prefix, g, now, run'), S.Next(s, r));
            && Submitting(s', n.req, n.pc, n.task) && s'.clock == s0.clock
            && s'.bootstraps == s0.bootstraps + (if S.Action(s).Bootstrap? then 1 else 0)
            && s'.rec == if S.Action(s).Save? then Some(Written(S.Action(s).task, r.at)) else s0.rec
  {
    run' := Extend(env, prefix, g, now, run, Submit(0, r));
  }

  lemma SubmitLocks(env: Env, prefix: string, g: Task, now: Time, req: S.Request) returns (run: seq<Step>)
    requires req.confirm
    ensures Possible(env, prefix, g, now, run)
    ensures Submitting(After(env, prefix, g, now, run), req, S.Loading, ZERO_TASK)
    ensures After(env, prefix, g, now, run).clock == now && After(env, prefix, g, now, run).rec == Some(g)
    ensures After(env, prefix, g, now, run).bootstraps == 0
  {
    run := Extend(env, prefix, g, now, [], Arrive(req));
    run := Extend(env, prefix, g, now, run, Submit(0, LockR(Acquired)));
  }

  /** A submit accepts the record: queued is on disk before anything is launched. */
  lemma SubmitAccepts(env: Env, prefix: string, g: Task, now: Time, req: S.Request) returns (run: seq<Step>)
    requires Genesis(g) && now <= g.expiry
    requires req.confirm && req.initiator == g.initiator && Sha256(req.credential) == g.credential
    ensures Possible(env, prefix, g, now, run)
    ensures Submitting(After(env, prefix, g, now, run), req, S.Preparing, Written(S.Accepted(g, req.credential), now))
    ensures After(env, prefix, g, now, run).clock == now && After(env, prefix, g, now, run).bootstraps == 0
  {
    run := SubmitLocks(env, prefix, g, now, req);
    run := SubmitOn(env, prefix, g, now, run, S.Submitter(S.Loading, req, ZERO_TASK), LoadR(Loaded(g)));
    run := SubmitOn(env, prefix, g, now, run, S.Submitter(S.ReadingClock, req, g), ClockR(false, now));
    run := SubmitOn(env, prefix, g, now, run, S.Submitter(S.SavingQueued, req, g), SavedR(now));
  }

  lemma SubmitPrepares(env: Env, prefix: string, g: Task, now: Time, run: seq<Step>, req: S.Request, q: Task)
    returns (run': seq<Step>)
    requires Possible(env, prefix, g, now, run)
    requires Submitting(After(env, prefix, g, now, run), req, S.Preparing, q)
    ensures Possible(env, prefix, g, now, run')
    ensures var (s, s') := (After(env, prefix, g, now, run), After(env, prefix, g, now, run'));
            && Submitting(s', req, S.Bootstrapping, q.(launchAttempt := q.launchAttempt + 1)) && s'.clock == s.clock
            && s'.bootstraps == s.bootstraps
  {
    run' := SubmitOn(env, prefix, g, now, run, S.Submitter(S.Preparing, req, q), OkR(true));
  }

  /** Its bootstrap outcome is unknown. */
  lemma SubmitBootstraps(env: Env, prefix: string, g: Task, now: Time, run: seq<Step>, req: S.Request, t: Task)
    returns (run': seq<Step>)
    requires Possible(env, prefix, g, now, run)
    requires Submitting(After(env, prefix, g, now, run), req, S.Bootstrapping, t)
    ensures Possible(env, prefix, g, now, run')
    ensures var (s, s') := (After(env, prefix, g, now, run), After(env, prefix, g, now, run'));
            && Submitting(s', req, S.SavingUnknown, t.(launchUnknown := true)) && s'.clock == s.clock
            && s'.bootstraps == s.bootstraps + 1
  {
    run' := SubmitOn(env, prefix, g, now, run, S.Submitter(S.Bootstrapping, req, t), CmdR(CmdReply.Unknown));
  }

  /** It dies between the two saves that follow. */
  lemma SubmitDies(env: Env, prefix: string, g: Task, now: Time, run: seq<Step>, req: S.Request, q: Task)
    returns (run': seq<Step>)
    requires env.submitDiesUnknown
    requires Possible(env, prefix, g, now, run)
    requires Submitting(After(env, prefix, g, now, run), req, S.SavingUnknown, q)
    ensures Possible(env, prefix, g, now, run')
    ensures var (s, s') := (After(env, prefix, g, now, run), After(env, prefix, g, now, run'));
            && s'.rec == Some(Written(q, s.clock)) && s'.bootstraps == s.bootstraps
            && s'.lock.None? && s'.workers == [] && s'.recons == [] && s'.clock == s.clock
  {
    var at := After(env, prefix, g, now, run).clock;
    run' := SubmitOn(env, prefix, g, now, run, S.Submitter(S.SavingUnknown, req, q), SavedR(at));
    run' := SubmitKilled(env, prefix, g, now, run', req, S.SavingAttention, Written(q, at));
  }

  lemma SubmitKilled(env: Env, prefix: string, g: Task, now: Time, run: seq<Step>, req: S.Request, pc: S.Pc, t: Task)
    returns (run': seq<Step>)
    requires env.submitDiesUnknown
    requires Possible(env, prefix, g, now, run)
    requires Submitting(After(env, prefix, g, now, run), req, pc, t)
    ensures Possible(env, prefix, g, now, run')
    ensures var (s, s') := (After(env, prefix, g, now, run), After(env, prefix, g, now, run'));
            && s'.rec == s.rec && s'.bootstraps == s.bootstraps && s'.clock == s.clock
            && s'.lock.None? && s'.workers == [] && s'.recons == []
  {
    run' := Extend(env, prefix, g, now, run, KillSubmit(0));
  }

  predicate MayStart(env: Env, s: Sys) { env.restarts || |s.workers| < s.bootstraps }

  /** A worker starts and takes the free lock. */
  lemma WorkerStarts(env: Env, prefix: string, g: Task, now: Time, run: seq<Step>, pid: nat) returns (run': seq<Step>)
    requires Possible(env, prefix, g, now, run)
    requires var s := After(env, prefix, g, now, run); s.lock.None? && s.rec.Some? && MayStart(env, s)
    ensures Possible(env, prefix, g, now, run')
    ensures var (s, s') := (After(env, prefix, g, now, run), After(env, prefix, g, now, run'));
            && OnlyWorker(s, s', |s.workers|) && s'.rec == s.rec
            && At(s', |s.workers|, W.Loading, ZERO_TASK)
            && s'.workers[|s.workers|].w == W.Worker(W.Loading, pid, prefix, ZERO_TASK, true)
            && UpgradesIn(s'.workers[|s.workers|].log) == 0
  {
    var i := |After(env, prefix, g, now, run).workers|;
    run' := Extend(env, prefix, g, now, run, StartWorker(pid));
    run' := Extend(env, prefix, g, now, run', Work(i, LockR(Acquired)));
    UpgradesStep([], Event(TryLock, LockR(Acquired)));
    assert After(env, prefix, g, now, run').workers[i].log == [] + [Event(TryLock, LockR(Acquired))];
  }

  /** It loads the queued record. */
  lemma WorkerLoads(env: Env, prefix: string, g: Task, now: Time, run: seq<Step>, pid: nat) returns (run': seq<Step>)
    requires Possible(env, prefix, g, now, run)
    requires var s := After(env, prefix, g, now, run);
             s.lock.None? && s.rec.Some? && s.rec.value.state.Queued? && MayStart(env, s)
    ensures Possible(env, prefix, g, now, run')
    ensures var (s, s') := (After(env, prefix, g, now, run), After(env, prefix, g, now, run'));
            && OnlyWorker(s, s', |s.workers|) && s'.rec == s.rec
            && At(s', |s.workers|, W.WritingReady, s.rec.value.(workerPid := pid))
            && UpgradesIn(s'.workers[|s.workers|].log) == 0
  {
    var s := After(env, prefix, g, now, run);
    run' := WorkerStarts(env, prefix, g, now, run, pid);
    run' := WorkOn(env, prefix, g, now, run', |s.workers|, W.Worker(W.Loading, pid, prefix, ZERO_TASK, true),
                   LoadR(Loaded(s.rec.value)));
  }

  /** It writes the heartbeat, and the record, still queued, now names its PID. */
  lemma WorkerReports(env: Env, prefix: string, g: Task, now: Time, run: seq<Step>, i: nat, t: Task)
    returns (run': seq<Step>)
    requires Possible(env, prefix, g, now, run)
    requires var s := After(env, prefix, g, now, run); |s.workers| == i + 1 && At(s, i, W.WritingReady, t)
    ensures Possible(env, prefix, g, now, run')
    ensures var (s, s') := (After(env, prefix, g, now, run), After(env, prefix, g, now, run'));
            && OnlyWorker(s, s', i) && s'.rec == Some(Written(t, s.clock))
            && At(s', i, W.SavingDownloading, Written(t, s.clock))
            && UpgradesIn(s'.workers[i].log) == UpgradesIn(s.workers[i].log)
  {
    var s := After(env, prefix, g, now, run);
    var w := s.workers[i].w;
    run' := WorkOn(env, prefix, g, now, run, i, w, OkR(true));
    run' := WorkOn(env, prefix, g, now, run', i, w.(pc := W.SavingReady), SavedR(s.clock));
  }

  /** It saves that it has begun, and reads the confirmed bytes. */
  lemma WorkerBegins(env: Env, prefix: string, g: Task, now: Time, run: seq<Step>, i: nat, t: Task, body: Bytes)
    returns (run': seq<Step>)
    requires Possible(env, prefix, g, now, run)
    requires var s := After(env, prefix, g, now, run); |s.workers| == i + 1 && At(s, i, W.SavingDownloading, t)
    requires t.formula == Sha256(body)
    ensures Possible(env, prefix, g, now, run')
    ensures var (s, s') := (After(env, prefix, g, now, run), After(env, prefix, g, now, run'));
            && OnlyWorker(s, s', i) && At(s', i, W.WritingTap(body), s'.workers[i].w.task)
            && s'.workers[i].w.task.formula == t.formula
            && UpgradesIn(s'.workers[i].log) == UpgradesIn(s.workers[i].log)
  {
    var s := After(env, prefix, g, now, run);
    var w := s.workers[i].w;
    run' := WorkOn(env, prefix, g, now, run, i, w, SavedR(s.clock));
    run' := WorkOn(env, prefix, g, now, run', i, W.Next(w, SavedR(s.clock)), BytesR(Some(body)));
  }

  /** It stages them. */
  lemma WorkerStages(env: Env, prefix: string, g: Task, now: Time, run: seq<Step>, i: nat, t: Task, body: Bytes)
    returns (run': seq<Step>)
    requires Possible(env, prefix, g, now, run)
    requires var s := After(env, prefix, g, now, run); |s.workers| == i + 1 && At(s, i, W.SavingDownloading, t)
    requires t.formula == Sha256(body)
    ensures Possible(env, prefix, g, now, run')
    ensures var (s, s') := (After(env, prefix, g, now, run), After(env, prefix, g, now, run'));
            && OnlyWorker(s, s', i) && At(s', i, W.SavingInstalling, s'.workers[i].w.task)
            && UpgradesIn(s'.workers[i].log) == UpgradesIn(s.workers[i].log)
  {
    run' := WorkerBegins(env, prefix, g, now, run, i, t, body);
    var w := After(env, prefix, g, now, run').workers[i].w;
    run' := WorkOn(env, prefix, g, now, run', i, w, OkR(true));
    run' := WorkOn(env, prefix, g, now, run', i, w.(pc := W.ReadingTap), BytesR(Some(body)));
  }

  /** It runs `brew upgrade` and learns nothing about the outcome. */
  lemma WorkerUpgrades(env: Env, prefix: string, g: Task, now: Time, run: seq<Step>, i: nat, t: Task)
    returns (run': seq<Step>)
    requires Possible(env, prefix, g, now, run)
    requires var s := After(env, prefix, g, now, run); |s.workers| == i + 1 && At(s, i, W.SavingInstalling, t)
    ensures Possible(env, prefix, g, now, run')
    ensures var (s, s') := (After(env, prefix, g, now, run), After(env, prefix, g, now, run'));
            && OnlyWorker(s, s', i) && At(s', i, W.Reloading(UpgradeStage), s'.workers[i].w.task)
            && UpgradesIn(s'.workers[i].log) == UpgradesIn(s.workers[i].log) + 1
  {
    var s := After(env, prefix, g, now, run);
    var w := s.workers[i].w;
    run' := WorkOn(env, prefix, g, now, run, i, w, SavedR(s.clock));
    run' := WorkOn(env, prefix, g, now, run', i, W.Next(w, SavedR(s.clock)), CmdR(CmdReply.Unknown));
  }

  /** It dies, which frees the lock. */
  lemma WorkerDies(env: Env, prefix: string, g: Task, now: Time, run: seq<Step>, i: nat, pc: W.Pc, t: Task)
    returns (run': seq<Step>)
    requires Possible(env, prefix, g, now, run)
    requires var s := After(env, prefix, g, now, run); |s.workers| == i + 1 && At(s, i, pc, t)
    ensures Possible(env, prefix, g, now, run')
    ensures var (s, s') := (After(env, prefix, g, now, run), After(env, prefix, g, now, run'));
            && OnlyWorker(s, s', i) && s'.lock.None? && s'.rec == s.rec && s'.workers[i].log == s.workers[i].log
  {
    run' := Extend(env, prefix, g, now, run, KillWorker(i));
  }

  /** The record as the branch at fault needs it: queued, an unknown launch, a worker that reported in. */
  predicate Exposed(t: Task) { t.state.Queued? && t.launchUnknown && t.workerPid != 0 }

  lemma ReconcilerLists(env: Env, prefix: string, g: Task, now: Time, run: seq<Step>) returns (run': seq<Step>)
    requires Possible(env, prefix, g, now, run)
    requires var s := After(env, prefix, g, now, run); s.recons == [] && s.rec.Some?
    ensures Possible(env, prefix, g, now, run')
    ensures var (s, s') := (After(env, prefix, g, now, run), After(env, prefix, g, now, run'));
            s' == s.(recons := [C.Reconciler(C.ReadingClock, s.rec.value)])
  {
    var s := After(env, prefix, g, now, run);
    run' := Extend(env, prefix, g, now, run, StartReconcile);
    run' := Extend(env, prefix, g, now, run', Reconcile(0, LoadR(Loaded(s.rec.value))));
  }

  lemma ReconcilerTimes(env: Env, prefix: string, g: Task, now: Time, run: seq<Step>, t: Task) returns (run': seq<Step>)
    requires Possible(env, prefix, g, now, run) && Exposed(t)
    requires After(env, prefix, g, now, run).recons == [C.Reconciler(C.ReadingClock, t)]
    ensures Possible(env, prefix, g, now, run')
    ensures var (s, s') := (After(env, prefix, g, now, run), After(env, prefix, g, now, run'));
            s' == s.(recons := [C.Reconciler(C.Probing(s.clock), t)])
  {
    run' := Extend(env, prefix, g, now, run, Reconcile(0, ClockR(false, After(env, prefix, g, now, run).clock)));
  }

  lemma ReconcilerProbes(env: Env, prefix: string, g: Task, now: Time, run: seq<Step>, at: Time, t: Task)
    returns (run': seq<Step>)
    requires Possible(env, prefix, g, now, run) && Exposed(t)
    requires After(env, prefix, g, now, run).recons == [C.Reconciler(C.Probing(at), t)]
    ensures Possible(env, prefix, g, now, run')
    ensures var (s, s') := (After(env, prefix, g, now, run), After(env, prefix, g, now, run'));
            s' == s.(recons := [C.Reconciler(C.Saving(t.(launchUnknown := false)), t)])
  {
    run' := Extend(env, prefix, g, now, run, Reconcile(0, OkR(true)));
  }

  /** An unlocked reconciler that has read the record in that state is about to save it back as queued. */
  lemma ReconcilerReads(env: Env, prefix: string, g: Task, now: Time, run: seq<Step>) returns (run': seq<Step>)
    requires Possible(env, prefix, g, now, run)
    requires var s := After(env, prefix, g, now, run); s.recons == [] && s.rec.Some? && Exposed(s.rec.value)
    ensures Possible(env, prefix, g, now, run')
    ensures var (s, s') := (After(env, prefix, g, now, run), After(env, prefix, g, now, run'));
            && s' == s.(recons := s'.recons) && |s'.recons| == 1
            && s'.recons[0].pc == C.Saving(s.rec.value.(launchUnknown := false))
  {
    var s := After(env, prefix, g, now, run);
    run' := ReconcilerLists(env, prefix, g, now, run);
    run' := ReconcilerTimes(env, prefix, g, now, run', s.rec.value);
    run' := ReconcilerProbes(env, prefix, g, now, run', s.clock, s.rec.value);
  }

  /** A submit is accepted, launches with an unknown outcome, and dies before it can say so. */
  lemma SubmitAbandons(env: Env, prefix: string, g: Task, now: Time, req: S.Request) returns (run: seq<Step>)
    requires env.submitDiesUnknown && Genesis(g) && now <= g.expiry
    requires req.confirm && req.initiator == g.initiator && Sha256(req.credential) == g.credential
    ensures Possible(env, prefix, g, now, run)
    ensures var s := After(env, prefix, g, now, run);
            && s.lock.None? && s.workers == [] && s.recons == [] && s.bootstraps == 1
            && s.rec.Some? && s.rec.value.state.Queued? && s.rec.value.launchUnknown && s.rec.value.formula == g.formula
  {
    run := SubmitAccepts(env, prefix, g, now, req);
    var q := Written(S.Accepted(g, req.credential), now);
    run := SubmitPrepares(env, prefix, g, now, run, req, q);
    var tried := q.(launchAttempt := q.launchAttempt + 1);
    run := SubmitBootstraps(env, prefix, g, now, run, req, tried);
    run := SubmitDies(env, prefix, g, now, run, req, tried.(launchUnknown := true));
  }

  /** The whole run. A reconciler that read the record between the worker's heartbeat and its first
      stage puts it back to queued after the worker has upgraded and died; a restarted worker then
      upgrades again. */
  lemma TwoUpgrades(env: Env, prefix: string, g: Task, now: Time, req: S.Request) returns (run: seq<Step>)
    requires env.submitDiesUnknown && env.restarts
    requires Genesis(g) && now <= g.expiry
    requires req.confirm && req.initiator == g.initiator && Sha256(req.credential) == g.credential
    ensures Possible(env, prefix, g, now, run)
    ensures TotalUpgrades(After(env, prefix, g, now, run).workers) == 2
  {
    var body := g.formula.preimage;
    run := SubmitAbandons(env, prefix, g, now, req);
    run := FirstWorker(env, prefix, g, now, run, body);
    run := ReconcilerSaves(env, prefix, g, now, run);
    var first := After(env, prefix, g, now, run).workers;
    run := SecondWorker(env, prefix, g, now, run, body);
    assert first[..0] == [];
    assert TotalUpgrades(first) == UpgradesIn(first[0].log);
  }

  lemma WorkerFinishes(env: Env, prefix: string, g: Task, now: Time, run: seq<Step>, i: nat, t: Task, body: Bytes)
    returns (run': seq<Step>)
    requires Possible(env, prefix, g, now, run)
    requires var s := After(env, prefix, g, now, run); |s.workers| == i + 1 && At(s, i, W.SavingDownloading, t)
    requires t.formula == Sha256(body)
    ensures Possible(env, prefix, g, now, run')
    ensures var (s, s') := (After(env, prefix, g, now, run), After(env, prefix, g, now, run'));
            && OnlyWorker(s, s', i) && s'.lock.None? && s'.rec.Some?
            && UpgradesIn(s'.workers[i].log) == UpgradesIn(s.workers[i].log) + 1
  {
    run' := WorkerStages(env, prefix, g, now, run, i, t, body);
    run' := WorkerUpgrades(env, prefix, g, now, run', i, After(env, prefix, g, now, run').workers[i].w.task);
    var task := After(env, prefix, g, now, run').workers[i].w.task;
    run' := WorkerDies(env, prefix, g, now, run', i, W.Reloading(UpgradeStage), task);
  }

  lemma FirstWorker(env: Env, prefix: string, g: Task, now: Time, run: seq<Step>, body: Bytes) returns (run': seq<Step>)
    requires Possible(env, prefix, g, now, run)
    requires var s := After(env, prefix, g, now, run);
             && s.lock.None? && s.workers == [] && s.recons == [] && MayStart(env, s)
             && s.rec.Some? && s.rec.value.state.Queued? && s.rec.value.launchUnknown
             && s.rec.value.formula == Sha256(body)
    ensures Possible(env, prefix, g, now, run')
    ensures var s' := After(env, prefix, g, now, run');
            && s'.lock.None? && s'.rec.Some? && |s'.workers| == 1 && UpgradesIn(s'.workers[0].log) == 1
            && |s'.recons| == 1 && s'.recons[0].pc.Saving? && s'.recons[0].pc.task.state.Queued?
            && s'.recons[0].pc.task.formula == Sha256(body)
  {
    var q := After(env, prefix, g, now, run).rec.value;
    run' := WorkerLoads(env, prefix, g, now, run, 7);
    run' := WorkerReports(env, prefix, g, now, run', 0, q.(workerPid := 7));
    var t := After(env, prefix, g, now, run').rec.value;
    run' := ReconcilerReads(env, prefix, g, now, run');
    run' := WorkerFinishes(env, prefix, g, now, run', 0, t, body);
  }

  /** The stale save puts the record back to queued. */
  lemma ReconcilerSaves(env: Env, prefix: string, g: Task, now: Time, run: seq<Step>) returns (run': seq<Step>)
    requires Possible(env, prefix, g, now, run)
    requires var s := After(env, prefix, g, now, run);
             s.rec.Some? && |s.recons| == 1 && s.recons[0].pc.Saving? && s.recons[0].pc.task.state.Queued?
    ensures Possible(env, prefix, g, now, run')
    ensures var (s, s') := (After(env, prefix, g, now, run), After(env, prefix, g, now, run'));
            && s'.rec == Some(Written(s.recons[0].pc.task, s.clock))
            && s'.workers == s.workers && s'.lock == s.lock && s'.clock == s.clock
  {
    run' := Extend(env, prefix, g, now, run, Reconcile(0, SavedR(After(env, prefix, g, now, run).clock)));
  }

  lemma SecondWorker(env: Env, prefix: string, g: Task, now: Time, run: seq<Step>, body: Bytes)
    returns (run': seq<Step>)
    requires Possible(env, prefix, g, now, run)
    requires var s := After(env, prefix, g, now, run);
             && s.lock.None? && |s.workers| == 1 && env.restarts
             && s.rec.Some? && s.rec.value.state.Queued? && s.rec.value.formula == Sha256(body)
    ensures Possible(env, prefix, g, now, run')
    ensures var (s, s') := (After(env, prefix, g, now, run), After(env, prefix, g, now, run'));
            && |s'.workers| == 2 && s'.workers[..1] == s.workers && UpgradesIn(s'.workers[1].log) == 1
  {
    var s := After(env, prefix, g, now, run);
    run' := WorkerLoads(env, prefix, g, now, run, 8);
    var s1 := After(env, prefix, g, now, run');
    run' := WorkerReports(env, prefix, g, now, run', 1, s.rec.value.(workerPid := 8));
    var s2 := After(env, prefix, g, now, run');
    run' := WorkerFinishes(env, prefix, g, now, run', 1, s2.rec.value, body);
    assert s1.workers[..1] == s.workers[..1] == s.workers;
  }

  /** At most one `brew upgrade` per task, exactly when the environment lacks one of the two faults:
      a submit dying between its two launch saves, or a second start of the worker. */
  lemma UpgradeAtMostOnceIff(env: Env, prefix: string, g: Task, now: Time, secret: string)
    requires Genesis(g) && now <= g.expiry && g.credential == Sha256(secret)
    ensures (forall run | Possible(env, prefix, g, now, run) ::
               TotalUpgrades(After(env, prefix, g, now, run).workers) <= 1)
            <==> !(env.submitDiesUnknown && env.restarts)
  {
    if env.submitDiesUnknown && env.restarts {
      var run := TwoUpgrades(env, prefix, g, now, S.Request(true, g.initiator, secret));
    } else {
      forall run | Possible(env, prefix, g, now, run)
        ensures TotalUpgrades(After(env, prefix, g, now, run).workers) <= 1
      {
        UpgradeAtMostOnce(env, prefix, g, now, run);
      }
    }
  }

  /** A queued record with an unknown launch and a worker that has reported in, the one state from
      which a pass writes queued, is unreachable exactly when no submit dies between its launch saves. */
  lemma ExposedUnreachableIff(env: Env, prefix: string, g: Task, now: Time, secret: string)
    requires Genesis(g) && now <= g.expiry && g.credential == Sha256(secret)
    ensures (forall run | Possible(env, prefix, g, now, run) ::
               var rec := After(env, prefix, g, now, run).rec; rec.None? || !Exposed(rec.value))
            <==> !env.submitDiesUnknown
  {
    if env.submitDiesUnknown {
      var run := SubmitAbandons(env, prefix, g, now, S.Request(true, g.initiator, secret));
      var q := After(env, prefix, g, now, run).rec.value;
      run := WorkerLoads(env, prefix, g, now, run, 7);
      run := WorkerReports(env, prefix, g, now, run, 0, q.(workerPid := 7));
      assert Exposed(After(env, prefix, g, now, run).rec.value);
    } else {
      forall run | Possible(env, prefix, g, now, run)
        ensures var rec := After(env, prefix, g, now, run).rec; rec.None? || !Exposed(rec.value)
      {
        QueuedIsFresh(env, prefix, g, now, run);
      }
    }
  }
}
