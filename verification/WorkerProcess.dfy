/** The worker as the source runs it: straight-line stages, each saved before its external action. */
module WorkerProcess {
  import opened UpgradeTask
  import opened Effects
  import opened WorkerAutomaton
  import O = WorkerOutcome

  /** How long an action may take; None for file work, the lock and the final bootout. */
  function Limit(a: Act): Option<nat> {
    match a
    case RunBrew(Upgrade) => Some(600 * SECOND)
    case RunBrew(Stop) => Some(90 * SECOND)
    case RunBrew(Start) => Some(120 * SECOND)
    case ListPid => Some(10 * SECOND)
    case GetHealth(_) => Some(3 * SECOND)
    case Sleep => Some(POLL_EVERY)
    case ReadClock => Some(0)
    case _ => None
  }

  const STAGE_BUDGET: int := (600 + 10 + 90 + 120 + 180 + 15) * SECOND

  function SomeReply(a: Act): (r: Reply)
    ensures Fits(a, r)
  {
    match a
    case TryLock => LockR(Busy)
    case Load => LoadR(Missing)
    case Save(_) => SavedR(0)
    case ReadSnapshot => BytesR(None)
    case ReadTap => BytesR(None)
    case RunBrew(_) => CmdR(CmdReply.Unknown)
    case Bootstrap => CmdR(CmdReply.Unknown)
    case ListPid => ListR(ListError)
    case ReadClock => ClockR(false, 0)
    case GetHealth(_) => HealthR(Health.Unreachable)
    case WriteReady(_) => OkR(false)
    case WriteTap(_) => OkR(false)
    case PrepareFiles => OkR(false)
    case Probe => OkR(false)
    case Bootout => OkR(false)
    case AppendIndex(_) => OkR(false)
    case _ => AckR
  }

  class Process {
    const pid: nat
    const prefix: string
    var log: seq<Event>
    var clock: Time
    var fileTime: nat  // time spent so far in actions without a timeout

    constructor (pid: nat, prefix: string, now: Time)
      ensures this.pid == pid && this.prefix == prefix && log == [] && clock == now && fileTime == 0
    {
      this.pid, this.prefix, log, clock, fileTime := pid, prefix, [], now, 0;
    }

    /** The automaton state this process is in. */
    ghost predicate At(w: Worker)
      reads this
    {
      Valid(Launched(pid, prefix), log) && Play(Launched(pid, prefix), log) == w
    }

    /** Performs the pending action. The world chooses the reply and the time it takes, within the
        action's timeout; a Save and a clock reading report the clock. */
    method Perform(a: Act, ghost w: Worker) returns (r: Reply)
      requires At(w) && !w.pc.Exited? && a == Action(w)
      modifies this
      ensures log == old(log) + [Event(a, r)] && Fits(a, r) && At(Next(w, r))
      ensures a.ReadClock? ==> r.now == clock
      ensures a.Save? ==> r.at == clock
      ensures Limit(a).None? ==> clock - old(clock) == fileTime - old(fileTime) && clock >= old(clock)
      ensures Limit(a).Some? ==>
                old(clock) <= clock <= old(clock) + Limit(a).value && fileTime == old(fileTime)
      ensures a.Sleep? ==> clock == old(clock) + POLL_EVERY
    {
      var spent: nat :| true;
      var any: Reply := *;
      if Limit(a).Some? && (a.Sleep? || spent > Limit(a).value) {
        spent := Limit(a).value;
      }
      clock := clock + spent;
      if Limit(a).None? {
        fileTime := fileTime + spent;
      }
      r := if Fits(a, any) then any else SomeReply(a);
      if a.ReadClock? {
        r := r.(now := clock);
      } else if a.Save? {
        r := SavedR(clock);
      }
      PlayStep(Launched(pid, prefix), log, r);
      log := log + [Event(a, r)];
    }

    /** Persists the record and stamps the in-memory copy with the store clock. */
    method SaveTask(task: Task, ghost w: Worker) returns (saved: Task)
      requires At(w) && !w.pc.Exited? && Action(w) == Save(task)
      modifies this
      ensures saved == Written(task, clock) && At(Next(w, SavedR(clock)))
      ensures clock - old(clock) == fileTime - old(fileTime) >= 0
    {
      var r := Perform(Save(task), w);
      saved := Written(task, r.at);
    }

    /** The deferred release of the lock, if it was taken. */
    method Finish(locked: bool, ghost w: Worker)
      requires At(w) && w.pc == (if locked then Unlocking else Exited)
      modifies this
      ensures Ended()
      ensures clock - old(clock) == fileTime - old(fileTime) >= 0
    {
      if locked {
        var r := Perform(Unlock, w);
      }
    }

    ghost predicate Ended()
      reads this
    {
      exists w :: At(w) && w.pc.Exited?
    }

    /** Records an uncertain outcome on a freshly loaded record; a missing record stays missing. */
    method RecordUnknown(stage: Stage, locked: bool, ghost w: Worker)
      requires At(w) && w.pc == Reloading(stage) && w.locked == locked
      modifies this
      ensures Ended()
      ensures clock - old(clock) == fileTime - old(fileTime) >= 0
    {
      var loaded := Perform(Load, w);
      if loaded.load.Loaded? {
        SaveUnknown(loaded.load.task, stage, locked, w.(task := loaded.load.task, pc := SavingUnknown(stage)));
      } else {
        Finish(locked, Next(w, loaded));
      }
    }

    method SaveUnknown(task: Task, stage: Stage, locked: bool, ghost w: Worker)
      requires At(w) && w.pc == SavingUnknown(stage) && w.task == task && w.locked == locked
      modifies this
      ensures Ended()
      ensures clock - old(clock) == fileTime - old(fileTime) >= 0
    {
      var saved := SaveTask(task.(state := NeedsAttention, failureStage := stage,
                                  errorKind := OutcomeUnknown, phase := NoPhase), w);
      Finish(locked, Next(w, SavedR(clock)));
    }

    /** Records a provably ended failure. */
    method RecordFailure(task: Task, stage: Stage, kind: ErrorKind, ghost w: Worker)
      requires At(w) && w.pc == SavingFailed(stage, kind) && w.task == task && w.locked
      modifies this
      ensures Ended()
      ensures clock - old(clock) == fileTime - old(fileTime) >= 0
    {
      var saved := SaveTask(task.(state := Failed, failureStage := stage, errorKind := kind,
                                  phase := NoPhase), w);
      Finish(true, Next(w, SavedR(clock)));
    }

    /** Reports in: the heartbeat file and record, then the first stage. */
    method ReportIn(accepted: Task, ghost w: Worker) returns (ok: bool, task: Task)
      requires At(w) && w.pc.WritingReady? && w.task == accepted && w.pid == pid
      modifies this
      ensures At(w.(task := task, pc := if ok then ReadingSnapshot else Reloading(ReadyStage)))
      ensures clock - old(clock) == fileTime - old(fileTime) >= 0
    {
      task := accepted;
      var ready := Perform(WriteReady(pid), w);
      if !ready.ok {
        return false, task;
      }
      task := SaveTask(task, w.(pc := SavingReady));
      task := SaveTask(task.(state := Downloading, phase := TapSnapshot),
                       w.(task := task, pc := SavingDownloading));
      return true, task;
    }

    /** Copies the confirmed bytes into the tap and reads them back. */
    method StageSnapshot(task: Task, ghost w: Worker) returns (ok: bool)
      requires At(w) && w.pc.ReadingSnapshot? && w.task == task
      modifies this
      ensures At(w.(pc := if ok then SavingInstalling else SavingFailed(SnapshotStage, SnapshotFailed)))
      ensures clock - old(clock) == fileTime - old(fileTime) >= 0
    {
      var body := Perform(ReadSnapshot, w);
      if body.bytes.None? || Sha256(body.bytes.value) != task.formula {
        return false;
      }
      ok := WriteAndReadBack(body.bytes.value, task, w.(pc := WritingTap(body.bytes.value)));
    }

    method WriteAndReadBack(body: Bytes, task: Task, ghost w: Worker) returns (ok: bool)
      requires At(w) && w.pc == WritingTap(body) && w.task == task
      modifies this
      ensures At(w.(pc := if ok then SavingInstalling else SavingFailed(SnapshotStage, SnapshotFailed)))
      ensures clock - old(clock) == fileTime - old(fileTime) >= 0
    {
      var written := Perform(WriteTap(body), w);
      if !written.ok {
        return false;
      }
      var onDisk := Perform(ReadTap, w.(pc := ReadingTap));
      ok := onDisk.bytes.Some? && Sha256(onDisk.bytes.value) == task.formula;
    }

    /** The install stage: `brew upgrade` with the fixed snapshot path. */
    method Install(staged: Task, ghost w: Worker) returns (reply: CmdReply, task: Task)
      requires At(w) && w.pc.SavingInstalling? && w.task == staged
      modifies this
      ensures At(w.(task := task, pc := if reply.Done? then SavingRestarting
                                        else if reply.Unknown? then Reloading(UpgradeStage)
                                        else SavingFailed(UpgradeStage, BrewUpgradeFailed)))
      ensures 0 <= clock - old(clock) <= 600 * SECOND + (fileTime - old(fileTime))
    {
      task := SaveTask(staged.(state := Installing, phase := BrewUpgrade), w);
      reply := RunUpgrade(w.(task := task, pc := Upgrading));
    }

    method RunUpgrade(ghost w: Worker) returns (reply: CmdReply)
      requires At(w) && w.pc.Upgrading?
      modifies this
      ensures At(w.(pc := if reply.Done? then SavingRestarting
                          else if reply.Unknown? then Reloading(UpgradeStage)
                          else SavingFailed(UpgradeStage, BrewUpgradeFailed)))
      ensures 0 <= clock - old(clock) <= 600 * SECOND && fileTime == old(fileTime)
    {
      var upgraded := Perform(RunBrew(Upgrade), w);
      reply := upgraded.cmd;
    }

    /** Captures the PID of the running service, if any. */
    method CapturePid(upgraded: Task, ghost w: Worker) returns (ok: bool, task: Task)
      requires At(w) && w.pc.SavingRestarting? && w.task == upgraded
      modifies this
      ensures At(w.(task := task, pc := if ok then SavingStop else Reloading(PidStage)))
      ensures 0 <= clock - old(clock) <= 10 * SECOND + (fileTime - old(fileTime))
    {
      task := SaveTask(upgraded.(state := Restarting, phase := ServicePid), w);
      ok, task := AskPid(task, w.(task := task, pc := CapturingPid));
    }

    method AskPid(saved: Task, ghost w: Worker) returns (ok: bool, task: Task)
      requires At(w) && w.pc.CapturingPid? && w.task == saved
      modifies this
      ensures At(w.(task := task, pc := if ok then SavingStop else Reloading(PidStage)))
      ensures 0 <= clock - old(clock) <= 10 * SECOND && fileTime == old(fileTime)
    {
      task := saved;
      var listed := Perform(ListPid, w);
      if listed.list.Running? {
        task := task.(servicePid := listed.list.pid);
      }
      ok := !listed.list.ListError?;
    }

    /** Stops the service. */
    method StopService(captured: Task, ghost w: Worker) returns (ok: bool, task: Task)
      requires At(w) && w.pc.SavingStop? && w.task == captured
      modifies this
      ensures At(w.(task := task, pc := if ok then SavingStart else Reloading(StopStage)))
      ensures 0 <= clock - old(clock) <= 90 * SECOND + (fileTime - old(fileTime))
    {
      task := SaveTask(captured.(phase := ServiceStop), w);
      ok := RunStop(w.(task := task, pc := Stopping));
    }

    method RunStop(ghost w: Worker) returns (ok: bool)
      requires At(w) && w.pc.Stopping?
      modifies this
      ensures At(w.(pc := if ok then SavingStart else Reloading(StopStage)))
      ensures 0 <= clock - old(clock) <= 90 * SECOND && fileTime == old(fileTime)
    {
      var stopped := Perform(RunBrew(Stop), w);
      ok := stopped.cmd.Done?;
    }

    /** Starts the service and enters verification. */
    method StartService(stopped: Task, ghost w: Worker) returns (ok: bool, task: Task)
      requires At(w) && w.pc.SavingStart? && w.task == stopped
      modifies this
      ensures At(w.(task := task, pc := if ok then SettingDeadline else Reloading(StartStage)))
      ensures 0 <= clock - old(clock) <= 120 * SECOND + (fileTime - old(fileTime))
    {
      task := SaveTask(stopped.(phase := ServiceStart), w);
      ok := RunStart(w.(task := task, pc := Starting));
      if ok {
        task := EnterVerifying(task, w.(task := task, pc := SavingVerifying));
      }
    }

    method RunStart(ghost w: Worker) returns (ok: bool)
      requires At(w) && w.pc.Starting?
      modifies this
      ensures At(w.(pc := if ok then SavingVerifying else Reloading(StartStage)))
      ensures 0 <= clock - old(clock) <= 120 * SECOND && fileTime == old(fileTime)
    {
      var started := Perform(RunBrew(Start), w);
      ok := started.cmd.Done?;
    }

    method EnterVerifying(started: Task, ghost w: Worker) returns (task: Task)
      requires At(w) && w.pc.SavingVerifying? && w.task == started
      modifies this
      ensures At(w.(task := task, pc := SettingDeadline))
      ensures clock - old(clock) == fileTime - old(fileTime) >= 0
    {
      task := SaveTask(started.(state := Verifying, phase := Phase.Health), w);
    }

    /** The terminal success record, then self-removal. */
    method Conclude(verified: Task, ghost w: Worker)
      requires At(w) && w.pc.StampingSuccess? && w.task == verified && w.locked
      modifies this
      ensures Ended()
      ensures clock - old(clock) == fileTime - old(fileTime) >= 0
    {
      var task := StampSuccess(verified, w);
      RemoveSelf(w.(task := task, pc := BootingOut));
    }

    method RemoveSelf(ghost w: Worker)
      requires At(w) && w.pc.BootingOut? && w.locked
      modifies this
      ensures Ended()
      ensures clock - old(clock) == fileTime - old(fileTime) >= 0
    {
      var gone := Perform(BootoutSelf, w);
      Finish(true, w.(pc := Unlocking));
    }

    method StampSuccess(verified: Task, ghost w: Worker) returns (task: Task)
      requires At(w) && w.pc.StampingSuccess? && w.task == verified
      modifies this
      ensures At(w.(task := task, pc := BootingOut))
      ensures clock - old(clock) == fileTime - old(fileTime) >= 0
    {
      task := ReadSuccess(verified, w);
      task := SaveSuccess(task, w.(task := task, pc := SavingSucceeded));
    }

    method ReadSuccess(verified: Task, ghost w: Worker) returns (task: Task)
      requires At(w) && w.pc.StampingSuccess? && w.task == verified
      modifies this
      ensures At(w.(task := task, pc := SavingSucceeded))
      ensures clock == old(clock) && fileTime == old(fileTime)
    {
      assert Action(w) == ReadClock;
      var now := Perform(ReadClock, w);
      O.WindsStamping(w, now);
      task := verified.(succeededAt := Some(now.now));
    }

    method SaveSuccess(stamped: Task, ghost w: Worker) returns (task: Task)
      requires At(w) && w.pc.SavingSucceeded? && w.task == stamped
      modifies this
      ensures At(w.(task := task, pc := BootingOut))
      ensures clock - old(clock) == fileTime - old(fileTime) >= 0
    {
      task := SaveTask(stamped.(state := Succeeded, phase := NoPhase, cleanupPending := true), w);
    }

    /** Asks launchd and the health endpoint once. */
    method Observe(task: Task, deadline: Time, ghost w: Worker) returns (proven: bool)
      requires At(w) && w.pc == PollingPid(deadline) && w.task == task && w.prefix == prefix
      modifies this
      ensures At(w.(pc := if proven then StampingSuccess else Sleeping(deadline)))
      ensures fileTime == old(fileTime) && old(clock) <= clock <= old(clock) + 13 * SECOND
    {
      var listed := Perform(ListPid, w);
      if !listed.list.Running? {
        return false;
      }
      var health := Perform(GetHealth(listed.list.pid), w.(pc := CheckingHealth(deadline, listed.list.pid)));
      proven := Proves(task, prefix, listed.list.pid, health.answer);
    }

    /** One iteration of the verify loop: it either settles the question or sleeps. */
    method Poll(task: Task, deadline: Time, ghost w: Worker) returns (settled: bool, ok: bool)
      requires At(w) && w.pc == CheckingClock(deadline) && w.task == task && w.prefix == prefix
      modifies this
      ensures !settled ==> At(w)
      ensures settled && ok ==> At(w.(pc := StampingSuccess))
      ensures settled && !ok ==> At(w.(pc := Reloading(VerifyStage)))
      ensures fileTime == old(fileTime) && old(clock) <= clock <= old(clock) + 15 * SECOND
      ensures !settled ==> old(clock) < deadline && clock >= old(clock) + POLL_EVERY
      ensures old(clock) >= deadline ==> clock == old(clock)
    {
      var over := OutOfTime(deadline, w);
      if over {
        return true, false;
      }
      var proven := Observe(task, deadline, w.(pc := PollingPid(deadline)));
      if proven {
        return true, true;
      }
      Nap(deadline, w.(pc := Sleeping(deadline)));
      return false, false;
    }

    method Nap(deadline: Time, ghost w: Worker)
      requires At(w) && w.pc == Sleeping(deadline)
      modifies this
      ensures At(w.(pc := CheckingClock(deadline)))
      ensures fileTime == old(fileTime) && clock == old(clock) + POLL_EVERY
    {
      var slept := Perform(Sleep, w);
    }

    method OutOfTime(deadline: Time, ghost w: Worker) returns (over: bool)
      requires At(w) && w.pc == CheckingClock(deadline)
      modifies this
      ensures At(w.(pc := if over then Reloading(VerifyStage) else PollingPid(deadline)))
      ensures fileTime == old(fileTime) && clock == old(clock) && (!over ==> clock < deadline)
    {
      var now := Perform(ReadClock, w);
      over := now.cancelled || now.now >= deadline;
    }

    /** Polls until the handshake proves the target or the budget ends; every iteration sleeps, so
        the loop ends, at most one iteration past the deadline. */
    method Verify(task: Task, ghost w: Worker) returns (ok: bool)
      requires At(w) && w.pc.SettingDeadline? && w.task == task && w.prefix == prefix
      modifies this
      ensures At(w.(pc := if ok then StampingSuccess else Reloading(VerifyStage)))
      ensures old(clock) <= clock <= old(clock) + VERIFY_BUDGET + 15 * SECOND && fileTime == old(fileTime)
    {
      var start := Perform(ReadClock, w);
      var deadline := start.now + VERIFY_BUDGET;
      var settled := false;
      ok := false;
      while !settled
        invariant At(w.(pc := if !settled then CheckingClock(deadline)
                              else if ok then StampingSuccess else Reloading(VerifyStage)))
        invariant fileTime == old(fileTime) && deadline == old(clock) + VERIFY_BUDGET
        invariant old(clock) <= clock <= deadline + 15 * SECOND
        decreases !settled, deadline - clock
      {
        settled, ok := Poll(task, deadline, w.(pc := CheckingClock(deadline)));
      }
    }

    /** The whole run: its log is a run of the automaton to the end, for every choice of replies; the
        replies decide how it ends and what it saves last; and it outlasts its file work by at most the
        sum of the stage budgets. */
    method Run()
      requires log == []
      modifies this
      ensures Ended() && O.Decided(pid, prefix, log)
      ensures 0 <= clock - old(clock) <= 1015 * SECOND + (fileTime - old(fileTime))
    {
      RunToEnd();
      EndDecides();
    }

    lemma EndDecides()
      requires Ended()
      ensures O.Decided(pid, prefix, log)
    {
      O.EndedIsDecided(pid, prefix, log);
    }

    method RunToEnd()
      requires log == []
      modifies this
      ensures Ended()
      ensures 0 <= clock - old(clock) <= STAGE_BUDGET + (fileTime - old(fileTime))
    {
      ghost var w := Launched(pid, prefix);
      var lock := Perform(TryLock, w);
      if !lock.lock.Acquired? {
        RecordUnknown(LockStage, false, w.(pc := Reloading(LockStage)));
        return;
      }
      w := w.(locked := true, pc := Loading);
      var loaded := Perform(Load, w);
      if !loaded.load.Loaded? || !loaded.load.task.state.Queued? {
        Finish(true, w.(pc := Unlocking));
        return;
      }
      var task := loaded.load.task.(workerPid := pid);
      RunAccepted(task, w.(task := task, pc := WritingReady));
    }

    /** The stages of an accepted task, in order; each hands over only on proven success. */
    method RunAccepted(accepted: Task, ghost w: Worker)
      requires At(w) && w.pc.WritingReady? && w.task == accepted && w.locked
      requires w.pid == pid && w.prefix == prefix
      modifies this
      ensures Ended()
      ensures 0 <= clock - old(clock) <= STAGE_BUDGET + (fileTime - old(fileTime))
    {
      var ready, task := ReportIn(accepted, w);
      if !ready {
        RecordUnknown(ReadyStage, true, w.(task := task, pc := Reloading(ReadyStage)));
        return;
      }
      var staged := StageSnapshot(task, w.(task := task, pc := ReadingSnapshot));
      if !staged {
        RecordFailure(task, SnapshotStage, SnapshotFailed,
                      w.(task := task, pc := SavingFailed(SnapshotStage, SnapshotFailed)));
        return;
      }
      var reply;
      reply, task := Install(task, w.(task := task, pc := SavingInstalling));
      if reply.Unknown? {
        RecordUnknown(UpgradeStage, true, w.(task := task, pc := Reloading(UpgradeStage)));
      } else if !reply.Done? {
        RecordFailure(task, UpgradeStage, BrewUpgradeFailed,
                      w.(task := task, pc := SavingFailed(UpgradeStage, BrewUpgradeFailed)));
      } else {
        Restart(task, w.(task := task, pc := SavingRestarting));
      }
    }

    /** Stop, start, verify. */
    method Restart(upgraded: Task, ghost w: Worker)
      requires At(w) && w.pc.SavingRestarting? && w.task == upgraded && w.locked && w.prefix == prefix
      modifies this
      ensures Ended()
      ensures 0 <= clock - old(clock) <= STAGE_BUDGET - 600 * SECOND + (fileTime - old(fileTime))
    {
      var ok, task := CapturePid(upgraded, w);
      if !ok {
        RecordUnknown(PidStage, true, w.(task := task, pc := Reloading(PidStage)));
        return;
      }
      ok, task := StopService(task, w.(task := task, pc := SavingStop));
      if !ok {
        RecordUnknown(StopStage, true, w.(task := task, pc := Reloading(StopStage)));
        return;
      }
      ok, task := StartService(task, w.(task := task, pc := SavingStart));
      if !ok {
        RecordUnknown(StartStage, true, w.(task := task, pc := Reloading(StartStage)));
        return;
      }
      ok := Verify(task, w.(task := task, pc := SettingDeadline));
      if !ok {
        RecordUnknown(VerifyStage, true, w.(task := task, pc := Reloading(VerifyStage)));
        return;
      }
      Conclude(task, w.(task := task, pc := StampingSuccess));
    }
  }
}
