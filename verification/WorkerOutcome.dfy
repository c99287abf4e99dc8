/** What a worker owes its record: in every run that has ended, the replies alone determine how the
    run was brought to its end and what the last save says. */
module WorkerOutcome {
  import opened UpgradeTask
  import opened Effects
  import opened WorkerAutomaton
  import T = WorkerTrace

  // ----- what a log says, without the automaton

  /** The clock readings of a log, in order: the first one sets the deadline. */
  function Readings(log: seq<Event>): seq<Event> {
    if log == [] then []
    else
      var (past, e) := (Readings(log[..|log| - 1]), log[|log| - 1]);
      if e.act.ReadClock? then past + [e] else past
  }

  /** The health requests of a log with their answers, in order. */
  function Polls(log: seq<Event>): seq<Event> {
    if log == [] then []
    else
      var (past, e) := (Polls(log[..|log| - 1]), log[|log| - 1]);
      if e.act.GetHealth? then past + [e] else past
  }

  /** A staging action that failed, or gave other bytes than those with this digest. */
  predicate BadStaging(e: Event, formula: Digest<Bytes>) {
    || (e.act.WriteTap? && e.reply == OkR(false))
    || ((e.act.ReadSnapshot? || e.act.ReadTap?) && e.reply.BytesR? &&
        (e.reply.bytes.None? || Sha256(e.reply.bytes.value) != formula))
  }

  predicate StagingFailed(log: seq<Event>, formula: Digest<Bytes>) {
    exists k :: 0 <= k < |log| && BadStaging(log[k], formula)
  }

  predicate LockTaken(log: seq<Event>) {
    |log| > 0 && log[0].act.TryLock? && log[0].reply == LockR(Acquired)
  }

  /** The worker loaded a queued record under the lock. */
  predicate TookOn(log: seq<Event>) {
    && LockTaken(log) && |log| > 1 && log[1].act.Load?
    && log[1].reply.LoadR? && log[1].reply.load.Loaded? && log[1].reply.load.task.state.Queued?
  }

  function Given(log: seq<Event>): Task
    requires TookOn(log)
  {
    log[1].reply.load.task
  }

  /** A clock reading after the first found the run cancelled or its deadline reached. */
  predicate TimeIsUp(readings: seq<Event>) {
    exists j :: 1 <= j < |readings| && readings[0].reply.ClockR? && readings[j].reply.ClockR? &&
                (readings[j].reply.cancelled || readings[j].reply.now >= readings[0].reply.now + 180 * SECOND)
  }

  /** The record with the PID found before the stop, if one was running. */
  function Asked(was: Task, listed: Reply): Task {
    if listed.ListR? && listed.list.Running? then was.(servicePid := listed.list.pid) else was
  }

  /** Some health answer proved the target. */
  predicate Proven(polls: seq<Event>, t: Task, prefix: string) {
    exists j :: 0 <= j < |polls| && polls[j].act.GetHealth? && polls[j].reply.HealthR? &&
                Proves(t, prefix, polls[j].act.pid, polls[j].reply.answer)
  }

  /** What the replies amount to: not decided yet, nothing to do, an end nobody can tell, a proven
      failure, or a proven success. */
  datatype Outcome = Undecided | NotMine | Uncertain(stage: Stage) | Fails(stage: Stage, kind: ErrorKind) | Good

  predicate DoneWell(r: Reply) { r.CmdR? && r.cmd.Done? }

  /** What the commands amount to, once there are any. */
  function CommandsTold(log: seq<Event>, cs: seq<Event>, prefix: string): Outcome
    requires TookOn(log) && |cs| >= 1
  {
    if !DoneWell(cs[0].reply) then
      if cs[0].reply.CmdR? && cs[0].reply.cmd.Unknown? then Uncertain(UpgradeStage)
      else Fails(UpgradeStage, BrewUpgradeFailed)
    else if |cs| < 2 then Undecided
    else if !cs[1].reply.ListR? || cs[1].reply.list.ListError? then Uncertain(PidStage)
    else if |cs| < 3 then Undecided
    else if !DoneWell(cs[2].reply) then Uncertain(StopStage)
    else if |cs| < 4 then Undecided
    else if !DoneWell(cs[3].reply) then Uncertain(StartStage)
    else if Proven(Polls(log), Asked(Given(log), cs[1].reply), prefix) then Good
    else if TimeIsUp(Readings(log)) then Uncertain(VerifyStage)
    else Undecided
  }

  function Told(log: seq<Event>, prefix: string): Outcome {
    var cs := T.Commands(log);
    if log == [] then Undecided
    else if !LockTaken(log) then Uncertain(LockStage)
    else if |log| < 2 then Undecided
    else if !TookOn(log) then NotMine
    else if cs != [] then CommandsTold(log, cs, prefix)
    else if |log| > 2 && log[2].reply == OkR(false) then Uncertain(ReadyStage)
    else if StagingFailed(log, Given(log).formula) then Fails(SnapshotStage, SnapshotFailed)
    else Undecided
  }

  // ----- what the end of a run must look like

  /** The record was read again and, if it was there, saved as unresolved at this stage and otherwise
      as it was read. */
  ghost predicate LeavesUncertain(b: seq<Event>, stage: Stage) {
    var n := |b|;
    || (n >= 1 && b[n - 1].act.Load? && b[n - 1].reply.LoadR? && !b[n - 1].reply.load.Loaded?)
    || (n >= 2 && b[n - 2].act.Load? && b[n - 2].reply.LoadR? && b[n - 2].reply.load.Loaded? && b[n - 1].act.Save? &&
        var (was, t) := (b[n - 2].reply.load.task, b[n - 1].act.task);
        && t.state.NeedsAttention? && t.failureStage == stage && t.errorKind.OutcomeUnknown? && t.phase.NoPhase?
        && t == was.(state := t.state, failureStage := t.failureStage, errorKind := t.errorKind, phase := t.phase))
  }

  /** The last save says failed, at this stage and for this reason, of the record as it was given. */
  ghost predicate LeavesFailed(b: seq<Event>, stage: Stage, kind: ErrorKind, was: Task, pid: nat) {
    var n := |b|;
    && n >= 1 && b[n - 1].act.Save?
    && var t := b[n - 1].act.task;
       && t.state.Failed? && t.failureStage == stage && t.errorKind == kind && t.phase.NoPhase? && t.workerPid == pid
       && t == was.(state := t.state, failureStage := t.failureStage, errorKind := t.errorKind, phase := t.phase,
                    workerPid := t.workerPid, updatedAt := t.updatedAt)
  }

  /** The last save says succeeded at the time just read, with its cleanup asked for. */
  ghost predicate SavedSuccess(b: seq<Event>, was: Task, pid: nat) {
    var n := |b|;
    && n >= 2 && b[n - 2].act.ReadClock? && b[n - 2].reply.ClockR? && b[n - 1].act.Save?
    && var t := b[n - 1].act.task;
       && t.state.Succeeded? && t.phase.NoPhase? && t.cleanupPending && t.workerPid == pid
       && t.succeededAt == Some(b[n - 2].reply.now)
       && t == was.(state := t.state, phase := t.phase, cleanupPending := true, workerPid := t.workerPid,
                    succeededAt := t.succeededAt, updatedAt := t.updatedAt)
  }

  /** That save, followed by the worker's own removal. */
  ghost predicate LeavesSucceeded(b: seq<Event>, was: Task, pid: nat) {
    b != [] && b[|b| - 1].act.BootoutSelf? && SavedSuccess(b[..|b| - 1], was, pid)
  }

  /** The log without the release of the lock that ends it. */
  function Body(log: seq<Event>): seq<Event> {
    if log != [] && log[|log| - 1].act.Unlock? then log[..|log| - 1] else log
  }

  ghost predicate Leaves(log: seq<Event>, b: seq<Event>, o: Outcome, pid: nat) {
    match o
    case Undecided => false
    case NotMine => |b| == 2
    case Uncertain(stage) => LeavesUncertain(b, stage)
    case Fails(stage, kind) => TookOn(log) && LeavesFailed(b, stage, kind, Given(log), pid)
    case Good =>
      && TookOn(log) && |T.Commands(log)| >= 2
      && LeavesSucceeded(b, Asked(Given(log), T.Commands(log)[1].reply), pid)
  }

  /** The replies decided the run, its end is the one they call for, and the lock was given back
      exactly if it was taken. */
  ghost predicate Decided(pid: nat, prefix: string, log: seq<Event>) {
    && Leaves(log, Body(log), Told(log, prefix), pid)
    && (log != [] && log[|log| - 1].act.Unlock? <==> LockTaken(log))
    && (LockTaken(log) || 2 <= |log| <= 3)
  }

  // ----- the invariant

  /** The in-memory record is the given one but for what the stages write. */
  ghost predicate Carries(w: Worker, was: Task) {
    && w.task == was.(state := w.task.state, phase := w.task.phase, workerPid := w.pid,
                      servicePid := w.task.servicePid, succeededAt := w.task.succeededAt, updatedAt := w.task.updatedAt)
    && (!w.pc.SavingSucceeded? ==> w.task.succeededAt == was.succeededAt)
  }

  predicate Looping(pc: Pc) {
    pc.CheckingClock? || pc.PollingPid? || pc.CheckingHealth? || pc.Sleeping?
  }

  /** The first reading set this deadline and none since has reached it. */
  ghost predicate InTime(readings: seq<Event>, deadline: Time) {
    && |readings| > 0 && readings[0].reply.ClockR? && deadline == readings[0].reply.now + 180 * SECOND
    && !TimeIsUp(readings)
  }

  /** A run past its opening that is not decided yet. */
  ghost predicate Underway(w: Worker, prefix: string, log: seq<Event>) {
    && |log| > 2 && TookOn(log) && log[2].reply == OkR(true) && w.locked && w.prefix == prefix
    && Carries(w, Given(log)) && !StagingFailed(log, Given(log).formula)
    && Planned(w, prefix, log, T.Commands(log))
  }

  /** How far the commands got, with everything done well so far. */
  ghost predicate Planned(w: Worker, prefix: string, log: seq<Event>, cs: seq<Event>)
    requires TookOn(log)
  {
    var n := T.Behind(w.pc);
    && 0 <= n <= |cs| && (n < 4 ==> |cs| == n)
    && (n >= 1 ==> DoneWell(cs[0].reply))
    && (n >= 2 ==> cs[1].reply.ListR? && !cs[1].reply.list.ListError?)
    && (n >= 3 ==> DoneWell(cs[2].reply))
    && (n >= 4 ==> DoneWell(cs[3].reply))
    && w.task.servicePid == (if n < 2 then Given(log) else Asked(Given(log), cs[1].reply)).servicePid
    && (!Looping(w.pc) ==> Readings(log) == [] && Polls(log) == [])
    && (Looping(w.pc) ==>
          InTime(Readings(log), w.pc.deadline) && !Proven(Polls(log), Asked(Given(log), cs[1].reply), prefix))
  }

  /** A success still to be written down. */
  ghost predicate Succeeding(w: Worker, prefix: string, log: seq<Event>) {
    && TookOn(log) && |log| > 2 && Told(log, prefix) == Good && w.locked && Carries(w, Given(log))
    && |T.Commands(log)| >= 2
    && w.task.servicePid == Asked(Given(log), T.Commands(log)[1].reply).servicePid
  }

  predicate Opening(pc: Pc) { pc.Locking? || pc.Loading? || pc.WritingReady? }

  predicate Ending(pc: Pc) {
    || pc.StampingSuccess? || pc.SavingSucceeded? || pc.BootingOut? || pc.SavingFailed? || pc.Reloading?
    || pc.SavingUnknown? || pc.Unlocking? || pc.Exited?
  }

  ghost predicate OpeningInv(w: Worker, log: seq<Event>)
    requires Opening(w.pc)
  {
    match w.pc
    case Locking => log == [] && !w.locked
    case Loading => |log| == 1 && LockTaken(log) && w.locked
    case WritingReady => |log| == 2 && TookOn(log) && w.locked && w.task == Given(log).(workerPid := w.pid)
  }

  /** Enough of the log is there that what follows cannot change how it began. */
  predicate Settled(log: seq<Event>) { |log| > 2 || (|log| > 0 && !LockTaken(log)) }

  /** Refused the lock, the run has this many events and no more. */
  predicate Refused(log: seq<Event>, n: nat) { LockTaken(log) || |log| == n }

  /** The success to be written down carries the time just read. */
  ghost predicate StampedNow(w: Worker, prefix: string, log: seq<Event>) {
    && Succeeding(w, prefix, log) && log[|log| - 1].act.ReadClock? && log[|log| - 1].reply.ClockR?
    && w.task.succeededAt == Some(log[|log| - 1].reply.now)
  }

  /** It is written down, under the lock. */
  ghost predicate SavedGood(pid: nat, prefix: string, log: seq<Event>) {
    && TookOn(log) && |log| > 2 && Told(log, prefix) == Good && |T.Commands(log)| >= 2
    && SavedSuccess(log, Asked(Given(log), T.Commands(log)[1].reply), pid)
  }

  /** All is saved that is owed, under the lock. */
  ghost predicate Saved(pid: nat, prefix: string, log: seq<Event>) {
    && |log| > 1 && LockTaken(log) && !log[|log| - 1].act.Unlock? && (|log| == 2 ==> !TookOn(log))
    && Leaves(log, log, Told(log, prefix), pid)
  }

  ghost predicate EndingInv(w: Worker, pid: nat, prefix: string, log: seq<Event>)
    requires Ending(w.pc)
  {
    match w.pc
    case StampingSuccess => Succeeding(w, prefix, log)
    case SavingSucceeded => StampedNow(w, prefix, log)
    case BootingOut => w.locked && SavedGood(pid, prefix, log)
    case SavingFailed(stage, kind) =>
      && TookOn(log) && |log| > 2 && Told(log, prefix) == Fails(stage, kind) && w.locked
      && Carries(w, Given(log)) && w.task.servicePid == Given(log).servicePid
    case Reloading(stage) =>
      && Settled(log) && Told(log, prefix) == Uncertain(stage) && (w.locked <==> LockTaken(log)) && Refused(log, 1)
    case SavingUnknown(stage) =>
      && Settled(log) && Told(log, prefix) == Uncertain(stage) && (w.locked <==> LockTaken(log)) && Refused(log, 2)
      && log[|log| - 1].act.Load? && log[|log| - 1].reply == LoadR(Loaded(w.task))
    case Unlocking => w.locked && Saved(pid, prefix, log)
    case Exited => Decided(pid, prefix, log)
  }

  ghost predicate Inv(w: Worker, pid: nat, prefix: string, log: seq<Event>) {
    && w.pid == pid && w.prefix == prefix
    && if Opening(w.pc) then OpeningInv(w, log)
       else if Ending(w.pc) then EndingInv(w, pid, prefix, log)
       else Underway(w, prefix, log)
  }

  // ----- every step keeps it

  lemma Grown(log: seq<Event>, e: Event)
    ensures T.Commands(log + [e]) == if T.IsCommand(e.act) then T.Commands(log) + [e] else T.Commands(log)
    ensures Readings(log + [e]) == if e.act.ReadClock? then Readings(log) + [e] else Readings(log)
    ensures Polls(log + [e]) == if e.act.GetHealth? then Polls(log) + [e] else Polls(log)
    ensures |log| >= 1 ==> (LockTaken(log + [e]) <==> LockTaken(log))
    ensures |log| >= 2 ==> (TookOn(log + [e]) <==> TookOn(log)) && (TookOn(log) ==> Given(log + [e]) == Given(log))
  {
    T.FoldStep(log, e);
    assert (log + [e])[..|log|] == log;
  }

  lemma StagingGrown(log: seq<Event>, e: Event, formula: Digest<Bytes>)
    ensures StagingFailed(log + [e], formula) <==> StagingFailed(log, formula) || BadStaging(e, formula)
  {
    assert (log + [e])[|log|] == e;
    if k :| 0 <= k < |log| && BadStaging(log[k], formula) {
      assert (log + [e])[k] == log[k];
    }
  }

  /** An event that decides nothing. */
  predicate Idle(e: Event) {
    e.act.Load? || e.act.Save? || e.act.BootoutSelf? || e.act.Unlock?
  }

  lemma SameTold(log: seq<Event>, e: Event, prefix: string)
    requires Settled(log) && Idle(e)
    ensures Told(log + [e], prefix) == Told(log, prefix)
    ensures Settled(log + [e]) && (LockTaken(log + [e]) <==> LockTaken(log))
    ensures T.Commands(log + [e]) == T.Commands(log)
    ensures TookOn(log) ==> TookOn(log + [e]) && Given(log + [e]) == Given(log)
  {
    Grown(log, e);
    if TookOn(log) {
      StagingGrown(log, e, Given(log).formula);
    }
  }

  /** A run that has saved what it owes gives the lock back, if it has it, and exits. */
  lemma LeaveInv(w: Worker, pid: nat, prefix: string, log: seq<Event>)
    requires |log| > 1 && !log[|log| - 1].act.Unlock? && (w.locked <==> LockTaken(log))
    requires LockTaken(log) || |log| <= 3
    requires Leaves(log, log, Told(log, prefix), pid) && (|log| == 2 && w.locked ==> !TookOn(log))
    requires w.pc == (if w.locked then Unlocking else Exited) && w.pid == pid && w.prefix == prefix
    ensures Inv(w, pid, prefix, log)
  {
  }

  lemma LockStep(w: Worker, pid: nat, prefix: string, log: seq<Event>, r: Reply)
    requires Inv(w, pid, prefix, log) && w.pc.Locking? && Fits(Action(w), r)
    ensures Inv(Next(w, r), pid, prefix, log + [Event(Action(w), r)])
  {
    Grown(log, Event(Action(w), r));
  }

  lemma LoadStep(w: Worker, pid: nat, prefix: string, log: seq<Event>, r: Reply)
    requires Inv(w, pid, prefix, log) && w.pc.Loading? && Fits(Action(w), r)
    ensures Inv(Next(w, r), pid, prefix, log + [Event(Action(w), r)])
  {
    Grown(log, Event(Action(w), r));
  }

  lemma ReadyStep(w: Worker, pid: nat, prefix: string, log: seq<Event>, r: Reply)
    requires Inv(w, pid, prefix, log) && w.pc.WritingReady? && Fits(Action(w), r)
    ensures Inv(Next(w, r), pid, prefix, log + [Event(Action(w), r)])
  {
    var e := Event(Action(w), r);
    Grown(log, e);
    OnlyTwo(log);
    StagingGrown(log, e, Given(log).formula);
    assert (log + [e])[2] == e;
  }

  lemma OnlyTwo(log: seq<Event>)
    requires |log| == 2 && TookOn(log)
    ensures T.Commands(log) == [] && Readings(log) == [] && Polls(log) == []
    ensures forall formula :: !StagingFailed(log, formula)
  {
    Grown(log[..1], log[1]);
    Grown([], log[0]);
    assert log == log[..1] + [log[1]] && log[..1] == [] + [log[0]];
  }

  /** A step that is no command and no part of the poll loop, between two control points before the
      loop. */
  lemma QuietStep(w: Worker, prefix: string, log: seq<Event>, e: Event, w': Worker)
    requires Underway(w, prefix, log) && !T.IsCommand(e.act) && !e.act.ReadClock? && !e.act.GetHealth?
    requires !BadStaging(e, Given(log).formula)
    requires T.Behind(w'.pc) == T.Behind(w.pc) && !Looping(w'.pc) && !Looping(w.pc)
    requires Carries(w', Given(log)) && w'.task.servicePid == w.task.servicePid && w'.locked && w'.prefix == prefix
    ensures Underway(w', prefix, log + [e])
  {
    Grown(log, e);
    StagingGrown(log, e, Given(log).formula);
  }

  lemma SaveStep(w: Worker, pid: nat, prefix: string, log: seq<Event>, r: Reply)
    requires Underway(w, prefix, log) && w.pid == pid && !Opening(w.pc) && !Ending(w.pc) && Action(w).Save? && r.SavedR?
    ensures Inv(Next(w, r), pid, prefix, log + [Event(Action(w), r)])
  {
    SavedCarries(w, r, Given(log));
    QuietStep(w, prefix, log, Event(Action(w), r), Next(w, r));
  }

  lemma SavedCarries(w: Worker, r: Reply, was: Task)
    requires !Opening(w.pc) && !Ending(w.pc) && Action(w).Save? && r.SavedR? && Carries(w, was)
    ensures var w' := Next(w, r);
            && Carries(w', was) && !Opening(w'.pc) && !Ending(w'.pc) && !Looping(w'.pc) && !Looping(w.pc)
            && T.Behind(w'.pc) == T.Behind(w.pc) && w'.task.servicePid == w.task.servicePid
            && w'.locked == w.locked && w'.pid == w.pid && w'.prefix == w.prefix
  {
  }

  lemma StagingStep(w: Worker, pid: nat, prefix: string, log: seq<Event>, r: Reply)
    requires Underway(w, prefix, log) && w.pid == pid && (w.pc.ReadingSnapshot? || w.pc.WritingTap? || w.pc.ReadingTap?)
    requires Fits(Action(w), r)
    ensures Inv(Next(w, r), pid, prefix, log + [Event(Action(w), r)])
  {
    var e := Event(Action(w), r);
    if BadStaging(e, w.task.formula) {
      assert Next(w, r) == w.(pc := SavingFailed(SnapshotStage, SnapshotFailed));
      BadStage(w, prefix, log, e);
    } else {
      QuietStep(w, prefix, log, e, Next(w, r));
    }
  }

  lemma BadStage(w: Worker, prefix: string, log: seq<Event>, e: Event)
    requires Underway(w, prefix, log) && BadStaging(e, Given(log).formula) && T.Behind(w.pc) == 0
    ensures Told(log + [e], prefix) == Fails(SnapshotStage, SnapshotFailed)
    ensures TookOn(log + [e]) && Given(log + [e]) == Given(log)
  {
    Grown(log, e);
    StagingGrown(log, e, Given(log).formula);
  }

  /** A command of the restart or the upgrade itself that went well. */
  lemma WellStep(w: Worker, prefix: string, log: seq<Event>, e: Event, w': Worker)
    requires Underway(w, prefix, log) && T.IsCommand(e.act) && T.Behind(w.pc) < 4
    requires T.Behind(w'.pc) == T.Behind(w.pc) + 1 && !Looping(w'.pc) && !Looping(w.pc)
    requires if T.Behind(w.pc) == 1 then e.reply.ListR? && !e.reply.list.ListError? else DoneWell(e.reply)
    requires Carries(w', Given(log)) && w'.locked && w'.prefix == prefix
    requires w'.task.servicePid == (if T.Behind(w.pc) == 1 then Asked(Given(log), e.reply) else w.task).servicePid
    ensures Underway(w', prefix, log + [e])
  {
    Grown(log, e);
    StagingGrown(log, e, Given(log).formula);
  }

  /** A command that did not. */
  lemma BadStep(w: Worker, prefix: string, log: seq<Event>, e: Event)
    requires Underway(w, prefix, log) && T.IsCommand(e.act) && T.Behind(w.pc) < 4
    ensures var o := Told(log + [e], prefix);
            match T.Behind(w.pc)
            case 0 => e.reply.CmdR? && !e.reply.cmd.Done? ==>
                        o == if e.reply.cmd.Unknown? then Uncertain(UpgradeStage)
                             else Fails(UpgradeStage, BrewUpgradeFailed)
            case 1 => e.reply == ListR(ListError) ==> o == Uncertain(PidStage)
            case 2 => !DoneWell(e.reply) ==> o == Uncertain(StopStage)
            case _ => !DoneWell(e.reply) ==> o == Uncertain(StartStage)
    ensures TookOn(log + [e]) && Given(log + [e]) == Given(log)
  {
    Grown(log, e);
    StagingGrown(log, e, Given(log).formula);
  }

  lemma UpgradeStep(w: Worker, pid: nat, prefix: string, log: seq<Event>, r: Reply)
    requires Underway(w, prefix, log) && w.pid == pid && w.pc.Upgrading? && Fits(Action(w), r)
    ensures Inv(Next(w, r), pid, prefix, log + [Event(Action(w), r)])
  {
    var e := Event(Action(w), r);
    if r.cmd.Done? {
      WellStep(w, prefix, log, e, Next(w, r));
    } else {
      BadStep(w, prefix, log, e);
    }
  }

  lemma CaptureStep(w: Worker, pid: nat, prefix: string, log: seq<Event>, r: Reply)
    requires Underway(w, prefix, log) && w.pid == pid && w.pc.CapturingPid? && Fits(Action(w), r)
    ensures Inv(Next(w, r), pid, prefix, log + [Event(Action(w), r)])
  {
    var e := Event(Action(w), r);
    if r.list.ListError? {
      BadStep(w, prefix, log, e);
    } else {
      WellStep(w, prefix, log, e, Next(w, r));
    }
  }

  lemma RestartStep(w: Worker, pid: nat, prefix: string, log: seq<Event>, r: Reply)
    requires Underway(w, prefix, log) && w.pid == pid && (w.pc.Stopping? || w.pc.Starting?) && Fits(Action(w), r)
    ensures Inv(Next(w, r), pid, prefix, log + [Event(Action(w), r)])
  {
    var e := Event(Action(w), r);
    if r.cmd.Done? {
      WellStep(w, prefix, log, e, Next(w, r));
    } else {
      BadStep(w, prefix, log, e);
    }
  }

  lemma TimeGrown(readings: seq<Event>, e: Event)
    requires |readings| > 0 && readings[0].reply.ClockR? && e.reply.ClockR?
    ensures TimeIsUp(readings + [e]) <==>
              TimeIsUp(readings) || e.reply.cancelled || e.reply.now >= readings[0].reply.now + 180 * SECOND
  {
    var all := readings + [e];
    assert all[|readings|] == e && all[0] == readings[0];
    if TimeIsUp(readings) {
      var j :| 1 <= j < |readings| && readings[j].reply.ClockR? &&
               (readings[j].reply.cancelled || readings[j].reply.now >= readings[0].reply.now + 180 * SECOND);
      assert all[j] == readings[j];
    }
  }

  lemma ProvenGrown(polls: seq<Event>, e: Event, t: Task, prefix: string)
    requires e.act.GetHealth? && e.reply.HealthR?
    ensures Proven(polls + [e], t, prefix) <==> Proven(polls, t, prefix) || Proves(t, prefix, e.act.pid, e.reply.answer)
  {
    var all := polls + [e];
    assert all[|polls|] == e;
    if j :| 0 <= j < |polls| && polls[j].act.GetHealth? && polls[j].reply.HealthR? &&
            Proves(t, prefix, polls[j].act.pid, polls[j].reply.answer) {
      assert all[j] == polls[j];
    }
  }

  lemma DeadlineSet(w: Worker, prefix: string, log: seq<Event>, e: Event)
    requires Underway(w, prefix, log) && w.pc.SettingDeadline? && e.act.ReadClock? && e.reply.ClockR?
    ensures Underway(w.(pc := CheckingClock(e.reply.now + 180 * SECOND)), prefix, log + [e])
  {
    Grown(log, e);
    StagingGrown(log, e, Given(log).formula);
    FirstReading(e);
    assert Readings(log + [e]) == [] + [e];
  }

  lemma FirstReading(e: Event)
    requires e.reply.ClockR?
    ensures InTime([] + [e], e.reply.now + 180 * SECOND)
  {
  }

  lemma DeadlineStep(w: Worker, pid: nat, prefix: string, log: seq<Event>, r: Reply)
    requires Underway(w, prefix, log) && w.pid == pid && w.pc.SettingDeadline? && Fits(Action(w), r)
    ensures Inv(Next(w, r), pid, prefix, log + [Event(Action(w), r)])
  {
    assert Next(w, r) == w.(pc := CheckingClock(r.now + 180 * SECOND)) && Action(w) == ReadClock;
    DeadlineSet(w, prefix, log, Event(Action(w), r));
  }

  lemma ClockRead(w: Worker, prefix: string, log: seq<Event>, e: Event)
    requires Underway(w, prefix, log) && w.pc.CheckingClock? && e.act.ReadClock? && e.reply.ClockR?
    ensures if e.reply.cancelled || e.reply.now >= w.pc.deadline
            then Told(log + [e], prefix) == Uncertain(VerifyStage) && Settled(log + [e]) && LockTaken(log + [e])
            else Underway(w.(pc := PollingPid(w.pc.deadline)), prefix, log + [e])
  {
    Grown(log, e);
    StagingGrown(log, e, Given(log).formula);
    TimeGrown(Readings(log), e);
  }

  lemma ClockStep(w: Worker, pid: nat, prefix: string, log: seq<Event>, r: Reply)
    requires Underway(w, prefix, log) && w.pid == pid && w.pc.CheckingClock? && Fits(Action(w), r)
    ensures Inv(Next(w, r), pid, prefix, log + [Event(Action(w), r)])
  {
    ClockRead(w, prefix, log, Event(Action(w), r));
  }

  /** The handshake asks for nothing but the target, the port and the PID captured before the stop. */
  lemma ProvesAsked(w: Worker, was: Task, listed: Reply, pid: nat, answer: Health.Answer)
    requires Carries(w, was) && w.task.servicePid == Asked(was, listed).servicePid
    ensures Proves(w.task, w.prefix, pid, answer) <==> Proves(Asked(was, listed), w.prefix, pid, answer)
  {
  }

  /** A step of the poll loop that neither reads the clock nor asks for health. */
  lemma LoopStep(w: Worker, prefix: string, log: seq<Event>, e: Event, w': Worker)
    requires Underway(w, prefix, log) && Looping(w.pc) && (e.act.ListPid? || e.act.Sleep?)
    requires Looping(w'.pc) && w' == w.(pc := w'.pc) && w'.pc.deadline == w.pc.deadline
    ensures Underway(w', prefix, log + [e])
  {
    Grown(log, e);
    StagingGrown(log, e, Given(log).formula);
  }

  lemma PollStep(w: Worker, pid: nat, prefix: string, log: seq<Event>, r: Reply)
    requires Underway(w, prefix, log) && w.pid == pid && (w.pc.PollingPid? || w.pc.Sleeping?) && Fits(Action(w), r)
    ensures Inv(Next(w, r), pid, prefix, log + [Event(Action(w), r)])
  {
    LoopStep(w, prefix, log, Event(Action(w), r), Next(w, r));
  }

  lemma HealthStep(w: Worker, pid: nat, prefix: string, log: seq<Event>, r: Reply)
    requires Underway(w, prefix, log) && w.pid == pid && w.pc.CheckingHealth? && Fits(Action(w), r)
    ensures Inv(Next(w, r), pid, prefix, log + [Event(Action(w), r)])
  {
    AnswerTold(w, prefix, log, Event(Action(w), r));
  }

  lemma AnswerTold(w: Worker, prefix: string, log: seq<Event>, e: Event)
    requires Underway(w, prefix, log) && w.pc.CheckingHealth? && e.act == GetHealth(w.pc.pid) && e.reply.HealthR?
    ensures if Proves(w.task, w.prefix, w.pc.pid, e.reply.answer)
            then Succeeding(w.(pc := StampingSuccess), prefix, log + [e])
            else Underway(w.(pc := Sleeping(w.pc.deadline)), prefix, log + [e])
  {
    Grown(log, e);
    StagingGrown(log, e, Given(log).formula);
    var listed := T.Commands(log)[1].reply;
    ProvesAsked(w, Given(log), listed, w.pc.pid, e.reply.answer);
    ProvenGrown(Polls(log), e, Asked(Given(log), listed), prefix);
  }

  // ----- bringing a decided run to its end

  predicate Replies(pc: Pc, r: Reply) {
    match pc
    case StampingSuccess => r.ClockR?
    case SavingSucceeded => r.SavedR?
    case SavingFailed(_, _) => r.SavedR?
    case Reloading(_) => r.LoadR?
    case SavingUnknown(_) => r.SavedR?
    case _ => r.AckR?
  }

  /** What a worker does once it is decided, and where that takes it. */
  function Winding(w: Worker, r: Reply): (Act, Worker)
    requires Ending(w.pc) && !w.pc.Exited?
    requires Replies(w.pc, r)
  {
    var left := w.(pc := if w.locked then Unlocking else Exited);
    match w.pc
    case StampingSuccess => (ReadClock, w.(task := w.task.(succeededAt := Some(r.now)), pc := SavingSucceeded))
    case SavingSucceeded =>
      var t := w.task.(state := Succeeded, phase := NoPhase, cleanupPending := true);
      (Save(t), w.(task := Written(t, r.at), pc := BootingOut))
    case BootingOut => (BootoutSelf, left)
    case SavingFailed(stage, kind) =>
      var t := w.task.(state := Failed, failureStage := stage, errorKind := kind, phase := NoPhase);
      (Save(t), left.(task := Written(t, r.at)))
    case Reloading(stage) =>
      (Load, if r.load.Loaded? then w.(task := r.load.task, pc := SavingUnknown(stage)) else left)
    case SavingUnknown(stage) =>
      var t := w.task.(state := NeedsAttention, failureStage := stage, errorKind := OutcomeUnknown, phase := NoPhase);
      (Save(t), left.(task := Written(t, r.at)))
    case Unlocking => (Unlock, w.(locked := false, pc := Exited))
  }

  lemma Winds(w: Worker, r: Reply)
    requires Ending(w.pc) && !w.pc.Exited? && Fits(Action(w), r)
    ensures (Action(w), Next(w, r)) == Winding(w, r)
  {
    if Action(w).Save? {
      WindsSaving(w, r);
    }
  }

  lemma WindsStamping(w: Worker, r: Reply)
    requires w.pc.StampingSuccess? && r.ClockR?
    ensures Action(w) == ReadClock
    ensures Next(w, r) == w.(task := w.task.(succeededAt := Some(r.now)), pc := SavingSucceeded)
  {
  }

  lemma WindsSaving(w: Worker, r: Reply)
    requires (w.pc.SavingSucceeded? || w.pc.SavingFailed? || w.pc.SavingUnknown?) && r.SavedR?
    ensures (Action(w), Next(w, r)) == Winding(w, r)
  {
  }

  lemma Stamped(w: Worker, pid: nat, prefix: string, log: seq<Event>, e: Event, w': Worker)
    requires Succeeding(w, prefix, log) && !w.pc.SavingSucceeded? && e.act.ReadClock? && e.reply.ClockR?
    requires w' == w.(pc := SavingSucceeded, task := w.task.(succeededAt := Some(e.reply.now)))
    requires w.pid == pid && w.prefix == prefix
    ensures Inv(w', pid, prefix, log + [e])
  {
    Grown(log, e);
    StagingGrown(log, e, Given(log).formula);
  }

  lemma SuccessSaved(w: Worker, pid: nat, prefix: string, log: seq<Event>, e: Event, w': Worker)
    requires StampedNow(w, prefix, log) && w.pid == pid && w.prefix == prefix && w.pc.SavingSucceeded?
    requires e.act == Save(w.task.(state := Succeeded, phase := NoPhase, cleanupPending := true))
    requires w'.pc.BootingOut? && w'.locked && w'.pid == pid && w'.prefix == prefix
    ensures Inv(w', pid, prefix, log + [e])
  {
    SameTold(log, e, prefix);
    SuccessShape(w, pid, log, e, Asked(Given(log), T.Commands(log)[1].reply));
  }

  lemma SuccessShape(w: Worker, pid: nat, log: seq<Event>, e: Event, was: Task)
    requires log != [] && log[|log| - 1].act.ReadClock? && log[|log| - 1].reply.ClockR? && w.pid == pid
    requires w.task.succeededAt == Some(log[|log| - 1].reply.now)
    requires w.task == was.(state := w.task.state, phase := w.task.phase, workerPid := w.pid,
                            succeededAt := w.task.succeededAt, updatedAt := w.task.updatedAt)
    requires e.act == Save(w.task.(state := Succeeded, phase := NoPhase, cleanupPending := true))
    ensures SavedSuccess(log + [e], was, pid)
  {
    assert (log + [e])[|log| - 1] == log[|log| - 1];
  }

  lemma Removed(w: Worker, pid: nat, prefix: string, log: seq<Event>, e: Event)
    requires SavedGood(pid, prefix, log) && e.act.BootoutSelf?
    requires w.pc.Unlocking? && w.locked && w.pid == pid && w.prefix == prefix
    ensures Inv(w, pid, prefix, log + [e])
  {
    SameTold(log, e, prefix);
    assert (log + [e])[..|log|] == log;
    LeaveInv(w, pid, prefix, log + [e]);
  }

  lemma FailureSaved(w: Worker, pid: nat, prefix: string, log: seq<Event>, e: Event, w': Worker)
    requires w.pc.SavingFailed? && EndingInv(w, pid, prefix, log) && w.pid == pid && w.prefix == prefix
    requires e.reply.SavedR? && (e.act, w') == Winding(w, e.reply)
    ensures Inv(w', pid, prefix, log + [e])
  {
    SameTold(log, e, prefix);
    LeaveInv(w', pid, prefix, log + [e]);
  }

  lemma Reloaded(w: Worker, pid: nat, prefix: string, log: seq<Event>, e: Event, w': Worker)
    requires w.pc.Reloading? && EndingInv(w, pid, prefix, log) && w.pid == pid && w.prefix == prefix
    requires e.reply.LoadR? && (e.act, w') == Winding(w, e.reply)
    ensures Inv(w', pid, prefix, log + [e])
  {
    SameTold(log, e, prefix);
    if !e.reply.load.Loaded? {
      LeaveInv(w', pid, prefix, log + [e]);
    }
  }

  lemma UncertainSaved(w: Worker, pid: nat, prefix: string, log: seq<Event>, e: Event, w': Worker)
    requires w.pc.SavingUnknown? && EndingInv(w, pid, prefix, log) && w.pid == pid && w.prefix == prefix
    requires e.reply.SavedR? && (e.act, w') == Winding(w, e.reply)
    ensures Inv(w', pid, prefix, log + [e])
  {
    SameTold(log, e, prefix);
    assert (log + [e])[|log| - 1] == log[|log| - 1];
    assert LeavesUncertain(log + [e], w.pc.stage);
    LeaveInv(w', pid, prefix, log + [e]);
  }

  lemma Released(w: Worker, pid: nat, prefix: string, log: seq<Event>, e: Event)
    requires Saved(pid, prefix, log) && e.act.Unlock?
    requires w.pc.Exited? && w.pid == pid && w.prefix == prefix
    ensures Inv(w, pid, prefix, log + [e])
  {
    assert (log + [e])[..|log|] == log;
    Grown(log, e);
    if |log| > 2 {
      SameTold(log, e, prefix);
    }
  }

  lemma Wound(w: Worker, pid: nat, prefix: string, log: seq<Event>, e: Event, w': Worker)
    requires Ending(w.pc) && !w.pc.Exited? && EndingInv(w, pid, prefix, log) && w.pid == pid && w.prefix == prefix
    requires Replies(w.pc, e.reply) && (e.act, w') == Winding(w, e.reply)
    ensures Inv(w', pid, prefix, log + [e])
  {
    match w.pc
    case StampingSuccess => Stamped(w, pid, prefix, log, e, w');
    case SavingSucceeded => SuccessSaved(w, pid, prefix, log, e, w');
    case BootingOut => Removed(w', pid, prefix, log, e);
    case SavingFailed(_, _) => FailureSaved(w, pid, prefix, log, e, w');
    case Reloading(_) => Reloaded(w, pid, prefix, log, e, w');
    case SavingUnknown(_) => UncertainSaved(w, pid, prefix, log, e, w');
    case Unlocking => Released(w', pid, prefix, log, e);
  }

  lemma OpeningStep(w: Worker, pid: nat, prefix: string, log: seq<Event>, r: Reply)
    requires Inv(w, pid, prefix, log) && Opening(w.pc) && Fits(Action(w), r)
    ensures Inv(Next(w, r), pid, prefix, log + [Event(Action(w), r)])
  {
    match w.pc
    case Locking => LockStep(w, pid, prefix, log, r);
    case Loading => LoadStep(w, pid, prefix, log, r);
    case WritingReady => ReadyStep(w, pid, prefix, log, r);
  }

  lemma EndingStep(w: Worker, pid: nat, prefix: string, log: seq<Event>, r: Reply)
    requires Ending(w.pc) && !w.pc.Exited? && EndingInv(w, pid, prefix, log) && w.pid == pid && w.prefix == prefix
    requires Fits(Action(w), r)
    ensures Inv(Next(w, r), pid, prefix, log + [Event(Action(w), r)])
  {
    Winds(w, r);
    Wound(w, pid, prefix, log, Event(Action(w), r), Next(w, r));
  }

  lemma LoopingStep(w: Worker, pid: nat, prefix: string, log: seq<Event>, r: Reply)
    requires Underway(w, prefix, log) && w.pid == pid && Looping(w.pc) && Fits(Action(w), r)
    ensures Inv(Next(w, r), pid, prefix, log + [Event(Action(w), r)])
  {
    match w.pc
    case CheckingClock(_) => ClockStep(w, pid, prefix, log, r);
    case CheckingHealth(_, _) => HealthStep(w, pid, prefix, log, r);
    case _ => PollStep(w, pid, prefix, log, r);
  }

  lemma StageStep(w: Worker, pid: nat, prefix: string, log: seq<Event>, r: Reply)
    requires Underway(w, prefix, log) && w.pid == pid && !Opening(w.pc) && !Ending(w.pc) && !Looping(w.pc)
    requires Fits(Action(w), r)
    ensures Inv(Next(w, r), pid, prefix, log + [Event(Action(w), r)])
  {
    match w.pc
    case ReadingSnapshot => StagingStep(w, pid, prefix, log, r);
    case WritingTap(_) => StagingStep(w, pid, prefix, log, r);
    case ReadingTap => StagingStep(w, pid, prefix, log, r);
    case Upgrading => UpgradeStep(w, pid, prefix, log, r);
    case CapturingPid => CaptureStep(w, pid, prefix, log, r);
    case Stopping => RestartStep(w, pid, prefix, log, r);
    case Starting => RestartStep(w, pid, prefix, log, r);
    case SettingDeadline => DeadlineStep(w, pid, prefix, log, r);
    case _ => SaveStep(w, pid, prefix, log, r);
  }

  lemma InvStep(w: Worker, pid: nat, prefix: string, log: seq<Event>, r: Reply)
    requires Inv(w, pid, prefix, log) && !w.pc.Exited? && Fits(Action(w), r)
    ensures Inv(Next(w, r), pid, prefix, log + [Event(Action(w), r)])
  {
    if Opening(w.pc) {
      OpeningStep(w, pid, prefix, log, r);
    } else if Ending(w.pc) {
      EndingStep(w, pid, prefix, log, r);
    } else if Looping(w.pc) {
      LoopingStep(w, pid, prefix, log, r);
    } else {
      StageStep(w, pid, prefix, log, r);
    }
  }

  lemma Start(pid: nat, prefix: string)
    ensures Inv(Launched(pid, prefix), pid, prefix, [])
  {
  }

  lemma RunInv(pid: nat, prefix: string, log: seq<Event>)
    requires Valid(Launched(pid, prefix), log)
    ensures Inv(Play(Launched(pid, prefix), log), pid, prefix, log)
  {
    var p: (Worker, seq<Event>) -> bool := (w: Worker, past: seq<Event>) => Inv(w, pid, prefix, past);
    Start(pid, prefix);
    forall w, past, r | p(w, past) && !w.pc.Exited? && Fits(Action(w), r)
      ensures p(Next(w, r), past + [Event(Action(w), r)])
    {
      InvStep(w, pid, prefix, past, r);
    }
    RunInduction(p, Launched(pid, prefix), log);
  }

  // ----- the theorems

  /** Every run that has ended is decided by its replies, and ended as they call for. */
  lemma EndedIsDecided(pid: nat, prefix: string, log: seq<Event>)
    requires Valid(Launched(pid, prefix), log) && Play(Launched(pid, prefix), log).pc.Exited?
    ensures Decided(pid, prefix, log)
  {
    RunInv(pid, prefix, log);
  }

  /** The record as this outcome leaves it. */
  predicate Says(saved: Option<Task>, state: State, stage: Stage, kind: ErrorKind) {
    && saved.Some? && saved.value.state == state && saved.value.phase.NoPhase?
    && saved.value.failureStage == stage && saved.value.errorKind == kind
  }

  predicate SaysSucceeded(saved: Option<Task>) {
    && saved.Some? && saved.value.state.Succeeded? && saved.value.phase.NoPhase?
    && saved.value.cleanupPending && saved.value.succeededAt.Some?
  }

  /** The last load of a run found the record. */
  function Reread(log: seq<Event>): bool {
    if log == [] then false
    else if log[|log| - 1].act.Load? then log[|log| - 1].reply.LoadR? && log[|log| - 1].reply.load.Loaded?
    else Reread(log[..|log| - 1])
  }

  lemma LastOfBody(log: seq<Event>)
    requires log != []
    ensures T.LastSaved(log) == T.LastSaved(Body(log)) && Reread(log) == Reread(Body(log))
  {
  }

  lemma UncertainSays(b: seq<Event>, stage: Stage)
    requires LeavesUncertain(b, stage) && Reread(b)
    ensures Says(T.LastSaved(b), NeedsAttention, stage, OutcomeUnknown)
  {
    if !b[|b| - 1].act.Load? {
      assert b[..|b| - 1][|b| - 2] == b[|b| - 2];
    }
  }

  lemma SuccessSays(b: seq<Event>, was: Task, pid: nat)
    requires LeavesSucceeded(b, was, pid)
    ensures SaysSucceeded(T.LastSaved(b))
  {
  }

  /** What is on record once a run has ended: the replies determine the last save. A worker refused the
      lock, or left with a command nobody can tell about, says so of the record it reads again; a
      proven failure and a proven success are written down. */
  lemma EndedRunOwes(pid: nat, prefix: string, log: seq<Event>)
    requires Valid(Launched(pid, prefix), log) && Play(Launched(pid, prefix), log).pc.Exited?
    ensures var (cs, last) := (T.Commands(log), T.LastSaved(log));
            && (!LockTaken(log) && Reread(log) ==> Says(last, NeedsAttention, LockStage, OutcomeUnknown))
            && (TookOn(log) && cs == [] && log[2].reply == OkR(false) && Reread(log) ==>
                  Says(last, NeedsAttention, ReadyStage, OutcomeUnknown))
            && (TookOn(log) && cs == [] && log[2].reply != OkR(false) ==>
                  StagingFailed(log, Given(log).formula) && Says(last, Failed, SnapshotStage, SnapshotFailed))
            && (TookOn(log) && cs != [] && cs[0].reply.CmdR? &&
                (cs[0].reply.cmd.Exit? || cs[0].reply.cmd.NotStarted?) ==>
                  Says(last, Failed, UpgradeStage, BrewUpgradeFailed))
            && (TookOn(log) && cs != [] && cs[0].reply == CmdR(CmdReply.Unknown) && Reread(log) ==>
                  Says(last, NeedsAttention, UpgradeStage, OutcomeUnknown))
            && (TookOn(log) && cs != [] && DoneWell(cs[0].reply) ==> RestartOwes(log, cs, prefix, last))
  {
    EndedIsDecided(pid, prefix, log);
    LastOfBody(log);
    var (o, b) := (Told(log, prefix), Body(log));
    if o.Uncertain? && Reread(b) {
      UncertainSays(b, o.stage);
    } else if o.Good? {
      SuccessSays(b, Asked(Given(log), T.Commands(log)[1].reply), pid);
    }
  }

  /** After a good upgrade: every stage was reached, and the first one that went wrong is on record. */
  ghost predicate RestartOwes(log: seq<Event>, cs: seq<Event>, prefix: string, last: Option<Task>)
    requires TookOn(log)
  {
    && |cs| >= 2
    && var listed := cs[1].reply.ListR? && !cs[1].reply.list.ListError?;
       && (!listed && Reread(log) ==> Says(last, NeedsAttention, PidStage, OutcomeUnknown))
       && (listed ==> |cs| >= 3)
       && (listed && !DoneWell(cs[2].reply) && Reread(log) ==> Says(last, NeedsAttention, StopStage, OutcomeUnknown))
       && (listed && DoneWell(cs[2].reply) ==> |cs| >= 4)
       && (listed && DoneWell(cs[2].reply) && !DoneWell(cs[3].reply) && Reread(log) ==>
             Says(last, NeedsAttention, StartStage, OutcomeUnknown))
       && (listed && DoneWell(cs[2].reply) && DoneWell(cs[3].reply) ==>
             if Proven(Polls(log), Asked(Given(log), cs[1].reply), prefix) then SaysSucceeded(last)
             else TimeIsUp(Readings(log)) &&
                  (Reread(log) ==> Says(last, NeedsAttention, VerifyStage, OutcomeUnknown)))
  }
}
