/** The one-shot worker as an automaton: one pending action per control point. */
module WorkerAutomaton {
  import opened UpgradeTask
  import opened Effects
  import Health

  const VERIFY_BUDGET: int := 180 * SECOND
  const POLL_EVERY: int := 2 * SECOND

  datatype Pc =
    | Locking
    | Loading
    | WritingReady
    | SavingReady
    | SavingDownloading
    | ReadingSnapshot
    | WritingTap(body: Bytes)
    | ReadingTap
    | SavingInstalling
    | Upgrading
    | SavingRestarting
    | CapturingPid
    | SavingStop
    | Stopping
    | SavingStart
    | Starting
    | SavingVerifying
    | SettingDeadline
    | CheckingClock(deadline: Time)
    | PollingPid(deadline: Time)
    | CheckingHealth(deadline: Time, pid: nat)
    | Sleeping(deadline: Time)
    | StampingSuccess
    | SavingSucceeded
    | BootingOut
    | SavingFailed(stage: Stage, kind: ErrorKind)
    | Reloading(stage: Stage)
    | SavingUnknown(stage: Stage)
    | Unlocking
    | Exited

  /** A worker process: its control point, its in-memory copy of the record, and whether it holds the lock. */
  datatype Worker = Worker(pc: Pc, pid: nat, prefix: string, task: Task, locked: bool)

  function Launched(pid: nat, prefix: string): Worker {
    Worker(Locking, pid, prefix, ZERO_TASK, false)
  }

  /** The pending action. Every Save carries the record as the source has filled it in by then. */
  function Action(w: Worker): Act
    requires !w.pc.Exited?
  {
    match w.pc
    case Locking => TryLock
    case Loading => Load
    case WritingReady => WriteReady(w.pid)
    case SavingReady => Save(w.task)
    case SavingDownloading => Save(w.task.(state := Downloading, phase := TapSnapshot))
    case ReadingSnapshot => ReadSnapshot
    case WritingTap(body) => WriteTap(body)
    case ReadingTap => ReadTap
    case SavingInstalling => Save(w.task.(state := Installing, phase := BrewUpgrade))
    case Upgrading => RunBrew(Upgrade)
    case SavingRestarting => Save(w.task.(state := Restarting, phase := ServicePid))
    case CapturingPid => ListPid
    case SavingStop => Save(w.task.(phase := ServiceStop))
    case Stopping => RunBrew(Stop)
    case SavingStart => Save(w.task.(phase := ServiceStart))
    case Starting => RunBrew(Start)
    case SavingVerifying => Save(w.task.(state := Verifying, phase := Phase.Health))
    case SettingDeadline => ReadClock
    case CheckingClock(_) => ReadClock
    case PollingPid(_) => ListPid
    case CheckingHealth(_, pid) => GetHealth(pid)
    case Sleeping(_) => Sleep
    case StampingSuccess => ReadClock
    case SavingSucceeded => Save(w.task.(state := Succeeded, phase := NoPhase, cleanupPending := true))
    case BootingOut => BootoutSelf
    case SavingFailed(stage, kind) =>
      Save(w.task.(state := Failed, failureStage := stage, errorKind := kind, phase := NoPhase))
    case Reloading(_) => Load
    case SavingUnknown(stage) =>
      Save(w.task.(state := NeedsAttention, failureStage := stage, errorKind := OutcomeUnknown, phase := NoPhase))
    case Unlocking => Unlock
  }

  function Leave(w: Worker): Worker {
    w.(pc := if w.locked then Unlocking else Exited)
  }

  function FailUnknown(w: Worker, stage: Stage): Worker {
    w.(pc := Reloading(stage))
  }

  function Fail(w: Worker, stage: Stage, kind: ErrorKind): Worker {
    w.(pc := SavingFailed(stage, kind))
  }

  function Saved(w: Worker, at: Time, pc: Pc): Worker
    requires !w.pc.Exited? && Action(w).Save?
  {
    w.(task := Written(Action(w).task, at), pc := pc)
  }

  function Next(w: Worker, r: Reply): Worker
    requires !w.pc.Exited? && Fits(Action(w), r)
  {
    match w.pc
    case Locking =>
      if r.lock.Acquired? then w.(locked := true, pc := Loading) else FailUnknown(w, LockStage)
    case Loading =>
      if r.load.Loaded? && r.load.task.state.Queued?
      then w.(task := r.load.task.(workerPid := w.pid), pc := WritingReady)
      else Leave(w)
    case WritingReady => if r.ok then w.(pc := SavingReady) else FailUnknown(w, ReadyStage)
    case SavingReady => Saved(w, r.at, SavingDownloading)
    case SavingDownloading => Saved(w, r.at, ReadingSnapshot)
    case ReadingSnapshot =>
      if r.bytes.Some? && Sha256(r.bytes.value) == w.task.formula
      then w.(pc := WritingTap(r.bytes.value))
      else Fail(w, SnapshotStage, SnapshotFailed)
    case WritingTap(_) =>
      if r.ok then w.(pc := ReadingTap) else Fail(w, SnapshotStage, SnapshotFailed)
    case ReadingTap =>
      if r.bytes.Some? && Sha256(r.bytes.value) == w.task.formula
      then w.(pc := SavingInstalling)
      else Fail(w, SnapshotStage, SnapshotFailed)
    case SavingInstalling => Saved(w, r.at, Upgrading)
    case Upgrading =>
      if r.cmd.Done? then w.(pc := SavingRestarting)
      else if r.cmd.Unknown? then FailUnknown(w, UpgradeStage)
      else Fail(w, UpgradeStage, BrewUpgradeFailed)
    case SavingRestarting => Saved(w, r.at, CapturingPid)
    case CapturingPid =>
      if r.list.ListError? then FailUnknown(w, PidStage)
      else if r.list.Running? then w.(task := w.task.(servicePid := r.list.pid), pc := SavingStop)
      else w.(pc := SavingStop)
    case SavingStop => Saved(w, r.at, Stopping)
    case Stopping => if r.cmd.Done? then w.(pc := SavingStart) else FailUnknown(w, StopStage)
    case SavingStart => Saved(w, r.at, Starting)
    case Starting => if r.cmd.Done? then w.(pc := SavingVerifying) else FailUnknown(w, StartStage)
    case SavingVerifying => Saved(w, r.at, SettingDeadline)
    case SettingDeadline => w.(pc := CheckingClock(r.now + VERIFY_BUDGET))
    case CheckingClock(deadline) =>
      if r.cancelled || !(r.now < deadline) then FailUnknown(w, VerifyStage)
      else w.(pc := PollingPid(deadline))
    case PollingPid(deadline) =>
      if r.list.Running? then w.(pc := CheckingHealth(deadline, r.list.pid)) else w.(pc := Sleeping(deadline))
    case CheckingHealth(deadline, pid) =>
      if Proves(w.task, w.prefix, pid, r.answer)
      then w.(pc := StampingSuccess)
      else w.(pc := Sleeping(deadline))
    case Sleeping(deadline) => w.(pc := CheckingClock(deadline))
    case StampingSuccess => w.(task := w.task.(succeededAt := Some(r.now)), pc := SavingSucceeded)
    case SavingSucceeded => Saved(w, r.at, BootingOut)
    case BootingOut => Leave(w)
    case SavingFailed(_, _) => Leave(Saved(w, r.at, Exited))
    case Reloading(stage) =>
      if r.load.Loaded? then w.(task := r.load.task, pc := SavingUnknown(stage)) else Leave(w)
    case SavingUnknown(_) => Leave(Saved(w, r.at, Exited))
    case Unlocking => w.(locked := false, pc := Exited)
  }

  /** The handshake, with the arguments the worker passes. */
  predicate Proves(t: Task, prefix: string, pid: nat, answer: Health.Answer) {
    Health.Check(t.port, answer, t.targetVersion, t.targetKeg, prefix, "homebrew", pid, t.servicePid).Pass?
  }

  /** A log is valid when every event is the pending action with a fitting reply: any prefix of
      it is valid too, so a valid log is a run cut off at an arbitrary crash point. */
  predicate Valid(w0: Worker, log: seq<Event>)
    decreases |log|, 0
  {
    log == [] ||
    var (past, e) := (log[..|log| - 1], log[|log| - 1]);
    Valid(w0, past) &&
    var w := Play(w0, past);
    !w.pc.Exited? && e.act == Action(w) && Fits(e.act, e.reply)
  }

  function Play(w0: Worker, log: seq<Event>): Worker
    requires Valid(w0, log)
    decreases |log|, 1
  {
    if log == [] then w0
    else Next(Play(w0, log[..|log| - 1]), log[|log| - 1].reply)
  }

  lemma PlayStep(w0: Worker, log: seq<Event>, r: Reply)
    requires Valid(w0, log) && !Play(w0, log).pc.Exited?
    requires Fits(Action(Play(w0, log)), r)
    ensures Valid(w0, log + [Event(Action(Play(w0, log)), r)])
    ensures Play(w0, log + [Event(Action(Play(w0, log)), r)]) == Next(Play(w0, log), r)
  {
    var e := Event(Action(Play(w0, log)), r);
    assert (log + [e])[..|log|] == log;
  }

  lemma {:induction false} PrefixValid(w0: Worker, log: seq<Event>, k: nat)
    requires Valid(w0, log) && k <= |log|
    ensures Valid(w0, log[..k])
    ensures k < |log| ==>
              var w := Play(w0, log[..k]);
              !w.pc.Exited? && log[k].act == Action(w) && Fits(log[k].act, log[k].reply)
  {
    if k == |log| {
      assert log[..k] == log;
    } else if k == |log| - 1 {
      assert log[..k] == log[..|log| - 1];
    } else {
      PrefixValid(w0, log[..|log| - 1], k);
      assert log[..|log| - 1][..k] == log[..k];
    }
  }

  /** What holds at the start and is kept by every step holds of every run. */
  lemma {:induction false} RunInduction(p: (Worker, seq<Event>) -> bool, w0: Worker, log: seq<Event>)
    requires p(w0, [])
    requires forall w, past, r | p(w, past) && !w.pc.Exited? && Fits(Action(w), r) ::
               p(Next(w, r), past + [Event(Action(w), r)])
    requires Valid(w0, log)
    ensures p(Play(w0, log), log)
  {
    if log != [] {
      var (past, e) := (log[..|log| - 1], log[|log| - 1]);
      RunInduction(p, w0, past);
      assert e == Event(Action(Play(w0, past)), e.reply) && log == past + [e];
    }
  }
}
