/** Confirming a task: the manager's Submit as an automaton over one task record. */
module SubmitAutomaton {
  import opened UpgradeTask
  import opened Effects

  datatype Request = Request(confirm: bool, initiator: string, credential: string)

  datatype Pc =
    | Locking | Loading | ReadingClock | SavingExpired | SavingQueued | Preparing
    | Bootstrapping | SavingLaunched | SavingUnknown | SavingAttention | Unlocking | Exited

  datatype Submitter = Submitter(pc: Pc, req: Request, task: Task)

  function Arrived(req: Request): Submitter {
    Submitter(if req.confirm then Locking else Exited, req, ZERO_TASK)
  }

  /** The record as accepted: the secret's digest moves, nothing has been launched yet. */
  function Accepted(t: Task, credential: string): Task {
    t.(state := Queued, phase := Launching, accepted := Sha256(credential), credential := Blank)
  }

  /** The record after a launch that did not provably start a job. */
  function Unlaunched(t: Task): Task {
    t.(phase := Launch, state := NeedsAttention, errorKind := LaunchFailed)
  }

  function Action(s: Submitter): Act
    requires !s.pc.Exited?
  {
    match s.pc
    case Locking => TryLock
    case Loading => Load
    case ReadingClock => ReadClock
    case SavingExpired => Save(s.task.(state := Expired))
    case SavingQueued => Save(Accepted(s.task, s.req.credential))
    case Preparing => PrepareFiles
    case Bootstrapping => Bootstrap
    case SavingLaunched => Save(s.task)
    case SavingUnknown => Save(s.task)
    case SavingAttention => Save(Unlaunched(s.task))
    case Unlocking => Unlock
  }

  function Next(s: Submitter, r: Reply): Submitter
    requires !s.pc.Exited? && Fits(Action(s), r)
  {
    match s.pc
    case Locking => s.(pc := if r.lock.Acquired? then Loading else Exited)
    case Loading =>
      if r.load.Loaded? && r.load.task.initiator == s.req.initiator && r.load.task.state.Awaiting?
      then s.(task := r.load.task, pc := ReadingClock)
      else s.(pc := Unlocking)
    case ReadingClock =>
      if r.now > s.task.expiry then s.(pc := SavingExpired)
      else if Sha256(s.req.credential) != s.task.credential then s.(pc := Unlocking)
      else s.(pc := SavingQueued)
    case SavingExpired => s.(pc := Unlocking)
    case SavingQueued => s.(task := Written(Accepted(s.task, s.req.credential), r.at), pc := Preparing)
    case Preparing =>
      if r.ok
      then s.(task := s.task.(launchAttempt := s.task.launchAttempt + 1), pc := Bootstrapping)
      else s.(pc := SavingAttention)
    case Bootstrapping =>
      if r.cmd.Done? then s.(pc := SavingLaunched)
      else s.(task := s.task.(launchUnknown := true), pc := SavingUnknown)
    case SavingLaunched => s.(task := Written(s.task, r.at), pc := Unlocking)
    case SavingUnknown => s.(task := Written(s.task, r.at), pc := SavingAttention)
    case SavingAttention => s.(pc := Unlocking)
    case Unlocking => s.(pc := Exited)
  }

  predicate HoldsLock(s: Submitter) {
    !s.pc.Locking? && !s.pc.Exited?
  }

  // ----- what one submit leaves behind

  /** How far the launch of an accepted task gets, including where the submitting process may die.
      job says whether launchd holds the job when the bootstrap outcome is not known. */
  datatype Launch =
    | DiedFirst
    | FilesFailed
    | DiedBooted(job: bool)
    | Booted
    | DiedUnknown(job: bool)
    | BootUnknown(job: bool)

  predicate JobLoaded(l: Launch) {
    match l
    case DiedBooted(job) => job
    case Booted => true
    case DiedUnknown(job) => job
    case BootUnknown(job) => job
    case _ => false
  }

  /** The record an accepted submit leaves, accepted at now and last saved at later. */
  function Left(t: Task, credential: string, l: Launch, now: Time, later: Time): Task {
    var queued := Written(Accepted(t, credential), now);
    var tried := queued.(launchAttempt := queued.launchAttempt + 1);
    match l
    case DiedFirst => queued
    case FilesFailed => Written(Unlaunched(queued), later)
    case DiedBooted(_) => queued
    case Booted => Written(tried, later)
    case DiedUnknown(_) => Written(tried.(launchUnknown := true), later)
    case BootUnknown(_) => Written(Unlaunched(tried.(launchUnknown := true)), later)
  }
}
