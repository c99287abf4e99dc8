/** What the upgrade processes do to the world, one action at a time, and what the world answers. */
module Effects {
  import opened UpgradeTask
  import Health

  datatype Brew = Upgrade | Stop | Start

  datatype Act =
    | TryLock
    | Unlock
    | Load
    | Save(task: Task)
    | WriteReady(pid: nat)
    | ReadSnapshot
    | WriteTap(body: Bytes)
    | ReadTap
    | RunBrew(cmd: Brew)
    | ListPid
    | ReadClock
    | GetHealth(pid: nat)
    | Sleep
    | BootoutSelf
    | PrepareFiles
    | Bootstrap
    | Probe
    | Bootout
    | AppendIndex(task: Task)
    | RemoveDir

  datatype LockReply = Acquired | Busy | LockError
  datatype LoadReply = LoadError | Missing | Loaded(task: Task)

  /** A command ends well, ends with an exit code, never starts, or nothing is known about it. */
  datatype CmdReply = Done | Exit(code: int) | NotStarted | Unknown
  datatype ListReply = ListError | NotRunning | Running(pid: nat)

  datatype Reply =
    | LockR(lock: LockReply)
    | LoadR(load: LoadReply)
    | SavedR(at: Time)
    | OkR(ok: bool)
    | BytesR(bytes: Option<Bytes>)
    | CmdR(cmd: CmdReply)
    | ListR(list: ListReply)
    | ClockR(cancelled: bool, now: Time)
    | HealthR(answer: Health.Answer)
    | AckR

  datatype Event = Event(act: Act, reply: Reply)

  /** The replies an action can get. */
  predicate Fits(a: Act, r: Reply) {
    match a
    case TryLock => r.LockR?
    case Load => r.LoadR?
    case Save(_) => r.SavedR?
    case ReadSnapshot => r.BytesR?
    case ReadTap => r.BytesR?
    case RunBrew(_) => r.CmdR?
    case Bootstrap => r.CmdR?
    case ListPid => r.ListR?
    case ReadClock => r.ClockR?
    case GetHealth(_) => r.HealthR?
    case WriteReady(_) => r.OkR?
    case WriteTap(_) => r.OkR?
    case PrepareFiles => r.OkR?
    case Probe => r.OkR?
    case Bootout => r.OkR?
    case AppendIndex(_) => r.OkR?
    case _ => r.AckR?
  }

  /** The record a Save leaves on disk: the store stamps it with its clock. */
  function Written(t: Task, at: Time): Task { t.(updatedAt := at) }
}
