/** The persisted upgrade task record: states, phases, budgets and the gate for new work. */
module UpgradeTask {
  datatype Option<+T> = None | Some(value: T)

  newtype byte = x: int | 0 <= x < 256
  type Bytes = seq<byte>

  /** A SHA-256 digest in hexadecimal, taken as injective; Blank is the empty string. */
  datatype Digest<+T> = Blank | Sha256(preimage: T)

  type TaskId = string
  type Time = int  // nanoseconds in one time domain

  const SECOND: int := 1_000_000_000
  const CONFIRM_TTL: int := 300 * SECOND
  const BOOTSTRAP_TIMEOUT: int := 15 * SECOND
  const ACCEPTED_BUDGET: int := 1800 * SECOND

  datatype State =
    | Awaiting | Queued | Downloading | Installing | Restarting | Verifying
    | Succeeded | Failed | Expired | NeedsAttention

  predicate Terminal(s: State) {
    s.Succeeded? || s.Failed? || s.Expired? || s.NeedsAttention?
  }

  predicate Inflight(s: State) {
    s.Downloading? || s.Installing? || s.Restarting? || s.Verifying?
  }

  /** The position of a state along the protocol. */
  function Rank(s: State): (r: nat)
    ensures r == 6 <==> Terminal(s)
  {
    match s
    case Awaiting => 0
    case Queued => 1
    case Downloading => 2
    case Installing => 3
    case Restarting => 4
    case Verifying => 5
    case _ => 6
  }

  datatype Phase =
    | NoPhase | Launching | Launch | TapSnapshot | BrewUpgrade
    | ServicePid | ServiceStop | ServiceStart | Health

  datatype Stage =
    | NoStage | LockStage | ReadyStage | SnapshotStage | UpgradeStage
    | PidStage | StopStage | StartStage | VerifyStage

  datatype ErrorKind =
    | NoError | LaunchFailed | BudgetExhausted | WorkerExited | LaunchUnresolved
    | WorkerNeverStarted | SnapshotFailed | BrewUpgradeFailed | OutcomeUnknown | CorruptRecord

  /** One task.json. Process identifiers are 0 when absent, as in the record. */
  datatype Task = Task(
    id: TaskId,
    state: State,
    initiator: string,
    targetVersion: string,
    targetKeg: string,
    formula: Digest<Bytes>,
    credential: Digest<string>,
    accepted: Digest<string>,
    expiry: Time,
    port: int,
    servicePid: nat,
    phase: Phase,
    failureStage: Stage,
    errorKind: ErrorKind,
    workerPid: nat,
    launchAttempt: nat,
    launchUnknown: bool,
    cleanupPending: bool,
    cleaned: bool,
    createdAt: Time,
    updatedAt: Time,
    succeededAt: Option<Time>)

  /** The zero record, as the runtime allocates it. */
  const ZERO_TASK: Task :=
    Task("", Awaiting, "", "", "", Blank, Blank, Blank, 0, 0, 0, NoPhase, NoStage, NoError,
         0, 0, false, false, false, 0, 0, None)

  /** The record Prepare writes: nothing launched, nothing accepted, one secret outstanding. */
  function FreshTask(id: TaskId, initiator: string, stable: string, raw: string, body: Bytes,
                     secret: string, port: int, now: Time): Task
  {
    ZERO_TASK.(id := id, initiator := initiator, targetVersion := stable, targetKeg := raw,
    formula := Sha256(body), credential := Sha256(secret), expiry := now + CONFIRM_TTL,
    port := port, createdAt := now, updatedAt := now)
  }

  /** Work that keeps a new upgrade out: unresolved records and anything not provably finished. */
  predicate Blocks(t: Task, now: Time) {
    || t.state.NeedsAttention?
    || (!Terminal(t.state) && !(t.state.Awaiting? && t.expiry < now))
  }

  /** The gate for new work. It reports unresolved work first, else the newest pending task. */
  method ActiveTask(tasks: seq<Task>, now: Time) returns (active: Option<Task>)
    ensures active.None? <==> forall t | t in tasks :: !Blocks(t, now)
    ensures active.Some? ==> Blocks(active.value, now)
    ensures active.Some? ==>
              exists i :: 0 <= i < |tasks| && tasks[i] == active.value &&
                          if active.value.state.NeedsAttention?
                          then forall j | 0 <= j < i :: !tasks[j].state.NeedsAttention?
                          else (forall j | i < j < |tasks| :: !Blocks(tasks[j], now)) &&
                               (forall j | 0 <= j < |tasks| :: !tasks[j].state.NeedsAttention?)
  {
    var pending := None;
    var at := 0;
    for k := 0 to |tasks|
      invariant forall j | 0 <= j < k :: !tasks[j].state.NeedsAttention?
      invariant pending.None? ==> forall j | 0 <= j < k :: !Blocks(tasks[j], now)
      invariant pending.Some? ==> 0 <= at < k && tasks[at] == pending.value && Blocks(pending.value, now)
      invariant pending.Some? ==> forall j | at < j < k :: !Blocks(tasks[j], now)
    {
      if tasks[k].state.NeedsAttention? {
        assert tasks[k] in tasks;
        return Some(tasks[k]);
      }
      if !Terminal(tasks[k].state) {
        if tasks[k].state.Awaiting? && tasks[k].expiry < now {
          continue;
        }
        pending := Some(tasks[k]);
        at := k;
      }
    }
    return pending;
  }
}
