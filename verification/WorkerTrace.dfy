/** What every run of the worker satisfies, for every sequence of replies and every crash point. */
module WorkerTrace {
  import opened UpgradeTask
  import opened Effects
  import opened WorkerAutomaton

  predicate IsCommand(a: Act) { a.RunBrew? || a.ListPid? }

  /** The commands of a log with their replies, in order. */
  function Commands(log: seq<Event>): seq<Event> {
    if log == [] then []
    else
      var (past, e) := (Commands(log[..|log| - 1]), log[|log| - 1]);
      if IsCommand(e.act) then past + [e] else past
  }

  function LastSaved(log: seq<Event>): Option<Task> {
    if log == [] then None
    else if log[|log| - 1].act.Save? then Some(log[|log| - 1].act.task)
    else LastSaved(log[..|log| - 1])
  }

  ghost predicate SavedState(log: seq<Event>, s: State) {
    exists k :: 0 <= k < |log| && SavesAt(log, k, s)
  }

  ghost predicate SavesAt(log: seq<Event>, k: int, s: State)
    requires 0 <= k < |log|
  {
    log[k].act.Save? && log[k].act.task.state == s
  }

  /** The command plan: upgrade, list, stop, start, then only list. */
  function Planned(k: nat): Act {
    if k == 0 then RunBrew(Upgrade)
    else if k == 2 then RunBrew(Stop)
    else if k == 3 then RunBrew(Start)
    else ListPid
  }

  ghost predicate Succeeds(e: Event) {
    (e.reply.CmdR? && e.reply.cmd.Done?) || (e.reply.ListR? && !e.reply.list.ListError?)
  }

  ghost predicate OutcomeUnproven(e: Event) {
    (e.reply.CmdR? && e.reply.cmd.Unknown?) || (e.reply.ListR? && e.reply.list.ListError?)
  }

  /** The commands follow the plan, and each of the first four runs only after the previous one succeeded. */
  ghost predicate InOrder(cs: seq<Event>) {
    && (forall k | 0 <= k < |cs| :: cs[k].act == Planned(k))
    && (forall k | 0 <= k < |cs| - 1 && k < 4 :: Succeeds(cs[k]))
  }

  /** A failure with proof: no command was issued, or `brew upgrade` exited or never started. */
  ghost predicate ProvenFailure(cs: seq<Event>) {
    || cs == []
    || (|cs| == 1 && cs[0].act == RunBrew(Upgrade) && cs[0].reply.CmdR? &&
        (cs[0].reply.cmd.Exit? || cs[0].reply.cmd.NotStarted?))
  }

  /** Upgrade, stop and start returned without error, and t holds the PID captured before stop, if any. */
  ghost predicate Restarted(cs: seq<Event>, t: Task) {
    && |cs| >= 4
    && InOrder(cs)
    && Succeeds(cs[3])
    && Captured(cs, t.servicePid)
  }

  /** The deadline is the first clock reading after `verifying` was saved, plus the budget. */
  ghost predicate DeadlineAt(log: seq<Event>, d: int, deadline: Time) {
    && 1 <= d < |log|
    && log[d - 1].act.Save? && log[d - 1].act.task.state.Verifying?
    && log[d].act.ReadClock? && log[d].reply.ClockR?
    && deadline == log[d].reply.now + VERIFY_BUDGET
  }

  /** A poll begun before the deadline saw the service running and proving the target. */
  ghost predicate PollAt(log: seq<Event>, k: int, deadline: Time, t: Task, prefix: string) {
    && 0 <= k && k + 2 < |log|
    && log[k].act.ReadClock? && log[k].reply.ClockR? && log[k].reply.now < deadline
    && log[k + 1].act.ListPid? && log[k + 1].reply.ListR? && log[k + 1].reply.list.Running?
    && log[k + 2].act == GetHealth(log[k + 1].reply.list.pid) && log[k + 2].reply.HealthR?
    && Proves(t, prefix, log[k + 1].reply.list.pid, log[k + 2].reply.answer)
  }

  /** All the evidence the record `succeeded` stands for. */
  ghost predicate Truthful(log: seq<Event>, t: Task, prefix: string) {
    && Restarted(Commands(log), t)
    && exists d, k, deadline :: DeadlineAt(log, d, deadline) && PollAt(log, k, deadline, t, prefix)
  }

  // ----- the invariant, one predicate per aspect

  /** How many commands of the plan are behind a control point; -1 once the run is ending. */
  function Behind(pc: Pc): (n: int)
    ensures -1 <= n <= 4
  {
    match pc
    case SavingRestarting => 1
    case CapturingPid => 1
    case SavingStop => 2
    case Stopping => 2
    case SavingStart => 3
    case Starting => 3
    case SavingVerifying => 4
    case SettingDeadline => 4
    case CheckingClock(_) => 4
    case PollingPid(_) => 4
    case CheckingHealth(_, _) => 4
    case Sleeping(_) => 4
    case StampingSuccess => 4
    case SavingSucceeded => 4
    case BootingOut => -1
    case SavingFailed(_, _) => -1
    case Reloading(_) => -1
    case SavingUnknown(_) => -1
    case Unlocking => -1
    case Exited => -1
    case _ => 0
  }

  /** Which commands are behind each control point. */
  ghost predicate CommandInv(w: Worker, cs: seq<Event>) {
    && InOrder(cs)
    && Ready(Behind(w.pc), cs, w.task.servicePid)
    && (w.pc.SavingFailed? ==> ProvenFailure(cs))
  }

  ghost predicate Captured(cs: seq<Event>, servicePid: nat)
    requires |cs| >= 2
  {
    cs[1].reply.ListR? && (cs[1].reply.list.Running? ==> servicePid == cs[1].reply.list.pid)
  }

  /** The state of the in-memory record where a Save does not set it. */
  ghost predicate StateInv(w: Worker) { QueuedInv(w) && RestartInv(w) }

  ghost predicate QueuedInv(w: Worker) {
    w.pc.WritingReady? || w.pc.SavingReady? ==> w.task.state.Queued?
  }

  ghost predicate RestartInv(w: Worker) {
    w.pc.CapturingPid? || w.pc.SavingStop? || w.pc.Stopping? || w.pc.SavingStart? ==> w.task.state.Restarting?
  }

  /** What must be on disk, by the worker's own saves, while an external action is pending. */
  function Expected(pc: Pc): Option<(State, Phase)> {
    match pc
    case ReadingSnapshot => Some((Downloading, TapSnapshot))
    case WritingTap(_) => Some((Downloading, TapSnapshot))
    case ReadingTap => Some((Downloading, TapSnapshot))
    case Upgrading => Some((Installing, BrewUpgrade))
    case CapturingPid => Some((Restarting, ServicePid))
    case Stopping => Some((Restarting, ServiceStop))
    case Starting => Some((Restarting, ServiceStart))
    case SettingDeadline => Some((Verifying, Phase.Health))
    case CheckingClock(_) => Some((Verifying, Phase.Health))
    case PollingPid(_) => Some((Verifying, Phase.Health))
    case CheckingHealth(_, _) => Some((Verifying, Phase.Health))
    case Sleeping(_) => Some((Verifying, Phase.Health))
    case _ => None
  }

  ghost predicate WriteAheadInv(pc: Pc, saved: Option<Task>) {
    Expected(pc).Some? ==> Names(saved, Expected(pc).value.0, Expected(pc).value.1)
  }

  ghost predicate Names(saved: Option<Task>, s: State, p: Phase) {
    saved.Some? && saved.value.state == s && saved.value.phase == p
  }

  /** Verification evidence gathered so far. */
  ghost predicate VerifyInv(w: Worker, log: seq<Event>) {
    var n := |log|;
    match w.pc
    case SettingDeadline => n >= 1 && log[n - 1].act.Save? && log[n - 1].act.task.state.Verifying?
    case CheckingClock(deadline) => exists d :: DeadlineAt(log, d, deadline)
    case PollingPid(deadline) =>
      && (exists d :: DeadlineAt(log, d, deadline))
      && n >= 1 && log[n - 1].act.ReadClock? && log[n - 1].reply.ClockR? && log[n - 1].reply.now < deadline
    case CheckingHealth(deadline, pid) =>
      && (exists d :: DeadlineAt(log, d, deadline))
      && n >= 2 && log[n - 2].act.ReadClock? && log[n - 2].reply.ClockR? && log[n - 2].reply.now < deadline
      && log[n - 1].act.ListPid? && log[n - 1].reply == ListR(Running(pid))
    case Sleeping(deadline) => exists d :: DeadlineAt(log, d, deadline)
    case StampingSuccess =>
      exists d, k, deadline :: DeadlineAt(log, d, deadline) && PollAt(log, k, deadline, w.task, w.prefix)
    case SavingSucceeded =>
      exists d, k, deadline :: DeadlineAt(log, d, deadline) && PollAt(log, k, deadline, w.task, w.prefix)
    case _ => true
  }

  /** Where the run is once a terminal record is in the log, and what that record stands for. */
  ghost predicate FailedInv(w: Worker, log: seq<Event>) {
    SavedState(log, Failed) ==> (w.pc.Unlocking? || w.pc.Exited?) && ProvenFailure(Commands(log))
  }

  ghost predicate SucceededInv(w: Worker, log: seq<Event>) {
    && (SavedState(log, Succeeded) ==> w.pc.BootingOut? || w.pc.Unlocking? || w.pc.Exited?)
    && (forall k | 0 <= k < |log| && SavesAt(log, k, Succeeded) :: Truthful(log, log[k].act.task, w.prefix))
  }

  /** The bytes read back from the tap right before `brew upgrade` match the record's digest. */
  ghost predicate TapReadAt(log: seq<Event>, k: int, formula: Digest<Bytes>) {
    && 0 <= k < |log|
    && log[k].act.ReadTap? && log[k].reply.BytesR? && log[k].reply.bytes.Some?
    && Sha256(log[k].reply.bytes.value) == formula
  }

  ghost predicate FixityInv(w: Worker, log: seq<Event>) {
    match w.pc
    case SavingInstalling => TapReadAt(log, |log| - 1, w.task.formula)
    case Upgrading =>
      && TapReadAt(log, |log| - 2, w.task.formula)
      && log[|log| - 1].act.Save? && log[|log| - 1].act.task.formula == w.task.formula
    case _ => true
  }

  /** Downloading is saved before the first command. */
  ghost predicate CommitInv(w: Worker, committed: bool, idle: bool) {
    && (idle || committed)
    && (w.pc.Locking? || w.pc.Loading? || w.pc.WritingReady? || w.pc.SavingReady? || w.pc.SavingDownloading?
        ==> !committed)
    && (Behind(w.pc) >= 0 && committed == false
        ==> w.pc.Locking? || w.pc.Loading? || w.pc.WritingReady? || w.pc.SavingReady? || w.pc.SavingDownloading?)
  }

  // ----- every step keeps it

  lemma SavedStateStep(log: seq<Event>, e: Event, s: State)
    ensures SavedState(log + [e], s) <==> SavedState(log, s) || (e.act.Save? && e.act.task.state == s)
  {
    if SavedState(log, s) {
      var k :| 0 <= k < |log| && SavesAt(log, k, s);
      assert SavesAt(log + [e], k, s);
    }
    if e.act.Save? && e.act.task.state == s {
      assert SavesAt(log + [e], |log|, s);
    }
    if SavedState(log + [e], s) {
      var k :| 0 <= k < |log + [e]| && SavesAt(log + [e], k, s);
      if k < |log| { assert SavesAt(log, k, s); }
    }
  }

  lemma FoldStep(log: seq<Event>, e: Event)
    ensures Commands(log + [e]) == if IsCommand(e.act) then Commands(log) + [e] else Commands(log)
    ensures LastSaved(log + [e]) == if e.act.Save? then Some(e.act.task) else LastSaved(log)
  {
    assert (log + [e])[..|log|] == log;
  }

  /** A command is always the planned one, and only its success moves the plan on. */
  lemma CommandPlan(w: Worker, r: Reply)
    requires !w.pc.Exited? && Fits(Action(w), r) && IsCommand(Action(w))
    ensures var (n, w', e) := (Behind(w.pc), Next(w, r), Event(Action(w), r));
            && n >= 0
            && e.act == Planned(n)
            && (Behind(w'.pc) >= 0 ==> Behind(w'.pc) == (if n < 4 then n + 1 else 4) && (n < 4 ==> Succeeds(e)))
            && (w'.pc.SavingFailed? ==> n == 0 && r.CmdR? && (r.cmd.Exit? || r.cmd.NotStarted?))
            && (if n == 1 && Behind(w'.pc) == 2
                then r.ListR? && (r.list.Running? ==> w'.task.servicePid == r.list.pid)
                else w'.task.servicePid == w.task.servicePid)
  {
  }

  /** Any other action leaves the plan where it is. */
  lemma QuietPlan(w: Worker, r: Reply)
    requires !w.pc.Exited? && Fits(Action(w), r) && !IsCommand(Action(w))
    ensures var (n, w') := (Behind(w.pc), Next(w, r));
            && (Behind(w'.pc) >= 0 ==> Behind(w'.pc) == n)
            && (Behind(w'.pc) >= 2 ==> w'.task.servicePid == w.task.servicePid)
            && (w'.pc.SavingFailed? ==> n == 0)
  {
    if Action(w).Save? {
      SavePlan(w, r);
    }
  }

  lemma SavePlan(w: Worker, r: Reply)
    requires !w.pc.Exited? && Action(w).Save? && r.SavedR?
    ensures var (n, w') := (Behind(w.pc), Next(w, r));
            && (Behind(w'.pc) >= 0 ==> Behind(w'.pc) == n)
            && w'.task.servicePid == w.task.servicePid && !w'.pc.SavingFailed?
  {
  }

  lemma InOrderAppend(cs: seq<Event>, e: Event)
    requires InOrder(cs) && e.act == Planned(|cs|)
    requires 0 < |cs| <= 4 ==> Succeeds(cs[|cs| - 1])
    ensures InOrder(cs + [e])
  {
  }

  /** The invariant seen from the plan position alone. */
  ghost predicate Ready(n: int, cs: seq<Event>, servicePid: nat)
    requires n <= 4
  {
    && (0 <= n < 4 ==> |cs| == n)
    && (n == 4 ==> |cs| >= 4)
    && (n >= 1 ==> Succeeds(cs[n - 1]))
    && (n >= 2 ==> Captured(cs, servicePid))
  }

  lemma ReadyStep(n: int, n': int, cs: seq<Event>, e: Event, pid: nat, pid': nat)
    requires InOrder(cs) && 0 <= n <= 4 && Ready(n, cs, pid) && e.act == Planned(n)
    requires n' >= 0 ==> n' == (if n < 4 then n + 1 else 4) && (n < 4 ==> Succeeds(e))
    requires if n == 1 && n' == 2
             then e.reply.ListR? && (e.reply.list.Running? ==> pid' == e.reply.list.pid)
             else pid' == pid
    ensures InOrder(cs + [e])
    ensures n' >= 0 ==> Ready(n', cs + [e], pid')
  {
    InOrderAppend(cs, e);
  }

  lemma CommandStep(w: Worker, log: seq<Event>, r: Reply)
    requires CommandInv(w, Commands(log)) && !w.pc.Exited? && Fits(Action(w), r)
    ensures CommandInv(Next(w, r), Commands(log + [Event(Action(w), r)]))
  {
    var (e, w', cs) := (Event(Action(w), r), Next(w, r), Commands(log));
    FoldStep(log, e);
    if IsCommand(e.act) {
      CommandPlan(w, r);
      ReadyStep(Behind(w.pc), Behind(w'.pc), cs, e, w.task.servicePid, w'.task.servicePid);
    } else {
      QuietPlan(w, r);
    }
  }

  lemma PrefixStays(w: Worker, r: Reply)
    requires !w.pc.Exited? && Fits(Action(w), r)
    ensures Next(w, r).prefix == w.prefix
  {
  }

  lemma QueuedStays(w: Worker, r: Reply)
    requires QueuedInv(w) && !w.pc.Exited? && Fits(Action(w), r)
    ensures QueuedInv(Next(w, r))
  {
  }

  lemma RestartStays(w: Worker, r: Reply)
    requires RestartInv(w) && !w.pc.Exited? && Fits(Action(w), r)
    ensures RestartInv(Next(w, r))
  {
  }

  lemma StateStep(w: Worker, r: Reply)
    requires StateInv(w) && !w.pc.Exited? && Fits(Action(w), r)
    ensures StateInv(Next(w, r)) && Next(w, r).prefix == w.prefix
  {
    PrefixStays(w, r);
    QueuedStays(w, r);
    RestartStays(w, r);
  }

  lemma WriteAheadStep(w: Worker, r: Reply)
    requires StateInv(w) && !w.pc.Exited? && Fits(Action(w), r)
    requires Expected(Next(w, r).pc).Some?
    ensures if Action(w).Save?
            then Expected(Next(w, r).pc).value == (Action(w).task.state, Action(w).task.phase)
            else Expected(Next(w, r).pc) == Expected(w.pc)
  {
    if Action(w).Save? {
      SaveNamesNext(w, r);
    } else {
      QuietNamesNext(w, r);
    }
  }

  lemma SaveNamesNext(w: Worker, r: Reply)
    requires StateInv(w) && !w.pc.Exited? && Action(w).Save? && r.SavedR? && Expected(Next(w, r).pc).Some?
    ensures Expected(Next(w, r).pc).value == (Action(w).task.state, Action(w).task.phase)
  {
  }

  lemma QuietNamesNext(w: Worker, r: Reply)
    requires !w.pc.Exited? && Fits(Action(w), r) && !Action(w).Save? && Expected(Next(w, r).pc).Some?
    ensures Expected(Next(w, r).pc) == Expected(w.pc)
  {
    if Behind(w.pc) == 4 {
      match w.pc
      case CheckingClock(_) => ClockNamesNext(w, r);
      case PollingPid(_) => PollNamesNext(w, r);
      case CheckingHealth(_, _) => HealthNamesNext(w, r);
      case _ =>
    } else {
      StageNamesNext(w, r);
    }
  }

  lemma StageNamesNext(w: Worker, r: Reply)
    requires Behind(w.pc) < 4 && !w.pc.Exited? && Fits(Action(w), r) && !Action(w).Save?
    requires Expected(Next(w, r).pc).Some?
    ensures Expected(Next(w, r).pc) == Expected(w.pc)
  {
  }

  lemma ClockNamesNext(w: Worker, r: Reply)
    requires w.pc.CheckingClock? && r.ClockR?
    ensures Next(w, r).pc.PollingPid? || Next(w, r).pc.Reloading?
  {
  }

  lemma PollNamesNext(w: Worker, r: Reply)
    requires w.pc.PollingPid? && r.ListR?
    ensures Next(w, r).pc.CheckingHealth? || Next(w, r).pc.Sleeping?
  {
  }

  lemma HealthNamesNext(w: Worker, r: Reply)
    requires w.pc.CheckingHealth? && r.HealthR?
    ensures Next(w, r).pc.StampingSuccess? || Next(w, r).pc.Sleeping?
  {
  }

  lemma FixityStep(w: Worker, log: seq<Event>, r: Reply)
    requires FixityInv(w, log) && !w.pc.Exited? && Fits(Action(w), r)
    ensures FixityInv(Next(w, r), log + [Event(Action(w), r)])
  {
  }

  lemma CommitStep(w: Worker, committed: bool, idle: bool, r: Reply)
    requires CommitInv(w, committed, idle) && StateInv(w) && !w.pc.Exited? && Fits(Action(w), r)
    ensures var a := Action(w);
            CommitInv(Next(w, r), committed || (a.Save? && a.task.state.Downloading?), idle && !IsCommand(a))
  {
  }

  lemma EvidenceStep(log: seq<Event>, e: Event)
    ensures forall d, deadline {:trigger DeadlineAt(log, d, deadline)} ::
              DeadlineAt(log, d, deadline) ==> DeadlineAt(log + [e], d, deadline)
    ensures forall k, deadline, t, prefix {:trigger PollAt(log + [e], k, deadline, t, prefix)}
              {:trigger PollAt(log, k, deadline, t, prefix)} ::
              PollAt(log, k, deadline, t, prefix) ==> PollAt(log + [e], k, deadline, t, prefix)
  {
  }

  lemma VerifyStep(w: Worker, log: seq<Event>, r: Reply)
    requires VerifyInv(w, log) && !w.pc.Exited? && Fits(Action(w), r)
    ensures VerifyInv(Next(w, r), log + [Event(Action(w), r)])
  {
    match w.pc
    case SettingDeadline => DeadlineStep(w, log, r);
    case CheckingHealth(_, _) => HealthStep(w, log, r);
    case StampingSuccess => StampStep(w, log, r);
    case _ => EvidenceStep(log, Event(Action(w), r));
  }

  lemma DeadlineStep(w: Worker, log: seq<Event>, r: Reply)
    requires VerifyInv(w, log) && w.pc.SettingDeadline? && r.ClockR?
    ensures VerifyInv(Next(w, r), log + [Event(Action(w), r)])
  {
    assert DeadlineAt(log + [Event(Action(w), r)], |log|, r.now + VERIFY_BUDGET);
  }

  lemma HealthStep(w: Worker, log: seq<Event>, r: Reply)
    requires VerifyInv(w, log) && w.pc.CheckingHealth? && r.HealthR?
    ensures VerifyInv(Next(w, r), log + [Event(Action(w), r)])
  {
    var e := Event(Action(w), r);
    EvidenceStep(log, e);
    var d :| DeadlineAt(log, d, w.pc.deadline);
    assert DeadlineAt(log + [e], d, w.pc.deadline);
    if Proves(w.task, w.prefix, w.pc.pid, r.answer) {
      assert PollAt(log + [e], |log| - 2, w.pc.deadline, w.task, w.prefix);
    }
  }

  lemma StampStep(w: Worker, log: seq<Event>, r: Reply)
    requires VerifyInv(w, log) && w.pc.StampingSuccess? && r.ClockR?
    ensures VerifyInv(Next(w, r), log + [Event(Action(w), r)])
  {
    var e := Event(Action(w), r);
    EvidenceStep(log, e);
    var d, k, deadline :| DeadlineAt(log, d, deadline) && PollAt(log, k, deadline, w.task, w.prefix);
    assert DeadlineAt(log + [e], d, deadline) && PollAt(log + [e], k, deadline, Next(w, r).task, w.prefix);
  }

  lemma TruthfulStep(log: seq<Event>, e: Event, t: Task, prefix: string)
    requires Truthful(log, t, prefix)
    requires !IsCommand(e.act)
    ensures Truthful(log + [e], t, prefix)
  {
    FoldStep(log, e);
    EvidenceStep(log, e);
    var d, k, deadline :| DeadlineAt(log, d, deadline) && PollAt(log, k, deadline, t, prefix);
    assert DeadlineAt(log + [e], d, deadline) && PollAt(log + [e], k, deadline, t, prefix);
  }

  lemma SuccessStep(w: Worker, log: seq<Event>, r: Reply)
    requires CommandInv(w, Commands(log)) && VerifyInv(w, log) && w.pc.SavingSucceeded? && Fits(Action(w), r)
    ensures Truthful(log + [Event(Action(w), r)], Action(w).task, w.prefix)
  {
    var e := Event(Action(w), r);
    FoldStep(log, e);
    EvidenceStep(log, e);
    var d, k, deadline :| DeadlineAt(log, d, deadline) && PollAt(log, k, deadline, w.task, w.prefix);
    assert DeadlineAt(log + [e], d, deadline) && PollAt(log + [e], k, deadline, e.act.task, w.prefix);
  }

  /** Where each terminal record is written, and that a run that wrote one only winds down. */
  lemma EndingStep(w: Worker, r: Reply)
    requires StateInv(w) && !w.pc.Exited? && Fits(Action(w), r)
    ensures Action(w).Save? && Action(w).task.state.Failed? ==>
              w.pc.SavingFailed? && (Next(w, r).pc.Unlocking? || Next(w, r).pc.Exited?)
    ensures Action(w).Save? && Action(w).task.state.Succeeded? ==>
              w.pc.SavingSucceeded? && Next(w, r).pc.BootingOut?
    ensures w.pc.Unlocking? ==> Next(w, r).pc.Exited?
    ensures w.pc.BootingOut? ==> Next(w, r).pc.Unlocking? || Next(w, r).pc.Exited?
    ensures w.pc.Unlocking? || w.pc.BootingOut? || w.pc.SavingFailed? || w.pc.SavingSucceeded?
            ==> !IsCommand(Action(w))
  {
  }

  lemma FailedStep(w: Worker, log: seq<Event>, r: Reply)
    requires CommandInv(w, Commands(log)) && StateInv(w) && FailedInv(w, log)
    requires !w.pc.Exited? && Fits(Action(w), r)
    ensures FailedInv(Next(w, r), log + [Event(Action(w), r)])
  {
    FoldStep(log, Event(Action(w), r));
    SavedStateStep(log, Event(Action(w), r), Failed);
    EndingStep(w, r);
  }

  lemma SucceededStep(w: Worker, log: seq<Event>, r: Reply)
    requires CommandInv(w, Commands(log)) && VerifyInv(w, log) && StateInv(w) && SucceededInv(w, log)
    requires !w.pc.Exited? && Fits(Action(w), r)
    ensures SucceededInv(Next(w, r), log + [Event(Action(w), r)])
  {
    var e := Event(Action(w), r);
    var log' := log + [e];
    SavedStateStep(log, e, Succeeded);
    EndingStep(w, r);
    StateStep(w, r);
    forall k | 0 <= k < |log'| && SavesAt(log', k, Succeeded)
      ensures Truthful(log', log'[k].act.task, w.prefix)
    {
      if k == |log| {
        SuccessStep(w, log, r);
      } else {
        assert SavesAt(log, k, Succeeded);
        TruthfulStep(log, e, log[k].act.task, w.prefix);
      }
    }
  }

  lemma {:induction false} RunCommands(pid: nat, prefix: string, log: seq<Event>)
    requires Valid(Launched(pid, prefix), log)
    ensures CommandInv(Play(Launched(pid, prefix), log), Commands(log))
  {
    if log != [] {
      var (past, e) := (log[..|log| - 1], log[|log| - 1]);
      RunCommands(pid, prefix, past);
      CommandStep(Play(Launched(pid, prefix), past), past, e.reply);
      assert log == past + [e];
    }
  }

  lemma {:induction false} RunState(pid: nat, prefix: string, log: seq<Event>)
    requires Valid(Launched(pid, prefix), log)
    ensures StateInv(Play(Launched(pid, prefix), log))
    ensures Play(Launched(pid, prefix), log).prefix == prefix
  {
    if log != [] {
      var (past, e) := (log[..|log| - 1], log[|log| - 1]);
      RunState(pid, prefix, past);
      StateStep(Play(Launched(pid, prefix), past), e.reply);
    }
  }

  lemma {:induction false} RunWriteAhead(pid: nat, prefix: string, log: seq<Event>)
    requires Valid(Launched(pid, prefix), log)
    ensures WriteAheadInv(Play(Launched(pid, prefix), log).pc, LastSaved(log))
  {
    if log != [] {
      var (past, e) := (log[..|log| - 1], log[|log| - 1]);
      RunWriteAhead(pid, prefix, past);
      RunState(pid, prefix, past);
      if Expected(Play(Launched(pid, prefix), log).pc).Some? {
        WriteAheadStep(Play(Launched(pid, prefix), past), e.reply);
      }
    }
  }

  lemma {:induction false} RunFixity(pid: nat, prefix: string, log: seq<Event>)
    requires Valid(Launched(pid, prefix), log)
    ensures FixityInv(Play(Launched(pid, prefix), log), log)
  {
    if log != [] {
      var (past, e) := (log[..|log| - 1], log[|log| - 1]);
      RunFixity(pid, prefix, past);
      FixityStep(Play(Launched(pid, prefix), past), past, e.reply);
      assert log == past + [e];
    }
  }

  lemma {:induction false} RunCommit(pid: nat, prefix: string, log: seq<Event>)
    requires Valid(Launched(pid, prefix), log)
    ensures CommitInv(Play(Launched(pid, prefix), log), SavedState(log, Downloading), Commands(log) == [])
  {
    if log != [] {
      var (past, e) := (log[..|log| - 1], log[|log| - 1]);
      RunCommit(pid, prefix, past);
      RunState(pid, prefix, past);
      CommitStep(Play(Launched(pid, prefix), past), SavedState(past, Downloading), Commands(past) == [], e.reply);
      SavedStateStep(past, e, Downloading);
      assert log == past + [e];
    }
  }

  lemma {:induction false} RunVerify(pid: nat, prefix: string, log: seq<Event>)
    requires Valid(Launched(pid, prefix), log)
    ensures VerifyInv(Play(Launched(pid, prefix), log), log)
  {
    if log != [] {
      var (past, e) := (log[..|log| - 1], log[|log| - 1]);
      RunVerify(pid, prefix, past);
      VerifyStep(Play(Launched(pid, prefix), past), past, e.reply);
      assert log == past + [e];
    }
  }

  lemma {:induction false} RunFailed(pid: nat, prefix: string, log: seq<Event>)
    requires Valid(Launched(pid, prefix), log)
    ensures FailedInv(Play(Launched(pid, prefix), log), log)
  {
    if log != [] {
      var (past, e) := (log[..|log| - 1], log[|log| - 1]);
      RunFailed(pid, prefix, past);
      RunCommands(pid, prefix, past);
      RunState(pid, prefix, past);
      FailedStep(Play(Launched(pid, prefix), past), past, e.reply);
      assert log == past + [e];
    }
  }

  /** All that a success rests on. */
  ghost predicate Gathered(w: Worker, log: seq<Event>) {
    CommandInv(w, Commands(log)) && VerifyInv(w, log) && StateInv(w) && SucceededInv(w, log)
  }

  lemma GatheredStep(w: Worker, log: seq<Event>, r: Reply)
    requires Gathered(w, log) && !w.pc.Exited? && Fits(Action(w), r)
    ensures Gathered(Next(w, r), log + [Event(Action(w), r)])
  {
    CommandStep(w, log, r);
    VerifyStep(w, log, r);
    StateStep(w, r);
    SucceededStep(w, log, r);
  }

  lemma RunSucceeded(pid: nat, prefix: string, log: seq<Event>)
    requires Valid(Launched(pid, prefix), log)
    ensures SucceededInv(Play(Launched(pid, prefix), log), log)
  {
    var p: (Worker, seq<Event>) -> bool := (w: Worker, past: seq<Event>) => Gathered(w, past);
    forall w, past, r | p(w, past) && !w.pc.Exited? && Fits(Action(w), r)
      ensures p(Next(w, r), past + [Event(Action(w), r)])
    {
      GatheredStep(w, past, r);
    }
    RunInduction(p, Launched(pid, prefix), log);
  }

  // ----- the theorems

  /** The commands of any run, cut off anywhere, are a prefix of upgrade, list, stop, start, list*,
      each issued only after the one before it succeeded. */
  lemma TraceShape(pid: nat, prefix: string, log: seq<Event>)
    requires Valid(Launched(pid, prefix), log)
    ensures InOrder(Commands(log))
  {
    RunCommands(pid, prefix, log);
  }

  /** The state and phase that name a command: what must be on disk when it is issued. */
  ghost predicate NamedBy(a: Act, saved: Option<Task>) {
    match a
    case RunBrew(Upgrade) => Names(saved, Installing, BrewUpgrade)
    case RunBrew(Stop) => Names(saved, Restarting, ServiceStop)
    case RunBrew(Start) => Names(saved, Restarting, ServiceStart)
    case ListPid => Names(saved, Restarting, ServicePid) || Names(saved, Verifying, Phase.Health)
    case WriteTap(_) => Names(saved, Downloading, TapSnapshot)
    case _ => true
  }

  lemma ActionNamed(w: Worker, saved: Option<Task>)
    requires !w.pc.Exited? && WriteAheadInv(w.pc, saved)
    ensures NamedBy(Action(w), saved)
  {
  }

  /** Write-ahead evidence: whenever a command is issued, the last record saved before it names it. */
  lemma WriteAhead(pid: nat, prefix: string, log: seq<Event>, k: nat)
    requires Valid(Launched(pid, prefix), log) && k < |log|
    ensures NamedBy(log[k].act, LastSaved(log[..k]))
  {
    PrefixValid(Launched(pid, prefix), log, k);
    RunWriteAhead(pid, prefix, log[..k]);
    ActionNamed(Play(Launched(pid, prefix), log[..k]), LastSaved(log[..k]));
  }

  /** `failed` is only ever written with proof, and the service was never touched. */
  lemma FailedIsProven(pid: nat, prefix: string, log: seq<Event>)
    requires Valid(Launched(pid, prefix), log) && SavedState(log, Failed)
    ensures ProvenFailure(Commands(log))
  {
    RunFailed(pid, prefix, log);
  }

  /** `succeeded` is only ever written with the full evidence of upgrade, restart and handshake. */
  lemma SucceededIsTruthful(pid: nat, prefix: string, log: seq<Event>, k: nat)
    requires Valid(Launched(pid, prefix), log) && k < |log| && SavesAt(log, k, Succeeded)
    ensures Truthful(log, log[k].act.task, prefix)
  {
    RunState(pid, prefix, log);
    RunSucceeded(pid, prefix, log);
  }

  /** An unknown outcome of a decisive command never ends in `failed` or `succeeded`. */
  lemma UnknownNeverDecides(pid: nat, prefix: string, log: seq<Event>, k: nat)
    requires Valid(Launched(pid, prefix), log)
    requires k < |Commands(log)| && k < 4 && OutcomeUnproven(Commands(log)[k])
    ensures !SavedState(log, Failed) && !SavedState(log, Succeeded)
  {
    RunFailed(pid, prefix, log);
    assert !Succeeds(Commands(log)[k]);
    if SavedState(log, Succeeded) {
      var i :| 0 <= i < |log| && SavesAt(log, i, Succeeded);
      SucceededIsTruthful(pid, prefix, log, i);
      assert false;
    }
  }

  lemma UpgradeIsFixed(w: Worker, past: seq<Event>)
    requires !w.pc.Exited? && FixityInv(w, past) && Action(w) == RunBrew(Upgrade)
    ensures |past| >= 2 && past[|past| - 1].act.Save? && TapReadAt(past, |past| - 2, past[|past| - 1].act.task.formula)
  {
  }

  lemma TapReadEarlier(log: seq<Event>, k: nat, i: nat, formula: Digest<Bytes>)
    requires i < k <= |log| && TapReadAt(log[..k], i, formula)
    ensures TapReadAt(log, i, formula)
  {
  }

  /** Target fixity: the bytes read back from the tap just before `brew upgrade` have the digest of
      the record, whatever the snapshot file and the tap contained. */
  lemma TargetFixity(pid: nat, prefix: string, log: seq<Event>, k: nat)
    requires Valid(Launched(pid, prefix), log) && k < |log| && log[k].act == RunBrew(Upgrade)
    ensures k >= 2 && log[k - 1].act.Save? && TapReadAt(log, k - 2, log[k - 1].act.task.formula)
  {
    PrefixValid(Launched(pid, prefix), log, k);
    RunFixity(pid, prefix, log[..k]);
    UpgradeIsFixed(Play(Launched(pid, prefix), log[..k]), log[..k]);
    TapReadEarlier(log, k, k - 2, log[..k][k - 1].act.task.formula);
  }
}
