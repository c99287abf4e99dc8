/** The run that uses its time up, and exactly which bounds keep workers unmarked and states forward. */
module CoarseCounterexample {
  import opened UpgradeTask
  import opened Effects
  import opened CoarseProtocol
  import opened CoarseTiming
  import opened CoarseTheorems
  import Health
  import W = WorkerAutomaton
  import S = SubmitAutomaton
  import P = WorkerProcess
  import T = WorkerTrace
  import I = CoarseInvariant

  lemma Extend(env: Env, prefix: string, now: Time, run: seq<Step>, e: Step) returns (run': seq<Step>)
    requires Possible(env, prefix, now, run) && Enabled(env, After(env, prefix, now, run), e)
    ensures run' == run + [e] && Possible(env, prefix, now, run')
    ensures After(env, prefix, now, run') == Apply(env, prefix, After(env, prefix, now, run), e)
  {
    run' := run + [e];
    assert run'[..|run|] == run;
  }

  const ORDER: Order := Order("a", "admin", "v1", "1", [], "secret", 1)

  /** How long everything takes that takes time in the run, and the file work it does. */
  datatype Pace = Pace(confirm: nat, boot: nat, files: nat, launch: nat, install: nat, list: nat, stop: nat,
                       start: nat, poll: nat, relist: nat, health: nat)

  function Total(p: Pace): nat {
    p.confirm + p.boot + p.files + p.launch + p.install + p.list + p.stop + p.start + p.poll + p.relist + p.health
  }

  predicate Within(env: Env, b: Bound, d: nat, limit: int) { b in env.kept ==> d <= limit }

  /** The pace keeps every bound the environment keeps. */
  predicate Keeps(env: Env, p: Pace) {
    && p.confirm <= CONFIRM_TTL && p.files <= env.slack && p.poll < W.VERIFY_BUDGET
    && Within(env, BootTime, p.boot, BOOTSTRAP_TIMEOUT)
    && Within(env, LaunchWindow, p.launch, 2 * BOOTSTRAP_TIMEOUT)
    && Within(env, InstallTime, p.install, 600 * SECOND)
    && Within(env, ListTime, p.list, 10 * SECOND) && Within(env, ListTime, p.relist, 10 * SECOND)
    && Within(env, StopTime, p.stop, 90 * SECOND) && Within(env, StartTime, p.start, 120 * SECOND)
    && Within(env, HealthTime, p.health, 3 * SECOND)
  }

  predicate Ordered(t: Task) {
    t.port == 1 && t.targetVersion == "v1" && t.targetKeg == "1" && t.formula == Sha256([]) && t.servicePid == 0
  }

  /** The only task, with its worker at a control point, its record as the worker left it. */
  ghost predicate Here(prefix: string, s: Sys, pc: W.Pc, created: Time, spent: nat) {
    && "a" in s.tasks && !s.tasks["a"].archived && s.tasks["a"].spent == spent
    && s.tasks["a"].task.createdAt == created && StateFits(pc, s.tasks["a"].task.state)
    && (!Reporting(pc) ==> s.tasks["a"].task.workerPid == 7)
    && s.running.Some? && s.running.value.id == "a"
    && Carries(prefix, s.running.value.w, pc, created)
  }

  ghost predicate Carries(prefix: string, w: W.Worker, pc: W.Pc, created: Time) {
    && w.pc == pc && w.pid == 7 && w.prefix == prefix && w.task.createdAt == created && w.task.workerPid == 7
    && Ordered(w.task) && T.StateInv(w)
  }

  // ----- up to the first stage

  const REQUEST: S.Request := S.Request(true, "admin", "secret")

  /** Prepared, confirmed, and launched. */
  lemma Accepts(env: Env, prefix: string, now: Time, p: Pace) returns (run: seq<Step>)
    requires Keeps(env, p)
    ensures Possible(env, prefix, now, run)
    ensures var s := After(env, prefix, now, run);
            var later := now + p.confirm + p.boot + p.files;
            && s.clock == later && s.running.None?
            && s.tasks == map["a" := Slot(S.Left(Fresh(ORDER, now), "secret", S.Booted, now + p.confirm, later),
                                          false, true, false, [], p.files)]
  {
    run := Extend(env, prefix, now, [], Prepare(ORDER, 0));
    run := Extend(env, prefix, now, run, Tick(p.confirm));
    run := Extend(env, prefix, now, run, Submit("a", REQUEST, S.Booted, p.boot, p.files));
  }

  /** The worker starts, loads the queued record, and takes its time. */
  lemma Starts(env: Env, prefix: string, now: Time, p: Pace) returns (run: seq<Step>)
    requires Keeps(env, p)
    ensures Possible(env, prefix, now, run)
    ensures var s := After(env, prefix, now, run);
            && s.clock == now + p.confirm + p.boot + p.files + p.launch
            && Here(prefix, s, W.WritingReady, now, p.files)
  {
    run := Accepts(env, prefix, now, p);
    run := Extend(env, prefix, now, run, StartWorker("a", 7));
    run := Extend(env, prefix, now, run, Tick(p.launch));
  }

  lemma Beats(env: Env, prefix: string, now: Time, run: seq<Step>, spent: nat) returns (run': seq<Step>)
    requires Possible(env, prefix, now, run) && spent <= env.slack
    requires Here(prefix, After(env, prefix, now, run), W.WritingReady, now, spent)
    ensures Possible(env, prefix, now, run')
    ensures Here(prefix, After(env, prefix, now, run'), W.SavingReady, now, spent)
    ensures After(env, prefix, now, run').clock == After(env, prefix, now, run).clock
  {
    run' := Extend(env, prefix, now, run, Work(OkR(true), 0));
  }

  lemma Reports(env: Env, prefix: string, now: Time, run: seq<Step>, spent: nat) returns (run': seq<Step>)
    requires Possible(env, prefix, now, run) && spent <= env.slack
    requires Here(prefix, After(env, prefix, now, run), W.SavingReady, now, spent)
    ensures Possible(env, prefix, now, run')
    ensures Here(prefix, After(env, prefix, now, run'), W.SavingDownloading, now, spent)
    ensures After(env, prefix, now, run').clock == After(env, prefix, now, run).clock
  {
    run' := Extend(env, prefix, now, run, Work(SavedR(After(env, prefix, now, run).clock), 0));
  }

  /** How long the pending action of a worker may last without file work. */
  predicate MayWait(env: Env, w: W.Worker, wait: nat) {
    Binds(env, w) ==> wait <= if w.pc.Exited? then 0 else Room(w)
  }

  function Room(w: W.Worker): int
    requires !w.pc.Exited?
  {
    match P.Limit(W.Action(w))
    case Some(limit) => limit
    case None => 0
  }

  /** With this reply at this time the worker goes to that control point, where it may wait so long. */
  predicate StepAt(env: Env, w: W.Worker, r: Reply, c: Time, wait: nat, pc': W.Pc)
    requires !w.pc.Exited?
  {
    && Fits(W.Action(w), r) && !W.Action(w).Load?
    && (W.Action(w).Save? ==> r.at == c) && (W.Action(w).ReadClock? ==> r.now == c)
    && (w.pc.CapturingPid? ==> r == ListR(NotRunning))
    && W.Next(w, r).pc == pc' && MayWait(env, W.Next(w, r), wait)
  }

  /** Every worker that carries the task takes that step. */
  ghost predicate Steps(env: Env, prefix: string, created: Time, pc: W.Pc, r: Reply, c: Time, wait: nat, pc': W.Pc) {
    && Working(pc) && !Reporting(pc) && Working(pc')
    && forall w | Carries(prefix, w, pc, created) :: StepAt(env, w, r, c, wait, pc')
  }

  lemma OrderedStays(w: W.Worker, r: Reply)
    requires T.StateInv(w) && Working(w.pc) && Fits(W.Action(w), r) && Ordered(w.task) && Working(W.Next(w, r).pc)
    requires w.pc.CapturingPid? ==> r == ListR(NotRunning)
    ensures Ordered(W.Next(w, r).task)
  {
    if W.Action(w).Save? {
      SavesOrdered(w);
      I.SaveFacts(w, r);
    }
  }

  lemma SavesOrdered(w: W.Worker)
    requires Working(w.pc) && W.Action(w).Save? && Ordered(w.task)
    ensures Ordered(W.Action(w).task)
  {
  }

  /** The worker carries the same task through a step. */
  lemma Carried(prefix: string, w: W.Worker, pc: W.Pc, created: Time, r: Reply)
    requires Carries(prefix, w, pc, created) && Working(pc) && !Reporting(pc) && Fits(W.Action(w), r)
    requires Working(W.Next(w, r).pc) && (pc.CapturingPid? ==> r == ListR(NotRunning))
    ensures Carries(prefix, W.Next(w, r), W.Next(w, r).pc, created) && !Reporting(W.Next(w, r).pc)
  {
    CopyFacts(w, r);
    OrderedStays(w, r);
    T.StateStep(w, r);
  }

  /** A run that has the worker at a control point. */
  ghost predicate Reached(env: Env, prefix: string, now: Time, run: seq<Step>, pc: W.Pc, spent: nat, clock: Time) {
    && Possible(env, prefix, now, run) && spent <= env.slack
    && Here(prefix, After(env, prefix, now, run), pc, now, spent) && After(env, prefix, now, run).clock == clock
  }

  /** So the run can go on with that step. */
  lemma Acts(env: Env, prefix: string, now: Time, run: seq<Step>, pc: W.Pc, spent: nat, c: Time, r: Reply, wait: nat,
             pc': W.Pc)
    returns (run': seq<Step>)
    requires Reached(env, prefix, now, run, pc, spent, c) && Steps(env, prefix, now, pc, r, c, wait, pc')
    ensures Reached(env, prefix, now, run', pc', spent, c)
    ensures var a := After(env, prefix, now, run').running.value;
            MayWait(env, a.w, wait) && a.due == Due(a.w, c, a.due, 0) && !Reporting(pc')
  {
    var w := After(env, prefix, now, run).running.value.w;
    assert StepAt(env, w, r, c, wait, pc');
    Carried(prefix, w, pc, now, r);
    CopyFacts(w, r);
    if W.Action(w).Save? {
      SaveStates(w, r);
    } else {
      QuietStates(w, r, After(env, prefix, now, run).tasks["a"].task.state);
    }
    run' := Extend(env, prefix, now, run, Work(r, 0));
  }

  /** And wait. */
  lemma Go(env: Env, prefix: string, now: Time, run: seq<Step>, pc: W.Pc, spent: nat, c: Time, r: Reply, wait: nat,
           pc': W.Pc)
    returns (run': seq<Step>)
    requires Reached(env, prefix, now, run, pc, spent, c) && Steps(env, prefix, now, pc, r, c, wait, pc')
    ensures Reached(env, prefix, now, run', pc', spent, c + wait)
  {
    run' := Acts(env, prefix, now, run, pc, spent, c, r, wait, pc');
    run' := Extend(env, prefix, now, run', Tick(wait));
  }

  // ----- one stage after another

  /** How the run goes on from a control point: the reply at this time, and where it leads. */
  function Onward(pc: W.Pc, c: Time): (Reply, W.Pc) {
    match pc
    case SavingDownloading => (SavedR(c), W.ReadingSnapshot)
    case ReadingSnapshot => (BytesR(Some([])), W.WritingTap([]))
    case WritingTap(_) => (OkR(true), W.ReadingTap)
    case ReadingTap => (BytesR(Some([])), W.SavingInstalling)
    case SavingInstalling => (SavedR(c), W.Upgrading)
    case Upgrading => (CmdR(CmdReply.Done), W.SavingRestarting)
    case SavingRestarting => (SavedR(c), W.CapturingPid)
    case CapturingPid => (ListR(NotRunning), W.SavingStop)
    case SavingStop => (SavedR(c), W.Stopping)
    case Stopping => (CmdR(CmdReply.Done), W.SavingStart)
    case SavingStart => (SavedR(c), W.Starting)
    case Starting => (CmdR(CmdReply.Done), W.SavingVerifying)
    case SavingVerifying => (SavedR(c), W.SettingDeadline)
    case SettingDeadline => (ClockR(false, c), W.CheckingClock(c + W.VERIFY_BUDGET))
    case _ => (AckR, W.Exited)
  }

  /** How long the worker may stay at a control point. */
  predicate MayStay(env: Env, pc: W.Pc, d: nat) {
    match pc
    case Upgrading => Within(env, InstallTime, d, 600 * SECOND)
    case CapturingPid => Within(env, ListTime, d, 10 * SECOND)
    case Stopping => Within(env, StopTime, d, 90 * SECOND)
    case Starting => Within(env, StartTime, d, 120 * SECOND)
    case _ => d == 0
  }

  predicate Saving(pc: W.Pc) {
    || pc.SavingDownloading? || pc.SavingInstalling? || pc.SavingRestarting? || pc.SavingStop? || pc.SavingStart?
    || pc.SavingVerifying?
  }

  lemma SavesOnward(env: Env, w: W.Worker, c: Time, d: nat)
    requires Saving(w.pc) && MayStay(env, Onward(w.pc, c).1, d)
    ensures StepAt(env, w, Onward(w.pc, c).0, c, d, Onward(w.pc, c).1)
  {
  }

  lemma DoesOnward(env: Env, w: W.Worker, c: Time)
    requires w.pc.Upgrading? || w.pc.CapturingPid? || w.pc.Stopping? || w.pc.Starting? || w.pc.SettingDeadline?
    ensures StepAt(env, w, Onward(w.pc, c).0, c, 0, Onward(w.pc, c).1)
  {
  }

  lemma StagesOnward(env: Env, w: W.Worker, c: Time)
    requires Ordered(w.task)
    requires w.pc.ReadingSnapshot? || w.pc.WritingTap? || w.pc.ReadingTap?
    ensures StepAt(env, w, Onward(w.pc, c).0, c, 0, Onward(w.pc, c).1)
  {
  }

  /** The run goes on, and waits. */
  lemma Onwards(env: Env, prefix: string, now: Time, run: seq<Step>, pc: W.Pc, spent: nat, c: Time, d: nat)
    returns (run': seq<Step>)
    requires Reached(env, prefix, now, run, pc, spent, c)
    requires !Onward(pc, c).1.Exited? && MayStay(env, Onward(pc, c).1, d)
    ensures Reached(env, prefix, now, run', Onward(pc, c).1, spent, c + d)
  {
    var (r, pc') := Onward(pc, c);
    forall w | Carries(prefix, w, pc, now) ensures StepAt(env, w, r, c, d, pc') {
      if Saving(pc) {
        SavesOnward(env, w, c, d);
      } else if pc.ReadingSnapshot? || pc.WritingTap? || pc.ReadingTap? {
        StagesOnward(env, w, c);
      } else {
        DoesOnward(env, w, c);
      }
    }
    run' := Go(env, prefix, now, run, pc, spent, c, r, d, pc');
  }

  /** A poll begins while there is time. */
  lemma Begins(env: Env, prefix: string, now: Time, run: seq<Step>, spent: nat, c: Time, deadline: Time, d: nat)
    returns (run': seq<Step>)
    requires Reached(env, prefix, now, run, W.CheckingClock(deadline), spent, c) && c < deadline
    requires Within(env, ListTime, d, 10 * SECOND)
    ensures Reached(env, prefix, now, run', W.PollingPid(deadline), spent, c + d)
  {
    var pc := W.CheckingClock(deadline);
    forall w | Carries(prefix, w, pc, now) ensures StepAt(env, w, ClockR(false, c), c, d, W.PollingPid(deadline)) {
      BeginAt(env, w, c, d);
    }
    run' := Go(env, prefix, now, run, pc, spent, c, ClockR(false, c), d, W.PollingPid(deadline));
  }

  lemma BeginAt(env: Env, w: W.Worker, c: Time, d: nat)
    requires w.pc.CheckingClock? && c < w.pc.deadline && Within(env, ListTime, d, 10 * SECOND)
    ensures StepAt(env, w, ClockR(false, c), c, d, W.PollingPid(w.pc.deadline))
  {
  }

  /** A poll that finds no service goes to sleep. */
  lemma FindsNothing(env: Env, prefix: string, now: Time, run: seq<Step>, spent: nat, c: Time, deadline: Time, d: nat)
    returns (run': seq<Step>)
    requires Reached(env, prefix, now, run, W.PollingPid(deadline), spent, c) && d <= W.POLL_EVERY
    ensures Reached(env, prefix, now, run', W.Sleeping(deadline), spent, c + d)
  {
    var pc := W.PollingPid(deadline);
    forall w | Carries(prefix, w, pc, now) ensures StepAt(env, w, ListR(NotRunning), c, d, W.Sleeping(deadline)) {
      SleepAt(env, w, ListR(NotRunning), c, d);
    }
    run' := Go(env, prefix, now, run, pc, spent, c, ListR(NotRunning), d, W.Sleeping(deadline));
  }

  /** So does one that gets no answer from it. */
  lemma GetsNoAnswer(env: Env, prefix: string, now: Time, run: seq<Step>, spent: nat, c: Time, deadline: Time, d: nat)
    returns (run': seq<Step>)
    requires Reached(env, prefix, now, run, W.CheckingHealth(deadline, 5), spent, c)
    requires Within(env, SleepTime, d, W.POLL_EVERY)
    ensures Reached(env, prefix, now, run', W.Sleeping(deadline), spent, c + d)
  {
    var pc, r := W.CheckingHealth(deadline, 5), HealthR(Health.Unreachable);
    forall w | Carries(prefix, w, pc, now) ensures StepAt(env, w, r, c, d, W.Sleeping(deadline)) {
      SleepAt(env, w, r, c, d);
    }
    run' := Go(env, prefix, now, run, pc, spent, c, r, d, W.Sleeping(deadline));
  }

  lemma SleepAt(env: Env, w: W.Worker, r: Reply, c: Time, d: nat)
    requires Within(env, SleepTime, d, W.POLL_EVERY)
    requires (w.pc.PollingPid? && r == ListR(NotRunning)) || (w.pc.CheckingHealth? && r == HealthR(Health.Unreachable))
    ensures StepAt(env, w, r, c, d, W.Sleeping(w.pc.deadline))
  {
  }

  lemma Wakes(env: Env, prefix: string, now: Time, run: seq<Step>, spent: nat, c: Time, deadline: Time)
    returns (run': seq<Step>)
    requires Reached(env, prefix, now, run, W.Sleeping(deadline), spent, c)
    ensures Reached(env, prefix, now, run', W.CheckingClock(deadline), spent, c)
  {
    var pc := W.Sleeping(deadline);
    forall w | Carries(prefix, w, pc, now) ensures StepAt(env, w, AckR, c, 0, W.CheckingClock(deadline)) {
      WakeAt(env, w, c);
    }
    run' := Go(env, prefix, now, run, pc, spent, c, AckR, 0, W.CheckingClock(deadline));
  }

  lemma WakeAt(env: Env, w: W.Worker, c: Time)
    requires w.pc.Sleeping?
    ensures StepAt(env, w, AckR, c, 0, W.CheckingClock(w.pc.deadline))
  {
  }

  /** One iteration of the poll loop that only sleeps. */
  lemma Naps(env: Env, prefix: string, now: Time, run: seq<Step>, spent: nat, c: Time, deadline: Time, d: nat)
    returns (run': seq<Step>)
    requires Reached(env, prefix, now, run, W.CheckingClock(deadline), spent, c) && c < deadline && d <= W.POLL_EVERY
    ensures Reached(env, prefix, now, run', W.CheckingClock(deadline), spent, c + d)
  {
    run' := Begins(env, prefix, now, run, spent, c, deadline, 0);
    run' := FindsNothing(env, prefix, now, run', spent, c, deadline, d);
    run' := Wakes(env, prefix, now, run', spent, c + d, deadline);
  }

  /** Polling in vain up to any time before the deadline. */
  lemma {:induction false} PollsFor(env: Env, prefix: string, now: Time, run: seq<Step>, spent: nat, c: Time,
                                    deadline: Time, d: nat) returns (run': seq<Step>)
    requires Reached(env, prefix, now, run, W.CheckingClock(deadline), spent, c) && c + d < deadline
    ensures Reached(env, prefix, now, run', W.CheckingClock(deadline), spent, c + d)
    decreases d
  {
    if d == 0 {
      return run;
    }
    var nap := if d < W.POLL_EVERY then d else W.POLL_EVERY;
    run' := Naps(env, prefix, now, run, spent, c, deadline, nap);
    run' := PollsFor(env, prefix, now, run', spent, c + nap, deadline, d - nap);
  }

  lemma FindsService(env: Env, prefix: string, now: Time, run: seq<Step>, spent: nat, c: Time, deadline: Time, d: nat)
    returns (run': seq<Step>)
    requires Reached(env, prefix, now, run, W.PollingPid(deadline), spent, c) && Within(env, HealthTime, d, 3 * SECOND)
    ensures Reached(env, prefix, now, run', W.CheckingHealth(deadline, 5), spent, c + d)
  {
    var pc, r := W.PollingPid(deadline), ListR(Running(5));
    forall w | Carries(prefix, w, pc, now) ensures StepAt(env, w, r, c, d, W.CheckingHealth(deadline, 5)) {
      AskAt(env, w, c, d);
    }
    run' := Go(env, prefix, now, run, pc, spent, c, r, d, W.CheckingHealth(deadline, 5));
  }

  lemma AskAt(env: Env, w: W.Worker, c: Time, d: nat)
    requires w.pc.PollingPid? && Within(env, HealthTime, d, 3 * SECOND)
    ensures StepAt(env, w, ListR(Running(5)), c, d, W.CheckingHealth(w.pc.deadline, 5))
  {
  }

  /** Up to the first stage. */
  lemma ReportsIn(env: Env, prefix: string, now: Time, p: Pace) returns (run: seq<Step>)
    requires Keeps(env, p)
    ensures Reached(env, prefix, now, run, W.SavingDownloading, p.files,
                    now + p.confirm + p.boot + p.files + p.launch)
  {
    run := Starts(env, prefix, now, p);
    run := Beats(env, prefix, now, run, p.files);
    run := Reports(env, prefix, now, run, p.files);
  }

  /** Up to the upgrade. */
  lemma ToUpgrade(env: Env, prefix: string, now: Time, p: Pace) returns (run: seq<Step>)
    requires Keeps(env, p)
    ensures Reached(env, prefix, now, run, W.SavingInstalling, p.files, now + p.confirm + p.boot + p.files + p.launch)
  {
    var c := now + p.confirm + p.boot + p.files + p.launch;
    run := ReportsIn(env, prefix, now, p);
    run := StagesBytes(env, prefix, now, run, p.files, c);
  }

  lemma StagesBytes(env: Env, prefix: string, now: Time, run: seq<Step>, spent: nat, c: Time)
    returns (run': seq<Step>)
    requires Reached(env, prefix, now, run, W.SavingDownloading, spent, c)
    ensures Reached(env, prefix, now, run', W.SavingInstalling, spent, c)
  {
    run' := Onwards(env, prefix, now, run, W.SavingDownloading, spent, c, 0);
    run' := Onwards(env, prefix, now, run', W.ReadingSnapshot, spent, c, 0);
    run' := Onwards(env, prefix, now, run', W.WritingTap([]), spent, c, 0);
    run' := Onwards(env, prefix, now, run', W.ReadingTap, spent, c, 0);
  }

  /** Up to the stop. */
  lemma ToStop(env: Env, prefix: string, now: Time, p: Pace) returns (run: seq<Step>)
    requires Keeps(env, p)
    ensures Reached(env, prefix, now, run, W.SavingStop, p.files,
                    now + p.confirm + p.boot + p.files + p.launch + p.install + p.list)
  {
    var c := now + p.confirm + p.boot + p.files + p.launch;
    run := ToUpgrade(env, prefix, now, p);
    run := Onwards(env, prefix, now, run, W.SavingInstalling, p.files, c, p.install);
    run := Onwards(env, prefix, now, run, W.Upgrading, p.files, c + p.install, 0);
    run := Onwards(env, prefix, now, run, W.SavingRestarting, p.files, c + p.install, p.list);
    run := Onwards(env, prefix, now, run, W.CapturingPid, p.files, c + p.install + p.list, 0);
  }

  /** The stages up to verification. */
  lemma ToVerification(env: Env, prefix: string, now: Time, p: Pace) returns (run: seq<Step>)
    requires Keeps(env, p)
    ensures Reached(env, prefix, now, run, W.SavingVerifying, p.files,
                    now + p.confirm + p.boot + p.files + p.launch + p.install + p.list + p.stop + p.start)
  {
    var c := now + p.confirm + p.boot + p.files + p.launch + p.install + p.list;
    run := ToStop(env, prefix, now, p);
    run := Onwards(env, prefix, now, run, W.SavingStop, p.files, c, p.stop);
    run := Onwards(env, prefix, now, run, W.Stopping, p.files, c + p.stop, 0);
    run := Onwards(env, prefix, now, run, W.SavingStart, p.files, c + p.stop, p.start);
    run := Onwards(env, prefix, now, run, W.Starting, p.files, c + p.stop + p.start, 0);
  }

  lemma SetsDeadline(env: Env, prefix: string, now: Time, run: seq<Step>, spent: nat, c: Time)
    returns (run': seq<Step>)
    requires Reached(env, prefix, now, run, W.SavingVerifying, spent, c)
    ensures Reached(env, prefix, now, run', W.CheckingClock(c + W.VERIFY_BUDGET), spent, c)
  {
    run' := Onwards(env, prefix, now, run, W.SavingVerifying, spent, c, 0);
    run' := Onwards(env, prefix, now, run', W.SettingDeadline, spent, c, 0);
  }

  lemma ToPolling(env: Env, prefix: string, now: Time, p: Pace) returns (run: seq<Step>)
    requires Keeps(env, p)
    ensures var c := now + p.confirm + p.boot + p.files + p.launch + p.install + p.list + p.stop + p.start;
            Reached(env, prefix, now, run, W.CheckingClock(c + W.VERIFY_BUDGET), p.files, c)
  {
    var c := now + p.confirm + p.boot + p.files + p.launch + p.install + p.list + p.stop + p.start;
    run := ToVerification(env, prefix, now, p);
    run := SetsDeadline(env, prefix, now, run, p.files, c);
  }

  /** One last poll, up to its answer. */
  lemma LastPoll(env: Env, prefix: string, now: Time, run: seq<Step>, spent: nat, c: Time, deadline: Time,
                 relist: nat, health: nat)
    returns (run': seq<Step>)
    requires Reached(env, prefix, now, run, W.CheckingClock(deadline), spent, c) && c < deadline
    requires Within(env, ListTime, relist, 10 * SECOND) && Within(env, HealthTime, health, 3 * SECOND)
    ensures Reached(env, prefix, now, run', W.CheckingHealth(deadline, 5), spent, c + relist + health)
  {
    run' := Begins(env, prefix, now, run, spent, c, deadline, relist);
    run' := FindsService(env, prefix, now, run', spent, c + relist, deadline, health);
  }

  /** The whole run at a pace, up to the answer of the last poll. */
  lemma PacedRun(env: Env, prefix: string, now: Time, p: Pace) returns (run: seq<Step>, deadline: Time)
    requires Keeps(env, p)
    ensures Reached(env, prefix, now, run, W.CheckingHealth(deadline, 5), p.files, now + Total(p))
  {
    var c := now + p.confirm + p.boot + p.files + p.launch + p.install + p.list + p.stop + p.start;
    deadline := c + W.VERIFY_BUDGET;
    run := ToPolling(env, prefix, now, p);
    run := PollsFor(env, prefix, now, run, p.files, c, deadline, p.poll);
    run := LastPoll(env, prefix, now, run, p.files, c + p.poll, deadline, p.relist, p.health);
  }

  // ----- the worker succeeds after its task was marked

  function GoodAnswer(prefix: string): Health.Answer {
    var path := Health.KegRoot(prefix, "1") + "/bin/tokenlive";
    Health.Answered(Health.Report("ok", "v1", "homebrew", "tokenlive", Some(path)))
  }

  lemma Succeeds(env: Env, prefix: string, now: Time, run: seq<Step>, spent: nat, c: Time, deadline: Time)
    returns (run': seq<Step>)
    requires Reached(env, prefix, now, run, W.CheckingHealth(deadline, 5), spent, c)
    ensures Reached(env, prefix, now, run', W.SavingSucceeded, spent, c)
  {
    run' := Proven(env, prefix, now, run, spent, c, deadline);
    forall w | Carries(prefix, w, W.StampingSuccess, now)
      ensures StepAt(env, w, ClockR(false, c), c, 0, W.SavingSucceeded)
    {
      StampAt(env, w, c);
    }
    run' := Go(env, prefix, now, run', W.StampingSuccess, spent, c, ClockR(false, c), 0, W.SavingSucceeded);
  }

  lemma Proven(env: Env, prefix: string, now: Time, run: seq<Step>, spent: nat, c: Time, deadline: Time)
    returns (run': seq<Step>)
    requires Reached(env, prefix, now, run, W.CheckingHealth(deadline, 5), spent, c)
    ensures Reached(env, prefix, now, run', W.StampingSuccess, spent, c)
  {
    var pc, r := W.CheckingHealth(deadline, 5), HealthR(GoodAnswer(prefix));
    forall w | Carries(prefix, w, pc, now) ensures StepAt(env, w, r, c, 0, W.StampingSuccess) {
      ProofAt(env, w, prefix, c);
    }
    run' := Go(env, prefix, now, run, pc, spent, c, r, 0, W.StampingSuccess);
  }

  lemma StampAt(env: Env, w: W.Worker, c: Time)
    requires w.pc.StampingSuccess?
    ensures StepAt(env, w, ClockR(false, c), c, 0, W.SavingSucceeded)
  {
  }

  lemma ProofAt(env: Env, w: W.Worker, prefix: string, c: Time)
    requires w.pc.CheckingHealth? && w.pc.pid == 5 && w.prefix == prefix && Ordered(w.task)
    ensures StepAt(env, w, HealthR(GoodAnswer(prefix)), c, 0, W.StampingSuccess)
  {
    GoodProves(prefix, w.task);
  }

  lemma GoodProves(prefix: string, t: Task)
    requires Ordered(t)
    ensures W.Proves(t, prefix, 5, GoodAnswer(prefix))
  {
  }

  /** A worker at work past the budget is marked by any pass. */
  lemma IsMarked(env: Env, prefix: string, now: Time, run: seq<Step>, pc: W.Pc, spent: nat, c: Time)
    requires Reached(env, prefix, now, run, pc, spent, c) && Working(pc) && !Reporting(pc) && !pc.SavingDownloading?
    requires c - now > ACCEPTED_BUDGET
    ensures !AlwaysUnmarked(env, prefix, now)
  {
    var s := After(env, prefix, now, run);
    assert AtWork(s, true);
    assert !Unmarked(s, true);
  }

  /** Marked, it saves its success over the mark. */
  lemma Regresses(env: Env, prefix: string, now: Time, run: seq<Step>, spent: nat, c: Time)
    requires Reached(env, prefix, now, run, W.SavingSucceeded, spent, c) && c - now > ACCEPTED_BUDGET
    ensures !AlwaysForward(env, prefix, now)
  {
    var run' := Extend(env, prefix, now, run, Reconcile("a", true, false));
    var s := After(env, prefix, now, run');
    assert Over(prefix, s, now, spent);
    SavesOver(env, prefix, s, now, spent, c);
    assert Enabled(env, s, Work(SavedR(c), 0));
  }

  /** The task is marked while its worker is about to save its success. */
  ghost predicate Over(prefix: string, s: Sys, created: Time, spent: nat) {
    && "a" in s.tasks && !s.tasks["a"].archived && s.tasks["a"].spent == spent
    && s.tasks["a"].task.state.NeedsAttention?
    && s.running.Some? && s.running.value.id == "a" && Carries(prefix, s.running.value.w, W.SavingSucceeded, created)
  }

  lemma SavesOver(env: Env, prefix: string, s: Sys, created: Time, spent: nat, c: Time)
    requires Over(prefix, s, created, spent) && spent <= env.slack && s.clock == c
    ensures Enabled(env, s, Work(SavedR(c), 0)) && !Forward(s, Apply(env, prefix, s, Work(SavedR(c), 0)))
  {
    var w := s.running.value.w;
    assert W.Action(w).Save? && W.Action(w).task.state.Succeeded?;
    assert WorkTo(s, SavedR(c), 0).tasks["a"].task.state.Succeeded?;
  }

  lemma Overtakes(env: Env, prefix: string, now: Time, p: Pace)
    requires Keeps(env, p) && Total(p) > ACCEPTED_BUDGET
    ensures !AlwaysForward(env, prefix, now) && !AlwaysUnmarked(env, prefix, now)
  {
    var run, deadline := PacedRun(env, prefix, now, p);
    run := Succeeds(env, prefix, now, run, p.files, now + Total(p), deadline);
    IsMarked(env, prefix, now, run, W.SavingSucceeded, p.files, now + Total(p));
    Regresses(env, prefix, now, run, p.files, now + Total(p));
  }

  /** Asleep after a failed last poll it can be marked too, though then it only gives up. */
  lemma MarkedAsleep(env: Env, prefix: string, now: Time, p: Pace, sleep: nat)
    requires Keeps(env, p) && Within(env, SleepTime, sleep, W.POLL_EVERY) && Total(p) + sleep > ACCEPTED_BUDGET
    ensures !AlwaysUnmarked(env, prefix, now)
  {
    var run, deadline := PacedRun(env, prefix, now, p);
    run := GetsNoAnswer(env, prefix, now, run, p.files, now + Total(p), deadline, sleep);
    IsMarked(env, prefix, now, run, W.Sleeping(deadline), p.files, now + Total(p) + sleep);
  }

  // ----- the exact conditions

  const IDLE: Pace := Pace(0, 0, 0, 0, 0, 0, 0, 0, 0, 0, 0)
  const LONG: nat := ACCEPTED_BUDGET + 1

  /** Every timed part at its full length, with the given file work. */
  function Full(files: nat): Pace {
    Pace(CONFIRM_TTL, BOOTSTRAP_TIMEOUT, files, 2 * BOOTSTRAP_TIMEOUT, 600 * SECOND, 10 * SECOND, 90 * SECOND,
         120 * SECOND, W.VERIFY_BUDGET - 1, 10 * SECOND, 3 * SECOND)
  }

  /** The one part that runs long when its bound is not kept. */
  function Late(b: Bound): Pace {
    match b
    case BootTime => IDLE.(boot := LONG)
    case LaunchWindow => IDLE.(launch := LONG)
    case InstallTime => IDLE.(install := LONG)
    case ListTime => IDLE.(list := LONG)
    case StopTime => IDLE.(stop := LONG)
    case StartTime => IDLE.(start := LONG)
    case HealthTime => IDLE.(health := LONG)
    case SleepTime => IDLE
  }

  lemma LateKeeps(env: Env, b: Bound)
    requires b !in env.kept && !b.SleepTime?
    ensures Keeps(env, Late(b)) && Total(Late(b)) == LONG
  {
  }

  lemma FullKeeps(env: Env)
    ensures Keeps(env, Full(env.slack)) && Total(Full(env.slack)) == TO_DEADLINE + LAST_POLL + env.slack
  {
  }

  /** States move only forward on every run if and only if every bound but the length of a sleep is
      kept and file work is within its slack: to drop any one of those bounds alone, or to allow one
      unit of file work more, breaks it, and sleeping longer does not. */
  lemma ForwardOnlyIff(env: Env, prefix: string, now: Time)
    ensures AlwaysForward(env, prefix, now) <==> NEEDED <= env.kept && env.slack <= FORWARD_SLACK
  {
    if Paced(env) {
      ForwardOnly(env, prefix, now);
    } else if env.slack > FORWARD_SLACK {
      FullKeeps(env);
      Overtakes(env, prefix, now, Full(env.slack));
    } else {
      var b :| b in NEEDED && b !in env.kept;
      LateKeeps(env, b);
      Overtakes(env, prefix, now, Late(b));
    }
  }

  /** No pass ever marks a worker at work, on every run, if and only if every bound is kept and file
      work is within its slack, which is smaller here by the one sleep after a failed last poll. */
  lemma UnmarkedIff(env: Env, prefix: string, now: Time)
    ensures AlwaysUnmarked(env, prefix, now) <==> NEEDED + {SleepTime} <= env.kept && env.slack <= UNMARKED_SLACK
  {
    if Strict(env) {
      StrictWorkerNeverMarked(env, prefix, now);
    } else if env.slack > UNMARKED_SLACK {
      FullKeeps(env);
      MarkedAsleep(env, prefix, now, Full(env.slack), W.POLL_EVERY);
    } else if SleepTime !in env.kept {
      MarkedAsleep(env, prefix, now, IDLE, LONG);
    } else {
      var b :| b in NEEDED && b !in env.kept;
      LateKeeps(env, b);
      Overtakes(env, prefix, now, Late(b));
    }
  }

  /** The two slacks, in seconds. */
  lemma Slacks()
    ensures FORWARD_SLACK == 442 * SECOND + 1 && UNMARKED_SLACK == 440 * SECOND + 1
  {
  }
}
