/** Whole-run safety of the upgrade protocol over all tasks. */
module CoarseTheorems {
  import opened UpgradeTask
  import opened Effects
  import opened CoarseProtocol
  import opened CoarseInvariant
  import opened CoarseTiming
  import W = WorkerAutomaton
  import C = ReconcileAutomaton
  import T = WorkerTrace

  lemma {:induction false} Reached(env: Env, prefix: string, now: Time, run: seq<Step>)
    requires Possible(env, prefix, now, run)
    ensures var s := After(env, prefix, now, run); Records(prefix, s) && OneBlocking(s)
  {
    if run != [] {
      var past := run[..|run| - 1];
      Reached(env, prefix, now, past);
      RecordsStep(env, prefix, After(env, prefix, now, past), run[|run| - 1]);
      OneBlockingStep(env, prefix, After(env, prefix, now, past), run[|run| - 1]);
    }
  }

  lemma {:induction false} ReachedTimed(env: Env, prefix: string, now: Time, run: seq<Step>)
    requires Paced(env) && Possible(env, prefix, now, run)
    ensures Timed(env, After(env, prefix, now, run))
  {
    if run != [] {
      var past := run[..|run| - 1];
      ReachedTimed(env, prefix, now, past);
      Reached(env, prefix, now, past);
      TimedStep(env, prefix, After(env, prefix, now, past), run[|run| - 1]);
    }
  }

  lemma {:induction false} PrefixPossible(env: Env, prefix: string, now: Time, run: seq<Step>, k: nat)
    requires Possible(env, prefix, now, run) && k <= |run|
    ensures Possible(env, prefix, now, run[..k])
    ensures k < |run| ==>
              Enabled(env, After(env, prefix, now, run[..k]), run[k]) &&
              Possible(env, prefix, now, run[..k + 1]) &&
              After(env, prefix, now, run[..k + 1]) == Apply(env, prefix, After(env, prefix, now, run[..k]), run[k])
  {
    if k == |run| {
      assert run[..k] == run;
    } else if k == |run| - 1 {
      assert run[..k + 1] == run;
    } else {
      var past := run[..|run| - 1];
      PrefixPossible(env, prefix, now, past, k);
      assert past[..k] == run[..k] && past[..k + 1] == run[..k + 1];
    }
  }

  // ----- unresolved work blocks new work

  /** A task with no command behind it: never accepted, no job, no worker. */
  ghost predicate Untouched(sl: Slot, now: Time) {
    && (sl.task.state.Expired? || (sl.task.state.Awaiting? && sl.task.expiry < now))
    && !sl.job && !sl.started
  }

  /** A task whose worker reported in and whose end is proven by what its commands returned. */
  ghost predicate ProvenEnd(prefix: string, sl: Slot) {
    && sl.started && !sl.job
    && (sl.task.state.Succeeded? || sl.task.state.Failed?)
    && (sl.task.state.Failed? ==> T.ProvenFailure(T.Commands(sl.log)))
    && (sl.task.state.Succeeded? ==>
          exists k :: 0 <= k < |sl.log| && T.SavesAt(sl.log, k, Succeeded) &&
                      T.Truthful(sl.log, sl.log[k].act.task, prefix))
    && (forall k | 0 <= k < |T.Commands(sl.log)| && k < 4 :: !T.OutcomeUnproven(T.Commands(sl.log)[k]))
  }

  lemma EndIsProven(prefix: string, id: TaskId, sl: Slot)
    requires SlotOk(prefix, id, sl) && (sl.task.state.Succeeded? || sl.task.state.Failed?)
    ensures ProvenEnd(prefix, sl)
  {
    var pid :| W.Valid(W.Launched(pid, prefix), sl.log);
    if sl.task.state.Failed? {
      T.FailedIsProven(pid, prefix, sl.log);
    } else {
      var k :| 0 <= k < |sl.log| && T.SavesAt(sl.log, k, Succeeded);
      T.SucceededIsTruthful(pid, prefix, sl.log, k);
    }
    forall k | 0 <= k < |T.Commands(sl.log)| && k < 4
      ensures !T.OutcomeUnproven(T.Commands(sl.log)[k])
    {
      if T.OutcomeUnproven(T.Commands(sl.log)[k]) {
        T.UnknownNeverDecides(pid, prefix, sl.log, k);
      }
    }
  }

  /** Whenever the gate lets a new task in, every earlier task either never issued a command or has a
      proven end, so that no bootstrap and no brew command is of unknown outcome, and no worker still
      has anything to save or issue, even one that has not yet given the lock back. */
  lemma UnresolvedBlocks(env: Env, prefix: string, now: Time, run: seq<Step>, id: TaskId)
    requires Possible(env, prefix, now, run)
    requires var s := After(env, prefix, now, run);
             id in s.tasks && forall other | other in s.tasks :: !Blocks(s.tasks[other].task, s.clock)
    ensures var s := After(env, prefix, now, run);
            && (Untouched(s.tasks[id], s.clock) || ProvenEnd(prefix, s.tasks[id]))
            && (s.running.Some? ==> !Unfinished(s.running.value.w.pc))
  {
    var s := After(env, prefix, now, run);
    Reached(env, prefix, now, run);
    assert SlotOk(prefix, id, s.tasks[id]);
    if s.tasks[id].task.state.Succeeded? || s.tasks[id].task.state.Failed? {
      EndIsProven(prefix, id, s.tasks[id]);
    }
    if s.running.Some? {
      assert RunningOk(prefix, s.running.value, s.tasks[s.running.value.id]);
    }
  }

  // ----- at most one blocking task

  /** In every reachable state at most one task keeps new work out. */
  lemma AtMostOneBlocking(env: Env, prefix: string, now: Time, run: seq<Step>, a: TaskId, b: TaskId)
    requires Possible(env, prefix, now, run)
    requires var s := After(env, prefix, now, run);
             a in s.tasks && b in s.tasks && Blocking(s, a) && Blocking(s, b)
    ensures a == b
  {
    Reached(env, prefix, now, run);
  }

  /** A confirmation whose window has passed never becomes work, even beside a newer task: what does
      not block never blocks again. */
  lemma {:induction false} NeverBlocksAgain(env: Env, prefix: string, now: Time, run: seq<Step>, k: nat, id: TaskId)
    requires Possible(env, prefix, now, run) && k <= |run|
    ensures Possible(env, prefix, now, run[..k])
    ensures var (s, s') := (After(env, prefix, now, run[..k]), After(env, prefix, now, run));
            id in s.tasks && !Blocking(s, id) ==> id in s'.tasks && !Blocking(s', id)
  {
    if k == |run| {
      assert run[..k] == run;
    } else {
      var past := run[..|run| - 1];
      NeverBlocksAgain(env, prefix, now, past, k, id);
      assert past[..k] == run[..k];
      Reached(env, prefix, now, past);
      var (s1, e) := (After(env, prefix, now, past), run[|run| - 1]);
      if id in s1.tasks && !Blocking(s1, id) && Blocking(Apply(env, prefix, s1, e), id) {
        BlockingStep(env, prefix, s1, e, id);
      }
    }
  }

  // ----- forward-only states

  ghost predicate AlwaysForward(env: Env, prefix: string, now: Time) {
    forall run, e | Possible(env, prefix, now, run) && Enabled(env, After(env, prefix, now, run), e) ::
      Forward(After(env, prefix, now, run), Apply(env, prefix, After(env, prefix, now, run), e))
  }

  /** In every paced run each step moves every task forward or leaves it; terminal states absorb. */
  lemma ForwardOnly(env: Env, prefix: string, now: Time)
    requires Paced(env)
    ensures AlwaysForward(env, prefix, now)
  {
    forall run, e | Possible(env, prefix, now, run) && Enabled(env, After(env, prefix, now, run), e)
      ensures Forward(After(env, prefix, now, run), Apply(env, prefix, After(env, prefix, now, run), e))
    {
      Reached(env, prefix, now, run);
      ReachedTimed(env, prefix, now, run);
      ForwardStep(env, prefix, After(env, prefix, now, run), e);
    }
  }

  /** No pass, whatever evidence it has, changes the state of a task whose worker is at work. */
  ghost predicate AlwaysUnmarked(env: Env, prefix: string, now: Time) {
    forall run, alive | Possible(env, prefix, now, run) && AtWork(After(env, prefix, now, run), alive) ::
      Unmarked(After(env, prefix, now, run), alive)
  }

  ghost predicate AtWork(s: Sys, alive: bool) {
    && s.running.Some? && Working(s.running.value.w.pc)
    && s.running.value.id in s.tasks && ProbeFits(s, s.running.value.id, alive)
  }

  ghost predicate Unmarked(s: Sys, alive: bool)
    requires AtWork(s, alive)
  {
    var t := s.tasks[s.running.value.id].task;
    var decided := C.Reconciled(t, s.clock, alive);
    decided.Some? ==> decided.value.state == t.state
  }

  /** When every bound is kept and file work is within its slack, no worker at work is ever marked. */
  lemma StrictWorkerNeverMarked(env: Env, prefix: string, now: Time)
    requires Strict(env)
    ensures AlwaysUnmarked(env, prefix, now)
  {
    forall run, alive | Possible(env, prefix, now, run) && AtWork(After(env, prefix, now, run), alive)
      ensures Unmarked(After(env, prefix, now, run), alive)
    {
      Reached(env, prefix, now, run);
      ReachedTimed(env, prefix, now, run);
      NeverMarked(env, prefix, After(env, prefix, now, run), alive);
    }
  }

  /** How often a run changes the state of a task after creating it. */
  ghost function Changes(env: Env, prefix: string, now: Time, run: seq<Step>, id: TaskId): nat
    requires Possible(env, prefix, now, run)
  {
    if run == [] then 0
    else
      var past := run[..|run| - 1];
      var (s, s') := (After(env, prefix, now, past), After(env, prefix, now, run));
      Changes(env, prefix, now, past, id) +
      if id in s.tasks && id in s'.tasks && s.tasks[id].task.state != s'.tasks[id].task.state then 1 else 0
  }

  lemma LastForward(env: Env, prefix: string, now: Time, run: seq<Step>)
    requires Paced(env) && run != [] && Possible(env, prefix, now, run)
    ensures Forward(After(env, prefix, now, run[..|run| - 1]), After(env, prefix, now, run))
  {
    ForwardOnly(env, prefix, now);
  }

  /** Each task makes at most six state changes in a paced run. */
  lemma {:induction false} BoundedChanges(env: Env, prefix: string, now: Time, run: seq<Step>, id: TaskId)
    requires Paced(env) && Possible(env, prefix, now, run)
    ensures var s := After(env, prefix, now, run);
            Changes(env, prefix, now, run, id) <= if id in s.tasks then Rank(s.tasks[id].task.state) else 0
  {
    if run != [] {
      var past := run[..|run| - 1];
      var (s, s') := (After(env, prefix, now, past), After(env, prefix, now, run));
      BoundedChanges(env, prefix, now, past, id);
      LastForward(env, prefix, now, run);
      if id in s.tasks {
        assert Advances(s.tasks[id].task.state, s'.tasks[id].task.state);
      }
    }
  }

  // ----- convergence

  predicate Window(t: Task) { t.expiry == t.createdAt + CONFIRM_TTL }

  /** Every record, and the copy of the worker at work, has the confirmation window it was created with. */
  ghost predicate Windowed(s: Sys) {
    && (forall id | id in s.tasks :: Window(s.tasks[id].task))
    && (s.running.Some? && Unfinished(s.running.value.w.pc) && !s.running.value.w.pc.Reloading?
        ==> Window(s.running.value.w.task))
  }

  lemma WindowWork(w: W.Worker, r: Reply)
    requires !w.pc.Exited? && Fits(W.Action(w), r)
    requires Unfinished(w.pc) && !w.pc.Reloading? ==> Window(w.task)
    requires W.Action(w).Load? && r.load.Loaded? ==> Window(r.load.task)
    ensures var w' := W.Next(w, r); Unfinished(w'.pc) && !w'.pc.Reloading? ==> Window(w'.task)
  {
  }

  lemma WindowSave(w: W.Worker)
    requires !w.pc.Exited? && W.Action(w).Save? && Window(w.task)
    ensures Window(W.Action(w).task)
  {
  }

  lemma WindowedWork(env: Env, prefix: string, s: Sys, r: Reply, files: nat)
    requires Records(prefix, s) && Windowed(s) && Enabled(env, s, Work(r, files))
    ensures Windowed(WorkTo(s, r, files))
  {
    var a := s.running.value;
    WindowWork(a.w, r);
    if W.Action(a.w).Save? {
      SaveUnfinished(a.w);
      WindowSave(a.w);
    }
  }

  lemma SaveUnfinished(w: W.Worker)
    requires !w.pc.Exited? && W.Action(w).Save?
    ensures Unfinished(w.pc) && !w.pc.Reloading?
  {
  }

  lemma WindowedPass(sl: Slot, now: Time, alive: bool, gone: bool)
    requires Window(sl.task)
    ensures Window(ReconciledSlot(sl, now, alive, gone).task)
  {
  }

  lemma WindowedSubmit(sl: Slot, e: Step, now: Time)
    requires e.Submit? && Window(sl.task)
    ensures Window(Submitted(sl, e, now).0.task)
  {
  }

  lemma WindowedStep(env: Env, prefix: string, s: Sys, e: Step)
    requires Records(prefix, s) && Windowed(s) && Enabled(env, s, e)
    ensures Windowed(Apply(env, prefix, s, e))
  {
    match e {
      case Work(r, files) => WindowedWork(env, prefix, s, r, files);
      case Reconcile(id, alive, gone) => WindowedPass(s.tasks[id], s.clock, alive, gone);
      case Submit(id, _, _, _, _) => WindowedSubmit(s.tasks[id], e, s.clock);
      case _ =>
    }
  }

  lemma {:induction false} ReachedWindowed(env: Env, prefix: string, now: Time, run: seq<Step>)
    requires Possible(env, prefix, now, run)
    ensures Windowed(After(env, prefix, now, run))
  {
    if run != [] {
      var past := run[..|run| - 1];
      ReachedWindowed(env, prefix, now, past);
      Reached(env, prefix, now, past);
      WindowedStep(env, prefix, After(env, prefix, now, past), run[|run| - 1]);
    }
  }

  /** Reconciliation converges from every reachable state: once the accepted budget and the launch
      window of a task are over and no worker of it is alive, one pass leaves it terminal. */
  lemma QuietConverges(env: Env, prefix: string, now: Time, run: seq<Step>, id: TaskId, gone: bool)
    requires Possible(env, prefix, now, run)
    requires var s := After(env, prefix, now, run);
             && Enabled(env, s, Reconcile(id, false, gone))
             && s.clock > s.tasks[id].task.createdAt + ACCEPTED_BUDGET
             && s.clock > s.tasks[id].task.updatedAt + 2 * BOOTSTRAP_TIMEOUT
    ensures var s := After(env, prefix, now, run);
            Terminal(Apply(env, prefix, s, Reconcile(id, false, gone)).tasks[id].task.state)
  {
    var s := After(env, prefix, now, run);
    ReachedWindowed(env, prefix, now, run);
    C.LatePassTerminates(s.tasks[id].task, s.clock, gone);
  }

  // ----- a second pass

  /** The only record a second pass at the same clock on the same evidence would change is one that
      the first pass ended while its cleanup was already asked for. */
  lemma SlotTwiceIff(sl: Slot, now: Time, alive: bool, gone: bool)
    ensures var once := ReconciledSlot(sl, now, alive, gone);
            ReconciledSlot(once, now, alive, gone) == once <==> !(gone && C.EndsUnclean(sl.task, now, alive))
  {
    C.PassIdempotentIff(sl.task, now, alive, gone);
  }

  /** Reconciliation is idempotent: in every reachable state a second pass over a task, cleanup
      included, at the same clock and on the same evidence changes nothing. */
  lemma ReconcileTwice(env: Env, prefix: string, now: Time, run: seq<Step>, id: TaskId, alive: bool, gone: bool)
    requires Possible(env, prefix, now, run) && id in After(env, prefix, now, run).tasks
    ensures var s := After(env, prefix, now, run);
            var once := ReconciledSlot(s.tasks[id], s.clock, alive, gone);
            ReconciledSlot(once, s.clock, alive, gone) == once
  {
    Reached(env, prefix, now, run);
    var s := After(env, prefix, now, run);
    assert SlotOk(prefix, id, s.tasks[id]);
    SlotTwiceIff(s.tasks[id], s.clock, alive, gone);
  }
}
