/** Safety of one task over every interleaving of loads, saves, commands, restarts and crashes. */
module FineTheorems {
  import opened UpgradeTask
  import opened Effects
  import opened FineProtocol
  import opened FineInvariant
  import W = WorkerAutomaton
  import T = WorkerTrace

  // ----- the invariants hold in every reachable state

  ghost predicate Inv(env: Env, prefix: string, g: Task, s: Sys) {
    && Owned(s) && Copies(prefix, g, s) && Launches(s) && Origins(s)
    && (!env.submitDiesUnknown ==> Once(s))
    && (!env.restarts ==> |s.workers| <= s.bootstraps)
  }

  lemma SubmitInv(env: Env, prefix: string, g: Task, s: Sys, i: nat, r: Reply)
    requires Inv(env, prefix, g, s) && Enabled(env, s, Submit(i, r))
    ensures Inv(env, prefix, g, SubmitTo(s, i, r))
  {
    SubmitOwned(s, i, r);
    SubmitCopies(prefix, g, s, i, r);
    SubmitLaunches(prefix, g, s, i, r);
    SubmitOrigins(g, s, i, r);
    if !env.submitDiesUnknown { SubmitOnceStep(prefix, g, s, i, r); }
  }

  lemma WorkInv(env: Env, prefix: string, g: Task, s: Sys, i: nat, r: Reply)
    requires Inv(env, prefix, g, s) && Enabled(env, s, Work(i, r))
    ensures Inv(env, prefix, g, WorkTo(s, i, r))
  {
    assert Journaled(prefix, s.workers[i]);
    WorkOwned(prefix, s, i, r);
    WorkCopies(prefix, g, s, i, r);
    WorkLaunches(prefix, g, s, i, r);
    WorkOrigins(s, i, r);
    if !env.submitDiesUnknown { WorkOnceStep(prefix, g, s, i, r); }
  }

  lemma ReconcileInv(env: Env, prefix: string, g: Task, s: Sys, i: nat, r: Reply)
    requires Inv(env, prefix, g, s) && Enabled(env, s, Reconcile(i, r))
    ensures Inv(env, prefix, g, ReconcileTo(s, i, r))
  {
    OtherOwned(env, prefix, s, Reconcile(i, r));
    ReconcileCopies(prefix, g, s, i, r);
    ReconcileLaunches(prefix, g, s, i, r);
    ReconcileOrigins(s, i, r);
    if !env.submitDiesUnknown { ReconcileOnceStep(prefix, g, s, i, r); }
  }

  lemma OtherInv(env: Env, prefix: string, g: Task, s: Sys, e: Step)
    requires Inv(env, prefix, g, s) && Enabled(env, s, e) && !e.Submit? && !e.Work? && !e.Reconcile?
    ensures Inv(env, prefix, g, Apply(env, prefix, s, e))
  {
    OtherOwned(env, prefix, s, e);
    OtherCopies(env, prefix, g, s, e);
    OtherLaunches(env, prefix, s, e);
    OtherOrigins(env, prefix, s, e);
    if !env.submitDiesUnknown { OtherOnceStep(env, prefix, g, s, e); }
  }

  lemma InvStep(env: Env, prefix: string, g: Task, s: Sys, e: Step)
    requires Inv(env, prefix, g, s) && Enabled(env, s, e)
    ensures Inv(env, prefix, g, Apply(env, prefix, s, e))
  {
    match e {
      case Submit(i, r) => SubmitInv(env, prefix, g, s, i, r);
      case Work(i, r) => WorkInv(env, prefix, g, s, i, r);
      case Reconcile(i, r) => ReconcileInv(env, prefix, g, s, i, r);
      case _ => OtherInv(env, prefix, g, s, e);
    }
  }

  lemma {:induction false} Reached(env: Env, prefix: string, g: Task, now: Time, run: seq<Step>)
    requires Genesis(g) && Possible(env, prefix, g, now, run)
    ensures Inv(env, prefix, g, After(env, prefix, g, now, run))
  {
    if run != [] {
      var past := run[..|run| - 1];
      Reached(env, prefix, g, now, past);
      InvStep(env, prefix, g, After(env, prefix, g, now, past), run[|run| - 1]);
    }
  }

  // ----- counting upgrades

  function UpgradesIn(log: seq<Event>): nat {
    if log == [] then 0
    else UpgradesIn(log[..|log| - 1]) + if log[|log| - 1].act == RunBrew(Upgrade) then 1 else 0
  }

  function TotalUpgrades(ws: seq<WorkerProc>): nat {
    if ws == [] then 0 else TotalUpgrades(ws[..|ws| - 1]) + UpgradesIn(ws[|ws| - 1].log)
  }

  /** One worker runs `brew upgrade` at most once, and only after saving downloading. */
  lemma {:induction false} WorkerUpgradesOnce(pid: nat, prefix: string, log: seq<Event>)
    requires W.Valid(W.Launched(pid, prefix), log)
    ensures UpgradesIn(log) == if T.Commands(log) == [] then 0 else 1
    ensures UpgradesIn(log) > 0 ==> T.SavedState(log, Downloading)
  {
    if log != [] {
      var (past, e) := (log[..|log| - 1], log[|log| - 1]);
      WorkerUpgradesOnce(pid, prefix, past);
      assert T.InOrder(T.Commands(log)) by { T.TraceShape(pid, prefix, log); }
      if T.IsCommand(e.act) {
        assert e.act == T.Planned(|T.Commands(past)|);
      }
    }
    assert T.Commands(log) == [] || T.SavedState(log, Downloading) by { T.RunCommit(pid, prefix, log); }
  }

  lemma {:induction false} SumAtMostOne(ws: seq<WorkerProc>)
    requires forall i | 0 <= i < |ws| :: UpgradesIn(ws[i].log) <= 1
    requires forall i, j | 0 <= i < j < |ws| :: UpgradesIn(ws[i].log) == 0 || UpgradesIn(ws[j].log) == 0
    ensures TotalUpgrades(ws) <= 1
    ensures (forall i | 0 <= i < |ws| :: UpgradesIn(ws[i].log) == 0) ==> TotalUpgrades(ws) == 0
  {
    if ws != [] {
      SumAtMostOne(ws[..|ws| - 1]);
    }
  }

  // ----- the theorems

  /** Each task causes at most one bootstrap, whatever interleaves, repeats or crashes. */
  lemma BootstrapAtMostOnce(env: Env, prefix: string, g: Task, now: Time, run: seq<Step>)
    requires Genesis(g) && Possible(env, prefix, g, now, run)
    ensures After(env, prefix, g, now, run).bootstraps <= 1
  {
    Reached(env, prefix, g, now, run);
  }

  /** Once the record has left awaiting it never returns, so no second confirmation can be accepted. */
  lemma {:induction false} AwaitingNeverReentered(env: Env, prefix: string, g: Task, now: Time, run: seq<Step>, k: nat)
    requires Genesis(g) && Possible(env, prefix, g, now, run) && k <= |run|
    ensures Possible(env, prefix, g, now, run[..k])
    ensures var (before, after) := (After(env, prefix, g, now, run[..k]).rec, After(env, prefix, g, now, run).rec);
            (before.None? || !before.value.state.Awaiting?) ==> (after.None? || !after.value.state.Awaiting?)
  {
    if k == |run| {
      assert run[..k] == run;
    } else {
      var past := run[..|run| - 1];
      AwaitingNeverReentered(env, prefix, g, now, past, k);
      assert past[..k] == run[..k];
      Reached(env, prefix, g, now, past);
      var s := After(env, prefix, g, now, past);
      if s.rec.None? || !s.rec.value.state.Awaiting? {
        NeverAwaitingStep(env, prefix, g, s, run[|run| - 1]);
      }
    }
  }

  lemma NeverAwaitingStep(env: Env, prefix: string, g: Task, s: Sys, e: Step)
    requires Copies(prefix, g, s) && Enabled(env, s, e)
    requires s.rec.None? || !s.rec.value.state.Awaiting?
    ensures var rec := Apply(env, prefix, s, e).rec; rec.None? || !rec.value.state.Awaiting?
  {
    match e {
      case Submit(i, r) => SubmitCopyStep(g, s, s.submits[i].s, r);
      case Work(i, r) =>
        var p := s.workers[i];
        assert Journaled(prefix, p) && WorkerCopy(g, p.w);
        T.RunState(p.w.pid, prefix, p.log);
        if W.Action(p.w).Save? { WorkerSaves(g, p.w); }
      case Reconcile(i, r) => assert ReconCopy(g, s.recons[i]);
      case _ =>
    }
  }

  /** The record only ever carries the digest of the secret issued at Prepare, and carries it from
      the moment it is queued. */
  lemma OneSecret(env: Env, prefix: string, g: Task, now: Time, run: seq<Step>)
    requires Genesis(g) && Possible(env, prefix, g, now, run)
    ensures var rec := After(env, prefix, g, now, run).rec;
            rec.Some? ==>
              && (rec.value.accepted.Blank? || rec.value.accepted == g.credential)
              && (rec.value.state.Queued? ==> rec.value.accepted == g.credential)
              && SameTarget(g, rec.value)
  {
    Reached(env, prefix, g, now, run);
  }

  /** The evidence behind a terminal record: some worker process gathered all of it, for this target. */
  ghost predicate SuccessProven(prefix: string, g: Task, s: Sys) {
    exists i, k ::
      && 0 <= i < |s.workers| && 0 <= k < |s.workers[i].log|
      && T.SavesAt(s.workers[i].log, k, Succeeded)
      && T.Truthful(s.workers[i].log, s.workers[i].log[k].act.task, prefix)
      && SameTarget(g, s.workers[i].log[k].act.task)
  }

  ghost predicate FailureProven(s: Sys) {
    exists i :: 0 <= i < |s.workers| && T.SavedState(s.workers[i].log, Failed) &&
                T.ProvenFailure(T.Commands(s.workers[i].log))
  }

  /** Success is truthful: the record, or its retained summary, says succeeded only if one worker's
      upgrade, stop and start all returned without error and a poll begun before its deadline saw the
      confirmed version, from the target keg, under a new PID. Failure is proven likewise. */
  lemma TerminalIsTruthful(env: Env, prefix: string, g: Task, now: Time, run: seq<Step>)
    requires Genesis(g) && Possible(env, prefix, g, now, run)
    ensures var s := After(env, prefix, g, now, run);
            && ((s.rec.Some? && s.rec.value.state.Succeeded?) || (s.archive.Some? && s.archive.value.state.Succeeded?)
                ==> SuccessProven(prefix, g, s))
            && ((s.rec.Some? && s.rec.value.state.Failed?) || (s.archive.Some? && s.archive.value.state.Failed?)
                ==> FailureProven(s))
  {
    var s := After(env, prefix, g, now, run);
    Reached(env, prefix, g, now, run);
    if SomeoneSaved(s, Succeeded) {
      var i :| 0 <= i < |s.workers| && T.SavedState(s.workers[i].log, Succeeded);
      var p := s.workers[i];
      var k :| 0 <= k < |p.log| && T.SavesAt(p.log, k, Succeeded);
      assert Journaled(prefix, p) && Targeted(g, p.log);
      T.SucceededIsTruthful(p.w.pid, prefix, p.log, k);
      assert SuccessProven(prefix, g, s);
    }
    if SomeoneSaved(s, Failed) {
      var i :| 0 <= i < |s.workers| && T.SavedState(s.workers[i].log, Failed);
      var p := s.workers[i];
      assert Journaled(prefix, p);
      T.FailedIsProven(p.w.pid, prefix, p.log);
    }
  }

  /** Target fixity over whole runs: the bytes any worker reads back from the tap just before its
      `brew upgrade` are the bytes fetched at Prepare. */
  lemma UpgradeInstallsPreparedBytes(env: Env, prefix: string, g: Task, now: Time, run: seq<Step>, i: nat, k: nat)
    requires Genesis(g) && Possible(env, prefix, g, now, run)
    requires i < |After(env, prefix, g, now, run).workers|
    requires k < |After(env, prefix, g, now, run).workers[i].log|
    requires After(env, prefix, g, now, run).workers[i].log[k].act == RunBrew(Upgrade)
    ensures var log := After(env, prefix, g, now, run).workers[i].log;
            k >= 2 && log[k - 2].act.ReadTap? && log[k - 2].reply == BytesR(Some(g.formula.preimage))
  {
    var p := After(env, prefix, g, now, run).workers[i];
    Reached(env, prefix, g, now, run);
    assert Journaled(prefix, p) && Targeted(g, p.log);
    T.TargetFixity(p.w.pid, prefix, p.log, k);
  }

  /** Unless a submit dies between its two launch saves, a queued record means that no worker has
      gone past queued, and that no reported worker stands beside an unknown launch. */
  lemma QueuedIsFresh(env: Env, prefix: string, g: Task, now: Time, run: seq<Step>)
    requires Genesis(g) && Possible(env, prefix, g, now, run) && !env.submitDiesUnknown
    ensures var s := After(env, prefix, g, now, run);
            s.rec.Some? && s.rec.value.state.Queued? ==>
              && (forall i | 0 <= i < |s.workers| :: !T.SavedState(s.workers[i].log, Downloading))
              && (s.rec.value.launchUnknown ==> s.rec.value.workerPid == 0)
  {
    var s := After(env, prefix, g, now, run);
    Reached(env, prefix, g, now, run);
    if s.rec.Some? && s.rec.value.state.Queued? {
      assert forall i | 0 <= i < |s.workers| :: !Committed(s.workers[i]);
    }
  }

  /** In an environment without both faults, a task causes at most one `brew upgrade`. */
  lemma UpgradeAtMostOnce(env: Env, prefix: string, g: Task, now: Time, run: seq<Step>)
    requires Genesis(g) && Possible(env, prefix, g, now, run)
    requires !(env.submitDiesUnknown && env.restarts)
    ensures TotalUpgrades(After(env, prefix, g, now, run).workers) <= 1
  {
    var s := After(env, prefix, g, now, run);
    Reached(env, prefix, g, now, run);
    forall i | 0 <= i < |s.workers|
      ensures UpgradesIn(s.workers[i].log) <= 1
      ensures UpgradesIn(s.workers[i].log) > 0 ==> Committed(s.workers[i])
    {
      assert Journaled(prefix, s.workers[i]);
      WorkerUpgradesOnce(s.workers[i].w.pid, prefix, s.workers[i].log);
    }
    SumAtMostOne(s.workers);
  }
}
