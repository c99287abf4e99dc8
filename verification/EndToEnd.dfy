/** The models tied together: what the manager prepares is what workers install, and the single steps of
    the coarse protocol are what the manager's own methods do to a record. */
module EndToEnd {
  import opened UpgradeTask
  import opened TaskStore
  import opened StoreProcess
  import M = ManagerProcess
  import S = SubmitAutomaton
  import F = FineProtocol
  import FineTheorems
  import P = CoarseProtocol
  import Effects
  import W = WorkerAutomaton
  import O = WorkerOutcome

  /** A prepared record is one the protocol starts from. */
  lemma PreparedIsGenesis(t: Task, id: TaskId, initiator: string, c: M.Candidate, secret: string, port: int,
                          from: Time, to: Time)
    requires M.IsFresh(t, id, initiator, c, secret, port, from, to)
    ensures F.Genesis(t)
  {
  }

  /** From the fetched candidate to the command line: once a prepare has answered, whatever runs,
      interleaves or crashes afterwards, the bytes any worker of that task reads back just before its
      `brew upgrade` are the bytes that were fetched, and the secret that is ever accepted is the one
      that was handed out. */
  lemma PreparedIsInstalled(d: Disk, p: M.Preparation, initiator: string, fetched: Option<M.Candidate>,
                            secret: string, port: int, from: Time, to: Time, d': Disk,
                            env: F.Env, prefix: string, now: Time, run: seq<F.Step>, i: nat, k: nat)
    requires M.Prepares(d, p, initiator, fetched, secret, port, from, to, d') && p.Prepared?
    requires F.Possible(env, prefix, d'.live[p.id].task, now, run)
    ensures var s := F.After(env, prefix, d'.live[p.id].task, now, run);
            && (s.rec.Some? ==> s.rec.value.accepted.Blank? || s.rec.value.accepted == Sha256(secret))
            && (s.rec.Some? ==> s.rec.value.formula == Sha256(fetched.value.body) &&
                                s.rec.value.targetVersion == fetched.value.stable &&
                                s.rec.value.targetKeg == fetched.value.raw && s.rec.value.port == port)
            && (i < |s.workers| && k < |s.workers[i].log| &&
                s.workers[i].log[k].act == Effects.RunBrew(Effects.Upgrade) ==>
                  k >= 2 && s.workers[i].log[k - 2].act.ReadTap? &&
                  s.workers[i].log[k - 2].reply == Effects.BytesR(Some(fetched.value.body)))
  {
    var g := d'.live[p.id].task;
    PreparedIsGenesis(g, p.id, initiator, fetched.value, secret, port, from, to);
    FineTheorems.OneSecret(env, prefix, g, now, run);
    var s := F.After(env, prefix, g, now, run);
    if i < |s.workers| && k < |s.workers[i].log| && s.workers[i].log[k].act == Effects.RunBrew(Effects.Upgrade) {
      FineTheorems.UpgradeInstallsPreparedBytes(env, prefix, g, now, run, i, k);
    }
  }

  /** The record of a coarse prepare is the manager's. */
  lemma CoarsePrepare(o: P.Order, now: Time)
    ensures M.IsFresh(P.Fresh(o, now), o.id, o.initiator, M.Candidate(o.body, o.stable, o.raw), o.secret, o.port,
                      now, now)
  {
  }

  /** A coarse confirmation leaves the record the manager leaves, and a job only for a consumed one. */
  lemma CoarseSubmit(sl: P.Slot, e: P.Step, now: Time)
    requires e.Submit? && sl.task.state.Awaiting? && sl.task.initiator == e.req.initiator && sl.task.id == e.id
    requires e.launch.FilesFailed? || e.launch.Booted? || e.launch.BootUnknown?
    ensures var (sl', later) := P.Submitted(sl, e, now);
            && M.Judged(map[e.id := Parsed(sl.task)], e.id, e.req, now, e.launch, later).1 ==
               map[e.id := Parsed(sl'.task)]
    ensures var sl' := P.Submitted(sl, e, now).0;
            && (sl'.job ==> sl.job || (M.Consumes(sl.task, e.req, now) && !e.launch.FilesFailed?))
            && (M.Consumes(sl.task, e.req, now) && e.launch.Booted? ==> sl'.job)
  {
    LeftLater(sl.task, e.req.credential, e.launch, now, now + e.boot + e.files);
  }

  /** Only the last stamp of a whole launch stays. */
  lemma LeftLater(t: Task, credential: string, launch: S.Launch, now: Time, later: Time)
    requires launch.FilesFailed? || launch.Booted? || launch.BootUnknown?
    ensures S.Left(t, credential, launch, now, later) == S.Left(t, credential, launch, later, later)
  {
  }

  /** What a coarse start does to a task while another process has the lock is what the worker's own run
      does: refused, it marks the record as it finds it. */
  lemma CoarseRefused(prefix: string, pid: nat, sl: P.Slot, now: Time, refusal: Effects.LockReply)
    requires !refusal.Acquired? && !sl.archived
    ensures var u := P.Begun(sl, true, pid, now).task;
            var log := RefusedLog(sl.task, u, now, refusal);
            && W.Valid(W.Launched(pid, prefix), log) && W.Play(W.Launched(pid, prefix), log).pc.Exited?
            && O.Decided(pid, prefix, log) && u.updatedAt == now
  {
    var u := P.Begun(sl, true, pid, now).task;
    RefusedRuns(prefix, pid, sl.task, u, now, refusal);
    O.EndedIsDecided(pid, prefix, RefusedLog(sl.task, u, now, refusal));
  }

  /** Refused the lock, having read t and saved u. */
  function RefusedLog(t: Task, u: Task, now: Time, refusal: Effects.LockReply): seq<Effects.Event> {
    [] + [Effects.Event(Effects.TryLock, Effects.LockR(refusal))]
    + [Effects.Event(Effects.Load, Effects.LoadR(Effects.Loaded(t)))]
    + [Effects.Event(Effects.Save(u.(updatedAt := t.updatedAt)), Effects.SavedR(now))]
  }

  lemma RefusedRuns(prefix: string, pid: nat, t: Task, u: Task, now: Time, refusal: Effects.LockReply)
    requires !refusal.Acquired?
    requires u.(updatedAt := t.updatedAt) ==
             t.(state := NeedsAttention, failureStage := LockStage, errorKind := OutcomeUnknown, phase := NoPhase)
    ensures var log := RefusedLog(t, u, now, refusal);
            W.Valid(W.Launched(pid, prefix), log) && W.Play(W.Launched(pid, prefix), log).pc.Exited?
  {
    var w0 := W.Launched(pid, prefix);
    var log1 := [] + [Effects.Event(Effects.TryLock, Effects.LockR(refusal))];
    var log2 := log1 + [Effects.Event(Effects.Load, Effects.LoadR(Effects.Loaded(t)))];
    RefusedReads(prefix, pid, t, refusal);
    W.PlayStep(w0, log2, Effects.SavedR(now));
  }

  lemma RefusedReads(prefix: string, pid: nat, t: Task, refusal: Effects.LockReply)
    requires !refusal.Acquired?
    ensures var w0 := W.Launched(pid, prefix);
            var log := [] + [Effects.Event(Effects.TryLock, Effects.LockR(refusal))]
                       + [Effects.Event(Effects.Load, Effects.LoadR(Effects.Loaded(t)))];
            W.Valid(w0, log) && W.Play(w0, log) == W.Worker(W.SavingUnknown(LockStage), pid, prefix, t, false)
  {
    var w0 := W.Launched(pid, prefix);
    W.PlayStep(w0, [], Effects.LockR(refusal));
    W.PlayStep(w0, [] + [Effects.Event(Effects.TryLock, Effects.LockR(refusal))], Effects.LoadR(Effects.Loaded(t)));
  }

  /** A coarse pass over a record is the manager's, with its clock standing still. */
  lemma CoarseReconcile(sl: P.Slot, now: Time, alive: bool, gone: bool, after: Option<Record>)
    requires alive ==> sl.task.workerPid != 0
    requires M.Swept(Parsed(sl.task), now, now, alive, gone, after)
    ensures var sl' := P.ReconciledSlot(sl, now, alive, gone);
            if after.None? then sl'.archived && ViewOf(sl'.task) == ViewOf(sl.task)
            else after == Some(Parsed(sl'.task)) && sl'.archived == sl.archived
  {
  }
}
