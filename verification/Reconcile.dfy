/** Lazy reconciliation of one task: what evidence makes of a record, and the pass as an automaton. */
module ReconcileAutomaton {
  import opened UpgradeTask
  import opened Effects

  /** The record a pass would save, if any, from the clock and the liveness evidence alone. */
  function Reconciled(t: Task, now: Time, alive: bool): Option<Task> {
    if t.state.Awaiting? then
      if now > t.expiry then Some(t.(state := Expired)) else None
    else if t.state.Queued? then
      if alive then
        if t.launchUnknown then Some(t.(launchUnknown := false)) else None
      else if now - t.updatedAt <= 2 * BOOTSTRAP_TIMEOUT then None
      else Some(t.(state := NeedsAttention,
                   errorKind := if t.launchUnknown then LaunchUnresolved else WorkerNeverStarted))
    else if Inflight(t.state) then
      if alive && now - t.createdAt <= ACCEPTED_BUDGET then None
      else Some(t.(state := NeedsAttention, phase := NoPhase,
                   errorKind := if now - t.createdAt > ACCEPTED_BUDGET then BudgetExhausted else WorkerExited))
    else None
  }

  /** A finished task whose working files may go once its job is gone. */
  predicate Cleanable(t: Task) {
    Terminal(t.state) && t.cleanupPending && !t.cleaned
  }

  datatype Pc =
    | Listing | ReadingClock | Probing(now: Time) | Saving(task: Task)
    | BootingOut | CleanLoading | Indexing(task: Task) | Removing | Exited

  datatype Reconciler = Reconciler(pc: Pc, task: Task)

  const STARTED: Reconciler := Reconciler(Listing, ZERO_TASK)

  function Action(c: Reconciler): Act
    requires !c.pc.Exited?
  {
    match c.pc
    case Listing => Load
    case ReadingClock => ReadClock
    case Probing(_) => Probe
    case Saving(t) => Save(t)
    case BootingOut => Bootout
    case CleanLoading => Load
    case Indexing(t) => AppendIndex(t)
    case Removing => RemoveDir
  }

  function Decide(c: Reconciler, now: Time, alive: bool): Reconciler {
    match Reconciled(c.task, now, alive)
    case Some(t) => c.(pc := Saving(t))
    case None => c.(pc := Exited)
  }

  function Next(c: Reconciler, r: Reply): Reconciler
    requires !c.pc.Exited? && Fits(Action(c), r)
  {
    match c.pc
    case Listing =>
      if r.load.Loaded? then c.(task := r.load.task, pc := ReadingClock) else c.(pc := Exited)
    case ReadingClock =>
      if Cleanable(c.task) then c.(pc := BootingOut)
      else if (c.task.state.Queued? || Inflight(c.task.state)) && c.task.workerPid != 0
      then c.(pc := Probing(r.now))
      else Decide(c, r.now, false)
    case Probing(now) => Decide(c, now, r.ok)
    case Saving(_) => c.(pc := Exited)
    case BootingOut => c.(pc := if r.ok then CleanLoading else Exited)
    case CleanLoading =>
      (match r.load
       case Loaded(t) => c.(pc := Indexing(t.(cleaned := true, cleanupPending := false)))
       case Missing => c.(pc := Removing)
       case LoadError => c.(pc := Exited))
    case Indexing(_) => c.(pc := if r.ok then Removing else Exited)
    case Removing => c.(pc := Exited)
  }

  // ----- one pass over one record

  /** What a pass makes of one record, with the store clock standing still; None is a record moved to
      the summaries, once its job is gone. */
  function Pass(t: Task, now: Time, alive: bool, gone: bool): Option<Task> {
    match Reconciled(t, now, alive)
    case Some(t') => Some(Written(t', now))
    case None => if Cleanable(t) && gone then None else Some(t)
  }

  function PassAgain(left: Option<Task>, now: Time, alive: bool, gone: bool): Option<Task> {
    match left
    case Some(t) => Pass(t, now, alive, gone)
    case None => None
  }

  /** The pass ends a task whose cleanup is already asked for. */
  predicate EndsUnclean(t: Task, now: Time, alive: bool) {
    var decided := Reconciled(t, now, alive);
    decided.Some? && Terminal(decided.value.state) && t.cleanupPending && !t.cleaned
  }

  /** At a fixed clock and evidence a second pass changes nothing, unless the first one ended a task
      whose cleanup was already asked for: then the second cleans it. */
  lemma PassIdempotentIff(t: Task, now: Time, alive: bool, gone: bool)
    ensures var once := Pass(t, now, alive, gone);
            PassAgain(once, now, alive, gone) == once <==> !(gone && EndsUnclean(t, now, alive))
  {
  }

  /** What a pass says, field by field: which records go, which expire, which are marked as unresolved and
      for what reason, and when a launch is known after all. */
  lemma PassSays(t: Task, now: Time, alive: bool, gone: bool)
    ensures Pass(t, now, alive, gone).None? <==> Terminal(t.state) && t.cleanupPending && !t.cleaned && gone
    ensures Pass(t, now, alive, gone).Some? ==>
              var u := Pass(t, now, alive, gone).value;
              var (silent, over) := (now - t.updatedAt > 30 * SECOND, now - t.createdAt > 1800 * SECOND);
              var expires := t.state.Awaiting? && now > t.expiry;
              var lost := t.state.Queued? && !alive && silent;
              var stuck := Inflight(t.state) && (!alive || over);
              var known := t.state.Queued? && alive && t.launchUnknown;
              && u.state == (if expires then Expired else if lost || stuck then NeedsAttention else t.state)
              && u.errorKind == (if lost then (if t.launchUnknown then LaunchUnresolved else WorkerNeverStarted)
                                 else if stuck then (if over then BudgetExhausted else WorkerExited)
                                 else t.errorKind)
              && u.phase == (if stuck then NoPhase else t.phase)
              && u.launchUnknown == (t.launchUnknown && !known)
              && u.updatedAt == (if expires || lost || stuck || known then now else t.updatedAt)
  {
  }

  /** Exactly what a pass leaves unfinished: unexpired confirmations, launches with a live worker or
      an open window, and live workers inside the budget. */
  lemma PassConverges(t: Task, now: Time, alive: bool, gone: bool)
    ensures var left := Pass(t, now, alive, gone);
            left.Some? && !Terminal(left.value.state) <==>
              || (t.state.Awaiting? && now <= t.expiry)
              || (t.state.Queued? && (alive || now - t.updatedAt <= 2 * BOOTSTRAP_TIMEOUT))
              || (Inflight(t.state) && alive && now - t.createdAt <= ACCEPTED_BUDGET)
  {
  }

  /** With no live worker, one pass after the budget and the launch window leaves every task Prepare
      could have created in a terminal state. */
  lemma LatePassTerminates(t: Task, now: Time, gone: bool)
    requires t.expiry <= t.createdAt + CONFIRM_TTL
    requires now > t.createdAt + ACCEPTED_BUDGET && now > t.updatedAt + 2 * BOOTSTRAP_TIMEOUT
    ensures var left := Pass(t, now, false, gone); left.Some? ==> Terminal(left.value.state)
  {
    PassConverges(t, now, false, gone);
  }

  /** A pass never moves a state backwards, removes nothing unfinished, changes nothing that is
      finished, and never touches who asked for what, which secret counts, or when the task began. */
  lemma PassForward(t: Task, now: Time, alive: bool, gone: bool)
    ensures Pass(t, now, alive, gone).None? ==> Terminal(t.state)
    ensures Pass(t, now, alive, gone).Some? ==>
              var t' := Pass(t, now, alive, gone).value;
              && (t'.state != t.state ==> Rank(t.state) < Rank(t'.state))
              && (Terminal(t.state) ==> t' == t)
              && (t'.state.Succeeded? ==> t.state.Succeeded?)
              && t' == t.(state := t'.state, phase := t'.phase, errorKind := t'.errorKind,
                          launchUnknown := t'.launchUnknown, updatedAt := t'.updatedAt)
  {
  }
}
