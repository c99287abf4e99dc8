/** Why one confirmation and one reconciliation may be single steps: run without interference, the
    step-by-step automata leave exactly the records those single steps leave, at every crash point. */
module Granularity {
  import opened UpgradeTask
  import opened Effects
  import S = SubmitAutomaton
  import C = ReconcileAutomaton
  import P = CoarseProtocol

  /** The record after an action that got this reply, with nobody else writing it. */
  function Disk(t: Task, a: Act, r: Reply): Task
    requires Fits(a, r)
  {
    if a.Save? then Written(a.task, r.at) else t
  }

  /** What a process alone with the record reads is what is there; now is the time it decides at. */
  predicate Reads(t: Task, now: Time, a: Act, r: Reply) {
    && Fits(a, r)
    && (a.Load? && r.load.Loaded? ==> r.load.task == t)
    && (a.ReadClock? ==> r.now == now)
  }

  // ----- confirmation

  predicate SubmitsAlone(s: S.Submitter, t: Task, now: Time, replies: seq<Reply>)
    decreases |replies|
  {
    replies == [] ||
    (!s.pc.Exited? && Reads(t, now, S.Action(s), replies[0]) &&
     SubmitsAlone(S.Next(s, replies[0]), Disk(t, S.Action(s), replies[0]), now, replies[1..]))
  }

  function SubmitLeaves(s: S.Submitter, t: Task, now: Time, replies: seq<Reply>): Task
    requires SubmitsAlone(s, t, now, replies)
    decreases |replies|
  {
    if replies == [] then t
    else SubmitLeaves(S.Next(s, replies[0]), Disk(t, S.Action(s), replies[0]), now, replies[1..])
  }

  /** What a confirmation of t0 may leave: the record untouched, expired, or accepted and launched
      as far as one of the launch outcomes. */
  ghost predicate Outcome(t0: Task, credential: string, now: Time, t: Task) {
    || t == t0
    || (t0.state.Awaiting? && now > t0.expiry && t == Written(t0.(state := Expired), t.updatedAt))
    || (Consumable(t0, credential, now) &&
        exists l: S.Launch, at: Time, later: Time :: t == S.Left(t0, credential, l, at, later))
  }

  predicate Consumable(t: Task, credential: string, now: Time) {
    t.state.Awaiting? && now <= t.expiry && Sha256(credential) == t.credential
  }

  /** What a submitter's memory says about the record, at each control point. */
  ghost predicate Knows(s: S.Submitter, t0: Task, now: Time, t: Task) {
    var credential := s.req.credential;
    match s.pc
    case Locking => t == t0
    case Loading => t == t0
    case ReadingClock => t == t0 == s.task && t0.state.Awaiting?
    case SavingExpired => t == t0 == s.task && t0.state.Awaiting? && now > t0.expiry
    case SavingQueued => t == t0 == s.task && Consumable(t0, credential, now)
    case Preparing => Queued(t0, credential, now, t) && s.task == t
    case Bootstrapping => Queued(t0, credential, now, t) && s.task == Tried(t)
    case SavingLaunched => Queued(t0, credential, now, t) && s.task == Tried(t)
    case SavingUnknown => Queued(t0, credential, now, t) && s.task == Tried(t).(launchUnknown := true)
    case SavingAttention =>
      && Consumable(t0, credential, now) && s.task == t
      && exists l: S.Launch, at: Time ::
           (l.DiedFirst? || l.DiedUnknown?) && t == S.Left(t0, credential, l, at, t.updatedAt)
    case _ => Outcome(t0, credential, now, t)
  }

  ghost predicate Queued(t0: Task, credential: string, now: Time, t: Task) {
    && Consumable(t0, credential, now)
    && t == Written(S.Accepted(t0, credential), t.updatedAt)
  }

  function Tried(t: Task): Task { t.(launchAttempt := t.launchAttempt + 1) }

  lemma KnowsDeciding(s: S.Submitter, t0: Task, now: Time, t: Task, r: Reply)
    requires !s.pc.Exited? && Reads(t, now, S.Action(s), r) && Knows(s, t0, now, t)
    ensures Knows(S.Next(s, r), t0, now, Disk(t, S.Action(s), r))
    requires s.pc.Locking? || s.pc.Loading? || s.pc.ReadingClock? || s.pc.SavingExpired? || s.pc.Unlocking?
  {
  }

  lemma KnowsAccepting(s: S.Submitter, t0: Task, now: Time, t: Task, r: Reply)
    requires !s.pc.Exited? && Reads(t, now, S.Action(s), r) && Knows(s, t0, now, t)
    ensures Knows(S.Next(s, r), t0, now, Disk(t, S.Action(s), r))
    requires s.pc.SavingQueued? || s.pc.Bootstrapping?
  {
  }

  lemma KnowsPreparing(s: S.Submitter, t0: Task, now: Time, t: Task, r: Reply)
    requires !s.pc.Exited? && Reads(t, now, S.Action(s), r) && Knows(s, t0, now, t)
    ensures Knows(S.Next(s, r), t0, now, Disk(t, S.Action(s), r))
    requires s.pc.Preparing?
  {
    assert t == S.Left(t0, s.req.credential, S.DiedFirst, t.updatedAt, t.updatedAt);
  }

  lemma KnowsLaunching(s: S.Submitter, t0: Task, now: Time, t: Task, r: Reply)
    requires !s.pc.Exited? && Reads(t, now, S.Action(s), r) && Knows(s, t0, now, t)
    ensures Knows(S.Next(s, r), t0, now, Disk(t, S.Action(s), r))
    requires s.pc.SavingLaunched? || s.pc.SavingUnknown?
  {
    var l := if s.pc.SavingLaunched? then S.Booted else S.DiedUnknown(false);
    assert Written(s.task, r.at) == S.Left(t0, s.req.credential, l, t.updatedAt, r.at);
  }

  lemma KnowsGivingUp(s: S.Submitter, t0: Task, now: Time, t: Task, r: Reply)
    requires !s.pc.Exited? && Reads(t, now, S.Action(s), r) && Knows(s, t0, now, t)
    ensures Knows(S.Next(s, r), t0, now, Disk(t, S.Action(s), r))
    requires s.pc.SavingAttention?
  {
    var l: S.Launch, at: Time :|
      (l.DiedFirst? || l.DiedUnknown?) && t == S.Left(t0, s.req.credential, l, at, t.updatedAt);
    var l' := if l.DiedFirst? then S.FilesFailed else S.BootUnknown(false);
    assert Written(S.Unlaunched(t), r.at) == S.Left(t0, s.req.credential, l', at, r.at);
  }

  lemma KnowsStep(s: S.Submitter, t0: Task, now: Time, t: Task, r: Reply)
    requires !s.pc.Exited? && Reads(t, now, S.Action(s), r) && Knows(s, t0, now, t)
    ensures Knows(S.Next(s, r), t0, now, Disk(t, S.Action(s), r))
  {
    match s.pc
    case SavingQueued => KnowsAccepting(s, t0, now, t, r);
    case Bootstrapping => KnowsAccepting(s, t0, now, t, r);
    case Preparing => KnowsPreparing(s, t0, now, t, r);
    case SavingLaunched => KnowsLaunching(s, t0, now, t, r);
    case SavingUnknown => KnowsLaunching(s, t0, now, t, r);
    case SavingAttention => KnowsGivingUp(s, t0, now, t, r);
    case _ => KnowsDeciding(s, t0, now, t, r);
  }

  lemma KnowsOutcome(s: S.Submitter, t0: Task, now: Time, t: Task)
    requires Knows(s, t0, now, t)
    ensures Outcome(t0, s.req.credential, now, t)
  {
    if s.pc.Preparing? || s.pc.Bootstrapping? || s.pc.SavingLaunched? || s.pc.SavingUnknown? {
      assert t == S.Left(t0, s.req.credential, S.DiedFirst, t.updatedAt, t.updatedAt);
    }
  }

  lemma {:induction false} SubmitRun(s: S.Submitter, t0: Task, now: Time, t: Task, replies: seq<Reply>)
    requires SubmitsAlone(s, t, now, replies) && Knows(s, t0, now, t)
    ensures Outcome(t0, s.req.credential, now, SubmitLeaves(s, t, now, replies))
    decreases |replies|
  {
    if replies == [] {
      KnowsOutcome(s, t0, now, t);
    } else {
      KnowsStep(s, t0, now, t, replies[0]);
      SubmitRun(S.Next(s, replies[0]), t0, now, Disk(t, S.Action(s), replies[0]), replies[1..]);
    }
  }

  /** However a confirmation alone with its record ends, and wherever it dies, the record is one of
      those the single-step confirmation leaves. */
  lemma SubmitCoarsens(req: S.Request, t: Task, now: Time, replies: seq<Reply>)
    requires SubmitsAlone(S.Arrived(req), t, now, replies)
    ensures Outcome(t, req.credential, now, SubmitLeaves(S.Arrived(req), t, now, replies))
  {
    SubmitRun(S.Arrived(req), t, now, t, replies);
  }

  /** One more step in front of a run. */
  lemma Before(s: S.Submitter, t: Task, now: Time, r: Reply, rest: seq<Reply>)
    requires !s.pc.Exited? && Reads(t, now, S.Action(s), r)
    requires SubmitsAlone(S.Next(s, r), Disk(t, S.Action(s), r), now, rest)
    ensures SubmitsAlone(s, t, now, [r] + rest)
    ensures SubmitLeaves(s, t, now, [r] + rest) == SubmitLeaves(S.Next(s, r), Disk(t, S.Action(s), r), now, rest)
  {
    assert ([r] + rest)[1..] == rest;
  }

  /** The launch of a queued record, by outcome. */
  function LaunchReplies(l: S.Launch, later: Time): seq<Reply> {
    match l
    case DiedFirst => []
    case FilesFailed => [OkR(false)] + [SavedR(later)]
    case DiedBooted(_) => [OkR(true)] + [CmdR(CmdReply.Done)]
    case Booted => [OkR(true)] + ([CmdR(CmdReply.Done)] + [SavedR(later)])
    case DiedUnknown(_) => [OkR(true)] + ([CmdR(CmdReply.Unknown)] + [SavedR(later)])
    case BootUnknown(_) => [OkR(true)] + ([CmdR(CmdReply.Unknown)] + ([SavedR(later)] + [SavedR(later)]))
  }

  lemma Last(s: S.Submitter, t: Task, now: Time, r: Reply)
    requires !s.pc.Exited? && Reads(t, now, S.Action(s), r)
    ensures SubmitsAlone(s, t, now, [r]) && SubmitLeaves(s, t, now, [r]) == Disk(t, S.Action(s), r)
  {
    assert [r] + [] == [r];
    Before(s, t, now, r, []);
  }

  lemma LaunchAttains(req: S.Request, q: Task, now: Time, l: S.Launch, later: Time)
    ensures var s := S.Submitter(S.Preparing, req, q);
            var tried := Tried(q);
            && SubmitsAlone(s, q, now, LaunchReplies(l, later))
            && SubmitLeaves(s, q, now, LaunchReplies(l, later)) ==
                 match l
                 case DiedFirst => q
                 case FilesFailed => Written(S.Unlaunched(q), later)
                 case DiedBooted(_) => q
                 case Booted => Written(tried, later)
                 case DiedUnknown(_) => Written(tried.(launchUnknown := true), later)
                 case BootUnknown(_) => Written(S.Unlaunched(tried.(launchUnknown := true)), later)
  {
    var s := S.Submitter(S.Preparing, req, q);
    var b := S.Submitter(S.Bootstrapping, req, Tried(q));
    var u := S.Submitter(S.SavingUnknown, req, Tried(q).(launchUnknown := true));
    var unknown := Written(u.task, later);
    match l
    case DiedFirst =>
    case FilesFailed =>
      Last(S.Submitter(S.SavingAttention, req, q), q, now, SavedR(later));
      Before(s, q, now, OkR(false), [SavedR(later)]);
    case DiedBooted(_) =>
      Last(b, q, now, CmdR(CmdReply.Done));
      Before(s, q, now, OkR(true), [CmdR(CmdReply.Done)]);
    case Booted =>
      Last(S.Submitter(S.SavingLaunched, req, Tried(q)), q, now, SavedR(later));
      Before(b, q, now, CmdR(CmdReply.Done), [SavedR(later)]);
      Before(s, q, now, OkR(true), [CmdR(CmdReply.Done)] + [SavedR(later)]);
    case DiedUnknown(_) =>
      Last(u, q, now, SavedR(later));
      Before(b, q, now, CmdR(CmdReply.Unknown), [SavedR(later)]);
      Before(s, q, now, OkR(true), [CmdR(CmdReply.Unknown)] + [SavedR(later)]);
    case BootUnknown(_) =>
      Last(S.Submitter(S.SavingAttention, req, unknown), unknown, now, SavedR(later));
      Before(u, q, now, SavedR(later), [SavedR(later)]);
      Before(b, q, now, CmdR(CmdReply.Unknown), [SavedR(later)] + [SavedR(later)]);
      Before(s, q, now, OkR(true), [CmdR(CmdReply.Unknown)] + ([SavedR(later)] + [SavedR(later)]));
  }

  /** The way from the loaded record to the accepted one. */
  lemma AcceptAttains(req: S.Request, t: Task, now: Time, at: Time, launch: seq<Reply>) returns (replies: seq<Reply>)
    requires Consumable(t, req.credential, now)
    requires var q := Written(S.Accepted(t, req.credential), at);
             SubmitsAlone(S.Submitter(S.Preparing, req, q), q, now, launch)
    ensures var (s, q) := (S.Submitter(S.ReadingClock, req, t), Written(S.Accepted(t, req.credential), at));
            && SubmitsAlone(s, t, now, replies)
            && SubmitLeaves(s, t, now, replies) == SubmitLeaves(S.Submitter(S.Preparing, req, q), q, now, launch)
  {
    Before(S.Submitter(S.SavingQueued, req, t), t, now, SavedR(at), launch);
    replies := [SavedR(at)] + launch;
    Before(S.Submitter(S.ReadingClock, req, t), t, now, ClockR(false, now), replies);
    replies := [ClockR(false, now)] + replies;
  }

  /** Conversely, every record the single-step confirmation leaves is left by some run of the steps:
      for each launch outcome there are replies, or a crash, that bring it about. */
  lemma SubmitAttains(req: S.Request, t: Task, now: Time, l: S.Launch, at: Time, later: Time)
    returns (replies: seq<Reply>)
    requires req.confirm && req.initiator == t.initiator && Consumable(t, req.credential, now)
    ensures SubmitsAlone(S.Arrived(req), t, now, replies)
    ensures SubmitLeaves(S.Arrived(req), t, now, replies) == S.Left(t, req.credential, l, at, later)
  {
    LaunchAttains(req, Written(S.Accepted(t, req.credential), at), now, l, later);
    replies := AcceptAttains(req, t, now, at, LaunchReplies(l, later));
    Before(S.Submitter(S.Loading, req, ZERO_TASK), t, now, LoadR(Loaded(t)), replies);
    replies := [LoadR(Loaded(t))] + replies;
    Before(S.Arrived(req), t, now, LockR(Acquired), replies);
    replies := [LockR(Acquired)] + replies;
  }

  // ----- reconciliation

  /** One task's record, the summary filed for it, and whether its directory is gone. */
  datatype Kept = Kept(task: Task, summary: Option<Task>, removed: bool)

  function After(k: Kept, a: Act, r: Reply): Kept
    requires Fits(a, r)
  {
    match a
    case Save(_) => k.(task := Disk(k.task, a, r))
    case AppendIndex(t) => if r.ok then k.(summary := Some(t)) else k
    case RemoveDir => k.(removed := true)
    case _ => k
  }

  /** A reconciler alone reads what is there; the evidence is a worker alive or not, and its stamps are
      the time it decides at. */
  predicate Observes(k: Kept, now: Time, alive: bool, a: Act, r: Reply) {
    && Reads(k.task, now, a, r)
    && (a.Load? ==> !r.load.Missing?)
    && (a.Save? ==> r.at == now)
    && (a.Probe? ==> r.ok == alive)
  }

  predicate PassesAlone(c: C.Reconciler, k: Kept, now: Time, alive: bool, replies: seq<Reply>)
    decreases |replies|
  {
    replies == [] ||
    (!c.pc.Exited? && Observes(k, now, alive, C.Action(c), replies[0]) &&
     PassesAlone(C.Next(c, replies[0]), After(k, C.Action(c), replies[0]), now, alive, replies[1..]))
  }

  /** Where the reconciler is and what is kept after these replies. */
  function PassLeaves(c: C.Reconciler, k: Kept, now: Time, alive: bool, replies: seq<Reply>): (C.Reconciler, Kept)
    requires PassesAlone(c, k, now, alive, replies)
    decreases |replies|
  {
    if replies == [] then (c, k)
    else PassLeaves(C.Next(c, replies[0]), After(k, C.Action(c), replies[0]), now, alive, replies[1..])
  }

  function Untouched(t: Task): Kept { Kept(t, None, false) }

  function Summary(t: Task): Task { t.(cleaned := true, cleanupPending := false) }

  /** The slot of the single-step protocol that stands for what is kept. */
  function AsSlot(sl: P.Slot, k: Kept): P.Slot {
    if k.removed then sl.(task := Summary(k.task), archived := true) else sl.(task := k.task)
  }

  /** What a pass over a record may leave: nothing done, all of the single step done, or, cut off
      inside a cleanup, the summary filed and the record not yet removed. */
  predicate PassOutcome(t: Task, now: Time, alive: bool, k: Kept) {
    || k == Untouched(t)
    || (exists gone :: C.Pass(t, now, alive, gone) == Some(k.task) && k == Untouched(k.task))
    || (C.Pass(t, now, alive, true).None? && k.task == t && k.summary == Some(Summary(t)))
  }

  /** What a reconciler's memory says about what is kept, at each control point. */
  predicate Remembers(c: C.Reconciler, t: Task, now: Time, alive: bool, k: Kept) {
    match c.pc
    case Listing => k == Untouched(t)
    case ReadingClock => k == Untouched(t) && c.task == t
    case Probing(at) => k == Untouched(t) && c.task == t && at == now && !C.Cleanable(t)
    case Saving(u) => k == Untouched(t) && C.Reconciled(t, now, alive) == Some(u)
    case BootingOut => k == Untouched(t) && C.Cleanable(t)
    case CleanLoading => k == Untouched(t) && C.Cleanable(t)
    case Indexing(u) => k == Untouched(t) && C.Cleanable(t) && u == Summary(t)
    case Removing => k == Kept(t, Some(Summary(t)), false) && C.Cleanable(t)
    case Exited => PassOutcome(t, now, alive, k)
  }

  lemma RemembersStep(c: C.Reconciler, t: Task, now: Time, alive: bool, k: Kept, r: Reply)
    requires alive ==> t.workerPid != 0
    requires !c.pc.Exited? && Observes(k, now, alive, C.Action(c), r) && Remembers(c, t, now, alive, k)
    ensures Remembers(C.Next(c, r), t, now, alive, After(k, C.Action(c), r))
  {
    if c.pc.Saving? {
      assert C.Pass(t, now, alive, false) == Some(After(k, C.Action(c), r).task);
    }
  }

  lemma {:induction false} PassRun(c: C.Reconciler, t: Task, now: Time, alive: bool, k: Kept, replies: seq<Reply>)
    requires (alive ==> t.workerPid != 0) && PassesAlone(c, k, now, alive, replies) && Remembers(c, t, now, alive, k)
    ensures PassOutcome(t, now, alive, PassLeaves(c, k, now, alive, replies).1)
    decreases |replies|
  {
    if replies != [] {
      RemembersStep(c, t, now, alive, k, replies[0]);
      PassRun(C.Next(c, replies[0]), t, now, alive, After(k, C.Action(c), replies[0]), replies[1..]);
    }
  }

  /** However a reconciliation alone with its record ends, and wherever it dies, what it leaves is the
      slot before or after the single step; the only thing the single step does not show is a summary
      filed ahead of the removal it announces. */
  lemma ReconcileCoarsens(sl: P.Slot, now: Time, alive: bool, replies: seq<Reply>)
    requires alive ==> sl.task.workerPid != 0
    requires PassesAlone(C.STARTED, Untouched(sl.task), now, alive, replies)
    ensures var k := PassLeaves(C.STARTED, Untouched(sl.task), now, alive, replies).1;
            && (AsSlot(sl, k) == sl || exists gone :: AsSlot(sl, k) == P.ReconciledSlot(sl, now, alive, gone))
            && (k.summary.Some? ==> C.Cleanable(sl.task) && k.summary.value == Summary(sl.task))
            && (k.removed ==> k.summary.Some?)
  {
    PassRun(C.STARTED, sl.task, now, alive, Untouched(sl.task), replies);
    var k := PassLeaves(C.STARTED, Untouched(sl.task), now, alive, replies).1;
    if k.removed {
      assert AsSlot(sl, k) == P.ReconciledSlot(sl, now, alive, true);
    } else if k != Untouched(sl.task) && k.summary.None? {
      var gone :| C.Pass(sl.task, now, alive, gone) == Some(k.task);
      assert AsSlot(sl, k) == P.ReconciledSlot(sl, now, alive, gone);
    }
  }

  /** A run to this end: the reconciler is there, and this is what it keeps. */
  predicate Ends(c: C.Reconciler, k: Kept, now: Time, alive: bool, replies: seq<Reply>, c': C.Reconciler, k': Kept) {
    PassesAlone(c, k, now, alive, replies) && PassLeaves(c, k, now, alive, replies) == (c', k')
  }

  lemma OneMore(c: C.Reconciler, k: Kept, now: Time, alive: bool, r: Reply, rest: seq<Reply>,
                c': C.Reconciler, k': Kept)
    requires !c.pc.Exited? && Observes(k, now, alive, C.Action(c), r)
    requires Ends(C.Next(c, r), After(k, C.Action(c), r), now, alive, rest, c', k')
    ensures Ends(c, k, now, alive, [r] + rest, c', k')
  {
    assert ([r] + rest)[1..] == rest;
  }

  /** A cleanup from the moment the job is gone, with or without its last step. */
  lemma CleanupAttains(t: Task, now: Time, alive: bool, whole: bool) returns (replies: seq<Reply>, c: C.Reconciler)
    requires C.Cleanable(t)
    ensures whole ==> c.pc.Exited?
    ensures Ends(C.Reconciler(C.BootingOut, t), Untouched(t), now, alive, replies, c, Kept(t, Some(Summary(t)), whole))
  {
    var removing, k := C.Reconciler(C.Removing, t), Kept(t, Some(Summary(t)), false);
    var indexing, loading := C.Reconciler(C.Indexing(Summary(t)), t), C.Reconciler(C.CleanLoading, t);
    var k' := k.(removed := whole);
    c := if whole then C.Reconciler(C.Exited, t) else removing;
    replies := [];
    if whole {
      OneMore(removing, k, now, alive, AckR, [], c, k.(removed := true));
      replies := [AckR] + [];
    }
    OneMore(indexing, Untouched(t), now, alive, OkR(true), replies, c, k');
    replies := [OkR(true)] + replies;
    OneMore(loading, Untouched(t), now, alive, LoadR(Loaded(t)), replies, c, k');
    replies := [LoadR(Loaded(t))] + replies;
    OneMore(C.Reconciler(C.BootingOut, t), Untouched(t), now, alive, OkR(true), replies, c, k');
    replies := [OkR(true)] + replies;
  }

  /** The decision on a record that is not cleaned. */
  lemma DecisionAttains(c: C.Reconciler, t: Task, now: Time, alive: bool, seen: bool)
    returns (replies: seq<Reply>, c': C.Reconciler)
    requires c == C.Decide(C.Reconciler(c.pc, t), now, seen)
    ensures var left := C.Reconciled(t, now, seen);
            var task := if left.Some? then Written(left.value, now) else t;
            c'.pc.Exited? && Ends(c, Untouched(t), now, alive, replies, c', Untouched(task))
  {
    replies, c' := [], C.Reconciler(C.Exited, t);
    if c.pc.Saving? {
      OneMore(c, Untouched(t), now, alive, SavedR(now), [], c', Untouched(Written(c.pc.task, now)));
      replies := [SavedR(now)] + [];
    }
  }

  /** From its clock reading on, some complete run brings about the single step. */
  lemma PassAttains(t: Task, now: Time, alive: bool, gone: bool) returns (replies: seq<Reply>, c: C.Reconciler, k: Kept)
    requires alive ==> t.workerPid != 0
    ensures c.pc.Exited? && Ends(C.Reconciler(C.ReadingClock, t), Untouched(t), now, alive, replies, c, k)
    ensures k == match C.Pass(t, now, alive, gone)
                 case Some(left) => Untouched(left)
                 case None => Kept(t, Some(Summary(t)), true)
  {
    var reading := C.Reconciler(C.ReadingClock, t);
    var next := C.Next(reading, ClockR(false, now));
    if C.Cleanable(t) {
      if gone {
        k := Kept(t, Some(Summary(t)), true);
        replies, c := CleanupAttains(t, now, alive, true);
      } else {
        k, c := Untouched(t), C.Reconciler(C.Exited, t);
        OneMore(next, k, now, alive, OkR(false), [], c, k);
        replies := [OkR(false)] + [];
      }
    } else {
      k := Untouched(C.Pass(t, now, alive, gone).value);
      if next.pc.Probing? {
        var decided := C.Next(next, OkR(alive));
        replies, c := DecisionAttains(decided, t, now, alive, alive);
        OneMore(next, Untouched(t), now, alive, OkR(alive), replies, c, k);
        replies := [OkR(alive)] + replies;
      } else {
        replies, c := DecisionAttains(next, t, now, alive, false);
      }
    }
    OneMore(reading, Untouched(t), now, alive, ClockR(false, now), replies, c, k);
    replies := [ClockR(false, now)] + replies;
  }

  /** Conversely, some run to the end leaves exactly what the single step leaves. */
  lemma ReconcileAttains(sl: P.Slot, now: Time, alive: bool, gone: bool)
    returns (replies: seq<Reply>, c: C.Reconciler, k: Kept)
    requires alive ==> sl.task.workerPid != 0
    ensures c.pc.Exited? && Ends(C.STARTED, Untouched(sl.task), now, alive, replies, c, k)
    ensures AsSlot(sl, k) == P.ReconciledSlot(sl, now, alive, gone)
  {
    replies, c, k := PassAttains(sl.task, now, alive, gone);
    OneMore(C.STARTED, Untouched(sl.task), now, alive, LoadR(Loaded(sl.task)), replies, c, k);
    replies := [LoadR(Loaded(sl.task))] + replies;
  }

  /** And every cleanup can be cut off with the summary filed and the record still there. */
  lemma CutOffAttains(sl: P.Slot, now: Time, alive: bool) returns (replies: seq<Reply>, c: C.Reconciler)
    requires C.Cleanable(sl.task)
    ensures Ends(C.STARTED, Untouched(sl.task), now, alive, replies, c, Kept(sl.task, Some(Summary(sl.task)), false))
  {
    var k := Kept(sl.task, Some(Summary(sl.task)), false);
    replies, c := CleanupAttains(sl.task, now, alive, false);
    OneMore(C.Reconciler(C.ReadingClock, sl.task), Untouched(sl.task), now, alive, ClockR(false, now), replies, c, k);
    replies := [ClockR(false, now)] + replies;
    OneMore(C.STARTED, Untouched(sl.task), now, alive, LoadR(Loaded(sl.task)), replies, c, k);
    replies := [LoadR(Loaded(sl.task))] + replies;
  }
}
