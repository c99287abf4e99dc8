/** The manager: lazy reconciliation, preparing a task, and accepting its confirmation. */
module ManagerProcess {
  import opened UpgradeTask
  import opened TaskStore
  import opened StoreProcess
  import SeqFacts
  import TaskIndex
  import L = InstallLock
  import C = ReconcileAutomaton
  import S = SubmitAutomaton
  import Effects

  datatype Error = TargetChanged | Conflict | LockFailed | Unavailable | InvalidCredential | LoadFailed
                 | ConfirmationExpired | NotAllowed

  datatype Candidate = Candidate(body: Bytes, stable: string, raw: string)
  datatype Preparation = Prepared(id: TaskId, credential: string) | Refused(error: Error)
  datatype Submission = Accepted(task: Task) | Rejected(error: Error)

  /** What one pass, begun at now and over by end, may leave of a live record it decides on: answers is
      whether its heartbeat names the recorded PID and that process answers a signal, gone whether its
      job is booted out and its summary can be kept. */
  ghost predicate Swept(r: Record, now: Time, end: Time, answers: bool, gone: bool, after: Option<Record>) {
    match r
    case Corrupt => after == Some(r)
    case Parsed(t) =>
      match C.Reconciled(t, now, answers && t.workerPid != 0)
      case Some(u) =>
        && after.Some? && after.value.Parsed?
        && now <= after.value.task.updatedAt <= end
        && after.value.task == Effects.Written(u, after.value.task.updatedAt)
      case None => after == if C.Cleanable(t) && gone then None else Some(r)
  }

  function Lookup(live: map<TaskId, Record>, id: TaskId): Option<Record> {
    if id in live then Some(live[id]) else None
  }

  /** What the world answers during a pass: whose heartbeat is confirmed, and whose job is booted out. */
  datatype World = World(answering: set<TaskId>, bootsOut: set<TaskId>)

  /** One pass: when it read the clock and was over, and the summaries it filed, in order. */
  datatype Pass = Pass(now: Time, end: Time, filed: seq<View>)

  /** A listing and the clock reading inside it. */
  datatype Listing = Listing(tasks: seq<Task>, at: Time)

  /** What a pass does to one live record: decide on it, or leave it where a summary hides it. */
  ghost predicate SweptOne(d: Disk, world: World, p: Pass, id: TaskId, after: Option<Record>)
    requires id in d.live
  {
    || Swept(d.live[id], p.now, p.end, id in world.answering, id in world.bootsOut && d.index.Some?, after)
    || (Shadowed(d, id) && after == Some(d.live[id]))
  }

  /** One pass over every live record; evidence and cleanup differ record by record. */
  ghost predicate SweptAll(d: Disk, world: World, p: Pass, live': map<TaskId, Record>) {
    && live'.Keys <= d.live.Keys
    && forall id | id in d.live :: SweptOne(d, world, p, id, Lookup(live', id))
  }

  /** The index after filing these summaries one by one; an unreadable index takes none. */
  ghost predicate Filed(index: Option<seq<View>>, views: seq<View>, index': Option<seq<View>>) {
    match index
    case Some(records) => index'.Some? && TaskIndex.Appended(records, views, index'.value)
    case None => index'.None? && views == []
  }

  /** The summaries are those of exactly the records that are no longer live, each once. */
  ghost predicate OfRemoved(live: map<TaskId, Record>, views: seq<View>, live': map<TaskId, Record>) {
    && TaskIndex.UniqueViews(views)
    && (forall v | v in views ::
          v.id in live && v.id !in live' && live[v.id].Parsed? && v == ViewOf(live[v.id].task))
    && (forall id | id in live && id !in live' :: exists v :: v in views && v.id == id)
  }

  /** All that a pass does, to records, summaries and kept bytes together. */
  ghost predicate PassLeaves(d: Disk, world: World, p: Pass, d': Disk) {
    && SweptAll(d, world, p, d'.live) && OfRemoved(d.live, p.filed, d'.live) && Filed(d.index, p.filed, d'.index)
    && d'.snapshots == d.snapshots - (d.live.Keys - d'.live.Keys)
  }

  /** A cleaned record's summary is retained, or twenty at least as recent ones are. */
  ghost predicate Retained(r: Record, index: Option<seq<View>>) {
    && r.Parsed? && index.Some?
    && (|| ViewOf(r.task) in index.value
        || (|index.value| == MAX_TERMINAL_RECORDS &&
            forall u | u in index.value :: u.updatedAt >= ViewOf(r.task).updatedAt))
  }

  predicate IsShown(live: map<TaskId, Record>, at: Time, t: Task) {
    t.id in live && t == Shown(t.id, live[t.id], at)
  }

  /** A listed task: a live record, or a retained summary, which no pass touches. */
  predicate Listed(live: map<TaskId, Record>, at: Time, t: Task) {
    IsShown(live, at, t) || (t.cleaned && Terminal(t.state))
  }

  ghost predicate FromIndex(index: Option<seq<View>>, t: Task) {
    index.Some? && exists v :: v in index.value && v.id == t.id && FromView(v) == t
  }

  /** The listing has every id the store knows, each as its live record, or as its summary where
      there is no record or the summary hides it. */
  ghost predicate ShowsAll(d: Disk, listing: Listing) {
    && (forall t | t in listing.tasks ::
          IsShown(d.live, listing.at, t) || (FromIndex(d.index, t) && (t.id !in d.live || Shadowed(d, t.id))))
    && (forall id | id in d.live :: HasId(listing.tasks, id))
    && (d.index.Some? ==> forall v | v in d.index.value :: HasId(listing.tasks, v.id))
  }

  /** Nothing keeps a new task out: every live record parses and is finished or expired, and no
      retained summary is unresolved. */
  ghost predicate Unblocked(d: Disk, now: Time) {
    && (forall id | id in d.live :: d.live[id].Parsed? && !Blocks(d.live[id].task, now))
    && (d.index.Some? ==> forall v | v in d.index.value && v.id !in d.live :: !v.state.NeedsAttention?)
  }

  lemma ListingShowsAll(d: Disk, listing: Listing)
    requires SoundDisk(d)
    requires Lists(AllCopies(d.live, if d.index.Some? then d.index.value else [], listing.at), listing.tasks)
    ensures ShowsAll(d, listing)
  {
    var views := if d.index.Some? then d.index.value else [];
    var copies := AllCopies(d.live, views, listing.at);
    forall id | id in d.live ensures Shown(id, d.live[id], listing.at) in copies && HasId(listing.tasks, id) {
      assert Shown(id, d.live[id], listing.at).id == id;
    }
    forall v | v in views ensures HasId(listing.tasks, v.id) {
      assert FromView(v) in copies;
    }
    forall t | t in listing.tasks && !IsShown(d.live, listing.at, t)
      ensures FromIndex(d.index, t) && (t.id !in d.live || Shadowed(d, t.id))
    {
      assert MayShow(copies, t);
      var v :| v in views && FromView(v) == t;
      assert t.id in d.live ==> Shown(t.id, d.live[t.id], listing.at).createdAt <= t.createdAt;
    }
  }

  /** Over a whole listing in which no summary hides a record, the gate asks exactly whether anything
      unfinished or unresolved is left, and a record that does not parse is asked for attention. */
  lemma GateIff(d: Disk, listing: Listing, now: Time)
    requires ShowsAll(d, listing) && NoShadows(d) && SoundDisk(d)
    ensures (forall t | t in listing.tasks :: !Blocks(t, now)) <==> Unblocked(d, now)
    ensures forall id | id in d.live && d.live[id].Corrupt? ::
              exists t :: t in listing.tasks && t.id == id && t.state.NeedsAttention?
  {
    forall id | id in d.live ensures Shown(id, d.live[id], listing.at) in listing.tasks {
      var i :| 0 <= i < |listing.tasks| && listing.tasks[i].id == id;
      assert listing.tasks[i] in listing.tasks && !Shadowed(d, id);
    }
    forall v | d.index.Some? && v in d.index.value && v.id !in d.live ensures FromView(v) in listing.tasks {
      SummaryListed(d, listing, v);
    }
    if Unblocked(d, now) {
      forall t | t in listing.tasks ensures !Blocks(t, now) {
        assert t.id in d.live ==> !Shadowed(d, t.id);
      }
    }
  }

  /** A record that does not parse is silent where a summary of its task is retained: the listing settles
      on the summary, and nothing blocks though something is left. */
  lemma HiddenCorrupt(d: Disk, listing: Listing, id: TaskId, v: View, now: Time)
    requires SoundDisk(d) && Lists(AllCopies(d.live, [v], listing.at), listing.tasks)
    requires d.live == map[id := Corrupt] && d.index == Some([v]) && v.id == id
    requires v.createdAt > 0 && !v.state.NeedsAttention?
    ensures (forall t | t in listing.tasks :: !Blocks(t, now)) && !Unblocked(d, now)
  {
    var copies := AllCopies(d.live, [v], listing.at);
    assert v in [v] && FromView(v) in copies && id in d.live;
    forall t | t in listing.tasks ensures !Blocks(t, now) {
      assert MayShow(copies, t);
      assert FromView(v).createdAt > Shown(id, Corrupt, listing.at).createdAt;
    }
  }

  lemma SummaryListed(d: Disk, listing: Listing, v: View)
    requires ShowsAll(d, listing) && SoundDisk(d) && d.index.Some? && v in d.index.value && v.id !in d.live
    ensures FromView(v) in listing.tasks
  {
    var i :| 0 <= i < |listing.tasks| && listing.tasks[i].id == v.id;
    assert listing.tasks[i] in listing.tasks;
    var u :| u in d.index.value && u.id == v.id && FromView(u) == listing.tasks[i];
    TaskIndex.ElementsUnique(d.index.value);
    assert u in TaskIndex.Elements(d.index.value) && v in TaskIndex.Elements(d.index.value);
  }

  /** What the gate stands on: a pass over the store, then a whole listing of what it left. Where no
      summary hides a record, the gate asks exactly whether anything unfinished or unresolved is left. */
  ghost predicate GatedBy(from: Time, d: Disk, world: World, p: Pass, d': Disk, listing: Listing, checked: Time) {
    && from <= p.now <= p.end <= listing.at <= checked
    && PassLeaves(d, world, p, d') && UniqueIds(listing.tasks) && ShowsAll(d', listing)
    && (NoShadows(d') ==> ((forall t | t in listing.tasks :: !Blocks(t, checked)) <==> Unblocked(d', checked)))
  }

  /** The answer to a prepare that got the lock. */
  ghost predicate Proposed(listing: Listing, checked: Time, target: string, fetched: Option<Candidate>,
                           p: Preparation, id: TaskId, secret: string)
  {
    p == if exists t :: t in listing.tasks && Blocks(t, checked) then Refused(Conflict)
         else if fetched.None? then Refused(Unavailable)
         else if fetched.value.stable != target then Refused(TargetChanged)
         else Prepared(id, secret)
  }

  /** What a prepare leaves of the reconciled store: one fresh record and its bytes more, or nothing. */
  ghost predicate Prepares(d: Disk, p: Preparation, initiator: string, fetched: Option<Candidate>, secret: string,
                         port: int, from: Time, to: Time, d': Disk)
  {
    match p
    case Refused(_) => d' == d
    case Prepared(id, _) =>
      && fetched.Some? && d'.index == d.index
      && d'.live.Keys == d.live.Keys + {id} && d'.live - {id} == d.live
      && d'.live[id].Parsed? && IsFresh(d'.live[id].task, id, initiator, fetched.value, secret, port, from, to)
      && d'.snapshots == if fetched.value.body != [] then d.snapshots[id := fetched.value.body] else d.snapshots
  }

  /** The record of a task created between two times from this candidate and secret: it awaits its
      confirmation, carries the digests of the fetched bytes and of the secret, and nothing of it has
      been accepted, launched, finished or cleaned. */
  predicate IsFresh(t: Task, id: TaskId, initiator: string, c: Candidate, secret: string, port: int, from: Time,
                    to: Time)
  {
    && from <= t.createdAt <= t.updatedAt <= to && t.expiry == t.createdAt + 300 * SECOND
    && t.id == id && t.state.Awaiting? && t.initiator == initiator && t.port == port
    && t.targetVersion == c.stable && t.targetKeg == c.raw && t.formula == Sha256(c.body)
    && t.credential == Sha256(secret) && t.accepted.Blank?
    && t.phase.NoPhase? && t.failureStage.NoStage? && t.errorKind.NoError?
    && t.workerPid == 0 && t.servicePid == 0 && t.launchAttempt == 0 && !t.launchUnknown
    && !t.cleanupPending && !t.cleaned && t.succeededAt.None?
  }

  class Manager {
    const store: Store
    const lock: L.LockFile
    const port: int

    constructor (store: Store, lock: L.LockFile, port: int)
      ensures this.store == store && this.lock == lock && this.port == port
    {
      this.store, this.lock, this.port := store, lock, port;
    }

    ghost predicate Valid()
      reads store
    {
      store.Valid()
    }

    /** Evidence, not proof: a heartbeat for the recorded PID that answers a signal. */
    method WorkerAlive(task: Task, world: World) returns (alive: bool)
      ensures alive <==> task.workerPid != 0 && task.id in world.answering
    {
      alive := task.workerPid != 0 && task.id in world.answering;
    }

    /** Reads the clock and lists. */
    method ListTasks() returns (tasks: seq<Task>, ghost listing: Listing)
      requires Valid()
      modifies store`clock
      ensures Valid() && store.clock >= old(store.clock)
      ensures listing == Listing(tasks, store.clock)
      ensures Sorted(tasks) && UniqueIds(tasks) && ShowsAll(store.OnDisk(), listing)
    {
      tasks := store.List();
      listing := Listing(tasks, store.clock);
      ListingShowsAll(store.OnDisk(), listing);
    }

    /** Boots the job out and, once it is verifiably gone, moves the record to the summaries. */
    method CleanOne(task: Task, world: World) returns (ghost filed: seq<View>)
      requires Valid() && C.Cleanable(task) && Some(Parsed(task)) == Lookup(store.live, task.id)
      modifies store
      ensures Valid() && store.clock == old(store.clock)
      ensures var moved := task.id in world.bootsOut && old(store.index).Some?;
              && filed == (if moved then [ViewOf(task)] else [])
              && store.live == (if moved then old(store.live) - {task.id} else old(store.live))
              && store.snapshots == (if moved then old(store.snapshots) - {task.id} else old(store.snapshots))
              && Filed(old(store.index), filed, store.index)
              && (moved ==> Retained(Parsed(task), store.index))
    {
      filed := [];
      if task.id in world.bootsOut {
        var cleaned := store.Cleanup(task.id);
        if cleaned {
          filed := [ViewOf(task)];
          FiledOne(old(store.index).value, task, store.index.value);
        }
      }
    }

    /** Saves a changed record over the one it was made from. */
    method SaveOver(task: Task, changed: Task) returns (saved: Task)
      requires Valid() && changed.id == task.id && changed.createdAt == task.createdAt
      requires Lookup(store.live, task.id) == Some(Parsed(task))
      modifies store`clock, store`live
      ensures Valid() && store.clock >= old(store.clock) && saved == Effects.Written(changed, store.clock)
      ensures store.live == old(store.live)[task.id := Parsed(saved)]
    {
      var ok;
      ok, saved := store.Save(changed);
    }

    /** One task of a pass that began at now. Only its own record may change, as the evidence says. */
    method ReconcileOne(task: Task, world: World, now: Time, ghost at: Time) returns (ghost filed: seq<View>)
      requires Valid() && now <= store.clock && Listed(store.live, at, task)
      modifies store
      ensures Valid() && store.clock >= old(store.clock)
      ensures OneLeaves(old(store.OnDisk()), task, at, world, Pass(now, store.clock, filed), store.OnDisk())
    {
      filed := [];
      var alive := false;
      if task.state.Queued? || Inflight(task.state) {
        alive := WorkerAlive(task, world);
      }
      var decided := C.Reconciled(task, now, alive);
      if decided.Some? {
        var saved := SaveOver(task, decided.value);
        OneSaves(old(store.OnDisk()), task, at, world, saved, now, store.clock, store.OnDisk());
      } else if C.Cleanable(task) {
        filed := CleanOne(task, world);
        OneCleans(old(store.OnDisk()), task, at, world, now, store.clock, filed, store.OnDisk());
      } else {
        OneKeeps(old(store.OnDisk()), task, at, world, now, store.clock);
      }
    }

    /** One pass: every record is decided from the listing, in creation order, at one clock reading. */
    method Reconcile(world: World) returns (ghost pass: Pass)
      requires Valid()
      modifies store
      ensures Valid() && old(store.clock) <= pass.now <= pass.end == store.clock
      ensures PassLeaves(old(store.OnDisk()), world, pass, store.OnDisk())
    {
      var tasks;
      ghost var listing;
      tasks, listing := ListTasks();
      var started := store.Now();
      pass := Pass(started, store.clock, []);
      for k := 0 to |tasks|
        invariant Valid() && old(store.clock) <= started == pass.now <= pass.end == store.clock
        invariant Underway(listing, k, old(store.OnDisk()), world, pass, store.OnDisk())
      {
        ghost var before, d := pass, store.OnDisk();
        UnderwayNext(listing, k, old(store.OnDisk()), world, before, d);
        ghost var filed := ReconcileOne(tasks[k], world, started, listing.at);
        pass := Pass(started, store.clock, before.filed + filed);
        UnderwayStep(listing, k, old(store.OnDisk()), world, before, d, filed, pass, store.OnDisk());
      }
      Finished(listing, old(store.OnDisk()), world, pass, store.OnDisk());
    }

    /** Reconciles, then lists. */
    method ReconciledTasks(world: World) returns (tasks: seq<Task>, ghost pass: Pass, ghost listing: Listing)
      requires Valid()
      modifies store
      ensures Valid() && old(store.clock) <= pass.now <= pass.end <= listing.at == store.clock
      ensures PassLeaves(old(store.OnDisk()), world, pass, store.OnDisk())
      ensures listing.tasks == tasks && Sorted(tasks) && UniqueIds(tasks) && ShowsAll(store.OnDisk(), listing)
    {
      pass := Reconcile(world);
      tasks, listing := ListTasks();
    }

    /** Whether a new upgrade may be prepared, after reconciliation; an unresolved record answers
        before a pending one. */
    method Capability(world: World)
      returns (active: Option<Task>, ghost pass: Pass, ghost listing: Listing, ghost checked: Time)
      requires Valid()
      modifies store
      ensures Valid() && checked == store.clock
      ensures GatedBy(old(store.clock), old(store.OnDisk()), world, pass, store.OnDisk(), listing, checked)
      ensures active.Some? <==> exists t :: t in listing.tasks && Blocks(t, checked)
      ensures active.Some? ==> active.value in listing.tasks && Blocks(active.value, checked)
      ensures active.Some? && (exists t :: t in listing.tasks && t.state.NeedsAttention?) ==>
                active.value.state.NeedsAttention?
    {
      var tasks;
      tasks, pass, listing := ReconciledTasks(world);
      var asked := store.Now();
      checked := asked;
      active := ActiveTask(tasks, asked);
      if NoShadows(store.OnDisk()) {
        GateIff(store.OnDisk(), listing, checked);
      }
    }

    /** Writes the fresh record, with only the digest of its secret, beside the confirmed bytes. */
    method CreateTask(id: TaskId, initiator: string, c: Candidate, secret: string)
      requires Valid() && SafeId(id) && id != "." && id != ".." && id !in store.live
      modifies store
      ensures Valid() && store.index == old(store.index)
      ensures store.live.Keys == old(store.live).Keys + {id} && store.live - {id} == old(store.live)
      ensures store.live[id].Parsed?
      ensures IsFresh(store.live[id].task, id, initiator, c, secret, port, old(store.clock), store.clock)
      ensures store.snapshots == if c.body != [] then old(store.snapshots)[id := c.body] else old(store.snapshots)
    {
      var now := store.Now();
      var saved := store.Create(FreshTask(id, initiator, c.stable, c.raw, c.body, secret, port, now), c.body);
      assert store.live - {id} == old(store.live);
    }

    /** Creates the one task awaiting confirmation. The candidate and the fresh id and secret are
        inputs; swept is the store after reconciliation, checked the time of the gate. */
    method Prepare(target: string, initiator: string, opens: bool, world: World, fetched: Option<Candidate>, id: TaskId,
                   secret: string)
      returns (p: Preparation, ghost pass: Pass, ghost swept: Disk, ghost listing: Listing, ghost checked: Time)
      requires Valid() && SafeId(id) && id != "." && id != ".." && id !in store.live
      modifies store, lock
      ensures Valid() && lock.holder == old(lock.holder)
      ensures var free := target != "" && opens && old(lock.holder) == null;
              if free
              then && GatedBy(old(store.clock), old(store.OnDisk()), world, pass, swept, listing, checked)
                   && Proposed(listing, checked, target, fetched, p, id, secret)
                   && Prepares(swept, p, initiator, fetched, secret, port, checked, store.clock, store.OnDisk())
              else && store.OnDisk() == old(store.OnDisk())
                   && p == Refused(if target == "" then TargetChanged else if opens then Conflict else LockFailed)
      ensures var free := opens && old(lock.holder) == null;
              var blocked := exists t :: t in listing.tasks && Blocks(t, checked);
              && (p.Prepared? <==> target != "" && free && !blocked && fetched.Some? && fetched.value.stable == target)
              && (p.Prepared? ==> p == Prepared(id, secret))
              && (p == Refused(LockFailed) <==> target != "" && !opens)
              && (p == Refused(Conflict) <==> target != "" && opens && (old(lock.holder) != null || blocked))
              && (p == Refused(Unavailable) <==> target != "" && free && !blocked && fetched.None?)
              && (p == Refused(TargetChanged) <==>
                    target == "" || (free && !blocked && fetched.Some? && fetched.value.stable != target))
    {
      swept, checked := store.OnDisk(), store.clock;
      pass, listing := Pass(store.clock, store.clock, []), Listing([], store.clock);
      if target == "" {
        return Refused(TargetChanged), pass, swept, listing, checked;
      }
      var outcome := L.TryLock(lock, opens);
      if !outcome.Locked? {
        return Refused(if outcome.Busy? then Conflict else LockFailed), pass, swept, listing, checked;
      }
      p, pass, swept, listing, checked := Propose(target, initiator, world, fetched, id, secret);
      L.Release(outcome.handle);
    }

    /** Prepares a task under the lock. */
    method Propose(target: string, initiator: string, world: World, fetched: Option<Candidate>, id: TaskId,
                   secret: string)
      returns (p: Preparation, ghost pass: Pass, ghost swept: Disk, ghost listing: Listing, ghost checked: Time)
      requires Valid() && SafeId(id) && id != "." && id != ".." && id !in store.live
      modifies store
      ensures Valid()
      ensures GatedBy(old(store.clock), old(store.OnDisk()), world, pass, swept, listing, checked)
      ensures Proposed(listing, checked, target, fetched, p, id, secret)
      ensures Prepares(swept, p, initiator, fetched, secret, port, checked, store.clock, store.OnDisk())
    {
      var active;
      active, pass, listing, checked := Capability(world);
      swept := store.OnDisk();
      if active.Some? {
        return Refused(Conflict), pass, swept, listing, checked;
      }
      if fetched.None? {
        return Refused(Unavailable), pass, swept, listing, checked;
      }
      if fetched.value.stable != target {
        return Refused(TargetChanged), pass, swept, listing, checked;
      }
      CreateTask(id, initiator, fetched.value, secret);
      p := Prepared(id, secret);
    }

    /** Confirms a task and launches it. now is when it was accepted, launch how the launch went. */
    method Submit(id: TaskId, req: S.Request, opens: bool, files: bool, boot: Effects.CmdReply)
      returns (r: Submission, ghost now: Time)
      requires Valid()
      modifies store`clock, store`live, lock
      ensures Valid() && lock.holder == old(lock.holder)
      ensures old(store.clock) <= now <= store.clock
      ensures var free := opens && old(lock.holder) == null;
              if req.confirm && free
              then && (r, store.live) == Judged(old(store.live), id, req, now, LaunchOf(files, boot), store.clock)
                   && Owed(old(store.live), id, req, now, files && boot.Done?, r, store.live)
              else && store.live == old(store.live)
                   && r == Rejected(if !req.confirm then InvalidCredential else if opens then Conflict else LockFailed)
      ensures req.confirm && opens && old(lock.holder) == null && id in old(store.live) &&
                old(store.live)[id].Parsed? && Consumes(old(store.live)[id].task, req, now) ==>
                Leaves(old(store.live)[id].task, req, files, boot, store.clock, store.live[id])
    {
      now := store.clock;
      if !req.confirm {
        return Rejected(InvalidCredential), now;
      }
      var outcome := L.TryLock(lock, opens);
      if !outcome.Locked? {
        return Rejected(if outcome.Busy? then Conflict else LockFailed), now;
      }
      var loaded := store.Load(id);
      match loaded {
        case Invalid => r := Rejected(LoadFailed);
        case Unreadable => r := Rejected(LoadFailed);
        case NotFound => r := Rejected(InvalidCredential);
        case Found(task) => r, now := Consume(task, req, files, boot);
      }
      L.Release(outcome.handle);
      JudgedOwes(old(store.live), id, req, now, files, boot, store.clock);
    }

    /** The confirmation of a loaded record. */
    method Consume(task: Task, req: S.Request, files: bool, boot: Effects.CmdReply)
      returns (r: Submission, ghost now: Time)
      requires Valid() && Lookup(store.live, task.id) == Some(Parsed(task))
      modifies store`clock, store`live
      ensures Valid()
      ensures old(store.clock) <= now <= store.clock
      ensures (r, store.live) == Judged(old(store.live), task.id, req, now, LaunchOf(files, boot), store.clock)
    {
      now := store.clock;
      if task.initiator != req.initiator {
        return Rejected(InvalidCredential), now;
      }
      var digest := Sha256(req.credential);
      if task.state.Queued? {
        return if digest == task.accepted then Accepted(task) else Rejected(InvalidCredential), now;
      }
      if !task.state.Awaiting? {
        return Rejected(Conflict), now;
      }
      var asked := store.Now();
      now := asked;
      if asked > task.expiry {
        var saved := SaveOver(task, task.(state := Expired));
        return Rejected(ConfirmationExpired), now;
      }
      if digest != task.credential {
        return Rejected(InvalidCredential), now;
      }
      r := Launch(task, req.credential, files, boot);
    }

    /** Writes the executor and the job, counts the attempt, and asks launchd to start it; an error
        from launchd is an unknown outcome, recorded as such. files is whether the files could be
        written, boot what launchd answers. */
    method LaunchTask(queued: Task, files: bool, boot: Effects.CmdReply) returns (ok: bool, task: Task)
      requires Valid() && Lookup(store.live, queued.id) == Some(Parsed(queued))
      modifies store`clock, store`live
      ensures Valid()
      ensures store.clock >= old(store.clock)
      ensures ok <==> files && boot.Done?
      ensures store.live == old(store.live)[queued.id := Parsed(task)]
      ensures LaunchedFrom(queued, LaunchOf(files, boot), task) && (ok ==> task == Effects.Written(task, store.clock))
    {
      if !files {
        return false, queued;
      }
      var tried := queued.(launchAttempt := queued.launchAttempt + 1);
      if !boot.Done? {
        task := SaveOver(queued, tried.(launchUnknown := true));
        return false, task;
      }
      task := SaveOver(queued, tried);
      return true, task;
    }

    /** Accepted before any external action; a launch that did not provably start a job is unresolved. */
    method Launch(awaiting: Task, credential: string, files: bool, boot: Effects.CmdReply) returns (r: Submission)
      requires Valid() && Lookup(store.live, awaiting.id) == Some(Parsed(awaiting))
      modifies store`clock, store`live
      ensures Valid()
      ensures store.clock >= old(store.clock)
      ensures var launch := LaunchOf(files, boot);
              var left := S.Left(awaiting, credential, launch, store.clock, store.clock);
              && store.live == old(store.live)[awaiting.id := Parsed(left)]
              && r == if launch.Booted? then Accepted(left) else Rejected(NotAllowed)
    {
      var queued := SaveOver(awaiting, S.Accepted(awaiting, credential));
      ghost var at := store.clock;
      var ok, launched := LaunchTask(queued, files, boot);
      LaunchLeaves(awaiting, credential, LaunchOf(files, boot), at, launched, store.clock);
      assert store.live == old(store.live)[awaiting.id := Parsed(launched)];
      if ok {
        return Accepted(launched);
      }
      GiveUp(launched);
      LaunchLeaves(awaiting, credential, LaunchOf(files, boot), at, launched, store.clock);
      return Rejected(NotAllowed);
    }

    /** The task becomes an unresolved record. */
    method GiveUp(launched: Task)
      requires Valid() && Lookup(store.live, launched.id) == Some(Parsed(launched))
      modifies store`clock, store`live
      ensures Valid() && store.clock >= old(store.clock)
      ensures store.live ==
              old(store.live)[launched.id := Parsed(Effects.Written(S.Unlaunched(launched), store.clock))]
    {
      var task := SaveOver(launched, S.Unlaunched(launched));
    }
  }

  /** How a launch went. Whether launchd took the job after all is its own when it answers an error. */
  function LaunchOf(files: bool, boot: Effects.CmdReply): S.Launch {
    if !files then S.FilesFailed else if boot.Done? then S.Booted else S.BootUnknown(false)
  }

  // ----- what a confirmation is owed, field by field

  /** The right user with the issued secret, inside the window. */
  predicate Consumes(t: Task, req: S.Request, now: Time) {
    && t.state.Awaiting? && t.initiator == req.initiator && t.credential == Sha256(req.credential) && now <= t.expiry
  }

  /** The answer to a confirmation that got the lock, and which records it may change; booted is whether
      the job was provably started. */
  ghost predicate Owed(live: map<TaskId, Record>, id: TaskId, req: S.Request, now: Time, booted: bool,
                       r: Submission, live': map<TaskId, Record>)
  {
    if id == "" || '/' in id then r == Rejected(LoadFailed) && live' == live
    else if id !in live then r == Rejected(InvalidCredential) && live' == live
    else if live[id].Corrupt? then r == Rejected(LoadFailed) && live' == live
    else OwedRecord(live[id].task, req, now, booted, r) && live' - {id} == live - {id} && id in live' &&
         (r.Accepted? ==> live'[id] == Parsed(r.task)) &&
         (var t := live[id].task;
          && (t.state.Awaiting? && t.initiator == req.initiator && now > t.expiry ==>
                live'[id].Parsed? && live'[id].task == t.(state := Expired, updatedAt := live'[id].task.updatedAt))
          && (!(t.state.Awaiting? && t.initiator == req.initiator && (now > t.expiry || Consumes(t, req, now))) ==>
                live' == live))
  }

  ghost predicate OwedRecord(t: Task, req: S.Request, now: Time, booted: bool, r: Submission) {
    var (mine, secret) := (t.initiator == req.initiator, Sha256(req.credential));
    match t.state
    case Awaiting =>
      && (r.Accepted? || r == Rejected(NotAllowed) <==> mine && secret == t.credential && now <= t.expiry)
      && (r.Accepted? ==> booted) && (r == Rejected(NotAllowed) ==> !booted)
      && (r == Rejected(ConfirmationExpired) <==> mine && now > t.expiry)
      && (r == Rejected(InvalidCredential) <==> !mine || (now <= t.expiry && secret != t.credential))
    case Queued =>
      && (r == Accepted(t) <==> mine && secret == t.accepted)
      && (r == Rejected(InvalidCredential) <==> !mine || secret != t.accepted)
    case _ => r == Rejected(if mine then Conflict else InvalidCredential)
  }

  /** The record of a consumed confirmation: the secret has moved, the attempt is counted if it was
      made, and unless the job was provably started the task needs attention. */
  ghost predicate Leaves(t: Task, req: S.Request, files: bool, boot: Effects.CmdReply, end: Time, after: Record) {
    && after.Parsed?
    && var (u, booted) := (after.task, files && boot.Done?);
       && u.accepted == Sha256(req.credential) && u.credential.Blank? && u.updatedAt == end
       && u.launchAttempt == t.launchAttempt + (if files then 1 else 0)
       && u.launchUnknown == (t.launchUnknown || (files && !boot.Done?))
       && (if booted then u.state.Queued? && u.phase.Launching? && u.errorKind == t.errorKind
           else u.state.NeedsAttention? && u.phase.Launch? && u.errorKind.LaunchFailed?)
       && u == t.(accepted := u.accepted, credential := u.credential, updatedAt := end, state := u.state,
                  launchAttempt := u.launchAttempt, launchUnknown := u.launchUnknown, phase := u.phase,
                  errorKind := u.errorKind)
  }

  lemma JudgedOwes(live: map<TaskId, Record>, id: TaskId, req: S.Request, now: Time, files: bool,
                   boot: Effects.CmdReply, end: Time)
    requires forall other | other in live :: SafeId(other)
    ensures var (r, live') := Judged(live, id, req, now, LaunchOf(files, boot), end);
            && Owed(live, id, req, now, files && boot.Done?, r, live')
            && (id in live && live[id].Parsed? && Consumes(live[id].task, req, now) ==>
                  id in live' && Leaves(live[id].task, req, files, boot, end, live'[id]))
  {
    var live' := Judged(live, id, req, now, LaunchOf(files, boot), end).1;
    assert live' - {id} == live - {id};
  }

  lemma LaunchLeaves(awaiting: Task, credential: string, launch: S.Launch, at: Time, launched: Task, end: Time)
    requires launch.FilesFailed? || launch.Booted? || launch.BootUnknown?
    requires LaunchedFrom(Effects.Written(S.Accepted(awaiting, credential), at), launch, launched)
    ensures S.Left(awaiting, credential, launch, end, end) ==
            Effects.Written(if launch.Booted? then launched else S.Unlaunched(launched), end)
  {
  }

  /** The queued record after a launch, before any verdict on it; its stamp may be newer. */
  predicate LaunchedFrom(queued: Task, launch: S.Launch, launched: Task) {
    launched == if launch.FilesFailed? then queued
                else queued.(launchAttempt := queued.launchAttempt + 1, updatedAt := launched.updatedAt,
                             launchUnknown := launch.BootUnknown? || queued.launchUnknown)
  }

  /** What a confirmation that got the lock answers, and the records it leaves: now is when it was
      judged, launch how far the launch got, end when it was over. */
  ghost function Judged(live: map<TaskId, Record>, id: TaskId, req: S.Request, now: Time, launch: S.Launch, end: Time)
    : (Submission, map<TaskId, Record>)
  {
    match Lookup(live, id)
    case None => (Rejected(if SafeId(id) then InvalidCredential else LoadFailed), live)
    case Some(Corrupt) => (Rejected(LoadFailed), live)
    case Some(Parsed(t)) =>
      if t.initiator != req.initiator then (Rejected(InvalidCredential), live)
      else if t.state.Queued? then
        (if t.accepted == Sha256(req.credential) then Accepted(t) else Rejected(InvalidCredential), live)
      else if !t.state.Awaiting? then (Rejected(Conflict), live)
      else if now > t.expiry then
        (Rejected(ConfirmationExpired), live[id := Parsed(Effects.Written(t.(state := Expired), end))])
      else if t.credential != Sha256(req.credential) then (Rejected(InvalidCredential), live)
      else
        var left := S.Left(t, req.credential, launch, end, end);
        (if launch.Booted? then Accepted(left) else Rejected(NotAllowed), live[id := Parsed(left)])
  }

  /** A confirmation is one-time: once some secret was accepted, no later request changes the record,
      whatever it carries, and only the same user with the same secret, while the task is still
      queued, is told it is accepted. */
  lemma AcceptedOnce(live: map<TaskId, Record>, id: TaskId, req: S.Request, now: Time, launch: S.Launch, end: Time,
                     again: S.Request, now': Time, launch': S.Launch, end': Time)
    requires id in live && live[id].Parsed? && live[id].task.state.Awaiting? && live[id].task.id == id
    requires launch.FilesFailed? || launch.Booted? || launch.BootUnknown?
    requires var r := Judged(live, id, req, now, launch, end).0; r.Accepted? || r == Rejected(NotAllowed)
    ensures live[id].task.credential == Sha256(req.credential) && now <= live[id].task.expiry
    ensures var after := Judged(live, id, req, now, launch, end).1;
            var (r, later) := Judged(after, id, again, now', launch', end');
            && later == after
            && (r.Accepted? <==>
                  launch.Booted? && again.initiator == req.initiator && again.credential == req.credential)
  {
  }

  // ----- one pass, task by task

  /** What one task of a pass does, the pass being this step alone. */
  ghost predicate OneLeaves(d: Disk, t: Task, at: Time, world: World, p: Pass, d': Disk) {
    && d'.live - {t.id} == d.live - {t.id}
    && (if IsShown(d.live, at, t)
        then Swept(d.live[t.id], p.now, p.end, t.id in world.answering, t.id in world.bootsOut && d.index.Some?,
                   Lookup(d'.live, t.id))
        else d'.live == d.live)
    && p.filed == (if t.id in d.live && t.id !in d'.live then [ViewOf(t)] else [])
    && Filed(d.index, p.filed, d'.index)
    && d'.snapshots == d.snapshots - (d.live.Keys - d'.live.Keys)
  }

  /** Only queued and inflight records are probed; the others are decided without. */
  function Alive(t: Task, world: World): bool {
    (t.state.Queued? || Inflight(t.state)) && t.workerPid != 0 && t.id in world.answering
  }

  lemma OneSaves(d: Disk, t: Task, at: Time, world: World, saved: Task, now: Time, end: Time, d': Disk)
    requires Listed(d.live, at, t) && Lookup(d.live, t.id) == Some(Parsed(t)) && now <= end
    requires C.Reconciled(t, now, Alive(t, world)).Some?
    requires saved == Effects.Written(C.Reconciled(t, now, Alive(t, world)).value, end)
    requires d' == d.(live := d.live[t.id := Parsed(saved)])
    ensures OneLeaves(d, t, at, world, Pass(now, end, []), d')
  {
    assert d'.live - {t.id} == d.live - {t.id};
  }

  lemma OneCleans(d: Disk, t: Task, at: Time, world: World, now: Time, end: Time, filed: seq<View>, d': Disk)
    requires Lookup(d.live, t.id) == Some(Parsed(t)) && C.Cleanable(t)
    requires var moved := t.id in world.bootsOut && d.index.Some?;
             && filed == (if moved then [ViewOf(t)] else [])
             && d'.live == (if moved then d.live - {t.id} else d.live)
             && d'.snapshots == (if moved then d.snapshots - {t.id} else d.snapshots)
             && Filed(d.index, filed, d'.index)
    ensures OneLeaves(d, t, at, world, Pass(now, end, filed), d')
  {
    assert d'.live - {t.id} == d.live - {t.id};
  }

  lemma OneKeeps(d: Disk, t: Task, at: Time, world: World, now: Time, end: Time)
    requires C.Reconciled(t, now, Alive(t, world)).None? && !C.Cleanable(t)
    ensures OneLeaves(d, t, at, world, Pass(now, end, []), d)
  {
  }

  /** A pass that has gone through the first k tasks of its listing. */
  ghost predicate Progress(listing: Listing, k: nat, d: Disk, world: World, p: Pass, live: map<TaskId, Record>) {
    var tasks := listing.tasks;
    && k <= |tasks| && live.Keys <= d.live.Keys
    && (forall j | 0 <= j < k && tasks[j].id in d.live ::
          if IsShown(d.live, listing.at, tasks[j])
          then Swept(d.live[tasks[j].id], p.now, p.end, tasks[j].id in world.answering,
                     tasks[j].id in world.bootsOut && d.index.Some?, Lookup(live, tasks[j].id))
          else Lookup(live, tasks[j].id) == Some(d.live[tasks[j].id]))
    && (forall j | k <= j < |tasks| :: Lookup(live, tasks[j].id) == Lookup(d.live, tasks[j].id))
  }

  ghost predicate Underway(listing: Listing, k: nat, d: Disk, world: World, p: Pass, now: Disk) {
    && UniqueIds(listing.tasks) && ShowsAll(d, listing) && SoundDisk(d)
    && Progress(listing, k, d, world, p, now.live)
    && OfRemoved(d.live, p.filed, now.live) && Filed(d.index, p.filed, now.index)
    && now.snapshots == d.snapshots - (d.live.Keys - now.live.Keys)
  }

  /** The next task is still as it was listed. */
  lemma UnderwayNext(listing: Listing, k: nat, d: Disk, world: World, p: Pass, now: Disk)
    requires k < |listing.tasks| && Underway(listing, k, d, world, p, now)
    ensures Lookup(now.live, listing.tasks[k].id) == Lookup(d.live, listing.tasks[k].id)
    ensures Listed(now.live, listing.at, listing.tasks[k])
  {
    assert listing.tasks[k] in listing.tasks;
  }

  lemma UnderwayStep(listing: Listing, k: nat, d: Disk, world: World, p: Pass, now: Disk, filed: seq<View>,
                     p': Pass, now': Disk)
    requires k < |listing.tasks| && Underway(listing, k, d, world, p, now)
    requires OneLeaves(now, listing.tasks[k], listing.at, world, Pass(p.now, p'.end, filed), now')
    requires p.end <= p'.end && p' == Pass(p.now, p'.end, p.filed + filed)
    ensures Underway(listing, k + 1, d, world, p', now')
  {
    UnderwayNext(listing, k, d, world, p, now);
    var t := listing.tasks[k];
    OneRemoves(now, t, listing.at, world, Pass(p.now, p'.end, filed), now');
    ProgressStep(listing, k, d, world, p, now, p', now'.live);
    RemovedStep(d.live, p.filed, now.live, t, filed, now'.live);
    FiledStep(d.index, p.filed, now.index, filed, now'.index);
    RestStep(d, now, now');
  }

  lemma RestStep(d: Disk, now: Disk, now': Disk)
    requires d.live.Keys >= now.live.Keys >= now'.live.Keys
    requires now.snapshots == d.snapshots - (d.live.Keys - now.live.Keys)
    requires now'.snapshots == now.snapshots - (now.live.Keys - now'.live.Keys)
    ensures now'.snapshots == d.snapshots - (d.live.Keys - now'.live.Keys)
  {
  }

  /** A step removes no record but the one it was given, and that only as it was listed. */
  lemma OneRemoves(d: Disk, t: Task, at: Time, world: World, p: Pass, d': Disk)
    requires OneLeaves(d, t, at, world, p, d')
    ensures d'.live.Keys <= d.live.Keys
    ensures t.id in d.live && t.id !in d'.live ==> d.live[t.id] == Parsed(t)
  {
    forall other | other in d'.live ensures other in d.live {
      if other != t.id {
        SameElsewhere(d.live, d'.live, t.id, other);
      }
    }
  }

  lemma ProgressStep(listing: Listing, k: nat, d: Disk, world: World, p: Pass, now: Disk, p': Pass,
                     live': map<TaskId, Record>)
    requires UniqueIds(listing.tasks) && Progress(listing, k, d, world, p, now.live) && now.index.Some? == d.index.Some?
    requires k < |listing.tasks| && p.end <= p'.end && p'.now == p.now
    requires var t := listing.tasks[k];
             && live' - {t.id} == now.live - {t.id} && live'.Keys <= now.live.Keys
             && if IsShown(now.live, listing.at, t)
                then Swept(now.live[t.id], p.now, p'.end, t.id in world.answering,
                           t.id in world.bootsOut && now.index.Some?, Lookup(live', t.id))
                else live' == now.live
    ensures Progress(listing, k + 1, d, world, p', live')
  {
    var tasks, id := listing.tasks, listing.tasks[k].id;
    forall j | 0 <= j < |tasks| && j != k
      ensures tasks[j].id != id && Lookup(live', tasks[j].id) == Lookup(now.live, tasks[j].id)
    {
      assert IdOf(tasks[j]) != IdOf(tasks[k]);
      SameElsewhere(now.live, live', id, tasks[j].id);
    }
    assert Lookup(now.live, id) == Lookup(d.live, id);
  }

  lemma RemovedStep(before: map<TaskId, Record>, views: seq<View>, live: map<TaskId, Record>, t: Task,
                    filed: seq<View>, live': map<TaskId, Record>)
    requires OfRemoved(before, views, live) && live'.Keys <= live.Keys
    requires live' - {t.id} == live - {t.id} && Lookup(live, t.id) == Lookup(before, t.id)
    requires filed == if t.id in live && t.id !in live' then [ViewOf(t)] else []
    requires filed != [] ==> live[t.id] == Parsed(t)
    ensures OfRemoved(before, views + filed, live')
  {
    var all := views + filed;
    assert forall v | v in all :: v in views || v == ViewOf(t);
    forall id | id in before && id !in live' ensures exists v :: v in all && v.id == id {
      if id !in live {
        var v :| v in views && v.id == id;
        assert v in all;
      } else {
        if id != t.id {
          SameElsewhere(live, live', t.id, id);
        }
        assert all[|views|].id == id;
      }
    }
  }

  lemma FiledOne(records: seq<View>, t: Task, records': seq<View>)
    requires TaskIndex.UniqueViews(records)
    requires TaskIndex.TopOf(records', TaskIndex.Replaced(TaskIndex.Elements(records), ViewOf(t)), MAX_TERMINAL_RECORDS)
    ensures Filed(Some(records), [ViewOf(t)], Some(records')) && Retained(Parsed(t), Some(records'))
  {
    TaskIndex.KeptOrDisplaced(records, ViewOf(t), records');
    TaskIndex.AppendOne(records, [], records, ViewOf(t), records');
    assert [] + [ViewOf(t)] == [ViewOf(t)];
  }

  lemma FiledStep(index: Option<seq<View>>, views: seq<View>, mid: Option<seq<View>>, filed: seq<View>,
                  index': Option<seq<View>>)
    requires Filed(index, views, mid) && Filed(mid, filed, index') && |filed| <= 1
    ensures Filed(index, views + filed, index')
  {
    if filed == [] {
      assert views + filed == views;
    } else if index.Some? {
      assert filed[..0] == [];
      var records :| TaskIndex.Appended(mid.value, [], records) &&
                     TaskIndex.TopOf(index'.value, TaskIndex.Replaced(TaskIndex.Elements(records), filed[0]),
                                     MAX_TERMINAL_RECORDS);
      TaskIndex.AppendOne(index.value, views, mid.value, filed[0], index'.value);
      assert filed == [filed[0]];
    }
  }

  lemma Finished(listing: Listing, d: Disk, world: World, p: Pass, now: Disk)
    requires Underway(listing, |listing.tasks|, d, world, p, now)
    ensures PassLeaves(d, world, p, now)
  {
    var tasks := listing.tasks;
    forall id | id in d.live ensures SweptOne(d, world, p, id, Lookup(now.live, id)) {
      var j :| 0 <= j < |tasks| && tasks[j].id == id;
      assert tasks[j] in tasks;
    }
  }

  lemma SameElsewhere(a: map<TaskId, Record>, b: map<TaskId, Record>, except: TaskId, id: TaskId)
    requires a - {except} == b - {except} && id != except
    ensures Lookup(a, id) == Lookup(b, id)
  {
    assert id in a <==> id in a - {except};
    assert id in b <==> id in b - {except};
    if id in a {
      assert (a - {except})[id] == (b - {except})[id];
    }
  }

  // ----- what passes keep, and a second pass

  /** Cleanup is asked for only when a task is over; a pass keeps that. */
  ghost predicate Settled(live: map<TaskId, Record>) {
    forall id | id in live && live[id].Parsed? :: live[id].task.cleanupPending ==> Terminal(live[id].task.state)
  }

  lemma PassKeepsSettled(d: Disk, world: World, p: Pass, d': Disk)
    requires SweptAll(d, world, p, d'.live) && Settled(d.live)
    ensures Settled(d'.live)
  {
    forall id | id in d'.live && d'.live[id].Parsed?
      ensures d'.live[id].task.cleanupPending ==> Terminal(d'.live[id].task.state)
    {
      assert SweptOne(d, world, p, id, Lookup(d'.live, id));
      if d.live[id].Parsed? {
        assert d.live[id].task.cleanupPending ==> Terminal(d.live[id].task.state);
      }
    }
  }

  /** So do a prepare and a confirmation. */
  lemma RequestsKeepSettled(d: Disk, p: Preparation, initiator: string, fetched: Option<Candidate>, secret: string,
                            port: int, from: Time, to: Time, d': Disk,
                            id: TaskId, req: S.Request, now: Time, launch: S.Launch, end: Time)
    requires Settled(d.live)
    ensures Prepares(d, p, initiator, fetched, secret, port, from, to, d') ==> Settled(d'.live)
    ensures Settled(Judged(d.live, id, req, now, launch, end).1)
  {
    if Prepares(d, p, initiator, fetched, secret, port, from, to, d') && p.Prepared? {
      forall other | other in d'.live && d'.live[other].Parsed?
        ensures d'.live[other].task.cleanupPending ==> Terminal(d'.live[other].task.state)
      {
        if other != p.id {
          SameElsewhere(d.live, d'.live, p.id, other);
          assert Lookup(d.live, other) == Lookup(d'.live, other);
        }
      }
    }
    if id in d.live && d.live[id].Parsed? {
      assert d.live[id].task.cleanupPending ==> Terminal(d.live[id].task.state);
    }
  }

  /** A pass hides no record behind a summary: it files only summaries of records it removes. */
  lemma PassKeepsShown(d: Disk, world: World, p: Pass, d': Disk)
    requires PassLeaves(d, world, p, d') && NoShadows(d)
    ensures NoShadows(d')
  {
    forall id | id in d'.live ensures !Shadowed(d', id) {
      assert SweptOne(d, world, p, id, Lookup(d'.live, id)) && !Shadowed(d, id);
      StillShown(d, world, p, d', id);
    }
  }

  lemma StillShown(d: Disk, world: World, p: Pass, d': Disk, id: TaskId)
    requires id in d.live && id in d'.live && !Shadowed(d, id)
    requires SweptOne(d, world, p, id, Some(d'.live[id]))
    requires OfRemoved(d.live, p.filed, d'.live) && Filed(d.index, p.filed, d'.index)
    ensures !Shadowed(d', id)
  {
    assert Shown(id, d'.live[id], 0).createdAt == Shown(id, d.live[id], 0).createdAt;
    if d'.index.Some? {
      forall v | v in d'.index.value && v.id == id
        ensures FromView(v).createdAt < Shown(id, d'.live[id], 0).createdAt
      {
        TaskIndex.AppendedWithin(d.index.value, p.filed, d'.index.value, v);
        assert v in d.index.value;
      }
    }
  }

  /** Every record a pass removes keeps its summary, or twenty at least as recent ones displaced it,
      where no removed record is older than a summary it replaces. */
  lemma RemovedRetained(d: Disk, world: World, p: Pass, d': Disk, id: TaskId)
    requires SoundDisk(d) && PassLeaves(d, world, p, d') && id in d.live && id !in d'.live
    requires forall v | v in p.filed :: TaskIndex.NotNewer(TaskIndex.Elements(d.index.value), v)
    ensures Retained(d.live[id], d'.index)
  {
    var v :| v in p.filed && v.id == id;
    TaskIndex.AllRetained(d.index.value, p.filed, d'.index.value, v);
  }

  /** The record this pass ends while its cleanup is already asked for, with its job gone. */
  ghost predicate CleansLater(d: Disk, world: World, p: Pass, id: TaskId) {
    && id in d.live && d.live[id].Parsed? && d.index.Some? && id in world.bootsOut
    && C.EndsUnclean(d.live[id].task, p.now, id in world.answering && d.live[id].task.workerPid != 0)
  }

  /** Both passes at one clock reading. */
  predicate AtOnce(p: Pass, q: Pass) {
    p.now == p.end == q.now == q.end
  }

  lemma SweptTwice(r: Record, now: Time, answers: bool, gone: bool, once: Record, twice: Option<Record>)
    requires Swept(r, now, now, answers, gone, Some(once)) && Swept(once, now, now, answers, gone, twice)
    ensures twice == if r.Parsed? && gone && C.EndsUnclean(r.task, now, answers && r.task.workerPid != 0) then None
                     else Some(once)
  {
    if r.Parsed? {
      C.PassIdempotentIff(r.task, now, answers && r.task.workerPid != 0, gone);
    }
  }

  /** Reconciliation is idempotent over the whole store: with no summary hiding a record, a second pass
      at the same clock on the same evidence removes exactly the records the first pass ended with
      their cleanup already asked for, and changes no other. */
  lemma SecondPassLive(d: Disk, world: World, p: Pass, d1: Disk, q: Pass, d2: Disk, id: TaskId)
    requires PassLeaves(d, world, p, d1) && PassLeaves(d1, world, q, d2) && AtOnce(p, q) && NoShadows(d)
    requires id in d1.live
    ensures Lookup(d2.live, id) == if CleansLater(d, world, p, id) then None else Some(d1.live[id])
  {
    PassKeepsShown(d, world, p, d1);
    assert SweptAll(d, world, p, d1.live) && SweptAll(d1, world, q, d2.live);
    assert !Shadowed(d, id) && SweptOne(d, world, p, id, Lookup(d1.live, id));
    assert !Shadowed(d1, id) && SweptOne(d1, world, q, id, Lookup(d2.live, id));
    assert d.index.Some? == d1.index.Some?;
    SweptTwice(d.live[id], p.now, id in world.answering, id in world.bootsOut && d.index.Some?, d1.live[id],
               Lookup(d2.live, id));
  }

  /** A pass that removes nothing and rewrites nothing leaves the summaries and kept bytes alone. */
  lemma NothingRemoved(d: Disk, p: Pass, d': Disk)
    requires OfRemoved(d.live, p.filed, d'.live) && Filed(d.index, p.filed, d'.index)
    requires d'.snapshots == d.snapshots - (d.live.Keys - d'.live.Keys)
    requires d'.live == d.live
    ensures p.filed == [] && d' == d
  {
    SeqFacts.FirstIsMember(p.filed);
  }

  /** So the second pass leaves records, summaries and kept bytes alone exactly when no such record is
      there. */
  lemma SecondPassIff(d: Disk, world: World, p: Pass, d1: Disk, q: Pass, d2: Disk)
    requires PassLeaves(d, world, p, d1) && PassLeaves(d1, world, q, d2) && AtOnce(p, q) && NoShadows(d)
    ensures d2 == d1 <==> forall id :: !CleansLater(d, world, p, id)
  {
    if d2 == d1 {
      forall id ensures !CleansLater(d, world, p, id) {
        if CleansLater(d, world, p, id) {
          assert SweptOne(d, world, p, id, Lookup(d1.live, id)) && !Shadowed(d, id);
          assert id in d1.live;
          SecondPassLive(d, world, p, d1, q, d2, id);
          assert false;
        }
      }
    }
    if forall id :: !CleansLater(d, world, p, id) {
      forall id | id in d1.live ensures id in d2.live && d2.live[id] == d1.live[id] {
        SecondPassLive(d, world, p, d1, q, d2, id);
      }
      assert d2.live.Keys == d1.live.Keys && d2.live == d1.live;
      NothingRemoved(d1, q, d2);
    }
  }

  lemma SettledNever(d: Disk, world: World, p: Pass, id: TaskId)
    requires Settled(d.live)
    ensures !CleansLater(d, world, p, id)
  {
    if id in d.live && d.live[id].Parsed? {
      assert d.live[id].task.cleanupPending ==> Terminal(d.live[id].task.state);
    }
  }

  /** Where cleanup is asked for only when a task is over, a second pass never changes anything. */
  lemma SecondPassNothing(d: Disk, world: World, p: Pass, d1: Disk, q: Pass, d2: Disk)
    requires PassLeaves(d, world, p, d1) && PassLeaves(d1, world, q, d2) && AtOnce(p, q) && NoShadows(d)
    requires Settled(d.live)
    ensures d2 == d1 && q.filed == []
  {
    forall id ensures !CleansLater(d, world, p, id) {
      SettledNever(d, world, p, id);
    }
    SecondPassIff(d, world, p, d1, q, d2);
    NothingRemoved(d1, q, d2);
  }
}
