/** The store as both processes use it: load, save, list and two-step cleanup over one directory. */
module StoreProcess {
  import opened UpgradeTask
  import opened TaskStore
  import opened TaskIndex
  import SeqFacts

  predicate SafeId(id: TaskId) { id != "" && '/' !in id }

  /** How a live record is listed: one that does not parse surfaces as unresolved work. */
  function Shown(id: TaskId, r: Record, at: Time): Task {
    match r
    case Parsed(t) => t
    case Corrupt => ZERO_TASK.(id := id, state := NeedsAttention, errorKind := CorruptRecord, updatedAt := at)
  }

  /** The copies of tasks one listing sees: every summary, and every live record. */
  ghost function AllCopies(live: map<TaskId, Record>, index: seq<View>, at: Time): set<Task> {
    Summaries(index) + Directories(live, live.Keys, at)
  }

  ghost function Summaries(index: seq<View>): set<Task> {
    set v | v in index :: FromView(v)
  }

  ghost function Directories(live: map<TaskId, Record>, ids: set<TaskId>, at: Time): set<Task>
    requires ids <= live.Keys
  {
    set id | id in ids :: Shown(id, live[id], at)
  }

  lemma OneMoreSummary(all: seq<Task>, index: seq<View>, v: View)
    requires Members(all) == Summaries(index)
    ensures Members(all + [FromView(v)]) == Summaries(index + [v])
  {
    assert Members(all + [FromView(v)]) == Members(all) + {FromView(v)};
    assert v in index + [v];
    assert forall u | u in index :: u in index + [v];
  }

  lemma OneMoreDirectory(all: seq<Task>, base: set<Task>, live: map<TaskId, Record>, ids: set<TaskId>, id: TaskId,
                         at: Time)
    requires ids <= live.Keys && id in live && Members(all) == base + Directories(live, ids, at)
    ensures Members(all + [Shown(id, live[id], at)]) == base + Directories(live, ids + {id}, at)
  {
    assert Members(all + [Shown(id, live[id], at)]) == Members(all) + {Shown(id, live[id], at)};
  }

  /** What the store keeps between calls. */
  datatype Disk = Disk(live: map<TaskId, Record>, index: Option<seq<View>>, snapshots: map<TaskId, Bytes>)

  /** Records lie under their own ids, and the index is a bounded list of finished tasks. */
  ghost predicate SoundDisk(d: Disk) {
    && (forall id | id in d.live :: SafeId(id) && id != "." && id != "..")
    && (forall id | id in d.live && d.live[id].Parsed? :: d.live[id].task.id == id)
    && (d.index.Some? ==>
          && UniqueViews(d.index.value) && |d.index.value| <= MAX_TERMINAL_RECORDS
          && forall v | v in d.index.value :: Terminal(v.state))
  }

  /** A retained summary may stand for the live record in a listing: the record was not created after
      the second the summary carries. */
  ghost predicate Shadowed(d: Disk, id: TaskId) {
    && id in d.live && d.index.Some?
    && exists v :: v in d.index.value && v.id == id && Shown(id, d.live[id], 0).createdAt <= FromView(v).createdAt
  }

  ghost predicate NoShadows(d: Disk) {
    forall id | id in d.live :: !Shadowed(d, id)
  }

  datatype LoadResult = Invalid | NotFound | Unreadable | Found(task: Task)

  /** What a load answers. */
  function Loaded(live: map<TaskId, Record>, id: TaskId): LoadResult {
    if !SafeId(id) then Invalid
    else if id !in live then NotFound
    else match live[id]
      case Corrupt => Unreadable
      case Parsed(t) => Found(t)
  }

  class Store {
    var clock: Time
    var live: map<TaskId, Record>
    var snapshots: map<TaskId, Bytes>
    var index: Option<seq<View>>  // None when index.json cannot be read

    constructor (now: Time)
      ensures Valid() && clock == now && live == map[] && index == Some([])
    {
      clock, live, snapshots, index := now, map[], map[], Some([]);
    }

    ghost predicate Valid()
      reads this
    {
      SoundDisk(OnDisk())
    }

    ghost function Copies(at: Time): set<Task>
      reads this
    {
      AllCopies(live, if index.Some? then index.value else [], at)
    }

    function OnDisk(): Disk
      reads this
    {
      Disk(live, index, snapshots)
    }

    method Now() returns (now: Time)
      modifies `clock
      ensures now == clock >= old(clock)
    {
      var passed: nat :| true;
      clock := clock + passed;
      return clock;
    }

    /** Replaces the record, stamped with the store clock; a removed directory makes it fail. */
    method Save(task: Task) returns (ok: bool, saved: Task)
      requires Valid()
      modifies `clock, `live
      ensures Valid() && clock >= old(clock) && saved == task.(updatedAt := clock)
      ensures ok <==> task.id in old(live)
      ensures live == if ok then old(live)[task.id := Parsed(saved)] else old(live)
    {
      var now := Now();
      saved := task.(updatedAt := now);
      ok := task.id in live;
      if ok {
        live := live[task.id := Parsed(saved)];
      }
    }

    /** Makes the directory, keeps the confirmed bytes beside the record, and saves it. */
    method Create(task: Task, body: Bytes) returns (saved: Task)
      requires Valid() && SafeId(task.id) && task.id != "." && task.id != ".."
      modifies `clock, `live, `snapshots
      ensures Valid() && clock >= old(clock) && saved == task.(updatedAt := clock)
      ensures live == old(live)[task.id := Parsed(saved)]
      ensures snapshots == if body != [] then old(snapshots)[task.id := body] else old(snapshots)
    {
      if body != [] {
        snapshots := snapshots[task.id := body];
      }
      var now := Now();
      saved := task.(updatedAt := now);
      live := live[task.id := Parsed(saved)];
    }

    method Load(id: TaskId) returns (r: LoadResult)
      ensures r == Loaded(live, id)
    {
      if !SafeId(id) {
        return Invalid;
      }
      if id !in live {
        return NotFound;
      }
      match live[id] {
        case Corrupt => return Unreadable;
        case Parsed(t) => return Found(t);
      }
    }

    /** Every task once, oldest first, each with a copy created last. */
    method List() returns (tasks: seq<Task>)
      modifies `clock
      ensures clock >= old(clock) && Lists(Copies(clock), tasks)
    {
      var at := Now();
      var views := if index.Some? then index.value else [];
      var all := [];
      for i := 0 to |views|
        invariant clock == at && Members(all) == Summaries(views[..i])
      {
        OneMoreSummary(all, views[..i], views[i]);
        assert views[..i + 1] == views[..i] + [views[i]];
        all := all + [FromView(views[i])];
      }
      assert views[..|views|] == views;
      var todo := live.Keys;
      while todo != {}
        invariant clock == at && todo <= live.Keys
        invariant Members(all) == Summaries(views) + Directories(live, live.Keys - todo, at)
      {
        var id :| id in todo;
        OneMoreDirectory(all, Summaries(views), live, live.Keys - todo, id, at);
        assert live.Keys - (todo - {id}) == live.Keys - todo + {id};
        todo := todo - {id};
        all := all + [Shown(id, live[id], at)];
      }
      assert live.Keys - todo == live.Keys;
      var sorted := SortTasks(all);
      SeqFacts.SameMembers(all, sorted);
      assert Members(sorted) == Members(all);
      tasks := Dedupe(sorted, Copies(at));
    }

    /** Keeps the terminal summary in the bounded index; an unreadable index refuses. */
    method AppendIndex(task: Task) returns (ok: bool)
      requires Valid() && Terminal(task.state)
      modifies `index
      ensures Valid()
      ensures ok <==> old(index).Some?
      ensures ok ==>
                && index.Some?
                && TopOf(index.value, Replaced(Elements(old(index).value), ViewOf(task)), MAX_TERMINAL_RECORDS)
      ensures !ok ==> index == old(index)
    {
      if index.None? {
        return false;
      }
      var kept := Append(index.value, ViewOf(task));
      assert forall v | v in kept :: v in Elements(kept);
      index := Some(kept);
      return true;
    }

    /** Summary first, then the directory: the record is never in neither place. A missing task is
        not an error. The id of the parent directory is not refused, and takes the whole store. */
    method Cleanup(id: TaskId) returns (ok: bool)
      requires Valid() && (id in live && live[id].Parsed? ==> Terminal(live[id].task.state))
      modifies `index, `live, `snapshots
      ensures Valid()
      ensures ok <==> SafeId(id) && id != "." &&
                      (id in old(live) ==> old(live)[id].Parsed? && old(index).Some?)
      ensures id == ".." ==> OnDisk() == Disk(map[], Some([]), map[])
      ensures (ok && id != "..") ==> live == old(live) - {id} && snapshots == old(snapshots) - {id}
      ensures (ok && id in old(live)) ==>
                && index.Some?
                && TopOf(index.value, Replaced(Elements(old(index).value), ViewOf(old(live)[id].task)),
                         MAX_TERMINAL_RECORDS)
      ensures (ok && id != ".." && id !in old(live)) ==> index == old(index)
      ensures !ok ==> index == old(index) && live == old(live) && snapshots == old(snapshots)
    {
      if !SafeId(id) || id == "." {
        return false;
      }
      var loaded := Load(id);
      if loaded.Unreadable? {
        return false;
      }
      if loaded.Found? {
        var task := loaded.task.(cleaned := true, cleanupPending := false);
        assert ViewOf(task) == ViewOf(loaded.task);
        var appended := AppendIndex(task);
        if !appended {
          return false;
        }
      }
      if id == ".." {
        live, snapshots, index := map[], map[], Some([]);
      } else {
        live := live - {id};
        snapshots := snapshots - {id};
      }
      return true;
    }
  }

  // ----- what listing means

  /** The map a listing stands for: the live record where there is one, else the summary. */
  ghost function Merged(live: map<TaskId, Record>, index: seq<View>, at: Time, id: TaskId): Option<Task> {
    if id in live then Some(Shown(id, live[id], at))
    else if exists v :: v in index && v.id == id then (var v :| v in index && v.id == id; Some(FromView(v)))
    else None
  }

  ghost predicate Consistent(live: map<TaskId, Record>, index: seq<View>) {
    && UniqueViews(index)
    && (forall id | id in live && live[id].Parsed? :: live[id].task.id == id)
  }

  /** List refines a map: when live records parse and were created after their summaries' whole
      second, it returns exactly the union of ids, each once, the live record winning, in order. */
  lemma ListRefinesMap(live: map<TaskId, Record>, index: seq<View>, at: Time, out: seq<Task>)
    requires Consistent(live, index) && Lists(AllCopies(live, index, at), out)
    requires forall id, v | id in live && v in index && v.id == id ::
               FromView(v).createdAt < Shown(id, live[id], at).createdAt
    ensures Sorted(out) && UniqueIds(out)
    ensures forall o | o in out :: Merged(live, index, at, o.id) == Some(o)
    ensures forall id | Merged(live, index, at, id).Some? :: Merged(live, index, at, id).value in out
  {
    var copies := AllCopies(live, index, at);
    forall o | o in out ensures Merged(live, index, at, o.id) == Some(o) {
      assert MayShow(copies, o);
      if o.id in live {
        assert Shown(o.id, live[o.id], at) in copies;
        OnlyLive(live, index, at, o);
      } else {
        OnlySummary(live, index, at, o);
      }
    }
    forall id | Merged(live, index, at, id).Some? ensures Merged(live, index, at, id).value in out {
      var c := Merged(live, index, at, id).value;
      assert c in copies && c.id == id;
      assert HasId(out, c.id);
      var i :| 0 <= i < |out| && out[i].id == id;
      assert out[i] in out;
    }
  }

  lemma OnlyLive(live: map<TaskId, Record>, index: seq<View>, at: Time, o: Task)
    requires Consistent(live, index) && MayShow(AllCopies(live, index, at), o) && o.id in live
    requires forall id, v | id in live && v in index && v.id == id ::
               FromView(v).createdAt < Shown(id, live[id], at).createdAt
    ensures o == Shown(o.id, live[o.id], at)
  {
    var mine := Shown(o.id, live[o.id], at);
    assert mine in AllCopies(live, index, at) && mine.id == o.id;
    forall v | v in index ensures FromView(v) != o {
      if v.id == o.id {
        assert FromView(v).createdAt < mine.createdAt;
      }
    }
  }

  lemma OnlySummary(live: map<TaskId, Record>, index: seq<View>, at: Time, o: Task)
    requires Consistent(live, index) && o in AllCopies(live, index, at) && o.id !in live
    ensures Merged(live, index, at, o.id) == Some(o)
  {
    var v :| v in index && FromView(v) == o;
    forall u | u in index && u.id == o.id ensures u == v {
      var i :| 0 <= i < |index| && index[i] == u;
      var j :| 0 <= j < |index| && index[j] == v;
    }
  }

  /** The side condition is exact: the live record is the only copy a listing may settle on if and
      only if it was created after every summary of its task that differs from it. */
  lemma LiveWinsIff(live: map<TaskId, Record>, index: seq<View>, at: Time, id: TaskId)
    requires Consistent(live, index) && id in live
    ensures var mine := Shown(id, live[id], at);
            (forall o | MayShow(AllCopies(live, index, at), o) && o.id == id :: o == mine)
            <==> (forall v | v in index && v.id == id && FromView(v) != mine :: FromView(v).createdAt < mine.createdAt)
  {
    var mine := Shown(id, live[id], at);
    var copies := AllCopies(live, index, at);
    assert mine in copies && mine.id == id;
    forall c | c in copies && c.id == id ensures c == mine || exists v :: v in index && v.id == id && FromView(v) == c {
      if v :| v in index && FromView(v) == c {
        assert v.id == id;
      }
    }
    if v :| v in index && v.id == id && FromView(v) != mine && FromView(v).createdAt >= mine.createdAt {
      forall c | c in copies && c.id == id ensures c.createdAt <= FromView(v).createdAt {
        if c != mine {
          var u :| u in index && u.id == id && FromView(u) == c;
          var i :| 0 <= i < |index| && index[i] == u;
          var j :| 0 <= j < |index| && index[j] == v;
        }
      }
      assert MayShow(copies, FromView(v));
    }
  }

  /** Loading and listing agree on a task no summary hides: it is found exactly when the listing shows
      that very record, and unreadable exactly when the listing shows unresolved work in its place. */
  lemma LoadMatchesList(d: Disk, at: Time, out: seq<Task>, id: TaskId, now: Time)
    requires SoundDisk(d) && Lists(AllCopies(d.live, if d.index.Some? then d.index.value else [], at), out)
    requires !Shadowed(d, id)
    ensures Loaded(d.live, id).Invalid? <==> id == "" || '/' in id
    ensures Loaded(d.live, id).NotFound? <==> id != "" && '/' !in id && id !in d.live
    ensures forall t: Task | t.id == id && !t.cleaned :: t in out <==>
              || Loaded(d.live, id) == Found(t)
              || (Loaded(d.live, id).Unreadable? && t == Shown(id, Corrupt, at))
    ensures Loaded(d.live, id).Unreadable? ==>
              exists t :: t in out && t.id == id && t.state.NeedsAttention? && t.errorKind.CorruptRecord? &&
                          !t.cleaned && !t.cleanupPending && t.updatedAt == at
    ensures Loaded(d.live, id).Unreadable? ==> exists t :: t in out && t.id == id && Blocks(t, now)
    ensures Loaded(d.live, id).NotFound? || Loaded(d.live, id).Invalid? ==>
              forall t | t in out && t.id == id :: t.cleaned && Terminal(t.state)
  {
    var views := if d.index.Some? then d.index.value else [];
    var copies := AllCopies(d.live, views, at);
    forall t | t in out && t.id == id
      ensures if id in d.live then t == Shown(id, d.live[id], at) else t.cleaned && Terminal(t.state)
    {
      assert MayShow(copies, t);
      if id in d.live {
        assert Shown(id, d.live[id], at) in copies;
      }
    }
    if id in d.live {
      assert Shown(id, d.live[id], at) in copies && HasId(out, Shown(id, d.live[id], at).id);
      var i :| 0 <= i < |out| && out[i].id == id;
      assert out[i] in out;
    }
  }

  // ----- crash-safe cleanup

  /** Some listed copy of the task carries this summary. */
  ghost predicate Visible(out: seq<Task>, v: View) {
    exists i :: 0 <= i < |out| && ViewOf(out[i]) == v
  }

  /** Any summary of the task already indexed is this one, or of an older incarnation of its record. */
  ghost predicate NoNewerSummary(index: seq<View>, t: Task) {
    forall v | v in index && v.id == t.id :: v == ViewOf(t) || FromView(v).createdAt < t.createdAt
  }

  /** At every crash point of a cleanup every listing shows the terminal summary: before it, between
      its two steps, and after it unless twenty at least as recent summaries have displaced it. */
  lemma CleanupCrashSafe(live: map<TaskId, Record>, index: seq<View>, index': seq<View>, t: Task, at: Time,
                         out: seq<Task>)
    requires Consistent(live, index) && Consistent(live, index')
    requires t.id in live && live[t.id] == Parsed(t) && NoNewerSummary(index, t)
    requires TopOf(index', Replaced(Elements(index), ViewOf(t)), MAX_TERMINAL_RECORDS)
    ensures Lists(AllCopies(live, index, at), out) ==> Visible(out, ViewOf(t))
    ensures Lists(AllCopies(live, index', at), out) ==> Visible(out, ViewOf(t))
    ensures Lists(AllCopies(live - {t.id}, index', at), out) ==>
              || Visible(out, ViewOf(t))
              || (|index'| == MAX_TERMINAL_RECORDS && forall u | u in index' :: u.updatedAt >= ViewOf(t).updatedAt)
  {
    if Lists(AllCopies(live, index, at), out) {
      LiveVisible(live, index, t, at, out);
    }
    if Lists(AllCopies(live, index', at), out) {
      forall v | v in index' && v.id == t.id ensures v == ViewOf(t) {
        assert v in Elements(index');
      }
      LiveVisible(live, index', t, at, out);
    }
    if Lists(AllCopies(live - {t.id}, index', at), out) {
      KeptOrDisplaced(index, ViewOf(t), index');
      if ViewOf(t) in index' {
        SummaryVisible(live - {t.id}, index', t, at, out);
      }
    }
  }

  lemma LiveVisible(live: map<TaskId, Record>, index: seq<View>, t: Task, at: Time, out: seq<Task>)
    requires Consistent(live, index) && t.id in live && live[t.id] == Parsed(t) && NoNewerSummary(index, t)
    requires Lists(AllCopies(live, index, at), out)
    ensures Visible(out, ViewOf(t))
  {
    var copies := AllCopies(live, index, at);
    assert Shown(t.id, live[t.id], at) == t && t in copies;
    assert HasId(out, t.id);
    var i :| 0 <= i < |out| && out[i].id == t.id;
    assert out[i] in out && MayShow(copies, out[i]);
    ViewRoundTrip(ViewOf(t));
    if out[i] in Summaries(index) {
      var v :| v in index && FromView(v) == out[i];
      assert t.createdAt <= out[i].createdAt;
      assert v == ViewOf(t);
    } else {
      assert out[i] == t;
    }
  }

  lemma SummaryVisible(live: map<TaskId, Record>, index: seq<View>, t: Task, at: Time, out: seq<Task>)
    requires Consistent(live, index) && t.id !in live && ViewOf(t) in index
    requires Lists(AllCopies(live, index, at), out)
    ensures Visible(out, ViewOf(t))
  {
    var copies := AllCopies(live, index, at);
    var c := FromView(ViewOf(t));
    assert c in copies && HasId(out, c.id);
    var i :| 0 <= i < |out| && out[i].id == t.id;
    assert out[i] in out && MayShow(copies, out[i]);
    OnlySummary(live, index, at, c);
    OnlySummary(live, index, at, out[i]);
    assert out[i] == c;
    ViewRoundTrip(ViewOf(t));
  }
}
