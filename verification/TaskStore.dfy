/** The persistent store: live task directories beside a bounded index of terminal summaries. */
module TaskStore {
  import opened UpgradeTask
  import SeqFacts

  /** A live task.json, which may fail to parse. */
  datatype Record = Parsed(task: Task) | Corrupt

  /** The summary kept in index.json; its times have whole seconds. */
  datatype View = View(
    id: TaskId, state: State, targetVersion: string, initiator: string, phase: Phase,
    failureStage: Stage, errorKind: ErrorKind,
    createdAt: int, updatedAt: int, succeededAt: Option<int>)

  const MAX_TERMINAL_RECORDS: nat := 20

  function ViewOf(t: Task): View {
    View(t.id, t.state, t.targetVersion, t.initiator, t.phase, t.failureStage, t.errorKind,
         t.createdAt / SECOND, t.updatedAt / SECOND,
         if t.succeededAt.Some? then Some(t.succeededAt.value / SECOND) else None)
  }

  function FromView(v: View): Task {
    ZERO_TASK.(id := v.id, state := v.state, targetVersion := v.targetVersion, initiator := v.initiator,
    phase := v.phase, failureStage := v.failureStage, errorKind := v.errorKind, cleaned := true,
    createdAt := v.createdAt * SECOND, updatedAt := v.updatedAt * SECOND,
    succeededAt := if v.succeededAt.Some? then Some(v.succeededAt.value * SECOND) else None)
  }

  /** A summary survives being listed and summarised again, so repeated cleanup cannot degrade it. */
  lemma ViewRoundTrip(v: View)
    ensures ViewOf(FromView(v)) == v
  {
    assert SECOND > 0;
    assert (v.createdAt * SECOND) / SECOND == v.createdAt;
    assert (v.updatedAt * SECOND) / SECOND == v.updatedAt;
    if v.succeededAt.Some? {
      assert (v.succeededAt.value * SECOND) / SECOND == v.succeededAt.value;
    }
  }

  /** A listed summary says what its record said, its times cut to whole seconds, and counts as cleaned. */
  lemma SummarySays(t: Task)
    ensures var u := FromView(ViewOf(t));
            && u.id == t.id && u.state == t.state && u.targetVersion == t.targetVersion && u.initiator == t.initiator
            && u.phase == t.phase && u.failureStage == t.failureStage && u.errorKind == t.errorKind && u.cleaned
            && 0 <= t.createdAt - u.createdAt < SECOND && u.createdAt % SECOND == 0
            && 0 <= t.updatedAt - u.updatedAt < SECOND && u.updatedAt % SECOND == 0
            && u.succeededAt.Some? == t.succeededAt.Some?
            && (u.succeededAt.Some? ==>
                  0 <= t.succeededAt.value - u.succeededAt.value < SECOND && u.succeededAt.value % SECOND == 0)
  {
    Whole(t.createdAt);
    Whole(t.updatedAt);
    if t.succeededAt.Some? {
      Whole(t.succeededAt.value);
    }
  }

  lemma Whole(time: Time)
    ensures 0 <= time - time / SECOND * SECOND < SECOND && time / SECOND * SECOND % SECOND == 0
  {
  }

  /** Summaries are ordered as their records are, up to the second. */
  lemma SummaryOrder(a: Task, b: Task)
    requires a.updatedAt <= b.updatedAt
    ensures ViewOf(a).updatedAt <= ViewOf(b).updatedAt
    ensures ViewOf(a).updatedAt == ViewOf(b).updatedAt ==> b.updatedAt - a.updatedAt < SECOND
  {
  }

  /** The listed copy of a summary is older than the live record exactly when truncation lost something. */
  lemma SummaryOlder(t: Task)
    ensures FromView(ViewOf(t)).createdAt < t.createdAt <==> t.createdAt % SECOND != 0
    ensures FromView(ViewOf(t)).createdAt <= t.createdAt
  {
  }

  // ----- listing

  function Creation(t: Task): Time { t.createdAt }

  function IdOf(t: Task): TaskId { t.id }

  predicate Sorted(ts: seq<Task>) { SeqFacts.Ordered(ts, Creation) }

  predicate UniqueIds(ts: seq<Task>) { SeqFacts.Distinct(ts, IdOf) }

  /** Orders by creation time. */
  method SortTasks(tasks: seq<Task>) returns (sorted: seq<Task>)
    ensures Sorted(sorted) && multiset(sorted) == multiset(tasks)
  {
    sorted := SeqFacts.Sort(tasks, Creation);
  }

  /** For every id the last of its copies, in some order. */
  ghost predicate LastCopies(tasks: seq<Task>, out: seq<Task>) {
    && UniqueIds(out)
    && (forall o | o in out :: exists k :: 0 <= k < |tasks| && IsLast(tasks, k) && tasks[k] == o)
    && (forall k | 0 <= k < |tasks| :: HasId(out, tasks[k].id))
  }

  ghost predicate HasId(ts: seq<Task>, id: TaskId) {
    exists i :: 0 <= i < |ts| && ts[i].id == id
  }

  ghost predicate IsLast(tasks: seq<Task>, k: int)
    requires 0 <= k < |tasks|
  {
    forall j | k < j < |tasks| :: tasks[j].id != tasks[k].id
  }

  /** The bookkeeping of KeepLast: from says where each kept copy came from. */
  ghost predicate Kept(tasks: seq<Task>, k: nat, out: seq<Task>, from: seq<nat>, seen: map<TaskId, nat>) {
    && k <= |tasks| && |from| == |out|
    && (forall i | 0 <= i < |out| :: from[i] < k && tasks[from[i]] == out[i])
    && (forall i | 0 <= i < |out| :: out[i].id in seen && seen[out[i].id] == i)
    && (forall id | id in seen :: seen[id] < |out| && out[seen[id]].id == id)
    && (forall j | 0 <= j < k :: tasks[j].id in seen && j <= from[seen[tasks[j].id]])
  }

  /** Keeps the later of two copies of one id, at the earlier one's place. */
  method KeepLast(tasks: seq<Task>) returns (out: seq<Task>)
    ensures LastCopies(tasks, out)
  {
    out := [];
    var seen: map<TaskId, nat> := map[];
    ghost var from: seq<nat> := [];
    for k := 0 to |tasks|
      invariant Kept(tasks, k, out, from, seen)
    {
      var t := tasks[k];
      KeptReplaces(tasks, k, out, from, seen);
      KeptAppends(tasks, k, out, from, seen);
      if t.id in seen {
        out := out[seen[t.id] := t];
        from := from[seen[t.id] := k];
      } else {
        seen := seen[t.id := |out|];
        out := out + [t];
        from := from + [k];
      }
    }
    KeptIsLast(tasks, out, from, seen);
  }

  lemma KeptReplaces(tasks: seq<Task>, k: nat, out: seq<Task>, from: seq<nat>, seen: map<TaskId, nat>)
    requires k < |tasks| && Kept(tasks, k, out, from, seen)
    ensures tasks[k].id in seen ==>
              var at := seen[tasks[k].id];
              Kept(tasks, k + 1, out[at := tasks[k]], from[at := k], seen)
  {
  }

  lemma KeptAppends(tasks: seq<Task>, k: nat, out: seq<Task>, from: seq<nat>, seen: map<TaskId, nat>)
    requires k < |tasks| && Kept(tasks, k, out, from, seen)
    ensures tasks[k].id !in seen ==>
              Kept(tasks, k + 1, out + [tasks[k]], from + [k], seen[tasks[k].id := |out|])
  {
  }

  lemma KeptIsLast(tasks: seq<Task>, out: seq<Task>, from: seq<nat>, seen: map<TaskId, nat>)
    requires Kept(tasks, |tasks|, out, from, seen)
    ensures LastCopies(tasks, out)
  {
    forall o | o in out ensures exists k :: 0 <= k < |tasks| && IsLast(tasks, k) && tasks[k] == o {
      var i :| 0 <= i < |out| && out[i] == o;
      assert IsLast(tasks, from[i]);
    }
    forall k | 0 <= k < |tasks| ensures HasId(out, tasks[k].id) {
      assert out[seen[tasks[k].id]].id == tasks[k].id;
    }
  }

  ghost function Members(ts: seq<Task>): set<Task> { set t | t in ts }

  /** What a listing of a set of copies may be: every id once, with a copy created last, in order. */
  ghost predicate Lists(copies: set<Task>, out: seq<Task>) {
    && Sorted(out) && UniqueIds(out)
    && (forall o | o in out :: MayShow(copies, o))
    && (forall c | c in copies :: HasId(out, c.id))
  }

  /** The copies of an id a listing may settle on: those created last. */
  ghost predicate MayShow(copies: set<Task>, o: Task) {
    o in copies && forall c | c in copies && c.id == o.id :: c.createdAt <= o.createdAt
  }

  method Dedupe(tasks: seq<Task>, ghost copies: set<Task>) returns (out: seq<Task>)
    requires Sorted(tasks) && copies == Members(tasks)
    ensures Lists(copies, out)
  {
    var kept := KeepLast(tasks);
    LastIsNewest(tasks, kept, copies);
    out := SortTasks(kept);
    SeqFacts.SortKeeps(kept, out, IdOf);
    forall c | c in copies ensures HasId(out, c.id) {
      var i :| 0 <= i < |kept| && kept[i].id == c.id;
      assert kept[i] in out;
    }
  }

  /** In creation order the last copy of an id is one created last. */
  lemma LastIsNewest(tasks: seq<Task>, kept: seq<Task>, copies: set<Task>)
    requires Sorted(tasks) && LastCopies(tasks, kept) && copies == Members(tasks)
    ensures forall o | o in kept :: MayShow(copies, o)
    ensures forall c | c in copies :: HasId(kept, c.id)
  {
    forall o | o in kept ensures MayShow(copies, o) {
      var k :| 0 <= k < |tasks| && IsLast(tasks, k) && tasks[k] == o;
      NothingNewer(tasks, k, copies);
    }
  }

  lemma NothingNewer(tasks: seq<Task>, k: nat, copies: set<Task>)
    requires k < |tasks| && Sorted(tasks) && IsLast(tasks, k) && copies == Members(tasks)
    ensures MayShow(copies, tasks[k])
  {
    forall c | c in copies && c.id == tasks[k].id ensures c.createdAt <= tasks[k].createdAt {
      assert c in tasks;
      var j :| 0 <= j < |tasks| && tasks[j] == c;
      assert j <= k;
      assert Creation(tasks[j]) <= Creation(tasks[k]);
    }
  }
}
