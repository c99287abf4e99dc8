/** The bounded index of terminal summaries: the newest twenty of everything ever cleaned. */
module TaskIndex {
  import opened UpgradeTask
  import opened TaskStore
  import SeqFacts

  function Recency(v: View): int { -v.updatedAt }

  function IdOfView(v: View): TaskId { v.id }

  predicate NewestFirst(vs: seq<View>) { SeqFacts.Ordered(vs, Recency) }

  predicate UniqueViews(vs: seq<View>) { SeqFacts.Distinct(vs, IdOfView) }

  ghost function Elements(vs: seq<View>): set<View> { set v | v in vs }

  ghost predicate UniqueIn(all: set<View>) {
    forall u, v | u in all && v in all && u.id == v.id :: u == v
  }

  /** kept is a newest k of all: nothing left out is newer than anything kept. */
  ghost predicate TopOf(kept: seq<View>, all: set<View>, k: nat) {
    && NewestFirst(kept) && UniqueViews(kept)
    && Elements(kept) <= all
    && |kept| == (if |all| <= k then |all| else k)
    && (forall u, v | u in all && u !in kept && v in kept :: v.updatedAt >= u.updatedAt)
  }

  ghost function Replaced(all: set<View>, v: View): set<View> {
    (set u | u in all && u.id != v.id) + {v}
  }

  lemma {:induction false} ElementsCount(vs: seq<View>)
    requires UniqueViews(vs)
    ensures |Elements(vs)| == |vs|
  {
    if vs != [] {
      var head, last := vs[..|vs| - 1], vs[|vs| - 1];
      ElementsCount(head);
      assert vs == head + [last];
      assert Elements(vs) == Elements(head) + {last};
      assert last !in Elements(head);
    }
  }

  lemma SubsetCount<T>(a: set<T>, b: set<T>)
    requires a <= b
    ensures |a| <= |b| && (|a| == |b| ==> a == b)
  {
    assert b == a + (b - a);
    assert |b| == |a| + |b - a|;
  }

  // ----- one append

  /** Replaces the summary of the same task or adds it, orders by recency, keeps the newest. */
  method Append(records: seq<View>, view: View) returns (kept: seq<View>)
    requires UniqueViews(records)
    ensures TopOf(kept, Replaced(Elements(records), view), 20)
  {
    var all := Upsert(records, view);
    var sorted := SeqFacts.Sort(all, Recency);
    SeqFacts.SortKeeps(all, sorted, IdOfView);
    kept := if |sorted| > MAX_TERMINAL_RECORDS then sorted[..MAX_TERMINAL_RECORDS] else sorted;
    TruncateIsTop(sorted, kept);
    assert Elements(sorted) == Elements(all);
  }

  method Upsert(records: seq<View>, view: View) returns (all: seq<View>)
    requires UniqueViews(records)
    ensures UniqueViews(all) && Elements(all) == Replaced(Elements(records), view)
  {
    for i := 0 to |records|
      invariant forall j | 0 <= j < i :: records[j].id != view.id
    {
      if records[i].id == view.id {
        ReplacedElements(records, view, i, records[i := view]);
        return records[i := view];
      }
    }
    ReplacedElements(records, view, |records|, records + [view]);
    return records + [view];
  }

  lemma ReplacedElements(records: seq<View>, view: View, i: nat, all: seq<View>)
    requires UniqueViews(records) && i <= |records|
    requires forall j | 0 <= j < i :: records[j].id != view.id
    requires if i < |records| then records[i].id == view.id && all == records[i := view] else all == records + [view]
    ensures UniqueViews(all) && Elements(all) == Replaced(Elements(records), view)
  {
    forall v | v in all ensures v in Replaced(Elements(records), view) {
      var j :| 0 <= j < |all| && all[j] == v;
      assert j != i ==> records[j] == v && v in records;
    }
    forall v | v in Replaced(Elements(records), view) ensures v in all {
      if v == view {
        assert all[i] == view;
      } else {
        var j :| 0 <= j < |records| && records[j] == v;
        assert all[j] == v;
      }
    }
  }

  lemma TruncateIsTop(sorted: seq<View>, kept: seq<View>)
    requires NewestFirst(sorted) && UniqueViews(sorted)
    requires kept == if |sorted| > MAX_TERMINAL_RECORDS then sorted[..MAX_TERMINAL_RECORDS] else sorted
    ensures TopOf(kept, Elements(sorted), MAX_TERMINAL_RECORDS)
  {
    ElementsCount(sorted);
    forall u, v | u in Elements(sorted) && u !in kept && v in kept ensures v.updatedAt >= u.updatedAt {
      var i :| 0 <= i < |sorted| && sorted[i] == u;
      var j :| 0 <= j < |kept| && kept[j] == v;
      assert forall m | 0 <= m < |kept| :: kept[m] == sorted[m] && kept[m] != u;
    }
  }

  // ----- every sequence of appends

  /** The summary is at least as recent as those it replaces. */
  ghost predicate NotNewer(all: set<View>, v: View) {
    forall u | u in all && u.id == v.id :: u.updatedAt <= v.updatedAt
  }

  lemma ReplacedCount(all: set<View>, v: View)
    requires UniqueIn(all)
    ensures |all| <= |Replaced(all, v)| <= |all| + 1
  {
    var others := set u | u in all && u.id != v.id;
    if w :| w in all && w.id == v.id {
      assert all == others + {w};
    } else {
      assert all == others;
    }
  }

  /** When a full index takes a new summary in, it drops one. */
  lemma Dropped(kept: seq<View>, kept': seq<View>, v: View, k: nat) returns (y: View)
    requires UniqueViews(kept) && UniqueViews(kept') && |kept| == k && |kept'| <= k
    requires v in kept' && v !in kept
    ensures y in kept && y !in kept'
  {
    if forall y | y in kept :: y in kept' {
      ElementsCount(kept);
      ElementsCount(kept');
      SubsetCount(Elements(kept) + {v}, Elements(kept'));
      assert false;
    }
    y :| y in kept && y !in kept';
  }

  /** Streaming: taking a newest k and replacing or adding one summary gives a newest k of everything
      with that summary replaced or added. */
  lemma ReplacingStep(kept: seq<View>, all: set<View>, v: View, kept': seq<View>, k: nat)
    requires TopOf(kept, all, k) && UniqueIn(all) && NotNewer(all, v)
    requires TopOf(kept', Replaced(Elements(kept), v), k)
    ensures TopOf(kept', Replaced(all, v), k)
  {
    ElementsCount(kept);
    SubsetCount(Elements(kept), all);
    ReplacedCount(all, v);
    ReplacedCount(Elements(kept), v);
    forall x, u | x in Replaced(all, v) && x !in kept' && u in kept' ensures u.updatedAt >= x.updatedAt {
      if x !in Replaced(Elements(kept), v) {
        LeftOut(kept, all, v, kept', k, x, u);
      }
    }
  }

  lemma LeftOut(kept: seq<View>, all: set<View>, v: View, kept': seq<View>, k: nat, x: View, u: View)
    requires TopOf(kept, all, k) && NotNewer(all, v) && TopOf(kept', Replaced(Elements(kept), v), k)
    requires x in all && x !in kept && u in kept'
    ensures u.updatedAt >= x.updatedAt
  {
    if u !in kept {
      assert u in Elements(kept') && u !in Elements(kept);
      assert u == v;
      if w :| w in kept && w.id == v.id {
        assert v.updatedAt >= w.updatedAt >= x.updatedAt;
      } else {
        ElementsCount(kept);
        SubsetCount(Elements(kept), all);
        var y := Dropped(kept, kept', v, k);
        assert v.updatedAt >= y.updatedAt >= x.updatedAt;
      }
    }
  }

  /** The indexes after each of a sequence of cleanups, from an empty one. */
  ghost predicate IndexRun(views: seq<View>, indexes: seq<seq<View>>) {
    && |indexes| == |views| + 1 && indexes[0] == []
    && forall i | 0 <= i < |views| ::
         TopOf(indexes[i + 1], Replaced(Elements(indexes[i]), views[i]), MAX_TERMINAL_RECORDS)
  }

  /** After any sequence of cleanups of distinct tasks the index holds the newest twenty summaries ever
      cleaned, up to ties: the stream never loses what a single batch would have kept. */
  lemma {:induction false} StreamEqualsBatch(views: seq<View>, indexes: seq<seq<View>>)
    requires IndexRun(views, indexes) && UniqueViews(views)
    ensures TopOf(indexes[|views|], Elements(views), 20)
  {
    if views != [] {
      var n := |views| - 1;
      var past, v := views[..n], views[n];
      StreamEqualsBatch(past, indexes[..|indexes| - 1]);
      assert views == past + [v];
      assert Elements(views) == Elements(past) + {v};
      ElementsUnique(past);
      assert Replaced(Elements(past), v) == Elements(views) by {
        assert forall u | u in past :: u.id != v.id;
      }
      ReplacingStep(indexes[n], Elements(past), v, indexes[n + 1], MAX_TERMINAL_RECORDS);
    }
  }

  lemma ElementsUnique(vs: seq<View>)
    requires UniqueViews(vs)
    ensures UniqueIn(Elements(vs))
  {
    forall u, v | u in vs && v in vs && u.id == v.id ensures u == v {
      var i :| 0 <= i < |vs| && vs[i] == u;
      var j :| 0 <= j < |vs| && vs[j] == v;
    }
  }

  /** Repeating a cleanup after a crash is harmless: the index is again a newest twenty with the summary
      in, and the very same summaries unless the summary had already been displaced. */
  lemma AppendAgain(index: seq<View>, v: View, index': seq<View>, index'': seq<View>)
    requires UniqueViews(index)
    requires TopOf(index', Replaced(Elements(index), v), MAX_TERMINAL_RECORDS)
    requires TopOf(index'', Replaced(Elements(index'), v), MAX_TERMINAL_RECORDS)
    ensures TopOf(index'', Replaced(Elements(index), v), MAX_TERMINAL_RECORDS)
    ensures v in index' ==> Elements(index'') == Elements(index')
  {
    var all := Replaced(Elements(index), v);
    ElementsUnique(index);
    assert Replaced(all, v) == all;
    ReplacingStep(index', all, v, index'', MAX_TERMINAL_RECORDS);
    if v in index' {
      ElementsUnique(index');
      assert Replaced(Elements(index'), v) == Elements(index');
      ElementsCount(index');
      ElementsCount(index'');
      SubsetCount(Elements(index''), Elements(index'));
    }
  }

  /** The index after appending these summaries one by one. */
  ghost predicate Appended(before: seq<View>, views: seq<View>, after: seq<View>)
    decreases |views|
  {
    if views == [] then after == before
    else
      exists mid ::
        && Appended(before, views[..|views| - 1], mid)
        && TopOf(after, Replaced(Elements(mid), views[|views| - 1]), MAX_TERMINAL_RECORDS)
  }

  lemma AppendOne(before: seq<View>, views: seq<View>, mid: seq<View>, v: View, after: seq<View>)
    requires Appended(before, views, mid) && TopOf(after, Replaced(Elements(mid), v), MAX_TERMINAL_RECORDS)
    ensures Appended(before, views + [v], after)
  {
    assert (views + [v])[..|views|] == views;
  }

  /** Nothing else gets into the index. */
  lemma {:induction false} AppendedWithin(before: seq<View>, views: seq<View>, after: seq<View>, u: View)
    requires Appended(before, views, after) && u in after
    ensures u in before || u in views
    decreases |views|
  {
    if views != [] {
      var n := |views| - 1;
      var mid :| Appended(before, views[..n], mid) &&
                 TopOf(after, Replaced(Elements(mid), views[n]), MAX_TERMINAL_RECORDS);
      assert u in Elements(after);
      if u != views[n] {
        AppendedWithin(before, views[..n], mid, u);
      }
    }
  }

  ghost function ReplacedAll(all: set<View>, views: seq<View>): set<View> {
    if views == [] then all else Replaced(ReplacedAll(all, views[..|views| - 1]), views[|views| - 1])
  }

  lemma {:induction false} ReplacedAllFacts(all: set<View>, views: seq<View>)
    requires UniqueIn(all) && UniqueViews(views)
    ensures UniqueIn(ReplacedAll(all, views))
    ensures forall u | u in ReplacedAll(all, views) :: u in all || u in views
    ensures forall v | v in views :: v in ReplacedAll(all, views)
  {
    if views != [] {
      ReplacedAllFacts(all, views[..|views| - 1]);
    }
  }

  /** The general form: from any index, the cleanups of distinct tasks leave a newest twenty of what was
      there with every summary of a cleaned task replaced or added. */
  lemma {:induction false} AppendedIsTop(before: seq<View>, views: seq<View>, after: seq<View>)
    requires Appended(before, views, after) && views != [] && UniqueViews(views) && UniqueViews(before)
    requires forall v | v in views :: NotNewer(Elements(before), v)
    ensures TopOf(after, ReplacedAll(Elements(before), views), MAX_TERMINAL_RECORDS)
    decreases |views|
  {
    var n := |views| - 1;
    var past, v := views[..n], views[n];
    var mid :| Appended(before, past, mid) && TopOf(after, Replaced(Elements(mid), v), MAX_TERMINAL_RECORDS);
    ElementsUnique(before);
    assert v in views;
    if n > 0 {
      AppendedIsTop(before, past, mid);
      ReplacedAllFacts(Elements(before), past);
      forall u | u in ReplacedAll(Elements(before), past) && u.id == v.id ensures u.updatedAt <= v.updatedAt {
        assert forall w | w in past :: w.id != v.id;
      }
      ReplacingStep(mid, ReplacedAll(Elements(before), past), v, after, MAX_TERMINAL_RECORDS);
    }
  }

  /** So every cleaned task's summary is retained unless twenty at least as recent ones are. */
  lemma AllRetained(before: seq<View>, views: seq<View>, after: seq<View>, v: View)
    requires Appended(before, views, after) && UniqueViews(views) && UniqueViews(before) && v in views
    requires forall w | w in views :: NotNewer(Elements(before), w)
    ensures v in after || (|after| == MAX_TERMINAL_RECORDS && forall u | u in after :: u.updatedAt >= v.updatedAt)
  {
    AppendedIsTop(before, views, after);
    ElementsUnique(before);
    ReplacedAllFacts(Elements(before), views);
    if v !in after {
      ElementsCount(after);
      SubsetCount(Elements(after), ReplacedAll(Elements(before), views));
    }
  }

  /** A summary just appended is in the index unless twenty at least as recent have displaced it. */
  lemma KeptOrDisplaced(index: seq<View>, v: View, index': seq<View>)
    requires TopOf(index', Replaced(Elements(index), v), MAX_TERMINAL_RECORDS)
    ensures v in index' || (|index'| == MAX_TERMINAL_RECORDS && forall u | u in index' :: u.updatedAt >= v.updatedAt)
  {
    if v !in index' {
      ElementsCount(index');
      SubsetCount(Elements(index'), Replaced(Elements(index), v));
    }
  }
}
