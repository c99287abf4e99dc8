/** Sorting a slice by an integer key, and what sorting leaves alone. */
module SeqFacts {
  predicate Ordered<T>(s: seq<T>, key: T -> int) {
    forall i, j | 0 <= i < j < |s| :: key(s[i]) <= key(s[j])
  }

  predicate Distinct<T, K(==)>(s: seq<T>, id: T -> K) {
    forall i, j | 0 <= i < j < |s| :: id(s[i]) != id(s[j])
  }

  /** Sorts by key; what it does with equal keys is its own business. */
  method Sort<T>(s: seq<T>, key: T -> int) returns (sorted: seq<T>)
    ensures Ordered(sorted, key) && multiset(sorted) == multiset(s)
  {
    sorted := [];
    for k := 0 to |s|
      invariant Ordered(sorted, key) && multiset(sorted) == multiset(s[..k])
    {
      sorted := Insert(sorted, s[k], key);
      assert s[..k + 1] == s[..k] + [s[k]];
    }
    assert s[..|s|] == s;
  }

  method Insert<T>(s: seq<T>, t: T, key: T -> int) returns (r: seq<T>)
    requires Ordered(s, key)
    ensures Ordered(r, key) && multiset(r) == multiset(s) + multiset{t}
  {
    var p := |s|;
    while p > 0 && key(s[p - 1]) > key(t)
      invariant 0 <= p <= |s|
      invariant forall i | p <= i < |s| :: key(s[i]) > key(t)
    {
      p := p - 1;
    }
    InsertOrdered(s, p, t, key);
    InsertSame(s, p, t);
    r := s[..p] + [t] + s[p..];
  }

  lemma InsertOrdered<T>(s: seq<T>, p: nat, t: T, key: T -> int)
    requires Ordered(s, key) && p <= |s|
    requires p > 0 ==> key(s[p - 1]) <= key(t)
    requires forall i | p <= i < |s| :: key(s[i]) > key(t)
    ensures Ordered(s[..p] + [t] + s[p..], key)
  {
  }

  lemma InsertSame<T>(s: seq<T>, p: nat, t: T)
    requires p <= |s|
    ensures multiset(s[..p] + [t] + s[p..]) == multiset(s) + multiset{t}
  {
    assert s == s[..p] + s[p..];
  }

  lemma SameMembers<T>(a: seq<T>, b: seq<T>)
    requires multiset(a) == multiset(b)
    ensures |a| == |b| && forall t :: t in a <==> t in b
  {
    assert |a| == |multiset(a)| && |b| == |multiset(b)|;
    forall t ensures t in a <==> t in b {
      assert t in a <==> t in multiset(a);
      assert t in b <==> t in multiset(b);
    }
  }

  /** Reordering keeps distinct elements distinct. */
  lemma SortKeeps<T, K>(a: seq<T>, b: seq<T>, id: T -> K)
    requires multiset(a) == multiset(b) && Distinct(a, id)
    ensures Distinct(b, id) && |a| == |b| && forall t :: t in a <==> t in b
  {
    SameMembers(a, b);
    forall i, j | 0 <= i < j < |b| ensures id(b[i]) != id(b[j]) {
      if id(b[i]) == id(b[j]) {
        assert b[i] in a && b[j] in a;
        var p :| 0 <= p < |a| && a[p] == b[i];
        var q :| 0 <= q < |a| && a[q] == b[j];
        Single(a, p, id);
        Repeated(b, i, j);
        assert false;
      }
    }
  }

  lemma Repeated<T>(b: seq<T>, i: nat, j: nat)
    requires i < j < |b| && b[i] == b[j]
    ensures multiset(b)[b[i]] >= 2
  {
    assert b == b[..j] + b[j..];
    assert b[i] in multiset(b[..j]) && b[j] in multiset(b[j..]);
  }

  lemma Single<T, K>(a: seq<T>, p: nat, id: T -> K)
    requires p < |a| && Distinct(a, id)
    ensures multiset(a)[a[p]] == 1
  {
    assert a == a[..p] + [a[p]] + a[p + 1..];
    assert a[p] !in multiset(a[..p]) && a[p] !in multiset(a[p + 1..]);
  }

  lemma FirstIsMember<T>(s: seq<T>)
    ensures s == [] || s[0] in s
  {
  }
}
