/** Overlapping refreshes of the hub: what they keep, and exactly when the hub tracks its source. */
module HubOverlap {
  import opened UpgradeTask
  import opened ConfigHub

  /** A refresh between its steps: it has loaded a snapshot, found it new, applied it, remembered it. */
  datatype Stage = Loaded(snap: Snapshot) | Checked(snap: Snapshot) | Applied(snap: Snapshot) | Remembered

  /** The cache as the refreshes see it: where each of its three parts comes from, the remembered
      snapshot, the count of accepted snapshots, and the refreshes under way. */
  datatype Cache = Cache(config: Option<Snapshot>, policies: Option<Snapshot>, keys: Option<Snapshot>,
                         last: Option<Snapshot>, version: nat, active: map<nat, Stage>)

  const EMPTY: Cache := Cache(None, None, None, None, 0, map[])

  datatype Step = Load(i: nat, snap: Snapshot) | Check(i: nat) | Apply(i: nat) | Remember(i: nat) | Count(i: nat)

  /** overlap: a refresh may start while another is under way. */
  datatype Env = Env(overlap: bool)

  predicate Enabled(env: Env, c: Cache, e: Step) {
    match e
    case Load(i, _) => i !in c.active && (env.overlap || c.active == map[])
    case Check(i) => i in c.active && c.active[i].Loaded?
    case Apply(i) => i in c.active && c.active[i].Checked?
    case Remember(i) => i in c.active && c.active[i].Applied?
    case Count(i) => i in c.active && c.active[i].Remembered?
  }

  function Step1<C, P>(codec: Codec<C, P>, env: Env, c: Cache, e: Step): Cache
    requires Enabled(env, c, e)
  {
    match e
    case Load(i, snap) => c.(active := c.active[i := Loaded(snap)])
    case Check(i) =>
      var snap := c.active[i].snap;
      if c.last == Some(snap) then c.(active := c.active - {i}) else c.(active := c.active[i := Checked(snap)])
    case Apply(i) =>
      var snap := c.active[i].snap;
      if !Decodes(codec, snap) then c.(active := c.active - {i})
      else c.(config := Some(snap), policies := Some(snap), keys := Some(snap), active := c.active[i := Applied(snap)])
    case Remember(i) => c.(last := Some(c.active[i].snap), active := c.active[i := Remembered])
    case Count(i) => c.(version := c.version + 1, active := c.active - {i})
  }

  predicate Possible<C, P>(codec: Codec<C, P>, env: Env, c: Cache, run: seq<Step>)
    decreases |run|
  {
    run == [] || (Enabled(env, c, run[0]) && Possible(codec, env, Step1(codec, env, c, run[0]), run[1..]))
  }

  function After<C, P>(codec: Codec<C, P>, env: Env, c: Cache, run: seq<Step>): Cache
    requires Possible(codec, env, c, run)
    decreases |run|
  {
    if run == [] then c else After(codec, env, Step1(codec, env, c, run[0]), run[1..])
  }

  /** The parts come from one snapshot; it, the remembered one and those applied decode; and all are
      among those offered. */
  ghost predicate Sound<C, P>(codec: Codec<C, P>, offered: set<Snapshot>, c: Cache) {
    && c.config == c.policies == c.keys
    && (c.keys.Some? ==> c.keys.value in offered && Decodes(codec, c.keys.value))
    && (c.last.Some? ==> c.last.value in offered && Decodes(codec, c.last.value))
    && forall i | i in c.active && !c.active[i].Remembered? ::
         c.active[i].snap in offered && (c.active[i].Applied? ==> Decodes(codec, c.active[i].snap))
  }

  function Offered(run: seq<Step>): set<Snapshot> {
    set k | 0 <= k < |run| && run[k].Load? :: run[k].snap
  }

  lemma SoundStep<C, P>(codec: Codec<C, P>, env: Env, offered: set<Snapshot>, c: Cache, e: Step)
    requires Sound(codec, offered, c) && Enabled(env, c, e) && (e.Load? ==> e.snap in offered)
    ensures Sound(codec, offered, Step1(codec, env, c, e))
  {
  }

  lemma {:induction false} SoundRun<C, P>(codec: Codec<C, P>, env: Env, offered: set<Snapshot>, c: Cache,
                                          run: seq<Step>)
    requires Sound(codec, offered, c) && Possible(codec, env, c, run) && Offered(run) <= offered
    ensures Sound(codec, offered, After(codec, env, c, run))
    decreases |run|
  {
    if run != [] {
      assert run[0].Load? ==> run[0].snap in Offered(run);
      SoundStep(codec, env, offered, c, run[0]);
      forall snap | snap in Offered(run[1..]) ensures snap in offered {
        var k :| 0 <= k < |run| - 1 && run[1..][k].Load? && run[1..][k].snap == snap;
        assert run[k + 1].snap in Offered(run);
      }
      SoundRun(codec, env, offered, Step1(codec, env, c, run[0]), run[1..]);
    }
  }

  ghost predicate WasLoaded(run: seq<Step>, snap: Snapshot) {
    exists k :: 0 <= k < |run| && run[k].Load? && run[k].snap == snap
  }

  /** However refreshes overlap, the three parts always come from one snapshot, which some refresh has
      loaded and which decodes in all its parts; and so does the remembered one. */
  lemma PartsTogether<C, P>(codec: Codec<C, P>, env: Env, run: seq<Step>)
    requires Possible(codec, env, EMPTY, run)
    ensures var c := After(codec, env, EMPTY, run);
            && c.config == c.policies == c.keys
            && (c.keys.Some? ==> Decodes(codec, c.keys.value) && WasLoaded(run, c.keys.value))
            && (c.last.Some? ==> Decodes(codec, c.last.value) && WasLoaded(run, c.last.value))
  {
    SoundRun(codec, env, Offered(run), EMPTY, run);
  }

  /** At rest the cache holds what it remembers; during one refresh, what that refresh says. */
  ghost predicate Tracks(c: Cache) {
    && (forall i, j | i in c.active && j in c.active :: i == j)
    && (forall i | i in c.active && c.active[i].Applied? :: c.keys == Some(c.active[i].snap))
    && ((forall i | i in c.active :: !c.active[i].Applied?) ==> c.keys == c.last)
  }

  lemma TracksStep<C, P>(codec: Codec<C, P>, c: Cache, e: Step)
    requires Tracks(c) && Enabled(Env(false), c, e)
    ensures Tracks(Step1(codec, Env(false), c, e))
  {
    var c' := Step1(codec, Env(false), c, e);
    if !e.Load? {
      assert forall i :: i in c.active ==> i == e.i;
      if e.i in c'.active {
        assert c'.active[e.i].Applied? <==> e.Apply?;
      }
    }
  }

  lemma {:induction false} TracksRun<C, P>(codec: Codec<C, P>, c: Cache, run: seq<Step>)
    requires Tracks(c) && Possible(codec, Env(false), c, run)
    ensures Tracks(After(codec, Env(false), c, run))
    decreases |run|
  {
    if run != [] {
      TracksStep(codec, c, run[0]);
      TracksRun(codec, Step1(codec, Env(false), c, run[0]), run[1..]);
    }
  }

  /** Two refreshes load an old and a new snapshot; the old one is applied last but remembered first. */
  function Crossing(a: Snapshot, b: Snapshot): seq<Step> {
    [Load(0, a), Load(1, b), Check(0), Check(1), Apply(1), Apply(0), Remember(0), Remember(1), Count(0), Count(1)]
  }

  lemma Crossed<C, P>(codec: Codec<C, P>, a: Snapshot, b: Snapshot)
    requires a != b && Decodes(codec, a) && Decodes(codec, b)
    ensures Possible(codec, Env(true), EMPTY, Crossing(a, b))
    ensures After(codec, Env(true), EMPTY, Crossing(a, b)) == Cache(Some(a), Some(a), Some(a), Some(b), 2, map[])
    ensures Stale(After(codec, Env(true), EMPTY, Crossing(a, b)), a, b)
  {
    var run := Crossing(a, b);
    var c0 := EMPTY;
    var c2 := c0.(active := map[0 := Loaded(a), 1 := Loaded(b)]);
    var c4 := c2.(active := map[0 := Checked(a), 1 := Checked(b)]);
    var c6 := Cache(Some(a), Some(a), Some(a), None, 0, map[0 := Applied(a), 1 := Applied(b)]);
    var c8 := c6.(last := Some(b), active := map[0 := Remembered, 1 := Remembered]);
    var c10 := Cache(Some(a), Some(a), Some(a), Some(b), 2, map[]);
    Two(codec, c8, run[8..], c10);
    Two(codec, c6, run[6..], c8);
    Two(codec, c4, run[4..], c6);
    Two(codec, c2, run[2..], c4);
    Two(codec, c0, run, c2);
  }

  /** The first two steps of a run, then the rest. */
  lemma Two<C, P>(codec: Codec<C, P>, c: Cache, run: seq<Step>, c2: Cache)
    requires |run| >= 2 && Enabled(Env(true), c, run[0])
    requires Enabled(Env(true), Step1(codec, Env(true), c, run[0]), run[1])
    requires Step1(codec, Env(true), Step1(codec, Env(true), c, run[0]), run[1]) == c2
    requires Possible(codec, Env(true), c2, run[2..])
    ensures Possible(codec, Env(true), c, run)
    ensures After(codec, Env(true), c, run) == After(codec, Env(true), c2, run[2..])
  {
    assert run[1..][1..] == run[2..];
  }

  ghost predicate AlwaysTracks<C, P(!new)>(codec: Codec<C, P>, env: Env) {
    forall run :: Possible(codec, env, EMPTY, run) ==>
      var c := After(codec, env, EMPTY, run); c.active == map[] ==> c.keys == c.last
  }

  /** The hub at rest holds exactly the snapshot it remembers, after every run, if and only if
      refreshes never overlap. */
  lemma TracksIff<C, P(!new)>(codec: Codec<C, P>, env: Env, a: Snapshot, b: Snapshot)
    requires a != b && Decodes(codec, a) && Decodes(codec, b)
    ensures AlwaysTracks(codec, env) <==> !env.overlap
  {
    if env.overlap {
      Crossed(codec, a, b);
    } else {
      forall run | Possible(codec, env, EMPTY, run)
        ensures var c := After(codec, env, EMPTY, run); c.active == map[] ==> c.keys == c.last
      {
        TracksRun(codec, EMPTY, run);
      }
    }
  }

  ghost predicate Stale(c: Cache, a: Snapshot, b: Snapshot) {
    && c.config == c.policies == c.keys == Some(a) && c.last == Some(b)
    && forall i | i in c.active :: c.active[i] == Loaded(b)
  }

  predicate Loads(run: seq<Step>, b: Snapshot) {
    forall k | 0 <= k < |run| && run[k].Load? :: run[k].snap == b
  }

  /** Having crossed, the hub stays stale: as long as the source keeps offering the snapshot it
      remembers, no number of refreshes brings that snapshot in. */
  lemma {:induction false} StaysStale<C, P>(codec: Codec<C, P>, env: Env, c: Cache, a: Snapshot, b: Snapshot,
                                            run: seq<Step>)
    requires Stale(c, a, b) && Possible(codec, env, c, run) && Loads(run, b)
    ensures After(codec, env, c, run).keys == Some(a)
    decreases |run|
  {
    if run != [] {
      StaysStale(codec, env, Step1(codec, env, c, run[0]), a, b, run[1..]);
    }
  }
}
