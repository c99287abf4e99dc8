/** Installing a new default configuration beside one the user may have edited: two files, two renames. */
module ConfigUpgrade {
  import opened UpgradeTask

  /** config.yml and config.yml.default. */
  datatype Files = Files(active: Option<Bytes>, baseline: Option<Bytes>)

  datatype Plan = Both | BaselineOnly | Stop

  /** Which files a run replaces: a missing config or an unmodified one gets the new default, a
      modified one or one of unknown origin is kept; a failed comparison stops the run. */
  function Decide(f: Files, comparable: bool): Plan {
    if f.active.None? then Both
    else if f.baseline.None? then BaselineOnly
    else if !comparable then Stop
    else if f.active == f.baseline then Both
    else BaselineOnly
  }

  /** The files after a run that gets as far as the given number of renames. */
  function Ran(f: Files, newDefault: Bytes, comparable: bool, renames: nat): Files {
    match Decide(f, comparable)
    case Stop => f
    case BaselineOnly => if renames == 0 then f else f.(baseline := Some(newDefault))
    case Both =>
      if renames == 0 then f
      else if renames == 1 then f.(baseline := Some(newDefault))
      else Files(Some(newDefault), Some(newDefault))
  }

  class ConfigDir {
    var active: Option<Bytes>
    var baseline: Option<Bytes>

    constructor (active: Option<Bytes>, baseline: Option<Bytes>)
      ensures State() == Files(active, baseline)
    {
      this.active, this.baseline := active, baseline;
    }

    ghost function State(): Files
      reads this
    {
      Files(active, baseline)
    }

    /** One run of the script, interrupted after at most so many renames. */
    method Install(newDefault: Option<Bytes>, comparable: bool, renames: nat) returns (ok: bool)
      modifies this
      ensures State() == if newDefault.Some? then Ran(old(State()), newDefault.value, comparable, renames)
                         else old(State())
      ensures newDefault.None? ==> !ok && active == old(active) && baseline == old(baseline)
      ensures newDefault.Some? ==>
                var replace := old(active).None? || (comparable && old(active) == old(baseline));
                var stop := old(active).Some? && old(baseline).Some? && !comparable;
                && active == (if replace && renames >= 2 then newDefault else old(active))
                && baseline == (if !stop && renames >= 1 then newDefault else old(baseline))
                && (ok <==> !stop && renames >= if replace then 2 else 1)
    {
      if newDefault.None? {
        return false;
      }
      if active.None? {
        ok := ReplaceBoth(newDefault.value, renames);
      } else if baseline.None? {
        ok := ReplaceBaseline(newDefault.value, renames);
      } else if !comparable {
        ok := false;
      } else if active == baseline {
        ok := ReplaceBoth(newDefault.value, renames);
      } else {
        ok := ReplaceBaseline(newDefault.value, renames);
      }
    }

    /** The baseline first: a run cut off between the renames leaves the active file alone. */
    method ReplaceBoth(newDefault: Bytes, renames: nat) returns (ok: bool)
      modifies this
      ensures baseline == if renames == 0 then old(baseline) else Some(newDefault)
      ensures active == if renames <= 1 then old(active) else Some(newDefault)
      ensures ok <==> renames >= 2
    {
      ok := ReplaceBaseline(newDefault, renames);
      if ok && renames >= 2 {
        active := Some(newDefault);
      } else {
        ok := false;
      }
    }

    method ReplaceBaseline(newDefault: Bytes, renames: nat) returns (ok: bool)
      modifies `baseline
      ensures baseline == if renames == 0 then old(baseline) else Some(newDefault)
      ensures ok <==> renames >= 1
    {
      ok := renames >= 1;
      if ok {
        baseline := Some(newDefault);
      }
    }
  }

  // ----- every history

  /** A run between its steps; earlier is every default installed before it started. */
  datatype Stage =
    | Idle
    | RenamingBaseline(newDefault: Bytes, both: bool, earlier: set<Bytes>)
    | RenamingActive(newDefault: Bytes, earlier: set<Bytes>)

  /** lost: the script has overwritten bytes of config.yml that no earlier run had installed. */
  datatype World = World(files: Files, installed: set<Bytes>, stage: Stage, lost: bool)

  datatype Step =
    | Edit(bytes: Option<Bytes>)
    | Begin(newDefault: Bytes, comparable: bool)
    | Rename
    | Interrupt

  /** meanwhile: the user may write config.yml while the script runs. */
  datatype Env = Env(meanwhile: bool)

  predicate Enabled(env: Env, w: World, e: Step) {
    match e
    case Edit(_) => w.stage.Idle? || env.meanwhile
    case Begin(_, _) => w.stage.Idle?
    case Rename => !w.stage.Idle?
    case Interrupt => !w.stage.Idle?
  }

  function Apply(env: Env, w: World, e: Step): World
    requires Enabled(env, w, e)
  {
    match e
    case Edit(bytes) => w.(files := w.files.(active := bytes))
    case Begin(newDefault, comparable) =>
      (match Decide(w.files, comparable)
       case Stop => w
       case BaselineOnly => w.(stage := RenamingBaseline(newDefault, false, w.installed))
       case Both => w.(stage := RenamingBaseline(newDefault, true, w.installed)))
    case Rename =>
      (match w.stage
       case RenamingBaseline(newDefault, both, earlier) =>
         World(w.files.(baseline := Some(newDefault)), w.installed + {newDefault},
               if both then RenamingActive(newDefault, earlier) else Idle, w.lost)
       case RenamingActive(newDefault, earlier) =>
         World(w.files.(active := Some(newDefault)), w.installed, Idle,
               w.lost || (w.files.active.Some? && w.files.active.value !in earlier)))
    case Interrupt => w.(stage := Idle)
  }

  predicate Possible(env: Env, w: World, history: seq<Step>)
    decreases |history|
  {
    history == [] || (Enabled(env, w, history[0]) && Possible(env, Apply(env, w, history[0]), history[1..]))
  }

  function After(env: Env, w: World, history: seq<Step>): World
    requires Possible(env, w, history)
    decreases |history|
  {
    if history == [] then w else After(env, Apply(env, w, history[0]), history[1..])
  }

  /** A directory the script has never touched, with whatever the user may have put there. */
  function Untouched(active: Option<Bytes>): World {
    World(Files(active, None), {}, Idle, false)
  }

  /** The baseline is always a default some run installed; a file about to be replaced is a default an
      earlier run installed. */
  ghost predicate Kept(w: World) {
    && !w.lost
    && (w.files.baseline.Some? ==> w.files.baseline.value in w.installed)
    && (match w.stage
        case Idle => true
        case RenamingBaseline(_, both, earlier) => earlier <= w.installed && (both ==> Replaceable(w.files, earlier))
        case RenamingActive(_, earlier) => earlier <= w.installed && Replaceable(w.files, earlier))
  }

  predicate Replaceable(f: Files, earlier: set<Bytes>) {
    f.active.Some? ==> f.active.value in earlier
  }

  lemma {:induction false} KeptRun(w: World, history: seq<Step>)
    requires Kept(w) && Possible(Env(false), w, history)
    ensures Kept(After(Env(false), w, history))
    decreases |history|
  {
    if history != [] {
      KeptRun(Apply(Env(false), w, history[0]), history[1..]);
    }
  }

  ghost predicate NeverLoses(env: Env) {
    forall active, history :: Possible(env, Untouched(active), history) ==> !After(env, Untouched(active), history).lost
  }

  /** Over every history of runs, edits, deletions and interrupts, whatever the script overwrites in
      config.yml is a default an earlier run installed, if and only if nobody writes the file while
      the script runs. */
  lemma NeverLosesIff(env: Env)
    ensures NeverLoses(env) <==> !env.meanwhile
  {
    if env.meanwhile {
      LosesEdit(env);
    } else {
      forall active, history | Possible(env, Untouched(active), history)
        ensures !After(env, Untouched(active), history).lost
      {
        KeptRun(Untouched(active), history);
      }
    }
  }

  /** The user creates config.yml after a first run has looked for it. */
  lemma LosesEdit(env: Env)
    requires env.meanwhile
    ensures var history := [Begin([1], true), Edit(Some([2])), Rename, Rename];
            Possible(env, Untouched(None), history) && After(env, Untouched(None), history).lost
  {
    var w := Untouched(None);
    var h := [Begin([1], true), Edit(Some([2])), Rename, Rename];
    var w1 := Apply(env, w, h[0]);
    var w2 := Apply(env, w1, h[1]);
    var w3 := Apply(env, w2, h[2]);
    assert h[1..][1..][1..] == [Rename] && h[1..][1..] == h[2..];
    assert Possible(env, w3, [Rename]) && After(env, w3, [Rename]).lost;
    assert Possible(env, w2, h[1..][1..]);
    assert Possible(env, w1, h[1..]);
  }

  // ----- whole runs

  /** The files after whole runs with these defaults, nobody editing in between. */
  function RanAll(f: Files, defaults: seq<Bytes>): Files {
    if defaults == [] then f else Ran(RanAll(f, defaults[..|defaults| - 1]), defaults[|defaults| - 1], true, 2)
  }

  /** From a fresh install on, without edits or interrupts, both files are the newest default. */
  lemma {:induction false} FreshTracksDefault(defaults: seq<Bytes>)
    requires defaults != []
    ensures var newest := Some(defaults[|defaults| - 1]);
            RanAll(Files(None, None), defaults) == Files(newest, newest)
  {
    if |defaults| > 1 {
      FreshTracksDefault(defaults[..|defaults| - 1]);
    }
  }

  /** An upgrade cut off between its renames leaves the old default looking like a user's edit: it is
      kept by every later run, until some run's default is that very file again. */
  lemma {:induction false} InterruptFreezes(stale: Bytes, newDefault: Bytes, defaults: seq<Bytes>)
    requires stale != newDefault && stale !in defaults
    ensures var cut := Ran(Files(Some(stale), Some(stale)), newDefault, true, 1);
            var newest := if defaults == [] then newDefault else defaults[|defaults| - 1];
            RanAll(cut, defaults) == Files(Some(stale), Some(newest))
  {
    if defaults != [] {
      var n := |defaults| - 1;
      assert defaults[n] in defaults;
      assert forall d | d in defaults[..n] :: d in defaults;
      InterruptFreezes(stale, newDefault, defaults[..n]);
      assert n > 0 ==> defaults[..n][n - 1] in defaults;
    }
  }

  /** A fresh install cut off anywhere is completed by the next run. */
  lemma FreshRecovers(first: Bytes, renames: nat, next: Bytes)
    requires renames <= 1
    ensures Ran(Ran(Files(None, None), first, true, renames), next, true, 2) == Files(Some(next), Some(next))
  {
  }

  /** The step-by-step run with nobody editing leaves exactly the files of the whole run. */
  lemma RunIsSteps(w: World, newDefault: Bytes, comparable: bool, renames: nat)
    requires w.stage.Idle? && renames <= 2
    requires renames == 2 ==> Decide(w.files, comparable).Both?
    requires Decide(w.files, comparable).Stop? ==> renames == 0
    ensures var history := [Begin(newDefault, comparable)] + seq(renames, _ => Rename);
            && Possible(Env(false), w, history)
            && After(Env(false), w, history).files == Ran(w.files, newDefault, comparable, renames)
  {
    var steps := seq(renames, _ => Rename);
    var history := [Begin(newDefault, comparable)] + steps;
    assert history[1..] == steps;
    var w1 := Apply(Env(false), w, history[0]);
    if renames == 0 {
      assert steps == [];
    } else if renames == 1 {
      assert steps == [Rename] && steps[1..] == [];
      assert After(Env(false), w1, steps) == Apply(Env(false), w1, Rename);
    } else {
      assert steps == [Rename, Rename] && steps[1..] == [Rename];
      var w2 := Apply(Env(false), w1, Rename);
      assert Possible(Env(false), w2, [Rename]);
      assert After(Env(false), w2, [Rename]) == Apply(Env(false), w2, Rename);
    }
  }
}
