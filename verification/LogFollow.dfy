/** Following a log across growth, rotation, truncation and removal, one tick at a time. */
module LogFollow {
  import opened UpgradeTask
  import opened LogTail

  type Inode = nat

  /** What one tick sees: opening the path, its identity and size, opening it again after a rotation,
      and the content of the open handle when it is drained. */
  datatype Stat = Missing | StatFailed | Stat(inode: Inode, size: nat)
  datatype Sight = Sight(openedFirst: Option<Inode>, stat: Stat, openedNext: Option<Inode>, data: Bytes)

  datatype Follower = Follower(file: Option<Inode>, offset: nat)

  /** The handle and offset a tick drains from. */
  function Attach(f: Follower, s: Sight): Follower {
    var f := if f.file.None? && s.openedFirst.Some? then Follower(s.openedFirst, 0) else f;
    if f.file.None? then f
    else match s.stat
      case Missing => f.(file := None)
      case StatFailed => f
      case Stat(inode, size) =>
        if inode != f.file.value then
          (if s.openedNext.Some? then Follower(s.openedNext, 0) else f.(file := None))
        else if size < f.offset then f.(offset := 0)
        else f
  }

  /** The pieces a drain emits: one per newline, and what is left of an unfinished line. */
  function Pieces(data: Bytes, i: nat): seq<Bytes>
    decreases |data| - i
  {
    if i >= |data| then []
    else [data[i..NextLine(data, i)]] + Pieces(data, NextLine(data, i))
  }

  function Drained(f: Follower, data: Bytes): Follower {
    if f.file.Some? && f.offset < |data| then f.(offset := |data|) else f
  }

  /** What a tick emits, before trimming line ends. */
  function Emitted(f: Follower, s: Sight): seq<Bytes> {
    var f := Attach(f, s);
    if f.file.None? then [] else Pieces(s.data, f.offset)
  }

  function Tick(f: Follower, s: Sight): Follower {
    Drained(Attach(f, s), s.data)
  }

  function Flatten(pieces: seq<Bytes>): Bytes {
    if pieces == [] then [] else pieces[0] + Flatten(pieces[1..])
  }

  lemma {:induction false} FlattenCat(a: seq<Bytes>, b: seq<Bytes>)
    ensures Flatten(a + b) == Flatten(a) + Flatten(b)
  {
    if a == [] {
      assert a + b == b;
    } else {
      assert (a + b)[1..] == a[1..] + b;
      FlattenCat(a[1..], b);
    }
  }

  /** A drain reads every byte from its offset on, once. */
  lemma {:induction false} PiecesTile(data: Bytes, i: nat)
    requires i <= |data|
    ensures Flatten(Pieces(data, i)) == data[i..]
    decreases |data| - i
  {
    if i < |data| {
      PiecesTile(data, NextLine(data, i));
      assert data[i..] == data[i..NextLine(data, i)] + data[NextLine(data, i)..];
    }
  }

  /** Nothing but one line: a newline can only be its last byte. */
  predicate OneLineOnly(piece: Bytes) { piece != [] && NEWLINE !in piece[..|piece| - 1] }

  predicate Ended(piece: Bytes) { piece != [] && piece[|piece| - 1] == NEWLINE }

  /** Every piece is a line with its newline, but for a last one that has none yet. */
  lemma {:induction false} PiecesAreLines(data: Bytes, i: nat)
    ensures forall k | 0 <= k < |Pieces(data, i)| :: OneLineOnly(Pieces(data, i)[k])
    ensures forall k | 0 <= k < |Pieces(data, i)| - 1 :: Ended(Pieces(data, i)[k])
    decreases |data| - i
  {
    if i < |data| {
      var head, tail := data[i..NextLine(data, i)], Pieces(data, NextLine(data, i));
      PiecesAreLines(data, NextLine(data, i));
      OneLine(data, i);
      OneMorePiece(head, tail);
      assert Pieces(data, i) == [head] + tail;
    }
  }

  lemma OneMorePiece(head: Bytes, tail: seq<Bytes>)
    requires OneLineOnly(head) && (tail != [] ==> Ended(head))
    requires forall k | 0 <= k < |tail| :: OneLineOnly(tail[k])
    requires forall k | 0 <= k < |tail| - 1 :: Ended(tail[k])
    ensures forall k | 0 <= k < |[head] + tail| :: OneLineOnly(([head] + tail)[k])
    ensures forall k | 0 <= k < |[head] + tail| - 1 :: Ended(([head] + tail)[k])
  {
  }

  lemma OneLine(data: Bytes, i: nat)
    requires i < |data|
    ensures OneLineOnly(data[i..NextLine(data, i)])
    ensures NextLine(data, i) < |data| ==> Ended(data[i..NextLine(data, i)])
  {
    var k := Newline(data, i);
    var line := data[i..k];
    if k < |data| {
      assert data[i..k + 1] == line + [NEWLINE];
      WithNewline(line);
    } else {
      WithoutNewline(line);
    }
  }

  lemma WithNewline(line: Bytes)
    requires NEWLINE !in line
    ensures OneLineOnly(line + [NEWLINE]) && Ended(line + [NEWLINE])
  {
    assert (line + [NEWLINE])[..|line|] == line;
  }

  lemma WithoutNewline(line: Bytes)
    requires NEWLINE !in line && line != []
    ensures OneLineOnly(line)
  {
  }

  // ----- as the program runs it

  class FileState {
    var file: Option<Inode>
    var offset: nat

    ghost function State(): Follower
      reads this
    {
      Follower(file, offset)
    }

    /** Opens at the end: only what is written later is followed. */
    constructor (inode: Inode, size: nat)
      ensures State() == Follower(Some(inode), size)
    {
      file, offset := Some(inode), size;
    }

    /** Finds the file to read and where to go on. */
    method FindFile(s: Sight)
      modifies this
      ensures State() == Attach(old(State()), s)
    {
      if file.None? {
        if s.openedFirst.None? {
          return;
        }
        file, offset := s.openedFirst, 0;
      }
      match s.stat {
        case Missing =>
          file := None;
        case StatFailed =>
        case Stat(inode, size) =>
          if inode != file.value {
            if s.openedNext.Some? {
              file, offset := s.openedNext, 0;
            } else {
              file := None;
            }
          } else if size < offset {
            offset := 0;
          }
      }
    }

    /** Emits every piece up to the end of what is there, counting the bytes read. */
    method Drain(data: Bytes) returns (pieces: seq<Bytes>)
      requires file.Some?
      modifies `offset
      ensures pieces == Pieces(data, old(offset)) && State() == Drained(old(State()), data)
    {
      pieces := [];
      while offset < |data|
        invariant pieces + Pieces(data, offset) == Pieces(data, old(offset))
        invariant offset == old(offset) || old(offset) < offset <= |data|
        decreases |data| - offset
      {
        var line := data[offset..NextLine(data, offset)];
        pieces := pieces + [line];
        offset := offset + |line|;
      }
    }

    method OnTick(s: Sight) returns (pieces: seq<Bytes>)
      modifies this
      ensures State() == Tick(old(State()), s) && pieces == Emitted(old(State()), s)
    {
      FindFile(s);
      pieces := [];
      if file.Some? {
        pieces := Drain(s.data);
      }
    }
  }

  // ----- whole runs

  function AllEmitted(f: Follower, sights: seq<Sight>): seq<Bytes>
    decreases |sights|
  {
    if sights == [] then [] else Emitted(f, sights[0]) + AllEmitted(Tick(f, sights[0]), sights[1..])
  }

  function AfterAll(f: Follower, sights: seq<Sight>): Follower
    decreases |sights|
  {
    if sights == [] then f else AfterAll(Tick(f, sights[0]), sights[1..])
  }

  /** One incarnation that only grows, from a content already drained: each tick sees the same file,
      no smaller than before, and drains at least what was there. */
  predicate Grows(inode: Inode, before: Bytes, sights: seq<Sight>)
    decreases |sights|
  {
    sights == [] ||
    (var s := sights[0];
     && (s.stat.StatFailed? || (s.stat.Stat? && s.stat.inode == inode && |before| <= s.stat.size))
     && before <= s.data
     && Grows(inode, s.data, sights[1..]))
  }

  function LastData(before: Bytes, sights: seq<Sight>): Bytes {
    if sights == [] then before else sights[|sights| - 1].data
  }

  lemma GrowthTick(inode: Inode, before: Bytes, s: Sight, later: seq<Sight>)
    requires Grows(inode, before, [s] + later)
    ensures var f := Follower(Some(inode), |before|);
            Tick(f, s) == Follower(Some(inode), |s.data|) && Flatten(Emitted(f, s)) == s.data[|before|..]
  {
    assert Attach(Follower(Some(inode), |before|), s) == Follower(Some(inode), |before|);
    PiecesTile(s.data, |before|);
  }

  lemma Joined(before: Bytes, middle: Bytes, last: Bytes, begun: nat)
    requires begun <= |before| && before <= middle <= last
    ensures before[begun..] + middle[|before|..] + last[|middle|..] == last[begun..]
  {
    assert middle == before + middle[|before|..] && last == middle + last[|middle|..];
  }

  /** While the file only grows, the follower loses and repeats nothing: over all ticks together it
      emits exactly the bytes from where it began to the end of what the last tick saw. */
  lemma {:induction false} FollowsGrowth(inode: Inode, before: Bytes, sights: seq<Sight>, f: Follower)
    requires Grows(inode, before, sights) && f == Follower(Some(inode), |before|)
    ensures before <= LastData(before, sights)
    ensures AfterAll(f, sights) == Follower(Some(inode), |LastData(before, sights)|)
    ensures Flatten(AllEmitted(f, sights)) == LastData(before, sights)[|before|..]
    decreases |sights|
  {
    if sights != [] {
      var s, later := sights[0], sights[1..];
      assert sights == [s] + later;
      GrowthTick(inode, before, s, later);
      FollowsGrowth(inode, s.data, later, Tick(f, s));
      FirstTick(f, s, later, before);
    }
  }

  lemma FirstTick(f: Follower, s: Sight, later: seq<Sight>, before: Bytes)
    requires before <= s.data <= LastData(s.data, later)
    requires Flatten(Emitted(f, s)) == s.data[|before|..]
    requires Flatten(AllEmitted(Tick(f, s), later)) == LastData(s.data, later)[|s.data|..]
    ensures Flatten(AllEmitted(f, [s] + later)) == LastData(s.data, later)[|before|..]
  {
    assert ([s] + later)[0] == s && ([s] + later)[1..] == later;
    FlattenCat(Emitted(f, s), AllEmitted(Tick(f, s), later));
    Joined(before, s.data, LastData(s.data, later), |before|);
  }

  /** A drain that started at i cuts no line in two: it read nothing, or the file grew no more, or what
      it read ends a line. */
  predicate CutsCleanly(data: Bytes, i: nat, last: Bytes)
    requires i <= |data|
  {
    i == |data| || |data| == |last| || data[|data| - 1] == NEWLINE
  }

  lemma PrefixNewline(data: Bytes, last: Bytes, i: nat)
    requires data <= last && i <= |data|
    ensures if Newline(data, i) < |data| then Newline(last, i) == Newline(data, i) else Newline(last, i) >= |data|
    decreases |data| - i
  {
    if i < |data| && data[i] != NEWLINE {
      PrefixNewline(data, last, i + 1);
    }
  }

  /** Only the pieces of a clean cut, followed by those of the rest, are the pieces of the whole. */
  lemma {:induction false} PiecesSplitIff(data: Bytes, last: Bytes, i: nat, rest: seq<Bytes>)
    requires data <= last && i <= |data|
    ensures Pieces(data, i) + rest == Pieces(last, i) <==> CutsCleanly(data, i, last) && rest == Pieces(last, |data|)
    decreases |data| - i
  {
    if i == |data| {
      assert Pieces(data, i) + rest == rest;
    } else {
      var k := NextLine(data, i);
      PrefixNewline(data, last, i);
      SameHead(data[i..k], Pieces(data, k), rest, last[i..NextLine(last, i)], Pieces(last, NextLine(last, i)));
      if Newline(data, i) < |data| {
        PiecesSplitIff(data, last, k, rest);
      } else {
        LastPiece(data, last, i, rest);
      }
    }
  }

  /** A piece without its newline is the line of the whole only if nothing follows it. */
  lemma LastPiece(data: Bytes, last: Bytes, i: nat, rest: seq<Bytes>)
    requires data <= last && i < |data| && Newline(data, i) == |data| <= Newline(last, i)
    ensures |data| == |last| || data[|data| - 1] != NEWLINE
    ensures |data| < |last| ==> data[i..NextLine(data, i)] != last[i..NextLine(last, i)]
    ensures |data| == |last| ==> data[i..NextLine(data, i)] == last[i..NextLine(last, i)]
    ensures Pieces(data, NextLine(data, i)) == []
  {
    assert data[|data| - 1] in data[i..Newline(data, i)];
    assert |data| < |last| ==> |last[i..NextLine(last, i)]| > |data[i..NextLine(data, i)]|;
  }

  lemma SameHead(head: Bytes, tail: seq<Bytes>, rest: seq<Bytes>, head': Bytes, tail': seq<Bytes>)
    ensures [head] + tail + rest == [head'] + tail' <==> head == head' && tail + rest == tail'
  {
    var all, all' := [head] + tail + rest, [head'] + tail';
    assert all[0] == head && all[1..] == tail + rest && all'[0] == head' && all'[1..] == tail';
    assert all == [all[0]] + all[1..];
  }

  /** Every drain of a run, begun at this offset, cuts cleanly. */
  predicate AllCutCleanly(begun: nat, sights: seq<Sight>, last: Bytes)
    decreases |sights|
  {
    sights == [] ||
    (begun <= |sights[0].data| && CutsCleanly(sights[0].data, begun, last) &&
     AllCutCleanly(|sights[0].data|, sights[1..], last))
  }

  /** The pieces emitted over all ticks are the lines of the grown file if and only if no tick drained
      an unfinished line that was continued later: such a line comes out in two. */
  lemma {:induction false} LinesWholeIff(inode: Inode, before: Bytes, sights: seq<Sight>, f: Follower)
    requires Grows(inode, before, sights) && f == Follower(Some(inode), |before|)
    ensures var last := LastData(before, sights);
            AllEmitted(f, sights) == Pieces(last, |before|) <==> AllCutCleanly(|before|, sights, last)
    decreases |sights|
  {
    if sights != [] {
      var s, later := sights[0], sights[1..];
      assert sights == [s] + later;
      var last := LastData(before, sights);
      assert last == LastData(s.data, later);
      FollowsGrowth(inode, s.data, later, Tick(f, s));
      GrowthTick(inode, before, s, later);
      LinesWholeIff(inode, s.data, later, Tick(f, s));
      assert Emitted(f, s) == Pieces(s.data, |before|);
      PiecesSplitIff(s.data, last, |before|, AllEmitted(Tick(f, s), later));
    }
  }

  /** A tick that finds a new incarnation starts over: it was closed and finds the file, the path now
      names another file, or the file is shorter than what was read. */
  predicate Restarts(f: Follower, s: Sight) {
    match s.stat
    case Missing => false
    case StatFailed => f.file.None? && s.openedFirst.Some?
    case Stat(inode, size) =>
      if f.file.None? then s.openedFirst.Some? && (inode == s.openedFirst.value || s.openedNext.Some?)
      else if inode != f.file.value then s.openedNext.Some?
      else size < f.offset
  }

  /** After a restart the whole of what is there is emitted, and later growth follows on from it. */
  lemma RestartsAtZero(f: Follower, s: Sight, later: seq<Sight>)
    requires Restarts(f, s)
    requires Grows(Tick(f, s).file.value, s.data, later)
    ensures Flatten(AllEmitted(f, [s] + later)) == LastData(s.data, later)
  {
    PiecesTile(s.data, 0);
    assert s.data[0..] == s.data;
    assert ([s] + later)[1..] == later;
    var f' := Tick(f, s);
    FollowsGrowth(f'.file.value, s.data, later, f');
    Joined(s.data, s.data, LastData(s.data, later), 0);
    FlattenCat(Emitted(f, s), AllEmitted(f', later));
    assert LastData(s.data, later)[0..] == LastData(s.data, later);
  }

  /** When the path is gone, names a file that cannot be opened, or there is nothing to open, the tick
      shows nothing and holds no file. */
  lemma LetsGo(f: Follower, s: Sight)
    requires || s.stat.Missing?
             || (f.file.None? && s.openedFirst.None?)
             || (f.file.Some? && s.stat.Stat? && Some(s.stat.inode) != f.file && s.openedNext.None?)
    ensures Emitted(f, s) == [] && Tick(f, s).file.None?
  {
  }

  /** A path that is gone shows nothing and lets go of the file; as soon as it is there again, whatever
      file that is and however long, it is emitted from its first byte. */
  lemma RemovalRestarts(f: Follower, gone: Sight, back: Sight, later: seq<Sight>)
    requires gone.stat.Missing? && back.stat.Stat? && back.openedFirst == Some(back.stat.inode)
    requires Grows(back.stat.inode, back.data, later)
    ensures Emitted(f, gone) == [] && Tick(f, gone).file.None?
    ensures Flatten(AllEmitted(Tick(f, gone), [back] + later)) == LastData(back.data, later)
  {
    RestartsAtZero(Tick(f, gone), back, later);
  }

  /** A path that is gone for a while shows nothing all that time. */
  lemma {:induction false} AbsentShowsNothing(f: Follower, sights: seq<Sight>)
    requires forall k | 0 <= k < |sights| :: sights[k].stat.Missing?
    ensures AllEmitted(f, sights) == [] && (sights != [] ==> AfterAll(f, sights).file.None?)
    decreases |sights|
  {
    if sights != [] {
      AbsentShowsNothing(Tick(f, sights[0]), sights[1..]);
      if |sights| == 1 {
        assert sights[1..] == [];
      }
    }
  }

  /** A file truncated and rewritten between two ticks is emitted in full if and only if it is then
      shorter than what had been read, or nothing had; a longer one is taken for growth. */
  lemma TruncationSeenIff(inode: Inode, offset: nat, data: Bytes, s: Sight)
    requires s.stat == Stat(inode, |data|) && s.data == data && data != []
    ensures var f := Follower(Some(inode), offset);
            Flatten(Emitted(f, s)) == data <==> |data| < offset || offset == 0
  {
    var f := Follower(Some(inode), offset);
    PiecesTile(data, Attach(f, s).offset);
    assert data[0..] == data;
  }
}
