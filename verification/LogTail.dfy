/** Reading the last lines of a log: the whole of a small file, or a window at the end of a large one. */
module LogTail {
  import opened UpgradeTask

  const NEWLINE: byte := 10
  const RETURN: byte := 13
  const TOKEN_LIMIT: nat := 1024 * 1024
  const SMALL_FILE: nat := 256 * 1024
  const MIN_WINDOW: nat := 32 * 1024

  /** The first newline at or after i, or the end. */
  function Newline(data: Bytes, i: nat): (k: nat)
    requires i <= |data|
    ensures i <= k <= |data|
    ensures NEWLINE !in data[i..k] && (k < |data| ==> data[k] == NEWLINE)
    decreases |data| - i
  {
    if i == |data| || data[i] == NEWLINE then i
    else
      var k := Newline(data, i + 1);
      assert data[i..k] == [data[i]] + data[i + 1..k];
      k
  }

  /** Where the line at i gives way to the next. */
  function NextLine(data: Bytes, i: nat): (j: nat)
    requires i <= |data|
    ensures i <= j <= |data| && (i < |data| ==> i < j)
  {
    var k := Newline(data, i);
    if k < |data| then k + 1 else k
  }

  /** A line without its terminator: one trailing carriage return goes too. */
  function Text(raw: Bytes): Bytes {
    if raw != [] && raw[|raw| - 1] == RETURN then raw[..|raw| - 1] else raw
  }

  /** The lines of a file from an offset on; the last one may lack a newline. */
  function Lines(data: Bytes, i: nat): seq<Bytes>
    requires i <= |data|
    decreases |data| - i
  {
    if i == |data| then []
    else [Text(data[i..Newline(data, i)])] + Lines(data, NextLine(data, i))
  }

  function LastN(lines: seq<Bytes>, n: nat): seq<Bytes> {
    if |lines| > n then lines[|lines| - n..] else lines
  }

  // ----- the scanner

  /** The lines a scanner yields from an offset on: it gives up at a line that fills its buffer. */
  function Scan(data: Bytes, i: nat): seq<Bytes>
    requires i <= |data|
    decreases |data| - i
  {
    if i == |data| || Newline(data, i) - i >= TOKEN_LIMIT then []
    else [Text(data[i..Newline(data, i)])] + Scan(data, NextLine(data, i))
  }

  method ScanLines(data: Bytes, start: nat) returns (lines: seq<Bytes>)
    requires start <= |data|
    ensures lines == Scan(data, start)
  {
    lines := [];
    var i := start;
    while i < |data|
      invariant start <= i <= |data|
      invariant lines + Scan(data, i) == Scan(data, start)
    {
      var k := Newline(data, i);
      if k - i >= TOKEN_LIMIT {
        return;
      }
      lines := lines + [Text(data[i..k])];
      i := NextLine(data, i);
    }
  }

  /** 64-bit n * 512, wrapping around. */
  function Times512(n: nat): int {
    (n * 512 + 0x8000_0000_0000_0000) % 0x1_0000_0000_0000_0000 - 0x8000_0000_0000_0000
  }

  /** How many bytes at the end of a large file are read for n lines. */
  function Window(n: nat, size: nat): (w: nat)
    ensures w <= size && (size >= MIN_WINDOW ==> w >= MIN_WINDOW)
  {
    var w := if Times512(n) > size then size else Times512(n);
    var w := if w < MIN_WINDOW then MIN_WINDOW else w;
    if w > size then size else w
  }

  /** The last n lines, as the program reads them; a file that cannot be opened has none. A negative n
      slices past the end, which panics, unless there is nothing to read. */
  method ReadLastNLines(file: Option<Bytes>, n: int) returns (lines: Option<seq<Bytes>>)
    ensures lines == if file.None? || |file.value| == 0 then Some([])
                     else if n < 0 then None
                     else Some(Tail(file.value, n))
  {
    if file.None? || |file.value| == 0 {
      return Some([]);
    }
    if n < 0 {
      return None;
    }
    var data := file.value;
    var window := if |data| < SMALL_FILE then |data| else Window(n, |data|);
    var last := ReadFrom(data, |data| - window, n);
    lines := Some(last);
  }

  /** Scans from an offset; what precedes the first newline there is only part of a line. */
  method ReadFrom(data: Bytes, start: nat, n: nat) returns (lines: seq<Bytes>)
    requires start <= |data|
    ensures lines == TailFrom(data, start, n)
  {
    lines := ScanLines(data, start);
    if start > 0 && lines != [] {
      lines := lines[1..];
    }
    if |lines| > n {
      lines := lines[|lines| - n..];
    }
  }

  /** The fast path as a function: scan from the window's start, drop the first piece. */
  function Tail(data: Bytes, n: nat): seq<Bytes> {
    TailFrom(data, if |data| < SMALL_FILE then 0 else |data| - Window(n, |data|), n)
  }

  function TailFrom(data: Bytes, start: nat, n: nat): seq<Bytes>
    requires start <= |data|
  {
    var scanned := Scan(data, start);
    LastN(if start > 0 && scanned != [] then scanned[1..] else scanned, n)
  }

  // ----- what lines are

  /** The last n of some lines: all of them if there are no more, else the n at the end. */
  lemma LastNSays(lines: seq<Bytes>, n: nat)
    ensures var last := LastN(lines, n);
            && |last| == (if |lines| <= n then |lines| else n)
            && forall k | 0 <= k < |last| :: last[k] == lines[|lines| - |last| + k]
  {
  }

  /** A raw line, without its newline, reads as this text: one carriage return at its end is dropped. */
  ghost predicate ReadsAs(raw: Bytes, text: Bytes) {
    raw == text + [RETURN] || (raw == text && (text == [] || text[|text| - 1] != RETURN))
  }

  lemma TextReads(raw: Bytes, text: Bytes)
    ensures Text(raw) == text <==> ReadsAs(raw, text)
  {
    if raw != [] && raw[|raw| - 1] == RETURN {
      assert raw == raw[..|raw| - 1] + [RETURN];
    }
  }

  /** Raw lines written out: a newline after each, but for the last if the file does not end in one. */
  function Written(raws: seq<Bytes>, complete: bool): Bytes {
    if raws == [] then []
    else if |raws| == 1 then raws[0] + (if complete then [NEWLINE] else [])
    else raws[0] + [NEWLINE] + Written(raws[1..], complete)
  }

  /** The lines of a file are exactly the pieces between its newlines: put together again they are the
      file, none holds a newline, and each is given as its text. */
  lemma {:induction false} LinesSpell(data: Bytes, i: nat) returns (raws: seq<Bytes>, complete: bool)
    requires i <= |data|
    ensures |raws| == |Lines(data, i)| && Written(raws, complete) == data[i..]
    ensures forall k | 0 <= k < |raws| :: NEWLINE !in raws[k] && ReadsAs(raws[k], Lines(data, i)[k])
    ensures raws != [] && !complete ==> raws[|raws| - 1] != []
    decreases |data| - i
  {
    raws, complete := [], true;
    if i < |data| {
      var k := Newline(data, i);
      var raw := data[i..k];
      TextReads(raw, Text(raw));
      var rest;
      rest, complete := LinesSpell(data, NextLine(data, i));
      raws := [raw] + rest;
      assert raws[1..] == rest;
      if k < |data| {
        assert data[i..] == raw + [NEWLINE] + data[k + 1..];
        if rest == [] {
          assert data[k + 1..] == [];
          complete := true;
        }
      } else {
        assert data[i..] == raw;
        complete := false;
      }
    }
  }

  // ----- the fast path refines reading everything

  /** No line is long enough to fill the scanner's buffer. */
  ghost predicate ShortLines(data: Bytes) {
    forall i | 0 <= i <= |data| :: Newline(data, i) - i < 1024 * 1024
  }

  lemma {:induction false} ScanIsLines(data: Bytes, i: nat)
    requires ShortLines(data) && i <= |data|
    ensures Scan(data, i) == Lines(data, i)
    decreases |data| - i
  {
    if i < |data| {
      ScanIsLines(data, NextLine(data, i));
    }
  }

  predicate Boundary(data: Bytes, s: nat) {
    s <= |data| && (s == 0 || s == |data| || data[s - 1] == NEWLINE)
  }

  /** Splitting from any offset reaches every later line start: from there on the pieces agree. */
  lemma {:induction false} Reaches(data: Bytes, i: nat, s: nat) returns (c: nat)
    requires i <= s && Boundary(data, s)
    ensures c <= |Lines(data, i)| && Lines(data, i)[c..] == Lines(data, s) && (i < s ==> c > 0)
    decreases s - i
  {
    c := 0;
    if i < s {
      var k := Newline(data, i);
      if k >= s {
        assert data[s - 1] in data[i..k];
      }
      var rest := Reaches(data, NextLine(data, i), s);
      c := rest + 1;
    }
  }

  /** Where line j starts. */
  function Start(data: Bytes, i: nat, j: nat): (s: nat)
    requires i <= |data|
    ensures i <= s <= |data|
    decreases j
  {
    if j == 0 then i else Start(data, NextLine(data, i), j - 1)
  }

  lemma {:induction false} StartIsBoundary(data: Bytes, i: nat, j: nat)
    requires Boundary(data, i) && j <= |Lines(data, i)|
    ensures Boundary(data, Start(data, i, j))
    ensures Lines(data, Start(data, i, j)) == Lines(data, i)[j..]
    ensures j < |Lines(data, i)| ==> Start(data, i, j) < |data|
    decreases j
  {
    if j > 0 {
      StartIsBoundary(data, NextLine(data, i), j - 1);
    }
  }

  /** Where the last n lines start. */
  function LastStart(data: Bytes, n: nat): nat {
    var m := |Lines(data, 0)|;
    Start(data, 0, if m > n then m - n else 0)
  }

  /** The bytes the last n lines occupy. */
  function Occupied(data: Bytes, n: nat): nat {
    |data| - LastStart(data, n)
  }

  /** A line that starts after the window does starts no earlier than the first whole line in it. */
  lemma InsideWindow(data: Bytes, start: nat, s: nat)
    requires start < s && Boundary(data, s)
    ensures NextLine(data, start) <= s
  {
    var k := Newline(data, start);
    if k >= s {
      assert data[s - 1] in data[start..k];
    }
  }

  /** Dropping the first piece after any offset leaves whole lines up to the end of the file. */
  lemma PieceDropped(data: Bytes, start: nat) returns (c: nat)
    requires start < |data|
    ensures c <= |Lines(data, 0)| && Lines(data, start)[1..] == Lines(data, 0)[c..]
  {
    c := Reaches(data, 0, NextLine(data, start));
  }

  lemma LastOfSuffix(all: seq<Bytes>, c: nat, n: nat) returns (d: nat)
    requires c <= |all|
    ensures d <= |all| && LastN(all[c..], n) == all[d..] && |all[d..]| <= n
  {
    d := if |all| - c > n then |all| - n else c;
  }

  /** What is read is always a run of whole lines up to the end of the file, at most n of them. */
  lemma TailIsSuffix(data: Bytes, n: nat)
    requires |data| >= 256 * 1024 ==> ShortLines(data)
    ensures |Tail(data, n)| <= n
    ensures exists d | 0 <= d <= |Lines(data, 0)| :: Tail(data, n) == Lines(data, 0)[d..]
  {
    var start := if |data| < SMALL_FILE then 0 else |data| - Window(n, |data|);
    assert ShortLines(data);
    ScanIsLines(data, start);
    var c := 0;
    if start > 0 {
      c := PieceDropped(data, start);
    }
    var d := LastOfSuffix(Lines(data, 0), c, n);
    assert Lines(data, 0)[0..] == Lines(data, 0);
  }

  /** Lines that end with the wanted n have them as their last n. */
  lemma EndsWith(kept: seq<Bytes>, c: nat, last: seq<Bytes>, n: nat)
    requires c <= |kept| && kept[c..] == last && |last| == n
    ensures LastN(kept, n) == last
  {
    assert |kept| - n == c;
  }

  lemma FewerLines(kept: seq<Bytes>, last: seq<Bytes>, n: nat)
    requires |kept| < |last|
    ensures LastN(kept, n) != last
  {
  }

  lemma KeptInside(data: Bytes, start: nat, s: nat, last: seq<Bytes>, n: nat)
    requires start < s && Boundary(data, s) && Lines(data, s) == last && |last| == n
    ensures LastN(Lines(data, NextLine(data, start)), n) == last
  {
    InsideWindow(data, start, s);
    var c := Reaches(data, NextLine(data, start), s);
    EndsWith(Lines(data, NextLine(data, start)), c, last, n);
  }

  lemma LostOutside(data: Bytes, start: nat, s: nat, last: seq<Bytes>, n: nat)
    requires s <= start < |data| && Lines(data, s) == last
    ensures LastN(Lines(data, NextLine(data, start)), n) != last
  {
    var next := NextLine(data, start);
    var kept := Lines(data, next);
    var c := Reaches(data, s, next);
    assert |kept| == |last| - c;
    FewerLines(kept, last, n);
  }

  /** Reading from an offset and dropping the first piece loses none of the last n lines exactly when
      they start after it. */
  lemma WindowExact(data: Bytes, start: nat, n: nat)
    requires start < |data|
    ensures LastN(Lines(data, start)[1..], n) == LastN(Lines(data, 0), n) <==> LastStart(data, n) > start
  {
    LastLines(data, n);
    assert Lines(data, start)[1..] == Lines(data, NextLine(data, start));
    if LastStart(data, n) > start {
      KeptInside(data, start, LastStart(data, n), LastN(Lines(data, 0), n), n);
    } else {
      LostOutside(data, start, LastStart(data, n), LastN(Lines(data, 0), n), n);
    }
  }

  lemma LastLines(data: Bytes, n: nat)
    ensures var s := LastStart(data, n);
            && Boundary(data, s) && Lines(data, s) == LastN(Lines(data, 0), n)
            && (s > 0 ==> |Lines(data, s)| == n)
  {
    var all := Lines(data, 0);
    var j := if |all| > n then |all| - n else 0;
    StartIsBoundary(data, 0, j);
    assert all[0..] == all;
  }

  lemma ExactFrom(data: Bytes, start: nat, n: nat)
    requires ShortLines(data) && start < |data|
    ensures TailFrom(data, start, n) == LastN(Lines(data, 0), n) <==> start == 0 || LastStart(data, n) > start
  {
    ScanIsLines(data, start);
    if start > 0 {
      WindowExact(data, start, n);
    }
  }

  /** The fast path is exact, the last n of all lines, if and only if those lines lie wholly inside the
      window: they occupy fewer bytes than it, or it is the whole file. */
  lemma TailExact(data: Bytes, n: nat)
    requires ShortLines(data) && |data| >= 256 * 1024
    ensures Tail(data, n) == LastN(Lines(data, 0), n) <==>
              Occupied(data, n) < Window(n, |data|) || Window(n, |data|) == |data|
  {
    var start := |data| - Window(n, |data|);
    ExactFrom(data, start, n);
    assert Occupied(data, n) < Window(n, |data|) <==> LastStart(data, n) > start;
    assert Tail(data, n) == TailFrom(data, start, n);
  }

  /** A small file is always read exactly. */
  lemma SmallExact(data: Bytes, n: nat)
    requires |data| < 256 * 1024
    ensures Tail(data, n) == LastN(Lines(data, 0), n)
  {
    assert forall i | 0 <= i <= |data| :: Newline(data, i) - i < TOKEN_LIMIT;
    ScanIsLines(data, 0);
  }

  const LINES_RANGE: nat := 0x80_0000_0000_0000  // 512 times this many wraps to 0

  /** The exact window for every n: with m the remainder of n by 2^55, it is max(512 m, 32 KiB), at
      most the file, where 512 m is below 2^63, and 32 KiB where the product has wrapped to a negative. */
  lemma WindowSize(n: nat, size: nat)
    requires size >= 32 * 1024
    ensures var m := n % LINES_RANGE;
            var wanted := if 2 * m < LINES_RANGE && 512 * m > 32 * 1024 then 512 * m else 32 * 1024;
            Window(n, size) == if wanted > size then size else wanted
  {
    var m := n % LINES_RANGE;
    assert n * 512 == n / LINES_RANGE * 0x1_0000_0000_0000_0000 + 512 * m;
    Wrapped(n / LINES_RANGE, 512 * m);
  }

  lemma Wrapped(q: nat, x: nat)
    requires x < 0x1_0000_0000_0000_0000
    ensures (q * 0x1_0000_0000_0000_0000 + x + 0x8000_0000_0000_0000) % 0x1_0000_0000_0000_0000 - 0x8000_0000_0000_0000
            == if x < 0x8000_0000_0000_0000 then x else x - 0x1_0000_0000_0000_0000
  {
    var rest := if x < 0x8000_0000_0000_0000 then x + 0x8000_0000_0000_0000 else x - 0x8000_0000_0000_0000;
    var times := if x < 0x8000_0000_0000_0000 then q else q + 1;
    assert q * 0x1_0000_0000_0000_0000 + x + 0x8000_0000_0000_0000 == times * 0x1_0000_0000_0000_0000 + rest;
  }

  /** 512 bytes a line, or the whole file: that is the window unless the product wraps, and then only
      when what is left of it still covers the file. */
  lemma WindowMeantIff(n: nat, size: nat)
    requires 256 * 1024 <= size < 0x8000_0000_0000_0000
    ensures var wanted := if 512 * n > 32 * 1024 then 512 * n else 32 * 1024;
            Window(n, size) == (if wanted > size then size else wanted)
            <==> 2 * n < LINES_RANGE || (2 * (n % LINES_RANGE) < LINES_RANGE && 512 * (n % LINES_RANGE) >= size)
  {
    WindowSize(n, size);
  }
}
