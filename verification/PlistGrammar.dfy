/** What the reader of job definitions makes of any document, beyond those the writer writes. */
module PlistGrammar {
  import opened UpgradeTask
  import opened Plist
  import Health

  // ----- nesting

  /** Elements closed in the order they were opened, with anything between them. */
  ghost predicate Balanced(tokens: seq<Token>)
    decreases |tokens|, 1
  {
    || tokens == []
    || ((tokens[0].Text? || tokens[0].Aside?) && Balanced(tokens[1..]))
    || (tokens[0].Open? && exists k :: 0 < k < |tokens| && ElementTo(tokens, k))
  }

  /** The element that starts the sequence ends at k, and what is inside and after it is balanced. */
  ghost predicate ElementTo(tokens: seq<Token>, k: nat)
    requires 0 < k < |tokens| && tokens[0].Open?
    decreases |tokens|, 0
  {
    tokens[k] == Close(tokens[0].name) && Balanced(tokens[1..k]) && Balanced(tokens[k + 1..])
  }

  /** The open elements alone. */
  function Nest(open: seq<string>, tokens: seq<Token>): Option<seq<string>>
    decreases |tokens|
  {
    if tokens == [] then Some(open)
    else match tokens[0]
      case Open(name) => Nest(open + [name], tokens[1..])
      case Close(name) =>
        if open == [] || open[|open| - 1] != name then None else Nest(open[..|open| - 1], tokens[1..])
      case _ => Nest(open, tokens[1..])
  }

  lemma {:induction false} ReaderNests(r: Reader, tokens: seq<Token>)
    ensures FeedAll(r, tokens).Some? <==> Nest(r.open, tokens).Some?
    ensures FeedAll(r, tokens).Some? ==> FeedAll(r, tokens).value.open == Nest(r.open, tokens).value
    decreases |tokens|
  {
    if tokens != [] {
      var next := Feed(r, tokens[0]);
      if next.Some? {
        ReaderNests(next.value, tokens[1..]);
      }
    }
  }

  lemma {:induction false} NestCat(open: seq<string>, a: seq<Token>, b: seq<Token>)
    ensures Nest(open, a + b) == match Nest(open, a) case Some(mid) => Nest(mid, b) case None => None
    decreases |a|
  {
    if a == [] {
      assert a + b == b;
    } else {
      assert (a + b)[0] == a[0] && (a + b)[1..] == a[1..] + b;
      match a[0]
      case Open(name) => NestCat(open + [name], a[1..], b);
      case Close(name) =>
        if open != [] && open[|open| - 1] == name {
          NestCat(open[..|open| - 1], a[1..], b);
        }
      case _ => NestCat(open, a[1..], b);
    }
  }

  lemma {:induction false} BalancedNests(open: seq<string>, tokens: seq<Token>)
    requires Balanced(tokens)
    ensures Nest(open, tokens) == Some(open)
    decreases |tokens|
  {
    if tokens != [] {
      if tokens[0].Open? {
        var k :| 0 < k < |tokens| && ElementTo(tokens, k);
        var inner := open + [tokens[0].name];
        BalancedNests(inner, tokens[1..k]);
        BalancedNests(open, tokens[k + 1..]);
        assert tokens[1..] == tokens[1..k] + tokens[k..] && tokens[k..][1..] == tokens[k + 1..];
        NestCat(inner, tokens[1..k], tokens[k..]);
        assert inner[..|inner| - 1] == open;
      } else {
        BalancedNests(open, tokens[1..]);
      }
    }
  }

  /** Here the innermost of these elements closes, what is before is balanced, and the rest closes the
      others. */
  ghost predicate ClosesAt(open: seq<string>, tokens: seq<Token>, k: nat) {
    && open != [] && k < |tokens| && tokens[k] == Close(open[|open| - 1]) && Balanced(tokens[..k])
    && Nest(open[..|open| - 1], tokens[k + 1..]) == Some([])
  }

  /** Where the innermost open element closes. */
  lemma {:induction false} Unwinds(open: seq<string>, tokens: seq<Token>) returns (k: nat)
    requires open != [] && Nest(open, tokens) == Some([])
    ensures ClosesAt(open, tokens, k)
    decreases |tokens|
  {
    if tokens[0].Close? {
      k := 0;
    } else if tokens[0].Open? {
      var inner := open + [tokens[0].name];
      var j := Unwinds(inner, tokens[1..]);
      assert inner[..|inner| - 1] == open && tokens[1..][j + 1..] == tokens[j + 2..];
      var rest := Unwinds(open, tokens[j + 2..]);
      k := j + 2 + rest;
      PastElement(open, tokens, j, rest);
    } else {
      var j := Unwinds(open, tokens[1..]);
      k := j + 1;
      PastText(open, tokens, j);
    }
  }

  lemma PastText(open: seq<string>, tokens: seq<Token>, j: nat)
    requires tokens != [] && (tokens[0].Text? || tokens[0].Aside?) && ClosesAt(open, tokens[1..], j)
    ensures ClosesAt(open, tokens, j + 1)
  {
    assert tokens[1..][j + 1..] == tokens[j + 2..] && tokens[..j + 1][1..] == tokens[1..][..j];
  }

  lemma PastElement(open: seq<string>, tokens: seq<Token>, j: nat, rest: nat)
    requires tokens != [] && tokens[0].Open? && ClosesAt(open + [tokens[0].name], tokens[1..], j)
    requires ClosesAt(open, tokens[j + 2..], rest)
    ensures ClosesAt(open, tokens, j + 2 + rest)
  {
    var k := j + 2 + rest;
    assert tokens[j + 2..][rest + 1..] == tokens[k + 1..];
    assert tokens[..k][1..j + 1] == tokens[1..][..j] && tokens[..k][j + 2..] == tokens[j + 2..][..rest];
    ElementThen(tokens[..k], j + 1, tokens[1..][..j], tokens[j + 2..][..rest]);
  }

  lemma ElementThen(tokens: seq<Token>, k: nat, inner: seq<Token>, after: seq<Token>)
    requires 0 < k < |tokens| && tokens[0].Open? && tokens[k] == Close(tokens[0].name)
    requires inner == tokens[1..k] && after == tokens[k + 1..] && Balanced(inner) && Balanced(after)
    ensures Balanced(tokens)
  {
    assert ElementTo(tokens, k);
  }

  lemma {:induction false} NestsBalanced(tokens: seq<Token>)
    requires Nest([], tokens) == Some([])
    ensures Balanced(tokens)
    decreases |tokens|
  {
    if tokens != [] {
      if tokens[0].Open? {
        assert [] + [tokens[0].name] == [tokens[0].name];
        var j := Unwinds([tokens[0].name], tokens[1..]);
        assert tokens[1..][j + 1..] == tokens[j + 2..];
        NestsBalanced(tokens[j + 2..]);
        ElementThen(tokens, j + 1, tokens[1..][..j], tokens[j + 2..]);
      } else {
        NestsBalanced(tokens[1..]);
      }
    }
  }

  /** A document is a syntax error exactly if it does not lex or its elements are not nested. */
  lemma SyntaxIff(data: string)
    ensures Parse(data) == Err(Syntax) <==> Lex(data).None? || !Balanced(Lex(data).value)
  {
    if Lex(data).Some? {
      var tokens := Lex(data).value;
      ReaderNests(FRESH, tokens);
      if Balanced(tokens) {
        BalancedNests([], tokens);
      } else if Nest([], tokens) == Some([]) {
        NestsBalanced(tokens);
      }
    }
  }

  // ----- a dictionary at all

  /** Nothing has been read yet but elements that are no dictionary. */
  predicate Before(r: Reader) {
    !r.dictSeen && r.dictOpen == 0 && r.capture.Free? && !r.inArgs && "dict" !in r.open
  }

  lemma {:induction false} SeenStays(r: Reader, tokens: seq<Token>)
    requires r.dictSeen && FeedAll(r, tokens).Some?
    ensures FeedAll(r, tokens).value.dictSeen
    decreases |tokens|
  {
    if tokens != [] {
      SeenStays(Feed(r, tokens[0]).value, tokens[1..]);
    }
  }

  lemma {:induction false} SeenIff(r: Reader, tokens: seq<Token>)
    requires Before(r) && FeedAll(r, tokens).Some?
    ensures FeedAll(r, tokens).value.dictSeen <==> Token.Open("dict") in tokens
    decreases |tokens|
  {
    if tokens != [] {
      var next := Feed(r, tokens[0]).value;
      assert tokens == [tokens[0]] + tokens[1..];
      if tokens[0] == Token.Open("dict") {
        SeenStays(next, tokens[1..]);
      } else {
        SeenIff(next, tokens[1..]);
      }
    }
  }

  /** A nested document has no dictionary exactly if no element of it is one. */
  lemma NoDictIff(data: string)
    requires Lex(data).Some? && Balanced(Lex(data).value)
    ensures Parse(data) == Err(NoDict) <==> Token.Open("dict") !in Lex(data).value
  {
    var tokens := Lex(data).value;
    BalancedNests([], tokens);
    ReaderNests(FRESH, tokens);
    SeenIff(FRESH, tokens);
  }

  // ----- what is nested is ignored

  /** Below the top dictionary, outside arguments, nothing counts. */
  predicate Below(r: Reader) { r.capture.Free? && r.dictOpen >= 2 && !r.inArgs && r.dictSeen }

  lemma {:induction false} FeedThrough(r: Reader, a: seq<Token>, b: seq<Token>, m: Reader)
    requires FeedAll(r, a) == Some(m)
    ensures FeedAll(r, a + b) == FeedAll(m, b)
    decreases |a|
  {
    FeedCat(r, a, b);
  }

  lemma {:induction false} NothingCounts(r: Reader, tokens: seq<Token>)
    requires Below(r) && Balanced(tokens)
    ensures FeedAll(r, tokens) == Some(r)
    decreases |tokens|
  {
    if tokens != [] {
      if tokens[0].Open? {
        var k :| 0 < k < |tokens| && ElementTo(tokens, k);
        var o := Opened(r, tokens[0].name);
        NothingCounts(o, tokens[1..k]);
        assert tokens[1..] == tokens[1..k] + tokens[k..] && tokens[k..][1..] == tokens[k + 1..];
        FeedThrough(o, tokens[1..k], tokens[k..], o);
        assert o.open[..|o.open| - 1] == r.open;
        assert Closed(o, tokens[0].name) == r;
        NothingCounts(r, tokens[k + 1..]);
      } else {
        NothingCounts(r, tokens[1..]);
      }
    }
  }

  // ----- what a dictionary means

  /** What can stand for a key: a string, strings in an array, a leaf, or a dictionary of its own. */
  datatype Value =
    | Str(text: string) | Strs(texts: seq<string>) | Leaf(name: string, text: string) | Dict(inner: seq<Token>)

  /** A key and its value, with what stands before each. */
  datatype Entry = Entry(before: string, key: string, between: string, value: Value)

  function StringTokens(text: string): seq<Token> {
    [Token.Open("string")] + [Text(text)] + [Close("string")]
  }

  function StringsTokens(texts: seq<string>): seq<Token> {
    if texts == [] then [] else StringTokens(texts[0]) + StringsTokens(texts[1..])
  }

  function ValueTokens(v: Value): seq<Token> {
    match v
    case Str(text) => StringTokens(text)
    case Strs(texts) => [Token.Open("array")] + StringsTokens(texts) + [Close("array")]
    case Leaf(name, text) => [Token.Open(name)] + [Text(text)] + [Close(name)]
    case Dict(inner) => [Token.Open("dict")] + inner + [Close("dict")]
  }

  function EntryTokens(e: Entry): seq<Token> {
    [Text(e.before)] + ([Token.Open("key")] + [Text(e.key)] + [Close("key")]) + [Text(e.between)] + ValueTokens(e.value)
  }

  function EntriesTokens(entries: seq<Entry>): seq<Token> {
    if entries == [] then [] else EntriesTokens(entries[..|entries| - 1]) + EntryTokens(entries[|entries| - 1])
  }

  ghost predicate Proper(e: Entry) {
    match e.value
    case Leaf(name, _) => name != "dict" && name != "key" && name != "string" && name != "array"
    case Dict(inner) => Balanced(inner)
    case _ => true
  }

  /** The string the key Program has: its value, or the first string of an array. */
  function ProgramOf(e: Entry): Option<string> {
    if e.key != "Program" then None
    else match e.value
      case Str(text) => Some(text)
      case Strs(texts) => if texts == [] then None else Some(texts[0])
      case _ => None
  }

  /** The last such string of the dictionary. */
  function LastProgram(entries: seq<Entry>): string {
    if entries == [] then ""
    else match ProgramOf(entries[|entries| - 1])
      case Some(text) => text
      case None => LastProgram(entries[..|entries| - 1])
  }

  /** The strings of every array with the key ProgramArguments. */
  function Arguments(entries: seq<Entry>): seq<string> {
    if entries == [] then []
    else
      var (past, e) := (Arguments(entries[..|entries| - 1]), entries[|entries| - 1]);
      if e.key == "ProgramArguments" && e.value.Strs? then past + e.value.texts else past
  }

  predicate InTop(r: Reader) { r.capture.Free? && r.dictOpen == 1 && !r.inArgs && r.dictSeen }

  /** Three tokens in a row. */
  lemma Three(r: Reader, a: Token, b: Token, c: Token)
    ensures FeedAll(r, [a] + [b] + [c]) ==
            match Feed(r, a)
            case None => None
            case Some(ra) => match Feed(ra, b) case None => None case Some(rb) => Feed(rb, c)
  {
    var all := [a] + [b] + [c];
    assert all[0] == a && all[1..] == [b] + [c] && ([b] + [c])[0] == b && ([b] + [c])[1..] == [c];
    if Feed(r, a).Some? && Feed(Feed(r, a).value, b).Some? {
      OneToken(Feed(Feed(r, a).value, b).value, c);
    }
  }

  lemma KeyFed(r: Reader, e: Entry)
    requires InTop(r)
    ensures var key := [Token.Open("key")] + [Text(e.key)] + [Close("key")];
            FeedAll(r, [Text(e.before)] + key + [Text(e.between)]) == Some(r.(pending := e.key))
  {
    var key := [Token.Open("key")] + [Text(e.key)] + [Close("key")];
    Three(r, Token.Open("key"), Text(e.key), Close("key"));
    assert "" + e.key == e.key && (r.open + ["key"])[..|r.open|] == r.open;
    assert "key" != "dict" by { assert |"key"| != |"dict"|; }
    OneToken(r, Text(e.before));
    FeedThrough(r, [Text(e.before)], key, r);
    FeedThrough(r, [Text(e.before)] + key, [Text(e.between)], r.(pending := e.key));
    OneToken(r.(pending := e.key), Text(e.between));
  }

  /** A string that is no argument: taken for the program if that is what is asked for. */
  lemma StringFed(r: Reader, text: string)
    requires InTop(r)
    ensures FeedAll(r, StringTokens(text)) ==
            Some(if r.pending == "Program" then r.(program := text, pending := "") else r)
  {
    Three(r, Token.Open("string"), Text(text), Close("string"));
    assert "" + text == text && (r.open + ["string"])[..|r.open|] == r.open;
    Apart();
  }

  lemma Apart()
    ensures "string" != "dict" && "string" != "key" && "array" != "dict" && "array" != "key" && "array" != "string"
  {
    assert |"string"| == 6 && |"dict"| == 4 && |"key"| == 3 && |"array"| == 5;
  }

  /** Strings in an array of arguments. */
  lemma {:induction false} ArgumentsFed(r: Reader, texts: seq<string>)
    requires r.capture.Free? && r.inArgs && r.pending == "ProgramArguments"
    ensures FeedAll(r, StringsTokens(texts)) == Some(r.(args := r.args + texts))
    decreases |texts|
  {
    if texts == [] {
      assert r.args + texts == r.args;
    } else {
      var next := r.(args := r.args + [texts[0]]);
      Three(r, Token.Open("string"), Text(texts[0]), Close("string"));
      assert "" + texts[0] == texts[0] && (r.open + ["string"])[..|r.open|] == r.open;
      Apart();
      PendingApart();
      ArgumentsFed(next, texts[1..]);
      FeedThrough(r, StringTokens(texts[0]), StringsTokens(texts[1..]), next);
      assert next.args + texts[1..] == r.args + texts;
    }
  }

  lemma PendingApart()
    ensures "ProgramArguments" != "Program"
  {
    assert |"ProgramArguments"| != |"Program"|;
  }

  /** Strings in any other array, or after the program has been found: the first is taken for a program
      that is still asked for. */
  lemma {:induction false} StringsFed(r: Reader, texts: seq<string>)
    requires InTop(r)
    ensures FeedAll(r, StringsTokens(texts)) ==
            Some(if r.pending == "Program" && texts != [] then r.(program := texts[0], pending := "") else r)
    decreases |texts|
  {
    if texts != [] {
      var next := if r.pending == "Program" then r.(program := texts[0], pending := "") else r;
      StringFed(r, texts[0]);
      StringsFed(next, texts[1..]);
      FeedThrough(r, StringTokens(texts[0]), StringsTokens(texts[1..]), next);
    }
  }

  function Took(r: Reader, e: Entry): Reader {
    r.(program := if ProgramOf(e).Some? then ProgramOf(e).value else r.program,
    args := if e.key == "ProgramArguments" && e.value.Strs? then r.args + e.value.texts else r.args)
  }

  /** Reading a value for its key; what is still pending afterwards is replaced by the next key. */
  lemma ValueFed(r: Reader, e: Entry) returns (last: Reader)
    requires InTop(r) && r.pending == e.key && Proper(e)
    ensures FeedAll(r, ValueTokens(e.value)) == Some(last)
    ensures InTop(last) && last.(pending := "") == Took(r, e).(pending := "")
  {
    PendingApart();
    match e.value
    case Str(text) =>
      StringFed(r, text);
      last := if r.pending == "Program" then r.(program := text, pending := "") else r;
    case Strs(texts) => last := ArrayFed(r, e, texts);
    case Leaf(name, text) => LeafFed(r, name, text); last := r;
    case Dict(inner) => DictFed(r, inner); last := r;
  }

  lemma ArrayFed(r: Reader, e: Entry, texts: seq<string>) returns (last: Reader)
    requires InTop(r) && r.pending == e.key && e.value == Strs(texts)
    ensures FeedAll(r, [Token.Open("array")] + StringsTokens(texts) + [Close("array")]) == Some(last)
    ensures InTop(last) && last.(pending := "") == Took(r, e).(pending := "")
  {
    Apart();
    PendingApart();
    var o := r.(open := r.open + ["array"], inArgs := e.key == "ProgramArguments");
    OneToken(r, Token.Open("array"));
    assert o.open[..|r.open|] == r.open;
    var inside;
    if e.key == "ProgramArguments" {
      ArgumentsFed(o, texts);
      inside := o.(args := o.args + texts);
      last := r.(args := r.args + texts, pending := "");
    } else {
      StringsFed(o, texts);
      inside := if o.pending == "Program" && texts != [] then o.(program := texts[0], pending := "") else o;
      last := inside.(open := r.open);
    }
    FeedThrough(r, [Token.Open("array")], StringsTokens(texts), o);
    OneToken(inside, Close("array"));
    FeedThrough(r, [Token.Open("array")] + StringsTokens(texts), [Close("array")], inside);
  }

  lemma LeafFed(r: Reader, name: string, text: string)
    requires InTop(r) && name != "dict" && name != "key" && name != "string" && name != "array"
    ensures FeedAll(r, [Token.Open(name)] + [Text(text)] + [Close(name)]) == Some(r)
  {
    Three(r, Token.Open(name), Text(text), Close(name));
    assert (r.open + [name])[..|r.open|] == r.open;
  }

  lemma DictFed(r: Reader, inner: seq<Token>)
    requires InTop(r) && Balanced(inner)
    ensures FeedAll(r, [Token.Open("dict")] + inner + [Close("dict")]) == Some(r)
  {
    var o := r.(open := r.open + ["dict"], dictOpen := 2);
    OneToken(r, Token.Open("dict"));
    NothingCounts(o, inner);
    FeedThrough(r, [Token.Open("dict")], inner, o);
    OneToken(o, Close("dict"));
    assert o.open[..|r.open|] == r.open;
    FeedThrough(r, [Token.Open("dict")] + inner, [Close("dict")], o);
  }

  lemma EntryFed(r: Reader, e: Entry) returns (last: Reader)
    requires InTop(r) && Proper(e)
    ensures FeedAll(r, EntryTokens(e)) == Some(last)
    ensures InTop(last) && last.(pending := "") == Took(r, e).(pending := "")
  {
    var opening := [Text(e.before)] + ([Token.Open("key")] + [Text(e.key)] + [Close("key")]) + [Text(e.between)];
    KeyFed(r, e);
    last := ValueFed(r.(pending := e.key), e);
    FeedThrough(r, opening, ValueTokens(e.value), r.(pending := e.key));
  }

  /** What has been read after these entries, whatever key is still pending. */
  predicate Holds(r: Reader, start: Reader, entries: seq<Entry>) {
    InTop(r) && r == start.(program := LastProgram(entries), args := Arguments(entries), pending := r.pending)
  }

  lemma {:induction false} EntriesFed(r: Reader, entries: seq<Entry>) returns (last: Reader)
    requires InTop(r) && r.program == "" && r.args == [] && forall i | 0 <= i < |entries| :: Proper(entries[i])
    ensures FeedAll(r, EntriesTokens(entries)) == Some(last) && Holds(last, r, entries)
    decreases |entries|
  {
    if entries == [] {
      last := r;
    } else {
      var n := |entries| - 1;
      var mid := EntriesFed(r, entries[..n]);
      last := EntryFed(mid, entries[n]);
      HoldsMore(r, entries, mid, last);
      FeedThrough(r, EntriesTokens(entries[..n]), EntryTokens(entries[n]), mid);
    }
  }

  lemma HoldsMore(r: Reader, entries: seq<Entry>, mid: Reader, last: Reader)
    requires entries != [] && InTop(r) && Holds(mid, r, entries[..|entries| - 1])
    requires InTop(last) && last.(pending := "") == Took(mid, entries[|entries| - 1]).(pending := "")
    ensures Holds(last, r, entries)
  {
    assert last == last.(pending := "").(pending := last.pending);
  }

  /** A document with one dictionary, whatever it holds. */
  function PlistTokens(entries: seq<Entry>): seq<Token> {
    [Token.Open("plist")] + ([Token.Open("dict")] + EntriesTokens(entries) + [Close("dict")]) + [Close("plist")]
  }

  const OPENED: Reader := FRESH.(open := ["plist"])

  const TOP: Reader := OPENED.(open := ["plist", "dict"], dictOpen := 1, dictSeen := true)

  lemma DictionaryFed(entries: seq<Entry>) returns (last: Reader)
    requires forall i | 0 <= i < |entries| :: Proper(entries[i])
    ensures FeedAll(OPENED, [Token.Open("dict")] + EntriesTokens(entries) + [Close("dict")]) ==
            Some(last.(open := ["plist"], dictOpen := 0))
    ensures last.program == LastProgram(entries) && last.args == Arguments(entries) && InTop(last)
  {
    Apart();
    last := EntriesFed(TOP, entries);
    assert last.open == TOP.open && TOP.open[..1] == ["plist"] && ["plist"] + ["dict"] == TOP.open;
    OneToken(OPENED, Token.Open("dict"));
    FeedThrough(OPENED, [Token.Open("dict")], EntriesTokens(entries), TOP);
    OneToken(last, Close("dict"));
    FeedThrough(OPENED, [Token.Open("dict")] + EntriesTokens(entries), [Close("dict")], last);
  }

  lemma DocumentFed(entries: seq<Entry>) returns (last: Reader)
    requires forall i | 0 <= i < |entries| :: Proper(entries[i])
    ensures FeedAll(FRESH, PlistTokens(entries)) == Some(last) && last.open == [] && last.dictSeen
    ensures last.program == LastProgram(entries) && last.args == Arguments(entries)
  {
    var dict := [Token.Open("dict")] + EntriesTokens(entries) + [Close("dict")];
    var read := DictionaryFed(entries);
    var closed := read.(open := ["plist"], dictOpen := 0);
    last := closed.(open := []);
    PlistTags(closed);
    FeedThrough(FRESH, [Token.Open("plist")], dict, OPENED);
    FeedThrough(FRESH, [Token.Open("plist")] + dict, [Close("plist")], closed);
  }

  lemma PlistTags(closed: Reader)
    requires closed.open == ["plist"] && closed.capture.Free?
    ensures FeedAll(FRESH, [Token.Open("plist")]) == Some(OPENED)
    ensures FeedAll(closed, [Close("plist")]) == Some(closed.(open := []))
  {
    assert |"plist"| == 5 && |"dict"| == 4 && |"key"| == 3 && |"string"| == 6 && "plist"[0] != "array"[0];
    assert [] + ["plist"] == ["plist"] && ["plist"][..0] == [];
    OneToken(FRESH, Token.Open("plist"));
    OneToken(closed, Close("plist"));
  }

  /** What a job definition means: the program is the last string with the key Program, or else the first
      of its arguments; nested dictionaries, leaves and other keys do not count. */
  lemma DictionaryMeans(entries: seq<Entry>)
    requires forall i | 0 <= i < |entries| :: Proper(entries[i])
    ensures FeedAll(FRESH, PlistTokens(entries)).Some?
    ensures var (program, args) := (LastProgram(entries), Arguments(entries));
            Verdict(FeedAll(FRESH, PlistTokens(entries)).value) ==
              if program == "" && (args == [] || Health.Space(args[0])) then Err(NoProgram)
              else
                var found := if program != "" then program else args[0];
                if found != "" && found[0] == '/' then Ok(found) else Err(NotAbsolute)
  {
    var last := DocumentFed(entries);
  }
}
