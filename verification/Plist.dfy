/** The launchd job definition: what is written, and how the program is read back. */
module Plist {
  import opened UpgradeTask
  import Health

  // ----- XML, as far as job definitions use it

  datatype Token = Open(name: string) | Close(name: string) | Text(text: string) | Aside

  /** The first c at or after i, or the end. */
  function IndexOf(s: string, c: char, i: nat): (k: nat)
    requires i <= |s|
    ensures i <= k <= |s| && c !in s[i..k] && (k < |s| ==> s[k] == c)
    decreases |s| - i
  {
    if i == |s| || s[i] == c then i
    else
      var k := IndexOf(s, c, i + 1);
      assert s[i..k] == [s[i]] + s[i + 1..k];
      k
  }

  /** Characters XML 1.0 (section 2.2) allows, other than the two that start markup. */
  predicate Plain(c: char) {
    (c >= ' ' || c == '\t' || c == '\n' || c == '\r') && c != '<' && c != '&' && c != '\U{FFFE}' && c != '\U{FFFF}'
  }

  /** Character data without markup, and without the end of a CDATA section (section 2.4). */
  predicate PlainText(s: string) {
    && (forall i | 0 <= i < |s| :: Plain(s[i]))
    && (forall i | 2 <= i < |s| && s[i] == '>' :: s[i - 1] != ']' || s[i - 2] != ']')
  }

  /** Line ends as a reader sees them (section 2.11): a carriage return, alone or before a line feed,
      becomes one line feed. */
  function Folded(s: string): string {
    if s == "" then ""
    else if s[0] == '\r' then "\n" + Folded(if |s| > 1 && s[1] == '\n' then s[2..] else s[1..])
    else [s[0]] + Folded(s[1..])
  }

  lemma {:induction false} FoldedSame(s: string)
    requires '\r' !in s
    ensures Folded(s) == s
  {
    if s != "" {
      FoldedSame(s[1..]);
    }
  }

  lemma {:induction false} FoldedHasNoReturn(s: string)
    ensures '\r' !in Folded(s) && (s != "" ==> Folded(s) != "") && (s != "" && s[0] != '\r' ==> Folded(s)[0] == s[0])
  {
    if s != "" {
      FoldedHasNoReturn(if s[0] == '\r' && |s| > 1 && s[1] == '\n' then s[2..] else s[1..]);
    }
  }

  /** The keys are words: letters only, as far as reading is concerned. */
  predicate Word(s: string) { forall i | 0 <= i < |s| :: 'A' <= s[i] <= 'z' }

  lemma WordIsPlain(s: string)
    requires Word(s)
    ensures PlainText(s) && '\r' !in s && '<' !in s && '&' !in s
  {
  }

  /** What a tag reads as; a self-closing tag opens and closes, declarations are skipped over. */
  function Tag(content: string): Option<seq<Token>> {
    if content == "" then None
    else if content[0] == '?' || content[0] == '!' then Some([Aside])
    else if content[0] == '/' then Some([Close(content[1..])])
    else if content[|content| - 1] == '/' then
      var name := content[..IndexOf(content[..|content| - 1], ' ', 0)];
      Some([Open(name), Close(name)])
    else Some([Open(content[..IndexOf(content, ' ', 0)])])
  }

  function Lex(s: string): Option<seq<Token>>
    decreases |s|
  {
    if s == "" then Some([])
    else if s[0] == '<' then
      var k := IndexOf(s, '>', 1);
      if k == |s| then None else Both(Tag(s[1..k]), Lex(s[k + 1..]))
    else
      var k := IndexOf(s, '<', 0);
      if PlainText(s[..k]) then Both(Some([Text(Folded(s[..k]))]), Lex(s[k..])) else None
  }

  function Both(a: Option<seq<Token>>, b: Option<seq<Token>>): Option<seq<Token>> {
    if a.Some? && b.Some? then Some(a.value + b.value) else None
  }

  // ----- reading the program back

  /** What an element being decoded is for, where its own text is, and the text so far. */
  datatype Capture = Free | Key(depth: nat, text: string) | Program(depth: nat, text: string)
                   | Argument(depth: nat, text: string)

  datatype Reader = Reader(program: string, args: seq<string>, inArgs: bool, pending: string,
                           dictSeen: bool, dictOpen: int, open: seq<string>, capture: Capture)

  const FRESH: Reader := Reader("", [], false, "", false, 0, [], Free)

  function Opened(r: Reader, name: string): Reader {
    var r := r.(open := r.open + [name]);
    if !r.capture.Free? then r
    else if name == "dict" then r.(dictOpen := r.dictOpen + 1, dictSeen := r.dictSeen || r.dictOpen == 0)
    else if name == "key" && r.dictOpen == 1 then r.(capture := Key(|r.open|, ""))
    else if name == "string" && r.dictOpen == 1 && r.pending == "Program" then r.(capture := Program(|r.open|, ""))
    else if name == "string" && r.inArgs then r.(capture := Argument(|r.open|, ""))
    else if name == "array" && r.dictOpen == 1 && r.pending == "ProgramArguments" then r.(inArgs := true)
    else r
  }

  function Closed(r: Reader, name: string): Reader
    requires r.open != []
  {
    var depth := |r.open|;
    var r := r.(open := r.open[..depth - 1]);
    match r.capture
    case Key(d, text) => if d == depth then r.(pending := text, capture := Free) else r
    case Program(d, text) => if d == depth then r.(program := text, pending := "", capture := Free) else r
    case Argument(d, text) => if d == depth then r.(args := r.args + [text], capture := Free) else r
    case Free =>
      if name == "dict" then r.(dictOpen := r.dictOpen - 1)
      else if name == "array" && r.inArgs then r.(inArgs := false, pending := "")
      else r
  }

  /** One token; an end tag that does not match is a syntax error. */
  function Feed(r: Reader, t: Token): Option<Reader> {
    match t
    case Aside => Some(r)
    case Text(text) =>
      if r.capture.Free? || r.capture.depth != |r.open| then Some(r)
      else Some(r.(capture := r.capture.(text := r.capture.text + text)))
    case Open(name) => Some(Opened(r, name))
    case Close(name) =>
      if r.open == [] || r.open[|r.open| - 1] != name then None else Some(Closed(r, name))
  }

  function FeedAll(r: Reader, tokens: seq<Token>): Option<Reader>
    decreases |tokens|
  {
    if tokens == [] then Some(r)
    else
      var next := Feed(r, tokens[0]);
      if next.None? then None else FeedAll(next.value, tokens[1..])
  }

  datatype Error = Syntax | NoDict | NoProgram | NotAbsolute
  datatype Found = Ok(program: string) | Err(error: Error)

  predicate Blank(s: string) { Health.Space(s) }

  predicate IsAbs(path: string) { path != "" && path[0] == '/' }

  /** Program if present, else the first argument; it must be an absolute path. */
  function Verdict(r: Reader): Found {
    if r.open != [] then Err(Syntax)
    else if !r.dictSeen then Err(NoDict)
    else if r.program == "" && (r.args == [] || Blank(r.args[0])) then Err(NoProgram)
    else
      var program := if r.program == "" then r.args[0] else r.program;
      if IsAbs(program) then Ok(program) else Err(NotAbsolute)
  }

  function Parse(data: string): Found {
    var tokens := Lex(data);
    if tokens.None? then Err(Syntax)
    else
      var r := FeedAll(FRESH, tokens.value);
      if r.None? then Err(Syntax) else Verdict(r.value)
  }

  /** The token loop. */
  method PlistProgram(data: string) returns (found: Found)
    ensures found == Parse(data)
    ensures found.Ok? ==> found.program != "" && found.program[0] == '/'
  {
    var tokens := Lex(data);
    if tokens.None? {
      return Err(Syntax);
    }
    var r := FRESH;
    for i := 0 to |tokens.value|
      invariant FeedAll(r, tokens.value[i..]) == FeedAll(FRESH, tokens.value)
    {
      var next := Feed(r, tokens.value[i]);
      assert tokens.value[i..][1..] == tokens.value[i + 1..];
      if next.None? {
        return Err(Syntax);
      }
      r := next.value;
    }
    return Verdict(r);
  }

  // ----- writing the job

  /** A document is tags and the text between them. */
  datatype Piece = T(content: string) | C(text: string)

  function Render(pieces: seq<Piece>): string {
    if pieces == [] then ""
    else (match pieces[0] case T(c) => "<" + c + ">" case C(t) => t) + Render(pieces[1..])
  }

  function Element(indent: string, name: string, text: string): seq<Piece> {
    [C(indent)] + [T(name)] + ([C(text)] + [T("/" + name)])
  }

  function KeyOf(key: string): seq<Piece> { Element("\n\t", "key", key) }

  function StringOf(indent: string, value: string): seq<Piece> { Element(indent, "string", value) }

  function NumberOf(key: string, digits: string): seq<Piece> {
    KeyOf(key) + Element("\n\t", "integer", digits)
  }

  function EntryOf(key: string, value: string): seq<Piece> {
    KeyOf(key) + StringOf("\n\t", value)
  }

  function Items(args: seq<string>): seq<Piece> {
    if args == [] then [] else Items(args[..|args| - 1]) + StringOf("\n\t\t", args[|args| - 1])
  }

  function FlagOf(key: string, value: string): seq<Piece> {
    KeyOf(key) + ([C("\n\t")] + [T(value)])
  }

  const XML_DECLARATION := "?xml version=\"1.0\" encoding=\"UTF-8\"?"
  const PUBLIC_ID := "\"-//Apple//DTD PLIST 1.0//EN\""
  const SYSTEM_ID := "\"http://www.apple.com/DTDs/" + "PropertyList-1.0.dtd\""
  const DOCTYPE := "!DOCTYPE plist PUBLIC " + PUBLIC_ID + " " + SYSTEM_ID

  /** A tag on its own line. */
  function TagLine(content: string, indent: string): seq<Piece> {
    [T(content)] + [C(indent)]
  }

  /** An end tag on a line of its own. */
  function EndLine(indent: string, name: string): seq<Piece> {
    [C(indent)] + [T("/" + name)]
  }

  function Declarations(): seq<Piece> {
    TagLine(XML_DECLARATION, "\n") + TagLine(DOCTYPE, "\n")
  }

  function Prologue(): seq<Piece> {
    Declarations() + TagLine("plist version=\"1.0\"", "\n") + [T("dict")]
  }

  function Names(job: string, executor: string): seq<Piece> {
    EntryOf("Label", job) + EntryOf("Program", executor) + KeyOf("ProgramArguments")
  }

  /** The same without the Program entry. */
  function NamesOnly(job: string): seq<Piece> {
    EntryOf("Label", job) + KeyOf("ProgramArguments")
  }

  /** Everything up to the arguments that follow the executor. */
  function Head(names: seq<Piece>, executor: string): seq<Piece> {
    Prologue() + names + ([C("\n\t")] + [T("array")] + StringOf("\n\t\t", executor))
  }

  /** The settings that follow the arguments. */
  datatype Setting =
    | Path(key: string, value: string) | Flag(key: string, on: bool) | Number(key: string, digits: string)

  function SettingOf(s: Setting): seq<Piece> {
    match s
    case Path(key, value) => EntryOf(key, value)
    case Flag(key, on) => FlagOf(key, if on then "true/" else "false/")
    case Number(key, digits) => NumberOf(key, digits)
  }

  function SettingsOf(settings: seq<Setting>): seq<Piece> {
    if settings == [] then [] else SettingOf(settings[0]) + SettingsOf(settings[1..])
  }

  function Settings(workDir: string, log: string): seq<Setting> {
    [Path("WorkingDirectory", workDir), Flag("RunAtLoad", true), Flag("KeepAlive", false),
     Flag("LaunchOnlyOnce", true), Flag("AbandonProcessGroup", false), Number("Umask", "63"),
     Number("ExitTimeOut", "15"), Path("StandardOutPath", log), Path("StandardErrorPath", log)]
  }

  function Epilogue(): seq<Piece> {
    EndLine("\n", "dict") + EndLine("\n", "plist") + [C("\n")]
  }

  function Rest(workDir: string, log: string): seq<Piece> {
    EndLine("\n\t", "array") + SettingsOf(Settings(workDir, log)) + Epilogue()
  }

  function DocumentOf(names: seq<Piece>, executor: string, args: seq<string>, workDir: string, log: string)
    : seq<Piece>
  {
    Head(names, executor) + Items(args) + Rest(workDir, log)
  }

  function Document(job: string, executor: string, args: seq<string>, workDir: string, log: string): seq<Piece> {
    DocumentOf(Names(job, executor), executor, args, workDir, log)
  }

  predicate NeedsEscaping(arg: string) { exists i :: 0 <= i < |arg| && arg[i] in "<>&\"" }

  predicate Accepts(job: string, executor: string, args: seq<string>, workDir: string) {
    && job != "" && IsAbs(executor) && IsAbs(workDir)
    && forall i | 0 <= i < |args| :: !NeedsEscaping(args[i])
  }

  lemma {:induction false} RenderCat(a: seq<Piece>, b: seq<Piece>)
    ensures Render(a + b) == Render(a) + Render(b)
  {
    if a == [] {
      assert a + b == b;
    } else {
      assert (a + b)[1..] == a[1..] + b;
      RenderCat(a[1..], b);
    }
  }

  // ----- the text of a job, line by line

  function Tagged(indent: string, name: string, text: string): string {
    indent + ("<" + name + ">") + (text + ("</" + name + ">"))
  }

  function KeyText(key: string): string { Tagged("\n\t", "key", key) }

  function PathText(key: string, value: string): string { KeyText(key) + Tagged("\n\t", "string", value) }

  function HeaderText(): string {
    "<?xml version=\"1.0\" encoding=\"UTF-8\"?>\n" +
    ("<!DOCTYPE plist PUBLIC " + "\"-//Apple//DTD PLIST 1.0//EN\"" + " " +
     "\"http://www.apple.com/DTDs/" + "PropertyList-1.0.dtd\"" + ">\n") +
    ("<plist version=\"1.0\">\n" + "<dict>")
  }

  function ProgramText(job: string, executor: string): string {
    PathText("Label", job) + PathText("Program", executor) + KeyText("ProgramArguments") + "\n\t<array>" +
    Tagged("\n\t\t", "string", executor)
  }

  function ArgumentsText(args: seq<string>): string {
    if args == [] then ""
    else ArgumentsText(args[..|args| - 1]) + Tagged("\n\t\t", "string", args[|args| - 1])
  }

  /** The job starts once when it is loaded and is never started again or kept alive. */
  function SettingsText(workDir: string, log: string): string {
    PathText("WorkingDirectory", workDir) +
    (KeyText("RunAtLoad") + "\n\t<true/>" +
     (KeyText("KeepAlive") + "\n\t<false/>" +
      (KeyText("LaunchOnlyOnce") + "\n\t<true/>" +
       (KeyText("AbandonProcessGroup") + "\n\t<false/>" +
        ((KeyText("Umask") + Tagged("\n\t", "integer", "63")) +
         ((KeyText("ExitTimeOut") + Tagged("\n\t", "integer", "15")) +
          (PathText("StandardOutPath", log) + PathText("StandardErrorPath", log))))))))
  }

  function JobText(job: string, executor: string, args: seq<string>, workDir: string, log: string): string {
    HeaderText() + ProgramText(job, executor) + ArgumentsText(args) +
    ("\n\t</array>" + SettingsText(workDir, log) + ("\n</dict>" + "\n</plist>" + "\n"))
  }

  lemma RenderTwo(a: Piece, b: Piece)
    ensures Render([a]) == (match a case T(c) => "<" + c + ">" case C(t) => t)
    ensures Render([a] + [b]) == Render([a]) + Render([b])
  {
    RenderCat([a], [b]);
  }

  lemma RenderElement(indent: string, name: string, text: string)
    ensures Render(Element(indent, name, text)) == Tagged(indent, name, text)
  {
    RenderTwo(C(indent), T(name));
    RenderTwo(C(text), T("/" + name));
    RenderTwo(T(name), C(text));
    RenderTwo(T("/" + name), C(text));
    RenderCat([C(indent)] + [T(name)], [C(text)] + [T("/" + name)]);
    assert "<" + ("/" + name) + ">" == "</" + name + ">";
  }

  lemma RenderEntry(key: string, value: string)
    ensures Render(KeyOf(key)) == KeyText(key)
    ensures Render(EntryOf(key, value)) == PathText(key, value)
  {
    RenderElement("\n\t", "key", key);
    RenderElement("\n\t", "string", value);
    RenderCat(KeyOf(key), StringOf("\n\t", value));
  }

  lemma RenderFlag(key: string, value: string)
    ensures Render(FlagOf(key, value)) == KeyText(key) + ("\n\t" + "<" + value + ">")
  {
    RenderElement("\n\t", "key", key);
    RenderTwo(C("\n\t"), T(value));
    RenderTwo(T(value), C("\n\t"));
    RenderCat(KeyOf(key), [C("\n\t")] + [T(value)]);
  }

  lemma RenderNumber(key: string, digits: string)
    ensures Render(NumberOf(key, digits)) == KeyText(key) + Tagged("\n\t", "integer", digits)
  {
    RenderElement("\n\t", "key", key);
    RenderElement("\n\t", "integer", digits);
    RenderCat(KeyOf(key), Element("\n\t", "integer", digits));
  }

  lemma RenderLine(content: string, indent: string)
    ensures Render(TagLine(content, indent)) == "<" + content + ">" + indent
    ensures Render(EndLine(indent, content)) == indent + "</" + content + ">"
  {
    RenderTwo(T(content), C(indent));
    RenderTwo(C(indent), T("/" + content));
    RenderTwo(T("/" + content), C(indent));
    assert "<" + ("/" + content) + ">" == "</" + content + ">";
  }

  lemma RenderHeader()
    ensures Render(Prologue()) == HeaderText()
  {
    RenderLine(XML_DECLARATION, "\n");
    RenderLine(DOCTYPE, "\n");
    RenderLine("plist version=\"1.0\"", "\n");
    RenderTwo(T("dict"), T("dict"));
    RenderCat(TagLine(XML_DECLARATION, "\n"), TagLine(DOCTYPE, "\n"));
    RenderCat(Declarations(), TagLine("plist version=\"1.0\"", "\n"));
    RenderCat(Declarations() + TagLine("plist version=\"1.0\"", "\n"), [T("dict")]);
    XmlSpelled();
    DoctypeSpelled();
    PlistSpelled();
  }

  lemma XmlSpelled()
    ensures "<" + XML_DECLARATION + ">" + "\n" == "<?xml version=\"1.0\" encoding=\"UTF-8\"?>\n"
  {
  }

  lemma DoctypeSpelled()
    ensures "<" + DOCTYPE + ">" + "\n" == "<!DOCTYPE plist PUBLIC " + "\"-//Apple//DTD PLIST 1.0//EN\"" + " " +
                                         "\"http://www.apple.com/DTDs/" + "PropertyList-1.0.dtd\"" + ">\n"
  {
    var a, b, c, d := "!DOCTYPE plist PUBLIC ", PUBLIC_ID, "\"http://www.apple.com/DTDs/", "PropertyList-1.0.dtd\"";
    Regrouped(a, b, c, d);
    assert "<" + a == "<!DOCTYPE plist PUBLIC ";
  }

  lemma PlistSpelled()
    ensures "<" + "plist version=\"1.0\"" + ">" + "\n" + ("<" + "dict" + ">") == "<plist version=\"1.0\">\n" + "<dict>"
  {
    assert "<" + "plist version=\"1.0\"" + ">" + "\n" == "<plist version=\"1.0\">\n";
    assert "<" + "dict" + ">" == "<dict>";
  }

  lemma Regrouped(a: string, b: string, c: string, d: string)
    ensures "<" + (a + b + " " + (c + d)) + ">" + "\n" == ("<" + a) + b + " " + c + d + ">\n"
  {
  }

  lemma RenderProgram(job: string, executor: string)
    ensures Render(Names(job, executor) + ([C("\n\t")] + [T("array")] + StringOf("\n\t\t", executor))) ==
            ProgramText(job, executor)
  {
    RenderEntry("Label", job);
    RenderEntry("Program", executor);
    RenderEntry("ProgramArguments", "");
    RenderCat(EntryOf("Label", job), EntryOf("Program", executor));
    RenderCat(EntryOf("Label", job) + EntryOf("Program", executor), KeyOf("ProgramArguments"));
    RenderTwo(C("\n\t"), T("array"));
    RenderTwo(T("array"), C("\n\t"));
    RenderElement("\n\t\t", "string", executor);
    RenderCat([C("\n\t")] + [T("array")], StringOf("\n\t\t", executor));
    RenderCat(Names(job, executor), [C("\n\t")] + [T("array")] + StringOf("\n\t\t", executor));
    assert "\n\t" + ("<" + "array" + ">") == "\n\t<array>";
  }

  lemma {:induction false} RenderItems(args: seq<string>)
    ensures Render(Items(args)) == ArgumentsText(args)
  {
    if args != [] {
      var n := |args| - 1;
      RenderItems(args[..n]);
      RenderElement("\n\t\t", "string", args[n]);
      RenderCat(Items(args[..n]), StringOf("\n\t\t", args[n]));
    }
  }

  lemma RenderSetting(s: Setting, rest: seq<Setting>)
    ensures Render(SettingsOf([s] + rest)) == Render(SettingOf(s)) + Render(SettingsOf(rest))
  {
    assert ([s] + rest)[1..] == rest;
    RenderCat(SettingOf(s), SettingsOf(rest));
  }

  lemma RenderSwitch(key: string, on: bool)
    ensures Render(SettingOf(Flag(key, on))) == KeyText(key) + (if on then "\n\t<true/>" else "\n\t<false/>")
  {
    RenderFlag(key, if on then "true/" else "false/");
    assert "\n\t" + "<" + "true/" + ">" == "\n\t<true/>" && "\n\t" + "<" + "false/" + ">" == "\n\t<false/>";
  }

  lemma RenderLogs(log: string)
    ensures Render(SettingsOf([Path("StandardOutPath", log), Path("StandardErrorPath", log)])) ==
            PathText("StandardOutPath", log) + PathText("StandardErrorPath", log)
  {
    RenderEntry("StandardOutPath", log);
    RenderEntry("StandardErrorPath", log);
    RenderSetting(Path("StandardErrorPath", log), []);
    RenderSetting(Path("StandardOutPath", log), [Path("StandardErrorPath", log)]);
    assert [Path("StandardErrorPath", log)] + [] == [Path("StandardErrorPath", log)];
    assert [Path("StandardOutPath", log)] + [Path("StandardErrorPath", log)] ==
           [Path("StandardOutPath", log), Path("StandardErrorPath", log)];
  }

  lemma RenderNumberSetting(key: string, digits: string, rest: seq<Setting>)
    ensures Render(SettingsOf([Number(key, digits)] + rest)) ==
            (KeyText(key) + Tagged("\n\t", "integer", digits)) + Render(SettingsOf(rest))
  {
    RenderNumber(key, digits);
    RenderSetting(Number(key, digits), rest);
  }

  function Limits(log: string): seq<Setting> {
    [Number("Umask", "63")] +
    ([Number("ExitTimeOut", "15")] + [Path("StandardOutPath", log), Path("StandardErrorPath", log)])
  }

  /** The last settings: the limits and the log. */
  lemma RenderLimits(log: string)
    ensures Render(SettingsOf(Limits(log))) ==
            (KeyText("Umask") + Tagged("\n\t", "integer", "63")) +
            ((KeyText("ExitTimeOut") + Tagged("\n\t", "integer", "15")) +
             (PathText("StandardOutPath", log) + PathText("StandardErrorPath", log)))
  {
    var logs := [Path("StandardOutPath", log), Path("StandardErrorPath", log)];
    RenderLogs(log);
    RenderNumberSetting("ExitTimeOut", "15", logs);
    RenderNumberSetting("Umask", "63", [Number("ExitTimeOut", "15")] + logs);
  }

  lemma RenderSettings(workDir: string, log: string)
    ensures Render(SettingsOf(Settings(workDir, log))) == SettingsText(workDir, log)
  {
    var limits := Limits(log);
    var flags4 := [Flag("AbandonProcessGroup", false)] + limits;
    var flags3 := [Flag("LaunchOnlyOnce", true)] + flags4;
    var flags2 := [Flag("KeepAlive", false)] + flags3;
    var flags1 := [Flag("RunAtLoad", true)] + flags2;
    RenderLimits(log);
    RenderSwitch("AbandonProcessGroup", false);
    RenderSwitch("LaunchOnlyOnce", true);
    RenderSwitch("KeepAlive", false);
    RenderSwitch("RunAtLoad", true);
    RenderEntry("WorkingDirectory", workDir);
    RenderSetting(Flag("AbandonProcessGroup", false), limits);
    RenderSetting(Flag("LaunchOnlyOnce", true), flags4);
    RenderSetting(Flag("KeepAlive", false), flags3);
    RenderSetting(Flag("RunAtLoad", true), flags2);
    RenderSetting(Path("WorkingDirectory", workDir), flags1);
    assert [Path("WorkingDirectory", workDir)] + flags1 == Settings(workDir, log);
  }

  lemma RenderEnd()
    ensures Render(Epilogue()) == "\n</dict>" + "\n</plist>" + "\n"
  {
    RenderLine("dict", "\n");
    RenderLine("plist", "\n");
    RenderTwo(C("\n"), C("\n"));
    RenderCat(EndLine("\n", "dict"), EndLine("\n", "plist"));
    RenderCat(EndLine("\n", "dict") + EndLine("\n", "plist"), [C("\n")]);
    assert "\n" + "</" + "dict" + ">" == "\n</dict>" && "\n" + "</" + "plist" + ">" == "\n</plist>";
  }

  lemma RenderRest(workDir: string, log: string)
    ensures Render(Rest(workDir, log)) ==
            "\n\t</array>" + SettingsText(workDir, log) + ("\n</dict>" + "\n</plist>" + "\n")
  {
    RenderLine("array", "\n\t");
    RenderSettings(workDir, log);
    RenderEnd();
    RenderCat(EndLine("\n\t", "array"), SettingsOf(Settings(workDir, log)));
    RenderCat(EndLine("\n\t", "array") + SettingsOf(Settings(workDir, log)), Epilogue());
    assert "\n\t" + "</" + "array" + ">" == "\n\t</array>";
  }

  lemma RenderHead(job: string, executor: string)
    ensures Render(Head(Names(job, executor), executor)) == HeaderText() + ProgramText(job, executor)
  {
    var opening := [C("\n\t")] + [T("array")] + StringOf("\n\t\t", executor);
    RenderHeader();
    RenderProgram(job, executor);
    CatAssoc(Prologue(), Names(job, executor), opening);
    RenderCat(Prologue(), Names(job, executor) + opening);
  }

  /** The document reads exactly as the job is to be written. */
  lemma RenderedText(job: string, executor: string, args: seq<string>, workDir: string, log: string)
    ensures Render(Document(job, executor, args, workDir, log)) == JobText(job, executor, args, workDir, log)
  {
    RenderHead(job, executor);
    RenderItems(args);
    RenderRest(workDir, log);
    RenderCat(Head(Names(job, executor), executor), Items(args));
    RenderCat(Head(Names(job, executor), executor) + Items(args), Rest(workDir, log));
  }

  /** Which inputs are written. */
  lemma AcceptsSays(job: string, executor: string, args: seq<string>, workDir: string)
    ensures Accepts(job, executor, args, workDir) <==>
              && job != "" && executor != "" && executor[0] == '/' && workDir != "" && workDir[0] == '/'
              && forall i | 0 <= i < |args| ::
                   '<' !in args[i] && '>' !in args[i] && '&' !in args[i] && '\"' !in args[i]
  {
    forall i | 0 <= i < |args|
      ensures NeedsEscaping(args[i]) <==> '<' in args[i] || '>' in args[i] || '&' in args[i] || '\"' in args[i]
    {
      EscapingSays(args[i]);
    }
  }

  lemma EscapingSays(arg: string)
    ensures NeedsEscaping(arg) <==> '<' in arg || '>' in arg || '&' in arg || '\"' in arg
  {
    assert forall c: char :: c in "<>&\"" <==> c == '<' || c == '>' || c == '&' || c == '\"';
    if c :| c in arg && (c == '<' || c == '>' || c == '&' || c == '\"') {
      var i :| 0 <= i < |arg| && arg[i] == c;
    }
  }

  /** Renders the job, or refuses inputs it could not represent. Only the arguments are checked for
      characters that need escaping. */
  method TaskPlist(job: string, executor: string, args: seq<string>, workDir: string, log: string)
    returns (plist: Option<string>)
    ensures plist == if Accepts(job, executor, args, workDir)
                     then Some(Render(Document(job, executor, args, workDir, log))) else None
    ensures plist.Some? <==>
              && job != "" && executor != "" && executor[0] == '/' && workDir != "" && workDir[0] == '/'
              && forall i | 0 <= i < |args| ::
                   '<' !in args[i] && '>' !in args[i] && '&' !in args[i] && '\"' !in args[i]
    ensures plist.Some? ==> plist.value == JobText(job, executor, args, workDir, log)
  {
    AcceptsSays(job, executor, args, workDir);
    if job == "" || !IsAbs(executor) || !IsAbs(workDir) {
      return None;
    }
    for i := 0 to |args|
      invariant forall j | 0 <= j < i :: !NeedsEscaping(args[j])
    {
      if NeedsEscaping(args[i]) {
        return None;
      }
    }
    RenderedText(job, executor, args, workDir, log);
    var text := RenderJob(job, executor, args, workDir, log);
    return Some(text);
  }

  /** Writes the job piece by piece. */
  method RenderJob(job: string, executor: string, args: seq<string>, workDir: string, log: string)
    returns (text: string)
    ensures text == Render(Document(job, executor, args, workDir, log))
  {
    var head := Head(Names(job, executor), executor);
    text := Render(head);
    assert head + Items(args[..0]) == head;
    for i := 0 to |args|
      invariant text == Render(head + Items(args[..i]))
    {
      var item := StringOf("\n\t\t", args[i]);
      RenderCat(head + Items(args[..i]), item);
      assert args[..i + 1][..i] == args[..i];
      assert head + Items(args[..i + 1]) == head + Items(args[..i]) + item;
      text := text + Render(item);
    }
    assert args[..|args|] == args;
    RenderCat(head + Items(args), Rest(workDir, log));
    text := text + Render(Rest(workDir, log));
  }

  // ----- round trip

  /** Pieces that lex back to themselves: plain text, tags without angle brackets, and a tag after
      every text, so that neighbouring texts do not run together. */
  predicate Clean(pieces: seq<Piece>) {
    pieces == [] ||
    (CleanPiece(pieces[0]) && Clean(pieces[1..]) && (pieces[0].C? && |pieces| > 1 ==> pieces[1].T?))
  }

  predicate CleanPiece(p: Piece) {
    match p
    case T(c) => Tag(c).Some? && '>' !in c
    case C(t) => PlainText(t)
  }

  function TokensOf(p: Piece): seq<Token>
    requires CleanPiece(p)
  {
    match p
    case T(c) => Tag(c).value
    case C(t) => if t == "" then [] else [Text(Folded(t))]
  }

  function Tokens(pieces: seq<Piece>): seq<Token>
    requires Clean(pieces)
  {
    if pieces == [] then [] else TokensOf(pieces[0]) + Tokens(pieces[1..])
  }

  lemma FindsFirst(s: string, c: char, i: nat, k: nat)
    requires i <= k < |s| && s[k] == c && c !in s[i..k]
    ensures IndexOf(s, c, i) == k
  {
    var j := IndexOf(s, c, i);
  }

  lemma LexTag(c: string, rest: string)
    requires '>' !in c
    ensures Lex("<" + c + ">" + rest) == Both(Tag(c), Lex(rest))
  {
    var s := "<" + c + ">" + rest;
    assert s[1..|c| + 1] == c && s[|c| + 2..] == rest;
    FindsFirst(s, '>', 1, |c| + 1);
  }

  lemma LexText(t: string, rest: string)
    requires '<' !in t && t != "" && (rest == "" || rest[0] == '<')
    ensures Lex(t + rest) == Both(LexOf(C(t)), Lex(rest))
  {
    var s := t + rest;
    assert s[..|t|] == t && s[|t|..] == rest;
    if rest == "" {
      assert s == t;
    } else {
      assert s[0..|t|] == t;
      FindsFirst(s, '<', 0, |t|);
    }
  }

  /** Pieces whose texts do not open tags, with a tag after every text. */
  predicate Shaped(pieces: seq<Piece>) {
    pieces == [] ||
    (ShapedPiece(pieces[0]) && Shaped(pieces[1..]) && (pieces[0].C? && |pieces| > 1 ==> pieces[1].T?))
  }

  predicate ShapedPiece(p: Piece) {
    match p
    case T(c) => Tag(c).Some? && '>' !in c
    case C(t) => '<' !in t
  }

  function LexOf(p: Piece): Option<seq<Token>> {
    match p
    case T(c) => Tag(c)
    case C(t) => if t == "" then Some([]) else if PlainText(t) then Some([Text(Folded(t))]) else None
  }

  function LexAll(pieces: seq<Piece>): Option<seq<Token>> {
    if pieces == [] then Some([]) else Both(LexOf(pieces[0]), LexAll(pieces[1..]))
  }

  /** A rendered document lexes piece by piece. */
  lemma {:induction false} LexShaped(pieces: seq<Piece>)
    requires Shaped(pieces)
    ensures Lex(Render(pieces)) == LexAll(pieces)
  {
    if pieces != [] {
      var rest := Render(pieces[1..]);
      LexShaped(pieces[1..]);
      match pieces[0]
      case T(c) => LexTag(c, rest);
      case C(t) =>
        if t != "" {
          assert rest == "" || rest[0] == '<';
          LexText(t, rest);
        } else {
          assert t + rest == rest;
          assert LexAll(pieces[1..]).Some? ==> [] + LexAll(pieces[1..]).value == LexAll(pieces[1..]).value;
        }
    }
  }

  lemma {:induction false} CleanLexes(pieces: seq<Piece>)
    requires Clean(pieces)
    ensures Shaped(pieces) && LexAll(pieces) == Some(Tokens(pieces))
  {
    if pieces != [] {
      CleanLexes(pieces[1..]);
    }
  }

  /** Lexing undoes rendering. */
  lemma LexRender(pieces: seq<Piece>)
    requires Clean(pieces)
    ensures Lex(Render(pieces)) == Some(Tokens(pieces))
  {
    CleanLexes(pieces);
    LexShaped(pieces);
  }

  /** One text that is not plain spoils the whole document. */
  lemma {:induction false} LexDirty(pieces: seq<Piece>, text: string)
    requires C(text) in pieces && !PlainText(text)
    ensures LexAll(pieces).None?
  {
    if pieces[0] != C(text) {
      LexDirty(pieces[1..], text);
    }
  }

  lemma {:induction false} FeedCat(r: Reader, a: seq<Token>, b: seq<Token>)
    ensures FeedAll(r, a + b) == (var m := FeedAll(r, a); if m.None? then None else FeedAll(m.value, b))
    decreases |a|
  {
    if a == [] {
      assert a + b == b;
    } else {
      assert (a + b)[1..] == a[1..] + b;
      if Feed(r, a[0]).Some? {
        FeedCat(Feed(r, a[0]).value, a[1..], b);
      }
    }
  }

  predicate Separated(a: seq<Piece>, b: seq<Piece>) {
    a == [] || b == [] || a[|a| - 1].T? || b[0].T?
  }

  lemma SeparatedTail(a: seq<Piece>, b: seq<Piece>)
    requires a != [] && Separated(a, b)
    ensures (a + b)[0] == a[0] && (a + b)[1..] == a[1..] + b && Separated(a[1..], b)
    ensures |a + b| > 1 ==> (a + b)[1] == if |a| > 1 then a[1] else b[0]
  {
  }

  lemma {:induction false} TokensCat(a: seq<Piece>, b: seq<Piece>)
    requires Clean(a) && Clean(b) && Separated(a, b)
    ensures Clean(a + b) && Tokens(a + b) == Tokens(a) + Tokens(b)
  {
    if a == [] {
      assert a + b == b;
    } else {
      SeparatedTail(a, b);
      TokensCat(a[1..], b);
      CatAssoc(TokensOf(a[0]), Tokens(a[1..]), Tokens(b));
    }
  }

  lemma CatAssoc<X>(a: seq<X>, b: seq<X>, c: seq<X>)
    ensures a + (b + c) == a + b + c
  {
  }

  /** Reading these pieces takes one reader state to the other. */
  predicate Reads(r: Reader, pieces: seq<Piece>, r': Reader) {
    Clean(pieces) && FeedAll(r, Tokens(pieces)) == Some(r')
  }

  lemma Then(r: Reader, a: seq<Piece>, m: Reader, b: seq<Piece>, r': Reader)
    requires Reads(r, a, m) && Reads(m, b, r') && Separated(a, b)
    ensures Reads(r, a + b, r')
  {
    TokensCat(a, b);
    FeedCat(r, Tokens(a), Tokens(b));
  }

  predicate EndsTag(pieces: seq<Piece>) {
    pieces != [] && pieces[|pieces| - 1].T?
  }

  lemma Then3(r0: Reader, a: seq<Piece>, r1: Reader, b: seq<Piece>, r2: Reader, c: seq<Piece>, r3: Reader)
    requires Reads(r0, a, r1) && Reads(r1, b, r2) && Reads(r2, c, r3) && EndsTag(a) && EndsTag(b)
    ensures Reads(r0, a + b + c, r3)
  {
    Then(r0, a, r1, b, r2);
    Then(r0, a + b, r2, c, r3);
  }

  lemma OneToken(r: Reader, t: Token)
    ensures FeedAll(r, [t]) == Feed(r, t)
  {
  }

  lemma OpenTag(name: string)
    requires name != "" && ' ' !in name && name[0] != '?' && name[0] != '!' && name[0] != '/' && name[|name| - 1] != '/'
    ensures Tag(name) == Some([Open(name)])
  {
    assert name[..|name|] == name;
  }

  /** What decoding text makes of a state just after an element was opened. */
  function Said(r: Reader, text: string): Reader {
    if r.capture.Free? then r else r.(capture := r.capture.(text := r.capture.text + text))
  }

  /** An element around plain text, from a state in which nothing is being decoded. */
  lemma ReadsElement(r: Reader, indent: string, name: string, text: string)
    requires r.capture.Free? && PlainText(indent) && PlainText(text)
    requires name == "key" || name == "string" || name == "integer"
    ensures Reads(r, Element(indent, name, text), Closed(Said(Opened(r, name), Folded(text)), name))
  {
    var o := Opened(r, name);
    OpenedFor(r, name);
    ReadsOpening(r, indent, name);
    ReadsClosing(o, text, name);
    Then(r, [C(indent)] + [T(name)], o, [C(text)] + [T("/" + name)], Closed(Said(o, Folded(text)), name));
  }

  lemma OpenedFor(r: Reader, name: string)
    requires r.capture.Free? && (name == "key" || name == "string" || name == "integer")
    ensures var o := Opened(r, name);
            '>' !in name && o.open == r.open + [name] && (o.capture.Free? || o.capture.depth == |o.open|)
  {
  }

  lemma ReadsOpening(r: Reader, indent: string, name: string)
    requires r.capture.Free? && PlainText(indent) && (name == "key" || name == "string" || name == "integer")
    ensures Reads(r, [C(indent)] + [T(name)], Opened(r, name))
  {
    OpenTag(name);
    ReadsText(r, indent);
    ReadsTag(r, name, Open(name), Opened(r, name));
    Then(r, [C(indent)], r, [T(name)], Opened(r, name));
  }

  lemma ReadsClosing(o: Reader, text: string, name: string)
    requires PlainText(text) && (o.capture.Free? || o.capture.depth == |o.open|)
    requires o.open != [] && o.open[|o.open| - 1] == name && '>' !in name
    ensures Reads(o, [C(text)] + [T("/" + name)], Closed(Said(o, Folded(text)), name))
  {
    assert ("/" + name)[1..] == name;
    ReadsText(o, text);
    var said := Said(o, Folded(text));
    ReadsTag(said, "/" + name, Close(name), Closed(said, name));
    Then(o, [C(text)], said, [T("/" + name)], Closed(said, name));
  }

  lemma ReadsText(r: Reader, text: string)
    requires PlainText(text) && (r.capture.Free? || r.capture.depth == |r.open|)
    ensures Reads(r, [C(text)], Said(r, Folded(text)))
  {
    var ps := [C(text)];
    assert ps[1..] == [] && Tokens(ps) == TokensOf(C(text));
    if text == "" {
      assert !r.capture.Free? ==> r.capture.text + text == r.capture.text;
    } else {
      OneToken(r, Text(Folded(text)));
    }
  }

  lemma ReadsTag(r: Reader, content: string, t: Token, r': Reader)
    requires Tag(content) == Some([t]) && '>' !in content && Feed(r, t) == Some(r')
    ensures Reads(r, [T(content)], r')
  {
    var ps := [T(content)];
    assert ps[1..] == [] && Tokens(ps) == [t];
    OneToken(r, t);
  }

  /** Directly inside the job's dict, with nothing being decoded. */
  predicate InDict(r: Reader) { r.capture.Free? && r.dictOpen == 1 }

  lemma KeyRead(r: Reader, key: string)
    requires InDict(r)
    ensures Closed(Said(Opened(r, "key"), key), "key") == r.(pending := key)
  {
    assert (r.open + ["key"])[..|r.open|] == r.open;
    assert "" + key == key;
  }

  lemma ReadsKey(r: Reader, key: string)
    requires InDict(r) && Word(key)
    ensures Reads(r, KeyOf(key), r.(pending := key))
  {
    WordIsPlain(key);
    FoldedSame(key);
    KeyRead(r, key);
    ReadsElement(r, "\n\t", "key", key);
  }

  /** A string is the program after its key, an argument inside the argument array, else ignored. */
  function AfterString(r: Reader, value: string): Reader {
    if r.pending == "Program" then r.(program := value, pending := "")
    else if r.inArgs then r.(args := r.args + [value])
    else r
  }

  lemma StringRead(r: Reader, value: string)
    requires InDict(r)
    ensures Closed(Said(Opened(r, "string"), value), "string") == AfterString(r, value)
  {
    assert (r.open + ["string"])[..|r.open|] == r.open;
    assert "" + value == value;
  }

  lemma ReadsString(r: Reader, indent: string, value: string)
    requires InDict(r) && PlainText(indent) && PlainText(value)
    ensures Reads(r, StringOf(indent, value), AfterString(r, Folded(value)))
  {
    StringRead(r, Folded(value));
    ReadsElement(r, indent, "string", value);
  }

  lemma ReadsEntry(r: Reader, key: string, value: string)
    requires InDict(r) && Word(key) && PlainText(value) && key != "Program" && !r.inArgs
    ensures Reads(r, EntryOf(key, value), r.(pending := key))
  {
    ReadsKey(r, key);
    ReadsString(r.(pending := key), "\n\t", value);
    Then(r, KeyOf(key), r.(pending := key), StringOf("\n\t", value), r.(pending := key));
  }

  lemma ReadsFlag(r: Reader, key: string, value: string)
    requires InDict(r) && Word(key) && (value == "true/" || value == "false/")
    ensures Reads(r, FlagOf(key, value), r.(pending := key))
  {
    var k := r.(pending := key);
    ReadsKey(r, key);
    ReadsText(k, "\n\t");
    ReadsEmpty(k, value);
    Then(k, [C("\n\t")], k, [T(value)], k);
    Then(r, KeyOf(key), k, [C("\n\t")] + [T(value)], k);
  }

  lemma ReadsEmpty(r: Reader, value: string)
    requires r.capture.Free? && (value == "true/" || value == "false/")
    ensures Reads(r, [T(value)], r)
  {
    var name := value[..|value| - 1];
    assert Tag(value) == Some([Open(name), Close(name)]);
    var ps := [T(value)];
    assert ps[1..] == [] && Tokens(ps) == [Open(name)] + [Close(name)];
    OneToken(r, Open(name));
    OneToken(Opened(r, name), Close(name));
    FeedCat(r, [Open(name)], [Close(name)]);
    assert (r.open + [name])[..|r.open|] == r.open;
  }

  lemma ReadsNumber(r: Reader, key: string, digits: string)
    requires InDict(r) && Word(key) && PlainText(digits)
    ensures Reads(r, NumberOf(key, digits), r.(pending := key))
  {
    var k := r.(pending := key);
    ReadsKey(r, key);
    ReadsElement(k, "\n\t", "integer", digits);
    assert (r.open + ["integer"])[..|r.open|] == r.open;
    Then(r, KeyOf(key), k, Element("\n\t", "integer", digits), k);
  }

  function FoldedAll(args: seq<string>): seq<string> {
    seq(|args|, i requires 0 <= i < |args| => Folded(args[i]))
  }

  lemma FoldedLater(done: seq<string>, args: seq<string>)
    requires args != []
    ensures done + FoldedAll(args[..|args| - 1]) + [Folded(args[|args| - 1])] == done + FoldedAll(args)
  {
  }

  lemma {:induction false} ReadsItems(r: Reader, args: seq<string>)
    requires InDict(r) && r.inArgs && r.pending != "Program"
    requires forall i | 0 <= i < |args| :: PlainText(args[i])
    ensures Reads(r, Items(args), r.(args := r.args + FoldedAll(args)))
    ensures args != [] ==> EndsTag(Items(args))
  {
    if args == [] {
      assert r.args + FoldedAll(args) == r.args;
    } else {
      var n := |args| - 1;
      var item := StringOf("\n\t\t", args[n]);
      ReadsItems(r, args[..n]);
      var m := r.(args := r.args + FoldedAll(args[..n]));
      ReadsString(m, "\n\t\t", args[n]);
      FoldedLater(r.args, args);
      Then(r, Items(args[..n]), m, item, AfterString(m, Folded(args[n])));
    }
  }

  const IN_DICT: Reader := FRESH.(open := ["plist", "dict"], dictOpen := 1, dictSeen := true)

  lemma ReadsAside(content: string)
    requires '>' !in content && content != "" && (content[0] == '?' || content[0] == '!')
    ensures Reads(FRESH, TagLine(content, "\n"), FRESH)
  {
    ReadsTag(FRESH, content, Aside, FRESH);
    ReadsText(FRESH, "\n");
    Then(FRESH, [T(content)], FRESH, [C("\n")], FRESH);
  }

  lemma DoctypeIsAside()
    ensures '>' !in DOCTYPE && DOCTYPE != "" && DOCTYPE[0] == '!'
  {
    assert '>' !in PUBLIC_ID;
    assert '>' !in "\"http://www.apple.com/DTDs/";
    assert '>' !in "PropertyList-1.0.dtd\"";
    assert '>' !in SYSTEM_ID;
    assert '>' !in "!DOCTYPE plist PUBLIC ";
    assert "!DOCTYPE plist PUBLIC "[0] == '!';
  }

  lemma OpensPlist(p: Reader)
    requires p == FRESH.(open := ["plist"])
    ensures Opened(FRESH, "plist") == p
  {
    assert "plist"[0] != "array"[0];
    assert FRESH.open + ["plist"] == p.open;
  }

  lemma VersionTag()
    ensures Tag("plist version=\"1.0\"") == Some([Open("plist")])
  {
    FindsFirst("plist version=\"1.0\"", ' ', 0, 5);
    assert "plist version=\"1.0\""[..5] == "plist";
  }

  lemma ReadsVersion()
    ensures Reads(FRESH, TagLine("plist version=\"1.0\"", "\n"), FRESH.(open := ["plist"]))
  {
    var p := FRESH.(open := ["plist"]);
    var version := "plist version=\"1.0\"";
    VersionTag();
    OpensPlist(p);
    ReadsTag(FRESH, version, Open("plist"), p);
    ReadsText(p, "\n");
    Then(FRESH, [T(version)], p, [C("\n")], p);
  }

  lemma ReadsDeclarations()
    ensures Reads(FRESH, Declarations(), FRESH)
  {
    DoctypeIsAside();
    ReadsAside(XML_DECLARATION);
    ReadsAside(DOCTYPE);
    Then(FRESH, TagLine(XML_DECLARATION, "\n"), FRESH, TagLine(DOCTYPE, "\n"), FRESH);
  }

  lemma ReadsDictOpening()
    ensures Reads(FRESH.(open := ["plist"]), [T("dict")], IN_DICT)
  {
    var p := FRESH.(open := ["plist"]);
    OpenTag("dict");
    assert p.open + ["dict"] == IN_DICT.open;
    ReadsTag(p, "dict", Open("dict"), IN_DICT);
  }

  lemma ReadsPrologue()
    ensures Reads(FRESH, Prologue(), IN_DICT)
  {
    ReadsDeclarations();
    ReadsVersion();
    ReadsDictOpening();
    PrologueInOrder(Declarations(), TagLine("plist version=\"1.0\"", "\n"), [T("dict")]);
  }

  lemma PrologueInOrder(declarations: seq<Piece>, version: seq<Piece>, dict: seq<Piece>)
    requires Reads(FRESH, declarations, FRESH) && Reads(FRESH, version, FRESH.(open := ["plist"]))
    requires Reads(FRESH.(open := ["plist"]), dict, IN_DICT)
    requires version != [] && version[0].T? && dict != [] && dict[0].T?
    ensures Reads(FRESH, declarations + version + dict, IN_DICT)
  {
    Then(FRESH, declarations, FRESH, version, FRESH.(open := ["plist"]));
    Then(FRESH, declarations + version, FRESH.(open := ["plist"]), dict, IN_DICT);
  }

  /** Inside the argument array, with the program known. */
  function InArray(executor: string, args: seq<string>): Reader {
    IN_DICT.(open := ["plist", "dict", "array"], program := executor, args := args, inArgs := true,
             pending := "ProgramArguments")
  }

  lemma ReadsProgram(r: Reader, executor: string)
    requires InDict(r) && PlainText(executor)
    ensures Reads(r, EntryOf("Program", executor), r.(program := Folded(executor), pending := ""))
  {
    var k := r.(pending := "Program");
    WordsInArray();
    ReadsKey(r, "Program");
    ReadsString(k, "\n\t", executor);
    Then(r, KeyOf("Program"), k, StringOf("\n\t", executor), AfterString(k, Folded(executor)));
  }

  lemma ReadsArrayOpening(r: Reader)
    requires InDict(r) && r.pending == "ProgramArguments"
    ensures Reads(r, [C("\n\t")] + [T("array")], r.(open := r.open + ["array"], inArgs := true))
  {
    OpenTag("array");
    ReadsText(r, "\n\t");
    assert "array"[0] != "dict"[0] && |"array"| != |"key"| && |"array"| != |"string"|;
    ReadsTag(r, "array", Open("array"), r.(open := r.open + ["array"], inArgs := true));
    Then(r, [C("\n\t")], r, [T("array")], r.(open := r.open + ["array"], inArgs := true));
  }

  /** The reader inside the dictionary, about to read the arguments. */
  function Named(program: string): Reader {
    IN_DICT.(program := program, pending := "ProgramArguments")
  }

  lemma ReadsNames(job: string, executor: string)
    requires PlainText(job) && PlainText(executor)
    ensures Reads(IN_DICT, Names(job, executor), Named(Folded(executor))) && EndsTag(Names(job, executor))
  {
    var r1 := IN_DICT.(pending := "Label");
    var r2 := IN_DICT.(program := Folded(executor), pending := "");
    WordsInArray();
    ReadsEntry(IN_DICT, "Label", job);
    ReadsProgram(r1, executor);
    ReadsKey(r2, "ProgramArguments");
    Then3(IN_DICT, EntryOf("Label", job), r1, EntryOf("Program", executor), r2, KeyOf("ProgramArguments"),
          Named(Folded(executor)));
  }

  lemma ReadsNamesOnly(job: string)
    requires PlainText(job)
    ensures Reads(IN_DICT, NamesOnly(job), Named("")) && EndsTag(NamesOnly(job))
  {
    var r1 := IN_DICT.(pending := "Label");
    WordsInArray();
    ReadsEntry(IN_DICT, "Label", job);
    ReadsKey(r1, "ProgramArguments");
    Then(IN_DICT, EntryOf("Label", job), r1, KeyOf("ProgramArguments"), Named(""));
  }

  lemma ReadsHead(names: seq<Piece>, program: string, executor: string)
    requires Reads(IN_DICT, names, Named(program)) && EndsTag(names) && PlainText(executor)
    ensures Reads(FRESH, Head(names, executor), InArray(program, [Folded(executor)]))
    ensures EndsTag(Head(names, executor))
  {
    ReadsPrologue();
    ReadsArray(program, executor);
    Then3(FRESH, Prologue(), IN_DICT, names, Named(program), [C("\n\t")] + [T("array")] + StringOf("\n\t\t", executor),
          InArray(program, [Folded(executor)]));
  }

  lemma ReadsArray(program: string, executor: string)
    requires PlainText(executor)
    ensures Reads(Named(program), [C("\n\t")] + [T("array")] + StringOf("\n\t\t", executor),
                  InArray(program, [Folded(executor)]))
  {
    var r4 := InArray(program, []);
    ReadsArrayOpening(Named(program));
    assert Named(program).open + ["array"] == r4.open;
    ReadsString(r4, "\n\t\t", executor);
    assert [] + [Folded(executor)] == [Folded(executor)];
    Then(Named(program), [C("\n\t")] + [T("array")], r4, StringOf("\n\t\t", executor),
         InArray(program, [Folded(executor)]));
  }

  predicate PlainSetting(s: Setting) {
    && Word(s.key) && s.key != "Program"
    && (s.Path? ==> PlainText(s.value)) && (s.Number? ==> PlainText(s.digits))
  }

  lemma ReadsSetting(r: Reader, s: Setting)
    requires InDict(r) && !r.inArgs && PlainSetting(s)
    ensures Reads(r, SettingOf(s), r.(pending := s.key)) && EndsTag(SettingOf(s))
  {
    match s
    case Path(key, value) => ReadsEntry(r, key, value);
    case Flag(key, on) => ReadsFlag(r, key, if on then "true/" else "false/");
    case Number(key, digits) => ReadsNumber(r, key, digits);
  }

  /** Settings change nothing but the last key seen. */
  lemma {:induction false} ReadsSettings(r: Reader, settings: seq<Setting>) returns (last: Reader)
    requires InDict(r) && !r.inArgs && forall i | 0 <= i < |settings| :: PlainSetting(settings[i])
    ensures Reads(r, SettingsOf(settings), last) && (settings != [] ==> EndsTag(SettingsOf(settings)))
    ensures last == r.(pending := last.pending)
    decreases |settings|
  {
    if settings == [] {
      return r;
    }
    var m := r.(pending := settings[0].key);
    ReadsSetting(r, settings[0]);
    last := ReadsSettings(m, settings[1..]);
    Then(r, SettingOf(settings[0]), m, SettingsOf(settings[1..]), last);
  }

  lemma WordsInArray()
    ensures Word("Label") && Word("Program") && Word("ProgramArguments") && "Label" != "Program"
  {
  }

  lemma WordsInSettings()
    ensures Word("WorkingDirectory") && Word("RunAtLoad") && Word("KeepAlive") && Word("LaunchOnlyOnce")
  {
  }

  lemma WordsInLimits()
    ensures Word("AbandonProcessGroup") && Word("Umask") && Word("ExitTimeOut")
  {
  }

  lemma WordsInLogs()
    ensures Word("StandardOutPath") && Word("StandardErrorPath")
  {
  }

  lemma NumbersArePlain()
    ensures PlainText("63") && PlainText("15")
  {
  }

  lemma SettingsArePlain(workDir: string, log: string)
    requires PlainText(workDir) && PlainText(log)
    ensures forall i | 0 <= i < |Settings(workDir, log)| :: PlainSetting(Settings(workDir, log)[i])
  {
    WordsInSettings();
    WordsInLimits();
    WordsInLogs();
    NumbersArePlain();
  }

  lemma ReadsClosingTag(r: Reader, indent: string, name: string, r': Reader)
    requires r.capture.Free? && PlainText(indent) && r.open != [] && r.open[|r.open| - 1] == name && '>' !in name
    requires r' == Closed(r, name)
    ensures Reads(r, EndLine(indent, name), r')
  {
    assert ("/" + name)[1..] == name;
    ReadsText(r, indent);
    ReadsTag(r, "/" + name, Close(name), r');
    Then(r, [C(indent)], r, [T("/" + name)], r');
  }

  lemma ReadsEpilogue(r: Reader)
    requires InDict(r) && r.open == ["plist", "dict"]
    ensures Reads(r, Epilogue(), r.(open := [], dictOpen := 0))
  {
    var m, n := r.(open := ["plist"], dictOpen := 0), r.(open := [], dictOpen := 0);
    assert r.open[..1] == m.open && m.open[..0] == n.open && "plist" != "dict" && |"plist"| == |"array"|;
    assert "plist"[0] != "array"[0];
    ReadsClosingTag(r, "\n", "dict", m);
    ReadsClosingTag(m, "\n", "plist", n);
    ReadsText(n, "\n");
    Then3(r, EndLine("\n", "dict"), m, EndLine("\n", "plist"), n, [C("\n")], n);
  }

  lemma ReadsRest(executor: string, args: seq<string>, workDir: string, log: string) returns (last: Reader)
    requires PlainText(workDir) && PlainText(log)
    ensures Reads(InArray(executor, args), Rest(workDir, log), last)
    ensures last.program == executor && last.args == args && last.dictSeen && last.open == []
  {
    var r := InArray(executor, args);
    var m := IN_DICT.(program := executor, args := args);
    assert r.open[..2] == m.open && "array"[0] != "dict"[0];
    ReadsClosingTag(r, "\n\t", "array", m);
    SettingsArePlain(workDir, log);
    var n := ReadsSettings(m, Settings(workDir, log));
    last := n.(open := [], dictOpen := 0);
    ReadsEpilogue(n);
    Then3(r, EndLine("\n\t", "array"), m, SettingsOf(Settings(workDir, log)), n, Epilogue(), last);
  }

  /** What the job says: every string in it is plain text. */
  predicate PlainJob(job: string, executor: string, args: seq<string>, workDir: string, log: string) {
    && PlainText(job) && PlainText(executor) && PlainText(workDir) && PlainText(log)
    && forall i | 0 <= i < |args| :: PlainText(args[i])
  }

  lemma ReadsDocument(names: seq<Piece>, program: string, executor: string, args: seq<string>, workDir: string,
                      log: string)
    returns (last: Reader)
    requires PlainJob("", executor, args, workDir, log) && EndsTag(names) && Reads(IN_DICT, names, Named(program))
    ensures Reads(FRESH, DocumentOf(names, executor, args, workDir, log), last)
    ensures last.program == program && last.args == [Folded(executor)] + FoldedAll(args)
    ensures last.dictSeen && last.open == []
  {
    var first, all := [Folded(executor)], [Folded(executor)] + FoldedAll(args);
    ReadsHead(names, program, executor);
    ReadsItems(InArray(program, first), args);
    last := ReadsRest(program, all, workDir, log);
    Then(FRESH, Head(names, executor), InArray(program, first), Items(args), InArray(program, all));
    Then(FRESH, Head(names, executor) + Items(args), InArray(program, all), Rest(workDir, log), last);
  }

  lemma ParseRead(pieces: seq<Piece>, last: Reader)
    requires Reads(FRESH, pieces, last)
    ensures Parse(Render(pieces)) == Verdict(last)
  {
    LexRender(pieces);
  }

  lemma VerdictOf(last: Reader, path: string)
    requires last.open == [] && last.dictSeen && IsAbs(path)
    requires last.program == path || (last.program == "" && last.args != [] && last.args[0] == path)
    ensures Verdict(last) == Ok(path)
  {
    assert !Blank(path);
  }

  /** What is read back from a plain job is the executor as a reader sees it. */
  lemma ParsesJob(job: string, executor: string, args: seq<string>, workDir: string, log: string)
    requires PlainJob(job, executor, args, workDir, log) && IsAbs(executor)
    ensures Parse(Render(Document(job, executor, args, workDir, log))) == Ok(Folded(executor))
  {
    ReadsNames(job, executor);
    var last := ReadsDocument(Names(job, executor), Folded(executor), executor, args, workDir, log);
    ParseRead(Document(job, executor, args, workDir, log), last);
    FoldedHasNoReturn(executor);
    VerdictOf(last, Folded(executor));
  }

  /** A job for an executor that is not an absolute path is not taken for a program. */
  lemma RelativeRefused(job: string, executor: string, args: seq<string>, workDir: string, log: string)
    requires PlainJob(job, executor, args, workDir, log) && executor != "" && executor[0] != '/'
    ensures Parse(Render(Document(job, executor, args, workDir, log))) == Err(NotAbsolute)
  {
    ReadsNames(job, executor);
    var last := ReadsDocument(Names(job, executor), Folded(executor), executor, args, workDir, log);
    ParseRead(Document(job, executor, args, workDir, log), last);
    FoldedHasNoReturn(executor);
    assert executor[0] == '\r' ==> Folded(executor)[0] == '\n';
  }

  lemma ParsesArguments(job: string, executor: string, args: seq<string>, workDir: string, log: string)
    requires PlainJob(job, executor, args, workDir, log) && IsAbs(executor)
    ensures Parse(Render(DocumentOf(NamesOnly(job), executor, args, workDir, log))) == Ok(Folded(executor))
  {
    ReadsNamesOnly(job);
    var last := ReadsDocument(NamesOnly(job), "", executor, args, workDir, log);
    ParseRead(DocumentOf(NamesOnly(job), executor, args, workDir, log), last);
    FoldedHasNoReturn(executor);
    VerdictOf(last, Folded(executor));
  }

  /** The fallback agrees: the job written without its Program entry gives the same answer, from its
      first argument. */
  lemma FallbackAgrees(job: string, executor: string, args: seq<string>, workDir: string, log: string)
    requires PlainJob(job, executor, args, workDir, log) && IsAbs(executor)
    ensures Parse(Render(DocumentOf(NamesOnly(job), executor, args, workDir, log))) ==
            Parse(Render(Document(job, executor, args, workDir, log))) == Ok(Folded(executor))
  {
    ParsesJob(job, executor, args, workDir, log);
    ParsesArguments(job, executor, args, workDir, log);
  }

  // ----- exactly when it holds

  /** Markup, as section 2.4 of XML 1.0 has it, is what starts with one of these. */
  predicate NoMarkup(s: string) { '<' !in s && '&' !in s }

  lemma {:induction false} ShapedCat(a: seq<Piece>, b: seq<Piece>)
    requires Shaped(a) && Shaped(b) && Separated(a, b)
    ensures Shaped(a + b)
  {
    if a == [] {
      assert a + b == b;
    } else {
      SeparatedTail(a, b);
      ShapedCat(a[1..], b);
    }
  }

  lemma ShapedElement(indent: string, name: string, text: string)
    requires NoMarkup(indent) && NoMarkup(text) && (name == "key" || name == "string")
    ensures Shaped(Element(indent, name, text)) && EndsTag(Element(indent, name, text))
    ensures C(text) in Element(indent, name, text)
  {
    OpenTag(name);
    var e := Element(indent, name, text);
    assert e == [C(indent), T(name), C(text), T("/" + name)] && e[2] == C(text);
    assert ("/" + name)[1..] == name;
    ShapedPair(indent, name);
    ShapedPair(text, "/" + name);
    ShapedCat([C(indent)] + [T(name)], [C(text)] + [T("/" + name)]);
  }

  lemma ShapedPair(text: string, content: string)
    requires NoMarkup(text) && Tag(content).Some? && '>' !in content
    ensures Shaped([C(text)] + [T(content)])
  {
    var ps := [C(text)] + [T(content)];
    assert ps[1..] == [T(content)] && ps[1..][1..] == [];
  }

  lemma ShapedEntry(key: string, value: string)
    requires Word(key) && NoMarkup(value)
    ensures Shaped(EntryOf(key, value)) && EndsTag(EntryOf(key, value)) && C(value) in EntryOf(key, value)
  {
    WordIsPlain(key);
    ShapedElement("\n\t", "key", key);
    ShapedElement("\n\t", "string", value);
    ShapedCat(KeyOf(key), StringOf("\n\t", value));
  }

  lemma ShapedNames(job: string, executor: string)
    requires NoMarkup(job) && NoMarkup(executor)
    ensures Shaped(Names(job, executor)) && EndsTag(Names(job, executor))
    ensures C(job) in Names(job, executor) && C(executor) in Names(job, executor)
  {
    WordsInArray();
    WordIsPlain("ProgramArguments");
    ShapedEntry("Label", job);
    ShapedEntry("Program", executor);
    ShapedElement("\n\t", "key", "ProgramArguments");
    ShapedCat(EntryOf("Label", job), EntryOf("Program", executor));
    ShapedCat(EntryOf("Label", job) + EntryOf("Program", executor), KeyOf("ProgramArguments"));
  }

  lemma Shaped3(a: seq<Piece>, b: seq<Piece>, c: seq<Piece>)
    requires Shaped(a) && Shaped(b) && Shaped(c) && EndsTag(a) && EndsTag(b) && EndsTag(c)
    ensures Shaped(a + b + c) && EndsTag(a + b + c)
    ensures forall p | p in a || p in b || p in c :: p in a + b + c
  {
    ShapedCat(a, b);
    ShapedCat(a + b, c);
  }

  lemma ShapedArray(executor: string)
    requires NoMarkup(executor)
    ensures var ps := [C("\n\t")] + [T("array")] + StringOf("\n\t\t", executor); Shaped(ps) && EndsTag(ps)
  {
    OpenTag("array");
    ShapedPair("\n\t", "array");
    ShapedElement("\n\t\t", "string", executor);
    ShapedCat([C("\n\t")] + [T("array")], StringOf("\n\t\t", executor));
  }

  lemma ShapedHead(job: string, executor: string)
    requires NoMarkup(job) && NoMarkup(executor)
    ensures var head := Head(Names(job, executor), executor);
            Shaped(head) && EndsTag(head) && C(job) in head && C(executor) in head
  {
    ReadsPrologue();
    CleanLexes(Prologue());
    ShapedNames(job, executor);
    ShapedArray(executor);
    Shaped3(Prologue(), Names(job, executor), [C("\n\t")] + [T("array")] + StringOf("\n\t\t", executor));
  }

  lemma {:induction false} ShapedItems(args: seq<string>)
    requires forall i | 0 <= i < |args| :: NoMarkup(args[i])
    ensures Shaped(Items(args)) && (args != [] ==> EndsTag(Items(args)))
    ensures forall i | 0 <= i < |args| :: C(args[i]) in Items(args)
  {
    if args != [] {
      var n := |args| - 1;
      ShapedItems(args[..n]);
      ShapedElement("\n\t\t", "string", args[n]);
      ShapedCat(Items(args[..n]), StringOf("\n\t\t", args[n]));
      forall i | 0 <= i < |args| ensures C(args[i]) in Items(args) {
        assert i < n ==> args[..n][i] == args[i];
      }
    }
  }

  predicate ShapedSetting(s: Setting) {
    if s.Path? then Word(s.key) && NoMarkup(s.value) else PlainSetting(s)
  }

  lemma {:induction false} ShapedSettings(settings: seq<Setting>)
    requires forall i | 0 <= i < |settings| :: ShapedSetting(settings[i])
    ensures Shaped(SettingsOf(settings)) && (settings != [] ==> EndsTag(SettingsOf(settings)))
    ensures forall i | 0 <= i < |settings| && settings[i].Path? :: C(settings[i].value) in SettingsOf(settings)
    decreases |settings|
  {
    if settings != [] {
      var s, rest := settings[0], settings[1..];
      ShapedSettings(rest);
      if s.Path? {
        ShapedEntry(s.key, s.value);
      } else {
        ReadsSetting(IN_DICT, s);
        CleanLexes(SettingOf(s));
      }
      ShapedCat(SettingOf(s), SettingsOf(rest));
      forall i | 0 <= i < |settings| && settings[i].Path? ensures C(settings[i].value) in SettingsOf(settings) {
        assert i > 0 ==> rest[i - 1] == settings[i];
      }
    }
  }

  lemma SettingsAreShaped(workDir: string, log: string)
    requires NoMarkup(workDir) && NoMarkup(log)
    ensures forall i | 0 <= i < |Settings(workDir, log)| :: ShapedSetting(Settings(workDir, log)[i])
  {
    WordsInSettings();
    WordsInLimits();
    WordsInLogs();
    NumbersArePlain();
  }

  lemma ShapedArrayEnd(settings: seq<Piece>)
    requires Shaped(settings)
    ensures Shaped(EndLine("\n\t", "array") + settings)
  {
    assert ("/" + "array")[1..] == "array";
    ShapedPair("\n\t", "/" + "array");
    ShapedCat(EndLine("\n\t", "array"), settings);
  }

  lemma ShapedEpilogue()
    ensures Shaped(Epilogue())
  {
    ReadsEpilogue(IN_DICT);
    CleanLexes(Epilogue());
  }

  lemma ShapedRest(workDir: string, log: string)
    requires NoMarkup(workDir) && NoMarkup(log)
    ensures Shaped(Rest(workDir, log)) && C(workDir) in Rest(workDir, log) && C(log) in Rest(workDir, log)
  {
    var settings := Settings(workDir, log);
    SettingsAreShaped(workDir, log);
    ShapedSettings(settings);
    assert settings[0] == Path("WorkingDirectory", workDir) && settings[7] == Path("StandardOutPath", log);
    ShapedArrayEnd(SettingsOf(settings));
    ShapedEpilogue();
    ShapedCat(EndLine("\n\t", "array") + SettingsOf(settings), Epilogue());
  }

  lemma ShapedDocument(job: string, executor: string, args: seq<string>, workDir: string, log: string)
    requires NoMarkup(job) && NoMarkup(executor) && NoMarkup(workDir) && NoMarkup(log)
    requires forall i | 0 <= i < |args| :: NoMarkup(args[i])
    ensures var d := Document(job, executor, args, workDir, log);
            && Shaped(d) && C(job) in d && C(executor) in d && C(workDir) in d && C(log) in d
            && forall i | 0 <= i < |args| :: C(args[i]) in d
  {
    ShapedHead(job, executor);
    ShapedItems(args);
    ShapedRest(workDir, log);
    var head := Head(Names(job, executor), executor);
    ShapedCat(head, Items(args));
    ShapedCat(head + Items(args), Rest(workDir, log));
  }

  /** Round trip: for strings free of markup, the program read back from a written job is the executor,
      whatever the arguments, if and only if every string is character data XML allows and the executor
      has no carriage return. */
  lemma RoundTripIff(job: string, executor: string, args: seq<string>, workDir: string, log: string)
    requires IsAbs(executor)
    requires NoMarkup(job) && NoMarkup(executor) && NoMarkup(workDir) && NoMarkup(log)
    requires forall i | 0 <= i < |args| :: NoMarkup(args[i])
    ensures Parse(Render(Document(job, executor, args, workDir, log))) == Ok(executor) <==>
              PlainJob(job, executor, args, workDir, log) && '\r' !in executor
  {
    var d := Document(job, executor, args, workDir, log);
    if PlainJob(job, executor, args, workDir, log) {
      ParsesJob(job, executor, args, workDir, log);
      FoldedHasNoReturn(executor);
      if '\r' !in executor {
        FoldedSame(executor);
      }
    } else {
      ShapedDocument(job, executor, args, workDir, log);
      LexShaped(d);
      var text := SomeDirty(job, executor, args, workDir, log);
      LexDirty(d, text);
    }
  }

  lemma SomeDirty(job: string, executor: string, args: seq<string>, workDir: string, log: string) returns (text: string)
    requires !PlainJob(job, executor, args, workDir, log)
    ensures !PlainText(text) && (text in [job, executor, workDir, log] || text in args)
  {
    if i :| 0 <= i < |args| && !PlainText(args[i]) {
      return args[i];
    }
    return if !PlainText(job) then job else if !PlainText(executor) then executor
           else if !PlainText(workDir) then workDir else log;
  }
}
