/** The success handshake: which answers of the /health endpoint prove the confirmed target. */
module Health {
  import opened UpgradeTask

  datatype Report = Report(status: string, version: string, channel: string,
                           executable: string, resolved: Option<string>)

  /** What one GET of the endpoint can come back with. */
  datatype Answer = Unreachable | Status(code: int) | BadBody | Answered(report: Report)

  datatype Verdict = Pass | Reject(reason: Reason)

  datatype Reason =
    | UnknownPort | NoAnswer | HttpStatus(code: int) | Unreadable | NotOk | WrongVersion
    | ChannelMismatch | NoServicePid | ServicePidUnchanged | NoExecutable
    | ExecutableUnresolved | ExecutableMismatch

  // ----- versions as they are compared

  /** White space, as Unicode has it. */
  predicate IsSpace(c: char) {
    || '\t' <= c <= '\r' || c == ' ' || c == '\U{0085}' || c == '\U{00A0}' || c == '\U{1680}'
    || '\U{2000}' <= c <= '\U{200A}' || c == '\U{2028}' || c == '\U{2029}' || c == '\U{202F}' || c == '\U{205F}'
    || c == '\U{3000}'
  }

  /** One by one. */
  lemma SpaceIs(c: char)
    ensures IsSpace(c) <==> c in {'\t', '\n', '\U{000B}', '\U{000C}', '\r', ' ', '\U{0085}', '\U{00A0}', '\U{1680}',
                                  '\U{2000}', '\U{2001}', '\U{2002}', '\U{2003}', '\U{2004}', '\U{2005}', '\U{2006}',
                                  '\U{2007}', '\U{2008}', '\U{2009}', '\U{200A}', '\U{2028}', '\U{2029}', '\U{202F}',
                                  '\U{205F}', '\U{3000}'}
  {
  }

  function TrimLeft(s: string): string {
    if s != [] && IsSpace(s[0]) then TrimLeft(s[1..]) else s
  }

  function TrimRight(s: string): string {
    if s != [] && IsSpace(s[|s| - 1]) then TrimRight(s[..|s| - 1]) else s
  }

  function NormalizeVersion(v: string): string {
    var t := TrimRight(TrimLeft(v));
    if t != [] && t[0] == 'v' then t[1..] else t
  }

  predicate Space(s: string) { forall i | 0 <= i < |s| :: IsSpace(s[i]) }

  predicate Bare(s: string) { s == "" || (!IsSpace(s[0]) && !IsSpace(s[|s| - 1])) }

  /** The text is this core amid white space. */
  ghost predicate HasCore(text: string, core: string) {
    Bare(core) && exists lead, trail :: text == lead + core + trail && Space(lead) && Space(trail)
  }

  /** The text stands for version r: r, or v and r, amid white space. */
  ghost predicate Names(text: string, r: string) {
    exists core :: HasCore(text, core) && (core == "v" + r || (core == r && !("v" <= r)))
  }

  lemma {:induction false} TrimmedLeft(s: string) returns (lead: string)
    ensures s == lead + TrimLeft(s) && Space(lead)
    ensures TrimLeft(s) == "" || !IsSpace(TrimLeft(s)[0])
  {
    lead := "";
    if s != [] && IsSpace(s[0]) {
      var more := TrimmedLeft(s[1..]);
      lead := [s[0]] + more;
    }
  }

  lemma {:induction false} TrimmedRight(s: string) returns (trail: string)
    ensures s == TrimRight(s) + trail && Space(trail)
    ensures TrimRight(s) == "" || !IsSpace(TrimRight(s)[|TrimRight(s)| - 1])
  {
    trail := "";
    if s != [] && IsSpace(s[|s| - 1]) {
      var more := TrimmedRight(s[..|s| - 1]);
      trail := more + [s[|s| - 1]];
    }
  }

  lemma {:induction false} LeadGoes(lead: string, s: string)
    requires Space(lead)
    ensures TrimLeft(lead + s) == TrimLeft(s)
  {
    if lead == "" {
      assert lead + s == s;
    } else {
      assert (lead + s)[1..] == lead[1..] + s;
      LeadGoes(lead[1..], s);
    }
  }

  lemma {:induction false} TrailGoes(s: string, trail: string)
    requires Space(trail)
    ensures TrimRight(s + trail) == TrimRight(s)
  {
    if trail == "" {
      assert s + trail == s;
    } else {
      assert (s + trail)[..|s + trail| - 1] == s + trail[..|trail| - 1];
      TrailGoes(s, trail[..|trail| - 1]);
    }
  }

  /** Trimming finds the core. */
  lemma CoreFound(text: string, core: string)
    requires HasCore(text, core)
    ensures TrimRight(TrimLeft(text)) == core
  {
    var lead, trail :| text == lead + core + trail && Space(lead) && Space(trail);
    assert text == lead + (core + trail);
    LeadGoes(lead, core + trail);
    if core == "" {
      assert core + trail == trail == trail + "";
      LeadGoes(trail, "");
    } else {
      TrailGoes(core, trail);
    }
  }

  lemma CoreThere(text: string)
    ensures HasCore(text, TrimRight(TrimLeft(text)))
  {
    var lead := TrimmedLeft(text);
    var trail := TrimmedRight(TrimLeft(text));
    var core := TrimRight(TrimLeft(text));
    assert text == lead + core + trail;
    if core != "" {
      assert core[0] == TrimLeft(text)[0];
    }
  }

  /** What is compared is exactly the version a text stands for. */
  lemma NormalizedIff(text: string, r: string)
    ensures NormalizeVersion(text) == r <==> Names(text, r)
  {
    var core := TrimRight(TrimLeft(text));
    CoreThere(text);
    assert core != "" && core[0] == 'v' ==> core == "v" + core[1..];
    if Names(text, r) {
      var c :| HasCore(text, c) && (c == "v" + r || (c == r && !("v" <= r)));
      CoreFound(text, c);
    }
  }

  /** Two texts stand for one version. */
  ghost predicate SameVersion(a: string, b: string) {
    exists r :: Names(a, r) && Names(b, r)
  }

  lemma SameVersionIff(a: string, b: string)
    ensures SameVersion(a, b) <==> NormalizeVersion(a) == NormalizeVersion(b)
  {
    NormalizedIff(a, NormalizeVersion(a));
    NormalizedIff(b, NormalizeVersion(b));
    if r :| Names(a, r) && Names(b, r) {
      NormalizedIff(a, r);
      NormalizedIff(b, r);
    }
  }

  // ----- where the keg lies

  /** A path cut at its separators. */
  function Segments(path: string): seq<string> {
    if path == "" then [""]
    else
      var rest := Segments(path[1..]);
      if path[0] == '/' then [""] + rest else [[path[0]] + rest[0]] + rest[1..]
  }

  /** The segments left when empty ones and "." are dropped and ".." takes back the one before. */
  function Cleaned(segments: seq<string>): seq<string> {
    if segments == [] then []
    else
      var kept, last := Cleaned(segments[..|segments| - 1]), segments[|segments| - 1];
      if last == "" || last == "." then kept
      else if last == ".." then (if kept == [] then [] else kept[..|kept| - 1])
      else kept + [last]
  }

  function Rooted(segments: seq<string>): string {
    if segments == [] then "" else Rooted(segments[..|segments| - 1]) + "/" + segments[|segments| - 1]
  }

  /** The cleaned path of a keg below an absolute prefix; the root itself is a single separator. */
  function KegRoot(prefix: string, keg: string): string {
    var path := Rooted(Cleaned(Segments(prefix) + ["Cellar", "tokenlive"] + Segments(keg)));
    if path == "" then "/" else path
  }

  /** The directory of all kegs. */
  function Kegs(prefix: string): string {
    Rooted(Cleaned(Segments(prefix) + ["Cellar", "tokenlive"]))
  }

  /** A name that makes a directory of its own. */
  predicate Proper(keg: string) {
    '/' !in keg && keg != "" && keg != "." && keg != ".."
  }

  predicate Inside(root: string, path: string) {
    path == root + "/bin/tokenlive" || root + "/" <= path
  }

  lemma {:induction false} OneSegment(keg: string)
    requires '/' !in keg
    ensures Segments(keg) == [keg]
  {
    if keg != "" {
      OneSegment(keg[1..]);
      assert [keg[0]] + keg[1..] == keg;
    }
  }

  lemma OneMore(segments: seq<string>, last: string)
    ensures var kept := Cleaned(segments);
            Cleaned(segments + [last]) == if last == "" || last == "." then kept
                                          else if last == ".." then (if kept == [] then [] else kept[..|kept| - 1])
                                          else kept + [last]
    ensures Rooted(segments + [last]) == Rooted(segments) + "/" + last
  {
    assert (segments + [last])[..|segments|] == segments;
  }

  /** Two proper names more. */
  lemma TwoMore(segments: seq<string>, a: string, b: string)
    requires Proper(a) && Proper(b)
    ensures Cleaned(segments + [a, b]) == Cleaned(segments) + [a] + [b]
    ensures Rooted(Cleaned(segments) + [a] + [b]) == Rooted(Cleaned(segments)) + "/" + a + "/" + b
  {
    assert segments + [a, b] == segments + [a] + [b];
    OneMore(segments, a);
    OneMore(segments + [a], b);
    OneMore(Cleaned(segments), a);
    OneMore(Cleaned(segments) + [a], b);
  }

  /** The directory of all kegs is one segment below its parent. */
  lemma KegsOf(prefix: string) returns (above: seq<string>, base: seq<string>)
    ensures base == Segments(prefix) + ["Cellar", "tokenlive"]
    ensures Cleaned(base) == above + ["tokenlive"] && above != []
    ensures Kegs(prefix) == Rooted(above) + "/" + "tokenlive"
    ensures Rooted(above) == Rooted(Cleaned(Segments(prefix))) + "/" + "Cellar"
  {
    above, base := Cleaned(Segments(prefix)) + ["Cellar"], Segments(prefix) + ["Cellar", "tokenlive"];
    TwoMore(Segments(prefix), "Cellar", "tokenlive");
    OneMore(Cleaned(Segments(prefix)), "Cellar");
  }

  /** Where the names that are one path segment lead: a proper one to its own directory below all
      kegs, the empty name and "." to that directory of all kegs, and ".." above it. */
  lemma KegRootOf(prefix: string, keg: string)
    requires '/' !in keg
    ensures Proper(keg) ==> KegRoot(prefix, keg) == Kegs(prefix) + "/" + keg
    ensures keg == "" || keg == "." ==> KegRoot(prefix, keg) == Kegs(prefix)
    ensures keg == ".." ==> KegRoot(prefix, keg) + "/tokenlive" == Kegs(prefix)
  {
    OneSegment(keg);
    var above, base := KegsOf(prefix);
    OneMore(base, keg);
    OneMore(Cleaned(base), keg);
    assert Cleaned(base)[..|Cleaned(base)| - 1] == above;
    if keg == ".." {
      assert Rooted(above) != "";
      assert Rooted(above) + "/" + "tokenlive" == Rooted(above) + "/tokenlive";
    }
  }

  /** A directory written out: slashes and proper names. */
  ghost predicate CleanDir(path: string)
    decreases |path|
  {
    exists k :: 0 <= k < |path| && path[k] == '/' && Proper(path[k + 1..]) && (k == 0 || CleanDir(path[..k]))
  }

  lemma {:induction false} SegmentsCat(parent: string, name: string)
    requires '/' !in name
    ensures Segments(parent + "/" + name) == Segments(parent) + [name]
  {
    if parent == "" {
      assert parent + "/" + name == "/" + name && ("/" + name)[1..] == name;
      OneSegment(name);
    } else {
      assert (parent + "/" + name)[1..] == parent[1..] + "/" + name;
      SegmentsCat(parent[1..], name);
    }
  }

  lemma {:induction false} CleanDirKept(path: string)
    requires CleanDir(path)
    ensures Rooted(Cleaned(Segments(path))) == path
    decreases |path|
  {
    var k :| 0 <= k < |path| && path[k] == '/' && Proper(path[k + 1..]) && (k == 0 || CleanDir(path[..k]));
    var parent, name := path[..k], path[k + 1..];
    assert path == parent + "/" + name;
    SegmentsCat(parent, name);
    OneMore(Segments(parent), name);
    OneMore(Cleaned(Segments(parent)), name);
    if k == 0 {
      assert Segments(parent) == [""] && Cleaned([""]) == [];
    } else {
      CleanDirKept(parent);
    }
  }

  /** Below a clean prefix a proper keg lies where Homebrew puts it. */
  lemma KegRootIs(prefix: string, keg: string)
    requires CleanDir(prefix) && Proper(keg)
    ensures KegRoot(prefix, keg) == prefix + "/Cellar/tokenlive/" + keg
  {
    CleanDirKept(prefix);
    KegRootOf(prefix, keg);
    var above, base := KegsOf(prefix);
    Spelled(prefix, keg);
  }

  lemma Spelled(prefix: string, keg: string)
    ensures prefix + "/" + "Cellar" + "/" + "tokenlive" + "/" + keg == prefix + "/Cellar/tokenlive/" + keg
  {
    assert "/" + "Cellar" + "/" + "tokenlive" + "/" == "/Cellar/tokenlive/";
    assert prefix + "/" + "Cellar" + "/" + "tokenlive" + "/" == prefix + ("/" + "Cellar" + "/" + "tokenlive" + "/");
  }

  /** The decision chain, in the order the source takes it. */
  function Check(port: int, answer: Answer, targetVersion: string, keg: string, prefix: string,
                 channel: string, servicePid: int, previousPid: int): Verdict
  {
    if port <= 0 then Reject(UnknownPort)
    else match answer
      case Unreachable => Reject(NoAnswer)
      case Status(code) => Reject(HttpStatus(code))
      case BadBody => Reject(Unreadable)
      case Answered(r) =>
        if r.status != "ok" then Reject(NotOk)
        else if NormalizeVersion(r.version) != NormalizeVersion(targetVersion) then Reject(WrongVersion)
        else if channel != "" && r.channel != channel then Reject(ChannelMismatch)
        else if servicePid <= 0 then Reject(NoServicePid)
        else if previousPid > 0 && servicePid == previousPid then Reject(ServicePidUnchanged)
        else if r.executable == "" then Reject(NoExecutable)
        else if r.resolved.None? then Reject(ExecutableUnresolved)
        else
          if !Inside(KegRoot(prefix, keg), r.resolved.value) then Reject(ExecutableMismatch)
          else Pass
  }

  /** A passing answer is a healthy service of the target version under a new PID, and names a file
      strictly inside the target keg: below the directory of all kegs, and in no sibling. */
  lemma PassMeansTargetKeg(port: int, answer: Answer, version: string, keg: string, prefix: string,
                           channel: string, servicePid: int, previousPid: int, other: string)
    requires Check(port, answer, version, keg, prefix, channel, servicePid, previousPid).Pass?
    ensures port > 0 && answer.Answered? && answer.report.status == "ok"
    ensures SameVersion(answer.report.version, version)
    ensures channel == "" || answer.report.channel == channel
    ensures servicePid > 0 && (previousPid > 0 ==> servicePid != previousPid)
    ensures answer.report.executable != "" && answer.report.resolved.Some?
    ensures KegRoot(prefix, keg) + "/" <= answer.report.resolved.value
    ensures CleanDir(prefix) && Proper(keg) ==>
              prefix + "/Cellar/tokenlive/" + keg + "/" <= answer.report.resolved.value
    ensures Proper(keg) && Proper(other) && KegRoot(prefix, other) + "/" <= answer.report.resolved.value ==>
              other == keg
  {
    SameVersionIff(answer.report.version, version);
    InsideMeans(KegRoot(prefix, keg), answer.report.resolved.value);
    if CleanDir(prefix) && Proper(keg) {
      KegRootIs(prefix, keg);
    }
    if Proper(keg) && Proper(other) && KegRoot(prefix, other) + "/" <= answer.report.resolved.value {
      OneKeg(prefix, keg, other, answer.report.resolved.value);
    }
  }

  /** And every such answer passes. */
  lemma PassIff(port: int, r: Report, version: string, keg: string, prefix: string, channel: string,
                servicePid: int, previousPid: int)
    requires CleanDir(prefix) && Proper(keg)
    ensures Check(port, Answered(r), version, keg, prefix, channel, servicePid, previousPid).Pass? <==>
              && port > 0 && r.status == "ok" && SameVersion(r.version, version)
              && (channel == "" || r.channel == channel)
              && servicePid > 0 && (previousPid > 0 ==> servicePid != previousPid)
              && r.executable != "" && r.resolved.Some?
              && prefix + "/Cellar/tokenlive/" + keg + "/" <= r.resolved.value
  {
    SameVersionIff(r.version, version);
    KegRootIs(prefix, keg);
    if r.resolved.Some? && Inside(KegRoot(prefix, keg), r.resolved.value) {
      InsideMeans(KegRoot(prefix, keg), r.resolved.value);
    }
  }

  /** A rejection names something that is so. */
  lemma RejectionHolds(port: int, answer: Answer, version: string, keg: string, prefix: string, channel: string,
                       servicePid: int, previousPid: int)
    ensures var v := Check(port, answer, version, keg, prefix, channel, servicePid, previousPid);
            v.Reject? ==>
              match v.reason
              case UnknownPort => port <= 0
              case NoAnswer => answer.Unreachable?
              case HttpStatus(code) => answer == Status(code)
              case Unreadable => answer.BadBody?
              case NotOk => answer.Answered? && answer.report.status != "ok"
              case WrongVersion => answer.Answered? && !SameVersion(answer.report.version, version)
              case ChannelMismatch => answer.Answered? && channel != "" && answer.report.channel != channel
              case NoServicePid => servicePid <= 0
              case ServicePidUnchanged => previousPid == servicePid > 0
              case NoExecutable => answer.Answered? && answer.report.executable == ""
              case ExecutableUnresolved => answer.Answered? && answer.report.resolved.None?
              case ExecutableMismatch =>
                && answer.Answered? && answer.report.resolved.Some?
                && !(KegRoot(prefix, keg) + "/" <= answer.report.resolved.value)
  {
    if answer.Answered? {
      SameVersionIff(answer.report.version, version);
    }
  }

  lemma InsideMeans(root: string, path: string)
    requires Inside(root, path)
    ensures root + "/" <= path
  {
    if path == root + "/bin/tokenlive" {
      assert path[..|root| + 1] == root + "/";
    }
  }

  /** Exactly the proper names keep sibling kegs out: with an empty target keg, "." or "..", a binary
      of any other keg is accepted. */
  lemma SiblingsExcludedIff(prefix: string, keg: string)
    requires '/' !in keg
    ensures (forall other, path | Proper(other) && Inside(KegRoot(prefix, other), path) && other != keg ::
               !Inside(KegRoot(prefix, keg), path))
            <==> Proper(keg)
  {
    if Proper(keg) {
      forall other, path | Proper(other) && Inside(KegRoot(prefix, other), path) && other != keg
        ensures !Inside(KegRoot(prefix, keg), path)
      {
        if Inside(KegRoot(prefix, keg), path) {
          OneKeg(prefix, keg, other, path);
        }
      }
    } else {
      var path := SiblingAccepted(prefix, keg, "1");
    }
  }

  lemma OneKeg(prefix: string, keg: string, other: string, path: string)
    requires Proper(keg) && Proper(other)
    requires Inside(KegRoot(prefix, keg), path) && Inside(KegRoot(prefix, other), path)
    ensures other == keg
  {
    KegRootOf(prefix, keg);
    KegRootOf(prefix, other);
    InsideMeans(KegRoot(prefix, keg), path);
    InsideMeans(KegRoot(prefix, other), path);
    SameSegment(path, Kegs(prefix) + "/", keg, other);
  }

  lemma SiblingAccepted(prefix: string, keg: string, other: string) returns (path: string)
    requires '/' !in keg && !Proper(keg) && Proper(other)
    ensures Inside(KegRoot(prefix, other), path) && Inside(KegRoot(prefix, keg), path)
  {
    path := KegRoot(prefix, other) + "/bin/tokenlive";
    KegRootOf(prefix, keg);
    KegRootOf(prefix, other);
    Below(Kegs(prefix), other, "/bin/tokenlive");
    if keg == ".." {
      Below(KegRoot(prefix, keg), "tokenlive", "/" + other + "/bin/tokenlive");
      Regrouped(Kegs(prefix), other, "/bin/tokenlive");
    }
  }

  lemma Below(root: string, name: string, rest: string)
    ensures Inside(root, root + "/" + name + rest)
  {
  }

  lemma Regrouped(root: string, name: string, rest: string)
    ensures root + "/" + name + rest == root + ("/" + name + rest)
  {
  }

  /** The path segment after a common directory is determined by the path. */
  lemma SameSegment(path: string, base: string, a: string, b: string)
    requires base + a + "/" <= path && base + b + "/" <= path
    requires '/' !in a && '/' !in b
    ensures a == b
  {
    var pa, pb := base + a + "/", base + b + "/";
    assert path[|base| + |a|] == pa[|base| + |a|] == '/';
    assert path[|base| + |b|] == pb[|base| + |b|] == '/';
    assert |a| == |b|;
    forall i | 0 <= i < |a| ensures a[i] == b[i] {
      assert a[i] == pa[|base| + i] == path[|base| + i] == pb[|base| + i] == b[i];
    }
  }
}
