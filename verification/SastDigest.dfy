/** The digest of static-analysis findings and the parser that recovers their coordinates from it. */
module SastDigest {
  import opened Wrappers
  import opened Text

  datatype SastFinding = SastFinding(file: string, line: u32, ruleId: string, message: string, priority: string)

  datatype DigestLead = DigestLead(file: string, line: nat, ruleId: string)

  const MESSAGE_CAP := 140

  const SEPARATOR := " \U{2014} "

  /** At most `max` characters of `s`, with an ellipsis for what is cut. */
  function Truncate(s: string, max: nat): string {
    if |s| <= max then s else s[..if max > 0 then max - 1 else 0] + "\U{2026}"
  }

  function FirstLine(s: string): string {
    var lines := Lines(s);
    if lines == [] then "" else lines[0]
  }

  function Summary(f: SastFinding): string {
    Truncate(Trim(FirstLine(f.message)), MESSAGE_CAP)
  }

  function Bullet(f: SastFinding): string {
    "- [" + f.priority + "] " + f.file + ":" + Decimal(f.line) + SEPARATOR + Summary(f) + " (`" + f.ruleId + "`)"
  }

  function Bullets(fs: seq<SastFinding>): string {
    if fs == [] then "" else Bullet(fs[0]) + "\n" + Bullets(fs[1..])
  }

  /** The digest: the prose, then one bullet a finding; nothing when there is no finding. */
  method Digest(prose: string, findings: seq<SastFinding>) returns (digest: Option<string>)
    ensures digest == if findings == [] then None else Some(prose + Bullets(findings))
  {
    hide Bullet;
    if findings == [] {
      return None;
    }
    var out := prose;
    assert findings[0..] == findings;
    for i := 0 to |findings|
      invariant out + Bullets(findings[i..]) == prose + Bullets(findings)
    {
      assert findings[i..][0] == findings[i] && findings[i..][1..] == findings[i + 1..];
      assert out + Bullets(findings[i..]) == out + Bullet(findings[i]) + "\n" + Bullets(findings[i + 1..]);
      out := out + Bullet(findings[i]) + "\n";
    }
    assert findings[|findings|..] == [] && out + "" == out;
    return Some(out);
  }

  function RuleIdOf(tail: string): string {
    match SplitLast(tail, "(`")
    case None => ""
    case Some((_, r)) =>
      match SplitLast(r, "`)")
      case None => ""
      case Some((id, _)) => Trim(id)
  }

  /** The coordinate in the text after a bullet's priority. */
  function CoordinateOf(rest: string): Option<DigestLead> {
    match SplitOnce(rest, SEPARATOR)
    case None => None
    case Some((coord, tail)) =>
      match SplitLast(coord, ":")
      case None => None
      case Some((file, lineText)) =>
        match ParseU32(Trim(lineText))
        case None => None
        case Some(line) => Some(DigestLead(Trim(file), line, RuleIdOf(tail)))
  }

  /** The coordinate a line of the digest names, if it is a well-formed bullet. */
  function LeadOf(line: string): Option<DigestLead> {
    var start := TrimStart(line);
    if !("- [" <= start) then None
    else match SplitOnce(start[3..], "] ")
      case None => None
      case Some((_, rest)) => CoordinateOf(rest)
  }

  function LeadsOf(lines: seq<string>): seq<DigestLead> {
    if lines == [] then []
    else (match LeadOf(lines[0]) case Some(lead) => [lead] case None => []) + LeadsOf(lines[1..])
  }

  method ParseDigestLeads(digest: string) returns (leads: seq<DigestLead>)
    ensures leads == LeadsOf(Lines(digest))
  {
    hide LeadOf;
    var lines := Lines(digest);
    leads := [];
    assert lines[0..] == lines;
    for i := 0 to |lines|
      invariant leads + LeadsOf(lines[i..]) == LeadsOf(lines)
    {
      assert lines[i..][0] == lines[i] && lines[i..][1..] == lines[i + 1..];
      var lead := LeadOf(lines[i]);
      if lead.Some? {
        leads := leads + [lead.value];
      }
    }
  }

  // ---------- when a finding survives the trip ----------

  function CoordOf(f: SastFinding): DigestLead {
    DigestLead(f.file, f.line, f.ruleId)
  }

  function CoordsOf(fs: seq<SastFinding>): seq<DigestLead> {
    if fs == [] then [] else [CoordOf(fs[0])] + CoordsOf(fs[1..])
  }

  /** A priority that cannot be taken for more than it is. */
  ghost predicate PlainPriority(f: SastFinding) {
    '\n' !in f.priority && !Contains(f.priority, "] ")
  }

  /** The file keeps to its line, has no outer whitespace and holds no spaced em dash. */
  ghost predicate PlainFile(f: SastFinding) {
    '\n' !in f.file && Trim(f.file) == f.file && !Contains(f.file, SEPARATOR)
  }

  /** The rule id keeps to its line, has no outer whitespace and opens no second backtick group. */
  ghost predicate PlainRule(f: SastFinding) {
    '\n' !in f.ruleId && Trim(f.ruleId) == f.ruleId && !Contains(f.ruleId + "`", "(`")
  }

  function AsciiLower(c: char): char {
    if 'A' <= c <= 'Z' then (c as int - 'A' as int + 'a' as int) as char else c
  }

  /** How severe a level is: `error` 3, then warnings and what is unknown, then notes. */
  function SeverityRank(level: string): nat {
    var name := seq(|Trim(level)|, i requires 0 <= i < |Trim(level)| => AsciiLower(Trim(level)[i]));
    if name == "error" then 3
    else if name == "note" || name == "info" || name == "information" then 1
    else 2
  }

  function PriorityFor(level: string): string {
    if SeverityRank(level) == 3 then "P1" else "P2"
  }

  /** Findings are built with these priorities only, and both are plain. */
  lemma BuiltPrioritiesArePlain(f: SastFinding, level: string)
    requires f.priority == PriorityFor(level)
    ensures PlainPriority(f)
  {
    hide SeverityRank;
    assert f.priority[0] == 'P' && f.priority[0..2][0] == 'P' && |f.priority| == 2;
  }

  // ---------- the pieces of one bullet ----------

  lemma PriorityIsSplitOff(priority: string, rest: string)
    requires !Contains(priority, "] ")
    ensures SplitOnce(priority + "] " + rest, "] ") == Some((priority, rest))
  {
    var s := priority + "] " + rest;
    forall i | 0 <= i < |priority| && |priority| < i + 2 ensures !OccursAt(s, "] ", i) {
      assert s[i..i + 2][1] == ']';
    }
    FoundWherePut(priority, "] ", rest);
  }

  lemma CoordIsSplitOff(file: string, line: u32, tail: string)
    requires !Contains(file, SEPARATOR)
    ensures SplitOnce(file + ":" + Decimal(line) + SEPARATOR + tail, SEPARATOR)
      == Some((file + ":" + Decimal(line), tail))
  {
    var number := ":" + Decimal(line);
    var coord := file + number;
    assert coord == file + ":" + Decimal(line);
    var s := coord + SEPARATOR + tail;
    assert forall c | c in number :: c == ':' || IsDigit(c);
    forall i: nat | i < |coord| && OccursAt(s, SEPARATOR, i) ensures i + 3 <= |file| {
      assert s[i] == SEPARATOR[0] && s[i + 1] == SEPARATOR[1] && s[i + 2] == SEPARATOR[2] by {
        assert s[i..i + 3][0] == s[i] && s[i..i + 3][1] == s[i + 1] && s[i..i + 3][2] == s[i + 2];
      }
      assert forall j | |file| <= j < |coord| :: s[j] == number[j - |file|] && number[j - |file|] in number;
    }
    forall i: nat | i + 3 <= |coord| ensures !OccursAt(coord, SEPARATOR, i) {
      assert coord[i..i + 3] == s[i..i + 3];
      assert OccursAt(coord, SEPARATOR, i) == OccursAt(s, SEPARATOR, i);
      if i + 3 <= |file| {
        assert file[i..i + 3] == coord[i..i + 3];
        assert !OccursAt(file, SEPARATOR, i);
      }
    }
    FoundWherePut(coord, SEPARATOR, tail);
  }

  lemma LineIsSplitOff(file: string, line: u32)
    ensures SplitLast(file + ":" + Decimal(line), ":") == Some((file, Decimal(line)))
    ensures ParseU32(Trim(Decimal(line))) == Some(line)
  {
    var d := Decimal(line);
    var s := file + ":" + d;
    assert s[|file|..|file| + 1] == ":";
    assert OccursAt(s, ":", |file|);
    forall j: nat | |file| < j < |s| + 1 ensures !OccursAt(s, ":", j) {
      if j < |s| {
        assert s[j..j + 1][0] == s[j] == d[j - |file| - 1];
        assert d[j - |file| - 1] in d;
      }
    }
    assert FindBefore(s, ":", |s| + 1) == Some(|file|);
    assert s[..|file|] == file && s[|file| + 1..] == d;
    assert d[0] in d && d[|d| - 1] in d;
    TrimOfTrimmed(d);
    ParseDecimal(line);
  }

  predicate GroupOpens(s: string, j: nat) {
    j + 2 <= |s| && s[j] == '(' && s[j + 1] == '`'
  }

  lemma OccursIffGroupOpens(s: string)
    ensures forall j: nat :: OccursAt(s, "(`", j) <==> GroupOpens(s, j)
    ensures Contains(s, "(`") <==> exists j: nat :: GroupOpens(s, j)
  {
  }

  /** The last group opens where the rule id's does, or inside the rule id when that opens one. */
  lemma LastGroupOpens(summary: string, id: string)
    ensures var s, open := summary + " (`" + id + "`)", |summary| + 1;
      var at := FindBefore(s, "(`", |s| + 1);
      && at.Some? && at.value + 2 < |s|
      && if Contains(id + "`", "(`") then at.value >= open + 2 else at.value == open
  {
    hide OccursAt, Contains, FindBefore;
    var s, open, shown := summary + " (`" + id + "`)", |summary| + 1, id + "`";
    OccursIffGroupOpens(s);
    OccursIffGroupOpens(shown);
    assert GroupOpens(s, open) && !GroupOpens(s, open + 1) && !GroupOpens(s, |s| - 2);
    assert forall j: nat :: GroupOpens(shown, j) <==> open + 2 + j < |s| - 2 && GroupOpens(s, open + 2 + j);
    if j: nat :| GroupOpens(shown, j) {
      assert GroupOpens(s, open + 2 + j);
    } else {
      assert forall j: nat :: GroupOpens(s, j) && j > open + 1 && j < |s| - 2 ==> GroupOpens(shown, j - open - 2);
    }
  }

  /** The rule id comes back, trimmed, exactly when it opens no backtick group of its own. */
  lemma RuleIdRecovered(summary: string, id: string)
    ensures var r := RuleIdOf(summary + " (`" + id + "`)");
      if Contains(id + "`", "(`") then |r| < |id| else r == Trim(id)
  {
    hide Trim, RuleIdOf;
    var s := summary + " (`" + id + "`)";
    LastGroupOpens(summary, id);
    var at := FindBefore(s, "(`", |s| + 1).value;
    assert s[|s| - 2..] == "`)";
    LastGroupClosed(s, at);
    if at + 4 <= |s| {
      TrimShrinks(s[at + 2..|s| - 2]);
    }
    if !Contains(id + "`", "(`") {
      assert s[at + 2..|s| - 2] == id;
    }
  }

  lemma LastGroupClosed(s: string, at: nat)
    requires |s| >= 2 && s[|s| - 2..] == "`)"
    requires at + 2 < |s| && SplitLast(s, "(`") == Some((s[..at], s[at + 2..]))
    ensures RuleIdOf(s) == if at + 4 <= |s| then Trim(s[at + 2..|s| - 2]) else ""
  {
    hide Trim;
    var r := s[at + 2..];
    if at + 4 <= |s| {
      assert r[|r| - 2..|r|] == s[|s| - 2..];
      assert OccursAt(r, "`)", |r| - 2);
      assert FindBefore(r, "`)", |r| + 1) == Some(|r| - 2);
      assert r[..|r| - 2] == s[at + 2..|s| - 2];
    } else {
      assert |r| == 1;
    }
  }

  // ---------- one bullet, then all of them ----------

  function RestOf(f: SastFinding): string {
    f.file + ":" + Decimal(f.line) + SEPARATOR + (Summary(f) + " (`" + f.ruleId + "`)")
  }

  lemma BulletSplits(f: SastFinding)
    requires PlainPriority(f)
    ensures LeadOf(Bullet(f)) == CoordinateOf(RestOf(f))
  {
    hide CoordinateOf, Decimal, Summary;
    var line := Bullet(f);
    assert line == "- [" + (f.priority + "] " + RestOf(f));
    assert line[0] == '-' && TrimStart(line) == line && line[3..] == f.priority + "] " + RestOf(f);
    PriorityIsSplitOff(f.priority, RestOf(f));
  }

  /** A bullet gives back its finding's coordinate exactly when file and rule id are plain. */
  lemma BulletRecoveredIff(f: SastFinding)
    requires PlainPriority(f) && '\n' !in f.file && '\n' !in f.ruleId
    ensures LeadOf(Bullet(f)) == Some(CoordOf(f)) <==> PlainFile(f) && PlainRule(f)
  {
    hide Decimal, Summary, Trim, RuleIdOf, LeadOf, Bullet, ParseU32;
    BulletSplits(f);
    var tail := Summary(f) + " (`" + f.ruleId + "`)";
    if Contains(f.file, SEPARATOR) {
      var i: nat :| i <= |f.file| && OccursAt(f.file, SEPARATOR, i);
      var rest := RestOf(f);
      assert rest[i..i + 3] == f.file[i..i + 3];
      assert OccursAt(rest, SEPARATOR, i);
      var at := FindFrom(rest, SEPARATOR, 0).value;
      assert at <= i;
      var coord := rest[..at];
      if SplitLast(coord, ":").Some? {
        TrimShrinks(SplitLast(coord, ":").value.0);
      }
    } else {
      CoordIsSplitOff(f.file, f.line, tail);
      LineIsSplitOff(f.file, f.line);
      RuleIdRecovered(Summary(f), f.ruleId);
    }
  }

  function BulletLines(fs: seq<SastFinding>): seq<string> {
    if fs == [] then [] else [Bullet(fs[0])] + BulletLines(fs[1..])
  }

  lemma SummaryFits(f: SastFinding)
    ensures '\n' !in Summary(f)
  {
    hide Trim;
    LinesHaveNoNewline(f.message);
    var line := FirstLine(f.message);
    assert '\n' !in line;
    TrimShrinks(line);
    assert '\n' !in Trim(line);
  }

  lemma BulletFits(f: SastFinding)
    requires PlainPriority(f) && '\n' !in f.file && '\n' !in f.ruleId
    ensures '\n' !in Bullet(f) && StripCarriageReturn(Bullet(f)) == Bullet(f)
  {
    hide Summary, Decimal;
    SummaryFits(f);
    assert '\n' !in Decimal(f.line) by {
      assert forall c | c in Decimal(f.line) :: IsDigit(c);
    }
    assert Bullet(f)[|Bullet(f)| - 1] == ')';
  }

  lemma {:induction false} BulletsByLine(fs: seq<SastFinding>)
    requires forall f | f in fs :: PlainPriority(f) && '\n' !in f.file && '\n' !in f.ruleId
    ensures Lines(Bullets(fs)) == BulletLines(fs)
  {
    hide Bullet;
    if fs != [] {
      BulletFits(fs[0]);
      LinesCons(Bullet(fs[0]), Bullets(fs[1..]));
      BulletsByLine(fs[1..]);
    }
  }

  lemma {:induction false} LeadsOfConcat(a: seq<string>, b: seq<string>)
    ensures LeadsOf(a + b) == LeadsOf(a) + LeadsOf(b)
  {
    hide LeadOf;
    if a == [] {
      assert a + b == b;
    } else {
      assert (a + b)[1..] == a[1..] + b;
      LeadsOfConcat(a[1..], b);
    }
  }

  lemma {:induction false} NoLeads(lines: seq<string>)
    requires forall line | line in lines :: LeadOf(line) == None
    ensures LeadsOf(lines) == []
  {
    hide LeadOf;
    if lines != [] {
      NoLeads(lines[1..]);
    }
  }

  lemma {:induction false} CoordsSize(fs: seq<SastFinding>)
    ensures |LeadsOf(BulletLines(fs))| <= |fs| == |CoordsOf(fs)|
  {
    hide LeadOf, Bullet;
    if fs != [] {
      CoordsSize(fs[1..]);
    }
  }

  lemma {:induction false} LeadsMatchIff(fs: seq<SastFinding>)
    ensures LeadsOf(BulletLines(fs)) == CoordsOf(fs) <==> forall f | f in fs :: LeadOf(Bullet(f)) == Some(CoordOf(f))
  {
    hide LeadOf, Bullet, CoordOf;
    if fs != [] {
      var first, rest := LeadOf(Bullet(fs[0])), fs[1..];
      LeadsMatchIff(rest);
      CoordsSize(rest);
      var leads := LeadsOf(BulletLines(fs));
      assert leads == (match first case Some(lead) => [lead] case None => []) + LeadsOf(BulletLines(rest));
      if first.Some? && leads == CoordsOf(fs) {
        assert leads[0] == CoordsOf(fs)[0] && leads[1..] == CoordsOf(fs)[1..];
      }
      assert forall f | f in fs :: f == fs[0] || f in rest;
    }
  }

  // ---------- a newline never comes back ----------

  lemma LeadStaysOnLine(line: string)
    requires '\n' !in line && LeadOf(line).Some?
    ensures '\n' !in LeadOf(line).value.file && '\n' !in LeadOf(line).value.ruleId
  {
    hide Trim, ParseU32;
    TrimStartShrinks(line);
    var start := TrimStart(line);
    assert '\n' !in start[3..];
    var rest := SplitOnce(start[3..], "] ").value.1;
    var coord := SplitOnce(rest, SEPARATOR).value;
    TrimShrinks(SplitLast(coord.0, ":").value.0);
    RuleIdStaysOnLine(coord.1);
  }

  lemma RuleIdStaysOnLine(tail: string)
    requires '\n' !in tail
    ensures '\n' !in RuleIdOf(tail)
  {
    hide Trim;
    if SplitLast(tail, "(`").Some? {
      var r := SplitLast(tail, "(`").value.1;
      if SplitLast(r, "`)").Some? {
        TrimShrinks(SplitLast(r, "`)").value.0);
      }
    }
  }

  lemma {:induction false} LeadsStayOnLine(lines: seq<string>)
    requires forall line | line in lines :: '\n' !in line
    ensures forall lead | lead in LeadsOf(lines) :: '\n' !in lead.file && '\n' !in lead.ruleId
  {
    hide LeadOf;
    if lines != [] {
      if LeadOf(lines[0]).Some? {
        LeadStaysOnLine(lines[0]);
      }
      LeadsStayOnLine(lines[1..]);
    }
  }

  lemma {:induction false} CoordAmong(fs: seq<SastFinding>, f: SastFinding)
    requires f in fs
    ensures CoordOf(f) in CoordsOf(fs)
  {
    if f != fs[0] {
      CoordAmong(fs[1..], f);
    }
  }

  /**
   Parsing a digest gives back every coordinate in order, and nothing else, exactly when each file and each rule id is
   plain. Messages are arbitrary; the prose is any text whose lines are no bullets.
   */
  lemma DigestRoundTripIff(prose: string, fs: seq<SastFinding>)
    requires prose == [] || prose[|prose| - 1] == '\n'
    requires forall line | line in Lines(prose) :: LeadOf(line) == None
    requires forall f | f in fs :: PlainPriority(f)
    ensures LeadsOf(Lines(prose + Bullets(fs))) == CoordsOf(fs) <==> forall f | f in fs :: PlainFile(f) && PlainRule(f)
  {
    hide LeadOf, Bullets, Bullet, Lines;
    if f :| f in fs && ('\n' in f.file || '\n' in f.ruleId) {
      LinesHaveNoNewline(prose + Bullets(fs));
      LeadsStayOnLine(Lines(prose + Bullets(fs)));
      CoordAmong(fs, f);
      assert !(PlainFile(f) && PlainRule(f));
    } else {
      LinesConcat(prose, Bullets(fs));
      BulletsByLine(fs);
      LeadsOfConcat(Lines(prose), BulletLines(fs));
      NoLeads(Lines(prose));
      LeadsMatchIff(fs);
      forall f | f in fs ensures LeadOf(Bullet(f)) == Some(CoordOf(f)) <==> PlainFile(f) && PlainRule(f) {
        BulletRecoveredIff(f);
      }
    }
  }

  /** A finding in a file whose name holds a spaced em dash does not come back. */
  lemma DashedFileIsLost(message: string)
    ensures var f := SastFinding("a \U{2014} b", 1, "r", message, "P1");
      LeadsOf(Lines(Bullets([f]))) != [CoordOf(f)]
  {
    hide LeadsOf, Lines, Bullets, LeadOf, Trim;
    var f := SastFinding("a \U{2014} b", 1, "r", message, "P1");
    assert f.file[1..4] == SEPARATOR && OccursAt(f.file, SEPARATOR, 1);
    assert "P1"[0..2][0] == 'P' && !OccursAt("P1", "] ", 0);
    NothingToRead();
    DigestRoundTripIff("", [f]);
    assert "" + Bullets([f]) == Bullets([f]);
    assert [f][1..] == [] && CoordsOf([f]) == [CoordOf(f)];
    assert !PlainFile(f) && f in [f];
  }

  lemma NothingToRead()
    ensures Lines("") == []
  {
  }
}
