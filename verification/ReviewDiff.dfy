/** Reading a unified-diff patch: which new-side lines it adds and which it shows. */
module ReviewDiff {
  import opened Wrappers
  import opened Text

  datatype DiffLines = DiffLines(added: set<nat>, all: set<nat>)

  const HUNK_PREFIX := "@@ "

  function TrimEndNonDigits(s: string): string {
    if s != [] && !IsDigit(s[|s| - 1]) then TrimEndNonDigits(s[..|s| - 1]) else s
  }

  /** The text before the first comma or space. */
  function UpToDelimiter(s: string): string {
    if s == [] || s[0] == ',' || s[0] == ' ' then [] else [s[0]] + UpToDelimiter(s[1..])
  }

  /** The piece between the first and the second plus sign, if there is a first. */
  function SecondPiece(s: string): Option<string> {
    match FindChar(s, '+')
    case None => None
    case Some(i) =>
      var rest := s[i + 1..];
      match FindChar(rest, '+') case Some(j) => Some(rest[..j]) case None => Some(rest)
  }

  /** The new-side start line of a hunk header. */
  function ParseHunkNewStart(line: string): Option<nat> {
    if !(HUNK_PREFIX <= line) then None
    else match SecondPiece(line[|HUNK_PREFIX|..])
      case None => None
      case Some(plus) => ParseU32(TrimEndNonDigits(UpToDelimiter(plus)))
  }

  datatype Reader = Reader(lines: DiffLines, next: nat)

  /** The reader's state after one more line of the patch. */
  function ReadLine(r: Reader, raw: string): Reader {
    match ParseHunkNewStart(raw)
    case Some(start) => r.(next := start)
    case None =>
      if raw != [] && raw[0] == '+' then
        Reader(DiffLines(r.lines.added + {r.next}, r.lines.all + {r.next}), r.next + 1)
      else if raw != [] && raw[0] == ' ' then
        Reader(r.lines.(all := r.lines.all + {r.next}), r.next + 1)
      else r
  }

  function ReadLines(r: Reader, lines: seq<string>): Reader
    decreases |lines|
  {
    if lines == [] then r else ReadLines(ReadLine(r, lines[0]), lines[1..])
  }

  const NO_LINES := Reader(DiffLines({}, {}), 0)

  /** Collect the added and the visible new-side lines of a patch. */
  method CollectDiffLines(patch: string) returns (result: DiffLines)
    ensures result == ReadLines(NO_LINES, Lines(patch)).lines
  {
    hide ParseHunkNewStart;
    var lines := Lines(patch);
    var added: set<nat>, all: set<nat> := {}, {};
    var newLine := 0;
    assert lines[0..] == lines;
    for i := 0 to |lines|
      invariant ReadLines(Reader(DiffLines(added, all), newLine), lines[i..]) == ReadLines(NO_LINES, lines)
    {
      assert lines[i..][1..] == lines[i + 1..];
      var raw := lines[i];
      var start := ParseHunkNewStart(raw);
      if start.Some? {
        newLine := start.value;
      } else if raw != [] && raw[0] == '+' {
        added := added + {newLine};
        all := all + {newLine};
        newLine := newLine + 1;
      } else if raw != [] && raw[0] == ' ' {
        all := all + {newLine};
        newLine := newLine + 1;
      }
    }
    assert lines[|lines|..] == [];
    result := DiffLines(added, all);
  }

  // ---------- patches as hunks ----------

  datatype HunkLine = Added(text: string) | Context(text: string) | Removed(text: string) | NoNewline(text: string)

  /** A hunk as it is printed: old range, new range and section heading are free text around `newStart`. */
  datatype Hunk = Hunk(oldRange: string, newStart: nat, newCount: Option<nat>, heading: string, lines: seq<HunkLine>)

  function PrintLine(l: HunkLine): string {
    match l
    case Added(text) => "+" + text
    case Context(text) => " " + text
    case Removed(text) => "-" + text
    case NoNewline(text) => "\\" + text
  }

  function PrintHeader(h: Hunk): string {
    HUNK_PREFIX + "-" + h.oldRange + " +" + Decimal(h.newStart)
    + (match h.newCount case Some(n) => "," + Decimal(n) case None => "")
    + " @@" + h.heading
  }

  function PrintHunk(h: Hunk): seq<string> {
    [PrintHeader(h)] + seq(|h.lines|, i requires 0 <= i < |h.lines| => PrintLine(h.lines[i]))
  }

  function PrintHunks(hs: seq<Hunk>): seq<string> {
    if hs == [] then [] else PrintHunk(hs[0]) + PrintHunks(hs[1..])
  }

  /** Lines of a patch, separated by newlines. */
  function Join(lines: seq<string>): string {
    if lines == [] then ""
    else if |lines| == 1 then lines[0]
    else lines[0] + "\n" + Join(lines[1..])
  }

  function TextOf(l: HunkLine): string {
    l.text
  }

  /** Each piece of text fits on its line, and the old range holds no plus sign. */
  predicate WellFormed(h: Hunk) {
    && h.newStart <= U32_MAX
    && '+' !in h.oldRange && '\n' !in h.oldRange
    && '\n' !in h.heading
    && forall l | l in h.lines :: '\n' !in TextOf(l)
  }

  predicate OnNewSide(l: HunkLine) {
    l.Added? || l.Context?
  }

  /** New-side lines among the first `i` lines of a hunk. */
  function NewSideBefore(h: Hunk, i: nat): nat
    requires i <= |h.lines|
  {
    if i == 0 then 0 else NewSideBefore(h, i - 1) + if OnNewSide(h.lines[i - 1]) then 1 else 0
  }

  /** The new-side number of line `i` of a hunk. */
  function NumberOf(h: Hunk, i: nat): nat
    requires i <= |h.lines|
  {
    h.newStart + NewSideBefore(h, i)
  }

  /** One past the last new-side line of a hunk. */
  function EndOf(h: Hunk): nat {
    NumberOf(h, |h.lines|)
  }

  ghost predicate AddsLine(h: Hunk, n: nat) {
    exists i | 0 <= i < |h.lines| :: h.lines[i].Added? && NumberOf(h, i) == n
  }

  ghost predicate ShowsLine(h: Hunk, n: nat) {
    h.newStart <= n < EndOf(h)
  }

  // ---------- reading a header ----------

  lemma {:induction false} UpToDelimiterPrefix(s: string, rest: string)
    requires ',' !in s && ' ' !in s
    requires rest != [] && (rest[0] == ',' || rest[0] == ' ')
    ensures UpToDelimiter(s + rest) == s
  {
    if s == [] {
      assert s + rest == rest;
    } else {
      assert (s + rest)[1..] == s[1..] + rest;
      UpToDelimiterPrefix(s[1..], rest);
    }
  }

  lemma DecimalIsPlain(n: nat)
    ensures ',' !in Decimal(n) && ' ' !in Decimal(n) && '+' !in Decimal(n) && '\n' !in Decimal(n)
    ensures TrimEndNonDigits(Decimal(n)) == Decimal(n)
  {
    assert Decimal(n)[|Decimal(n)| - 1] in Decimal(n);
  }

  /** The text of a printed header after the first plus sign. */
  function AfterPlus(h: Hunk): string {
    Decimal(h.newStart)
    + ((match h.newCount case Some(n) => "," + Decimal(n) case None => "") + " @@" + h.heading)
  }

  function UpToPlus(s: string): string {
    match FindChar(s, '+') case Some(j) => s[..j] case None => s
  }

  /** The old range holds no plus sign, so the first one of a printed header opens its new range. */
  lemma HeaderPlus(h: Hunk)
    requires WellFormed(h)
    ensures HUNK_PREFIX <= PrintHeader(h)
    ensures SecondPiece(PrintHeader(h)[|HUNK_PREFIX|..]) == Some(UpToPlus(AfterPlus(h)))
  {
    hide Decimal;
    var before := "-" + h.oldRange + " ";
    var line, after := PrintHeader(h), AfterPlus(h);
    assert line == HUNK_PREFIX + (before + "+" + after);
    assert line[|HUNK_PREFIX|..] == before + "+" + after;
    hide AfterPlus, PrintHeader;
    FindCharAfter(before, '+', after);
    assert (before + "+" + after)[|before| + 1..] == after;
  }

  lemma HeaderParses(h: Hunk)
    requires WellFormed(h)
    ensures ParseHunkNewStart(PrintHeader(h)) == Some(h.newStart)
  {
    hide PrintHeader, SecondPiece, Decimal, UpToDelimiter, FindChar, ParseU32, TrimEndNonDigits;
    HeaderPlus(h);
    DecimalIsPlain(h.newStart);
    var tail := (match h.newCount case Some(n) => "," + Decimal(n) case None => "") + " @@" + h.heading;
    HeaderTail(h, tail);
    ParseDecimal(h.newStart);
  }

  /** Characters before the first `c` only shift where it is found. */
  lemma {:induction false} FindCharSkip(a: string, b: string, c: char)
    requires c !in a
    ensures FindChar(a + b, c) == match FindChar(b, c) case Some(k) => Some(|a| + k) case None => None
  {
    if a == [] {
      assert a + b == b;
    } else {
      assert (a + b)[1..] == a[1..] + b;
      assert (a + b)[0] == a[0];
      FindCharSkip(a[1..], b, c);
    }
  }

  lemma HeaderTail(h: Hunk, tail: string)
    requires tail != [] && (tail[0] == ',' || tail[0] == ' ')
    requires '+' !in Decimal(h.newStart) && ',' !in Decimal(h.newStart) && ' ' !in Decimal(h.newStart)
    ensures UpToDelimiter(UpToPlus(Decimal(h.newStart) + tail)) == Decimal(h.newStart)
  {
    var n := Decimal(h.newStart);
    var rest := n + tail;
    assert rest == (n + [tail[0]]) + tail[1..];
    FindCharSkip(n + [tail[0]], tail[1..], '+');
    match FindChar(tail[1..], '+')
    case None => UpToDelimiterPrefix(n, tail);
    case Some(k) =>
      assert rest[..|n| + 1 + k] == n + tail[..k + 1];
      UpToDelimiterPrefix(n, tail[..k + 1]);
  }

  // ---------- reading a whole patch ----------

  /** A carriage return before the newline makes no difference to the reader. */
  ghost predicate Steady(line: string) {
    forall r: Reader :: ReadLine(r, StripCarriageReturn(line)) == ReadLine(r, line)
  }

  /** A header up to its section heading. */
  function HeaderStem(h: Hunk): string {
    HUNK_PREFIX + "-" + h.oldRange + " +" + Decimal(h.newStart)
    + (match h.newCount case Some(n) => "," + Decimal(n) case None => "") + " @@"
  }

  lemma HeaderStemFits(h: Hunk)
    requires WellFormed(h)
    ensures '\n' !in HeaderStem(h)
  {
  }

  predicate Fits(line: string) {
    line != [] && '\n' !in line
  }

  lemma HeaderSteady(h: Hunk)
    requires WellFormed(h)
    ensures Steady(PrintHeader(h)) && Fits(PrintHeader(h))
  {
    hide ParseHunkNewStart, Decimal;
    var bare := h.(heading := StripCarriageReturn(h.heading));
    var stem := HeaderStem(h);
    assert PrintHeader(h) == stem + h.heading && PrintHeader(bare) == stem + bare.heading;
    assert stem[|stem| - 1] == '@';
    assert StripCarriageReturn(stem + h.heading) == stem + bare.heading;
    HeaderParses(h);
    HeaderParses(bare);
    HeaderStemFits(h);
  }

  lemma BodySteady(l: HunkLine)
    requires '\n' !in TextOf(l)
    ensures Steady(PrintLine(l)) && Fits(PrintLine(l))
    ensures ParseHunkNewStart(PrintLine(l)) == None
  {
    var line := PrintLine(l);
    var bare := StripCarriageReturn(line);
    assert HUNK_PREFIX[0] == '@';
    assert bare[0] == line[0] != '@';
    assert !(HUNK_PREFIX <= line) && !(HUNK_PREFIX <= bare);
  }

  lemma SteadyFor(r: Reader, line: string)
    requires Steady(line)
    ensures ReadLine(r, StripCarriageReturn(line)) == ReadLine(r, line)
  {
  }

  lemma {:induction false} LinesOfJoin(r: Reader, lines: seq<string>)
    requires forall l | l in lines :: l != [] && '\n' !in l && Steady(l)
    ensures ReadLines(r, Lines(Join(lines))) == ReadLines(r, lines)
    decreases |lines|
  {
    hide ParseHunkNewStart, ReadLine, StripCarriageReturn, Steady;
    if |lines| == 1 {
      LastLine(lines[0]);
      assert Lines(lines[0]) == lines;
    } else if |lines| > 1 {
      LinesCons(lines[0], Join(lines[1..]));
      var bare := StripCarriageReturn(lines[0]);
      var later := Lines(Join(lines[1..]));
      assert Lines(Join(lines)) == [bare] + later;
      assert ([bare] + later)[1..] == later;
      SteadyFor(r, lines[0]);
      assert forall l | l in lines[1..] :: l in lines;
      LinesOfJoin(ReadLine(r, lines[0]), lines[1..]);
    }
  }

  lemma {:induction false} ReadLinesConcat(r: Reader, a: seq<string>, b: seq<string>)
    ensures ReadLines(r, a + b) == ReadLines(ReadLines(r, a), b)
    decreases |a|
  {
    hide ReadLine;
    if a == [] {
      assert a + b == b;
    } else {
      assert (a + b)[1..] == a[1..] + b;
      ReadLinesConcat(ReadLine(r, a[0]), a[1..], b);
    }
  }

  /** Some line from `i` on adds new-side line `n`. */
  ghost predicate AddsFrom(h: Hunk, i: nat, n: nat) {
    exists j | i <= j < |h.lines| :: h.lines[j].Added? && NumberOf(h, j) == n
  }

  /** `after` extends `before` by what hunk `h` adds and shows from its line `i` on. */
  ghost predicate Extends(before: DiffLines, after: DiffLines, h: Hunk, i: nat)
    requires i <= |h.lines|
  {
    && (forall n: nat :: n in after.added <==> n in before.added || AddsFrom(h, i, n))
    && (forall n: nat :: n in after.all <==> n in before.all || NumberOf(h, i) <= n < EndOf(h))
  }

  lemma ReadBodyLine(r: Reader, l: HunkLine)
    requires '\n' !in TextOf(l)
    ensures ReadLine(r, PrintLine(l)) == Reader(
      DiffLines(if l.Added? then r.lines.added + {r.next} else r.lines.added,
                if OnNewSide(l) then r.lines.all + {r.next} else r.lines.all),
      if OnNewSide(l) then r.next + 1 else r.next)
  {
    hide ParseHunkNewStart;
    BodySteady(l);
  }

  lemma AddsFromStep(h: Hunk, i: nat, n: nat)
    requires i < |h.lines|
    ensures AddsFrom(h, i, n) <==> (h.lines[i].Added? && NumberOf(h, i) == n) || AddsFrom(h, i + 1, n)
  {
    hide NumberOf;
  }

  lemma {:induction false} ReadBody(r: Reader, h: Hunk, body: seq<string>, i: nat)
    requires WellFormed(h) && i <= |h.lines| == |body|
    requires forall j | 0 <= j < |body| :: body[j] == PrintLine(h.lines[j])
    requires r.next == NumberOf(h, i)
    ensures Extends(r.lines, ReadLines(r, body[i..]).lines, h, i)
    ensures NumberOf(h, i) <= EndOf(h)
    decreases |body| - i
  {
    hide ParseHunkNewStart, ReadLine, PrintLine, AddsFrom;
    if i < |body| {
      assert body[i..][0] == PrintLine(h.lines[i]);
      assert body[i..][1..] == body[i + 1..];
      assert h.lines[i] in h.lines;
      ReadBodyLine(r, h.lines[i]);
      ReadBody(ReadLine(r, body[i]), h, body, i + 1);
      forall n: nat ensures AddsFrom(h, i, n) <==> (h.lines[i].Added? && NumberOf(h, i) == n) || AddsFrom(h, i + 1, n) {
        AddsFromStep(h, i, n);
      }
    } else {
      NothingLeft(h);
      assert body[i..] == [];
    }
  }

  lemma NothingLeft(h: Hunk)
    ensures forall n: nat :: !AddsFrom(h, |h.lines|, n)
  {
  }

  ghost predicate SomeAdds(hs: seq<Hunk>, n: nat) {
    exists k | 0 <= k < |hs| :: AddsLine(hs[k], n)
  }

  ghost predicate SomeShows(hs: seq<Hunk>, n: nat) {
    exists k | 0 <= k < |hs| :: ShowsLine(hs[k], n)
  }

  lemma SomeCons(hs: seq<Hunk>, n: nat)
    requires hs != []
    ensures SomeAdds(hs, n) <==> AddsLine(hs[0], n) || SomeAdds(hs[1..], n)
    ensures SomeShows(hs, n) <==> ShowsLine(hs[0], n) || SomeShows(hs[1..], n)
  {
    hide AddsLine, ShowsLine;
  }

  lemma {:induction false} ReadHunks(r: Reader, hs: seq<Hunk>)
    requires forall h | h in hs :: WellFormed(h)
    ensures forall n: nat :: n in ReadLines(r, PrintHunks(hs)).lines.added <==> n in r.lines.added || SomeAdds(hs, n)
    ensures forall n: nat :: n in ReadLines(r, PrintHunks(hs)).lines.all <==> n in r.lines.all || SomeShows(hs, n)
    decreases |hs|
  {
    hide ParseHunkNewStart, PrintHeader, PrintLine, WellFormed, SomeAdds, SomeShows, NumberOf;
    if hs == [] {
      NoHunks();
    } else {
      var h := hs[0];
      assert h in hs;
      var first := ReadLines(r, PrintHunk(h));
      ReadHunk(r, h);
      ReadLinesConcat(r, PrintHunk(h), PrintHunks(hs[1..]));
      ReadHunks(first, hs[1..]);
      forall n: nat ensures
        && (SomeAdds(hs, n) <==> AddsLine(h, n) || SomeAdds(hs[1..], n))
        && (SomeShows(hs, n) <==> ShowsLine(h, n) || SomeShows(hs[1..], n)) {
        SomeCons(hs, n);
      }
    }
  }

  lemma NoHunks()
    ensures forall n: nat :: !SomeAdds([], n) && !SomeShows([], n)
  {
  }

  lemma ReadHunk(r: Reader, h: Hunk)
    requires WellFormed(h)
    ensures var after := ReadLines(r, PrintHunk(h)).lines;
      && (forall n: nat :: n in after.added <==> n in r.lines.added || AddsLine(h, n))
      && (forall n: nat :: n in after.all <==> n in r.lines.all || ShowsLine(h, n))
  {
    hide ParseHunkNewStart, PrintHeader, PrintLine, WellFormed;
    var body := PrintHunk(h)[1..];
    HeaderParses(h);
    assert PrintHunk(h)[0] == PrintHeader(h);
    assert body[0..] == body;
    ReadBody(r.(next := h.newStart), h, body, 0);
    assert forall n: nat :: AddsFrom(h, 0, n) <==> AddsLine(h, n);
  }

  lemma HunkSteady(h: Hunk)
    requires WellFormed(h)
    ensures forall k | 0 <= k < |PrintHunk(h)| :: Fits(PrintHunk(h)[k]) && Steady(PrintHunk(h)[k])
  {
    hide Steady, PrintLine, PrintHeader;
    HeaderSteady(h);
    forall k | 0 < k < |PrintHunk(h)| ensures Fits(PrintHunk(h)[k]) && Steady(PrintHunk(h)[k]) {
      assert PrintHunk(h)[k] == PrintLine(h.lines[k - 1]) && h.lines[k - 1] in h.lines;
      BodySteady(h.lines[k - 1]);
    }
  }

  lemma {:induction false} PrintedSteady(hs: seq<Hunk>)
    requires forall h | h in hs :: WellFormed(h)
    ensures forall l | l in PrintHunks(hs) :: Fits(l) && Steady(l)
  {
    hide Steady, Fits, PrintHunk, WellFormed;
    if hs != [] {
      HunkSteady(hs[0]);
      PrintedSteady(hs[1..]);
    }
  }

  /** Reading a printed patch back gives exactly the lines its hunks add and the lines they show. */
  lemma DiffLinesExact(hs: seq<Hunk>)
    requires forall h | h in hs :: WellFormed(h)
    ensures var d := ReadLines(NO_LINES, Lines(Join(PrintHunks(hs)))).lines;
      && (forall n: nat :: n in d.added <==> SomeAdds(hs, n))
      && (forall n: nat :: n in d.all <==> SomeShows(hs, n))
  {
    hide ReadLine, SomeAdds, SomeShows, WellFormed, Steady;
    PrintedSteady(hs);
    LinesOfJoin(NO_LINES, PrintHunks(hs));
    ReadHunks(NO_LINES, hs);
  }

  // ---------- multi-line ranges ----------

  /** The first line of a range comment ending at `line`, when every line of the range is visible. */
  function ValidatedRangeStart(startLine: Option<nat>, line: nat, visible: Option<set<nat>>): Option<nat> {
    if startLine.None? || startLine.value == 0 || startLine.value > line || visible.None? then None
    else if forall l | startLine.value <= l <= line :: l in visible.value then startLine
    else None
  }

  /** The range from `start` to `line` is accepted over the lines `hs` show. */
  ghost predicate AcceptedRange(hs: seq<Hunk>, start: nat, line: nat) {
    0 < start <= line && forall l: nat | start <= l <= line :: SomeShows(hs, l)
  }

  lemma AcceptedIff(hs: seq<Hunk>, start: nat, line: nat)
    requires forall h | h in hs :: WellFormed(h)
    ensures AcceptedRange(hs, start, line) <==>
      ValidatedRangeStart(Some(start), line, Some(ReadLines(NO_LINES, Lines(Join(PrintHunks(hs)))).lines.all))
        == Some(start)
  {
    hide ReadLines, WellFormed, SomeShows;
    DiffLinesExact(hs);
  }

  ghost predicate Within(h: Hunk, start: nat, line: nat) {
    ShowsLine(h, start) && ShowsLine(h, line)
  }

  ghost predicate OneHunk(hs: seq<Hunk>, start: nat, line: nat) {
    exists k | 0 <= k < |hs| :: Within(hs[k], start, line)
  }

  predicate ShowsSomething(h: Hunk) {
    h.newStart < EndOf(h)
  }

  /** Hunks that show lines run down the file without sharing any. */
  ghost predicate InFileOrder(hs: seq<Hunk>) {
    forall i, j | 0 <= i < j < |hs| && ShowsSomething(hs[i]) && ShowsSomething(hs[j]) :: EndOf(hs[i]) <= hs[j].newStart
  }

  /** A hidden line lies between any two hunks that show lines (line 0 is no line of a file). */
  ghost predicate Separated(hs: seq<Hunk>) {
    forall i, j | 0 <= i < j < |hs| && ShowsSomething(hs[i]) && ShowsSomething(hs[j]) && EndOf(hs[i]) > 1 ::
      EndOf(hs[i]) < hs[j].newStart
  }

  /**
   Accepted ranges stay inside one hunk exactly when a hidden line separates the hunks: membership of every line is
   not by itself a single-hunk check.
   */
  lemma RangesInOneHunkIff(hs: seq<Hunk>)
    requires InFileOrder(hs)
    ensures (forall start: nat, line: nat | AcceptedRange(hs, start, line) :: OneHunk(hs, start, line))
      <==> Separated(hs)
  {
    hide EndOf;
    if Separated(hs) {
      forall start: nat, line: nat | AcceptedRange(hs, start, line) ensures OneHunk(hs, start, line) {
        assert SomeShows(hs, start);
        var k :| 0 <= k < |hs| && ShowsLine(hs[k], start);
        RangeStays(hs, k, start, line);
        assert Within(hs[k], start, line);
      }
    } else {
      var i, j :| 0 <= i < j < |hs| && ShowsSomething(hs[i]) && ShowsSomething(hs[j]) && EndOf(hs[i]) > 1
        && EndOf(hs[i]) >= hs[j].newStart;
      var end := EndOf(hs[i]);
      assert ShowsLine(hs[i], end - 1) && ShowsLine(hs[j], end);
      assert AcceptedRange(hs, end - 1, end);
      assert !OneHunk(hs, end - 1, end);
    }
  }

  lemma {:induction false} RangeStays(hs: seq<Hunk>, k: nat, start: nat, line: nat)
    requires InFileOrder(hs) && Separated(hs)
    requires AcceptedRange(hs, start, line) && k < |hs| && ShowsLine(hs[k], start)
    ensures ShowsLine(hs[k], line)
    decreases line
  {
    hide EndOf;
    if start < line {
      RangeStays(hs, k, start, line - 1);
      assert SomeShows(hs, line);
      var m :| 0 <= m < |hs| && ShowsLine(hs[m], line);
      assert ShowsSomething(hs[m]) && ShowsSomething(hs[k]);
    }
  }

  /** Two hunks with no line between them: the range over their border is accepted. */
  lemma AdjacentHunksShareRange()
    ensures var hs := [Hunk("1", 1, None, "", [Added("a")]), Hunk("2", 2, None, "", [Added("b")])];
      && ValidatedRangeStart(Some(1), 2, Some(ReadLines(NO_LINES, Lines(Join(PrintHunks(hs)))).lines.all)) == Some(1)
      && !OneHunk(hs, 1, 2)
  {
    hide ReadLines, PrintHunks, Join, Lines, ParseHunkNewStart;
    var hs := [Hunk("1", 1, None, "", [Added("a")]), Hunk("2", 2, None, "", [Added("b")])];
    assert EndOf(hs[0]) == 2 && EndOf(hs[1]) == 3;
    assert ShowsLine(hs[0], 1) && ShowsLine(hs[1], 2);
    assert forall l: nat | 1 <= l <= 2 :: SomeShows(hs, l);
    AcceptedIff(hs, 1, 2);
  }
}
