/** The context block that shows a re-review what earlier reviews said, kept within a byte budget. */
module PriorReviews {
  import opened Wrappers
  import opened Text
  import opened ReviewTypes

  const PRIOR_FINDINGS_CAP := 30
  const PRIOR_BLOCK_CHAR_CAP := 8000

  /** A stored findings value: an array of findings, or anything else. */
  datatype StoredFindings = Readable(items: seq<Finding>) | Unreadable(nonEmptyArray: bool)

  datatype PriorReview = PriorReview(ordinal: nat, summary: string, findings: StoredFindings)

  /** The two fixed passages of prompt text: what opens the block, and what marks a cut. */
  datatype Prompt = Prompt(header: string, cutNote: string)

  // ---------- cutting on a character and line boundary ----------

  predicate IsCharBoundary(s: string, at: nat) {
    at == 0 || (s != [] && at >= Width(s[0]) && IsCharBoundary(s[1..], at - Width(s[0])))
  }

  /** How many whole characters of `s` fit in `budget` bytes. */
  function FitLen(s: string, budget: nat): (r: nat)
    ensures r <= |s|
  {
    if s == [] || Width(s[0]) > budget then 0 else 1 + FitLen(s[1..], budget - Width(s[0]))
  }

  lemma {:induction false} FitLenIsMost(s: string, budget: nat)
    ensures Utf8Len(s[..FitLen(s, budget)]) <= budget
    ensures FitLen(s, budget) < |s| ==> Utf8Len(s[..FitLen(s, budget) + 1]) > budget
  {
    var k := FitLen(s, budget);
    if s != [] {
      assert s[..1] == [s[0]] && Utf8Len([s[0]]) == Width(s[0]) + Utf8Len([]);
      if Width(s[0]) <= budget {
        FitLenIsMost(s[1..], budget - Width(s[0]));
        assert s[..k][1..] == s[1..][..k - 1];
        if k < |s| {
          assert s[..k + 1][1..] == s[1..][..k];
        }
      }
    }
  }

  /** Stepping back from inside a character leaves the same characters. */
  lemma {:induction false} FitLenStepsBack(s: string, at: nat)
    requires at > 0 && !IsCharBoundary(s, at)
    ensures FitLen(s, at) == FitLen(s, at - 1)
  {
    if s != [] && Width(s[0]) <= at {
      FitLenStepsBack(s[1..], at - Width(s[0]));
    }
  }

  /** Position of the last `c`. */
  function LastChar(s: string, c: char): (at: Option<nat>)
    ensures at.Some? ==> at.value < |s| && s[at.value] == c && c !in s[at.value + 1..]
    ensures at.None? ==> c !in s
  {
    if s == [] then None
    else if s[|s| - 1] == c then Some(|s| - 1)
    else LastChar(s[..|s| - 1], c)
  }

  /** Where an over-long block is cut: at the last newline that fits, else after the last whole character. */
  function CutPoint(block: string): (cut: nat)
    ensures cut <= FitLen(block, PRIOR_BLOCK_CHAR_CAP)
  {
    var fit := FitLen(block, PRIOR_BLOCK_CHAR_CAP);
    LastChar(block[..fit], '\n').GetOr(fit)
  }

  function Capped(prompt: Prompt, block: string): string {
    if Utf8Len(block) <= PRIOR_BLOCK_CHAR_CAP then block else block[..CutPoint(block)] + prompt.cutNote
  }

  method CapBlock(prompt: Prompt, block: string) returns (r: string)
    ensures r == Capped(prompt, block)
  {
    hide Utf8Len, FitLen, IsCharBoundary, LastChar;
    if Utf8Len(block) <= PRIOR_BLOCK_CHAR_CAP {
      return block;
    }
    var boundary := PRIOR_BLOCK_CHAR_CAP;
    while boundary > 0 && !IsCharBoundary(block, boundary)
      invariant 0 <= boundary
      invariant FitLen(block, boundary) == FitLen(block, PRIOR_BLOCK_CHAR_CAP)
    {
      FitLenStepsBack(block, boundary);
      boundary := boundary - 1;
    }
    var fit := FitLen(block, boundary);
    var cut := LastChar(block[..fit], '\n').GetOr(fit);
    r := block[..cut] + prompt.cutNote;
  }

  /** A cut block keeps whole lines while one ends within budget, and never more bytes than the budget. */
  lemma CutKeepsWholeLines(block: string)
    requires Utf8Len(block) > 8000
    ensures var cut := CutPoint(block);
      && cut < |block| && Utf8Len(block[..cut]) <= 8000
      && (block[cut] == '\n' || Utf8Len(block[..cut + 1]) > 8000)
      && (forall k | cut < k < |block| && block[k] == '\n' :: Utf8Len(block[..k + 1]) > 8000)
      && (block[cut] != '\n' ==> '\n' !in block[..cut])
  {
    hide Utf8Len, FitLen, LastChar;
    var cap := PRIOR_BLOCK_CHAR_CAP;
    var fit := FitLen(block, cap);
    FitLenIsMost(block, cap);
    assert fit < |block| by {
      assert block[..|block|] == block;
    }
    var cut := CutPoint(block);
    PrefixLen(block, cut, fit);
    var head := block[..fit];
    forall k | cut < k < fit ensures block[k] != '\n' {
      assert head[k] == block[k];
      if LastChar(head, '\n').Some? {
        assert head[cut + 1..][k - cut - 1] == head[k];
      }
    }
    forall k | cut < k < |block| && block[k] == '\n' ensures Utf8Len(block[..k + 1]) > cap {
      assert k >= fit;
      PrefixLen(block, fit + 1, k + 1);
    }
    assert cut < fit ==> head[cut] == block[cut];
    assert head[..cut] == block[..cut];
  }

  lemma PrefixLen(s: string, i: nat, j: nat)
    requires i <= j <= |s|
    ensures Utf8Len(s[..i]) <= Utf8Len(s[..j])
  {
    assert s[..j] == s[..i] + s[i..j];
    Utf8LenConcat(s[..i], s[i..j]);
  }

  // ---------- rendering one review ----------

  function AsciiLower(c: char): char {
    if 'A' <= c <= 'Z' then 'a' + (c - 'A') else c
  }

  predicate EqIgnoreAsciiCase(a: string, b: string) {
    |a| == |b| && forall i | 0 <= i < |a| :: AsciiLower(a[i]) == AsciiLower(b[i])
  }

  function Priority(f: Finding): string {
    var p := Trim(f.priority.GetOr(""));
    var s := Trim(f.severity.GetOr(""));
    if EqIgnoreAsciiCase(p, "P0") then "P0"
    else if EqIgnoreAsciiCase(p, "P1") then "P1"
    else if EqIgnoreAsciiCase(p, "P2") then "P2"
    else if EqIgnoreAsciiCase(s, "error") || EqIgnoreAsciiCase(s, "critical") then "P0"
    else if EqIgnoreAsciiCase(s, "warning") || EqIgnoreAsciiCase(s, "warn") || EqIgnoreAsciiCase(s, "high") then "P1"
    else "P2"
  }

  function Category(f: Finding): string {
    var c := Trim(f.category.GetOr(""));
    if c == "" then "correctness" else c
  }

  function Parsed(p: PriorReview): seq<Finding> {
    match p.findings case Readable(items) => items case Unreadable(_) => []
  }

  function FindingLine(f: Finding): string {
    "- [" + Priority(f) + "/" + Category(f) + "] " + f.file + ":" + Decimal(f.line) + " \U{2014} " + Trim(f.title)
      + "\n"
  }

  function Concat(lines: seq<string>): string {
    if lines == [] then "" else Concat(lines[..|lines| - 1]) + lines[|lines| - 1]
  }

  function FindingLines(fs: seq<Finding>): seq<string> {
    seq(|fs|, i requires 0 <= i < |fs| => FindingLine(fs[i]))
  }

  function LatestDetail(p: PriorReview): Option<string> {
    var parsed := Parsed(p);
    var summary := Trim(p.summary);
    if summary == "" && parsed == [] then None
    else Some("\n"
      + (if summary == "" then "" else "\nPrior verdict: " + summary + "\n")
      + (if parsed == [] then ""
         else if |parsed| <= PRIOR_FINDINGS_CAP then FindingsTitle() + Concat(FindingLines(parsed))
         else
           FindingsTitle() + Concat(FindingLines(parsed[..PRIOR_FINDINGS_CAP]))
           + MoreFindings(|parsed| - PRIOR_FINDINGS_CAP)))
  }

  function FindingsTitle(): string {
    "\nPrior findings (unverified \U{2014} re-derive or retract):\n"
  }

  function MoreFindings(n: nat): string {
    "- \U{2026} and " + Decimal(n) + " more (older/lower-priority) \U{2014} re-derive from the diff if still relevant\n"
  }

  function JoinWith(pieces: seq<string>, separator: string): string {
    if pieces == [] then ""
    else if |pieces| == 1 then pieces[0]
    else pieces[0] + separator + JoinWith(pieces[1..], separator)
  }

  /** The trimmed titles that have any text. */
  function Titles(fs: seq<Finding>): seq<string> {
    if fs == [] then []
    else (if Trim(fs[0].title) == "" then [] else [Trim(fs[0].title)]) + Titles(fs[1..])
  }

  /** The line an older review is compressed to, without its newline. */
  function CompressedText(p: PriorReview): string {
    var verdict := OneLine(Trim(p.summary));
    var titles := Titles(Parsed(p));
    "- review #" + Decimal(p.ordinal) + ": " + (if verdict == "" then "no verdict" else verdict)
    + if titles == [] then " (0 findings)"
      else " (" + Decimal(|titles|) + " finding(s): " + JoinWith(titles, "; ") + ")"
  }

  function CompressedLine(p: PriorReview): string {
    CompressedText(p) + "\n"
  }

  function CompressedLines(ps: seq<PriorReview>): (r: seq<string>)
    ensures |r| == |ps|
  {
    seq(|ps|, i requires 0 <= i < |ps| => CompressedLine(ps[i]))
  }

  lemma {:induction false} FirstWordIsWord(s: string)
    ensures '\n' !in FirstWord(s)
  {
    if s != [] && !IsWhitespace(s[0]) {
      FirstWordIsWord(s[1..]);
    }
  }

  lemma {:induction false} OneLineHasNoNewline(s: string)
    ensures '\n' !in OneLine(s)
    decreases |s|
  {
    var start := SkipSpace(s);
    if start != [] {
      FirstWordIsWord(start);
      OneLineHasNoNewline(start[|FirstWord(start)|..]);
    }
  }

  lemma {:induction false} DecimalHasNoNewline(n: nat)
    ensures '\n' !in Decimal(n)
  {
  }

  lemma {:induction false} JoinHasNewlineIff(pieces: seq<string>)
    ensures '\n' in JoinWith(pieces, "; ") <==> exists k | 0 <= k < |pieces| :: '\n' in pieces[k]
  {
    if |pieces| > 1 {
      var rest := pieces[1..];
      JoinHasNewlineIff(rest);
      assert forall k | 0 <= k < |rest| :: rest[k] == pieces[k + 1];
      assert forall k | 0 < k < |pieces| :: pieces[k] == rest[k - 1];
      assert '\n' !in "; ";
    }
  }

  /** An older review takes one line exactly when none of its titles spans lines; the verdict never does. */
  lemma CompressedIsOneLineIff(p: PriorReview)
    ensures '\n' !in CompressedText(p) <==> forall k | 0 <= k < |Titles(Parsed(p))| :: '\n' !in Titles(Parsed(p))[k]
  {
    hide OneLine, Trim, Titles, JoinWith, Decimal;
    OneLineHasNoNewline(Trim(p.summary));
    JoinHasNewlineIff(Titles(Parsed(p)));
    DecimalHasNoNewline(p.ordinal);
    DecimalHasNoNewline(|Titles(Parsed(p))|);
  }

  /** A title over two lines takes an older review over two lines. */
  lemma SpanningTitleSpans()
    ensures var f := Finding("a.rs", 1, None, None, None, None, "one\ntwo", "", None, []);
      '\n' in CompressedText(PriorReview(1, "", Readable([f])))
  {
    hide CompressedText, Trim;
    var f := Finding("a.rs", 1, None, None, None, None, "one\ntwo", "", None, []);
    var p := PriorReview(1, "", Readable([f]));
    TrimOfTrimmed("one\ntwo");
    assert [f][1..] == [] && Titles([]) == [];
    assert Titles([f]) == ["one\ntwo"];
    var title := Titles(Parsed(p))[0];
    assert title == "one\ntwo" && title[3] == '\n';
    CompressedIsOneLineIff(p);
  }

  // ---------- the whole block ----------

  predicate HasContent(p: PriorReview) {
    || Trim(p.summary) != ""
    || match p.findings case Readable(items) => items != [] case Unreadable(nonEmptyArray) => nonEmptyArray
  }

  /** The header and the section on the latest review. */
  function Head(prompt: Prompt, latest: PriorReview): string {
    prompt.header + "\n### Latest prior review"
    + LatestDetail(latest).GetOr(" \U{2014} (no verdict or findings recorded)\n")
  }

  function OmittedNote(n: nat): string {
    "\U{2026} [" + Decimal(n) + " earlier automated review(s) omitted to keep this context bounded] \U{2026}\n"
  }

  function EarlierTitle(): string {
    "\n### Earlier prior reviews (compressed)\n"
  }

  /** How many leading lines fit after `used` bytes. */
  function Fitting(used: nat, lines: seq<string>): (k: nat)
    ensures k <= |lines|
    decreases |lines|
  {
    if lines == [] || used + Utf8Len(lines[0]) > PRIOR_BLOCK_CHAR_CAP then 0
    else 1 + Fitting(used + Utf8Len(lines[0]), lines[1..])
  }

  /** How many older reviews the block shows. */
  function Shown(prompt: Prompt, priors: seq<PriorReview>): (k: nat)
    requires priors != []
    ensures k < |priors|
  {
    Fitting(Utf8Len(Head(prompt, priors[0]) + EarlierTitle()), CompressedLines(priors[1..]))
  }

  /** The section on older reviews: the lines that fit, then a note on the rest. */
  function Tail(prompt: Prompt, priors: seq<PriorReview>): string
    requires priors != []
  {
    var k := Shown(prompt, priors);
    var omitted := |priors| - 1 - k;
    EarlierTitle() + Concat(CompressedLines(priors[1..])[..k]) + if omitted > 0 then "\n" + OmittedNote(omitted) else ""
  }

  function BlockOf(prompt: Prompt, priors: seq<PriorReview>): Option<string> {
    if !exists i | 0 <= i < |priors| :: HasContent(priors[i]) then None
    else
      var head := Head(prompt, priors[0]);
      if Utf8Len(head) > PRIOR_BLOCK_CHAR_CAP then
        Some(Capped(prompt, head) + if |priors| > 1 then OmittedNote(|priors| - 1) else "")
      else
        Some(head + if |priors| > 1 then Tail(prompt, priors) else "")
  }

  /** Build the block from prior reviews, newest first. */
  method FormatPriorReviews(prompt: Prompt, priors: seq<PriorReview>) returns (block: Option<string>)
    ensures block == BlockOf(prompt, priors)
  {
    hide Utf8Len, Head, LatestDetail, HasContent, OmittedNote, EarlierTitle, CompressedLine, Capped, Concat, Fitting;
    var anyContent := exists i | 0 <= i < |priors| :: HasContent(priors[i]);
    if priors == [] || !anyContent {
      return None;
    }
    var out := Head(prompt, priors[0]);
    var older := priors[1..];
    if Utf8Len(out) > PRIOR_BLOCK_CHAR_CAP {
      var capped := CapBlock(prompt, out);
      if older != [] {
        capped := capped + OmittedNote(|older|);
      }
      assert Capped(prompt, out) + "" == Capped(prompt, out);
      return Some(capped);
    }
    if older != [] {
      out := out + EarlierTitle();
      ghost var start, lines := out, CompressedLines(older);
      assert lines[0..] == lines && start + Concat([]) == start by { NoLines(); }
      var omitted := 0;
      for i := 0 to |older|
        invariant out == start + Concat(lines[..i])
        invariant Fitting(Utf8Len(start), lines) == i + Fitting(Utf8Len(out), lines[i..])
        invariant omitted == 0
      {
        var line := CompressedLine(older[i]);
        assert lines[i..][0] == line && lines[i..][1..] == lines[i + 1..];
        FittingStep(Utf8Len(out), lines[i..]);
        if Utf8Len(out) + Utf8Len(line) > PRIOR_BLOCK_CHAR_CAP {
          omitted := |older| - i;
          break;
        }
        ConcatSnoc(lines, i);
        assert start + Concat(lines[..i]) + line == start + Concat(lines[..i + 1]);
        Utf8LenConcat(out, line);
        out := out + line;
      }
      NoneFit(Utf8Len(out));
      assert lines[|older|..] == [];
      assert omitted == |older| - Fitting(Utf8Len(start), lines);
      ghost var shown := Concat(lines[..|older| - omitted]);
      assert out == start + shown == Head(prompt, priors[0]) + (EarlierTitle() + shown);
      if omitted > 0 {
        assert out + "\n" + OmittedNote(omitted)
          == Head(prompt, priors[0]) + (EarlierTitle() + shown + ("\n" + OmittedNote(omitted)));
        out := out + "\n" + OmittedNote(omitted);
      } else {
        assert EarlierTitle() + shown == EarlierTitle() + shown + "";
      }
    } else {
      assert out == out + "";
    }
    return Some(out);
  }

  lemma NoLines()
    ensures Concat([]) == ""
  {
  }

  lemma NoneFit(used: nat)
    ensures Fitting(used, []) == 0
  {
  }

  lemma FittingStep(used: nat, lines: seq<string>)
    requires lines != []
    ensures Fitting(used, lines) == if used + Utf8Len(lines[0]) > PRIOR_BLOCK_CHAR_CAP then 0
      else 1 + Fitting(used + Utf8Len(lines[0]), lines[1..])
  {
  }

  lemma ConcatSnoc(lines: seq<string>, i: nat)
    requires i < |lines|
    ensures Concat(lines[..i + 1]) == Concat(lines[..i]) + lines[i]
  {
    assert lines[..i + 1][..i] == lines[..i];
  }

  lemma {:induction false} ConcatCons(line: string, lines: seq<string>)
    ensures Concat([line] + lines) == line + Concat(lines)
  {
    if lines == [] {
      assert [line] + lines == [line] && [line][..0] == [];
    } else {
      assert ([line] + lines)[..|lines|] == [line] + lines[..|lines| - 1];
      ConcatCons(line, lines[..|lines| - 1]);
    }
  }

  /** The lines shown fit the budget, and the first one left out would not have. */
  lemma {:induction false} FittingIsMost(used: nat, lines: seq<string>)
    ensures var k := Fitting(used, lines);
      && (k > 0 ==> used + Utf8Len(Concat(lines[..k])) <= PRIOR_BLOCK_CHAR_CAP)
      && (k < |lines| ==> used + Utf8Len(Concat(lines[..k + 1])) > PRIOR_BLOCK_CHAR_CAP)
    decreases |lines|
  {
    hide Utf8Len, Concat;
    if lines != [] {
      var k := Fitting(used, lines);
      ConcatOne(lines);
      if k > 0 {
        var first, rest := lines[0], lines[1..];
        FittingIsMost(used + Utf8Len(first), rest);
        assert lines[..k] == [first] + rest[..k - 1];
        ConcatCons(first, rest[..k - 1]);
        Utf8LenConcat(first, Concat(rest[..k - 1]));
        NoLines();
        if k < |lines| {
          assert lines[..k + 1] == [first] + rest[..k];
          ConcatCons(first, rest[..k]);
          Utf8LenConcat(first, Concat(rest[..k]));
        }
      }
    }
  }

  lemma ConcatOne(lines: seq<string>)
    requires lines != []
    ensures Concat(lines[..1]) == lines[0]
  {
  }

  /**
   The section on the latest review is never cut to make room for older ones: when it fits, it stands whole, and older
   reviews take what is left, newest first, each one shown or counted as omitted.
   */
  lemma LatestNeverCut(prompt: Prompt, priors: seq<PriorReview>)
    requires BlockOf(prompt, priors).Some?
    requires Utf8Len(Head(prompt, priors[0])) <= 8000
    ensures Head(prompt, priors[0]) <= BlockOf(prompt, priors).value
    ensures |priors| > 1 ==>
      var k := Shown(prompt, priors);
      var start := Head(prompt, priors[0]) + EarlierTitle();
      && BlockOf(prompt, priors).value == start + Concat(CompressedLines(priors[1..])[..k])
        + (if k < |priors| - 1 then "\n" + OmittedNote(|priors| - 1 - k) else "")
      && (k > 0 ==> Utf8Len(start + Concat(CompressedLines(priors[1..])[..k])) <= 8000)
      && (k < |priors| - 1 ==> Utf8Len(start + Concat(CompressedLines(priors[1..])[..k + 1])) > 8000)
  {
    hide Utf8Len, Head, HasContent, OmittedNote, EarlierTitle, CompressedLines, Concat, Fitting;
    if |priors| > 1 {
      var start := Head(prompt, priors[0]) + EarlierTitle();
      var lines := CompressedLines(priors[1..]);
      var k := Shown(prompt, priors);
      FittingIsMost(Utf8Len(start), lines);
      Utf8LenConcat(start, Concat(lines[..k]));
      if k < |lines| {
        Utf8LenConcat(start, Concat(lines[..k + 1]));
      }
    }
  }

  lemma {:induction false} DecimalGrows(m: nat, n: nat)
    requires m <= n
    ensures |Decimal(m)| <= |Decimal(n)|
  {
    if m >= 10 {
      DecimalGrows(m / 10, n / 10);
    }
  }

  lemma {:induction false} AsciiLen(s: string)
    requires forall c | c in s :: IsDigit(c)
    ensures Utf8Len(s) == |s|
  {
    if s != [] {
      assert s[0] in s;
      AsciiLen(s[1..]);
    }
  }

  lemma OmittedNoteGrows(m: nat, n: nat)
    requires m <= n
    ensures Utf8Len(OmittedNote(m)) <= Utf8Len(OmittedNote(n))
  {
    hide Utf8Len, Decimal;
    DecimalGrows(m, n);
    AsciiLen(Decimal(m));
    AsciiLen(Decimal(n));
    var a, z := "\U{2026} [", " earlier automated review(s) omitted to keep this context bounded] \U{2026}\n";
    assert OmittedNote(m) == a + (Decimal(m) + z) && OmittedNote(n) == a + (Decimal(n) + z);
    Utf8LenConcat(a, Decimal(m) + z);
    Utf8LenConcat(a, Decimal(n) + z);
    Utf8LenConcat(Decimal(m), z);
    Utf8LenConcat(Decimal(n), z);
  }

  /** However long the reviews are, the block stays within the budget plus its own fixed notes. */
  lemma BlockBounded(prompt: Prompt, priors: seq<PriorReview>)
    requires BlockOf(prompt, priors).Some?
    ensures Utf8Len(BlockOf(prompt, priors).value) <=
      8000 + Utf8Len(prompt.cutNote) + Utf8Len(EarlierTitle()) + 1 + Utf8Len(OmittedNote(|priors|))
  {
    hide Utf8Len, Head, HasContent, OmittedNote, EarlierTitle, CompressedLines, Concat, Fitting, CutPoint;
    var head := Head(prompt, priors[0]);
    var others := |priors| - 1;
    if Utf8Len(head) > PRIOR_BLOCK_CHAR_CAP {
      CutKeepsWholeLines(head);
      Utf8LenConcat(head[..CutPoint(head)], prompt.cutNote);
      OmittedNoteGrows(others, |priors|);
      NoteLen(Capped(prompt, head), OmittedNote(others));
      assert Capped(prompt, head) + "" == Capped(prompt, head);
    } else if others > 0 {
      LatestNeverCut(prompt, priors);
      var k := Shown(prompt, priors);
      var start := head + EarlierTitle();
      var body := start + Concat(CompressedLines(priors[1..])[..k]);
      Utf8LenConcat(head, EarlierTitle());
      assert Utf8Len(body) <= PRIOR_BLOCK_CHAR_CAP + Utf8Len(EarlierTitle()) by {
        if k == 0 {
          NoLines();
          assert body == start;
        }
      }
      OmittedNoteGrows(others - k, |priors|);
      NoteLen(body, OmittedNote(others - k));
      assert body + ("\n" + OmittedNote(others - k)) == body + "\n" + OmittedNote(others - k);
      assert body + "" == body;
    } else {
      assert head + "" == head;
    }
  }

  lemma NoteLen(s: string, note: string)
    ensures Utf8Len(s + note) == Utf8Len(s) + Utf8Len(note)
    ensures Utf8Len(s + "\n" + note) == Utf8Len(s) + 1 + Utf8Len(note)
  {
    Utf8LenConcat(s, note);
    Utf8LenConcat(s, "\n");
    Utf8LenConcat(s + "\n", note);
  }
}
