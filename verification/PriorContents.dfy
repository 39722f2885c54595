/**
 What the context block says of earlier reviews: of the latest its verdict and findings, of an older one its titles.
 */
module PriorContents {
  import opened Text
  import opened ReviewTypes
  import opened ReviewForms
  import opened PriorReviews

  /** The pieces stand in `s` at these positions, one after the other. */
  ghost predicate StandIn(s: string, pieces: seq<string>, at: seq<nat>) {
    && |at| == |pieces|
    && (forall j | 0 <= j < |pieces| :: OccursAt(s, pieces[j], at[j]))
    && forall j, k | 0 <= j < k < |pieces| :: at[j] + |pieces[j]| <= at[k]
  }

  lemma OccursInside(a: string, s: string, b: string, piece: string, i: nat)
    requires OccursAt(s, piece, i)
    ensures OccursAt(a + s + b, piece, |a| + i)
  {
    var whole := a + s + b;
    assert whole[|a|..|a| + |s|] == s;
    assert whole[|a| + i..|a| + i + |piece|] == whole[|a|..|a| + |s|][i..i + |piece|];
  }

  lemma StandInside(a: string, s: string, b: string, pieces: seq<string>, at: seq<nat>)
    requires StandIn(s, pieces, at)
    ensures StandIn(a + s + b, pieces, Shifted(at, |a|))
  {
    hide OccursAt;
    forall j | 0 <= j < |pieces| ensures OccursAt(a + s + b, pieces[j], at[j] + |a|) {
      OccursInside(a, s, b, pieces[j], at[j]);
    }
  }

  lemma StandPush(s: string, pieces: seq<string>, at: seq<nat>, last: string)
    requires StandIn(s, pieces, at)
    ensures StandIn(s + last, pieces + [last], at + [|s|])
  {
    hide OccursAt;
    OccursFirst(last);
    OccursInside(s, last, "", last, 0);
    assert s + last + "" == s + last && "" + s + last == s + last;
    forall j | 0 <= j < |pieces|
      ensures OccursAt(s + last, pieces[j], at[j]) && at[j] + |pieces[j]| <= |s| {
      OccursInside("", s, last, pieces[j], at[j]);
      OccursFits(s, pieces[j], at[j]);
    }
  }

  lemma OccursFits(s: string, piece: string, i: nat)
    requires OccursAt(s, piece, i)
    ensures i + |piece| <= |s|
  {
  }

  lemma OccursFirst(s: string)
    ensures OccursAt(s, s, 0)
  {
  }

  lemma {:induction false} LinesStand(lines: seq<string>) returns (at: seq<nat>)
    ensures StandIn(Concat(lines), lines, at)
  {
    hide StandIn;
    if lines == [] {
      at := [];
      NothingStands("");
    } else {
      var front, last := lines[..|lines| - 1], lines[|lines| - 1];
      at := LinesStand(front);
      StandPush(Concat(front), front, at, last);
      assert front + [last] == lines;
      at := at + [|Concat(front)|];
    }
  }

  lemma NothingStands(s: string)
    ensures StandIn(s, [], [])
  {
  }

  lemma {:induction false} PiecesStand(pieces: seq<string>, separator: string) returns (at: seq<nat>)
    ensures StandIn(JoinWith(pieces, separator), pieces, at)
  {
    at := [];
    if |pieces| == 1 {
      at := [0];
      assert pieces[0][0..|pieces[0]|] == pieces[0];
    } else if |pieces| > 1 {
      var rest := pieces[1..];
      var later := PiecesStand(rest, separator);
      var d := |pieces[0]| + |separator|;
      StandInside(pieces[0] + separator, JoinWith(rest, separator), "", rest, later);
      var whole := JoinWith(pieces, separator);
      assert pieces[0] + separator + JoinWith(rest, separator) + "" == whole;
      at := [0] + Shifted(later, d);
      assert OccursAt(whole, pieces[0], 0);
      forall j | 0 <= j < |pieces| ensures OccursAt(whole, pieces[j], at[j]) {
        assert j > 0 ==> pieces[j] == rest[j - 1] && at[j] == Shifted(later, d)[j - 1];
      }
    }
  }

  // ---------- the latest review ----------

  /** A finding on a line of its own: how it is ranked, where it is, and its trimmed title. */
  ghost predicate TellsFinding(line: string, f: Finding) {
    exists title :: TrimmedTo(f.title, title)
      && line == "- [" + Priority(f) + "/" + Category(f) + "] " + f.file + ":" + Decimal(f.line) + " \U{2014} "
        + title + "\n"
  }

  lemma LineTells(f: Finding)
    ensures TellsFinding(FindingLine(f), f)
  {
    hide Trim, Decimal, TrimmedTo;
    TrimIs(f.title, Trim(f.title));
  }

  /** What the section says if there is anything to say: the verdict, then the findings, thirty at most, in order. */
  ghost predicate TellsLatest(p: PriorReview, text: string) {
    && (forall verdict | TrimmedTo(p.summary, verdict) && verdict != "" ::
          OccursAt(text, "\nPrior verdict: " + verdict + "\n", 1))
    && exists lines, at ::
         && |lines| == (if |Parsed(p)| <= 30 then |Parsed(p)| else 30)
         && (forall j | 0 <= j < |lines| :: TellsFinding(lines[j], Parsed(p)[j]))
         && StandIn(text, lines, at)
  }

  /**
   The section on the latest review is missing exactly when it has neither a verdict nor findings; otherwise it says the
   verdict and its first thirty findings.
   */
  lemma LatestTells(p: PriorReview)
    ensures LatestDetail(p).None? <==> Blank(p.summary) && Parsed(p) == []
    ensures LatestDetail(p).Some? ==> TellsLatest(p, LatestDetail(p).value)
  {
    hide Trim, Blank, TrimmedTo, OccursAt, StandIn, FindingLines, TellsFinding, Concat, MoreFindings, FindingsTitle,
         Parsed;
    BlankTrims(p.summary);
    if LatestDetail(p).Some? {
      var text, parsed := LatestDetail(p).value, Parsed(p);
      var shown := if |parsed| <= 30 then parsed else parsed[..30];
      var lines := FindingLines(shown);
      LinesTell(shown);
      var on := LinesStand(lines);
      var verdict := Trim(p.summary);
      var first := "\n" + if verdict == "" then "" else "\nPrior verdict: " + verdict + "\n";
      var before := first + if parsed == [] then "" else FindingsTitle();
      var after := if |parsed| <= 30 then "" else MoreFindings(|parsed| - 30);
      NoLines();
      assert text == before + Concat(lines) + after;
      StandInside(before, Concat(lines), after, lines, on);
      forall v | TrimmedTo(p.summary, v) && v != "" ensures OccursAt(text, "\nPrior verdict: " + v + "\n", 1) {
        TrimIs(p.summary, v);
        var said := "\nPrior verdict: " + v + "\n";
        OccursFirst(said);
        OccursInside("\n", said, text[|first|..], said, 0);
        assert text == "\n" + said + text[|first|..];
      }
      assert StandIn(text, lines, Shifted(on, |before|));
    }
  }

  lemma NoLines()
    ensures Concat(FindingLines([])) == ""
  {
  }

  lemma LinesTell(fs: seq<Finding>)
    ensures |FindingLines(fs)| == |fs| && forall j | 0 <= j < |fs| :: TellsFinding(FindingLines(fs)[j], fs[j])
  {
    hide FindingLine, TellsFinding;
    forall j | 0 <= j < |fs| ensures TellsFinding(FindingLines(fs)[j], fs[j]) {
      LineTells(fs[j]);
    }
  }

  // ---------- older reviews ----------

  /** From position `k` on these are the findings whose title has any text, in order, with their trimmed titles. */
  ghost predicate Titled(fs: seq<Finding>, k: nat, at: seq<nat>, titles: seq<string>) {
    && |titles| == |at|
    && (forall i, j | 0 <= i < j < |at| :: at[i] < at[j])
    && (forall j | 0 <= j < |at| ::
          k <= at[j] < |fs| && !Blank(fs[at[j]].title) && TrimmedTo(fs[at[j]].title, titles[j]))
    && (forall i | k <= i < |fs| && !Blank(fs[i].title) :: Listed(at, i))
  }

  predicate Listed(at: seq<nat>, i: nat) {
    exists j | 0 <= j < |at| :: at[j] == i
  }

  lemma {:induction false} TitlesAre(fs: seq<Finding>, k: nat) returns (at: seq<nat>)
    requires k <= |fs|
    ensures Titled(fs, k, at, Titles(fs[k..]))
    decreases |fs| - k
  {
    hide Trim, Blank, TrimmedTo, Titled;
    if k == |fs| {
      at := [];
      NothingTitled(fs);
    } else {
      at := TitlesAre(fs, k + 1);
      assert fs[k..][1..] == fs[k + 1..] && fs[k..][0] == fs[k];
      TitlesHead(fs, k);
      BlankTrims(fs[k].title);
      TrimIs(fs[k].title, Trim(fs[k].title));
      if Blank(fs[k].title) {
        TitledSkip(fs, k, at, Titles(fs[k + 1..]));
      } else {
        TitledCons(fs, k, at, Titles(fs[k + 1..]), Trim(fs[k].title));
        at := [k] + at;
      }
    }
  }

  lemma TitlesHead(fs: seq<Finding>, k: nat)
    requires k < |fs| && fs[k..][1..] == fs[k + 1..] && fs[k..][0] == fs[k]
    ensures Titles(fs[k..])
      == if Trim(fs[k].title) == "" then Titles(fs[k + 1..]) else [Trim(fs[k].title)] + Titles(fs[k + 1..])
  {
    hide Trim;
  }

  lemma TitledSkip(fs: seq<Finding>, k: nat, at: seq<nat>, titles: seq<string>)
    requires k < |fs| && Titled(fs, k + 1, at, titles) && Blank(fs[k].title)
    ensures Titled(fs, k, at, titles)
  {
    hide Blank, TrimmedTo, Listed;
  }

  lemma ListedCons(k: nat, at: seq<nat>)
    ensures Listed([k] + at, k) && forall i | Listed(at, i) :: Listed([k] + at, i)
  {
    assert ([k] + at)[0] == k;
    forall i | Listed(at, i) ensures Listed([k] + at, i) {
      var j :| 0 <= j < |at| && at[j] == i;
      assert ([k] + at)[j + 1] == i;
    }
  }

  lemma TitledCons(fs: seq<Finding>, k: nat, at: seq<nat>, titles: seq<string>, title: string)
    requires k < |fs| && Titled(fs, k + 1, at, titles) && !Blank(fs[k].title) && TrimmedTo(fs[k].title, title)
    ensures Titled(fs, k, [k] + at, [title] + titles)
  {
    hide Blank, TrimmedTo, Listed;
    ListedCons(k, at);
  }

  lemma NothingTitled(fs: seq<Finding>)
    ensures Titled(fs, |fs|, [], Titles(fs[|fs|..]))
  {
  }

  /**
   The line of an older review: its number, then the words of its verdict or that it has none, then how many of its
   findings have a title, and these titles.
   */
  ghost predicate TellsOlder(p: PriorReview, text: string) {
    var opening := "- review #" + Decimal(p.ordinal) + ": ";
    && opening <= text
    && (forall verdict, words | TrimmedTo(p.summary, verdict) && WordsOf(verdict, words) ::
          OccursAt(text, if words == [] then "no verdict" else Spaced(words), |opening|))
    && exists at, titles, on ::
         && Titled(Parsed(p), 0, at, titles)
         && StandIn(text, titles, on)
         && Contains(text, if titles == [] then "(0 findings)" else "(" + Decimal(|titles|) + " finding(s): ")
  }

  /** The parts an older review's line is put together from. */
  lemma OlderParts(p: PriorReview) returns (verdict: string, counted: string, joined: string, closing: string)
    ensures var titles := Titles(Parsed(p));
      && CompressedText(p) == "- review #" + Decimal(p.ordinal) + ": " + verdict + " " + counted + joined + closing
      && verdict == (if OneLine(Trim(p.summary)) == "" then "no verdict" else OneLine(Trim(p.summary)))
      && counted == (if titles == [] then "(0 findings)" else "(" + Decimal(|titles|) + " finding(s): ")
      && joined == JoinWith(titles, "; ")
  {
    hide Trim, Titles, OneLine, JoinWith, Decimal, Parsed;
    var titles := Titles(Parsed(p));
    verdict := if OneLine(Trim(p.summary)) == "" then "no verdict" else OneLine(Trim(p.summary));
    counted := if titles == [] then "(0 findings)" else "(" + Decimal(|titles|) + " finding(s): ";
    joined, closing := JoinWith(titles, "; "), if titles == [] then "" else ")";
    if titles == [] {
      NothingJoined();
      assert CompressedText(p) == "- review #" + Decimal(p.ordinal) + ": " + verdict + " (0 findings)";
      assert " " + counted == " (0 findings)";
    } else {
      assert CompressedText(p) == "- review #" + Decimal(p.ordinal) + ": " + verdict
        + (" (" + Decimal(|titles|) + " finding(s): " + joined + ")");
      assert " " + counted == " (" + Decimal(|titles|) + " finding(s): ";
    }
  }

  /** Where they stand. */
  lemma PartsStand(opening: string, verdict: string, counted: string, titles: seq<string>, closing: string)
    ensures var text := opening + verdict + " " + counted + JoinWith(titles, "; ") + closing;
      && OccursAt(text, verdict, |opening|) && Contains(text, counted) && exists on :: StandIn(text, titles, on)
  {
    hide OccursAt, StandIn, JoinWith, Contains;
    var joined := JoinWith(titles, "; ");
    var text := opening + verdict + " " + counted + joined + closing;
    assert text == opening + verdict + (" " + counted + joined + closing);
    OccursFirst(verdict);
    OccursInside(opening, verdict, " " + counted + joined + closing, verdict, 0);
    var before := opening + verdict + " ";
    assert text == before + counted + (joined + closing);
    OccursFirst(counted);
    OccursInside(before, counted, joined + closing, counted, 0);
    OccursContains(text, counted, |before| + 0);
    var on := PiecesStand(titles, "; ");
    StandInside(before + counted, joined, closing, titles, on);
    assert text == before + counted + joined + closing;
  }

  lemma OlderTells(p: PriorReview)
    ensures TellsOlder(p, CompressedText(p))
  {
    hide Trim, TrimmedTo, OccursAt, StandIn, Titles, Titled, OneLine, JoinWith, Decimal, Parsed, WordsOf, Spaced,
         Contains, CompressedText;
    var text, titles := CompressedText(p), Titles(Parsed(p)[0..]);
    var opening := "- review #" + Decimal(p.ordinal) + ": ";
    assert Parsed(p)[0..] == Parsed(p);
    var verdict, counted, joined, closing := OlderParts(p);
    PartsStand(opening, verdict, counted, titles, closing);
    forall v, words | TrimmedTo(p.summary, v) && WordsOf(v, words)
      ensures OccursAt(text, if words == [] then "no verdict" else Spaced(words), |opening|) {
      TrimIs(p.summary, v);
      VerdictIs(v, words);
    }
    var at := TitlesAre(Parsed(p), 0);
  }

  lemma NothingJoined()
    ensures JoinWith([], "; ") == ""
  {
  }

  lemma OccursContains(s: string, needle: string, i: nat)
    requires OccursAt(s, needle, i)
    ensures Contains(s, needle)
  {
  }

  lemma VerdictIs(v: string, words: seq<string>)
    requires WordsOf(v, words)
    ensures OneLine(v) == Spaced(words) && (OneLine(v) == "" <==> words == [])
  {
    hide SplitAt, OneLine;
    var at: seq<nat> :| SplitAt(v, words, at);
    OneLineIs(v, words, at);
    SplitsIntoWords(v, words, at);
    SpacedWords(words);
  }

  // ---------- the whole block ----------

  /** The review has neither a verdict nor a stored finding. */
  predicate Silent(p: PriorReview) {
    Blank(p.summary) && match p.findings case Readable(items) => items == [] case Unreadable(some) => !some
  }

  /** The opening, and under its heading what there is to say of the latest review. */
  ghost predicate TellsHead(prompt: Prompt, latest: PriorReview, head: string) {
    exists detail ::
      && head == prompt.header + "\n### Latest prior review" + detail
      && if Blank(latest.summary) && Parsed(latest) == [] then detail == " \U{2014} (no verdict or findings recorded)\n"
         else TellsLatest(latest, detail)
  }

  /** One line for each of the first reviews. */
  ghost predicate TellsLines(ps: seq<PriorReview>, lines: seq<string>) {
    |lines| <= |ps| && forall j | 0 <= j < |lines| :: TellsOnLine(ps[j], lines[j])
  }

  ghost predicate TellsOnLine(p: PriorReview, line: string) {
    exists text :: line == text + "\n" && TellsOlder(p, text)
  }

  /**
   What the block is made of: the section on the latest review, whole or cut, then older reviews or a count of them.
   */
  ghost predicate TellsAll(prompt: Prompt, priors: seq<PriorReview>, block: string, head: string, lines: seq<string>)
    requires priors != []
  {
    var older := |priors| - 1;
    && TellsHead(prompt, priors[0], head) && TellsLines(priors[1..], lines)
    && (Utf8Len(head) <= 8000 && older > 0 ==>
          block == head + EarlierTitle() + Concat(lines)
                   + if |lines| < older then "\n" + OmittedNote(older - |lines|) else "")
    && (Utf8Len(head) <= 8000 && older == 0 ==> block == head)
    && (Utf8Len(head) > 8000 ==>
          exists cut | 0 <= cut < |head| ::
            && Utf8Len(head[..cut]) <= 8000
            && block == head[..cut] + prompt.cutNote + if older > 0 then OmittedNote(older) else "")
  }

  lemma HeadTells(prompt: Prompt, latest: PriorReview)
    ensures TellsHead(prompt, latest, Head(prompt, latest))
  {
    hide LatestDetail, TellsLatest, Blank, Parsed;
    LatestTells(latest);
  }

  lemma LinesTellOlder(ps: seq<PriorReview>, k: nat)
    requires k <= |ps|
    ensures TellsLines(ps, CompressedLines(ps)[..k])
  {
    hide CompressedText, TellsOlder;
    forall j | 0 <= j < k ensures TellsOnLine(ps[j], CompressedLines(ps)[j]) {
      OlderTells(ps[j]);
    }
  }

  lemma SilentIs(p: PriorReview)
    ensures Silent(p) <==> !HasContent(p)
  {
    hide Blank, Trim;
    BlankTrims(p.summary);
  }

  /**
   There is a block exactly when some review has a verdict or a finding; it tells the latest review first, and of the
   older ones as many as fit, each on its own.
   */
  lemma BlockTells(prompt: Prompt, priors: seq<PriorReview>)
    ensures BlockOf(prompt, priors).None? <==> forall i | 0 <= i < |priors| :: Silent(priors[i])
    ensures BlockOf(prompt, priors).Some? ==>
      priors != [] && exists head, lines :: TellsAll(prompt, priors, BlockOf(prompt, priors).value, head, lines)
  {
    hide Silent, HasContent, Utf8Len, Head, OmittedNote, EarlierTitle, CompressedLines, Concat, Fitting, CutPoint,
         TellsHead, TellsLines;
    forall i | 0 <= i < |priors| ensures Silent(priors[i]) <==> !HasContent(priors[i]) {
      SilentIs(priors[i]);
    }
    if BlockOf(prompt, priors).Some? {
      var head, block := Head(prompt, priors[0]), BlockOf(prompt, priors).value;
      HeadTells(prompt, priors[0]);
      if Utf8Len(head) > 8000 {
        CutKeepsWholeLines(head);
        LinesTellOlder(priors[1..], 0);
        assert TellsAll(prompt, priors, block, head, CompressedLines(priors[1..])[..0]);
      } else {
        LatestNeverCut(prompt, priors);
        var k := Shown(prompt, priors);
        LinesTellOlder(priors[1..], k);
        if |priors| == 1 {
          assert head + "" == head;
        }
        assert TellsAll(prompt, priors, block, head, CompressedLines(priors[1..])[..k]);
      }
    }
  }
}
