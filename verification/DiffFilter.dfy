/** Dropping the per-file sections of a git diff that a repository's focus and ignore globs reject. */
module DiffFilter {
  import opened Wrappers
  import opened Text

  const SECTION_MARKER := "diff --git "

  type Keep = string -> bool

  /** The new-side path a section's header line names. */
  function PathOf(chunk: string): Option<string> {
    var lines := Lines(chunk);
    if lines == [] then None
    else match SplitLast(lines[0], " b/") case Some((_, path)) => Some(Trim(path)) case None => None
  }

  predicate KeepChunk(chunk: string, keep: Keep) {
    match PathOf(chunk) case Some(path) => keep(path) case None => true
  }

  function KeptChunks(chunks: seq<string>, keep: Keep): seq<string> {
    if chunks == [] then []
    else
      var front, last := chunks[..|chunks| - 1], chunks[|chunks| - 1];
      KeptChunks(front, keep) + if KeepChunk(last, keep) then [last] else []
  }

  /** Chunks with the marker put back before each. */
  function Marked(chunks: seq<string>): string {
    if chunks == [] then "" else Marked(chunks[..|chunks| - 1]) + SECTION_MARKER + chunks[|chunks| - 1]
  }

  function Filtered(diff: string, keep: Keep): string {
    var chunks := SplitBy(diff, SECTION_MARKER);
    Trim(chunks[0] + Marked(KeptChunks(chunks[1..], keep)))
  }

  function KeptFiles(files: seq<string>, keep: Keep): seq<string> {
    if files == [] then []
    else
      var front, last := files[..|files| - 1], files[|files| - 1];
      KeptFiles(front, keep) + if keep(last) then [last] else []
  }

  lemma KeptFilesSnoc(files: seq<string>, i: nat, keep: Keep)
    requires i < |files|
    ensures KeptFiles(files[..i + 1], keep) == KeptFiles(files[..i], keep) + if keep(files[i]) then [files[i]] else []
  {
    assert files[..i + 1][..i] == files[..i];
  }

  lemma KeptChunksSnoc(chunks: seq<string>, i: nat, keep: Keep)
    requires i < |chunks|
    ensures KeptChunks(chunks[..i + 1], keep)
      == KeptChunks(chunks[..i], keep) + if KeepChunk(chunks[i], keep) then [chunks[i]] else []
  {
    assert chunks[..i + 1][..i] == chunks[..i];
  }

  lemma MarkedSnoc(chunks: seq<string>, i: nat)
    requires i < |chunks|
    ensures Marked(chunks[..i + 1]) == Marked(chunks[..i]) + SECTION_MARKER + chunks[i]
  {
    assert chunks[..i + 1][..i] == chunks[..i];
  }

  /** Filter a diff's sections, and its list of changed files, by path. */
  method FilterDiff(diff: string, files: seq<string>, keep: Keep) returns (rebuilt: string, keptFiles: seq<string>)
    ensures rebuilt == Filtered(diff, keep)
    ensures keptFiles == KeptFiles(files, keep)
  {
    hide KeepChunk, KeptChunks, KeptFiles, Marked, SplitBy, Trim;
    keptFiles := [];
    assert KeptFiles(files[..0], keep) == [] by { NothingKept(keep); }
    for i := 0 to |files|
      invariant keptFiles == KeptFiles(files[..i], keep)
    {
      KeptFilesSnoc(files, i, keep);
      if keep(files[i]) {
        keptFiles := keptFiles + [files[i]];
      }
    }
    assert files[..|files|] == files;
    var chunks := SplitBy(diff, SECTION_MARKER);
    var sections := KeepSections(chunks, keep);
    StartsMarkedIff(diff);
    NothingKept(keep);
    rebuilt := Rebuild(chunks[0], KeptChunks(chunks[1..], keep), sections, SECTION_MARKER <= diff);
    rebuilt := Trim(rebuilt);
  }

  lemma NothingKept(keep: Keep)
    ensures KeptFiles([], keep) == [] && KeptChunks([], keep) == [] && Marked([]) == ""
  {
  }

  /** Choose the chunks to keep: text before the first marker stays, unless there is none. */
  method KeepSections(chunks: seq<string>, keep: Keep) returns (sections: seq<string>)
    requires chunks != []
    ensures sections == (if chunks[0] == "" then [] else [chunks[0]]) + KeptChunks(chunks[1..], keep)
  {
    hide KeepChunk, KeptChunks;
    sections := [];
    var first := true;
    ghost var rest := chunks[1..];
    NothingKept(keep);
    for i := 0 to |chunks|
      invariant first <==> i == 0
      invariant first ==> sections == []
      invariant !first ==> sections == (if chunks[0] == "" then [] else [chunks[0]]) + KeptChunks(rest[..i - 1], keep)
    {
      var chunk := chunks[i];
      if first {
        first := false;
        if chunk == "" {
          continue;
        }
        sections := sections + [chunk];
        continue;
      }
      KeptChunksSnoc(rest, i - 1, keep);
      if KeepChunk(chunk, keep) {
        sections := sections + [chunk];
      }
    }
    assert rest[..|rest|] == rest;
  }

  /** Join the kept chunks, with the marker back before each but leading text. */
  method Rebuild(lead: string, ghost kept: seq<string>, sections: seq<string>,
                 startsMarked: bool) returns (rebuilt: string)
    requires sections == (if lead == "" then [] else [lead]) + kept
    requires lead == "" && sections != [] ==> startsMarked
    requires lead != "" ==> !startsMarked
    ensures rebuilt == lead + Marked(kept)
  {
    hide Marked;
    rebuilt := "";
    NothingKept(_ => true);
    for i := 0 to |sections|
      invariant lead == "" ==> rebuilt == Marked(kept[..i])
      invariant lead != "" ==> rebuilt == if i == 0 then "" else lead + Marked(kept[..i - 1])
    {
      if lead == "" {
        MarkedSnoc(kept, i);
      } else if i > 0 {
        MarkedSnoc(kept, i - 1);
      }
      if i > 0 || startsMarked {
        rebuilt := rebuilt + SECTION_MARKER;
      }
      rebuilt := rebuilt + sections[i];
    }
    assert kept[..|kept|] == kept;
  }

  /** A diff opens with the marker exactly when nothing precedes its first section. */
  lemma StartsMarkedIff(diff: string)
    ensures SplitBy(diff, SECTION_MARKER)[0] == "" && diff != "" <==> SECTION_MARKER <= diff
    ensures diff == "" ==> SplitBy(diff, SECTION_MARKER)[1..] == []
  {
    assert OccursAt(diff, SECTION_MARKER, 0) <==> SECTION_MARKER <= diff;
  }

  // ---------- diffs as sections ----------

  /** A file's section: its path, its header line as it is printed, and the rest of the section after that line. */
  datatype Section = Section(path: string, header: string, rest: string)

  function Body(s: Section): string {
    s.header + s.rest
  }

  function PrintDiff(ss: seq<Section>): string {
    if ss == [] then "" else SECTION_MARKER + Body(ss[0]) + PrintDiff(ss[1..])
  }

  /** The header line of a path printed as it is, after its old side. */
  function BareHeader(before: string, path: string): string {
    before + " b/" + path
  }

  /** The header line of a path printed quoted, with its special characters escaped. */
  function QuotedHeader(before: string, escaped: string): string {
    before + " \"b/" + escaped + "\""
  }

  /** The header is one line and holds no marker; a line end or nothing follows it. */
  ghost predicate WellFormed(s: Section) {
    && '\n' !in s.header
    && (s.rest == "" || s.rest[0] == '\n')
    && !Contains(s.header, SECTION_MARKER)
  }

  /** The path is read off its header right: no outer whitespace, no second new-side mark. */
  ghost predicate PlainPath(path: string) {
    Trim(path) == path && !Contains(path, " b/")
  }

  // ---------- which path a header gives ----------

  /** What follows the last new-side mark of a header line. */
  lemma LastMark(before: string, path: string)
    ensures var r := SplitLast(before + " b/" + path, " b/");
      && r.Some?
      && if Contains(path, " b/") then |r.value.1| < |path| else r.value.1 == path
  {
    var s, n := before + " b/" + path, |before|;
    assert s[n..n + 3] == " b/" && OccursAt(s, " b/", n);
    forall j: nat | n < j ensures OccursAt(s, " b/", j) <==> j >= n + 3 && OccursAt(path, " b/", j - n - 3) {
      if j + 3 <= |s| {
        assert s[j..j + 3][0] == s[j];
        if j >= n + 3 {
          assert s[j..j + 3] == path[j - n - 3..j - n];
        }
      }
    }
    if Contains(path, " b/") {
      var j: nat :| j <= |path| && OccursAt(path, " b/", j);
      assert OccursAt(s, " b/", n + 3 + j);
    } else {
      assert s[n + 3..] == path;
    }
  }

  lemma FirstLineIsHeader(header: string, rest: string)
    requires '\n' !in header && (rest == "" || rest[0] == '\n')
    ensures header + rest != "" ==> Lines(header + rest) != []
    ensures header + rest != "" ==>
      Lines(header + rest)[0] == if rest == "" then header else StripCarriageReturn(header)
  {
    hide StripCarriageReturn;
    if rest == "" {
      assert header + rest == header;
      if header != "" {
        LastLine(header);
      }
    } else {
      assert header + rest == header + "\n" + rest[1..];
      LinesCons(header, rest[1..]);
    }
  }

  /** A path printed as it is, is read off its header exactly when it is plain, whatever its old side. */
  lemma PathReadIff(before: string, path: string, rest: string)
    requires '\n' !in before && '\n' !in path && (rest == "" || rest[0] == '\n')
    ensures PathOf(BareHeader(before, path) + rest) == Some(path) <==> PlainPath(path)
  {
    hide Contains, Trim, SplitLast, Lines;
    var header := BareHeader(before, path);
    FirstLineIsHeader(header, rest);
    LastMark(before, path);
    TrimShrinks(SplitLast(header, " b/").value.1);
    if path != "" && path[|path| - 1] == '\r' {
      var shorter := path[..|path| - 1];
      assert StripCarriageReturn(header) == before + " b/" + shorter;
      LastMark(before, shorter);
      TrimShrinks(SplitLast(before + " b/" + shorter, " b/").value.1);
      TrimmedOfReturn(path);
    } else {
      assert header[|header| - 1] != '\r';
    }
  }

  lemma TrimmedOfReturn(path: string)
    requires path != "" && path[|path| - 1] == '\r'
    ensures Trim(path) != path
  {
    TrimEndShrinks(TrimStart(path));
    TrimStartShrinks(path[1..]);
    TrimEndShrinks(path[..|path| - 1]);
  }

  // ---------- chunks of a printed diff ----------

  /** The marker overlaps itself nowhere, so cutting at it is cutting the parts. */
  lemma {:induction false} SplitAtMarker(a: string, b: string)
    ensures SplitBy(a + SECTION_MARKER + b, SECTION_MARKER) == SplitBy(a, SECTION_MARKER) + SplitBy(b, SECTION_MARKER)
    decreases |a|
  {
    hide Contains, OccursAt;
    var m := SECTION_MARKER;
    var s := a + m + b;
    match FindFrom(a, m, 0)
    case None =>
      NotInside(a);
      NoMarkerAcross(a, b);
      FoundWherePut(a, m, b);
      assert s[..|a|] == a && s[|a| + |m|..] == b;
    case Some(i) =>
      FirstInPrefix(a, m + b, i);
      assert a + (m + b) == s;
      assert s[..i] == a[..i] && s[i + |m|..] == a[i + |m|..] + m + b;
      SplitAtMarker(a[i + |m|..], b);
      assert SplitBy(s, m) == [a[..i]] + SplitBy(a[i + |m|..] + m + b, m);
  }

  lemma NotInside(a: string)
    requires FindFrom(a, SECTION_MARKER, 0).None?
    ensures !Contains(a, SECTION_MARKER)
  {
  }

  lemma FirstInPrefix(a: string, b: string, i: nat)
    requires FindFrom(a, SECTION_MARKER, 0) == Some(i)
    ensures i + |SECTION_MARKER| <= |a| && FindFrom(a + b, SECTION_MARKER, 0) == Some(i)
  {
    var n, s := |SECTION_MARKER|, a + b;
    forall j: nat | j + n <= |a| ensures OccursAt(s, SECTION_MARKER, j) == OccursAt(a, SECTION_MARKER, j) {
      assert s[j..j + n] == a[j..j + n];
    }
  }

  lemma NoMarkerAcross(a: string, b: string)
    ensures forall j | 0 <= j < |a| && |a| < j + |SECTION_MARKER| ::
      !OccursAt(a + SECTION_MARKER + b, SECTION_MARKER, j)
  {
    var m := SECTION_MARKER;
    var s := a + m + b;
    forall j | 0 <= j < |a| && |a| < j + |m| ensures !OccursAt(s, m, j) {
      if j + |m| <= |s| {
        assert s[j..j + |m|][|a| - j] == s[|a|] == 'd';
      }
    }
  }

  /** The chunks the filter sees in a section: one, unless the section's own text holds the marker. */
  function Chunks(s: Section): (r: seq<string>)
    ensures r != []
  {
    SplitBy(Body(s), SECTION_MARKER)
  }

  function AllChunks(ss: seq<Section>): seq<string> {
    if ss == [] then [] else Chunks(ss[0]) + AllChunks(ss[1..])
  }

  lemma {:induction false} SplitOfPrinted(ss: seq<Section>)
    ensures SplitBy(PrintDiff(ss), SECTION_MARKER) == [""] + AllChunks(ss)
  {
    hide Body, SplitBy, FindFrom;
    SplitOfEmpty();
    if ss != [] {
      var body, later := Body(ss[0]), PrintDiff(ss[1..]);
      SplitOfPrinted(ss[1..]);
      assert PrintDiff(ss) == "" + SECTION_MARKER + (body + later);
      SplitAtMarker("", body + later);
      if ss[1..] == [] {
        assert body + later == body;
      } else {
        var next := Body(ss[1]) + PrintDiff(ss[1..][1..]);
        assert later == "" + SECTION_MARKER + next && body + later == body + SECTION_MARKER + next;
        SplitAtMarker("", next);
        SplitAtMarker(body, next);
        assert SplitBy(next, SECTION_MARKER) == AllChunks(ss[1..]) by {
          assert ([""] + AllChunks(ss[1..]))[1..] == AllChunks(ss[1..]);
          assert ([""] + SplitBy(next, SECTION_MARKER))[1..] == SplitBy(next, SECTION_MARKER);
        }
      }
    }
  }

  lemma SplitOfEmpty()
    ensures SplitBy("", SECTION_MARKER) == [""]
  {
  }

  // ---------- sections come out whole ----------

  /** Every chunk of the section is judged as its path is. */
  ghost predicate JudgedAsOne(s: Section, keep: Keep) {
    forall c | c in Chunks(s) :: KeepChunk(c, keep) == keep(s.path)
  }

  lemma {:induction false} KeptAll(chunks: seq<string>, keep: Keep, kept: bool)
    requires forall c | c in chunks :: KeepChunk(c, keep) == kept
    ensures KeptChunks(chunks, keep) == if kept then chunks else []
  {
    hide KeepChunk;
    if chunks != [] {
      var front, last := chunks[..|chunks| - 1], chunks[|chunks| - 1];
      assert chunks == front + [last];
      KeptAll(front, keep, kept);
    }
  }

  lemma {:induction false} KeptAreKept(chunks: seq<string>, keep: Keep)
    ensures |KeptChunks(chunks, keep)| <= |chunks|
    ensures KeptChunks(chunks, keep) == chunks ==> forall c | c in chunks :: KeepChunk(c, keep)
    ensures KeptChunks(chunks, keep) == [] ==> forall c | c in chunks :: !KeepChunk(c, keep)
  {
    hide KeepChunk;
    if chunks != [] {
      var front, last := chunks[..|chunks| - 1], chunks[|chunks| - 1];
      KeptAreKept(front, keep);
      assert chunks == front + [last];
      if KeptChunks(chunks, keep) == chunks {
        assert KeepChunk(last, keep);
        assert KeptChunks(front, keep) == chunks[..|chunks| - 1];
      }
    }
  }

  lemma JudgedAsOneKept(s: Section, keep: Keep)
    requires JudgedAsOne(s, keep)
    ensures KeptChunks(Chunks(s), keep) == if keep(s.path) then Chunks(s) else []
  {
    hide Chunks, KeepChunk, KeptChunks;
    KeptAll(Chunks(s), keep, keep(s.path));
  }

  // ---------- when every filter keeps a section whole ----------

  /** The text from just after a marker up to the next one. */
  function UpToMarker(s: string): string {
    SplitBy(s, SECTION_MARKER)[0]
  }

  /** What follows a marker at `i`. */
  function PastMarker(s: string, i: nat): string {
    if i + |SECTION_MARKER| <= |s| then s[i + |SECTION_MARKER|..] else ""
  }

  /** Every marker quoted in `s` is followed by a line that names `path` as its new side. */
  ghost predicate QuotesName(s: string, path: string) {
    forall i: nat | OccursAt(s, SECTION_MARKER, i) :: PathOf(UpToMarker(PastMarker(s, i))) == Some(path)
  }

  /** Past the first marker, the occurrences are those of the text after it. */
  lemma OccurrenceAfter(s: string, i: nat, rest: string, j: nat)
    requires FindFrom(s, SECTION_MARKER, 0) == Some(i) && rest == PastMarker(s, i)
    requires OccursAt(s, SECTION_MARKER, j) && j != i
    ensures i + |SECTION_MARKER| <= j && OccursAt(rest, SECTION_MARKER, j - i - |SECTION_MARKER|)
    ensures PastMarker(rest, j - i - |SECTION_MARKER|) == PastMarker(s, j)
  {
    hide OccursAt, FindFrom, PastMarker;
    Fits(s, i);
    FirstIsFirst(s, i, j);
    NoOverlap(s, i, j);
    Shifted(s, i, rest, j - i - |SECTION_MARKER|);
  }

  lemma FirstIsFirst(s: string, i: nat, j: nat)
    requires FindFrom(s, SECTION_MARKER, 0) == Some(i) && OccursAt(s, SECTION_MARKER, j)
    ensures i <= j
  {
    hide OccursAt;
  }

  lemma Fits(s: string, i: nat)
    requires OccursAt(s, SECTION_MARKER, i)
    ensures i + |SECTION_MARKER| <= |s|
  {
  }

  lemma NoOverlap(s: string, i: nat, j: nat)
    requires OccursAt(s, SECTION_MARKER, i) && OccursAt(s, SECTION_MARKER, j) && i < j
    ensures i + |SECTION_MARKER| <= j
  {
    var n := |SECTION_MARKER|;
    assert s[j..j + n][0] == s[j] == 'd';
    forall k | i < k < i + n ensures s[k] != 'd' {
      assert s[i..i + n][k - i] == s[k];
    }
  }

  lemma Shifted(s: string, i: nat, rest: string, j: nat)
    requires i + |SECTION_MARKER| <= |s| && rest == PastMarker(s, i)
    ensures OccursAt(rest, SECTION_MARKER, j) == OccursAt(s, SECTION_MARKER, i + |SECTION_MARKER| + j)
    ensures PastMarker(rest, j) == PastMarker(s, i + |SECTION_MARKER| + j)
  {
    var n := |SECTION_MARKER|;
    if j + n <= |rest| {
      assert rest[j..j + n] == s[i + n + j..i + n + j + n];
    }
  }

  /** The chunks after the first are what follows the quoted markers. */
  lemma {:induction false} LaterChunksName(s: string, path: string)
    ensures (forall c | c in SplitBy(s, SECTION_MARKER)[1..] :: PathOf(c) == Some(path)) <==> QuotesName(s, path)
    decreases |s|
  {
    hide PathOf, OccursAt, FindFrom, QuotesName;
    var m := SECTION_MARKER;
    match FindFrom(s, m, 0)
    case None =>
      NoOccurrence(s);
      NoQuotes(s, path);
    case Some(i) =>
      var rest := PastMarker(s, i);
      QuotesSplit(s, i, rest, path);
      LaterChunksName(rest, path);
      assert SplitBy(s, m)[1..] == SplitBy(rest, m) == [UpToMarker(rest)] + SplitBy(rest, m)[1..];
  }

  lemma NoOccurrence(s: string)
    requires FindFrom(s, SECTION_MARKER, 0).None?
    ensures SplitBy(s, SECTION_MARKER)[1..] == [] && forall i: nat :: !OccursAt(s, SECTION_MARKER, i)
  {
  }

  lemma NoQuotes(s: string, path: string)
    requires forall i: nat :: !OccursAt(s, SECTION_MARKER, i)
    ensures QuotesName(s, path)
  {
    hide OccursAt;
  }

  lemma QuotesSplit(s: string, i: nat, rest: string, path: string)
    requires FindFrom(s, SECTION_MARKER, 0) == Some(i) && rest == PastMarker(s, i)
    ensures i + |SECTION_MARKER| <= |s|
    ensures QuotesName(s, path) <==> PathOf(UpToMarker(rest)) == Some(path) && QuotesName(rest, path)
  {
    hide PathOf, UpToMarker, OccursAt, FindFrom, PastMarker;
    Fits(s, i);
    forall j: nat | OccursAt(s, SECTION_MARKER, j) && j != i
      ensures i + |SECTION_MARKER| <= j && OccursAt(rest, SECTION_MARKER, j - i - |SECTION_MARKER|)
      ensures PastMarker(rest, j - i - |SECTION_MARKER|) == PastMarker(s, j) {
      OccurrenceAfter(s, i, rest, j);
    }
    forall j: nat | OccursAt(rest, SECTION_MARKER, j)
      ensures OccursAt(s, SECTION_MARKER, i + |SECTION_MARKER| + j)
      ensures PastMarker(rest, j) == PastMarker(s, i + |SECTION_MARKER| + j) {
      Shifted(s, i, rest, j);
    }
  }

  /** The section is read right: its first line names its path, and so does every line after a marker it quotes. */
  ghost predicate ReadsRight(s: Section) {
    PathOf(UpToMarker(Body(s))) == Some(s.path) && QuotesName(Body(s), s.path)
  }

  /** All chunks of a section name its path. */
  lemma ChunksNameIff(s: Section)
    ensures (forall c | c in Chunks(s) :: PathOf(c) == Some(s.path)) <==> ReadsRight(s)
  {
    hide PathOf, Body, QuotesName, SplitBy;
    LaterChunksName(Body(s), s.path);
    assert Chunks(s) == [UpToMarker(Body(s))] + Chunks(s)[1..];
    assert forall c :: c in Chunks(s) <==> c == UpToMarker(Body(s)) || c in Chunks(s)[1..];
  }

  /**
   Every filter keeps a section whole or drops it whole, by its path, if and only if its header line and every line
   after a marker quoted in it name that path.
   */
  lemma SectionWholeIff(s: Section)
    ensures (forall keep: Keep :: KeptChunks(Chunks(s), keep) == if keep(s.path) then Chunks(s) else [])
      <==> ReadsRight(s)
  {
    hide PathOf, KeptChunks, Chunks, ReadsRight;
    ChunksNameIff(s);
    if forall c | c in Chunks(s) :: PathOf(c) == Some(s.path) {
      forall keep: Keep ensures KeptChunks(Chunks(s), keep) == if keep(s.path) then Chunks(s) else [] {
        JudgedAsOneKept(s, keep);
      }
    } else {
      var own: Keep, none: Keep := (p: string) => p == s.path, (p: string) => false;
      KeptAreKept(Chunks(s), own);
      KeptAreKept(Chunks(s), none);
      var c :| c in Chunks(s) && PathOf(c) != Some(s.path);
      assert PathOf(c).None? ==> KeepChunk(c, none);
      assert PathOf(c).Some? ==> !KeepChunk(c, own);
    }
  }

  // ---------- headers as they are printed ----------

  /** A section's first chunk is its header and what follows it up to the first quoted marker. */
  lemma FirstChunk(s: Section) returns (rest: string)
    requires WellFormed(s)
    ensures UpToMarker(Body(s)) == s.header + rest && (rest == "" || rest[0] == '\n')
  {
    hide Contains, OccursAt;
    var m, h := SECTION_MARKER, |s.header|;
    match FindFrom(Body(s), m, 0)
    case None => rest := s.rest;
    case Some(i) =>
      Fits(Body(s), i);
      NotInHeader(s);
      rest := s.rest[..i - h];
      assert Body(s)[..i] == s.header + rest;
  }

  lemma NotInHeader(s: Section)
    requires WellFormed(s)
    ensures forall i: nat | i < |s.header| :: !OccursAt(Body(s), SECTION_MARKER, i)
  {
    var n, h := |SECTION_MARKER|, |s.header|;
    assert '\n' !in SECTION_MARKER;
    forall i: nat | i < h ensures !OccursAt(Body(s), SECTION_MARKER, i) {
      if i + n <= h {
        assert Body(s)[i..i + n] == s.header[i..i + n];
        assert !OccursAt(s.header, SECTION_MARKER, i);
      } else if i + n <= |Body(s)| {
        assert Body(s)[i..i + n][h - i] == Body(s)[h] == '\n';
      }
    }
  }

  /** With a path printed as it is, the section is read right if and only if path and quoted markers are plain. */
  lemma BareReadsRightIff(s: Section, before: string)
    requires WellFormed(s) && s.header == BareHeader(before, s.path)
    ensures ReadsRight(s) <==> PlainPath(s.path) && QuotesName(Body(s), s.path)
  {
    hide PathOf, WellFormed, PlainPath, Body, QuotesName, SplitBy;
    var rest := FirstChunk(s);
    HeaderIsLine(s);
    assert forall c | c in before || c in s.path :: c in s.header;
    PathReadIff(before, s.path, rest);
  }

  lemma HeaderIsLine(s: Section)
    requires WellFormed(s)
    ensures '\n' !in s.header
  {
  }

  /** A line gives no path exactly when it holds no new-side mark. */
  lemma NoPathIff(header: string, rest: string)
    requires '\n' !in header && (rest == "" || rest[0] == '\n') && header != "" && header[|header| - 1] != '\r'
    ensures PathOf(header + rest).None? <==> !Contains(header, " b/")
  {
    hide Trim, Lines;
    FirstLineIsHeader(header, rest);
  }

  /** No new-side mark lies across the quote that opens a quoted path, or the one that closes it. */
  lemma QuotedMarks(before: string, escaped: string)
    ensures Contains(QuotedHeader(before, escaped), " b/") <==> Contains(before, " b/") || Contains(escaped, " b/")
  {
    var s, n := QuotedHeader(before, escaped), |before| + 4;
    forall i: nat ensures OccursAt(before, " b/", i) ==> OccursAt(s, " b/", i) {
      if OccursAt(before, " b/", i) {
        assert s[i..i + 3] == before[i..i + 3];
      }
    }
    forall i: nat ensures OccursAt(escaped, " b/", i) ==> OccursAt(s, " b/", n + i) {
      if OccursAt(escaped, " b/", i) {
        assert s[n + i..n + i + 3] == escaped[i..i + 3];
      }
    }
    forall i: nat | OccursAt(s, " b/", i)
      ensures OccursAt(before, " b/", i) || (i >= n && OccursAt(escaped, " b/", i - n))
    {
      assert s[i] == s[i..i + 3][0] == ' ' && s[i + 1] == s[i..i + 3][1] == 'b' && s[i + 2] == s[i..i + 3][2] == '/';
      if i + 3 <= |before| {
        assert before[i..i + 3] == s[i..i + 3];
      } else if i >= n {
        assert escaped[i - n..i - n + 3] == s[i..i + 3];
      }
    }
  }

  /** A quoted path is no path to the filter: every filter keeps its section, unless a name holds the new-side mark. */
  lemma QuotedKeptIff(before: string, escaped: string, rest: string)
    requires '\n' !in before && '\n' !in escaped && (rest == "" || rest[0] == '\n')
    ensures (forall keep: Keep :: KeepChunk(QuotedHeader(before, escaped) + rest, keep))
            <==> !Contains(before, " b/") && !Contains(escaped, " b/")
  {
    hide PathOf, Contains;
    var chunk := QuotedHeader(before, escaped) + rest;
    NoPathIff(QuotedHeader(before, escaped), rest);
    QuotedMarks(before, escaped);
    if PathOf(chunk).Some? {
      var none: Keep := (p: string) => false;
      assert !KeepChunk(chunk, none);
    }
  }

  function KeptSections(ss: seq<Section>, keep: Keep): seq<Section> {
    if ss == [] then [] else (if keep(ss[0].path) then [ss[0]] else []) + KeptSections(ss[1..], keep)
  }

  lemma {:induction false} KeptChunksConcat(a: seq<string>, b: seq<string>, keep: Keep)
    ensures KeptChunks(a + b, keep) == KeptChunks(a, keep) + KeptChunks(b, keep)
    decreases |b|
  {
    hide KeepChunk;
    if b == [] {
      assert a + b == a;
    } else {
      assert (a + b)[..|a + b| - 1] == a + b[..|b| - 1];
      KeptChunksConcat(a, b[..|b| - 1], keep);
    }
  }

  lemma {:induction false} AllKept(ss: seq<Section>, keep: Keep)
    requires forall s | s in ss :: JudgedAsOne(s, keep)
    ensures KeptChunks(AllChunks(ss), keep) == AllChunks(KeptSections(ss, keep))
  {
    hide Chunks, KeepChunk, KeptChunks, JudgedAsOne;
    if ss == [] {
      NothingKept(keep);
    } else {
      JudgedAsOneKept(ss[0], keep);
      KeptChunksConcat(Chunks(ss[0]), AllChunks(ss[1..]), keep);
      AllKept(ss[1..], keep);
      if keep(ss[0].path) {
        assert KeptSections(ss, keep)[1..] == KeptSections(ss[1..], keep);
      } else {
        assert KeptSections(ss, keep) == KeptSections(ss[1..], keep);
      }
    }
  }

  lemma {:induction false} MarkedConcat(a: seq<string>, b: seq<string>)
    ensures Marked(a + b) == Marked(a) + Marked(b)
    decreases |b|
  {
    if b == [] {
      assert a + b == a;
    } else {
      assert (a + b)[..|a + b| - 1] == a + b[..|b| - 1];
      MarkedConcat(a, b[..|b| - 1]);
    }
  }

  /** Putting the markers back undoes the cut. */
  lemma {:induction false} MarkedOfSplit(s: string)
    ensures Marked(SplitBy(s, SECTION_MARKER)) == SECTION_MARKER + s
    decreases |s|
  {
    hide OccursAt;
    var m := SECTION_MARKER;
    match FindFrom(s, m, 0)
    case None => MarkedOne(s);
    case Some(i) =>
      OccursIs(s, i);
      MarkedOne(s[..i]);
      MarkedConcat([s[..i]], SplitBy(s[i + |m|..], m));
      MarkedOfSplit(s[i + |m|..]);
      assert s == s[..i] + m + s[i + |m|..];
  }

  lemma OccursIs(s: string, i: nat)
    requires OccursAt(s, SECTION_MARKER, i)
    ensures i + |SECTION_MARKER| <= |s| && s[i..i + |SECTION_MARKER|] == SECTION_MARKER
  {
  }

  lemma MarkedOne(c: string)
    ensures Marked([c]) == SECTION_MARKER + c
  {
    assert [c][..0] == [];
  }

  lemma {:induction false} MarkedOfAll(ss: seq<Section>)
    ensures Marked(AllChunks(ss)) == PrintDiff(ss)
  {
    hide SplitBy, Body, Marked;
    if ss == [] {
      NothingKept(_ => true);
    } else {
      MarkedConcat(Chunks(ss[0]), AllChunks(ss[1..]));
      MarkedOfSplit(Body(ss[0]));
      MarkedOfAll(ss[1..]);
    }
  }

  /**
   The filtered diff is the diff of the kept sections, whatever the globs, as long as no section holds a chunk that is
   judged apart from it.
   */
  lemma FilterKeepsSections(ss: seq<Section>, keep: Keep)
    requires forall s | s in ss :: JudgedAsOne(s, keep)
    ensures Filtered(PrintDiff(ss), keep) == Trim(PrintDiff(KeptSections(ss, keep)))
  {
    hide Trim, SplitBy, AllChunks, KeptChunks, JudgedAsOne;
    SplitOfPrinted(ss);
    assert ([""] + AllChunks(ss))[1..] == AllChunks(ss);
    AllKept(ss, keep);
    MarkedOfAll(KeptSections(ss, keep));
    assert "" + PrintDiff(KeptSections(ss, keep)) == PrintDiff(KeptSections(ss, keep));
  }

  /** So the filter keeps exactly the kept files' sections, whatever the globs, when each section is read right. */
  lemma PlainDiffFiltered(ss: seq<Section>, keep: Keep)
    requires forall s | s in ss :: ReadsRight(s)
    ensures Filtered(PrintDiff(ss), keep) == Trim(PrintDiff(KeptSections(ss, keep)))
  {
    hide ReadsRight, Filtered, Trim, PrintDiff, PathOf, Chunks;
    forall s | s in ss ensures JudgedAsOne(s, keep) {
      ChunksNameIff(s);
    }
    FilterKeepsSections(ss, keep);
  }

  lemma MarkerFree(s: string)
    requires !Contains(s, SECTION_MARKER)
    ensures SplitBy(s, SECTION_MARKER) == [s]
  {
  }

  /**
   A hunk line that quotes the marker cuts its section: under a filter that rejects the file, the text from the quoted
   marker on stays in the diff.
   */
  lemma QuotedMarkerEscapes(path: string, quoted: string, keep: Keep)
    requires var s := Section(path, BareHeader("a/" + path, path), "\n+" + SECTION_MARKER + quoted);
      WellFormed(s) && PlainPath(path)
    requires !keep(path) && '\n' !in quoted && !Contains(quoted, " b/") && !Contains(quoted, SECTION_MARKER)
    ensures var s := Section(path, BareHeader("a/" + path, path), "\n+" + SECTION_MARKER + quoted);
      && KeptSections([s], keep) == []
      && Filtered(PrintDiff([s]), keep) == Trim(SECTION_MARKER + quoted)
  {
    hide Contains, Trim, PathOf, SplitBy;
    var s := Section(path, BareHeader("a/" + path, path), "\n+" + SECTION_MARKER + quoted);
    var first := s.header + "\n+";
    assert Body(s) == first + SECTION_MARKER + quoted;
    SplitAtMarker(first, quoted);
    MarkerFree(quoted);
    HeaderThenPlus(s);
    MarkerFree(first);
    assert forall c | c in path :: c in s.header;
    PathReadIff("a/" + path, path, "\n+");
    QuotedHasNoPath(quoted);
    assert Chunks(s) == [first, quoted];
    assert !KeepChunk(first, keep) && KeepChunk(quoted, keep);
    var chunks := [first, quoted];
    NothingKept(keep);
    KeptChunksSnoc(chunks, 0, keep);
    KeptChunksSnoc(chunks, 1, keep);
    assert chunks[..2] == chunks && chunks[..0] == [];
    SplitOfPrinted([s]);
    assert AllChunks([s]) == [first, quoted];
    MarkedOne(quoted);
    assert "" + (SECTION_MARKER + quoted) == SECTION_MARKER + quoted;
  }

  lemma HeaderThenPlus(s: Section)
    requires WellFormed(s)
    ensures !Contains(s.header + "\n+", SECTION_MARKER)
  {
    var t, n := s.header + "\n+", |SECTION_MARKER|;
    assert '\n' !in SECTION_MARKER && '+' !in SECTION_MARKER;
    forall j: nat | j <= |t| ensures !OccursAt(t, SECTION_MARKER, j) {
      if j + n <= |s.header| {
        assert t[j..j + n] == s.header[j..j + n];
        assert !OccursAt(s.header, SECTION_MARKER, j);
      } else if j + n <= |t| {
        assert t[j..j + n][n - 1] == t[j + n - 1];
      }
    }
  }

  lemma QuotedHasNoPath(quoted: string)
    requires '\n' !in quoted && !Contains(quoted, " b/")
    ensures PathOf(quoted) == None
  {
    hide Trim;
  }

  /**
   A file whose name is printed quoted on both sides stays in the diff under every filter, one that rejects it too.
   */
  lemma QuotedNameEscapes(path: string, escaped: string, rest: string, keep: Keep)
    requires var s := Section(path, QuotedHeader("\"a/" + escaped + "\"", escaped), rest);
      WellFormed(s) && !Contains(Body(s), SECTION_MARKER)
    requires !Contains(escaped, " b/") && !keep(path)
    ensures var s := Section(path, QuotedHeader("\"a/" + escaped + "\"", escaped), rest);
      && KeptSections([s], keep) == []
      && Filtered(PrintDiff([s]), keep) == Trim(PrintDiff([s]))
  {
    hide Trim, PathOf, SplitBy, Contains, OccursAt, KeepChunk;
    var before := "\"a/" + escaped + "\"";
    var s := Section(path, QuotedHeader(before, escaped), rest);
    assert forall c | c in before || c in escaped :: c in s.header;
    OldSideUnmarked(escaped);
    QuotedKeptIff(before, escaped, rest);
    MarkerFree(Body(s));
    SplitOfPrinted([s]);
    assert AllChunks([s]) == [Body(s)];
    NothingKept(keep);
    KeptChunksSnoc([Body(s)], 0, keep);
    assert [Body(s)][..1] == [Body(s)] && [Body(s)][..0] == [];
    MarkedOne(Body(s));
    assert "" + (SECTION_MARKER + Body(s)) == SECTION_MARKER + Body(s) == PrintDiff([s]);
  }

  lemma OldSideUnmarked(escaped: string)
    requires !Contains(escaped, " b/")
    ensures !Contains("\"a/" + escaped + "\"", " b/")
  {
    var s := "\"a/" + escaped + "\"";
    forall i: nat ensures !OccursAt(s, " b/", i) {
      if OccursAt(s, " b/", i) {
        assert s[i] == s[i..i + 3][0] == ' ' && s[i + 2] == s[i..i + 3][2] == '/';
        assert escaped[i - 3..i] == s[i..i + 3];
        assert OccursAt(escaped, " b/", i - 3);
      }
    }
  }
}
