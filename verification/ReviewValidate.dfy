/** Validating a review's findings against the lines a pull request changes. */
module ReviewValidate {
  import opened Wrappers
  import opened ReviewTypes
  import opened ReviewDiff

  function Distance(a: nat, b: nat): nat {
    if a <= b then b - a else a - b
  }

  /** The last element of `s` at or before `target`. */
  function LastUpTo(s: set<nat>, target: nat): (r: Option<nat>)
    ensures r.None? ==> forall n | n in s :: target < n
    ensures r.Some? ==> r.value in s && r.value <= target && forall n | n in s && n <= target :: n <= r.value
  {
    if target in s then Some(target)
    else if target == 0 then None
    else LastUpTo(s, target - 1)
  }

  lemma {:induction false} HasLeast(s: set<nat>, x: nat)
    requires x in s
    ensures exists m | m in s :: forall n | n in s :: m <= n
  {
    if n :| n in s && n < x {
      HasLeast(s, n);
    }
  }

  /** The first element of `s` at or after `target`. */
  function FirstFrom(s: set<nat>, target: nat): (r: Option<nat>)
    ensures r.None? ==> forall n | n in s :: n < target
    ensures r.Some? ==> r.value in s && target <= r.value && forall n | n in s && target <= n :: r.value <= n
  {
    var high := set n | n in s && target <= n;
    assert forall n | n in s && target <= n :: n in high;
    if high == {} then None
    else
      (ghost var x :| x in high;
       HasLeast(high, x);
       var m :| m in high && forall n | n in high :: m <= n;
       Some(m))
  }

  /** The nearest added line within `maxDelta` of `target`, the earlier one on a tie. */
  function NearestAddedLine(target: nat, added: set<nat>, maxDelta: nat): (r: Option<nat>)
    ensures r.None? <==> forall n | n in added :: Distance(n, target) > maxDelta
    ensures r.Some? ==> r.value in added && Distance(r.value, target) <= maxDelta
    ensures r.Some? ==> forall n | n in added ::
      Distance(r.value, target) < Distance(n, target)
      || (Distance(r.value, target) == Distance(n, target) && r.value <= n)
  {
    match (LastUpTo(added, target), FirstFrom(added, target))
    case (Some(b), Some(a)) =>
      if target - b <= a - target then (if target - b <= maxDelta then Some(b) else None)
      else (if a - target <= maxDelta then Some(a) else None)
    case (Some(b), None) => if target - b <= maxDelta then Some(b) else None
    case (None, Some(a)) => if a - target <= maxDelta then Some(a) else None
    case (None, None) => None
  }

  const CLAMP_MAX_DELTA := 5

  datatype InlineComment = InlineComment(path: string, line: nat, startLine: Option<nat>, body: string)

  datatype ValidatedReview = ValidatedReview(
    inline: seq<InlineComment>, deferred: seq<Finding>, outOfScope: seq<Finding>)

  datatype Key = Key(file: string, line: nat, title: string)

  type Diff = map<string, DiffLines>

  datatype Section = Inline | Deferred | OutOfScope

  // ---------- what becomes of one finding ----------

  function Localize(f: Finding): Finding {
    f.(file := NormalizePath(f.file))
  }

  predicate OffDiff(f: Finding, diff: Diff) {
    diff != map[] && f.file !in diff
  }

  /** The added line a comment on `f` would sit on. */
  function Anchor(f: Finding, diff: Diff): Option<nat> {
    if f.file !in diff then None
    else if f.line in diff[f.file].added then Some(f.line)
    else if f.line in diff[f.file].all then NearestAddedLine(f.line, diff[f.file].added, CLAMP_MAX_DELTA)
    else None
  }

  function KeyOf(f: Finding, diff: Diff): Key {
    Key(f.file, if OffDiff(f, diff) then f.line else Anchor(f, diff).GetOr(f.line), f.title)
  }

  function SectionOf(f: Finding, diff: Diff): Section {
    if OffDiff(f, diff) then OutOfScope
    else if Anchor(f, diff).Some? && Anchor(f, diff).value > 0 then Inline
    else Deferred
  }

  function CommentOf(f: Finding, diff: Diff, body: Finding -> string): InlineComment
    requires SectionOf(f, diff) == Inline
  {
    var line := Anchor(f, diff).value;
    if line != f.line then
      InlineComment(f.file, line, None, body(f.(line := line, startLine := None, suggestion := None)))
    else
      InlineComment(f.file, line, ValidatedRangeStart(f.startLine, f.line, Some(diff[f.file].all)), body(f))
  }

  // ---------- what becomes of a list of findings ----------

  function Localized(findings: seq<Finding>): (r: seq<Finding>)
    ensures |r| == |findings|
  {
    seq(|findings|, i requires 0 <= i < |findings| => Localize(findings[i]))
  }

  function KeysOf(fs: seq<Finding>, diff: Diff): set<Key> {
    set f | f in fs :: KeyOf(f, diff)
  }

  /** The findings whose key no earlier finding has. */
  function Survivors(fs: seq<Finding>, diff: Diff): seq<Finding> {
    if fs == [] then []
    else
      var front, last := fs[..|fs| - 1], fs[|fs| - 1];
      Survivors(front, diff) + if KeyOf(last, diff) in KeysOf(front, diff) then [] else [last]
  }

  function InSection(fs: seq<Finding>, diff: Diff, section: Section): (r: seq<Finding>)
    ensures forall f | f in r :: f in fs && SectionOf(f, diff) == section
  {
    if fs == [] then []
    else
      var front, last := fs[..|fs| - 1], fs[|fs| - 1];
      InSection(front, diff, section) + if SectionOf(last, diff) == section then [last] else []
  }

  function CommentsOf(fs: seq<Finding>, diff: Diff, body: Finding -> string): seq<InlineComment>
    requires forall f | f in fs :: SectionOf(f, diff) == Inline
  {
    seq(|fs|, i requires 0 <= i < |fs| => CommentOf(fs[i], diff, body))
  }

  function ReviewOf(fs: seq<Finding>, diff: Diff, body: Finding -> string): ValidatedReview {
    ValidatedReview(
      CommentsOf(InSection(fs, diff, Inline), diff, body),
      InSection(fs, diff, Deferred),
      InSection(fs, diff, OutOfScope))
  }

  /** Sort the findings of a review into inline comments, deferred findings and out-of-scope ones. */
  method Validate(findings: seq<Finding>, diff: Diff, body: Finding -> string) returns (review: ValidatedReview)
    ensures review == ReviewOf(Survivors(Localized(findings), diff), diff, body)
  {
    hide NormalizePath, KeysOf, Survivors, ReviewOf, ValidatedRangeStart;
    var scopeKnown := diff != map[];
    var seen: set<Key> := {};
    review := ValidatedReview([], [], []);
    ghost var all := Localized(findings);
    NoFindings(diff, body);
    for i := 0 to |findings|
      invariant seen == KeysOf(all[..i], diff)
      invariant review == ReviewOf(Survivors(all[..i], diff), diff, body)
    {
      var finding := findings[i].(file := NormalizePath(findings[i].file));
      assert finding == all[i] && all[..i + 1] == all[..i] + [finding];
      KeysOfSnoc(all[..i], finding, diff);
      SurvivorsSnoc(all[..i], finding, diff);
      ReviewOfSnoc(Survivors(all[..i], diff), finding, diff, body);
      var inChangedFile := finding.file in diff;
      if scopeKnown && !inChangedFile {
        var key := Key(finding.file, finding.line, finding.title);
        if key !in seen {
          seen := seen + {key};
          review := review.(outOfScope := review.outOfScope + [finding]);
        }
        continue;
      }
      var anchor := None;
      if inChangedFile {
        var lines := diff[finding.file];
        if finding.line in lines.added {
          anchor := Some(finding.line);
        } else if finding.line in lines.all {
          anchor := NearestAddedLine(finding.line, lines.added, CLAMP_MAX_DELTA);
        }
      }
      var key := Key(finding.file, anchor.GetOr(finding.line), finding.title);
      if key in seen {
        continue;
      }
      seen := seen + {key};
      if anchor.Some? && anchor.value > 0 {
        var line := anchor.value;
        var text, startLine := "", None;
        if line != finding.line {
          text := body(finding.(line := line, startLine := None, suggestion := None));
        } else {
          text := body(finding);
          startLine := ValidatedRangeStart(finding.startLine, finding.line, Some(diff[finding.file].all));
        }
        review := review.(inline := review.inline + [InlineComment(finding.file, line, startLine, text)]);
      } else {
        review := review.(deferred := review.deferred + [finding]);
      }
    }
    assert all[..|findings|] == all;
  }

  lemma KeysOfSnoc(fs: seq<Finding>, f: Finding, diff: Diff)
    ensures KeysOf(fs + [f], diff) == KeysOf(fs, diff) + {KeyOf(f, diff)}
  {
    hide KeyOf;
  }

  lemma NoFindings(diff: Diff, body: Finding -> string)
    ensures KeysOf([], diff) == {} && Survivors([], diff) == []
      && ReviewOf([], diff, body) == ValidatedReview([], [], [])
  {
  }

  lemma SurvivorsSnoc(fs: seq<Finding>, f: Finding, diff: Diff)
    ensures Survivors(fs + [f], diff)
      == if KeyOf(f, diff) in KeysOf(fs, diff) then Survivors(fs, diff) else Survivors(fs, diff) + [f]
  {
    hide KeyOf, KeysOf;
  }

  lemma InSectionSnoc(fs: seq<Finding>, f: Finding, diff: Diff, section: Section)
    ensures InSection(fs + [f], diff, section)
      == if SectionOf(f, diff) == section then InSection(fs, diff, section) + [f] else InSection(fs, diff, section)
  {
    hide SectionOf;
  }

  lemma ReviewOfSnoc(fs: seq<Finding>, f: Finding, diff: Diff, body: Finding -> string)
    ensures var before, after := ReviewOf(fs, diff, body), ReviewOf(fs + [f], diff, body);
      match SectionOf(f, diff)
      case Inline => after == before.(inline := before.inline + [CommentOf(f, diff, body)])
      case Deferred => after == before.(deferred := before.deferred + [f])
      case OutOfScope => after == before.(outOfScope := before.outOfScope + [f])
  {
    hide SectionOf, InSection, CommentOf;
    InSectionSnoc(fs, f, diff, Inline);
    InSectionSnoc(fs, f, diff, Deferred);
    InSectionSnoc(fs, f, diff, OutOfScope);
    if SectionOf(f, diff) == Inline {
      assert CommentsOf(InSection(fs, diff, Inline) + [f], diff, body)
        == CommentsOf(InSection(fs, diff, Inline), diff, body) + [CommentOf(f, diff, body)];
    }
  }

  // ---------- nothing is lost, nothing is twice ----------

  /** A dropped duplicate belongs to the section its survivor is in. */
  lemma SameKeySameSection(f: Finding, g: Finding, diff: Diff)
    requires KeyOf(f, diff) == KeyOf(g, diff)
    ensures SectionOf(f, diff) == SectionOf(g, diff)
    ensures SectionOf(f, diff) == Inline ==> Anchor(f, diff) == Anchor(g, diff)
  {
  }

  lemma KeyAmong(fs: seq<Finding>, diff: Diff, f: Finding)
    requires f in fs
    ensures KeyOf(f, diff) in KeysOf(fs, diff)
  {
    hide KeyOf;
  }

  /** Each key survives exactly once. */
  lemma {:induction false} SurvivorsByKey(fs: seq<Finding>, diff: Diff)
    ensures KeysOf(Survivors(fs, diff), diff) == KeysOf(fs, diff)
    ensures |Survivors(fs, diff)| == |KeysOf(fs, diff)|
  {
    hide KeyOf, KeysOf;
    if fs == [] {
      NoKeys(diff);
    } else {
      var front, last := fs[..|fs| - 1], fs[|fs| - 1];
      assert fs == front + [last];
      SurvivorsByKey(front, diff);
      KeysOfSnoc(front, last, diff);
      KeysOfSnoc(Survivors(front, diff), last, diff);
      if KeyOf(last, diff) in KeysOf(front, diff) {
        assert KeysOf(front, diff) + {KeyOf(last, diff)} == KeysOf(front, diff);
        assert Survivors(fs, diff) == Survivors(front, diff);
      }
    }
  }

  lemma NoKeys(diff: Diff)
    ensures KeysOf([], diff) == {} && Survivors([], diff) == []
  {
  }

  /** The survivors of a longer list extend those of a shorter one. */
  lemma {:induction false} SurvivorsGrow(fs: seq<Finding>, diff: Diff, n: nat)
    requires n <= |fs|
    ensures Survivors(fs[..n], diff) <= Survivors(fs, diff)
    decreases |fs|
  {
    hide KeyOf, KeysOf;
    if n < |fs| {
      assert fs[..|fs| - 1][..n] == fs[..n];
      SurvivorsGrow(fs[..|fs| - 1], diff, n);
    } else {
      assert fs[..n] == fs;
    }
  }

  /** The three sections hold each finding of the list once. */
  lemma {:induction false} SectionsPartition(fs: seq<Finding>, diff: Diff)
    ensures multiset(InSection(fs, diff, Inline)) + multiset(InSection(fs, diff, Deferred))
      + multiset(InSection(fs, diff, OutOfScope)) == multiset(fs)
  {
    hide SectionOf;
    if fs != [] {
      var front, last := fs[..|fs| - 1], fs[|fs| - 1];
      assert fs == front + [last];
      SectionsPartition(front, diff);
    }
  }

  /** Some member of `section` has the key of `f`. */
  ghost predicate Represented(f: Finding, section: seq<Finding>, diff: Diff) {
    exists g | g in section :: KeyOf(g, diff) == KeyOf(f, diff)
  }

  /** Finding `i` or an earlier survivor with its key is in the section of finding `i`. */
  ghost predicate Accounted(fs: seq<Finding>, diff: Diff, i: nat)
    requires i < |fs|
  {
    && Survivors(fs[..i + 1], diff) <= Survivors(fs, diff)
    && Represented(fs[i], InSection(Survivors(fs[..i + 1], diff), diff, SectionOf(fs[i], diff)), diff)
  }

  /**
   The sections of a validated review together hold one entry per distinct key, and every finding that was dropped
   shares its key and its section with an earlier one that was kept.
   */
  lemma ValidationConserves(findings: seq<Finding>, diff: Diff, body: Finding -> string)
    ensures var all := Localized(findings);
      var review := ReviewOf(Survivors(all, diff), diff, body);
      && |review.inline| + |review.deferred| + |review.outOfScope| == |KeysOf(all, diff)|
      && forall i | 0 <= i < |all| :: Accounted(all, diff, i)
  {
    hide KeyOf, SectionOf, Survivors, InSection, KeysOf, Represented;
    var all := Localized(findings);
    var kept := Survivors(all, diff);
    SurvivorsByKey(all, diff);
    SectionsPartition(kept, diff);
    SectionSizes(kept, diff);
    forall i | 0 <= i < |all| ensures Accounted(all, diff, i) {
      SurvivorsGrow(all, diff, i + 1);
      EarlierSurvivor(all[..i + 1], diff, all[i]);
    }
  }

  lemma EarlierSurvivor(fs: seq<Finding>, diff: Diff, f: Finding)
    requires f in fs
    ensures Represented(f, InSection(Survivors(fs, diff), diff, SectionOf(f, diff)), diff)
  {
    hide KeyOf, SectionOf;
    SurvivorsByKey(fs, diff);
    KeyAmong(fs, diff, f);
    var g :| g in Survivors(fs, diff) && KeyOf(g, diff) == KeyOf(f, diff);
    SameKeySameSection(f, g, diff);
    MemberOfSection(Survivors(fs, diff), diff, g);
  }

  lemma {:induction false} MemberOfSection(fs: seq<Finding>, diff: Diff, f: Finding)
    requires f in fs
    ensures f in InSection(fs, diff, SectionOf(f, diff))
  {
    hide SectionOf;
    var front, last := fs[..|fs| - 1], fs[|fs| - 1];
    assert fs == front + [last];
    if f != last {
      MemberOfSection(front, diff, f);
    }
  }

  lemma {:induction false} SectionSizes(fs: seq<Finding>, diff: Diff)
    ensures |InSection(fs, diff, Inline)| + |InSection(fs, diff, Deferred)| + |InSection(fs, diff, OutOfScope)| == |fs|
  {
    hide SectionOf;
    if fs != [] {
      SectionSizes(fs[..|fs| - 1], diff);
    }
  }

  // ---------- where a finding belongs ----------

  /** The line shows in the diff of the finding's file. */
  predicate Shown(f: Finding, diff: Diff) {
    f.file in diff && (f.line in diff[f.file].added || f.line in diff[f.file].all)
  }

  /** Of the lines added to the finding's file none is nearer to its line, nor as near and earlier. */
  predicate Nearest(f: Finding, diff: Diff, n: nat)
    requires f.file in diff
  {
    var added := diff[f.file].added;
    && n in added
    && forall m | m in added :: Distance(n, f.line) < Distance(m, f.line)
                                || (Distance(n, f.line) == Distance(m, f.line) && n <= m)
  }

  /** A comment on the finding would go to that line: its own line shows, and the nearest added one is near enough. */
  predicate GoesTo(f: Finding, diff: Diff, n: nat) {
    Shown(f, diff) && Nearest(f, diff, n) && Distance(n, f.line) <= 5
  }

  ghost predicate BelongsInline(f: Finding, diff: Diff) {
    exists n: nat | n > 0 :: GoesTo(f, diff, n)
  }

  predicate BelongsOutside(f: Finding, diff: Diff) {
    |diff| > 0 && f.file !in diff
  }

  ghost predicate Belongs(f: Finding, diff: Diff, section: Section) {
    match section
    case Inline => BelongsInline(f, diff)
    case OutOfScope => BelongsOutside(f, diff)
    case Deferred => !BelongsInline(f, diff) && !BelongsOutside(f, diff)
  }

  /** Where the finding is taken to be: the line a comment would go to, or its own. */
  ghost predicate Settles(f: Finding, diff: Diff, line: nat) {
    GoesTo(f, diff, line) || (line == f.line && forall n: nat :: !GoesTo(f, diff, n))
  }

  /** Two findings of one title on one line of one file. */
  ghost predicate SameSpot(f: Finding, g: Finding, diff: Diff) {
    f.file == g.file && f.title == g.title && exists line: nat :: Settles(f, diff, line) && Settles(g, diff, line)
  }

  lemma AnchorIs(f: Finding, diff: Diff)
    ensures Anchor(f, diff).Some? ==> GoesTo(f, diff, Anchor(f, diff).value)
    ensures forall n: nat :: GoesTo(f, diff, n) ==> Anchor(f, diff) == Some(n)
  {
  }

  lemma SectionIs(f: Finding, diff: Diff)
    ensures forall section :: SectionOf(f, diff) == section <==> Belongs(f, diff, section)
  {
    hide Anchor, GoesTo;
    AnchorIs(f, diff);
    if f.file !in diff {
      OutsideGoesNowhere(f, diff);
    }
  }

  lemma OutsideGoesNowhere(f: Finding, diff: Diff)
    requires f.file !in diff
    ensures forall n: nat :: !GoesTo(f, diff, n)
  {
  }

  lemma KeyIs(f: Finding, g: Finding, diff: Diff)
    ensures KeyOf(f, diff) == KeyOf(g, diff) <==> SameSpot(f, g, diff)
  {
    hide Anchor, GoesTo;
    AnchorIs(f, diff);
    AnchorIs(g, diff);
    if f.file !in diff {
      OutsideGoesNowhere(f, diff);
    }
    if g.file !in diff {
      OutsideGoesNowhere(g, diff);
    }
    assert Settles(f, diff, KeyOf(f, diff).line) && Settles(g, diff, KeyOf(g, diff).line);
  }

  /** No earlier finding has the title and line of finding `i`. */
  ghost predicate First(fs: seq<Finding>, diff: Diff, i: nat)
    requires i < |fs|
  {
    forall j | 0 <= j < i :: !SameSpot(fs[j], fs[i], diff)
  }

  /** These are the positions of the first findings of their spot that belong in the section, in order. */
  ghost predicate Places(fs: seq<Finding>, diff: Diff, section: Section, at: seq<nat>) {
    && (forall j, k | 0 <= j < k < |at| :: at[j] < at[k])
    && forall i: nat :: i in at <==> i < |fs| && First(fs, diff, i) && Belongs(fs[i], diff, section)
  }

  lemma FirstIs(front: seq<Finding>, last: Finding, diff: Diff)
    ensures First(front + [last], diff, |front|) <==> KeyOf(last, diff) !in KeysOf(front, diff)
    ensures forall i | 0 <= i < |front| :: First(front + [last], diff, i) <==> First(front, diff, i)
  {
    hide KeyOf, SameSpot;
    forall f ensures SameSpot(f, last, diff) <==> KeyOf(f, diff) == KeyOf(last, diff) {
      KeyIs(f, last, diff);
    }
    assert forall j | 0 <= j < |front| :: (front + [last])[j] == front[j];
  }

  lemma PlacesPush(front: seq<Finding>, last: Finding, diff: Diff, section: Section, at: seq<nat>)
    requires Places(front, diff, section, at)
    ensures forall j | 0 <= j < |at| :: at[j] < |front|
    ensures Places(front + [last], diff, section,
              if KeyOf(last, diff) !in KeysOf(front, diff) && SectionOf(last, diff) == section then at + [|front|]
              else at)
  {
    hide KeyOf, SectionOf, First, Belongs, KeysOf;
    FirstIs(front, last, diff);
    SectionIs(last, diff);
    forall j | 0 <= j < |at| ensures at[j] < |front| {
      assert at[j] in at;
    }
    assert forall i | 0 <= i < |front| :: (front + [last])[i] == front[i];
  }

  lemma {:induction false} SectionPlaces(fs: seq<Finding>, diff: Diff, section: Section) returns (at: seq<nat>)
    ensures Places(fs, diff, section, at)
    ensures var chosen := InSection(Survivors(fs, diff), diff, section);
      |chosen| == |at| && forall j | 0 <= j < |at| :: at[j] < |fs| && chosen[j] == fs[at[j]]
  {
    hide KeyOf, SectionOf, Places, KeysOf, InSection, Survivors;
    if fs == [] {
      at := [];
      NothingPlaced(diff, section);
    } else {
      var front, last := fs[..|fs| - 1], fs[|fs| - 1];
      assert fs == front + [last];
      at := SectionPlaces(front, diff, section);
      PlacesPush(front, last, diff, section, at);
      SurvivorsSnoc(front, last, diff);
      InSectionSnoc(Survivors(front, diff), last, diff, section);
      if KeyOf(last, diff) !in KeysOf(front, diff) && SectionOf(last, diff) == section {
        at := at + [|front|];
      }
    }
  }

  lemma NothingPlaced(diff: Diff, section: Section)
    ensures InSection(Survivors([], diff), diff, section) == [] && Places([], diff, section, [])
  {
  }

  /** The finding's range starts at a line of the file not after its end, and all of it is visible. */
  predicate RangeVisible(f: Finding, visible: set<nat>) {
    && f.startLine.Some? && 0 < f.startLine.value <= f.line
    && forall l | f.startLine.value <= l <= f.line :: l in visible
  }

  /** The finding a comment renders: the line moved, its range and suggestion gone when the comment moved. */
  ghost predicate Anchors(c: InlineComment, f: Finding, diff: Diff, body: Finding -> string) {
    && c.path == f.file && c.line > 0 && GoesTo(f, diff, c.line)
    && (if c.line == f.line then
          && c.body == body(f)
          && c.startLine == if RangeVisible(f, diff[c.path].all) then f.startLine else None
        else
          c.startLine == None && c.body == body(f.(line := c.line, startLine := None, suggestion := None)))
  }

  lemma CommentAnchors(f: Finding, diff: Diff, body: Finding -> string)
    requires SectionOf(f, diff) == Inline
    ensures Anchors(CommentOf(f, diff, body), f, diff, body)
  {
    hide GoesTo;
    AnchorIs(f, diff);
    if Anchor(f, diff) == Some(f.line) {
      RangeIs(f, diff[f.file].all);
    }
  }

  lemma RangeIs(f: Finding, visible: set<nat>)
    ensures ValidatedRangeStart(f.startLine, f.line, Some(visible))
      == if RangeVisible(f, visible) then f.startLine else None
  {
  }

  /**
   What a validated review holds: each section exactly the first findings of their spot that belong there, in order.
   */
  ghost predicate Sorted(fs: seq<Finding>, diff: Diff, body: Finding -> string, review: ValidatedReview,
                         inline: seq<nat>, deferred: seq<nat>, outside: seq<nat>)
  {
    && Places(fs, diff, Inline, inline) && Places(fs, diff, Deferred, deferred) && Places(fs, diff, OutOfScope, outside)
    && |review.inline| == |inline| && |review.deferred| == |deferred| && |review.outOfScope| == |outside|
    && (forall j | 0 <= j < |inline| :: inline[j] < |fs| && Anchors(review.inline[j], fs[inline[j]], diff, body))
    && (forall j | 0 <= j < |deferred| :: deferred[j] < |fs| && review.deferred[j] == fs[deferred[j]])
    && (forall j | 0 <= j < |outside| :: outside[j] < |fs| && review.outOfScope[j] == fs[outside[j]])
  }

  /**
   Of the findings with one title on one line the first is kept. It becomes a comment exactly when its line shows and
   the nearest added line, positive, is at most five lines away, and the comment sits there; it is out of scope exactly
   when the change set is known and does not hold its file; otherwise it is deferred.
   */
  lemma EveryFindingPlaced(findings: seq<Finding>, diff: Diff, body: Finding -> string)
    ensures exists inline, deferred, outside ::
      Sorted(Localized(findings), diff, body, ReviewOf(Survivors(Localized(findings), diff), diff, body),
             inline, deferred, outside)
  {
    hide Survivors, InSection, Places, Anchors, CommentOf;
    var fs := Localized(findings);
    var inline := SectionPlaces(fs, diff, Inline);
    var deferred := SectionPlaces(fs, diff, Deferred);
    var outside := SectionPlaces(fs, diff, OutOfScope);
    var kept := InSection(Survivors(fs, diff), diff, Inline);
    forall j | 0 <= j < |kept| ensures Anchors(CommentOf(kept[j], diff, body), kept[j], diff, body) {
      assert kept[j] in kept;
      CommentAnchors(kept[j], diff, body);
    }
    assert Sorted(fs, diff, body, ReviewOf(Survivors(fs, diff), diff, body), inline, deferred, outside);
  }

  /** With no change set to go by, every finding is deferred. */
  lemma {:induction false} UnknownScopeDefersAll(fs: seq<Finding>, body: Finding -> string)
    ensures ReviewOf(fs, map[], body) == ValidatedReview([], fs, [])
  {
    if fs != [] {
      UnknownScopeDefersAll(fs[..|fs| - 1], body);
    }
  }
}
