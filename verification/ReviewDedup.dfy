/**
 Two-tier, count-bounded suppression of findings already posted on a pull request. `fold` is the case folding applied
 to titles.
 */
module ReviewDedup {
  import opened Wrappers
  import opened ReviewTypes
  import opened ReviewForms

  type ExactKey = (string, nat, string)
  type WideKey = (string, string)

  function DedupKey(fold: string -> string, file: string, line: nat, title: string): ExactKey {
    (NormalizePath(file), line, fold(OneLine(title)))
  }

  function PrDedupKey(fold: string -> string, file: string, title: string): WideKey {
    var (normalized, _, folded) := DedupKey(fold, file, 0, title);
    (normalized, folded)
  }

  function Widen(key: ExactKey): WideKey {
    (key.0, key.2)
  }

  function KeyOf(fold: string -> string, f: Finding): ExactKey {
    DedupKey(fold, f.file, f.line, f.title)
  }

  function WideKeyOf(fold: string -> string, f: Finding): WideKey {
    PrDedupKey(fold, f.file, f.title)
  }

  function Keys(fold: string -> string, fs: seq<Finding>): (keys: seq<ExactKey>)
    ensures |keys| == |fs| && forall i | 0 <= i < |fs| :: keys[i] == KeyOf(fold, fs[i])
  {
    seq(|fs|, i requires 0 <= i < |fs| => KeyOf(fold, fs[i]))
  }

  function WideKeys(fold: string -> string, fs: seq<Finding>): (keys: seq<WideKey>)
    ensures |keys| == |fs| && forall i | 0 <= i < |fs| :: keys[i] == WideKeyOf(fold, fs[i])
  {
    seq(|fs|, i requires 0 <= i < |fs| => WideKeyOf(fold, fs[i]))
  }

  // ---------- when keys agree ----------

  ghost predicate SamePath(a: string, b: string) {
    exists n :: NormalOf(a, n) && NormalOf(b, n)
  }

  /** The two titles have words that, put on one line each, fold alike. */
  ghost predicate SameTitle(fold: string -> string, a: string, b: string) {
    exists v, w :: WordsOf(a, v) && WordsOf(b, w) && fold(Spaced(v)) == fold(Spaced(w))
  }

  /**
   Two exact keys agree if and only if lines, normal paths and the folds of the titles' words do; two wide keys, if and
   only if normal paths and folds do.
   */
  lemma KeysAgreeIff(fold: string -> string, file: string, line: nat, title: string, file': string, line': nat,
                     title': string)
    ensures DedupKey(fold, file, line, title) == DedupKey(fold, file', line', title')
      <==> line == line' && SamePath(file, file') && SameTitle(fold, title, title')
    ensures PrDedupKey(fold, file, title) == PrDedupKey(fold, file', title')
      <==> SamePath(file, file') && SameTitle(fold, title, title')
  {
    hide NormalizePath, NormalOf, OneLine, SplitAt;
    PathsAgreeIff(file, file');
    forall v: seq<string>, at: seq<nat> | SplitAt(title, v, at) ensures OneLine(title) == Spaced(v) {
      OneLineIs(title, v, at);
    }
    forall w: seq<string>, at: seq<nat> | SplitAt(title', w, at) ensures OneLine(title') == Spaced(w) {
      OneLineIs(title', w, at);
    }
    var v, at := HasWords(title);
    var w, on := HasWords(title');
    assert WordsOf(title, v) && WordsOf(title', w);
  }

  lemma PathsAgreeIff(a: string, b: string)
    ensures NormalizePath(a) == NormalizePath(b) <==> SamePath(a, b)
  {
    hide NormalizePath, NormalOf;
    forall n ensures (n == NormalizePath(a) <==> NormalOf(a, n)) && (n == NormalizePath(b) <==> NormalOf(b, n)) {
      NormalPathIs(a, n);
      NormalPathIs(b, n);
    }
    assert NormalOf(a, NormalizePath(a));
  }

  /** If no two lines fold alike, keys agree on titles if and only if these have the same words in the same order. */
  lemma InjectiveKeysAgreeIff(fold: string -> string, file: string, line: nat, title: string, file': string,
                              line': nat, title': string)
    requires forall a, b :: fold(a) == fold(b) ==> a == b
    ensures DedupKey(fold, file, line, title) == DedupKey(fold, file', line', title')
      <==> line == line' && SamePath(file, file') && exists words :: WordsOf(title, words) && WordsOf(title', words)
    ensures PrDedupKey(fold, file, title) == PrDedupKey(fold, file', title')
      <==> SamePath(file, file') && exists words :: WordsOf(title, words) && WordsOf(title', words)
  {
    hide NormalizePath, SamePath, OneLine, WordsOf;
    PathsAgreeIff(file, file');
    OneLineAgreesIff(title, title');
  }

  // ---------- the budgets ----------

  /** A count per key, as the multiset it stands for. */
  ghost predicate Represents<K(!new)>(counts: map<K, nat>, budget: multiset<K>) {
    forall k :: budget[k] == if k in counts then counts[k] else 0
  }

  /** One prior finding, as `add` is told about it. */
  datatype Posting = Posting(file: string, line: nat, title: string, sameHead: bool, prWide: bool)

  function SameHeadBudget(fold: string -> string, adds: seq<Posting>): multiset<ExactKey> {
    if adds == [] then multiset{}
    else
      var a := adds[|adds| - 1];
      SameHeadBudget(fold, adds[..|adds| - 1])
      + if a.sameHead then multiset{DedupKey(fold, a.file, a.line, a.title)} else multiset{}
  }

  function PrWideBudget(fold: string -> string, adds: seq<Posting>): multiset<WideKey> {
    if adds == [] then multiset{}
    else
      var a := adds[|adds| - 1];
      PrWideBudget(fold, adds[..|adds| - 1])
      + if a.prWide then multiset{PrDedupKey(fold, a.file, a.title)} else multiset{}
  }

  lemma Bump<K(!new)>(counts: map<K, nat>, budget: multiset<K>, key: K)
    requires Represents(counts, budget)
    ensures Represents(counts[key := (if key in counts then counts[key] else 0) + 1], budget + multiset{key})
  {
  }

  lemma Spend<K(!new)>(counts: map<K, nat>, budget: multiset<K>, key: K)
    requires Represents(counts, budget)
    ensures key in budget <==> key in counts && counts[key] > 0
    ensures key in budget ==> Represents(counts[key := counts[key] - 1], budget - multiset{key})
  {
  }

  lemma BudgetsPush(fold: string -> string, adds: seq<Posting>, a: Posting)
    ensures SameHeadBudget(fold, adds + [a])
            == if a.sameHead then SameHeadBudget(fold, adds) + multiset{DedupKey(fold, a.file, a.line, a.title)}
               else SameHeadBudget(fold, adds)
    ensures PrWideBudget(fold, adds + [a])
            == if a.prWide then PrWideBudget(fold, adds) + multiset{PrDedupKey(fold, a.file, a.title)}
               else PrWideBudget(fold, adds)
  {
    assert (adds + [a])[..|adds|] == adds;
  }

  /** What was posted before, as occurrence counts per key. */
  class PostedFindings {
    const fold: string -> string
    var sameHead: map<ExactKey, nat>
    var prWide: map<WideKey, nat>
    ghost var adds: seq<Posting>

    ghost predicate Valid()
      reads this
    {
      && Represents(sameHead, SameHeadBudget(fold, adds))
      && Represents(prWide, PrWideBudget(fold, adds))
    }

    constructor (fold: string -> string)
      ensures Valid() && adds == [] && this.fold == fold
    {
      this.fold := fold;
      sameHead, prWide, adds := map[], map[], [];
    }

    method Add(file: string, line: nat, title: string, same: bool, wide: bool)
      requires Valid()
      modifies this
      ensures Valid() && adds == old(adds) + [Posting(file, line, title, same, wide)]
    {
      hide SameHeadBudget, PrWideBudget, DedupKey, PrDedupKey, Represents;
      BudgetsPush(fold, adds, Posting(file, line, title, same, wide));
      adds := adds + [Posting(file, line, title, same, wide)];
      if same {
        var key := DedupKey(fold, file, line, title);
        Bump(sameHead, SameHeadBudget(fold, old(adds)), key);
        sameHead := sameHead[key := (if key in sameHead then sameHead[key] else 0) + 1];
      }
      if wide {
        var key := PrDedupKey(fold, file, title);
        Bump(prWide, PrWideBudget(fold, old(adds)), key);
        prWide := prWide[key := (if key in prWide then prWide[key] else 0) + 1];
      }
    }

    /** Drop the findings the budgets cover, each use of a budget spending one. */
    method DedupAgainst(findings: seq<Finding>) returns (kept: seq<Finding>, deduped: nat)
      requires Valid()
      ensures kept == Dedup(fold, findings, SameHeadBudget(fold, adds), PrWideBudget(fold, adds)).0
      ensures deduped == Dedup(fold, findings, SameHeadBudget(fold, adds), PrWideBudget(fold, adds)).1
    {
      ghost var same, wide := SameHeadBudget(fold, adds), PrWideBudget(fold, adds);
      if sameHead == map[] && prWide == map[] {
        assert same == multiset{} && wide == multiset{};
        NothingPosted(fold, findings);
        return findings, 0;
      }
      hide SameHeadBudget, PrWideBudget, KeyOf, WideKeyOf, Represents;
      var sameLeft, wideLeft := sameHead, prWide;
      kept, deduped := [], 0;
      assert findings[0..] == findings;
      ghost var all := Dedup(fold, findings, same, wide);
      assert [] + all.0 == all.0;
      for i := 0 to |findings|
        invariant Represents(sameLeft, same) && Represents(wideLeft, wide)
        invariant var rest := Dedup(fold, findings[i..], same, wide);
          kept + rest.0 == all.0 && deduped + rest.1 == all.1
      {
        var f := findings[i];
        assert findings[i..][0] == f && findings[i..][1..] == findings[i + 1..];
        var exact, broad := KeyOf(fold, f), WideKeyOf(fold, f);
        Spend(sameLeft, same, exact);
        Spend(wideLeft, wide, broad);
        if exact in sameLeft && sameLeft[exact] > 0 {
          sameLeft := sameLeft[exact := sameLeft[exact] - 1];
          same := same - multiset{exact};
          deduped := deduped + 1;
        } else if broad in wideLeft && wideLeft[broad] > 0 {
          wideLeft := wideLeft[broad := wideLeft[broad] - 1];
          wide := wide - multiset{broad};
          deduped := deduped + 1;
        } else {
          ghost var rest := Dedup(fold, findings[i + 1..], same, wide).0;
          assert kept + ([f] + rest) == (kept + [f]) + rest;
          kept := kept + [f];
        }
      }
      assert findings[|findings|..] == [];
    }
  }

  /** The kept findings and the number suppressed, one finding at a time. */
  function Dedup(fold: string -> string, fs: seq<Finding>, same: multiset<ExactKey>, wide: multiset<WideKey>):
    (seq<Finding>, nat)
    decreases |fs|
  {
    if fs == [] then ([], 0)
    else
      var exact, broad := KeyOf(fold, fs[0]), WideKeyOf(fold, fs[0]);
      if exact in same then
        var (kept, n) := Dedup(fold, fs[1..], same - multiset{exact}, wide);
        (kept, n + 1)
      else if broad in wide then
        var (kept, n) := Dedup(fold, fs[1..], same, wide - multiset{broad});
        (kept, n + 1)
      else
        var (kept, n) := Dedup(fold, fs[1..], same, wide);
        ([fs[0]] + kept, n)
  }

  lemma {:induction false} NothingPosted(fold: string -> string, fs: seq<Finding>)
    ensures Dedup(fold, fs, multiset{}, multiset{}) == (fs, 0)
    decreases |fs|
  {
    hide KeyOf, WideKeyOf;
    if fs != [] {
      NothingPosted(fold, fs[1..]);
      assert fs == [fs[0]] + fs[1..];
    }
  }

  // ---------- what suppression amounts to ----------

  /** How many findings the exact tier suppresses: over the keys, the lesser of found and posted. */
  function TierOne(fold: string -> string, fs: seq<Finding>, same: multiset<ExactKey>): nat {
    |multiset(Keys(fold, fs)) * same|
  }

  /** The wide keys of what the exact tier leaves over. */
  function LeftOver(fold: string -> string, fs: seq<Finding>, same: multiset<ExactKey>): multiset<WideKey>
    decreases |fs|
  {
    if fs == [] then multiset{}
    else
      var exact := KeyOf(fold, fs[0]);
      if exact in same then LeftOver(fold, fs[1..], same - multiset{exact})
      else multiset{WideKeyOf(fold, fs[0])} + LeftOver(fold, fs[1..], same)
  }

  lemma IntersectHead<K>(head: K, rest: multiset<K>, budget: multiset<K>)
    ensures |(multiset{head} + rest) * budget|
            == if head in budget then 1 + |rest * (budget - multiset{head})| else |rest * budget|
  {
    if head in budget {
      assert (multiset{head} + rest) * budget == multiset{head} + rest * (budget - multiset{head});
    } else {
      assert (multiset{head} + rest) * budget == rest * budget;
    }
  }

  lemma KeysHead(fold: string -> string, fs: seq<Finding>)
    requires fs != []
    ensures multiset(Keys(fold, fs)) == multiset{KeyOf(fold, fs[0])} + multiset(Keys(fold, fs[1..]))
  {
    hide KeyOf;
    assert Keys(fold, fs) == [KeyOf(fold, fs[0])] + Keys(fold, fs[1..]);
  }

  /** Suppression is the two minima: exact keys against the same-head budget, leftovers against the wide one. */
  lemma {:induction false} SuppressedIsTwoTiers(fold: string -> string, fs: seq<Finding>, same: multiset<ExactKey>,
                                                wide: multiset<WideKey>)
    ensures Dedup(fold, fs, same, wide).1 == TierOne(fold, fs, same) + |LeftOver(fold, fs, same) * wide|
    decreases |fs|
  {
    hide KeyOf, WideKeyOf;
    if fs == [] {
      assert multiset(Keys(fold, fs)) == multiset{};
    } else {
      var exact, broad := KeyOf(fold, fs[0]), WideKeyOf(fold, fs[0]);
      KeysHead(fold, fs);
      IntersectHead(exact, multiset(Keys(fold, fs[1..])), same);
      if exact in same {
        SuppressedIsTwoTiers(fold, fs[1..], same - multiset{exact}, wide);
      } else {
        IntersectHead(broad, LeftOver(fold, fs[1..], same), wide);
        SuppressedIsTwoTiers(fold, fs[1..], same, if broad in wide then wide - multiset{broad} else wide);
      }
    }
  }

  /** `a` is `b` with some elements left out. */
  ghost predicate Subsequence<T>(a: seq<T>, b: seq<T>)
    decreases |b|
  {
    || a == []
    || (b != [] && a != [] && a[0] == b[0] && Subsequence(a[1..], b[1..]))
    || (b != [] && Subsequence(a, b[1..]))
  }

  /** Nothing is invented or lost: the kept findings are a subsequence, and every other one is counted. */
  lemma {:induction false} DedupConserves(fold: string -> string, fs: seq<Finding>, same: multiset<ExactKey>,
                                          wide: multiset<WideKey>)
    ensures var (kept, n) := Dedup(fold, fs, same, wide);
      Subsequence(kept, fs) && |kept| + n == |fs|
    decreases |fs|
  {
    hide KeyOf, WideKeyOf;
    if fs != [] {
      var exact, broad := KeyOf(fold, fs[0]), WideKeyOf(fold, fs[0]);
      if exact in same {
        DedupConserves(fold, fs[1..], same - multiset{exact}, wide);
      } else if broad in wide {
        DedupConserves(fold, fs[1..], same, wide - multiset{broad});
      } else {
        DedupConserves(fold, fs[1..], same, wide);
        assert ([fs[0]] + Dedup(fold, fs[1..], same, wide).0)[1..] == Dedup(fold, fs[1..], same, wide).0;
      }
    }
  }

  // ---------- the count does not depend on order ----------

  function Widened(keys: seq<ExactKey>): multiset<WideKey> {
    if keys == [] then multiset{} else multiset{Widen(keys[0])} + Widened(keys[1..])
  }

  lemma {:induction false} WidenedSplit(a: seq<ExactKey>, k: ExactKey, b: seq<ExactKey>)
    ensures Widened(a + [k] + b) == multiset{Widen(k)} + Widened(a + b)
    decreases |a|
  {
    if a == [] {
      assert a + [k] + b == [k] + b && ([k] + b)[1..] == b && a + b == b;
    } else {
      assert (a + [k] + b)[1..] == a[1..] + [k] + b && (a + b)[1..] == a[1..] + b;
      WidenedSplit(a[1..], k, b);
    }
  }

  lemma RemoveCommon<T>(a: seq<T>, left: seq<T>, right: seq<T>)
    requires a != [] && multiset(a) == multiset(left + [a[0]] + right)
    ensures multiset(a[1..]) == multiset(left + right)
  {
    assert a == [a[0]] + a[1..];
    assert multiset(a) == multiset{a[0]} + multiset(a[1..]);
    assert multiset(left + [a[0]] + right) == multiset(left) + multiset{a[0]} + multiset(right);
    var x, y := multiset(a[1..]), multiset(left) + multiset(right);
    assert multiset{a[0]} + x == multiset{a[0]} + y;
    assert x == (multiset{a[0]} + x) - multiset{a[0]};
    assert y == (multiset{a[0]} + y) - multiset{a[0]};
  }

  /** Widening depends only on which keys there are. */
  lemma {:induction false} WidenedPermutes(a: seq<ExactKey>, b: seq<ExactKey>)
    requires multiset(a) == multiset(b)
    ensures Widened(a) == Widened(b)
    decreases |a|
  {
    if a == [] {
      assert |multiset(a)| == 0 && |multiset(b)| == |b|;
    } else {
      assert a[0] in multiset(a) && a[0] in b;
      var i :| 0 <= i < |b| && b[i] == a[0];
      var left, right := b[..i], b[i + 1..];
      assert b == left + [a[0]] + right;
      RemoveCommon(a, left, right);
      WidenedPermutes(a[1..], left + right);
      WidenedSplit(left, a[0], right);
    }
  }

  /** The exact keys left over by the first tier are those found beyond the budget. */
  lemma {:induction false} LeftOverKeys(fold: string -> string, fs: seq<Finding>, same: multiset<ExactKey>)
    returns (keys: seq<ExactKey>)
    ensures multiset(keys) == multiset(Keys(fold, fs)) - same
    ensures LeftOver(fold, fs, same) == Widened(keys)
    decreases |fs|
  {
    if fs == [] {
      keys := [];
      assert Keys(fold, fs) == [];
    } else {
      var exact := KeyOf(fold, fs[0]);
      KeysHead(fold, fs);
      if exact in same {
        keys := LeftOverKeys(fold, fs[1..], same - multiset{exact});
      } else {
        var rest := LeftOverKeys(fold, fs[1..], same);
        keys := [exact] + rest;
        assert keys[1..] == rest;
        assert multiset(keys) == multiset{exact} + multiset(rest);
      }
    }
  }

  /** How many are suppressed does not depend on the order the findings come in. */
  lemma SuppressedPermutes(fold: string -> string, a: seq<Finding>, b: seq<Finding>, same: multiset<ExactKey>,
                           wide: multiset<WideKey>)
    requires multiset(a) == multiset(b)
    ensures Dedup(fold, a, same, wide).1 == Dedup(fold, b, same, wide).1
  {
    SuppressedIsTwoTiers(fold, a, same, wide);
    SuppressedIsTwoTiers(fold, b, same, wide);
    KeysPermute(fold, a, b);
    var ka := LeftOverKeys(fold, a, same);
    var kb := LeftOverKeys(fold, b, same);
    WidenedPermutes(ka, kb);
  }

  /** Taking one finding out of a list takes its key out of the keys. */
  lemma KeysWithout(fold: string -> string, left: seq<Finding>, f: Finding, right: seq<Finding>)
    ensures multiset(Keys(fold, left + [f] + right)) == multiset{KeyOf(fold, f)} + multiset(Keys(fold, left + right))
  {
    hide KeyOf, Keys;
    KeysConcat(fold, left + [f], right);
    KeysConcat(fold, left, [f]);
    KeysConcat(fold, left, right);
    KeysHead(fold, [f]);
    assert [f][1..] == [];
    assert Keys(fold, []) == [];
  }

  lemma {:induction false} KeysPermute(fold: string -> string, a: seq<Finding>, b: seq<Finding>)
    requires multiset(a) == multiset(b)
    ensures multiset(Keys(fold, a)) == multiset(Keys(fold, b))
    decreases |a|
  {
    hide KeyOf, Keys;
    if a == [] {
      assert |multiset(a)| == 0 && |multiset(b)| == |b|;
      assert a == b;
    } else {
      assert a[0] in multiset(a) && a[0] in b;
      var i :| 0 <= i < |b| && b[i] == a[0];
      assert b == b[..i] + [a[0]] + b[i + 1..];
      RemoveCommon(a, b[..i], b[i + 1..]);
      KeysPermute(fold, a[1..], b[..i] + b[i + 1..]);
      KeysHead(fold, a);
      KeysWithout(fold, b[..i], a[0], b[i + 1..]);
    }
  }

  lemma KeysConcat(fold: string -> string, a: seq<Finding>, b: seq<Finding>)
    ensures multiset(Keys(fold, a + b)) == multiset(Keys(fold, a)) + multiset(Keys(fold, b))
  {
    hide KeyOf;
    assert Keys(fold, a + b) == Keys(fold, a) + Keys(fold, b);
  }

  // ---------- never more than were posted? ----------

  function CountPostings(adds: seq<Posting>, such: Posting -> bool): nat {
    if adds == [] then 0 else CountPostings(adds[..|adds| - 1], such) + if such(adds[|adds| - 1]) then 1 else 0
  }

  /** Postings that fund both tiers, and postings that fund neither. */
  function Doubled(adds: seq<Posting>): nat {
    CountPostings(adds, (a: Posting) => a.sameHead && a.prWide)
  }

  function Unused(adds: seq<Posting>): nat {
    CountPostings(adds, (a: Posting) => !a.sameHead && !a.prWide)
  }

  lemma {:induction false} BudgetSizes(fold: string -> string, adds: seq<Posting>)
    ensures |SameHeadBudget(fold, adds)| + |PrWideBudget(fold, adds)| + Unused(adds) == |adds| + Doubled(adds)
    decreases |adds|
  {
    hide DedupKey, PrDedupKey;
    if adds != [] {
      BudgetSizes(fold, adds[..|adds| - 1]);
    }
  }

  lemma SuppressedAtMost(fold: string -> string, fs: seq<Finding>, same: multiset<ExactKey>, wide: multiset<WideKey>)
    ensures Dedup(fold, fs, same, wide).1 <= |same| + |wide|
  {
  }

  /** A finding a posting would suppress. */
  function Repost(a: Posting): Finding {
    Finding(a.file, a.line, None, None, None, None, a.title, "", None, [])
  }

  function Reposts(adds: seq<Posting>, same: bool): seq<Finding> {
    if adds == [] then []
    else
      var a := adds[|adds| - 1];
      Reposts(adds[..|adds| - 1], same) + if (if same then a.sameHead else a.prWide) then [Repost(a)] else []
  }

  function WideMultiset(fold: string -> string, fs: seq<Finding>): multiset<WideKey> {
    multiset(WideKeys(fold, fs))
  }

  lemma {:induction false} RepostKeys(fold: string -> string, adds: seq<Posting>)
    ensures multiset(Keys(fold, Reposts(adds, true))) == SameHeadBudget(fold, adds)
    ensures WideMultiset(fold, Reposts(adds, false)) == PrWideBudget(fold, adds)
    decreases |adds|
  {
    hide DedupKey, PrDedupKey;
    if adds == [] {
      assert Keys(fold, []) == [] && WideKeys(fold, []) == [];
    } else {
      var init, a := adds[..|adds| - 1], adds[|adds| - 1];
      RepostKeys(fold, init);
      KeysConcat(fold, Reposts(init, true), [Repost(a)]);
      assert Keys(fold, [Repost(a)]) == [DedupKey(fold, a.file, a.line, a.title)];
      assert WideKeys(fold, Reposts(init, false) + [Repost(a)])
          == WideKeys(fold, Reposts(init, false)) + [PrDedupKey(fold, a.file, a.title)];
      assert Reposts(init, true) + [] == Reposts(init, true) && Reposts(init, false) + [] == Reposts(init, false);
    }
  }

  /** Findings that use up the exact budget leave what follows them to the wide one. */
  lemma {:induction false} NothingSpent(fold: string -> string, fs: seq<Finding>, same: multiset<ExactKey>)
    requires same == multiset{}
    ensures LeftOver(fold, fs, same) == WideMultiset(fold, fs)
  {
    hide KeyOf, WideKeyOf;
    if fs != [] {
      NothingSpent(fold, fs[1..], same);
      assert WideKeys(fold, fs) == [WideKeyOf(fold, fs[0])] + WideKeys(fold, fs[1..]);
    }
  }

  lemma {:induction false} LeftOverAfter(fold: string -> string, spend: seq<Finding>, fs: seq<Finding>,
                                         same: multiset<ExactKey>)
    requires multiset(Keys(fold, spend)) == same
    ensures LeftOver(fold, spend + fs, same) == WideMultiset(fold, fs)
    decreases |spend|
  {
    hide KeyOf, WideKeyOf, WideMultiset;
    if spend != [] {
      KeysHead(fold, spend);
      assert (spend + fs)[1..] == spend[1..] + fs;
      LeftOverAfter(fold, spend[1..], fs, same - multiset{KeyOf(fold, spend[0])});
    } else {
      assert Keys(fold, spend) == [] && spend + fs == fs;
      NothingSpent(fold, fs, same);
    }
  }

  /** Reposting everything spends both budgets to the last. */
  lemma BudgetsAttained(fold: string -> string, adds: seq<Posting>)
    ensures var fs := Reposts(adds, true) + Reposts(adds, false);
      var same, wide := SameHeadBudget(fold, adds), PrWideBudget(fold, adds);
      Dedup(fold, fs, same, wide).1 == |same| + |wide|
  {
    hide KeyOf, WideKeyOf, Keys, WideKeys, Dedup, LeftOver;
    var first, second := Reposts(adds, true), Reposts(adds, false);
    var same, wide := SameHeadBudget(fold, adds), PrWideBudget(fold, adds);
    RepostKeys(fold, adds);
    SuppressedIsTwoTiers(fold, first + second, same, wide);
    KeysConcat(fold, first, second);
    assert (same + multiset(Keys(fold, second))) * same == same;
    LeftOverAfter(fold, first, second, same);
    assert wide * wide == wide;
  }

  // ---------- key by key ----------

  /** The postings of one file and title, whatever their lines. */
  function PostingsOf(fold: string -> string, adds: seq<Posting>, w: WideKey): seq<Posting> {
    if adds == [] then []
    else
      var a := adds[|adds| - 1];
      PostingsOf(fold, adds[..|adds| - 1], w) + if PrDedupKey(fold, a.file, a.title) == w then [a] else []
  }

  function FindingsOf(fold: string -> string, fs: seq<Finding>, w: WideKey): (r: seq<Finding>)
    ensures forall f | f in r :: WideKeyOf(fold, f) == w
  {
    if fs == [] then [] else (if WideKeyOf(fold, fs[0]) == w then [fs[0]] else []) + FindingsOf(fold, fs[1..], w)
  }

  /** The budgets hold the same for keys of `w`. */
  ghost predicate Agree(w: WideKey, same: multiset<ExactKey>, same': multiset<ExactKey>, wide: multiset<WideKey>,
                        wide': multiset<WideKey>)
  {
    (forall e: ExactKey | Widen(e) == w :: same[e] == same'[e]) && wide[w] == wide'[w]
  }

  lemma WidenKey(fold: string -> string, f: Finding)
    ensures Widen(KeyOf(fold, f)) == WideKeyOf(fold, f)
  {
  }

  lemma AgreeSpent(w: WideKey, same: multiset<ExactKey>, same': multiset<ExactKey>, wide: multiset<WideKey>,
                   wide': multiset<WideKey>, e: ExactKey)
    requires Agree(w, same, same', wide, wide')
    ensures Widen(e) == w ==>
              && (e in same <==> e in same') && (w in wide <==> w in wide')
              && Agree(w, same - multiset{e}, same' - multiset{e}, wide, wide')
              && Agree(w, same, same', wide - multiset{w}, wide' - multiset{w})
    ensures Widen(e) != w ==>
              Agree(w, same - multiset{e}, same', wide, wide')
                && Agree(w, same, same', wide - multiset{Widen(e)}, wide')
  {
  }

  /** What is kept of one key depends on the findings and the budgets of that key alone. */
  lemma {:induction false} DedupOfKey(fold: string -> string, fs: seq<Finding>, w: WideKey, same: multiset<ExactKey>,
                                      same': multiset<ExactKey>, wide: multiset<WideKey>, wide': multiset<WideKey>)
    requires Agree(w, same, same', wide, wide')
    ensures FindingsOf(fold, Dedup(fold, fs, same, wide).0, w) == Dedup(fold, FindingsOf(fold, fs, w), same', wide').0
    decreases |fs|
  {
    hide KeyOf, WideKeyOf, Agree, Widen;
    if fs != [] {
      var f, rest := fs[0], fs[1..];
      var exact, broad := KeyOf(fold, f), WideKeyOf(fold, f);
      WidenKey(fold, f);
      AgreeSpent(w, same, same', wide, wide', exact);
      var same1 := if exact in same then same - multiset{exact} else same;
      var wide1 := if exact !in same && broad in wide then wide - multiset{broad} else wide;
      var kept := Dedup(fold, rest, same1, wide1).0;
      if broad == w {
        var same2 := if exact in same then same' - multiset{exact} else same';
        var wide2 := if exact !in same && broad in wide then wide' - multiset{broad} else wide';
        DedupOfKey(fold, rest, w, same1, same2, wide1, wide2);
        assert FindingsOf(fold, fs, w)[1..] == FindingsOf(fold, rest, w) && FindingsOf(fold, fs, w)[0] == f;
        assert ([f] + kept)[1..] == kept;
      } else {
        DedupOfKey(fold, rest, w, same1, same', wide1, wide');
        assert FindingsOf(fold, fs, w) == FindingsOf(fold, rest, w);
        assert ([f] + kept)[1..] == kept;
      }
    }
  }

  lemma {:induction false} BudgetsOfKey(fold: string -> string, adds: seq<Posting>, w: WideKey)
    ensures Agree(w, SameHeadBudget(fold, adds), SameHeadBudget(fold, PostingsOf(fold, adds, w)),
                  PrWideBudget(fold, adds), PrWideBudget(fold, PostingsOf(fold, adds, w)))
    decreases |adds|
  {
    hide SameHeadBudget, PrWideBudget;
    if adds == [] {
      assert PostingsOf(fold, adds, w) == adds;
    } else {
      var init, a := adds[..|adds| - 1], adds[|adds| - 1];
      BudgetsOfKey(fold, init, w);
      assert adds == init + [a];
      BudgetsPush(fold, init, a);
      BudgetsPush(fold, PostingsOf(fold, init, w), a);
      assert Widen(DedupKey(fold, a.file, a.line, a.title)) == PrDedupKey(fold, a.file, a.title);
      assert PostingsOf(fold, init, w) + [] == PostingsOf(fold, init, w);
    }
  }

  /** How many findings of one key are suppressed, in a list that may hold any others. */
  function SuppressedOf(fold: string -> string, adds: seq<Posting>, fs: seq<Finding>, w: WideKey): int {
    var kept := Dedup(fold, fs, SameHeadBudget(fold, adds), PrWideBudget(fold, adds)).0;
    |FindingsOf(fold, fs, w)| - |FindingsOf(fold, kept, w)|
  }

  /** They are as many as the key's own postings suppress of its own findings. */
  lemma SuppressedOfIs(fold: string -> string, adds: seq<Posting>, fs: seq<Finding>, w: WideKey)
    ensures var own := PostingsOf(fold, adds, w);
      SuppressedOf(fold, adds, fs, w)
      == Dedup(fold, FindingsOf(fold, fs, w), SameHeadBudget(fold, own), PrWideBudget(fold, own)).1
  {
    hide Dedup, FindingsOf, SameHeadBudget, PrWideBudget, PostingsOf, Subsequence;
    var own := PostingsOf(fold, adds, w);
    BudgetsOfKey(fold, adds, w);
    DedupOfKey(fold, fs, w, SameHeadBudget(fold, adds), SameHeadBudget(fold, own), PrWideBudget(fold, adds),
               PrWideBudget(fold, own));
    DedupConserves(fold, FindingsOf(fold, fs, w), SameHeadBudget(fold, own), PrWideBudget(fold, own));
  }

  lemma {:induction false} OnlyOfKey(fold: string -> string, fs: seq<Finding>, w: WideKey)
    requires forall f | f in fs :: WideKeyOf(fold, f) == w
    ensures FindingsOf(fold, fs, w) == fs
  {
    hide WideKeyOf;
    if fs != [] {
      OnlyOfKey(fold, fs[1..], w);
      assert fs == [fs[0]] + fs[1..];
    }
  }

  lemma {:induction false} RepostsOfKey(fold: string -> string, adds: seq<Posting>, w: WideKey, same: bool)
    ensures forall f | f in Reposts(PostingsOf(fold, adds, w), same) :: WideKeyOf(fold, f) == w
    decreases |adds|
  {
    hide PrDedupKey;
    if adds != [] {
      var init, a := adds[..|adds| - 1], adds[|adds| - 1];
      RepostsOfKey(fold, init, w, same);
      var own := PostingsOf(fold, init, w);
      assert own + [] == own && (own + [a])[..|own|] == own;
      assert WideKeyOf(fold, Repost(a)) == PrDedupKey(fold, a.file, a.title);
    }
  }

  /**
   "A key posted once suppresses at most one finding" is not what the code does: a posting added with both flags funds
   two suppressions. No list of findings loses more of a key than were posted of it if and only if no more of its
   postings fund both tiers than fund neither.
   */
  lemma SuppressedAtMostPostedIff(fold: string -> string, adds: seq<Posting>, w: WideKey)
    ensures (forall fs :: SuppressedOf(fold, adds, fs, w) <= |PostingsOf(fold, adds, w)|)
            <==> Doubled(PostingsOf(fold, adds, w)) <= Unused(PostingsOf(fold, adds, w))
  {
    hide Dedup, SameHeadBudget, PrWideBudget, Doubled, Unused, Reposts, SuppressedOf, PostingsOf, WideKeyOf, FindingsOf;
    var own := PostingsOf(fold, adds, w);
    BudgetSizes(fold, own);
    forall fs
      ensures SuppressedOf(fold, adds, fs, w) <= |SameHeadBudget(fold, own)| + |PrWideBudget(fold, own)|
    {
      SuppressedOfIs(fold, adds, fs, w);
      SuppressedAtMost(fold, FindingsOf(fold, fs, w), SameHeadBudget(fold, own), PrWideBudget(fold, own));
    }
    var all := Reposts(own, true) + Reposts(own, false);
    RepostsOfKey(fold, adds, w, true);
    RepostsOfKey(fold, adds, w, false);
    OnlyOfKey(fold, all, w);
    SuppressedOfIs(fold, adds, all, w);
    BudgetsAttained(fold, own);
  }

  /** For all keys at once. */
  lemma NeverMoreThanPostedIff(fold: string -> string, adds: seq<Posting>)
    ensures (forall w, fs :: SuppressedOf(fold, adds, fs, w) <= |PostingsOf(fold, adds, w)|)
            <==> forall w :: Doubled(PostingsOf(fold, adds, w)) <= Unused(PostingsOf(fold, adds, w))
  {
    hide SuppressedOf, PostingsOf, Doubled, Unused;
    forall w ensures (forall fs :: SuppressedOf(fold, adds, fs, w) <= |PostingsOf(fold, adds, w)|)
                     <==> Doubled(PostingsOf(fold, adds, w)) <= Unused(PostingsOf(fold, adds, w)) {
      SuppressedAtMostPostedIff(fold, adds, w);
    }
  }

  /** The findings of one earlier review of the pull request, and whether it was of this commit. */
  datatype PostedRow = PostedRow(sameHead: bool, findings: seq<Finding>)

  function PostingsOfRow(row: PostedRow, wholePr: bool): seq<Posting> {
    seq(|row.findings|, i requires 0 <= i < |row.findings| =>
      Posting(row.findings[i].file, row.findings[i].line, row.findings[i].title, row.sameHead,
              !row.sameHead && wholePr))
  }

  /**
   What finalizing a review adds: findings of this commit to one tier, those of other commits to the other, if any.
   */
  function PostingsOfRows(rows: seq<PostedRow>, wholePr: bool): seq<Posting> {
    if rows == [] then []
    else PostingsOfRows(rows[..|rows| - 1], wholePr) + PostingsOfRow(rows[|rows| - 1], wholePr)
  }

  lemma {:induction false} RowsFundOnce(rows: seq<PostedRow>, wholePr: bool)
    ensures forall a | a in PostingsOfRows(rows, wholePr) :: !(a.sameHead && a.prWide)
  {
    if rows != [] {
      RowsFundOnce(rows[..|rows| - 1], wholePr);
    }
  }

  lemma {:induction false} NoneDoubled(fold: string -> string, adds: seq<Posting>, w: WideKey)
    requires forall a | a in adds :: !(a.sameHead && a.prWide)
    ensures Doubled(PostingsOf(fold, adds, w)) == 0
  {
    hide PrDedupKey;
    if adds != [] {
      var init, a := adds[..|adds| - 1], adds[|adds| - 1];
      NoneDoubled(fold, init, w);
      var own := PostingsOf(fold, init, w);
      assert a in adds && own + [] == own && (own + [a])[..|own|] == own;
    }
  }

  /** So no review ever suppresses more findings of a key than were posted of it, whatever reviews came before it. */
  lemma ReviewsNeverSuppressMore(fold: string -> string, rows: seq<PostedRow>, wholePr: bool, w: WideKey,
                                 fs: seq<Finding>)
    ensures var adds := PostingsOfRows(rows, wholePr);
      SuppressedOf(fold, adds, fs, w) <= |PostingsOf(fold, adds, w)|
  {
    hide SuppressedOf, PostingsOf, Doubled, Unused, PostingsOfRows;
    var adds := PostingsOfRows(rows, wholePr);
    RowsFundOnce(rows, wholePr);
    NoneDoubled(fold, adds, w);
    SuppressedAtMostPostedIff(fold, adds, w);
  }

  /** In total, over all keys: postings of one key that fund nothing make up for another's that fund both tiers. */
  lemma TotalAtMostPostedIff(fold: string -> string, adds: seq<Posting>)
    ensures (forall fs ::
               Dedup(fold, fs, SameHeadBudget(fold, adds), PrWideBudget(fold, adds)).1 <= |adds|)
            <==> Doubled(adds) <= Unused(adds)
  {
    hide Dedup, SameHeadBudget, PrWideBudget, Doubled, Unused, Reposts;
    BudgetSizes(fold, adds);
    BudgetsAttained(fold, adds);
    forall fs
      ensures Dedup(fold, fs, SameHeadBudget(fold, adds), PrWideBudget(fold, adds)).1
              <= |SameHeadBudget(fold, adds)| + |PrWideBudget(fold, adds)|
    {
      SuppressedAtMost(fold, fs, SameHeadBudget(fold, adds), PrWideBudget(fold, adds));
    }
  }

  /** The smallest case: one posting with both flags suppresses two findings. */
  lemma OnePostingSuppressesTwo(fold: string -> string)
    ensures var a := Posting("a.rs", 1, "t", true, true);
      Dedup(fold, [Repost(a), Repost(a)], SameHeadBudget(fold, [a]), PrWideBudget(fold, [a])).1 == 2
  {
    hide DedupKey, PrDedupKey;
    var a := Posting("a.rs", 1, "t", true, true);
    BudgetsAttained(fold, [a]);
    assert [a][..0] == [];
    assert Reposts([a], true) + Reposts([a], false) == [Repost(a), Repost(a)];
  }
}
