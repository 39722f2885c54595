/**
 What the normal forms of a finding's path and title mean: a path up to its slashes and leading `./`s, a title up to
 the whitespace around its words.
 */
module ReviewForms {
  import opened Text
  import opened ReviewTypes

  // ---------- what a normal path is ----------

  predicate IsSlash(c: char) {
    c == '/' || c == '\\'
  }

  /**
   `n` is `path` without `i` leading `./` and `j` more slashes, of which no more follow, either slash taken as `/`.
   */
  predicate StripsTo(path: string, i: nat, j: nat, n: string) {
    && |path| == 2 * i + j + |n|
    && (forall k | 0 <= k < i :: path[2 * k] == '.' && IsSlash(path[2 * k + 1]))
    && (forall k | 2 * i <= k < 2 * i + j :: IsSlash(path[k]))
    && (forall k | 0 <= k < |n| ::
          n[k] == if IsSlash(path[2 * i + j + k]) then '/' else path[2 * i + j + k])
    && !("/" <= n) && (j == 0 ==> !("./" <= n))
  }

  /** The path up to the slash it uses, and up to leading `./`s and slashes. */
  ghost predicate NormalOf(path: string, n: string) {
    exists i: nat, j: nat :: StripsTo(path, i, j, n)
  }

  lemma {:induction false} DotSlashesStrip(s: string, i: nat)
    requires 2 * i <= |s| && forall k | 0 <= k < i :: s[2 * k] == '.' && s[2 * k + 1] == '/'
    requires !("./" <= s[2 * i..])
    ensures TrimDotSlashes(s) == s[2 * i..]
  {
    if i > 0 {
      var rest := s[2..];
      assert s[2 * 0] == '.' && s[2 * 0 + 1] == '/';
      forall k | 0 <= k < i - 1 ensures rest[2 * k] == '.' && rest[2 * k + 1] == '/' {
        assert rest[2 * k] == s[2 * (k + 1)] && rest[2 * k + 1] == s[2 * (k + 1) + 1];
      }
      assert rest[2 * (i - 1)..] == s[2 * i..];
      DotSlashesStrip(rest, i - 1);
    }
  }

  lemma {:induction false} SlashesStrip(s: string, j: nat)
    requires j <= |s| && (forall k | 0 <= k < j :: s[k] == '/') && !("/" <= s[j..])
    ensures TrimSlashes(s) == s[j..]
  {
    if j > 0 {
      assert s[1..][j - 1..] == s[j..];
      SlashesStrip(s[1..], j - 1);
    }
  }

  lemma {:induction false} DotSlashesCount(s: string) returns (i: nat)
    ensures 2 * i <= |s| && (forall k | 0 <= k < i :: s[2 * k] == '.' && s[2 * k + 1] == '/') && !("./" <= s[2 * i..])
  {
    i := 0;
    if |s| >= 2 && s[0] == '.' && s[1] == '/' {
      var rest := s[2..];
      var n := DotSlashesCount(rest);
      i := n + 1;
      forall k | 0 <= k < i ensures s[2 * k] == '.' && s[2 * k + 1] == '/' {
        if k > 0 {
          assert rest[2 * (k - 1)] == s[2 * k] && rest[2 * (k - 1) + 1] == s[2 * k + 1];
        }
      }
      assert rest[2 * n..] == s[2 * i..];
    }
  }

  lemma {:induction false} SlashesCount(s: string) returns (j: nat)
    ensures j <= |s| && (forall k | 0 <= k < j :: s[k] == '/') && !("/" <= s[j..])
  {
    j := 0;
    if s != [] && s[0] == '/' {
      var n := SlashesCount(s[1..]);
      j := n + 1;
      assert s[1..][n..] == s[j..];
    }
  }

  lemma StripsIs(path: string, i: nat, j: nat, n: string)
    requires StripsTo(path, i, j, n)
    ensures NormalizePath(path) == n
  {
    var s := ForwardSlashes(path);
    assert s[2 * i..][j..] == n;
    assert j > 0 ==> s[2 * i..][0] == '/';
    assert j == 0 ==> s[2 * i..] == n;
    assert forall k | 0 <= k < j :: s[2 * i..][k] == s[2 * i + k];
    DotSlashesStrip(s, i);
    SlashesStrip(s[2 * i..], j);
  }

  lemma Strip(path: string) returns (i: nat, j: nat, n: string)
    ensures StripsTo(path, i, j, n)
  {
    var s := ForwardSlashes(path);
    i := DotSlashesCount(s);
    var rest := s[2 * i..];
    j := SlashesCount(rest);
    n := rest[j..];
    forall k | 0 <= k < i ensures path[2 * k] == '.' && IsSlash(path[2 * k + 1]) {
      assert s[2 * k] == '.' && s[2 * k + 1] == '/';
    }
    forall k | 2 * i <= k < 2 * i + j ensures IsSlash(path[k]) {
      assert rest[k - 2 * i] == s[k];
    }
    forall k | 0 <= k < |n| ensures n[k] == if IsSlash(path[2 * i + j + k]) then '/' else path[2 * i + j + k] {
      assert n[k] == rest[j + k] == s[2 * i + j + k];
    }
  }

  /** Normalising a path gives the one normal form it has. */
  lemma NormalPathIs(path: string, n: string)
    ensures n == NormalizePath(path) <==> NormalOf(path, n)
  {
    hide NormalizePath, StripsTo;
    if NormalOf(path, n) {
      var i: nat, j: nat :| StripsTo(path, i, j, n);
      StripsIs(path, i, j, n);
    }
    var i, j, m := Strip(path);
    StripsIs(path, i, j, m);
  }

  // ---------- what the words of a title are ----------

  predicate IsWord(w: string) {
    w != [] && forall i | 0 <= i < |w| :: !IsWhitespace(w[i])
  }

  /** The word stands at `i`, with whitespace or an end on either side. */
  predicate WordAt(s: string, i: nat, w: string) {
    && IsWord(w) && i + |w| <= |s| && s[i..i + |w|] == w
    && (i == 0 || IsWhitespace(s[i - 1])) && (i + |w| == |s| || IsWhitespace(s[i + |w|]))
  }

  /** The words stand there, in this order, and all that is not whitespace is part of one. */
  ghost predicate SplitAt(s: string, words: seq<string>, at: seq<nat>) {
    && |at| == |words|
    && (forall k | 0 <= k < |words| :: WordAt(s, at[k], words[k]))
    && (forall k, l | 0 <= k < l < |words| :: at[k] < at[l])
    && forall i | 0 <= i < |s| && !IsWhitespace(s[i]) :: exists k | 0 <= k < |words| :: at[k] <= i < at[k] + |words[k]|
  }

  ghost predicate WordsOf(s: string, words: seq<string>) {
    exists at: seq<nat> :: SplitAt(s, words, at)
  }

  /** The words with a space between any two. */
  function Spaced(words: seq<string>): string {
    if words == [] then [] else if |words| == 1 then words[0] else words[0] + " " + Spaced(words[1..])
  }

  function Shifted(at: seq<nat>, d: nat): (r: seq<nat>)
    ensures |r| == |at| && forall k | 0 <= k < |at| :: r[k] == at[k] + d
  {
    seq(|at|, k requires 0 <= k < |at| => at[k] + d)
  }

  lemma WordFromSuffix(s: string, d: nat, i: nat, w: string)
    requires d <= |s| && (i > 0 || d == 0 || IsWhitespace(s[d - 1])) && WordAt(s[d..], i, w)
    ensures WordAt(s, d + i, w)
  {
    assert s[d..][i..i + |w|] == s[d + i..d + i + |w|];
  }

  lemma WordInSuffix(s: string, d: nat, i: nat, w: string)
    requires d <= i && WordAt(s, i, w)
    ensures WordAt(s[d..], i - d, w)
  {
    assert s[d..][i - d..i - d + |w|] == s[i..i + |w|];
  }

  /** A string that does not begin with a space begins with its first word. */
  lemma {:induction false} FirstWordIs(s: string)
    requires s != [] && !IsWhitespace(s[0])
    ensures WordAt(s, 0, FirstWord(s))
  {
    if |s| > 1 && !IsWhitespace(s[1]) {
      FirstWordIs(s[1..]);
      var w := FirstWord(s[1..]);
      assert s[..1 + |w|] == [s[0]] + s[1..][..|w|];
    } else if |s| > 1 {
      assert FirstWord(s[1..]) == [];
    } else {
      assert FirstWord(s[1..]) == [];
    }
  }

  lemma SameFirst(s: string, v: string, w: string)
    requires WordAt(s, 0, v) && WordAt(s, 0, w)
    ensures v == w
  {
    assert s[0..|v|] == s[..|v|] && s[0..|w|] == s[..|w|];
  }

  lemma SplitOfSuffix(s: string, d: nat, words: seq<string>, at: seq<nat>)
    requires d <= |s| && SplitAt(s, words, Shifted(at, d))
    ensures SplitAt(s[d..], words, at)
  {
    hide WordAt, Shifted, IsWhitespace;
    forall k | 0 <= k < |words| ensures WordAt(s[d..], at[k], words[k]) {
      WordInSuffix(s, d, at[k] + d, words[k]);
    }
    forall i | 0 <= i < |s[d..]| && !IsWhitespace(s[d..][i])
      ensures exists k | 0 <= k < |words| :: at[k] <= i < at[k] + |words[k]|
    {
      assert s[d..][i] == s[i + d];
      var k :| 0 <= k < |words| && Shifted(at, d)[k] <= i + d < Shifted(at, d)[k] + |words[k]|;
      assert at[k] <= i < at[k] + |words[k]|;
    }
    forall k, l | 0 <= k < l < |words| ensures at[k] < at[l] {
      assert Shifted(at, d)[k] < Shifted(at, d)[l];
    }
  }

  /** What stands after the first word stands behind it. */
  lemma LaterWord(s: string, w: string, i: nat, v: string)
    requires WordAt(s, 0, w) && WordAt(s, i, v) && i > 0
    ensures i > |w|
  {
    assert s[..|w|] == s[0..0 + |w|] == w;
  }

  lemma FirstIsFirst(s: string, words: seq<string>, at: seq<nat>)
    requires SplitAt(s, words, at) && s != [] && !IsWhitespace(s[0])
    ensures words != [] && at[0] == 0 && words[0] == FirstWord(s)
    ensures forall k | 0 < k < |words| :: at[k] > |words[0]|
  {
    FirstWordIs(s);
    SameFirst(s, FirstWord(s), words[0]);
    forall k | 0 < k < |words| ensures at[k] > |words[0]| {
      LaterWord(s, words[0], at[k], words[k]);
    }
  }

  lemma SkipOne(s: string)
    requires s != [] && IsWhitespace(s[0])
    ensures OneLine(s) == OneLine(s[1..])
  {
  }

  lemma NoSkip(s: string)
    requires s != [] && !IsWhitespace(s[0])
    ensures FirstWord(s) <= s
    ensures var word, rest := FirstWord(s), OneLine(s[|FirstWord(s)|..]);
      OneLine(s) == if rest == [] then word else word + " " + rest
  {
    FirstWordIs(s);
    assert SkipSpace(s) == s;
  }

  /** Whatever the words of a title are, on one line it is those words with a space between any two. */
  lemma {:induction false} OneLineIs(s: string, words: seq<string>, at: seq<nat>)
    requires SplitAt(s, words, at)
    ensures OneLine(s) == Spaced(words)
    decreases |s|
  {
    hide OneLine, FirstWord, WordAt;
    if s == [] {
      NoWords(words, at);
    } else if IsWhitespace(s[0]) {
      forall k | 0 <= k < |at| ensures at[k] > 0 {
        NotOnSpace(s, at[k], words[k]);
      }
      var back := seq(|at|, k requires 0 <= k < |at| => at[k] - 1);
      assert Shifted(back, 1) == at;
      SplitOfSuffix(s, 1, words, back);
      OneLineIs(s[1..], words, back);
      SkipOne(s);
    } else {
      FirstIsFirst(s, words, at);
      NoSkip(s);
      var d := |words[0]|;
      WithoutFirst(s, words, at);
      var back := seq(|at| - 1, k requires 0 <= k < |at| - 1 => at[k + 1] - d);
      OneLineIs(s[d..], words[1..], back);
      SplitsIntoWords(s, words, at);
      SpacedWords(words[1..]);
    }
  }

  lemma WithoutFirst(s: string, words: seq<string>, at: seq<nat>)
    requires SplitAt(s, words, at) && words != [] && at[0] == 0 && |words[0]| <= |s|
    requires forall k | 0 < k < |words| :: at[k] > |words[0]|
    ensures SplitAt(s[|words[0]|..], words[1..],
                    seq(|at| - 1, k requires 0 <= k < |at| - 1 => at[k + 1] - |words[0]|))
  {
    hide WordAt, IsWhitespace;
    var d := |words[0]|;
    var back := seq(|at| - 1, k requires 0 <= k < |at| - 1 => at[k + 1] - d);
    forall k | 0 <= k < |words| - 1 ensures WordAt(s[d..], back[k], words[1..][k]) {
      WordInSuffix(s, d, at[k + 1], words[k + 1]);
    }
    forall i | 0 <= i < |s[d..]| && !IsWhitespace(s[d..][i])
      ensures exists k | 0 <= k < |words| - 1 :: back[k] <= i < back[k] + |words[1..][k]|
    {
      assert s[d..][i] == s[i + d];
      var k :| 0 <= k < |words| && at[k] <= i + d < at[k] + |words[k]|;
      assert k > 0 && back[k - 1] == at[k] - d && words[1..][k - 1] == words[k];
    }
  }

  lemma NotOnSpace(s: string, i: nat, w: string)
    requires WordAt(s, i, w)
    ensures i < |s| && !IsWhitespace(s[i])
  {
    assert s[i..i + |w|][0] == w[0];
  }

  lemma NoWords(words: seq<string>, at: seq<nat>)
    requires SplitAt([], words, at)
    ensures words == [] && OneLine([]) == Spaced(words)
  {
    assert words != [] ==> WordAt([], at[0], words[0]);
  }

  lemma SpacedWords(words: seq<string>)
    requires forall k | 0 <= k < |words| :: IsWord(words[k])
    ensures Spaced(words) == [] <==> words == []
  {
  }

  /** Every string has words. */
  lemma {:induction false} HasWords(s: string) returns (words: seq<string>, at: seq<nat>)
    ensures SplitAt(s, words, at)
    decreases |s|
  {
    hide FirstWord, WordAt;
    if s == [] {
      words, at := [], [];
    } else if IsWhitespace(s[0]) {
      words, at := HasWords(s[1..]);
      SplitOfWhole(s, 1, words, at);
      at := Shifted(at, 1);
    } else {
      FirstWordIs(s);
      var w := FirstWord(s);
      WordFits(s, w);
      var rest, later := HasWords(s[|w|..]);
      AddFirst(s, w, rest, later);
      words, at := [w] + rest, [0] + Shifted(later, |w|);
    }
  }

  lemma WordFits(s: string, w: string)
    requires WordAt(s, 0, w)
    ensures 0 < |w| <= |s|
    ensures |w| == |s| || IsWhitespace(s[|w|])
  {
  }

  lemma SplitOfWhole(s: string, d: nat, words: seq<string>, at: seq<nat>)
    requires 0 < d <= |s| && SplitAt(s[d..], words, at) && forall i | 0 <= i < d :: IsWhitespace(s[i])
    ensures SplitAt(s, words, Shifted(at, d))
  {
    hide WordAt;
    forall k | 0 <= k < |words| ensures WordAt(s, at[k] + d, words[k]) {
      WordFromSuffix(s, d, at[k], words[k]);
    }
    forall i | 0 <= i < |s| && !IsWhitespace(s[i])
      ensures exists k | 0 <= k < |words| :: Shifted(at, d)[k] <= i < Shifted(at, d)[k] + |words[k]|
    {
      assert s[d..][i - d] == s[i];
      var k :| 0 <= k < |words| && at[k] <= i - d < at[k] + |words[k]|;
      assert Shifted(at, d)[k] == at[k] + d;
    }
  }

  lemma AddFirst(s: string, w: string, rest: seq<string>, later: seq<nat>)
    requires WordAt(s, 0, w) && SplitAt(s[|w|..], rest, later)
    ensures SplitAt(s, [w] + rest, [0] + Shifted(later, |w|))
  {
    hide WordAt;
    WordFits(s, w);
    var d, words, at := |w|, [w] + rest, [0] + Shifted(later, |w|);
    forall k | 0 <= k < |words| ensures WordAt(s, at[k], words[k]) {
      if k > 0 {
        NotOnSpace(s[d..], later[k - 1], rest[k - 1]);
        WordFromSuffix(s, d, later[k - 1], rest[k - 1]);
      }
    }
    forall i | 0 <= i < |s| && !IsWhitespace(s[i])
      ensures exists k | 0 <= k < |words| :: at[k] <= i < at[k] + |words[k]|
    {
      if i < d {
        assert at[0] <= i < at[0] + |words[0]|;
      } else {
        assert s[d..][i - d] == s[i];
        var k :| 0 <= k < |rest| && later[k] <= i - d < later[k] + |rest[k]|;
        assert at[k + 1] == later[k] + d && words[k + 1] == rest[k];
      }
    }
  }

  lemma SpacedBegins(words: seq<string>)
    requires words != [] && forall k | 0 <= k < |words| :: IsWord(words[k])
    ensures WordAt(Spaced(words), 0, words[0])
    ensures |words| > 1 ==> Spaced(words)[|words[0]| + 1..] == Spaced(words[1..])
  {
    var s, w := Spaced(words), words[0];
    assert s[..|w|] == w;
  }

  /** Different words make different lines. */
  lemma {:induction false} SpacedInjective(v: seq<string>, w: seq<string>)
    requires (forall k | 0 <= k < |v| :: IsWord(v[k])) && forall k | 0 <= k < |w| :: IsWord(w[k])
    requires Spaced(v) == Spaced(w)
    ensures v == w
  {
    hide WordAt;
    SpacedWords(v);
    SpacedWords(w);
    if v != [] {
      SpacedBegins(v);
      SpacedBegins(w);
      SameFirst(Spaced(v), v[0], w[0]);
      if |v| > 1 && |w| > 1 {
        SpacedInjective(v[1..], w[1..]);
      }
    }
  }

  lemma SplitsIntoWords(s: string, words: seq<string>, at: seq<nat>)
    requires SplitAt(s, words, at)
    ensures forall k | 0 <= k < |words| :: IsWord(words[k])
  {
  }

  /** Two titles come to one line if and only if they have the same words in the same order. */
  lemma OneLineAgreesIff(s: string, t: string)
    ensures OneLine(s) == OneLine(t) <==> exists words :: WordsOf(s, words) && WordsOf(t, words)
  {
    hide OneLine, SplitAt;
    if words :| WordsOf(s, words) && WordsOf(t, words) {
      var at: seq<nat> :| SplitAt(s, words, at);
      var on: seq<nat> :| SplitAt(t, words, on);
      OneLineIs(s, words, at);
      OneLineIs(t, words, on);
    }
    var v, at := HasWords(s);
    var w, on := HasWords(t);
    OneLineIs(s, v, at);
    OneLineIs(t, w, on);
    SplitsIntoWords(s, v, at);
    SplitsIntoWords(t, w, on);
    if Spaced(v) == Spaced(w) {
      SpacedInjective(v, w);
      assert WordsOf(s, v) && WordsOf(t, v);
    }
  }
}
