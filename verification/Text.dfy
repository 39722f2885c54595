/**
 Strings as sequences of Unicode scalar values, with the pieces of the Rust string library the modelled code relies
 on. `Utf8Len` is Rust's `str::len`, a count of bytes.
 */
module Text {
  import opened Wrappers

  /** Bytes one scalar value takes in UTF-8 (section 3 of RFC 3629). */
  function Width(c: char): (w: nat)
    ensures 1 <= w <= 4
  {
    if c as int < 0x80 then 1 else if c as int < 0x800 then 2 else if c as int < 0x1_0000 then 3 else 4
  }

  function Utf8Len(s: string): nat {
    if s == [] then 0 else Width(s[0]) + Utf8Len(s[1..])
  }

  lemma {:induction false} Utf8LenConcat(a: string, b: string)
    ensures Utf8Len(a + b) == Utf8Len(a) + Utf8Len(b)
  {
    if a == [] {
      assert a + b == b;
    } else {
      assert (a + b)[1..] == a[1..] + b;
      Utf8LenConcat(a[1..], b);
    }
  }

  /** The White_Space property, which `char::is_whitespace` tests. */
  predicate IsWhitespace(c: char) {
    || '\t' <= c <= '\r' || c == ' ' || c == '\U{0085}' || c == '\U{00A0}' || c == '\U{1680}'
    || '\U{2000}' <= c <= '\U{200A}' || c == '\U{2028}' || c == '\U{2029}' || c == '\U{202F}'
    || c == '\U{205F}' || c == '\U{3000}'
  }

  function TrimStart(s: string): string {
    if s != [] && IsWhitespace(s[0]) then TrimStart(s[1..]) else s
  }

  function TrimEnd(s: string): string {
    if s != [] && IsWhitespace(s[|s| - 1]) then TrimEnd(s[..|s| - 1]) else s
  }

  function Trim(s: string): string {
    TrimEnd(TrimStart(s))
  }

  predicate Trimmed(s: string) {
    s == [] || (!IsWhitespace(s[0]) && !IsWhitespace(s[|s| - 1]))
  }

  lemma TrimOfTrimmed(s: string)
    requires Trimmed(s)
    ensures Trim(s) == s
  {
  }

  lemma {:induction false} TrimStartShrinks(s: string)
    ensures |TrimStart(s)| <= |s| && forall c | c in TrimStart(s) :: c in s
  {
    if s != [] && IsWhitespace(s[0]) {
      TrimStartShrinks(s[1..]);
    }
  }

  lemma {:induction false} TrimEndShrinks(s: string)
    ensures |TrimEnd(s)| <= |s| && forall c | c in TrimEnd(s) :: c in s
  {
    if s != [] && IsWhitespace(s[|s| - 1]) {
      TrimEndShrinks(s[..|s| - 1]);
    }
  }

  lemma TrimShrinks(s: string)
    ensures |Trim(s)| <= |s| && forall c | c in Trim(s) :: c in s
  {
    TrimStartShrinks(s);
    TrimEndShrinks(TrimStart(s));
  }

  predicate Blank(s: string) {
    forall i | 0 <= i < |s| :: IsWhitespace(s[i])
  }

  /** `t` is what is left of `s` between whitespace, and has none at its own ends. */
  ghost predicate TrimmedTo(s: string, t: string) {
    Trimmed(t) && exists i: nat, n: nat | i <= n <= |s| :: t == s[i..n] && Blank(s[..i]) && Blank(s[n..])
  }

  lemma {:induction false} TrimStartIs(s: string, i: nat)
    requires i <= |s| && Blank(s[..i]) && (i < |s| ==> !IsWhitespace(s[i]))
    ensures TrimStart(s) == s[i..]
  {
    if i > 0 {
      assert s[0] == s[..i][0] && s[1..][i - 1..] == s[i..];
      forall k | 0 <= k < i - 1 ensures IsWhitespace(s[1..][k]) {
        assert s[1..][k] == s[..i][k + 1];
      }
      TrimStartIs(s[1..], i - 1);
    }
  }

  lemma {:induction false} TrimEndIs(s: string, n: nat)
    requires n <= |s| && Blank(s[n..]) && (n > 0 ==> !IsWhitespace(s[n - 1]))
    ensures TrimEnd(s) == s[..n]
  {
    if n < |s| {
      var front := s[..|s| - 1];
      assert s[|s| - 1] == s[n..][|s| - 1 - n] && front[..n] == s[..n];
      assert forall k | 0 <= k < |front[n..]| :: front[n..][k] == s[n..][k];
      TrimEndIs(front, n);
    } else {
      assert s[..n] == s;
    }
  }

  lemma {:induction false} TextStarts(s: string) returns (i: nat)
    ensures i <= |s| && Blank(s[..i]) && (i < |s| ==> !IsWhitespace(s[i]))
  {
    i := 0;
    if s != [] && IsWhitespace(s[0]) {
      i := TextStarts(s[1..]);
      forall k | 0 < k < i + 1 ensures IsWhitespace(s[k]) {
        assert s[k] == s[1..][..i][k - 1];
      }
      i := i + 1;
    }
  }

  lemma {:induction false} TextEnds(s: string) returns (n: nat)
    ensures n <= |s| && Blank(s[n..]) && (n > 0 ==> !IsWhitespace(s[n - 1]))
  {
    n := |s|;
    if s != [] && IsWhitespace(s[n - 1]) {
      var front := s[..|s| - 1];
      n := TextEnds(front);
      assert forall k | 0 <= k < |front| - n :: s[n..][k] == front[n..][k];
    }
  }

  lemma TextBetween(s: string, i: nat, n: nat)
    requires i <= n <= |s| && Trimmed(s[i..n]) && Blank(s[..i]) && Blank(s[n..])
    ensures Trim(s) == s[i..n]
  {
    hide TrimStart, TrimEnd, IsWhitespace;
    if i == n {
      BlankWhole(s, i);
      TrimStartIs(s, |s|);
      TrimEndIs([], 0);
    } else {
      assert s[i..n][0] == s[i] && s[i..n][n - i - 1] == s[n - 1];
      TrimStartIs(s, i);
      assert s[i..][n - i..] == s[n..] && s[i..][..n - i] == s[i..n];
      TrimEndIs(s[i..], n - i);
    }
  }

  lemma TrimLeaves(s: string)
    ensures TrimmedTo(s, Trim(s))
  {
    hide TrimStart, TrimEnd, IsWhitespace;
    var i := TextStarts(s);
    var n := TextEnds(s[i..]);
    TrimStartIs(s, i);
    TrimEndIs(s[i..], n);
    assert s[i..][..n] == s[i..i + n] && s[i..][n..] == s[i + n..];
    assert n > 0 ==> s[i..i + n][0] == s[i] && s[i..i + n][n - 1] == s[i..][n - 1];
  }

  /** Trimming leaves the one text between the whitespace at either end. */
  lemma TrimIs(s: string, t: string)
    ensures t == Trim(s) <==> TrimmedTo(s, t)
  {
    hide Trim, Trimmed, Blank;
    TrimLeaves(s);
    if TrimmedTo(s, t) {
      var i: nat, n: nat :| i <= n <= |s| && t == s[i..n] && Blank(s[..i]) && Blank(s[n..]);
      TextBetween(s, i, n);
    }
  }

  lemma BlankWhole(s: string, i: nat)
    requires i <= |s| && Blank(s[..i]) && Blank(s[i..])
    ensures s == s[..|s|] && Blank(s)
  {
    forall k | 0 <= k < |s| ensures IsWhitespace(s[k]) {
      if k < i {
        assert s[k] == s[..i][k];
      } else {
        assert s[k] == s[i..][k - i];
      }
    }
  }

  lemma BlankTrims(s: string)
    ensures Trim(s) == [] <==> Blank(s)
  {
    TrimIs(s, []);
    if Blank(s) {
      assert [] == s[0..0] && s[..0] == [] && s[0..] == s;
    } else if TrimmedTo(s, []) {
      var i: nat, n: nat :| i <= n <= |s| && [] == s[i..n] && Blank(s[..i]) && Blank(s[n..]);
      BlankWhole(s, i);
    }
  }

  /** `needle` occurs in `s` at position `i`. */
  predicate OccursAt(s: string, needle: string, i: nat) {
    i + |needle| <= |s| && s[i..i + |needle|] == needle
  }

  predicate Contains(s: string, needle: string) {
    exists i: nat | i <= |s| :: OccursAt(s, needle, i)
  }

  /** First occurrence of `needle` at or after `from`. */
  function FindFrom(s: string, needle: string, from: nat): (at: Option<nat>)
    ensures at.Some? ==> from <= at.value && OccursAt(s, needle, at.value)
    ensures at.Some? ==> forall j: nat | from <= j < at.value :: !OccursAt(s, needle, j)
    ensures at.None? ==> forall j: nat | from <= j :: !OccursAt(s, needle, j)
    decreases |s| - from
  {
    if from + |needle| > |s| then None
    else if OccursAt(s, needle, from) then Some(from)
    else FindFrom(s, needle, from + 1)
  }

  /** Last occurrence of `needle` before `until`. */
  function FindBefore(s: string, needle: string, until: nat): (at: Option<nat>)
    ensures at.Some? ==> at.value < until && OccursAt(s, needle, at.value)
    ensures at.Some? ==> forall j: nat | at.value < j < until :: !OccursAt(s, needle, j)
    ensures at.None? ==> forall j: nat | j < until :: !OccursAt(s, needle, j)
  {
    if until == 0 then None
    else if OccursAt(s, needle, until - 1) then Some(until - 1)
    else FindBefore(s, needle, until - 1)
  }

  /** `str::split_once`: what lies around the first `separator`. */
  function SplitOnce(s: string, separator: string): Option<(string, string)> {
    match FindFrom(s, separator, 0)
    case Some(i) => Some((s[..i], s[i + |separator|..]))
    case None => None
  }

  /** `str::rsplit_once`: what lies around the last `separator`. */
  function SplitLast(s: string, separator: string): Option<(string, string)> {
    match FindBefore(s, separator, |s| + 1)
    case Some(i) => Some((s[..i], s[i + |separator|..]))
    case None => None
  }

  /** A separator that nothing before it completes is first found where it was put. */
  lemma FoundWherePut(a: string, separator: string, b: string)
    requires !Contains(a, separator)
    requires forall i | 0 <= i < |a| && |a| < i + |separator| :: !OccursAt(a + separator + b, separator, i)
    ensures FindFrom(a + separator + b, separator, 0) == Some(|a|)
    ensures SplitOnce(a + separator + b, separator) == Some((a, b))
  {
    var s := a + separator + b;
    assert s[|a|..|a| + |separator|] == separator;
    assert OccursAt(s, separator, |a|);
    forall i: nat | i < |a| ensures !OccursAt(s, separator, i) {
      if i + |separator| <= |a| {
        assert s[i..i + |separator|] == a[i..i + |separator|];
        assert !OccursAt(a, separator, i);
      }
    }
    assert s[..|a|] == a && s[|a| + |separator|..] == b;
  }

  /** `str::split`: the pieces between occurrences of `separator`, found from the left. */
  function SplitBy(s: string, separator: string): (pieces: seq<string>)
    requires separator != []
    ensures pieces != []
    decreases |s|
  {
    match FindFrom(s, separator, 0)
    case Some(i) => [s[..i]] + SplitBy(s[i + |separator|..], separator)
    case None => [s]
  }

  /** Decimal digits of a natural number, most significant first, as Rust formats an integer. */
  function Decimal(n: nat): (s: string)
    ensures s != [] && forall c | c in s :: IsDigit(c)
  {
    if n < 10 then [DigitChar(n)] else Decimal(n / 10) + [DigitChar(n % 10)]
  }

  predicate IsDigit(c: char) {
    '0' <= c <= '9'
  }

  function DigitChar(d: nat): (c: char)
    requires d < 10
    ensures IsDigit(c) && c as int - '0' as int == d
  {
    '0' + d as char
  }

  function DigitValue(c: char): (d: nat)
    requires IsDigit(c)
    ensures d < 10 && DigitChar(d) == c
  {
    (c - '0') as nat
  }

  /** The number a string of digits denotes. */
  function FromDigits(s: string): nat
    requires forall c | c in s :: IsDigit(c)
  {
    if s == [] then 0 else FromDigits(s[..|s| - 1]) * 10 + DigitValue(s[|s| - 1])
  }

  lemma {:induction false} DecimalRoundTrip(n: nat)
    ensures FromDigits(Decimal(n)) == n
  {
    if n >= 10 {
      DecimalRoundTrip(n / 10);
      assert Decimal(n)[..|Decimal(n)| - 1] == Decimal(n / 10);
    }
  }

  /** How many digits `s` starts with. */
  function DigitRun(s: string): nat {
    if s == [] || !IsDigit(s[0]) then 0 else 1 + DigitRun(s[1..])
  }

  lemma {:induction false} DigitRunOfPrefix(a: string, x: string)
    requires forall c | c in a :: IsDigit(c)
    requires x == [] || !IsDigit(x[0])
    ensures DigitRun(a + x) == |a|
  {
    if a == [] {
      assert a + x == x;
    } else {
      assert (a + x)[1..] == a[1..] + x;
      DigitRunOfPrefix(a[1..], x);
    }
  }

  /** A run of digits followed by a non-digit is recovered from the concatenation. */
  lemma DigitPrefixUnique(a: string, x: string, b: string, y: string)
    requires forall c | c in a :: IsDigit(c)
    requires forall c | c in b :: IsDigit(c)
    requires x == [] || !IsDigit(x[0])
    requires y == [] || !IsDigit(y[0])
    requires a + x == b + y
    ensures a == b && x == y
  {
    DigitRunOfPrefix(a, x);
    DigitRunOfPrefix(b, y);
    assert a == (a + x)[..|a|] == (b + y)[..|b|] == b;
    assert x == (a + x)[|a|..] == (b + y)[|b|..] == y;
  }

  /** Position of the first `c`. */
  function FindChar(s: string, c: char): (at: Option<nat>)
    ensures at.Some? ==> at.value < |s| && s[at.value] == c && c !in s[..at.value]
    ensures at.None? ==> c !in s
  {
    if s == [] then None
    else if s[0] == c then Some(0)
    else match FindChar(s[1..], c) case Some(i) => Some(i + 1) case None => None
  }

  function StripCarriageReturn(s: string): string {
    if s != [] && s[|s| - 1] == '\r' then s[..|s| - 1] else s
  }

  /** `str::lines`: a line ends at a newline, which may follow a carriage return; the rest is a last line. */
  function Lines(s: string): seq<string> {
    if s == [] then []
    else match FindChar(s, '\n')
      case Some(i) => [StripCarriageReturn(s[..i])] + Lines(s[i + 1..])
      case None => [s]
  }

  lemma {:induction false} FindCharAfter(a: string, c: char, b: string)
    requires c !in a
    ensures FindChar(a + [c] + b, c) == Some(|a|)
  {
    if a == [] {
      assert a + [c] + b == [c] + b;
    } else {
      assert (a + [c] + b)[1..] == a[1..] + [c] + b;
      assert (a + [c] + b)[0] == a[0];
      FindCharAfter(a[1..], c, b);
    }
  }

  lemma LinesCons(line: string, rest: string)
    requires '\n' !in line
    ensures Lines(line + "\n" + rest) == [StripCarriageReturn(line)] + Lines(rest)
  {
    var s := line + "\n" + rest;
    FindCharAfter(line, '\n', rest);
    assert s[..|line|] == line && s[|line| + 1..] == rest;
  }

  lemma NoLines()
    ensures Lines([]) == []
  {
  }

  /** Text that ends its last line is read line by line before what follows. */
  lemma {:induction false} LinesConcat(a: string, b: string)
    requires a == [] || a[|a| - 1] == '\n'
    ensures Lines(a + b) == Lines(a) + Lines(b)
    decreases |a|
  {
    hide Lines, FindChar, StripCarriageReturn;
    if a == [] {
      NoLines();
      assert a + b == b;
    } else {
      var i := FindChar(a, '\n').value;
      var line, rest := a[..i], a[i + 1..];
      assert a == line + "\n" + rest && a + b == line + "\n" + (rest + b);
      assert rest != [] ==> rest[|rest| - 1] == a[|a| - 1];
      LinesCons(line, rest);
      LinesCons(line, rest + b);
      LinesConcat(rest, b);
    }
  }

  lemma {:induction false} LinesHaveNoNewline(s: string)
    ensures forall line | line in Lines(s) :: '\n' !in line
    decreases |s|
  {
    if s != [] && FindChar(s, '\n').Some? {
      LinesHaveNoNewline(s[FindChar(s, '\n').value + 1..]);
    }
  }

  lemma LastLine(line: string)
    requires '\n' !in line && line != []
    ensures Lines(line) == [line]
  {
  }

  /** The largest number a `u32` holds. */
  const U32_MAX := 0xFFFF_FFFF

  type u32 = n: int | 0 <= n <= U32_MAX

  /** `str::parse::<u32>`: an optional plus sign, then digits denoting a number in range. */
  function ParseU32(s: string): Option<nat> {
    var digits := if s != [] && s[0] == '+' then s[1..] else s;
    if digits != [] && (forall c | c in digits :: IsDigit(c)) && FromDigits(digits) <= U32_MAX
    then Some(FromDigits(digits)) else None
  }

  lemma ParseDecimal(n: nat)
    requires n <= U32_MAX
    ensures ParseU32(Decimal(n)) == Some(n)
  {
    DecimalRoundTrip(n);
    assert Decimal(n)[0] in Decimal(n);
  }
}
