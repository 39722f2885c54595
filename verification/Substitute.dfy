/** The environment-reference grammar of configuration strings, and substitution by it. */
module Substitute {
  import opened Wrappers
  import opened Text

  const OPEN := "{env:"
  const DEFAULT_SEPARATOR := ":-"

  type Lookup = string -> Option<string>

  /** What a reference with this body stands for: the variable, else the inline default, else nothing. */
  function ValueOf(body: string, lookup: Lookup): string {
    match SplitOnce(body, DEFAULT_SEPARATOR)
    case Some((name, fallback)) => lookup(Trim(name)).GetOr(fallback)
    case None => lookup(Trim(body)).GetOr("")
  }

  /** A string taken apart: literal text each followed by a reference, then the rest. */
  datatype Template = Template(segments: seq<Segment>, tail: string)

  datatype Segment = Segment(literal: string, body: string)

  function PrintSegment(s: Segment): string {
    s.literal + OPEN + s.body + "}"
  }

  function Print(t: Template): string
    decreases |t.segments|
  {
    if t.segments == [] then t.tail
    else PrintSegment(t.segments[0]) + Print(Template(t.segments[1..], t.tail))
  }

  /** The template with every reference replaced by its value. */
  function Render(t: Template, lookup: Lookup): string
    decreases |t.segments|
  {
    if t.segments == [] then t.tail
    else t.segments[0].literal + ValueOf(t.segments[0].body, lookup) + Render(Template(t.segments[1..], t.tail), lookup)
  }

  /** No opening marker, or one that nothing closes. */
  predicate Unreferenced(s: string) {
    match FindFrom(s, OPEN, 0)
    case None => true
    case Some(i) => FindChar(s[i + |OPEN|..], '}').None?
  }

  ghost predicate Wellformed(t: Template) {
    && (forall s | s in t.segments :: !Contains(s.literal, OPEN) && '}' !in s.body)
    && Unreferenced(t.tail)
  }

  /** The leftmost reference of `s` with the text around it. */
  function FirstReference(s: string): (r: Option<(Segment, string)>)
    ensures r.Some? ==> |r.value.1| < |s|
  {
    match FindFrom(s, OPEN, 0)
    case None => None
    case Some(i) =>
      var after := s[i + |OPEN|..];
      match FindChar(after, '}')
      case None => None
      case Some(end) => Some((Segment(s[..i], after[..end]), after[end + 1..]))
  }

  function Parse(s: string): Template
    decreases |s|
  {
    match FirstReference(s)
    case None => Template([], s)
    case Some((segment, rest)) =>
      var t := Parse(rest);
      Template([segment] + t.segments, t.tail)
  }

  /** Substitute every reference of `input`. */
  method SubstituteWith(input: string, lookup: Lookup) returns (out: string)
    ensures out == Render(Parse(input), lookup)
  {
    hide FindFrom, FindChar, ValueOf, Parse, Render;
    out := "";
    var rest := input;
    var start := FindFrom(rest, OPEN, 0);
    while start.Some?
      invariant out + Render(Parse(rest), lookup) == Render(Parse(input), lookup)
      invariant start == FindFrom(rest, OPEN, 0)
      decreases |rest|
    {
      var literal := rest[..start.value];
      var after := rest[start.value + |OPEN|..];
      var end := FindChar(after, '}');
      if end.None? {
        RenderPlain(rest, lookup);
        assert literal + rest[start.value..] == rest;
        return out + literal + rest[start.value..];
      }
      var body := after[..end.value];
      var value := ValueOf(body, lookup);
      assert FirstReference(rest) == Some((Segment(literal, body), after[end.value + 1..]));
      RenderFirst(rest, lookup);
      out := out + literal + value;
      rest := after[end.value + 1..];
      start := FindFrom(rest, OPEN, 0);
    }
    RenderPlain(rest, lookup);
    out := out + rest;
  }

  lemma RenderPlain(s: string, lookup: Lookup)
    requires FirstReference(s).None?
    ensures Render(Parse(s), lookup) == s
  {
    hide FirstReference;
  }

  lemma RenderFirst(s: string, lookup: Lookup)
    requires FirstReference(s).Some?
    ensures var (segment, rest) := FirstReference(s).value;
      Render(Parse(s), lookup) == segment.literal + ValueOf(segment.body, lookup) + Render(Parse(rest), lookup)
  {
    hide FirstReference, ValueOf;
  }

  // ---------- every string is one template, and only one ----------

  lemma FirstReferencePrints(s: string)
    requires FirstReference(s).Some?
    ensures var (segment, rest) := FirstReference(s).value;
      s == PrintSegment(segment) + rest && !Contains(segment.literal, OPEN) && '}' !in segment.body
  {
    var i := FindFrom(s, OPEN, 0).value;
    forall j: nat | j + |OPEN| <= i ensures !OccursAt(s[..i], OPEN, j) {
      assert s[..i][j..j + |OPEN|] == s[j..j + |OPEN|];
      assert !OccursAt(s, OPEN, j);
    }
  }

  lemma {:induction false} ParsePrints(s: string)
    ensures Print(Parse(s)) == s && Wellformed(Parse(s))
    decreases |s|
  {
    hide Contains, FindFrom, FindChar, PrintSegment;
    if FirstReference(s).Some? {
      var (segment, rest) := FirstReference(s).value;
      FirstReferencePrints(s);
      ParsePrints(rest);
      assert Parse(s).segments[1..] == Parse(rest).segments;
    }
  }

  lemma SegmentIsFirst(segment: Segment, rest: string)
    requires !Contains(segment.literal, OPEN) && '}' !in segment.body
    ensures FirstReference(PrintSegment(segment) + rest) == Some((segment, rest))
  {
    hide FindFrom, FindChar, Contains;
    var n, s := |segment.literal|, PrintSegment(segment) + rest;
    var after := segment.body + ['}'] + rest;
    assert s == segment.literal + OPEN + after;
    OpensWherePut(segment.literal, after);
    assert s[..n] == segment.literal && s[n + |OPEN|..] == after;
    FindCharAfter(segment.body, '}', rest);
    assert after[..|segment.body|] == segment.body && after[|segment.body| + 1..] == rest;
  }

  lemma OpensWherePut(literal: string, after: string)
    requires !Contains(literal, OPEN)
    ensures FindFrom(literal + OPEN + after, OPEN, 0) == Some(|literal|)
  {
    hide FindFrom, Contains;
    var n, s := |literal|, literal + OPEN + after;
    forall j | 0 <= j < n && n < j + |OPEN| ensures !OccursAt(s, OPEN, j) {
      if j + |OPEN| <= |s| {
        assert s[j..j + |OPEN|][n - j] == s[n] == '{';
      }
    }
    FoundWherePut(literal, OPEN, after);
  }

  lemma {:induction false} PrintParses(t: Template)
    requires Wellformed(t)
    ensures Parse(Print(t)) == t
    decreases |t.segments|
  {
    hide Contains, FindFrom, FindChar, PrintSegment;
    if t.segments == [] {
      UnreferencedIffNone(t.tail);
    } else {
      var rest := Template(t.segments[1..], t.tail);
      SegmentIsFirst(t.segments[0], Print(rest));
      PrintParses(rest);
      assert t.segments == [t.segments[0]] + t.segments[1..];
    }
  }

  lemma UnreferencedIffNone(s: string)
    ensures Unreferenced(s) <==> FirstReference(s).None?
  {
  }

  /**
   Substituting a printed template renders each of its segments once: looked-up values and defaults are not scanned
   again, and a tail that closes no reference is kept as it is.
   */
  lemma SubstitutionRoundTrip(t: Template, lookup: Lookup)
    requires Wellformed(t)
    ensures Render(Parse(Print(t)), lookup) == Render(t, lookup)
  {
    PrintParses(t);
  }

  // ---------- what a reference names ----------

  /** The body of a reference to `name` with an optional inline default. */
  function PrintBody(name: string, fallback: Option<string>): string {
    name + match fallback case Some(text) => DEFAULT_SEPARATOR + text case None => ""
  }

  /** A reference looks its trimmed name up first, then takes its default, then nothing. */
  lemma ReferenceMeans(name: string, fallback: Option<string>, lookup: Lookup)
    requires !Contains(name, DEFAULT_SEPARATOR)
    ensures ValueOf(PrintBody(name, fallback), lookup) == lookup(Trim(name)).GetOr(fallback.GetOr(""))
  {
    hide Trim;
    match fallback
    case None =>
      assert PrintBody(name, fallback) == name;
      assert forall i: nat | i <= |name| :: !OccursAt(name, DEFAULT_SEPARATOR, i);
    case Some(text) =>
      var body := PrintBody(name, fallback);
      assert body == name + DEFAULT_SEPARATOR + text;
      forall i | 0 <= i < |name| && |name| < i + 2 ensures !OccursAt(body, DEFAULT_SEPARATOR, i) {
        assert body[i..i + 2][1] == ':';
      }
      FoundWherePut(name, DEFAULT_SEPARATOR, text);
  }

  // ---------- substitution through a tree ----------

  datatype Json = Null | Bool(b: bool) | Number(text: string) | Str(s: string) | Arr(items: seq<Json>)
    | Obj(fields: seq<Field>)

  datatype Field = Field(key: string, value: Json)

  function Substituted(v: Json, lookup: Lookup): Json {
    match v
    case Str(s) => Str(Render(Parse(s), lookup))
    case Arr(items) => Arr(seq(|items|, i requires 0 <= i < |items| => Substituted(items[i], lookup)))
    case Obj(fields) =>
      Obj(seq(|fields|, i requires 0 <= i < |fields| => Field(fields[i].key, Substituted(fields[i].value, lookup))))
    case _ => v
  }

  /** Substitute in every string of a tree, members in order. */
  method SubstituteValue(v: Json, lookup: Lookup) returns (r: Json)
    ensures r == Substituted(v, lookup)
    decreases v
  {
    hide Parse, Render;
    match v
    case Str(s) =>
      var out := SubstituteWith(s, lookup);
      r := Str(out);
    case Arr(items) =>
      var done: seq<Json> := [];
      for i := 0 to |items|
        invariant |done| == i && forall k | 0 <= k < i :: done[k] == Substituted(items[k], lookup)
      {
        var item := SubstituteValue(items[i], lookup);
        done := done + [item];
      }
      r := Arr(done);
    case Obj(fields) =>
      var done: seq<Field> := [];
      for i := 0 to |fields|
        invariant |done| == i
        invariant forall k | 0 <= k < i :: done[k] == Field(fields[k].key, Substituted(fields[k].value, lookup))
      {
        var value := SubstituteValue(fields[i].value, lookup);
        done := done + [Field(fields[i].key, value)];
      }
      r := Obj(done);
    case _ => r := v;
  }

  /** The tree with its strings blanked: what is left is shape, keys, numbers and booleans. */
  function Skeleton(v: Json): Json {
    match v
    case Str(_) => Str("")
    case Arr(items) => Arr(seq(|items|, i requires 0 <= i < |items| => Skeleton(items[i])))
    case Obj(fields) =>
      Obj(seq(|fields|, i requires 0 <= i < |fields| => Field(fields[i].key, Skeleton(fields[i].value))))
    case _ => v
  }

  /** The strings of a tree from first to last; keys are not among them. */
  function Strings(v: Json): seq<string>
    decreases v, 0
  {
    match v
    case Str(s) => [s]
    case Arr(items) => ItemStrings(items)
    case Obj(fields) => FieldStrings(fields)
    case _ => []
  }

  function ItemStrings(items: seq<Json>): seq<string> {
    if items == [] then [] else Strings(items[0]) + ItemStrings(items[1..])
  }

  function FieldStrings(fields: seq<Field>): seq<string> {
    if fields == [] then [] else Strings(fields[0].value) + FieldStrings(fields[1..])
  }

  function RenderAll(strings: seq<string>, lookup: Lookup): seq<string> {
    seq(|strings|, i requires 0 <= i < |strings| => Render(Parse(strings[i]), lookup))
  }

  /** Substitution changes the strings of a tree, each by itself, and nothing else. */
  lemma {:induction false} SubstitutionKeepsShape(v: Json, lookup: Lookup)
    ensures Skeleton(Substituted(v, lookup)) == Skeleton(v)
    ensures Strings(Substituted(v, lookup)) == RenderAll(Strings(v), lookup)
    decreases v, 0
  {
    hide Parse, Render;
    match v
    case Arr(items) =>
      forall i | 0 <= i < |items| ensures Skeleton(Substituted(items[i], lookup)) == Skeleton(items[i]) {
        SubstitutionKeepsShape(items[i], lookup);
      }
      ItemsKeepShape(items, lookup);
    case Obj(fields) =>
      forall i | 0 <= i < |fields| ensures Skeleton(Substituted(fields[i].value, lookup)) == Skeleton(fields[i].value) {
        SubstitutionKeepsShape(fields[i].value, lookup);
      }
      FieldsKeepShape(fields, lookup);
    case _ =>
  }

  lemma {:induction false} ItemsKeepShape(items: seq<Json>, lookup: Lookup)
    ensures ItemStrings(Substituted(Arr(items), lookup).items) == RenderAll(ItemStrings(items), lookup)
    decreases items
  {
    hide Parse, Render;
    if items != [] {
      SubstitutionKeepsShape(items[0], lookup);
      ItemsKeepShape(items[1..], lookup);
      assert Substituted(Arr(items), lookup).items[1..] == Substituted(Arr(items[1..]), lookup).items;
    }
  }

  lemma {:induction false} FieldsKeepShape(fields: seq<Field>, lookup: Lookup)
    ensures FieldStrings(Substituted(Obj(fields), lookup).fields) == RenderAll(FieldStrings(fields), lookup)
    decreases fields
  {
    hide Parse, Render;
    if fields != [] {
      SubstitutionKeepsShape(fields[0].value, lookup);
      FieldsKeepShape(fields[1..], lookup);
      assert Substituted(Obj(fields), lookup).fields[1..] == Substituted(Obj(fields[1..]), lookup).fields;
    }
  }
}
