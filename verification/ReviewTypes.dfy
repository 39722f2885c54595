/** Review findings and the normal forms their identity is compared in. */
module ReviewTypes {
  import opened Wrappers
  import opened Text

  datatype Finding = Finding(
    file: string, line: nat, startLine: Option<nat>, priority: Option<string>, category: Option<string>,
    severity: Option<string>, title: string, body: string, suggestion: Option<string>, resources: seq<string>)

  function ForwardSlashes(path: string): (r: string)
    ensures |r| == |path|
  {
    seq(|path|, i requires 0 <= i < |path| => if path[i] == '\\' then '/' else path[i])
  }

  function TrimDotSlashes(path: string): string {
    if |path| >= 2 && path[0] == '.' && path[1] == '/' then TrimDotSlashes(path[2..]) else path
  }

  function TrimSlashes(path: string): string {
    if path != [] && path[0] == '/' then TrimSlashes(path[1..]) else path
  }

  /** The repository-relative, forward-slash form of a path. */
  function NormalizePath(path: string): string {
    TrimSlashes(TrimDotSlashes(ForwardSlashes(path)))
  }

  function SkipSpace(s: string): (r: string)
    ensures |r| <= |s|
    ensures r != [] ==> !IsWhitespace(r[0])
  {
    if s != [] && IsWhitespace(s[0]) then SkipSpace(s[1..]) else s
  }

  /** The longest prefix without whitespace. */
  function FirstWord(s: string): (w: string)
    ensures |w| <= |s|
    ensures s != [] && !IsWhitespace(s[0]) ==> w != []
  {
    if s == [] || IsWhitespace(s[0]) then [] else [s[0]] + FirstWord(s[1..])
  }

  /** Words joined by single spaces: leading and trailing whitespace goes, runs collapse. */
  function OneLine(s: string): string
    decreases |s|
  {
    var start := SkipSpace(s);
    if start == [] then []
    else
      var word := FirstWord(start);
      var rest := OneLine(start[|word|..]);
      if rest == [] then word else word + " " + rest
  }
}
