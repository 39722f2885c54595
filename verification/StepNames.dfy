/** The names under which the loop's steps are journaled. */
module StepNames {
  import opened Wrappers
  import opened Text

  const BOOTSTRAP := "bootstrap"
  const FINALIZE := "finalize"
  const LLM_PREFIX := "llm_turn:"
  const TOOLS_PREFIX := "tools:"
  const CALL_PREFIX := "tool:"

  /** What a step of the loop is, before it is turned into a name. */
  datatype StepId = LlmTurn(turn: nat) | ToolsBatch(turn: nat) | WriteTool(turn: nat, callId: string)

  function Name(step: StepId): string {
    match step
    case LlmTurn(turn) => LLM_PREFIX + Decimal(turn)
    case ToolsBatch(turn) => TOOLS_PREFIX + Decimal(turn)
    case WriteTool(turn, callId) => CALL_PREFIX + Decimal(turn) + ":" + callId
  }

  /** Which family a name belongs to: the two that share "tool" differ in their fifth character. */
  function Family(name: string): nat {
    if |name| > 4 && name[0] == 'l' then 1
    else if |name| > 4 && name[0] == 't' && name[4] == 's' then 2
    else if |name| > 4 && name[0] == 't' && name[4] == ':' then 3
    else 0
  }

  /** The step a name was made from, if the loop can have made it. */
  function Parse(name: string): Option<StepId> {
    match Family(name)
    case 1 => (
      if |name| > 9 && name[..9] == LLM_PREFIX && (forall c | c in name[9..] :: IsDigit(c))
      then Some(LlmTurn(FromDigits(name[9..]))) else None)
    case 2 => (
      if |name| > 6 && name[..6] == TOOLS_PREFIX && (forall c | c in name[6..] :: IsDigit(c))
      then Some(ToolsBatch(FromDigits(name[6..]))) else None)
    case 3 => (
      var rest := name[5..];
      var n := DigitRun(rest);
      DigitRunIsDigits(rest);
      if name[..5] == CALL_PREFIX && 0 < n < |rest| && rest[n] == ':'
      then Some(WriteTool(FromDigits(rest[..n]), rest[n + 1..])) else None)
    case _ => None
  }

  lemma {:induction false} DigitRunIsDigits(s: string)
    ensures DigitRun(s) <= |s|
    ensures forall c | c in s[..DigitRun(s)] :: IsDigit(c)
  {
    if s != [] && IsDigit(s[0]) {
      DigitRunIsDigits(s[1..]);
      assert s[..DigitRun(s)] == [s[0]] + s[1..][..DigitRun(s[1..])];
    }
  }

  lemma PrefixSplits(prefix: string, rest: string)
    ensures (prefix + rest)[..|prefix|] == prefix && (prefix + rest)[|prefix|..] == rest
  {
  }

  /** A name determines its step, whatever characters the call id holds. */
  lemma ParseName(step: StepId)
    ensures Parse(Name(step)) == Some(step)
  {
    var name := Name(step);
    match step
    case LlmTurn(turn) =>
      PrefixSplits(LLM_PREFIX, Decimal(turn));
      DecimalRoundTrip(turn);
    case ToolsBatch(turn) =>
      PrefixSplits(TOOLS_PREFIX, Decimal(turn));
      DecimalRoundTrip(turn);
    case WriteTool(turn, callId) =>
      var tail := ":" + callId;
      assert name == CALL_PREFIX + (Decimal(turn) + tail);
      PrefixSplits(CALL_PREFIX, Decimal(turn) + tail);
      var rest := name[5..];
      DigitRunOfPrefix(Decimal(turn), tail);
      assert rest[..|Decimal(turn)|] == Decimal(turn) && rest[|Decimal(turn)| + 1..] == callId;
      DecimalRoundTrip(turn);
  }

  /** Distinct steps never share a journal entry, and none is a reserved name. */
  lemma NamesAreDistinct(a: StepId, b: StepId)
    ensures Name(a) == Name(b) <==> a == b
    ensures Name(a) != BOOTSTRAP && Name(a) != FINALIZE
  {
    ParseName(a);
    ParseName(b);
    assert Family(BOOTSTRAP) == 0 && Family(FINALIZE) == 0;
  }
}
