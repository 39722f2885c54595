/** Values exchanged between the agent loop, the model, the tools and the runtime. */
module AgentTypes {
  import opened Wrappers
  import opened Text

  datatype ReadKind = Retrieval | File | Knowledge

  datatype ToolKind = ReadOnly(read: ReadKind) | Write | Terminal | Progress

  datatype ReplaySafety = ReplayReadOnly | Idempotent | NeedsDedupKey

  /** A tool as the model sees it. The JSON schema matters only through its printed length. */
  datatype ToolSpec = ToolSpec(name: string, description: string, parametersLen: nat)

  /** A registered tool. What calling it does is decided by the environment of a run. */
  datatype Tool = Tool(spec: ToolSpec, kind: ToolKind, replay: ReplaySafety)

  datatype ToolCall = ToolCall(id: string, name: string, arguments: string)

  datatype ToolOutcome = Continue(content: string) | Finish | Abort(reason: string)

  /** One model completion. `telemetry` goes to the transcript and never back to the model. */
  datatype AssistantTurn = AssistantTurn(
    content: Option<string>, toolCalls: seq<ToolCall>, telemetry: Option<string>)

  datatype ChatMessage = ChatMessage(
    role: string, content: Option<string>, toolCalls: seq<ToolCall>, toolCallId: Option<string>)

  const TOOL_ROLE := "tool"

  function UserMessage(text: string): ChatMessage {
    ChatMessage("user", Some(text), [], None)
  }

  function AssistantMessage(turn: AssistantTurn): ChatMessage {
    ChatMessage("assistant", turn.content, turn.toolCalls, None)
  }

  function ToolMessage(callId: string, content: string): ChatMessage {
    ChatMessage(TOOL_ROLE, Some(content), [], Some(callId))
  }

  /** A failed step: transient failures may be retried, terminal ones are deterministic. */
  datatype StepError = Transient(detail: string) | TerminalError(reason: string) {
    function Display(): string {
      match this
      case Transient(detail) => "transient step failure: " + detail
      case TerminalError(reason) => "terminal step failure: " + reason
    }
  }

  function AsciiLower(s: string): (r: string)
    ensures |r| == |s|
  {
    seq(|s|, i requires 0 <= i < |s| => if 'A' <= s[i] <= 'Z' then 'a' + (s[i] - 'A') else s[i])
  }

  predicate IsContextOverflow(error: StepError) {
    var message := AsciiLower(error.Display());
    || Contains(message, "context length") || Contains(message, "context_length_exceeded")
    || Contains(message, "maximum context") || Contains(message, "too many tokens")
    || Contains(message, "reduce the length")
  }

  /** One character is the other, whichever of the two letters of a pair it is. */
  predicate SameLetter(a: char, b: char) {
    a == b || ('A' <= a <= 'Z' && b == 'a' + (a - 'A'))
  }

  /** The text holds the words somewhere, in capitals or not. */
  ghost predicate Mentions(text: string, words: string) {
    exists i :: MentionsAt(text, words, i)
  }

  predicate MentionsAt(text: string, words: string, i: nat) {
    i + |words| <= |text| && forall k | 0 <= k < |words| :: SameLetter(text[i + k], words[k])
  }

  lemma MentionsIff(text: string, words: string)
    requires forall k | 0 <= k < |words| :: !('A' <= words[k] <= 'Z')
    ensures Mentions(text, words) <==> Contains(AsciiLower(text), words)
  {
    var lower := AsciiLower(text);
    forall i: nat ensures OccursAt(lower, words, i) <==> MentionsAt(text, words, i) {
      if OccursAt(lower, words, i) {
        assert forall k | 0 <= k < |words| :: words[k] == lower[i..i + |words|][k] == lower[i + k];
      }
    }
  }

  /** A failure is a context overflow if and only if its text has one of five phrases, in capitals or not. */
  lemma OverflowIff(error: StepError)
    ensures var text := if error.Transient? then "transient step failure: " + error.detail
                        else "terminal step failure: " + error.reason;
      IsContextOverflow(error) <==>
        || Mentions(text, "context length") || Mentions(text, "context_length_exceeded")
        || Mentions(text, "maximum context") || Mentions(text, "too many tokens") || Mentions(text, "reduce the length")
  {
    hide Mentions, Contains, AsciiLower;
    var text := error.Display();
    MentionsIff(text, "context length");
    MentionsIff(text, "context_length_exceeded");
    MentionsIff(text, "maximum context");
    MentionsIff(text, "too many tokens");
    MentionsIff(text, "reduce the length");
  }

  datatype LoopStats = LoopStats(
    filesRead: nat, searches: nat, batches: nat, successfulWrites: nat, findingsRecorded: nat)

  const NO_STATS := LoopStats(0, 0, 0, 0, 0)

  datatype ToolCallResult = ToolCallResult(call: ToolCall, kind: Option<ToolKind>, outcome: ToolOutcome)

  datatype LoopOutcome = Finished | Exhausted | Aborted(reason: string)
}
