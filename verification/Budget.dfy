/** Context-budget arithmetic: the token estimate, the history trimmer and the wind-down boundary. */
module Budget {
  import opened Wrappers
  import opened Text
  import opened AgentTypes
  import opened ToolSurface

  const PER_MESSAGE_OVERHEAD := 4
  const KEEP_RECENT := 2
  const STUB: string := "[earlier tool output elided to fit the context budget]"
  const MIN_TURNS := 2

  function ContentLen(content: Option<string>): nat {
    match content case Some(text) => Utf8Len(text) case None => 0
  }

  function CallsLen(calls: seq<ToolCall>): nat {
    if calls == [] then 0
    else Utf8Len(calls[0].name) + Utf8Len(calls[0].arguments) + CallsLen(calls[1..])
  }

  function MessageTokens(message: ChatMessage): nat {
    PER_MESSAGE_OVERHEAD + (ContentLen(message.content) + CallsLen(message.toolCalls)) / 4
  }

  function MessagesTokens(messages: seq<ChatMessage>): nat {
    if messages == [] then 0 else MessageTokens(messages[0]) + MessagesTokens(messages[1..])
  }

  function ToolsTokens(tools: seq<ToolSpec>): nat {
    if tools == [] then 0
    else (Utf8Len(tools[0].name) + Utf8Len(tools[0].description) + tools[0].parametersLen) / 4 + ToolsTokens(tools[1..])
  }

  function EstimateTokens(messages: seq<ChatMessage>, tools: seq<ToolSpec>): nat {
    MessagesTokens(messages) + ToolsTokens(tools)
  }

  // ---------- what the estimate estimates ----------

  function TextsOf(calls: seq<ToolCall>): string {
    if calls == [] then "" else calls[0].name + calls[0].arguments + TextsOf(calls[1..])
  }

  /** All the text of a conversation, one after the other. */
  function Transcribed(messages: seq<ChatMessage>): string {
    if messages == [] then ""
    else messages[0].content.GetOr("") + TextsOf(messages[0].toolCalls) + Transcribed(messages[1..])
  }

  /** The bytes all tools take: their names, descriptions and printed parameters. */
  function ToolBytes(tools: seq<ToolSpec>): nat {
    if tools == [] then 0
    else Utf8Len(tools[0].name + tools[0].description) + tools[0].parametersLen + ToolBytes(tools[1..])
  }

  lemma {:induction false} CallsLenIs(calls: seq<ToolCall>)
    ensures CallsLen(calls) == Utf8Len(TextsOf(calls))
  {
    hide Utf8Len;
    if calls == [] {
      assert Utf8Len("") == 0 by { NoBytes(); }
    } else {
      CallsLenIs(calls[1..]);
      Utf8LenConcat(calls[0].name + calls[0].arguments, TextsOf(calls[1..]));
      Utf8LenConcat(calls[0].name, calls[0].arguments);
    }
  }

  lemma NoBytes()
    ensures Utf8Len("") == 0
  {
  }

  lemma {:induction false} MessagesEstimated(messages: seq<ChatMessage>)
    ensures var bytes := Utf8Len(Transcribed(messages));
      4 * MessagesTokens(messages) <= bytes + 16 * |messages| <= 4 * MessagesTokens(messages) + 3 * |messages|
  {
    hide Utf8Len;
    NoBytes();
    if messages != [] {
      var m := messages[0];
      MessagesEstimated(messages[1..]);
      CallsLenIs(m.toolCalls);
      Utf8LenConcat(m.content.GetOr("") + TextsOf(m.toolCalls), Transcribed(messages[1..]));
      Utf8LenConcat(m.content.GetOr(""), TextsOf(m.toolCalls));
      assert ContentLen(m.content) == Utf8Len(m.content.GetOr(""));
    }
  }

  lemma {:induction false} ToolsEstimated(tools: seq<ToolSpec>)
    ensures 4 * ToolsTokens(tools) <= ToolBytes(tools) <= 4 * ToolsTokens(tools) + 3 * |tools|
  {
    hide Utf8Len;
    if tools != [] {
      ToolsEstimated(tools[1..]);
      Utf8LenConcat(tools[0].name, tools[0].description);
    }
  }

  /**
   The estimate is a quarter of all the bytes, and four tokens a message, up to three quarters of a token lost on each
   message and each tool.
   */
  lemma EstimateMeans(messages: seq<ChatMessage>, tools: seq<ToolSpec>)
    ensures var exact := Utf8Len(Transcribed(messages)) + ToolBytes(tools) + 16 * |messages|;
      4 * EstimateTokens(messages, tools) <= exact <= 4 * EstimateTokens(messages, tools) + 3 * (|messages| + |tools|)
  {
    hide Utf8Len;
    MessagesEstimated(messages);
    ToolsEstimated(tools);
  }

  // ---------- trimming ----------

  /** A consumed tool result longer than the stub that would replace it. */
  predicate Eligible(message: ChatMessage) {
    && message.role == TOOL_ROLE
    && message.content.Some?
    && Utf8Len(message.content.value) > Utf8Len(STUB)
    && message.content.value != STUB
  }

  function Stubbed(message: ChatMessage): ChatMessage {
    message.(content := Some(STUB))
  }

  /** What replacing `message` is estimated to save: the quotient is taken on the difference alone. */
  function Saving(message: ChatMessage): nat
    requires Eligible(message)
  {
    (Utf8Len(message.content.value) - Utf8Len(STUB)) / 4
  }

  function SaturatingSub(a: nat, b: nat): nat {
    if a < b then 0 else a - b
  }

  function Cutoff(messages: seq<ChatMessage>): nat {
    SaturatingSub(|messages|, KEEP_RECENT)
  }

  /** State of the trimmer: messages so far, running estimate, replacements made. */
  datatype Trimmer = Trimmer(messages: seq<ChatMessage>, estimate: nat, trimmed: nat)

  /** The trimmer's decision at one message. */
  function TrimAt(t: Trimmer, i: nat): (r: Trimmer)
    requires i < |t.messages|
    ensures |r.messages| == |t.messages|
  {
    if Eligible(t.messages[i]) then
      Trimmer(t.messages[i := Stubbed(t.messages[i])],
           SaturatingSub(t.estimate, Saving(t.messages[i])), t.trimmed + 1)
    else t
  }

  /** Scan from message `i`, stopping at the cutoff or once the running estimate meets the target. */
  function TrimFrom(t: Trimmer, i: nat, cutoff: nat, target: nat): (r: Trimmer)
    requires cutoff <= |t.messages|
    ensures |r.messages| == |t.messages|
    decreases cutoff - i
  {
    if i >= cutoff || t.estimate <= target then t else TrimFrom(TrimAt(t, i), i + 1, cutoff, target)
  }

  function StartTrim(messages: seq<ChatMessage>, tools: seq<ToolSpec>): Trimmer {
    Trimmer(messages, EstimateTokens(messages, tools), 0)
  }

  function Trimming(messages: seq<ChatMessage>, tools: seq<ToolSpec>, target: nat): (r: Trimmer)
    ensures |r.messages| == |messages|
  {
    TrimFrom(StartTrim(messages, tools), 0, Cutoff(messages), target)
  }

  /** The running estimate never undershoots the real one and overshoots by at most one per replacement. */
  predicate Tracks(t: Trimmer, tools: seq<ToolSpec>) {
    EstimateTokens(t.messages, tools) <= t.estimate <= EstimateTokens(t.messages, tools) + t.trimmed
  }

  lemma {:induction false} TokensOfUpdate(messages: seq<ChatMessage>, i: nat, message: ChatMessage)
    requires i < |messages|
    ensures MessagesTokens(messages[i := message]) + MessageTokens(messages[i])
            == MessagesTokens(messages) + MessageTokens(message)
    ensures MessageTokens(messages[i]) <= MessagesTokens(messages)
  {
    if i == 0 {
      assert messages[i := message][1..] == messages[1..];
    } else {
      assert messages[i := message][1..] == messages[1..][i - 1 := message];
      TokensOfUpdate(messages[1..], i - 1, message);
    }
  }

  /** One replacement: the floor of the difference is the difference of floors, or one less. */
  lemma TrimAtTracks(t: Trimmer, i: nat, tools: seq<ToolSpec>)
    requires i < |t.messages| && Tracks(t, tools)
    ensures Tracks(TrimAt(t, i), tools)
    ensures Eligible(t.messages[i]) ==> Saving(t.messages[i]) <= t.estimate
  {
    hide Utf8Len;
    var message := t.messages[i];
    if Eligible(message) {
      TokensOfUpdate(t.messages, i, Stubbed(message));
      var calls := CallsLen(message.toolCalls);
      var long, short := Utf8Len(message.content.value), Utf8Len(STUB);
      assert MessageTokens(message) == 4 + (long + calls) / 4;
      assert MessageTokens(Stubbed(message)) == 4 + (short + calls) / 4;
      assert Saving(message) == (long - short) / 4;
    }
  }

  /** Every message up to `n` is as `before` says, or the stub of an eligible one. */
  predicate OnlyStubs(before: seq<ChatMessage>, after: seq<ChatMessage>) {
    && |after| == |before|
    && forall i | 0 <= i < |before| :: after[i] == before[i] || (Eligible(before[i]) && after[i] == Stubbed(before[i]))
  }

  /** How many of the first `n` messages are eligible. */
  function EligibleBefore(messages: seq<ChatMessage>, n: nat): nat
    requires n <= |messages|
  {
    if n == 0 then 0 else EligibleBefore(messages, n - 1) + if Eligible(messages[n - 1]) then 1 else 0
  }

  /** The messages with the eligible ones among the first `n` replaced. */
  function Elided(messages: seq<ChatMessage>, n: nat): (r: seq<ChatMessage>)
    requires n <= |messages|
    ensures |r| == |messages|
  {
    seq(|messages|, i requires 0 <= i < |messages| =>
      if i < n && Eligible(messages[i]) then Stubbed(messages[i]) else messages[i])
  }

  lemma ElidedStep(messages: seq<ChatMessage>, n: nat)
    requires n < |messages|
    ensures Elided(messages, n)[n] == messages[n]
    ensures Elided(messages, n + 1)
            == if Eligible(messages[n]) then Elided(messages, n)[n := Stubbed(messages[n])] else Elided(messages, n)
  {
    hide Eligible;
  }

  /** A tool's answer of more bytes than the stub has. */
  predicate LongAnswer(m: ChatMessage) {
    m.role == "tool" && Utf8Len(m.content.GetOr("")) > Utf8Len(STUB)
  }

  /** The long answers before that index were replaced, and nothing else. */
  predicate ElidedUpTo(before: seq<ChatMessage>, after: seq<ChatMessage>, stop: nat)
    requires |after| == |before|
  {
    forall i | 0 <= i < |before| ::
      after[i] == if i < stop && LongAnswer(before[i]) then before[i].(content := Some(STUB)) else before[i]
  }

  lemma LongIsEligible(m: ChatMessage)
    ensures LongAnswer(m) <==> Eligible(m)
  {
    hide Utf8Len;
    NoBytes();
  }

  /** The scan from `i` on over a history whose first `i` messages were dealt with. */
  lemma {:induction false} TrimFromMeaning(messages: seq<ChatMessage>, t: Trimmer, i: nat, target: nat,
                                           tools: seq<ToolSpec>)
    returns (stop: nat)
    requires i <= Cutoff(messages) && Tracks(t, tools)
    requires t.messages == Elided(messages, i) && t.trimmed == EligibleBefore(messages, i)
    ensures var r := TrimFrom(t, i, Cutoff(messages), target);
      && i <= stop <= Cutoff(messages)
      && Tracks(r, tools) && r.messages == Elided(messages, stop) && r.trimmed == EligibleBefore(messages, stop)
      && (stop == Cutoff(messages) || r.estimate <= target)
    ensures forall n | i <= n < stop ::
      EstimateTokens(Elided(messages, n), tools) + EligibleBefore(messages, n) > target
    decreases Cutoff(messages) - i
  {
    hide Eligible, EstimateTokens, Elided, Saving;
    if i >= Cutoff(messages) || t.estimate <= target {
      stop := i;
    } else {
      TrimAtTracks(t, i, tools);
      ElidedStep(messages, i);
      stop := TrimFromMeaning(messages, TrimAt(t, i), i + 1, target, tools);
    }
  }

  /**
   Trimming is sound and tight. The running estimate brackets the real one, so ending above the target means nothing
   eligible was left; the replaced messages are exactly the eligible ones before some index, so they are the oldest,
   and the count is theirs; each was replaced while the real estimate, plus one a replacement already made, was above
   the target; the two most recent messages are untouched.
   */
  lemma TrimmingMeaning(messages: seq<ChatMessage>, tools: seq<ToolSpec>, target: nat) returns (stop: nat)
    ensures var r := Trimming(messages, tools, target);
      && Tracks(r, tools)
      && OnlyStubs(messages, r.messages)
      && (stop == 0 || stop + 2 <= |messages|) && ElidedUpTo(messages, r.messages, stop)
      && r.messages == Elided(messages, stop) && r.trimmed == EligibleBefore(messages, stop)
      && (EstimateTokens(r.messages, tools) > target ==>
            forall i | 0 <= i < |messages| - 2 :: !Eligible(r.messages[i]))
    ensures forall n | 0 <= n < stop ::
      EstimateTokens(Elided(messages, n), tools) + EligibleBefore(messages, n) > target
  {
    hide EstimateTokens, Utf8Len;
    forall i | 0 <= i < |messages| ensures LongAnswer(messages[i]) <==> Eligible(messages[i]) {
      LongIsEligible(messages[i]);
    }
    assert Elided(messages, 0) == messages;
    stop := TrimFromMeaning(messages, StartTrim(messages, tools), 0, target, tools);
  }

  /** Replace the oldest consumed tool results in place until the estimate meets the target. */
  method TrimToolHistory(messages: array<ChatMessage>, tools: seq<ToolSpec>, target: nat) returns (trimmed: nat)
    modifies messages
    ensures messages[..] == Trimming(old(messages[..]), tools, target).messages
    ensures trimmed == Trimming(old(messages[..]), tools, target).trimmed
  {
    hide Utf8Len, EstimateTokens;
    ghost var start := StartTrim(messages[..], tools);
    var cutoff := SaturatingSub(messages.Length, KEEP_RECENT);
    var estimate := EstimateTokens(messages[..], tools);
    trimmed := 0;
    var i := 0;
    while i < cutoff && estimate > target
      invariant 0 <= i <= cutoff && 0 <= estimate
      invariant TrimFrom(Trimmer(messages[..], estimate, trimmed), i, cutoff, target)
        == TrimFrom(start, 0, cutoff, target)
    {
      ghost var t := Trimmer(messages[..], estimate, trimmed);
      var message := messages[i];
      if message.role == TOOL_ROLE && message.content.Some?
         && Utf8Len(message.content.value) > Utf8Len(STUB) && message.content.value != STUB {
        estimate := SaturatingSub(estimate, (Utf8Len(message.content.value) - Utf8Len(STUB)) / 4);
        messages[i] := message.(content := Some(STUB));
        trimmed := trimmed + 1;
      }
      assert Trimmer(messages[..], estimate, trimmed) == TrimAt(t, i);
      i := i + 1;
    }
  }

  /** The four kinds the wind-down and context budgets take away. */
  const INVESTIGATION: set<ToolKind> := {ReadOnly(Retrieval), ReadOnly(File), ReadOnly(Knowledge), Progress}

  function ConvergenceFilter(): TurnFilter {
    ALL.WithoutKind(ReadOnly(Retrieval)).WithoutKind(ReadOnly(File)).WithoutKind(ReadOnly(Knowledge))
      .WithoutKind(Progress)
  }

  function Max(a: nat, b: nat): nat {
    if a < b then b else a
  }

  /** The turn from which a run of `maxTurns` turns winds down. */
  function WinddownTurn(maxTurns: nat): (turn: nat)
    ensures 1 <= turn
    ensures maxTurns <= 2 ==> turn == 1
    ensures 2 <= maxTurns ==> turn < maxTurns
    ensures 20 <= maxTurns ==> maxTurns - turn == maxTurns / 10
    ensures 2 < maxTurns < 20 ==> maxTurns - turn == 2
  {
    if maxTurns <= MIN_TURNS then Max(SaturatingSub(maxTurns, 1), 1)
    else
      var kept := SaturatingSub(maxTurns, Max(MIN_TURNS, maxTurns / 10));
      if kept < 1 then 1 else if kept > maxTurns - 1 then maxTurns - 1 else kept
  }
}
