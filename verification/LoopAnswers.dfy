/**
 Every result has its answer. Over any run the messages of the completed turns stand in the conversation in order,
 each turn's assistant message followed by one tool message per `Continue` result, and there are no tool messages
 besides.
 */
module LoopAnswers {
  import opened AgentTypes
  import opened StepNames
  import opened ToolSurface
  import opened Budget
  import opened Policies
  import opened StepRuntime
  import opened LoopMachine
  import opened LoopTurn
  import opened LoopConversation
  import opened LoopSequential
  import opened LoopInduction
  import opened LoopOrder

  /** From `lo` to `hi` there is no tool message. */
  ghost predicate NoTools(ms: seq<ChatMessage>, lo: nat, hi: nat) {
    hi <= |ms| && forall i | lo <= i < hi :: ms[i].role != TOOL_ROLE
  }

  function EndAt(at: nat, t: CompletedTurn): nat {
    at + 1 + |AnswersOf(t.results)|
  }

  /** At `at` stands the turn's assistant message, and after it the answers to its calls, elided or not. */
  ghost predicate TurnAt(ms: seq<ChatMessage>, at: nat, t: CompletedTurn) {
    && EndAt(at, t) <= |ms|
    && ms[at] == t.cx.assistant && ms[at].role == "assistant"
    && OnlyStubs(AnswersOf(t.results), ms[at + 1..EndAt(at, t)])
  }

  /** Between `n0` and `hi` the completed turns stand in order, with no other tool message. */
  ghost predicate Placed(n0: nat, ms: seq<ChatMessage>, done: seq<CompletedTurn>, hi: nat)
    decreases |done|
  {
    n0 <= hi <= |ms| &&
    if done == [] then NoTools(ms, n0, hi)
    else
      var last := done[|done| - 1];
      exists at: nat | n0 <= at && EndAt(at, last) <= hi ::
        TurnAt(ms, at, last) && NoTools(ms, EndAt(at, last), hi) && Placed(n0, ms, done[..|done| - 1], at)
  }

  /** The completed turns are placed, up to where the turn in progress begins. */
  ghost predicate Answered(n0: nat, m: Machine) {
    var ms, done := m.st.messages, m.st.completed;
    if InTurn(m.control) then
      var open := |AnswersOf(ProgressOf(m.control).results)| + 1;
      open <= |ms| && Placed(n0, ms, done, |ms| - open)
    else Placed(n0, ms, done, |ms|)
  }

  // ---------- eliding and appending keep the places ----------

  lemma StubNotEligible(m: ChatMessage)
    ensures !Eligible(Stubbed(m))
  {
  }

  lemma OnlyStubsTrans(a: seq<ChatMessage>, b: seq<ChatMessage>, c: seq<ChatMessage>)
    requires OnlyStubs(a, b) && OnlyStubs(b, c)
    ensures OnlyStubs(a, c)
  {
    hide Eligible;
    forall i | 0 <= i < |a| ensures c[i] == a[i] || (Eligible(a[i]) && c[i] == Stubbed(a[i])) {
      assert b[i] == a[i] || b[i] == Stubbed(a[i]);
      StubNotEligible(a[i]);
    }
  }

  lemma ElidedKeepsRole(before: seq<ChatMessage>, after: seq<ChatMessage>, i: nat)
    requires Extends(before, after) && i < |before|
    ensures after[i].role == before[i].role
    ensures before[i].role != TOOL_ROLE ==> after[i] == before[i]
  {
    assert after[..|before|][i] == after[i];
  }

  lemma TurnAtKept(before: seq<ChatMessage>, after: seq<ChatMessage>, at: nat, t: CompletedTurn)
    requires Extends(before, after) && TurnAt(before, at, t)
    ensures TurnAt(after, at, t)
  {
    hide Eligible, AnswersOf;
    ElidedKeepsRole(before, after, at);
    var a, b, c := AnswersOf(t.results), before[at + 1..EndAt(at, t)], after[at + 1..EndAt(at, t)];
    forall i | 0 <= i < |b| ensures c[i] == b[i] || (Eligible(b[i]) && c[i] == Stubbed(b[i])) {
      assert b[i] == before[at + 1 + i] && c[i] == after[..|before|][at + 1 + i];
    }
    OnlyStubsTrans(a, b, c);
  }

  lemma {:induction false} PlacedKept(n0: nat, before: seq<ChatMessage>, after: seq<ChatMessage>,
                                      done: seq<CompletedTurn>, hi: nat)
    requires Extends(before, after) && Placed(n0, before, done, hi)
    ensures Placed(n0, after, done, hi)
    decreases |done|
  {
    hide TurnAt, Extends;
    assert |before| <= |after| by { Longer(before, after); }
    forall i | 0 <= i < hi ensures after[i].role == before[i].role {
      ElidedKeepsRole(before, after, i);
    }
    if done != [] {
      var last := done[|done| - 1];
      var at: nat :| n0 <= at && EndAt(at, last) <= hi
        && TurnAt(before, at, last) && NoTools(before, EndAt(at, last), hi)
          && Placed(n0, before, done[..|done| - 1], at);
      TurnAtKept(before, after, at, last);
      PlacedKept(n0, before, after, done[..|done| - 1], at);
    }
  }

  lemma Longer(before: seq<ChatMessage>, after: seq<ChatMessage>)
    requires Extends(before, after)
    ensures |before| <= |after|
  {
  }

  /** Messages that are no tool messages may follow. */
  lemma PlacedFurther(n0: nat, ms: seq<ChatMessage>, done: seq<CompletedTurn>, hi: nat, more: nat)
    requires Placed(n0, ms, done, hi) && hi <= more && NoTools(ms, hi, more)
    ensures Placed(n0, ms, done, more)
  {
    hide TurnAt;
    if done != [] {
      var last := done[|done| - 1];
      var at: nat :| n0 <= at && EndAt(at, last) <= hi
        && TurnAt(ms, at, last) && NoTools(ms, EndAt(at, last), hi) && Placed(n0, ms, done[..|done| - 1], at);
      assert NoTools(ms, EndAt(at, last), more);
    }
  }

  /** After messages by users and policies everything stays placed. */
  lemma UserTailPlaced(n0: nat, before: seq<ChatMessage>, after: seq<ChatMessage>, done: seq<CompletedTurn>)
    requires Placed(n0, before, done, |before|) && UserTail(before, after)
    ensures Placed(n0, after, done, |after|)
  {
    PlacedKept(n0, before, after, done, |before|);
    assert NoTools(after, |before|, |after|);
    PlacedFurther(n0, after, done, |before|, |after|);
  }

  // ---------- one move, one answer ----------

  lemma EndTurnAnswered(n0: nat, cfg: Config, cx: TurnContext, p: TurnProgress, st: LoopState)
    requires cx.assistant.role == "assistant" && EndsWithTurn(st.messages, cx.assistant, p.results)
    requires Answered(n0, Machine(AtCall(cx, p, []), st))
    ensures Answered(n0, EndTurn(cfg, cx, p, st))
  {
    hide EndTurn, AnswersOf, UserTail, Eligible, Placed;
    var next := EndTurn(cfg, cx, p, st);
    EndTurnCompletes(cfg, cx, p, st);
    EndTurnMessages(cfg, cx, p, st);
    var done, ms := next.st.completed, st.messages;
    var t := done[|st.completed|];
    var at := |ms| - |AnswersOf(p.results)| - 1;
    assert ms[at + 1..EndAt(at, t)] == AnswersOf(p.results);
    assert TurnAt(ms, at, t) && done[..|done| - 1] == st.completed;
    PlacedFrom(n0, ms, st.completed, at);
    PlacedOne(n0, ms, done, at);
    UserTailPlaced(n0, ms, next.st.messages, done);
  }

  lemma PlacedOne(n0: nat, ms: seq<ChatMessage>, done: seq<CompletedTurn>, at: nat)
    requires done != [] && n0 <= at && EndAt(at, done[|done| - 1]) == |ms|
    requires TurnAt(ms, at, done[|done| - 1]) && Placed(n0, ms, done[..|done| - 1], at)
    ensures Placed(n0, ms, done, |ms|)
  {
    assert NoTools(ms, EndAt(at, done[|done| - 1]), |ms|);
  }

  lemma PlacedFrom(n0: nat, ms: seq<ChatMessage>, done: seq<CompletedTurn>, hi: nat)
    requires Placed(n0, ms, done, hi)
    ensures n0 <= hi <= |ms|
  {
  }

  lemma AccountAnswered(n0: nat, cfg: Config, cx: TurnContext, p: TurnProgress, call: ToolCall, rest: seq<ToolCall>,
                        outcome: ToolOutcome, st: LoopState)
    requires Answered(n0, Machine(AtCall(cx, p, [call] + rest), st))
    ensures var (st', p') := Account(cfg, cx.turn, call, outcome, st, p);
      Answered(n0, Machine(AtCall(cx, p', rest), st'))
  {
    hide Account, AnswersOf, Placed, KindOf;
    var r := ToolCallResult(call, KindOf(cfg.tools, call.name), outcome);
    AccountFields(cfg, cx.turn, call, outcome, st, p);
    AccountKept(cfg, cx.turn, call, outcome, st, p);
    AnswersPush(p.results, r);
    PlacedAppended(n0, st.messages, AnswersOf([r]), st.completed, |st.messages| - |AnswersOf(p.results)| - 1);
  }

  lemma AnswersPush(results: seq<ToolCallResult>, r: ToolCallResult)
    ensures |AnswersOf(results + [r])| == |AnswersOf(results)| + |AnswersOf([r])|
  {
    ResultsPush(results, r);
    ResultsPush([], r);
    assert [] + [r] == [r];
  }

  lemma PlacedAppended(n0: nat, ms: seq<ChatMessage>, added: seq<ChatMessage>, done: seq<CompletedTurn>, hi: nat)
    requires Placed(n0, ms, done, hi)
    ensures Placed(n0, ms + added, done, hi)
  {
    hide Placed;
    ExtendsPush(ms, added);
    PlacedKept(n0, ms, ms + added, done, hi);
  }

  lemma AccountKept(cfg: Config, turn: nat, call: ToolCall, outcome: ToolOutcome, st: LoopState, p: TurnProgress)
    ensures Account(cfg, turn, call, outcome, st, p).0.completed == st.completed
  {
  }

  lemma MoveAnswered(n0: nat, cfg: Config, m: Machine)
    requires Moving(m) && TurnShape(m) && Answered(n0, m)
    ensures Answered(n0, Move(cfg, m))
  {
    hide BeforeFrom, ExhaustedFrom, EndTurn, Account, LocalOutcome, InOrder, EndsWithTurn, AnswersOf, Placed, UserTail;
    match m.control {
      case AtTurn(turn) =>
        BeforeMessages(cfg, turn, 0, m.st, FreshPlan(cfg));
        BeforeKeepsCompleted(cfg, turn, 0, m.st, FreshPlan(cfg));
        UserTailPlaced(n0, m.st.messages, BeforeFrom(cfg, turn, 0, m.st, FreshPlan(cfg)).0.messages, m.st.completed);
      case AtTail =>
        var st := Recorded(m.st, PolicyEvent(cfg.limits.maxTurns, "exhausted",
          ExhaustedDetail(m.st.contextOverflow, m.st.stats.findingsRecorded)));
        ExhaustedKeepsMessages(cfg, 0, st);
        ExhaustedKeepsCompleted(cfg, 0, st);
      case AtCall(cx, p, rest) =>
        if rest == [] {
          EndTurnAnswered(n0, cfg, cx, p, m.st);
        } else {
          assert rest == [rest[0]] + rest[1..];
          var o := LocalOutcome(cfg, cx.plan, p, rest[0]);
          if o.Some? {
            AccountAnswered(n0, cfg, cx, p, rest[0], rest[1..], o.value, m.st);
          }
        }
    }
  }

  lemma DeliverAnswered(n0: nat, cfg: Config, m: Machine, r: StepResult)
    requires Awaiting(m.control) && Answers(m.control, r) && Answered(n0, m)
    requires m.control.AwaitModel? || r.Ok?
    ensures Answered(n0, Deliver(cfg, m, r))
  {
    hide Account, IsContextOverflow, ReadsOfTurn, CountReads, ByIndex, Placed, Extends, NoTools;
    AnswersOfNothing();
    match m.control {
      case AwaitModel(_, _) =>
        if r.Ok? {
          AssistantAnswered(n0, m.st.messages, AssistantMessage(r.value.assistant), m.st.completed,
                            cfg.limits.noToolNudge);
        }
      case AwaitCall(cx, p, call, rest) => AccountAnswered(n0, cfg, cx, p, call, rest, r.value.outcome, m.st);
      case AwaitReads(_) =>
    }
  }

  lemma AssistantAnswered(n0: nat, ms: seq<ChatMessage>, message: ChatMessage, done: seq<CompletedTurn>, nudge: string)
    requires Placed(n0, ms, done, |ms|) && message.role == "assistant"
    ensures Placed(n0, ms + [message], done, |ms|)
    ensures Placed(n0, ms + [message] + [UserMessage(nudge)], done, |ms| + 2)
  {
    hide Placed, Extends;
    ExtendsPush(ms, [message]);
    PlacedKept(n0, ms, ms + [message], done, |ms|);
    var nudged := ms + [message] + [UserMessage(nudge)];
    assert nudged == ms + [message, UserMessage(nudge)];
    ExtendsPush(ms, [message, UserMessage(nudge)]);
    PlacedKept(n0, ms, nudged, done, |ms|);
    assert NoTools(nudged, |ms|, |ms| + 2);
    PlacedFurther(n0, nudged, done, |ms|, |ms| + 2);
  }

  // ---------- every run ----------

  lemma RunAnswered(cfg: Config, env: Env, messages: seq<ChatMessage>, policies: seq<Policy>, host: Host, k: nat)
    ensures Answered(|messages|, Exec(cfg, env, Start(cfg, messages, policies, host), k).machine)
  {
    hide Exec, Settle, Answered, Step, Name;
    var n0 := |messages|;
    var P: Property := (obs: seq<Observation>, m: Machine) => ToolStepsOk(obs) ==> Answered(n0, m);
    forall obs: seq<Observation>, m: Machine | Moving(m) && TurnShape(m) && P(obs, m)
      ensures P(obs, Move(cfg, m))
    {
      if ToolStepsOk(obs) {
        MoveAnswered(n0, cfg, m);
      }
    }
    forall obs: seq<Observation>, m: Machine, r: StepResult
      | Awaiting(m.control) && Answers(m.control, r) && TurnShape(m) && P(obs, m)
      ensures P(obs + [Observation(m, AskOf(cfg, m).step, r)], Deliver(cfg, m, r))
    {
      var more := obs + [Observation(m, AskOf(cfg, m).step, r)];
      if ToolStepsOk(more) {
        assert forall i | 0 <= i < |obs| :: more[i] == obs[i];
        assert more[|obs|].step.LlmTurn? || more[|obs|].result.Ok?;
        DeliverAnswered(n0, cfg, m, r);
      }
    }
    StartAnswered(messages, policies);
    Always(cfg, env, messages, policies, host, k, P);
    ExecToolStepsOk(cfg, env, Start(cfg, messages, policies, host), k);
  }

  lemma StartAnswered(messages: seq<ChatMessage>, policies: seq<Policy>)
    ensures Answered(|messages|, Machine(AtTurn(0), StartState(messages, policies)))
  {
  }

  // ---------- read off the places ----------

  /** A tool message at `j` is one of the answers of a completed turn. */
  ghost predicate OfSomeTurn(n0: nat, ms: seq<ChatMessage>, done: seq<CompletedTurn>, j: nat) {
    exists i: nat, at: nat :: i < |done| && n0 <= at < j < EndAt(at, done[i]) && TurnAt(ms, at, done[i])
  }

  ghost predicate Stands(n0: nat, ms: seq<ChatMessage>, t: CompletedTurn) {
    exists at: nat :: n0 <= at && TurnAt(ms, at, t)
  }

  lemma {:induction false} ReadPlaces(n0: nat, ms: seq<ChatMessage>, done: seq<CompletedTurn>, hi: nat)
    requires Placed(n0, ms, done, hi)
    ensures forall i | 0 <= i < |done| :: Stands(n0, ms, done[i])
    ensures forall j: nat | n0 <= j < hi && ms[j].role == TOOL_ROLE :: OfSomeTurn(n0, ms, done, j)
    decreases |done|
  {
    hide TurnAt;
    if done != [] {
      var front, last := done[..|done| - 1], done[|done| - 1];
      var at: nat :| n0 <= at && EndAt(at, last) <= hi
        && TurnAt(ms, at, last) && NoTools(ms, EndAt(at, last), hi) && Placed(n0, ms, front, at);
      ReadPlaces(n0, ms, front, at);
      forall i | 0 <= i < |done| ensures Stands(n0, ms, done[i]) {
        if i < |front| {
          assert Stands(n0, ms, front[i]);
        }
      }
      AssistantNoTool(ms, at, last);
      forall j: nat | n0 <= j < hi && ms[j].role == TOOL_ROLE ensures OfSomeTurn(n0, ms, done, j) {
        if j < at {
          var i: nat, b: nat :| i < |front| && n0 <= b < j < EndAt(b, front[i]) && TurnAt(ms, b, front[i]);
          assert done[i] == front[i];
        } else {
          assert done[|front|] == last;
        }
      }
    }
  }

  lemma AssistantNoTool(ms: seq<ChatMessage>, at: nat, t: CompletedTurn)
    requires TurnAt(ms, at, t)
    ensures ms[at].role != TOOL_ROLE
  {
  }

  /** Where the turn in progress has put its answers: the tail of the conversation. */
  function OpenFrom(m: Machine): nat {
    if InTurn(m.control) && |AnswersOf(ProgressOf(m.control).results)| <= |m.st.messages|
    then |m.st.messages| - |AnswersOf(ProgressOf(m.control).results)| else |m.st.messages|
  }

  /**
   Over every run, whatever the model, the tools, the journal and the crashes do: each completed turn stands in the
   appended conversation, its assistant message followed by one tool message per `Continue` result, in call order,
   with no message for a `Finish` or an `Abort`; the turn in progress stands at the end with the answers so far; and
   every other appended message is no tool message.
   */
  lemma EveryResultAnswered(cfg: Config, env: Env, messages: seq<ChatMessage>, policies: seq<Policy>, host: Host,
                            k: nat)
    ensures var m := Exec(cfg, env, Start(cfg, messages, policies, host), k).machine;
      && Answered(|messages|, m)
      && (forall i | 0 <= i < |m.st.completed| :: Stands(|messages|, m.st.messages, m.st.completed[i]))
      && (forall j: nat | |messages| <= j < OpenFrom(m) && m.st.messages[j].role == TOOL_ROLE ::
            OfSomeTurn(|messages|, m.st.messages, m.st.completed, j))
      && (InTurn(m.control) ==>
            EndsWithTurn(m.st.messages, ContextOf(m.control).assistant, ProgressOf(m.control).results))
  {
    hide Exec, Settle, Placed, AnswersOf, Stands, OfSomeTurn, InOrder, Start;
    var m := Exec(cfg, env, Start(cfg, messages, policies, host), k).machine;
    RunAnswered(cfg, env, messages, policies, host, k);
    ExecShape(cfg, env, messages, policies, host, k);
    ReadPlaces(|messages|, m.st.messages, m.st.completed,
               if InTurn(m.control) then |m.st.messages| - |AnswersOf(ProgressOf(m.control).results)| - 1
               else |m.st.messages|);
  }
}
