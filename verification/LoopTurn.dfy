/** What holds while the calls of one turn are worked through, in any run over any journal. */
module LoopTurn {
  import opened Wrappers
  import opened AgentTypes
  import opened ToolSurface
  import opened Policies
  import opened StepRuntime
  import opened LoopMachine

  /** The tool messages a turn's results give rise to: one per `Continue`, none otherwise. */
  function AnswersOf(results: seq<ToolCallResult>): (answers: seq<ChatMessage>)
    ensures |answers| <= |results|
  {
    if results == [] then []
    else
      var last := results[|results| - 1];
      AnswersOf(results[..|results| - 1])
      + if last.outcome.Continue? then [ChatMessage("tool", Some(last.outcome.content), [], Some(last.call.id))] else []
  }

  predicate AnyFinish(results: seq<ToolCallResult>) {
    exists r | r in results :: r.outcome.Finish?
  }

  /** The reason of the last abort in call order. */
  function LastAbort(results: seq<ToolCallResult>): (reason: Option<string>)
    ensures reason.Some? <==> exists r | r in results :: r.outcome.Abort?
  {
    if results == [] then None
    else
      var last := results[|results| - 1];
      if last.outcome.Abort? then Some(last.outcome.reason) else LastAbort(results[..|results| - 1])
  }

  /** The turn a machine is working through, if it is past the model's answer. */
  predicate InTurn(c: Control) {
    c.AwaitReads? || c.AtCall? || c.AwaitCall?
  }

  function ContextOf(c: Control): TurnContext
    requires InTurn(c)
  {
    match c case AwaitReads(cx) => cx case AtCall(cx, _, _) => cx case AwaitCall(cx, _, _, _) => cx
  }

  function ProgressOf(c: Control): TurnProgress
    requires InTurn(c)
  {
    match c case AwaitReads(_) => NO_PROGRESS case AtCall(_, p, _) => p case AwaitCall(_, p, _, _) => p
  }

  /** The calls still to be accounted for. */
  function RestOf(c: Control): seq<ToolCall>
    requires InTurn(c)
  {
    match c
    case AwaitReads(cx) => cx.assistant.toolCalls
    case AtCall(_, _, rest) => rest
    case AwaitCall(_, _, call, rest) => [call] + rest
  }

  /** Exactly the first calls are accounted for, in order, and the flags say what came of them. */
  ghost predicate InOrder(calls: seq<ToolCall>, p: TurnProgress, rest: seq<ToolCall>) {
    && |p.results| == p.index
    && p.index + |rest| == |calls|
    && rest == calls[p.index..]
    && (forall i | 0 <= i < p.index :: p.results[i].call == calls[i])
    && (p.finishRequested <==> AnyFinish(p.results))
    && p.abortReason == LastAbort(p.results)
  }

  /** The conversation ends with the turn's assistant message and the answers given so far. */
  ghost predicate EndsWithTurn(messages: seq<ChatMessage>, assistant: ChatMessage, results: seq<ToolCallResult>) {
    && |messages| > |AnswersOf(results)|
    && messages[|messages| - |AnswersOf(results)|..] == AnswersOf(results)
    && messages[|messages| - |AnswersOf(results)| - 1] == assistant
  }

  ghost predicate TurnShape(m: Machine) {
    InTurn(m.control) ==>
      var cx, p := ContextOf(m.control), ProgressOf(m.control);
      && cx.assistant.role == "assistant"
      && cx.assistant.toolCalls != []
      && InOrder(cx.assistant.toolCalls, p, RestOf(m.control))
      && EndsWithTurn(m.st.messages, cx.assistant, p.results)
  }

  lemma ResultsPush(results: seq<ToolCallResult>, r: ToolCallResult)
    ensures AnswersOf(results + [r])
            == AnswersOf(results) + if r.outcome.Continue? then [ToolMessage(r.call.id, r.outcome.content)] else []
    ensures AnyFinish(results + [r]) <==> AnyFinish(results) || r.outcome.Finish?
    ensures LastAbort(results + [r]) == if r.outcome.Abort? then Some(r.outcome.reason) else LastAbort(results)
  {
  }

  lemma InOrderPush(calls: seq<ToolCall>, p: TurnProgress, call: ToolCall, rest: seq<ToolCall>, r: ToolCallResult,
                    p': TurnProgress)
    requires InOrder(calls, p, [call] + rest) && r.call == call
    requires p'.index == p.index + 1 && p'.results == p.results + [r]
    requires p'.finishRequested == (p.finishRequested || r.outcome.Finish?)
    requires p'.abortReason == if r.outcome.Abort? then Some(r.outcome.reason) else p.abortReason
    ensures InOrder(calls, p', rest)
  {
    hide AnyFinish, LastAbort;
    ResultsPush(p.results, r);
    assert ([call] + rest)[0] == calls[p.index..][0];
    assert rest == ([call] + rest)[1..] == calls[p.index..][1..] == calls[p'.index..];
  }

  lemma EndsWithTurnPush(messages: seq<ChatMessage>, assistant: ChatMessage, results: seq<ToolCallResult>,
                         r: ToolCallResult)
    requires EndsWithTurn(messages, assistant, results)
    ensures EndsWithTurn(messages + AnswersOf([r]), assistant, results + [r])
  {
  }

  lemma AccountFields(cfg: Config, turn: nat, call: ToolCall, outcome: ToolOutcome, st: LoopState, p: TurnProgress)
    ensures var r := ToolCallResult(call, KindOf(cfg.tools, call.name), outcome);
      var (st', p') := Account(cfg, turn, call, outcome, st, p);
      && p'.index == p.index + 1
      && p'.results == p.results + [r]
      && p'.batched == p.batched - {p.index}
      && p'.finishRequested == (p.finishRequested || outcome.Finish?)
      && p'.abortReason == (if outcome.Abort? then Some(outcome.reason) else p.abortReason)
      && st'.messages == st.messages + AnswersOf([r])
  {
  }

  lemma AccountShape(cfg: Config, cx: TurnContext, p: TurnProgress, call: ToolCall, rest: seq<ToolCall>,
                     outcome: ToolOutcome, st: LoopState)
    requires InOrder(cx.assistant.toolCalls, p, [call] + rest)
    requires EndsWithTurn(st.messages, cx.assistant, p.results)
    ensures var (st', p') := Account(cfg, cx.turn, call, outcome, st, p);
      && InOrder(cx.assistant.toolCalls, p', rest)
      && EndsWithTurn(st'.messages, cx.assistant, p'.results)
  {
    hide Account, InOrder, EndsWithTurn, AnswersOf;
    var r := ToolCallResult(call, KindOf(cfg.tools, call.name), outcome);
    AccountFields(cfg, cx.turn, call, outcome, st, p);
    InOrderPush(cx.assistant.toolCalls, p, call, rest, r, Account(cfg, cx.turn, call, outcome, st, p).1);
    EndsWithTurnPush(st.messages, cx.assistant, p.results, r);
  }

  lemma MoveShape(cfg: Config, m: Machine)
    requires !Awaiting(m.control) && !m.control.Halted?
    requires TurnShape(m)
    ensures TurnShape(Move(cfg, m))
  {
    hide BeforeFrom, AfterFrom, FinishFrom, Tail, Account, LocalOutcome, InOrder, EndsWithTurn;
    match m.control {
      case AtCall(cx, p, rest) =>
        if rest != [] {
          assert rest == [rest[0]] + rest[1..];
          var o := LocalOutcome(cfg, cx.plan, p, rest[0]);
          if o.Some? {
            AccountShape(cfg, cx, p, rest[0], rest[1..], o.value, m.st);
          }
        }
      case _ =>
    }
  }

  lemma {:induction false} SettleShape(cfg: Config, m: Machine)
    requires TurnShape(m)
    ensures TurnShape(Settle(cfg, m))
    decreases Rank(m.control), RestLen(m.control)
  {
    hide Move, TurnShape;
    if !Awaiting(m.control) && !m.control.Halted? {
      MoveShape(cfg, m);
      SettleShape(cfg, Move(cfg, m));
    }
  }

  lemma ProceedShape(cfg: Config, m: Machine, r: StepResult)
    requires Awaiting(m.control) && Answers(m.control, r)
    requires TurnShape(m)
    ensures TurnShape(Deliver(cfg, m, r)) && TurnShape(Proceed(cfg, m, r))
  {
    hide Settle, Account, IsContextOverflow, ReadsOfTurn, CountReads, ByIndex;
    match m.control {
      case AwaitCall(cx, p, call, rest) =>
        if r.Ok? {
          AccountShape(cfg, cx, p, call, rest, r.value.outcome, m.st);
        }
      case _ =>
    }
    SettleShape(cfg, Deliver(cfg, m, r));
  }

  lemma TickShape(cfg: Config, env: Env, s: System)
    requires TurnShape(s.machine)
    ensures TurnShape(Tick(cfg, env, s).machine)
  {
    hide Step, StepNames.Name, Proceed, TurnShape, AskOf;
    if Live(s) {
      var ask := AskOf(cfg, s.machine);
      var ret := Step(cfg.refuse, env, s.host, StepNames.Name(ask.step), ask.effect).0;
      if ret.Returned? {
        StepAnswers(cfg, env, s);
        ProceedShape(cfg, s.machine, ret.result);
      }
    }
  }

  lemma StepAnswers(cfg: Config, env: Env, s: System)
    requires Live(s)
    ensures var ask := AskOf(cfg, s.machine);
      var ret := Step(cfg.refuse, env, s.host, StepNames.Name(ask.step), ask.effect).0;
      ret.Returned? ==> Answers(s.machine.control, ret.result)
  {
    hide Step, StepNames.Name;
  }

  /** At every step of every run the calls of the turn are accounted for in order. */
  lemma {:induction false} ExecShape(cfg: Config, env: Env, messages: seq<ChatMessage>, policies: seq<Policy>,
                                     host: Host, k: nat)
    ensures TurnShape(Exec(cfg, env, Start(cfg, messages, policies, host), k).machine)
  {
    hide Exec, Tick, TurnShape, Settle;
    var s := Start(cfg, messages, policies, host);
    ExecUnfolds(cfg, env, s, if k == 0 then 0 else k - 1);
    if k == 0 {
      StartShape(cfg, Machine(AtTurn(0), StartState(messages, policies)));
    } else {
      ExecShape(cfg, env, messages, policies, host, k - 1);
      TickShape(cfg, env, Exec(cfg, env, s, k - 1));
    }
  }

  lemma StartShape(cfg: Config, m: Machine)
    requires !InTurn(m.control)
    ensures TurnShape(Settle(cfg, m))
  {
    hide Settle;
    SettleShape(cfg, m);
  }
}
