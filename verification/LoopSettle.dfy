/** What the machine does next, one lemma per control point. */
module LoopSettle {
  import opened AgentTypes
  import opened StepNames
  import opened ToolSurface
  import opened Policies
  import opened StepRuntime
  import opened LoopMachine

  lemma TurnUnfolds(cfg: Config, turn: nat, st: LoopState)
    requires turn < cfg.limits.maxTurns
    ensures var (st', plan) := BeforeFrom(cfg, turn, 0, st, FreshPlan(cfg));
      Settle(cfg, Machine(AtTurn(turn), st))
      == if plan.forceFinish then Settle(cfg, Machine(AtTail, st')) else Machine(AwaitModel(turn, plan), st')
  {
    hide BeforeFrom, Tail;
  }

  lemma TailUnfolds(cfg: Config, turn: nat, st: LoopState)
    requires turn <= cfg.limits.maxTurns
    ensures Settle(cfg, Machine(AtTail, st)) == Machine(Halted(Completed(Exhausted)), Tail(cfg, st))
    ensures turn == cfg.limits.maxTurns ==> Settle(cfg, Machine(AtTurn(turn), st)) == Settle(cfg, Machine(AtTail, st))
  {
    hide BeforeFrom, Tail;
  }

  lemma CallUnfolds(cfg: Config, cx: TurnContext, p: TurnProgress, rest: seq<ToolCall>, st: LoopState)
    requires rest != []
    ensures Settle(cfg, Machine(AtCall(cx, p, rest), st))
            == var local := LocalOutcome(cfg, cx.plan, p, rest[0]);
               if local.Some? then
                 var (st', p') := Account(cfg, cx.turn, rest[0], local.value, st, p);
                 Settle(cfg, Machine(AtCall(cx, p', rest[1..]), st'))
               else Machine(AwaitCall(cx, p, rest[0], rest[1..]), st)
  {
    hide LocalOutcome, Account;
  }

  lemma CallsDone(cfg: Config, cx: TurnContext, p: TurnProgress, st: LoopState)
    ensures Settle(cfg, Machine(AtCall(cx, p, []), st)) == Settle(cfg, EndTurn(cfg, cx, p, st))
  {
    hide EndTurn;
  }

  lemma StartIs(cfg: Config, messages: seq<ChatMessage>, policies: seq<Policy>, host: Host)
    ensures Start(cfg, messages, policies, host)
            == System(Settle(cfg, Machine(AtTurn(0), StartState(messages, policies))), host, false, [])
  {
    hide Settle;
  }

  lemma ExecBegins(cfg: Config, env: Env, s: System)
    ensures Exec(cfg, env, s, 0) == s
  {
    hide Tick;
  }

  lemma ModelAsks(cfg: Config, turn: nat, plan: Plan, st: LoopState)
    ensures AskOf(cfg, Machine(AwaitModel(turn, plan), st))
            == Ask(LlmTurn(turn), CompleteModel(st.messages, Specs(OfferedView(cfg, plan))))
  {
  }

  lemma ReadsAsk(cfg: Config, cx: TurnContext, st: LoopState)
    ensures Settle(cfg, Machine(AwaitReads(cx), st)) == Machine(AwaitReads(cx), st)
    ensures AskOf(cfg, Machine(AwaitReads(cx), st))
            == Ask(ToolsBatch(cx.turn),
                               DispatchReads(cx.turn, DispatchView(cfg, cx.plan),
                                             ReadsOf(cfg, cx.plan, cx.assistant.toolCalls, 0)))
  {
  }

  lemma CallAsks(cfg: Config, cx: TurnContext, p: TurnProgress, call: ToolCall, rest: seq<ToolCall>, st: LoopState)
    ensures AskOf(cfg, Machine(AwaitCall(cx, p, call, rest), st))
            == Ask(WriteTool(cx.turn, call.id),
                               DispatchCall(cx.turn, View(cfg.tools, ALL), IndexedCall(p.index, call)))
  {
  }

  lemma ProceedFromModel(cfg: Config, turn: nat, plan: Plan, st: LoopState, r: StepResult)
    requires Answers(AwaitModel(turn, plan), r)
    ensures Proceed(cfg, Machine(AwaitModel(turn, plan), st), r)
            == Settle(cfg, if r.Ok? then OnAssistant(cfg, turn, plan, r.value.assistant, st)
                           else OnModelError(cfg, turn, r.error, st))
    ensures r.Err? && !r.error.Transient? && !IsContextOverflow(r.error) ==>
              Settle(cfg, OnModelError(cfg, turn, r.error, st)) == Machine(Halted(Failed(r.error)), st)
    ensures r.Err? && r.error.Transient? && BreakerTrips(cfg, st.consecutiveFailures + 1) ==>
              Settle(cfg, OnModelError(cfg, turn, r.error, st))
              == Machine(Halted(Failed(r.error)), st.(consecutiveFailures := st.consecutiveFailures + 1))
  {
    hide Move, OnAssistant, IsContextOverflow;
  }

  lemma ProceedFromReads(cfg: Config, cx: TurnContext, st: LoopState, r: StepResult)
    requires Answers(AwaitReads(cx), r)
    ensures Proceed(cfg, Machine(AwaitReads(cx), st), r)
            == if r.Ok? then
                 Settle(cfg, Machine(AtCall(cx, NO_PROGRESS.(batched := ByIndex(r.value.outcomes)),
                                            cx.assistant.toolCalls), st))
               else Machine(Halted(Failed(r.error)), st)
  {
    hide Move, ByIndex;
  }

  lemma ProceedFromCall(cfg: Config, cx: TurnContext, p: TurnProgress, call: ToolCall, rest: seq<ToolCall>,
                        st: LoopState, r: StepResult)
    requires Answers(AwaitCall(cx, p, call, rest), r)
    ensures Proceed(cfg, Machine(AwaitCall(cx, p, call, rest), st), r)
            == if r.Ok? then
                 var (st', p') := Account(cfg, cx.turn, call, r.value.outcome, st, p);
                 Settle(cfg, Machine(AtCall(cx, p', rest), st'))
               else Machine(Halted(Failed(r.error)), st)
  {
    hide Move, Account;
  }
}
