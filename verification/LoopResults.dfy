/**
 What a completed turn holds, in any run over any journal: one result for each of its calls, in call order, and each
 result refused by the loop itself or given by a step of that turn.
 */
module LoopResults {
  import opened Wrappers
  import opened Text
  import opened AgentTypes
  import opened StepNames
  import opened ToolSurface
  import opened Policies
  import opened StepRuntime
  import opened LoopMachine
  import opened LoopTurn
  import opened LoopSequential
  import opened LoopInduction

  /** The loop refuses the call without a step: it is not offered, or it lacks the id its tool needs. */
  predicate Refused(cfg: Config, plan: Plan, call: ToolCall, outcome: ToolOutcome) {
    || (plan.guardOffered && !Offered(OfferedView(cfg, plan), call.name)
        && outcome == cfg.refuse(NotOffered(call.name)))
    || (ReplayOf(cfg.tools, call.name) == Some(NeedsDedupKey) && Trim(call.id) == []
        && outcome == cfg.refuse(MissingCallId(call.name)))
  }

  /** The step is the turn's batch, and its result has the outcome for index `i`. */
  predicate Batched(o: Observation, turn: nat, i: nat, outcome: ToolOutcome) {
    && o.step == ToolsBatch(turn) && o.result.Ok? && o.result.value.ReadsValue?
    && i in ByIndex(o.result.value.outcomes) && ByIndex(o.result.value.outcomes)[i] == outcome
  }

  /** The step is the call's own, and its result is the outcome. */
  predicate Stepped(o: Observation, turn: nat, call: ToolCall, outcome: ToolOutcome) {
    o.step == WriteTool(turn, call.id) && o.result == Ok(OutcomeValue(outcome))
  }

  /** Some completed step of the turn gave call `i` that outcome. */
  ghost predicate Given(obs: seq<Observation>, turn: nat, i: nat, call: ToolCall, outcome: ToolOutcome) {
    exists k | 0 <= k < |obs| :: Batched(obs[k], turn, i, outcome) || Stepped(obs[k], turn, call, outcome)
  }

  /** Result `i` is that of call `i`, and its outcome has a source in the turn. */
  ghost predicate Sourced(cfg: Config, obs: seq<Observation>, cx: TurnContext, i: nat, r: ToolCallResult) {
    && i < |cx.assistant.toolCalls|
    && r.call == cx.assistant.toolCalls[i]
    && r.kind == KindOf(cfg.tools, r.call.name)
    && (Refused(cfg, cx.plan, r.call, r.outcome) || Given(obs, cx.turn, i, r.call, r.outcome))
  }

  ghost predicate AllSourced(cfg: Config, obs: seq<Observation>, cx: TurnContext, results: seq<ToolCallResult>) {
    forall i | 0 <= i < |results| :: Sourced(cfg, obs, cx, i, results[i])
  }

  /** The turn has one result for each of its calls, in call order. */
  ghost predicate WholeTurn(cfg: Config, obs: seq<Observation>, t: CompletedTurn) {
    |t.results| == |t.cx.assistant.toolCalls| && AllSourced(cfg, obs, t.cx, t.results)
  }

  ghost predicate BatchGiven(obs: seq<Observation>, turn: nat, batched: map<nat, ToolOutcome>) {
    forall i | i in batched :: exists k | 0 <= k < |obs| :: Batched(obs[k], turn, i, batched[i])
  }

  ghost predicate WholeSoFar(cfg: Config, obs: seq<Observation>, m: Machine) {
    && (forall i | 0 <= i < |m.st.completed| :: WholeTurn(cfg, obs, m.st.completed[i]))
    && (InTurn(m.control) ==>
          && AllSourced(cfg, obs, ContextOf(m.control), ProgressOf(m.control).results)
          && BatchGiven(obs, ContextOf(m.control).turn, ProgressOf(m.control).batched))
  }

  /** What had a source keeps it as the history grows. */
  lemma SourcesStay(cfg: Config, obs: seq<Observation>, o: Observation, m: Machine)
    requires WholeSoFar(cfg, obs, m)
    ensures WholeSoFar(cfg, obs + [o], m)
  {
    hide Refused, Batched, Stepped;
    assert forall k | 0 <= k < |obs| :: (obs + [o])[k] == obs[k];
    forall cx, results: seq<ToolCallResult> | AllSourced(cfg, obs, cx, results)
      ensures AllSourced(cfg, obs + [o], cx, results)
    {
      forall i | 0 <= i < |results| ensures Sourced(cfg, obs + [o], cx, i, results[i]) {
        assert Sourced(cfg, obs, cx, i, results[i]);
      }
    }
    forall i | 0 <= i < |m.st.completed| ensures WholeTurn(cfg, obs + [o], m.st.completed[i]) {
      assert WholeTurn(cfg, obs, m.st.completed[i]);
    }
  }

  /** A call that needs no step of its own is refused, or was batched. */
  lemma LocalIsSourced(cfg: Config, obs: seq<Observation>, cx: TurnContext, p: TurnProgress, call: ToolCall)
    requires BatchGiven(obs, cx.turn, p.batched) && LocalOutcome(cfg, cx.plan, p, call).Some?
    ensures var outcome := LocalOutcome(cfg, cx.plan, p, call).value;
      Refused(cfg, cx.plan, call, outcome) || Given(obs, cx.turn, p.index, call, outcome)
  {
    hide Batched, Offered, ReplayOf, Trim;
  }

  lemma AccountSourced(cfg: Config, obs: seq<Observation>, cx: TurnContext, p: TurnProgress, call: ToolCall,
                       rest: seq<ToolCall>, outcome: ToolOutcome, st: LoopState)
    requires InOrder(cx.assistant.toolCalls, p, [call] + rest)
    requires AllSourced(cfg, obs, cx, p.results) && BatchGiven(obs, cx.turn, p.batched)
    requires Refused(cfg, cx.plan, call, outcome) || Given(obs, cx.turn, p.index, call, outcome)
    ensures var (st', p') := Account(cfg, cx.turn, call, outcome, st, p);
      AllSourced(cfg, obs, cx, p'.results) && BatchGiven(obs, cx.turn, p'.batched) && st'.completed == st.completed
  {
    hide Refused, Given, Batched, AnyFinish, LastAbort;
    AccountFields(cfg, cx.turn, call, outcome, st, p);
    assert ([call] + rest)[0] == cx.assistant.toolCalls[p.index..][0];
  }

  lemma MoveWhole(cfg: Config, obs: seq<Observation>, m: Machine)
    requires Moving(m) && TurnShape(m) && WholeSoFar(cfg, obs, m)
    ensures WholeSoFar(cfg, obs, Move(cfg, m))
  {
    hide BeforeFrom, ExhaustedFrom, EndTurn, Account, LocalOutcome, EndsWithTurn, AllSourced, BatchGiven, Refused,
         Given, AnyFinish, LastAbort;
    match m.control {
      case AtTurn(turn) => BeforeKeepsCompleted(cfg, turn, 0, m.st, FreshPlan(cfg));
      case AtTail =>
        ExhaustedKeepsCompleted(cfg, 0, Recorded(m.st, PolicyEvent(cfg.limits.maxTurns, "exhausted",
          ExhaustedDetail(m.st.contextOverflow, m.st.stats.findingsRecorded))));
      case AtCall(cx, p, rest) =>
        if rest == [] {
          EndTurnCompletes(cfg, cx, p, m.st);
          var done := EndTurn(cfg, cx, p, m.st).st.completed;
          assert |p.results| == p.index == |cx.assistant.toolCalls|;
          assert forall i | 0 <= i < |m.st.completed| :: done[i] == done[..|m.st.completed|][i] == m.st.completed[i];
        } else {
          assert rest == [rest[0]] + rest[1..];
          var o := LocalOutcome(cfg, cx.plan, p, rest[0]);
          if o.Some? {
            LocalIsSourced(cfg, obs, cx, p, rest[0]);
            AccountSourced(cfg, obs, cx, p, rest[0], rest[1..], o.value, m.st);
          }
        }
    }
  }

  lemma DeliverWhole(cfg: Config, obs: seq<Observation>, m: Machine, r: StepResult)
    requires Awaiting(m.control) && Answers(m.control, r) && TurnShape(m) && WholeSoFar(cfg, obs, m)
    ensures WholeSoFar(cfg, obs + [Observation(m, AskOf(cfg, m).step, r)], Deliver(cfg, m, r))
  {
    hide Account, IsContextOverflow, ReadsOfTurn, CountReads, ByIndex, EndsWithTurn, WholeTurn, Refused, AllSourced,
         AnyFinish, LastAbort, View;
    var o := Observation(m, AskOf(cfg, m).step, r);
    var more := obs + [o];
    SourcesStay(cfg, obs, o, m);
    NothingSourced(cfg, more);
    assert more[|obs|] == o;
    match m.control {
      case AwaitModel(_, _) =>
      case AwaitReads(cx) =>
        if r.Ok? {
          forall i | i in ByIndex(r.value.outcomes)
            ensures Batched(more[|obs|], cx.turn, i, ByIndex(r.value.outcomes)[i]) {
          }
        }
      case AwaitCall(cx, p, call, rest) =>
        if r.Ok? {
          assert Stepped(more[|obs|], cx.turn, call, r.value.outcome);
          AccountSourced(cfg, more, cx, p, call, rest, r.value.outcome, m.st);
        }
    }
  }

  lemma NothingSourced(cfg: Config, obs: seq<Observation>)
    ensures forall cx :: AllSourced(cfg, obs, cx, [])
  {
  }

  /**
   In every run, over any journal, with any faults, every completed turn holds exactly one result per call, in call
   order, and each outcome is the loop's own refusal of that call or what a completed step of that turn gave for it.
   */
  lemma EveryCallHasItsResult(cfg: Config, env: Env, messages: seq<ChatMessage>, policies: seq<Policy>, host: Host,
                              k: nat)
    ensures var s := Exec(cfg, env, Start(cfg, messages, policies, host), k);
      forall t | t in s.machine.st.completed ::
        && |t.results| == |t.cx.assistant.toolCalls|
        && forall i | 0 <= i < |t.results| :: Sourced(cfg, s.observed, t.cx, i, t.results[i])
  {
    hide Exec, Settle, Sourced, Refused, Given, Move, Deliver, TurnShape;
    var P: Property := (obs: seq<Observation>, m: Machine) => WholeSoFar(cfg, obs, m);
    forall obs: seq<Observation>, m: Machine | Moving(m) && TurnShape(m) && P(obs, m) ensures P(obs, Move(cfg, m)) {
      MoveWhole(cfg, obs, m);
    }
    forall obs: seq<Observation>, m: Machine, r: StepResult
      | Awaiting(m.control) && Answers(m.control, r) && TurnShape(m) && P(obs, m)
      ensures P(obs + [Observation(m, AskOf(cfg, m).step, r)], Deliver(cfg, m, r))
    {
      DeliverWhole(cfg, obs, m, r);
    }
    Always(cfg, env, messages, policies, host, k, P);
  }
}
