/**
 Batched dispatch refines sequential dispatch. In a run that replays nothing, every completed turn holds one result
 per call, in call order, and each is what dispatching that call alone would give.
 */
module LoopSequential {
  import opened Wrappers
  import opened AgentTypes
  import opened StepNames
  import opened ToolSurface
  import opened Policies
  import opened StepRuntime
  import opened LoopMachine
  import opened LoopTurn
  import opened LoopDispatch

  /** What the registry guarantees. */
  ghost predicate UniqueNames(tools: seq<Tool>) {
    forall i, j | 0 <= i < j < |tools| :: tools[i].spec.name != tools[j].spec.name
  }

  lemma {:induction false} FindInView(tools: seq<Tool>, filter: TurnFilter, name: string)
    requires UniqueNames(tools) && Offered(View(tools, filter), name)
    ensures Find(View(tools, filter), name) == Find(tools, name)
  {
    var t :| t in View(tools, filter) && t.spec.name == name;
    UniqueTool(tools, name, Find(View(tools, filter), name).value, Find(tools, name).value);
  }

  lemma UniqueTool(tools: seq<Tool>, name: string, a: Tool, b: Tool)
    requires UniqueNames(tools) && a in tools && b in tools && a.spec.name == name && b.spec.name == name
    ensures a == b
  {
  }

  /** The outcome of one call dispatched by itself at some tick: guarded if the turn is, else on every tool. */
  function DirectOutcome(cfg: Config, world: World, tick: nat, plan: Plan, c: IndexedCall): ToolOutcome {
    if plan.guardOffered && !Offered(OfferedView(cfg, plan), c.call.name) then cfg.refuse(NotOffered(c.call.name))
    else OutcomeOf(cfg.refuse, world, tick, View(cfg.tools, ALL), c)
  }

  /** The ticks of a run's own steps, from its first on. */
  datatype Ticks = Ticks(from: nat, until: nat)

  /** The outcome is what direct dispatch gave at one of those ticks. */
  ghost predicate Direct(cfg: Config, world: World, ticks: Ticks, plan: Plan, c: IndexedCall, outcome: ToolOutcome) {
    exists tick | ticks.from <= tick < ticks.until :: outcome == DirectOutcome(cfg, world, tick, plan, c)
  }

  /** Result `i` answers call `i` directly. */
  ghost predicate DirectResult(cfg: Config, world: World, ticks: Ticks, cx: TurnContext, i: nat, r: ToolCallResult) {
    && i < |cx.assistant.toolCalls|
    && r.call == cx.assistant.toolCalls[i]
    && r.kind == KindOf(cfg.tools, r.call.name)
    && Direct(cfg, world, ticks, cx.plan, IndexedCall(i, r.call), r.outcome)
  }

  ghost predicate DirectTurn(cfg: Config, world: World, ticks: Ticks, t: CompletedTurn) {
    && |t.results| == |t.cx.assistant.toolCalls|
    && forall i | 0 <= i < |t.results| :: DirectResult(cfg, world, ticks, t.cx, i, t.results[i])
  }

  ghost predicate DirectBatch(cfg: Config, world: World, ticks: Ticks, cx: TurnContext,
                              batched: map<nat, ToolOutcome>) {
    forall i | i in batched ::
      && i < |cx.assistant.toolCalls|
      && Direct(cfg, world, ticks, cx.plan, IndexedCall(i, cx.assistant.toolCalls[i]), batched[i])
  }

  ghost predicate DirectSoFar(cfg: Config, world: World, ticks: Ticks, m: Machine) {
    && (forall i | 0 <= i < |m.st.completed| :: DirectTurn(cfg, world, ticks, m.st.completed[i]))
    && (InTurn(m.control) ==>
          var cx, p := ContextOf(m.control), ProgressOf(m.control);
          && ticks.from < ticks.until
          && (forall i | 0 <= i < |p.results| :: DirectResult(cfg, world, ticks, cx, i, p.results[i]))
          && DirectBatch(cfg, world, ticks, cx, p.batched))
  }

  /** What was direct stays direct as the run goes on. */
  lemma DirectGrows(cfg: Config, world: World, ticks: Ticks, m: Machine)
    requires DirectSoFar(cfg, world, ticks, m)
    ensures DirectSoFar(cfg, world, ticks.(until := ticks.until + 1), m)
  {
    hide DirectOutcome;
    var more := ticks.(until := ticks.until + 1);
    forall plan, c, o | Direct(cfg, world, ticks, plan, c, o) ensures Direct(cfg, world, more, plan, c, o) {
      var tick :| ticks.from <= tick < ticks.until && o == DirectOutcome(cfg, world, tick, plan, c);
    }
    hide Direct;
    forall i | 0 <= i < |m.st.completed| ensures DirectTurn(cfg, world, more, m.st.completed[i]) {
      assert DirectTurn(cfg, world, ticks, m.st.completed[i]);
    }
  }

  /** A call refused or served from the batch gets what direct dispatch gives. */
  lemma LocalIsDirect(cfg: Config, world: World, ticks: Ticks, cx: TurnContext, p: TurnProgress, call: ToolCall)
    requires p.index < |cx.assistant.toolCalls| && call == cx.assistant.toolCalls[p.index]
    requires DirectBatch(cfg, world, ticks, cx, p.batched) && ticks.from < ticks.until
    requires LocalOutcome(cfg, cx.plan, p, call).Some?
    ensures Direct(cfg, world, ticks, cx.plan, IndexedCall(p.index, call), LocalOutcome(cfg, cx.plan, p, call).value)
  {
    hide Offered, View;
    ViewOfAll(cfg.tools);
    if p.index !in p.batched {
      assert LocalOutcome(cfg, cx.plan, p, call).value
          == DirectOutcome(cfg, world, ticks.from, cx.plan, IndexedCall(p.index, call));
    }
  }

  lemma AccountDirect(cfg: Config, world: World, ticks: Ticks, cx: TurnContext, p: TurnProgress, call: ToolCall,
                      rest: seq<ToolCall>, outcome: ToolOutcome, st: LoopState)
    requires InOrder(cx.assistant.toolCalls, p, [call] + rest)
    requires forall i | 0 <= i < |p.results| :: DirectResult(cfg, world, ticks, cx, i, p.results[i])
    requires DirectBatch(cfg, world, ticks, cx, p.batched)
    requires Direct(cfg, world, ticks, cx.plan, IndexedCall(p.index, call), outcome)
    ensures var (st', p') := Account(cfg, cx.turn, call, outcome, st, p);
      && (forall i | 0 <= i < |p'.results| :: DirectResult(cfg, world, ticks, cx, i, p'.results[i]))
      && DirectBatch(cfg, world, ticks, cx, p'.batched)
      && st'.completed == st.completed
  {
    hide Direct, AnyFinish, LastAbort;
    AccountFields(cfg, cx.turn, call, outcome, st, p);
    assert ([call] + rest)[0] == cx.assistant.toolCalls[p.index..][0];
  }

  lemma {:induction false} BeforeKeepsCompleted(cfg: Config, turn: nat, i: nat, st: LoopState, plan: Plan)
    requires i <= |st.policies|
    ensures BeforeFrom(cfg, turn, i, st, plan).0.completed == st.completed
    ensures BeforeFrom(cfg, turn, i, st, plan).0.consecutiveFailures == st.consecutiveFailures
    decreases |st.policies| - i
  {
    hide Respond, ApplyAllBefore;
    if i < |st.policies| {
      var (st', plan') := BeforePolicy(cfg, turn, i, st, plan);
      var hook := BeforeHook(StateFor(cfg, turn, st, plan.converging));
      var (p, actions) := Respond(st.policies[i], hook);
      ApplyAllBeforeKeeps(cfg, turn, p.Name(), actions, Told(st, i, p, hook, actions), plan);
      BeforeKeepsCompleted(cfg, turn, i + 1, st', plan');
    }
  }

  lemma {:induction false} FinishKeepsCompleted(cfg: Config, turn: nat, converging: bool, outcome: TurnOutcome, i: nat,
                                                st: LoopState)
    requires i <= |st.policies|
    ensures FinishFrom(cfg, turn, converging, outcome, i, st).completed == st.completed
    ensures FinishFrom(cfg, turn, converging, outcome, i, st).consecutiveFailures == st.consecutiveFailures
    decreases |st.policies| - i
  {
    hide Respond;
    if i < |st.policies| {
      var hook := FinishHook(StateFor(cfg, turn, st, converging), outcome);
      var (p, actions) := Respond(st.policies[i], hook);
      FinishKeepsCompleted(cfg, turn, converging, outcome, i + 1,
                           ApplyRecords(turn, p.Name(), actions, Told(st, i, p, hook, actions)));
    }
  }

  lemma {:induction false} ExhaustedKeepsCompleted(cfg: Config, i: nat, st: LoopState)
    requires i <= |st.policies|
    ensures ExhaustedFrom(cfg, i, st).completed == st.completed
    ensures ExhaustedFrom(cfg, i, st).consecutiveFailures == st.consecutiveFailures
    decreases |st.policies| - i
  {
    hide Respond;
    if i < |st.policies| {
      var turn := cfg.limits.maxTurns;
      var hook := ExhaustedHook(StateFor(cfg, turn, st, true));
      var (p, actions) := Respond(st.policies[i], hook);
      ExhaustedKeepsCompleted(cfg, i + 1, ApplyRecords(turn, p.Name(), actions, Told(st, i, p, hook, actions)));
    }
  }

  /** The turn an `EndTurn` completes is the one it was given, with the results it was given. */
  lemma EndTurnCompletes(cfg: Config, cx: TurnContext, p: TurnProgress, st: LoopState)
    ensures var next := EndTurn(cfg, cx, p, st);
      && |next.st.completed| == |st.completed| + 1
      && next.st.completed[..|st.completed|] == st.completed
      && next.st.completed[|st.completed|].cx == cx && next.st.completed[|st.completed|].results == p.results
      && next.st.consecutiveFailures == st.consecutiveFailures
      && !InTurn(next.control)
      && (next.control == Halted(Completed(Finished)) <==>
            p.abortReason.None? && p.finishRequested && !next.st.completed[|st.completed|].rejected)
      && (forall reason :: next.control == Halted(Completed(Aborted(reason))) <==> p.abortReason == Some(reason))
      && (next.control.Halted? || next.control == AtTurn(cx.turn + 1))
  {
    hide AfterFrom, FinishFrom;
    var outcome := TurnOutcome(cx.assistant, p.results, p.finishRequested, p.abortReason);
    var (s, reject) := AfterFrom(cfg, cx.turn, cx.plan.converging, outcome, 0, st, false);
    FinishKeepsCompleted(cfg, cx.turn, cx.plan.converging, outcome, 0,
                         s.(completed := s.completed + [CompletedTurn(cx, p.results, reject)]));
  }

  lemma MoveDirect(cfg: Config, world: World, ticks: Ticks, m: Machine)
    requires !Awaiting(m.control) && !m.control.Halted? && TurnShape(m)
    requires DirectSoFar(cfg, world, ticks, m)
    ensures DirectSoFar(cfg, world, ticks, Move(cfg, m))
  {
    hide BeforeFrom, ExhaustedFrom, EndTurn, Account, LocalOutcome, EndsWithTurn, DirectResult, DirectBatch,
         DirectTurn, AnyFinish, LastAbort;
    match m.control {
      case AtTurn(turn) => BeforeKeepsCompleted(cfg, turn, 0, m.st, FreshPlan(cfg));
      case AtTail =>
        ExhaustedKeepsCompleted(cfg, 0, Recorded(m.st, PolicyEvent(cfg.limits.maxTurns, "exhausted",
          ExhaustedDetail(m.st.contextOverflow, m.st.stats.findingsRecorded))));
      case AtCall(cx, p, rest) =>
        if rest == [] {
          EndTurnCompletes(cfg, cx, p, m.st);
          var done := EndTurn(cfg, cx, p, m.st).st.completed;
          var t := done[|m.st.completed|];
          assert DirectTurn(cfg, world, ticks, t) by {
            assert |t.results| == p.index == |cx.assistant.toolCalls|;
            DirectTurnFrom(cfg, world, ticks, t);
          }
          assert forall i | 0 <= i < |m.st.completed| :: done[i] == done[..|m.st.completed|][i] == m.st.completed[i];
        } else {
          assert rest == [rest[0]] + rest[1..];
          assert rest[0] == cx.assistant.toolCalls[p.index..][0];
          var o := LocalOutcome(cfg, cx.plan, p, rest[0]);
          if o.Some? {
            LocalIsDirect(cfg, world, ticks, cx, p, rest[0]);
            AccountDirect(cfg, world, ticks, cx, p, rest[0], rest[1..], o.value, m.st);
          }
        }
    }
  }

  lemma DirectTurnFrom(cfg: Config, world: World, ticks: Ticks, t: CompletedTurn)
    requires |t.results| == |t.cx.assistant.toolCalls|
    requires forall i | 0 <= i < |t.results| :: DirectResult(cfg, world, ticks, t.cx, i, t.results[i])
    ensures DirectTurn(cfg, world, ticks, t)
  {
  }

  lemma {:induction false} SettleDirect(cfg: Config, world: World, ticks: Ticks, m: Machine)
    requires TurnShape(m) && DirectSoFar(cfg, world, ticks, m)
    ensures DirectSoFar(cfg, world, ticks, Settle(cfg, m))
    decreases Rank(m.control), RestLen(m.control)
  {
    hide Move, TurnShape, DirectSoFar;
    if !Awaiting(m.control) && !m.control.Halted? {
      MoveDirect(cfg, world, ticks, m);
      MoveShape(cfg, m);
      SettleDirect(cfg, world, ticks, Move(cfg, m));
    }
  }

  /** Reads dispatched through the turn's view answer as they would through the whole registry. */
  lemma BatchIsDirect(cfg: Config, world: World, ticks: Ticks, tick: nat, cx: TurnContext)
    requires UniqueNames(cfg.tools) && ticks.from <= tick < ticks.until
    ensures DirectBatch(cfg, world, ticks, cx,
              ByIndex(ReadOutcomes(cfg.refuse, world, tick, DispatchView(cfg, cx.plan), ReadsOfTurn(cfg, cx))))
  {
    hide ReadOutcomes, ByIndex, View, Find, Offered;
    var calls, view, batch := cx.assistant.toolCalls, DispatchView(cfg, cx.plan), ReadsOfTurn(cfg, cx);
    var outcomes := ReadOutcomes(cfg.refuse, world, tick, view, batch);
    assert calls[0..] == calls;
    ReadsOfExact(cfg, cx.plan, calls, 0);
    ReadOutcomesExact(cfg.refuse, world, tick, view, batch);
    ByIndexExact(outcomes);
    forall i | i in ByIndex(outcomes)
      ensures i < |calls| && Direct(cfg, world, ticks, cx.plan, IndexedCall(i, calls[i]), ByIndex(outcomes)[i])
    {
      var k :| 0 <= k < |outcomes| && outcomes[k] == (i, ByIndex(outcomes)[i]);
      assert batch[k] in batch && batch[k] == IndexedCall(i, calls[i]);
      if cx.plan.guardOffered {
        FindInView(cfg.tools, cx.plan.filter, calls[i].name);
        ViewOfAll(cfg.tools);
      }
      assert ByIndex(outcomes)[i] == DirectOutcome(cfg, world, tick, cx.plan, batch[k]);
    }
  }

  lemma DeliverDirect(cfg: Config, world: World, ticks: Ticks, tick: nat, m: Machine, r: StepResult)
    requires Awaiting(m.control) && Answers(m.control, r) && TurnShape(m) && Unanswered(cfg, m)
    requires UniqueNames(cfg.tools) && DirectSoFar(cfg, world, ticks, m) && ticks.from <= tick < ticks.until
    requires r == Perform(cfg.refuse, world, tick, AskOf(cfg, m).effect).0
    ensures DirectSoFar(cfg, world, ticks, Deliver(cfg, m, r))
  {
    hide Account, IsContextOverflow, ReadsOfTurn, CountReads, ByIndex, EndsWithTurn, DirectResult, DirectTurn,
         AnyFinish, LastAbort, UniqueNames, Find;
    match m.control {
      case AwaitReads(cx) => BatchIsDirect(cfg, world, ticks, tick, cx);
      case AwaitCall(cx, p, call, rest) =>
        assert r.value.outcome == DirectOutcome(cfg, world, tick, cx.plan, IndexedCall(p.index, call));
        AccountDirect(cfg, world, ticks, cx, p, call, rest, r.value.outcome, m.st);
      case AwaitModel(_, _) =>
    }
  }

  lemma TickDirect(cfg: Config, env: Env, base: nat, s: System)
    requires env.runtime == Passthrough && UniqueNames(cfg.tools) && base <= |s.host.trace|
    requires TurnShape(s.machine) && Unanswered(cfg, s.machine)
    requires DirectSoFar(cfg, env.world, Ticks(base, |s.host.trace|), s.machine)
    ensures base <= |Tick(cfg, env, s).host.trace|
    ensures DirectSoFar(cfg, env.world, Ticks(base, |Tick(cfg, env, s).host.trace|), Tick(cfg, env, s).machine)
  {
    hide Name, AskOf, Perform, TurnShape, Unanswered, DirectSoFar, Settle, Deliver, UniqueNames;
    if Live(s) {
      var ask := AskOf(cfg, s.machine);
      var ret := Step(cfg.refuse, env, s.host, Name(ask.step), ask.effect).0;
      var ticks := Ticks(base, |s.host.trace| + 1);
      DirectGrows(cfg, env.world, Ticks(base, |s.host.trace|), s.machine);
      if ret.Returned? {
        LoopTurn.StepAnswers(cfg, env, s);
        DeliverDirect(cfg, env.world, ticks, |s.host.trace|, s.machine, ret.result);
        ProceedShape(cfg, s.machine, ret.result);
        SettleDirect(cfg, env.world, ticks, Deliver(cfg, s.machine, ret.result));
      }
    }
  }

  /**
   In a plain run every completed turn has exactly one result per call, in call order, each the outcome of dispatching
   that call directly at one of the run's own steps. The batch size plays no part.
   */
  lemma {:induction false} TurnsAreSequential(cfg: Config, env: Env, messages: seq<ChatMessage>, policies: seq<Policy>,
                                              host: Host, k: nat)
    requires env.runtime == Passthrough && UniqueNames(cfg.tools)
    ensures var s := Exec(cfg, env, Start(cfg, messages, policies, host), k);
      && |host.trace| <= |s.host.trace|
      && DirectSoFar(cfg, env.world, Ticks(|host.trace|, |s.host.trace|), s.machine)
      && forall t | t in s.machine.st.completed :: DirectTurn(cfg, env.world, Ticks(|host.trace|, |s.host.trace|), t)
  {
    hide Exec, Tick, Settle, TurnShape, Unanswered, DirectTurn, UniqueNames;
    var s := Start(cfg, messages, policies, host);
    ExecUnfolds(cfg, env, s, if k == 0 then 0 else k - 1);
    if k == 0 {
      StartDirect(cfg, env.world, Ticks(|host.trace|, |host.trace|),
                  Machine(AtTurn(0), StartState(messages, policies)));
    } else {
      TurnsAreSequential(cfg, env, messages, policies, host, k - 1);
      ExecShape(cfg, env, messages, policies, host, k - 1);
      EachCallRunsOnce(cfg, env, messages, policies, host, k - 1);
      TickDirect(cfg, env, |host.trace|, Exec(cfg, env, s, k - 1));
    }
  }

  lemma StartDirect(cfg: Config, world: World, ticks: Ticks, m: Machine)
    requires !InTurn(m.control) && m.st.completed == []
    ensures DirectSoFar(cfg, world, ticks, Settle(cfg, m))
  {
    hide Settle;
    SettleDirect(cfg, world, ticks, m);
  }

  /** Under the guard nothing outside the offered view runs, in any run over any journal. */
  lemma GuardedRuns(cfg: Config, env: Env, messages: seq<ChatMessage>, policies: seq<Policy>, host: Host, k: nat)
    ensures var s := Exec(cfg, env, Start(cfg, messages, policies, host), k);
      forall r | r in Tick(cfg, env, s).host.ran - s.host.ran ::
        && InTurn(s.machine.control)
        && r.turn == ContextOf(s.machine.control).turn
        && (ContextOf(s.machine.control).plan.guardOffered ==>
              Offered(OfferedView(cfg, ContextOf(s.machine.control).plan), r.call.name))
  {
    hide Exec, Step, Name, Proceed, TurnShape, Unanswered, RanOnce, Settle, Perform, AskOf;
    var s := Exec(cfg, env, Start(cfg, messages, policies, host), k);
    ExecShape(cfg, env, messages, policies, host, k);
    EachCallRunsOnce(cfg, env, messages, policies, host, k);
    if Live(s) {
      var ask := AskOf(cfg, s.machine);
      StepRuns(cfg.refuse, env, s.host, Name(ask.step), ask.effect);
      PerformGuarded(cfg, env.world, |s.host.trace|, s.machine);
    }
  }

  lemma PerformGuarded(cfg: Config, world: World, tick: nat, m: Machine)
    requires Awaiting(m.control) && TurnShape(m) && Unanswered(cfg, m)
    ensures forall r | r in Perform(cfg.refuse, world, tick, AskOf(cfg, m).effect).1 ::
              && InTurn(m.control) && r.turn == ContextOf(m.control).turn
              && (ContextOf(m.control).plan.guardOffered ==>
                    Offered(OfferedView(cfg, ContextOf(m.control).plan), r.call.name))
  {
    hide ReadsOf, ReadRuns, ReadOutcomes, View, TurnShape;
    PerformRuns(cfg, world, tick, m);
    match m.control {
      case AwaitReads(cx) =>
        var calls := cx.assistant.toolCalls;
        assert calls[0..] == calls;
        ReadsOfExact(cfg, cx.plan, calls, 0);
        ReadRunsExact(cx.turn, DispatchView(cfg, cx.plan), ReadsOfTurn(cfg, cx));
      case _ =>
    }
  }
}
