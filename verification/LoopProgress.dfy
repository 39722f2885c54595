/** A run only moves on: turns and counters never go back, whatever the policies. */
module LoopProgress {
  import opened Wrappers
  import opened AgentTypes
  import opened ToolSurface
  import opened Policies
  import opened StepRuntime
  import opened LoopMachine
  import opened LoopTurn
  import opened LoopInduction

  /** The counters only grow. */
  predicate StatsGrow(a: LoopStats, c: LoopStats) {
    && a.filesRead <= c.filesRead && a.searches <= c.searches && a.batches <= c.batches
    && a.successfulWrites <= c.successfulWrites
  }

  lemma {:induction false} CountReadsGrow(cfg: Config, calls: seq<ToolCall>, stats: LoopStats)
    ensures StatsGrow(stats, CountReads(cfg, calls, stats))
    decreases |calls|
  {
    if calls != [] {
      var next := match KindOf(cfg.tools, calls[0].name)
        case Some(ReadOnly(File)) => stats.(filesRead := stats.filesRead + 1)
        case Some(ReadOnly(Retrieval)) => stats.(searches := stats.searches + 1)
        case _ => stats;
      CountReadsGrow(cfg, calls[1..], next);
    }
  }

  /** All counters but the findings, which a policy sets. */
  predicate SameBudgetStats(a: LoopStats, c: LoopStats) {
    && a.filesRead == c.filesRead && a.searches == c.searches && a.batches == c.batches
    && a.successfulWrites == c.successfulWrites
  }

  lemma {:induction false} AfterStats(cfg: Config, turn: nat, name: string, actions: seq<PolicyAction>, st: LoopState,
                                      reject: bool)
    ensures SameBudgetStats(st.stats, ApplyAllAfter(cfg, turn, name, actions, st, reject).0.stats)
    decreases |actions|
  {
    if actions != [] {
      var (st', reject') := ApplyAfter(cfg, turn, name, actions[0], st, reject);
      AfterStats(cfg, turn, name, actions[1..], st', reject');
    }
  }

  lemma {:induction false} BeforeStats(cfg: Config, turn: nat, i: nat, st: LoopState, plan: Plan)
    requires i <= |st.policies|
    ensures BeforeFrom(cfg, turn, i, st, plan).0.stats == st.stats
    decreases |st.policies| - i
  {
    hide Respond, ApplyAllBefore;
    if i < |st.policies| {
      var (st', plan') := BeforePolicy(cfg, turn, i, st, plan);
      var hook := BeforeHook(StateFor(cfg, turn, st, plan.converging));
      var (p, actions) := Respond(st.policies[i], hook);
      ApplyAllBeforeKeeps(cfg, turn, p.Name(), actions, Told(st, i, p, hook, actions), plan);
      BeforeStats(cfg, turn, i + 1, st', plan');
    }
  }

  lemma {:induction false} AfterFromStats(cfg: Config, turn: nat, converging: bool, outcome: TurnOutcome, i: nat,
                                          st: LoopState, reject: bool)
    requires i <= |st.policies|
    ensures SameBudgetStats(st.stats, AfterFrom(cfg, turn, converging, outcome, i, st, reject).0.stats)
    decreases |st.policies| - i
  {
    hide Respond, ApplyAllAfter;
    if i < |st.policies| {
      var hook := AfterHook(StateFor(cfg, turn, st, converging), outcome);
      var (p, actions) := Respond(st.policies[i], hook);
      var s := Told(st, i, p, hook, actions);
      AfterStats(cfg, turn, p.Name(), actions, s, reject);
      var (st', reject') := ApplyAllAfter(cfg, turn, p.Name(), actions, s, reject);
      AfterFromStats(cfg, turn, converging, outcome, i + 1, st', reject');
    }
  }

  lemma {:induction false} FinishStats(cfg: Config, turn: nat, converging: bool, outcome: TurnOutcome, i: nat,
                                       st: LoopState)
    requires i <= |st.policies|
    ensures FinishFrom(cfg, turn, converging, outcome, i, st).stats == st.stats
    decreases |st.policies| - i
  {
    hide Respond;
    if i < |st.policies| {
      var hook := FinishHook(StateFor(cfg, turn, st, converging), outcome);
      var (p, actions) := Respond(st.policies[i], hook);
      FinishStats(cfg, turn, converging, outcome, i + 1,
                  ApplyRecords(turn, p.Name(), actions, Told(st, i, p, hook, actions)));
    }
  }

  lemma {:induction false} ExhaustedStats(cfg: Config, i: nat, st: LoopState)
    requires i <= |st.policies|
    ensures ExhaustedFrom(cfg, i, st).stats == st.stats
    decreases |st.policies| - i
  {
    hide Respond;
    if i < |st.policies| {
      var turn := cfg.limits.maxTurns;
      var hook := ExhaustedHook(StateFor(cfg, turn, st, true));
      var (p, actions) := Respond(st.policies[i], hook);
      ExhaustedStats(cfg, i + 1, ApplyRecords(turn, p.Name(), actions, Told(st, i, p, hook, actions)));
    }
  }

  lemma EndTurnStats(cfg: Config, cx: TurnContext, p: TurnProgress, st: LoopState)
    ensures SameBudgetStats(st.stats, EndTurn(cfg, cx, p, st).st.stats)
  {
    hide AfterFrom, FinishFrom;
    var outcome := TurnOutcome(cx.assistant, p.results, p.finishRequested, p.abortReason);
    AfterFromStats(cfg, cx.turn, cx.plan.converging, outcome, 0, st, false);
    var (s, reject) := AfterFrom(cfg, cx.turn, cx.plan.converging, outcome, 0, st, false);
    FinishStats(cfg, cx.turn, cx.plan.converging, outcome, 0,
                s.(completed := s.completed + [CompletedTurn(cx, p.results, reject)]));
  }

  lemma MoveStatsGrow(cfg: Config, m: Machine)
    requires Moving(m)
    ensures StatsGrow(m.st.stats, Move(cfg, m).st.stats)
  {
    hide BeforeFrom, ExhaustedFrom, EndTurn, LocalOutcome;
    match m.control {
      case AtTurn(turn) => BeforeStats(cfg, turn, 0, m.st, FreshPlan(cfg));
      case AtTail =>
        ExhaustedStats(cfg, 0, Recorded(m.st, PolicyEvent(cfg.limits.maxTurns, "exhausted",
          ExhaustedDetail(m.st.contextOverflow, m.st.stats.findingsRecorded))));
      case AtCall(cx, p, rest) =>
        if rest == [] {
          EndTurnStats(cfg, cx, p, m.st);
        }
    }
  }

  lemma DeliverStatsGrow(cfg: Config, m: Machine, r: StepResult)
    requires Awaiting(m.control) && Answers(m.control, r)
    ensures StatsGrow(m.st.stats, Deliver(cfg, m, r).st.stats)
  {
    hide IsContextOverflow, ReadsOfTurn, CountReads, ByIndex;
    if m.control.AwaitModel? && r.Ok? {
      CountReadsGrow(cfg, r.value.assistant.toolCalls, m.st.stats);
      CountReadsGrow(cfg, r.value.assistant.toolCalls, m.st.stats.(batches := m.st.stats.batches + 1));
    }
  }

  /** The run is not before turn `t`. */
  predicate TurnAtLeast(t: nat, c: Control) {
    match c
    case AtTurn(turn) => t <= turn
    case AwaitModel(turn, _) => t <= turn
    case AwaitReads(cx) => t <= cx.turn
    case AtCall(cx, _, _) => t <= cx.turn
    case AwaitCall(cx, _, _, _) => t <= cx.turn
    case AtTail => true
    case Halted(_) => true
  }

  lemma TurnsAdvance(cfg: Config, t: nat, m: Machine, r: StepResult)
    requires TurnAtLeast(t, m.control)
    ensures Moving(m) ==> TurnAtLeast(t, Move(cfg, m).control)
    ensures Awaiting(m.control) && Answers(m.control, r) ==> TurnAtLeast(t, Deliver(cfg, m, r).control)
  {
    hide BeforeFrom, ExhaustedFrom, AfterFrom, FinishFrom, Account, LocalOutcome, IsContextOverflow, ReadsOfTurn,
         CountReads, ByIndex;
  }

  /** From any point of a run on, turns and counters only go up, whatever the policies do. */
  lemma NeverBack(cfg: Config, env: Env, messages: seq<ChatMessage>, policies: seq<Policy>, host: Host, j: nat, k: nat)
    ensures var s := Start(cfg, messages, policies, host);
      var early, late := Exec(cfg, env, s, j).machine, Exec(cfg, env, s, j + k).machine;
      && StatsGrow(early.st.stats, late.st.stats)
      && forall t | TurnAtLeast(t, early.control) :: TurnAtLeast(t, late.control)
  {
    hide Exec, Settle, TurnAtLeast;
    var early := Exec(cfg, env, Start(cfg, messages, policies, host), j).machine;
    var late := Exec(cfg, env, Start(cfg, messages, policies, host), j + k).machine;
    NotBefore(cfg, env, messages, policies, host, j, k, 0);
    forall t: nat | TurnAtLeast(t, early.control) ensures TurnAtLeast(t, late.control) {
      NotBefore(cfg, env, messages, policies, host, j, k, t);
    }
  }

  lemma NotBefore(cfg: Config, env: Env, messages: seq<ChatMessage>, policies: seq<Policy>, host: Host, j: nat, k: nat,
                  t: nat)
    ensures var s := Start(cfg, messages, policies, host);
      var early, late := Exec(cfg, env, s, j).machine, Exec(cfg, env, s, j + k).machine;
      StatsGrow(early.st.stats, late.st.stats) && (TurnAtLeast(t, early.control) ==> TurnAtLeast(t, late.control))
  {
    hide Exec, Settle, TurnAtLeast, TurnShape;
    var early := Exec(cfg, env, Start(cfg, messages, policies, host), j).machine;
    var P: Property := (obs: seq<Observation>, m: Machine) =>
      StatsGrow(early.st.stats, m.st.stats) && (TurnAtLeast(t, early.control) ==> TurnAtLeast(t, m.control));
    forall obs: seq<Observation>, m: Machine | Moving(m) && TurnShape(m) && P(obs, m)
      ensures P(obs, Move(cfg, m))
    {
      MoveStatsGrow(cfg, m);
      if TurnAtLeast(t, early.control) {
        TurnsAdvance(cfg, t, m, Err(Transient("")));
      }
    }
    forall obs: seq<Observation>, m: Machine, r: StepResult
      | Awaiting(m.control) && Answers(m.control, r) && TurnShape(m) && P(obs, m)
      ensures P(obs + [Observation(m, AskOf(cfg, m).step, r)], Deliver(cfg, m, r))
    {
      DeliverStatsGrow(cfg, m, r);
      if TurnAtLeast(t, early.control) {
        TurnsAdvance(cfg, t, m, r);
      }
    }
    Onward(cfg, env, messages, policies, host, j, k, P);
  }
}
