/** How a run ends: verdicts, the turn limit and the circuit breaker. */
module LoopOutcomes {
  import opened Wrappers
  import opened AgentTypes
  import opened Policies
  import opened StepRuntime
  import opened LoopMachine
  import opened LoopTurn
  import opened LoopSequential
  import opened LoopInduction

  // ---------- verdicts ----------

  /** What a completed turn says about the run: an abort wins, and a finish counts unless rejected. */
  function Verdict(t: CompletedTurn): Option<LoopOutcome> {
    match LastAbort(t.results)
    case Some(reason) => Some(Aborted(reason))
    case None => if AnyFinish(t.results) && !t.rejected then Some(Finished) else None
  }

  /** The run ends with a verdict exactly when its last completed turn gives one. */
  ghost predicate VerdictsObeyed(m: Machine) {
    var done := m.st.completed;
    && (forall i | 0 <= i < |done| - 1 :: Verdict(done[i]).None?)
    && (done != [] && Verdict(done[|done| - 1]).Some? ==>
          m.control == Halted(Completed(Verdict(done[|done| - 1]).value)))
    && (m.control.Halted? && m.control.result.Completed? && !m.control.result.outcome.Exhausted? ==>
          done != [] && Verdict(done[|done| - 1]) == Some(m.control.result.outcome))
  }

  lemma MoveVerdicts(cfg: Config, m: Machine)
    requires Moving(m) && TurnShape(m) && VerdictsObeyed(m)
    ensures VerdictsObeyed(Move(cfg, m))
  {
    hide BeforeFrom, ExhaustedFrom, EndTurn, Account, LocalOutcome, EndsWithTurn, LastAbort, AnyFinish;
    match m.control {
      case AtTurn(turn) => BeforeKeepsCompleted(cfg, turn, 0, m.st, FreshPlan(cfg));
      case AtTail =>
        ExhaustedKeepsCompleted(cfg, 0, Recorded(m.st, PolicyEvent(cfg.limits.maxTurns, "exhausted",
          ExhaustedDetail(m.st.contextOverflow, m.st.stats.findingsRecorded))));
      case AtCall(cx, p, rest) =>
        if rest == [] {
          EndTurnCompletes(cfg, cx, p, m.st);
          var done := EndTurn(cfg, cx, p, m.st).st.completed;
          assert forall i | 0 <= i < |m.st.completed| :: done[i] == done[..|m.st.completed|][i];
        } else {
          var o := LocalOutcome(cfg, cx.plan, p, rest[0]);
          if o.Some? {
            AccountKeepsCompleted(cfg, cx.turn, rest[0], o.value, m.st, p);
          }
        }
    }
  }

  lemma AccountKeepsCompleted(cfg: Config, turn: nat, call: ToolCall, outcome: ToolOutcome, st: LoopState,
                              p: TurnProgress)
    ensures var st' := Account(cfg, turn, call, outcome, st, p).0;
      st'.completed == st.completed && st'.consecutiveFailures == st.consecutiveFailures
  {
  }

  lemma DeliverVerdicts(cfg: Config, m: Machine, r: StepResult)
    requires Awaiting(m.control) && Answers(m.control, r) && VerdictsObeyed(m)
    ensures VerdictsObeyed(Deliver(cfg, m, r))
  {
    hide Account, IsContextOverflow, ReadsOfTurn, CountReads, ByIndex, Verdict;
    if m.control.AwaitCall? && r.Ok? {
      AccountKeepsCompleted(cfg, m.control.cx.turn, m.control.call, r.value.outcome, m.st, m.control.progress);
    }
  }

  /**
   A run is finished iff its last completed turn holds a `Finish`, no `Abort`, and no policy rejected it; it is
   aborted iff that turn holds an `Abort`, with the last reason in call order; and no earlier turn could have ended
   it.
   */
  lemma OutcomeMeaning(cfg: Config, env: Env, messages: seq<ChatMessage>, policies: seq<Policy>, host: Host, k: nat)
    ensures var m := Exec(cfg, env, Start(cfg, messages, policies, host), k).machine;
      var done := m.st.completed;
      && (m.control == Halted(Completed(Finished)) <==> done != [] && Verdict(done[|done| - 1]) == Some(Finished))
      && (forall reason :: m.control == Halted(Completed(Aborted(reason))) <==>
            done != [] && LastAbort(done[|done| - 1].results) == Some(reason))
      && (forall i | 0 <= i < |done| - 1 :: Verdict(done[i]).None?)
  {
    hide Exec, Settle, LastAbort, AnyFinish;
    var P: Property := (obs: seq<Observation>, m: Machine) => VerdictsObeyed(m);
    forall obs: seq<Observation>, m: Machine | Moving(m) && TurnShape(m) && P(obs, m)
      ensures P(obs, Move(cfg, m))
    {
      MoveVerdicts(cfg, m);
    }
    forall obs: seq<Observation>, m: Machine, r: StepResult | Awaiting(m.control) && Answers(m.control, r)
      && TurnShape(m) && P(obs, m)
      ensures P(obs + [Observation(m, AskOf(cfg, m).step, r)], Deliver(cfg, m, r))
    {
      DeliverVerdicts(cfg, m, r);
    }
    Always(cfg, env, messages, policies, host, k, P);
  }

  // ---------- the circuit breaker ----------

  predicate TransientFailure(o: Observation) {
    o.step.LlmTurn? && o.result.Err? && o.result.error.Transient?
  }

  /** Transient model failures since the model last answered. */
  function Streak(obs: seq<Observation>): nat {
    if obs == [] then 0
    else
      var init, last := obs[..|obs| - 1], obs[|obs| - 1];
      if TransientFailure(last) then Streak(init) + 1
      else if last.step.LlmTurn? && last.result.Ok? then 0
      else Streak(init)
  }

  ghost predicate BreakerObeyed(cfg: Config, obs: seq<Observation>, m: Machine) {
    && m.st.consecutiveFailures == Streak(obs)
    && (0 < cfg.limits.circuitBreakerThreshold <= Streak(obs) <==>
          obs != [] && TransientFailure(obs[|obs| - 1]) && m.control == Halted(Failed(obs[|obs| - 1].result.error)))
    && (cfg.limits.circuitBreakerThreshold > 0 ==> Streak(obs) <= cfg.limits.circuitBreakerThreshold)
  }

  lemma MoveBreaker(cfg: Config, obs: seq<Observation>, m: Machine)
    requires Moving(m) && BreakerObeyed(cfg, obs, m)
    ensures BreakerObeyed(cfg, obs, Move(cfg, m))
  {
    hide BeforeFrom, ExhaustedFrom, EndTurn, Account, LocalOutcome, Streak;
    match m.control {
      case AtTurn(turn) => BeforeKeepsCompleted(cfg, turn, 0, m.st, FreshPlan(cfg));
      case AtTail =>
        ExhaustedKeepsCompleted(cfg, 0, Recorded(m.st, PolicyEvent(cfg.limits.maxTurns, "exhausted",
          ExhaustedDetail(m.st.contextOverflow, m.st.stats.findingsRecorded))));
      case AtCall(cx, p, rest) =>
        if rest == [] {
          EndTurnCompletes(cfg, cx, p, m.st);
          assert EndTurn(cfg, cx, p, m.st).control.Halted? ==>
            EndTurn(cfg, cx, p, m.st).control.result.Completed? by { EndTurnNeverFails(cfg, cx, p, m.st); }
        } else {
          var o := LocalOutcome(cfg, cx.plan, p, rest[0]);
          if o.Some? {
            AccountKeepsCompleted(cfg, cx.turn, rest[0], o.value, m.st, p);
          }
        }
    }
  }

  lemma EndTurnNeverFails(cfg: Config, cx: TurnContext, p: TurnProgress, st: LoopState)
    ensures var c := EndTurn(cfg, cx, p, st).control; c.Halted? ==> c.result.Completed?
  {
    hide AfterFrom, FinishFrom;
  }

  lemma DeliverBreaker(cfg: Config, obs: seq<Observation>, m: Machine, r: StepResult)
    requires Awaiting(m.control) && Answers(m.control, r) && BreakerObeyed(cfg, obs, m)
    ensures BreakerObeyed(cfg, obs + [Observation(m, AskOf(cfg, m).step, r)], Deliver(cfg, m, r))
  {
    hide Account, IsContextOverflow, ReadsOfTurn, CountReads, ByIndex;
    var o := Observation(m, AskOf(cfg, m).step, r);
    assert (obs + [o])[..|obs|] == obs;
    if m.control.AwaitCall? && r.Ok? {
      AccountKeepsCompleted(cfg, m.control.cx.turn, m.control.call, r.value.outcome, m.st, m.control.progress);
    }
  }

  /**
   The failure counter is the current streak of transient model failures, and the breaker ends the run exactly when
   that streak reaches a positive threshold.
   */
  lemma BreakerMeaning(cfg: Config, env: Env, messages: seq<ChatMessage>, policies: seq<Policy>, host: Host, k: nat)
    ensures var s := Exec(cfg, env, Start(cfg, messages, policies, host), k);
      BreakerObeyed(cfg, s.observed, s.machine)
  {
    hide Exec, Settle, Streak;
    var P: Property := (obs: seq<Observation>, m: Machine) => BreakerObeyed(cfg, obs, m);
    forall obs: seq<Observation>, m: Machine | Moving(m) && TurnShape(m) && P(obs, m)
      ensures P(obs, Move(cfg, m))
    {
      MoveBreaker(cfg, obs, m);
    }
    forall obs: seq<Observation>, m: Machine, r: StepResult
      | Awaiting(m.control) && Answers(m.control, r) && TurnShape(m) && P(obs, m)
      ensures P(obs + [Observation(m, AskOf(cfg, m).step, r)], Deliver(cfg, m, r))
    {
      DeliverBreaker(cfg, obs, m, r);
    }
    assert Streak([]) == 0 by { StreakOfNothing(); }
    Always(cfg, env, messages, policies, host, k, P);
  }

  lemma StreakOfNothing()
    ensures Streak([]) == 0
  {
  }

  // ---------- the turn limit ----------

  function ModelSteps(obs: seq<Observation>): nat {
    if obs == [] then 0 else ModelSteps(obs[..|obs| - 1]) + if obs[|obs| - 1].step.LlmTurn? then 1 else 0
  }

  /** The model has been asked at most once per turn begun, and turns stay below the limit. */
  ghost predicate TurnsBounded(cfg: Config, obs: seq<Observation>, m: Machine) {
    var asked, max := ModelSteps(obs), cfg.limits.maxTurns;
    match m.control
    case AtTurn(turn) => asked <= turn <= max
    case AwaitModel(turn, _) => asked <= turn < max
    case AwaitReads(cx) => asked <= cx.turn + 1 <= max
    case AtCall(cx, _, _) => asked <= cx.turn + 1 <= max
    case AwaitCall(cx, _, _, _) => asked <= cx.turn + 1 <= max
    case AtTail => asked <= max
    case Halted(_) => asked <= max
  }

  lemma MoveTurns(cfg: Config, obs: seq<Observation>, m: Machine)
    requires Moving(m) && TurnsBounded(cfg, obs, m)
    ensures TurnsBounded(cfg, obs, Move(cfg, m))
  {
    hide BeforeFrom, ExhaustedFrom, AfterFrom, FinishFrom, Account, LocalOutcome, ModelSteps;
  }

  lemma DeliverTurns(cfg: Config, obs: seq<Observation>, m: Machine, r: StepResult)
    requires Awaiting(m.control) && Answers(m.control, r) && TurnsBounded(cfg, obs, m)
    ensures TurnsBounded(cfg, obs + [Observation(m, AskOf(cfg, m).step, r)], Deliver(cfg, m, r))
  {
    hide Account, IsContextOverflow, ReadsOfTurn, CountReads, ByIndex;
  }

  /** No run asks the model more often than it has turns, the step it crashed in included. */
  lemma ModelStepsBounded(cfg: Config, env: Env, messages: seq<ChatMessage>, policies: seq<Policy>, host: Host, k: nat)
    ensures var s := Exec(cfg, env, Start(cfg, messages, policies, host), k);
      && TurnsBounded(cfg, s.observed, s.machine)
      && ModelSteps(s.observed) + (if s.machine.control.AwaitModel? then 1 else 0) <= cfg.limits.maxTurns
  {
    hide Exec, Settle, ModelSteps;
    var P: Property := (obs: seq<Observation>, m: Machine) => TurnsBounded(cfg, obs, m);
    forall obs: seq<Observation>, m: Machine | Moving(m) && TurnShape(m) && P(obs, m)
      ensures P(obs, Move(cfg, m))
    {
      MoveTurns(cfg, obs, m);
    }
    forall obs: seq<Observation>, m: Machine, r: StepResult
      | Awaiting(m.control) && Answers(m.control, r) && TurnShape(m) && P(obs, m)
      ensures P(obs + [Observation(m, AskOf(cfg, m).step, r)], Deliver(cfg, m, r))
    {
      DeliverTurns(cfg, obs, m, r);
    }
    assert ModelSteps([]) == 0 by { NoModelSteps(); }
    Always(cfg, env, messages, policies, host, k, P);
  }

  lemma NoModelSteps()
    ensures ModelSteps([]) == 0
  {
  }
}
