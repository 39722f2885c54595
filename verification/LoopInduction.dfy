/** Induction over every run: a property of histories and machines that moves and answers keep. */
module LoopInduction {
  import opened AgentTypes
  import opened StepNames
  import opened Policies
  import opened StepRuntime
  import opened LoopMachine
  import opened LoopTurn

  type Property = (seq<Observation>, Machine) -> bool

  predicate Moving(m: Machine) {
    !Awaiting(m.control) && !m.control.Halted?
  }

  ghost predicate KeptByMoves(cfg: Config, P: Property) {
    forall obs: seq<Observation>, m: Machine | Moving(m) && TurnShape(m) && P(obs, m) :: P(obs, Move(cfg, m))
  }

  ghost predicate KeptByAnswers(cfg: Config, P: Property) {
    forall obs: seq<Observation>, m: Machine, r: StepResult | Awaiting(m.control) && Answers(m.control, r)
      && TurnShape(m) && P(obs, m) ::
      P(obs + [Observation(m, AskOf(cfg, m).step, r)], Deliver(cfg, m, r))
  }

  lemma {:induction false} SettleKeeps(cfg: Config, P: Property, obs: seq<Observation>, m: Machine)
    requires KeptByMoves(cfg, P) && TurnShape(m) && P(obs, m)
    ensures P(obs, Settle(cfg, m))
    decreases Rank(m.control), RestLen(m.control)
  {
    hide Move, TurnShape;
    if Moving(m) {
      MoveShape(cfg, m);
      SettleKeeps(cfg, P, obs, Move(cfg, m));
    }
  }

  lemma TickKeeps(cfg: Config, env: Env, P: Property, s: System)
    requires KeptByMoves(cfg, P) && KeptByAnswers(cfg, P)
    requires TurnShape(s.machine) && P(s.observed, s.machine)
    ensures P(Tick(cfg, env, s).observed, Tick(cfg, env, s).machine)
  {
    hide Step, Name, TurnShape, AskOf, Settle, Deliver, KeptByMoves;
    if Live(s) {
      var ask := AskOf(cfg, s.machine);
      var ret := Step(cfg.refuse, env, s.host, Name(ask.step), ask.effect).0;
      if ret.Returned? {
        LoopTurn.StepAnswers(cfg, env, s);
        ProceedShape(cfg, s.machine, ret.result);
        SettleKeeps(cfg, P, s.observed + [Observation(s.machine, ask.step, ret.result)],
                    Deliver(cfg, s.machine, ret.result));
      }
    }
  }

  /** A property that holds at the start and is kept holds at every point of every run. */
  lemma {:induction false} Always(cfg: Config, env: Env, messages: seq<ChatMessage>, policies: seq<Policy>, host: Host,
                                  k: nat, P: Property)
    requires KeptByMoves(cfg, P) && KeptByAnswers(cfg, P)
    requires P([], Machine(AtTurn(0), StartState(messages, policies)))
    ensures var s := Exec(cfg, env, Start(cfg, messages, policies, host), k); P(s.observed, s.machine)
  {
    hide Exec, Tick, Settle, TurnShape, KeptByMoves, KeptByAnswers;
    var s := Start(cfg, messages, policies, host);
    ExecUnfolds(cfg, env, s, if k == 0 then 0 else k - 1);
    if k == 0 {
      StartKeeps(cfg, P, Machine(AtTurn(0), StartState(messages, policies)));
    } else {
      Always(cfg, env, messages, policies, host, k - 1, P);
      ExecShape(cfg, env, messages, policies, host, k - 1);
      TickKeeps(cfg, env, P, Exec(cfg, env, s, k - 1));
    }
  }

  lemma StartKeeps(cfg: Config, P: Property, m: Machine)
    requires KeptByMoves(cfg, P) && !InTurn(m.control) && P([], m)
    ensures P([], Settle(cfg, m))
  {
    hide Settle, KeptByMoves;
    SettleKeeps(cfg, P, [], m);
  }

  /** A property that is kept and holds at one point of a run holds from there on. */
  lemma {:induction false} Onward(cfg: Config, env: Env, messages: seq<ChatMessage>, policies: seq<Policy>, host: Host,
                                  j: nat, k: nat, P: Property)
    requires KeptByMoves(cfg, P) && KeptByAnswers(cfg, P)
    requires var s := Exec(cfg, env, Start(cfg, messages, policies, host), j); P(s.observed, s.machine)
    ensures var s := Exec(cfg, env, Start(cfg, messages, policies, host), j + k); P(s.observed, s.machine)
    decreases k
  {
    hide Exec, Tick, Settle, TurnShape, KeptByMoves, KeptByAnswers;
    if k > 0 {
      var s := Start(cfg, messages, policies, host);
      ExecUnfolds(cfg, env, s, j + k - 1);
      Onward(cfg, env, messages, policies, host, j, k - 1, P);
      ExecShape(cfg, env, messages, policies, host, j + k - 1);
      TickKeeps(cfg, env, P, Exec(cfg, env, s, j + k - 1));
    }
  }
}
