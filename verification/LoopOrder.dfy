/** The order in which a run asks its steps: turn by turn, the model first, then reads, then calls. */
module LoopOrder {
  import opened AgentTypes
  import opened StepNames
  import opened StepRuntime
  import opened LoopMachine
  import opened LoopResume

  /** Position of a step: only calls of one turn share a position. */
  function Position(step: StepId): nat {
    match step
    case LlmTurn(turn) => 3 * turn
    case ToolsBatch(turn) => 3 * turn + 1
    case WriteTool(turn, _) => 3 * turn + 2
  }

  /** The earliest position a machine may still ask at. */
  function Reached(c: Control): nat {
    match c
    case AtTurn(turn) => 3 * turn
    case AwaitModel(turn, _) => 3 * turn
    case AwaitReads(cx) => 3 * cx.turn + 1
    case AtCall(cx, _, _) => 3 * cx.turn + 2
    case AwaitCall(cx, _, _, _) => 3 * cx.turn + 2
    case AtTail => 0
    case Halted(_) => 0
  }

  predicate Over(c: Control) {
    c.AtTail? || c.Halted?
  }

  lemma MoveAdvances(cfg: Config, m: Machine)
    requires !Awaiting(m.control) && !m.control.Halted?
    ensures var r := Move(cfg, m).control;
      Over(m.control) ==> Over(r)
    ensures var r := Move(cfg, m).control;
      !Over(m.control) && !Over(r) ==> Reached(m.control) <= Reached(r)
  {
    hide BeforeFrom, AfterFrom, FinishFrom, Tail, Account, LocalOutcome;
  }

  lemma {:induction false} SettleAdvances(cfg: Config, m: Machine)
    ensures var r := Settle(cfg, m).control;
      Awaiting(r) ==> !Over(m.control) && Reached(m.control) <= Reached(r)
    decreases Rank(m.control), RestLen(m.control)
  {
    hide Move;
    if !Awaiting(m.control) && !m.control.Halted? {
      MoveAdvances(cfg, m);
      SettleAdvances(cfg, Move(cfg, m));
    }
  }

  /** A step moves the run on, and strictly so unless it is a call of the same turn. */
  lemma ProceedAdvances(cfg: Config, m: Machine, r: StepResult)
    requires Awaiting(m.control) && Answers(m.control, r)
    ensures var next := Proceed(cfg, m, r);
      && Position(AskOf(cfg, m).step) == Reached(m.control)
      && (Awaiting(next.control) ==>
            Reached(m.control) + (if m.control.AwaitCall? then 0 else 1) <= Reached(next.control))
  {
    hide Settle, Move, Account, IsContextOverflow, ReadsOfTurn, CountReads;
    SettleAdvances(cfg, Deliver(cfg, m, r));
  }

  lemma {:induction false} StepsAdvance(cfg: Config, first: Machine, s: System, i: nat, j: nat)
    requires Explained(cfg, first, s)
    requires i < j <= |s.observed| && Awaiting(MachineAt(s, j).control)
    ensures Position(s.observed[i].step) + (if s.observed[i].step.WriteTool? then 0 else 1)
            <= Reached(MachineAt(s, j).control)
    decreases j
  {
    hide Proceed;
    assert Link(cfg, s, j - 1);
    var o := s.observed[j - 1];
    ProceedAdvances(cfg, o.before, o.result);
    if i < j - 1 {
      StepsAdvance(cfg, first, s, i, j - 1);
    }
  }

  /** Calls asked in one turn, the one a run crashed in included, have different ids. */
  ghost predicate DistinctCallIds(cfg: Config, s: System) {
    && (forall i, j | 0 <= i < j < |s.observed| && s.observed[i].step.WriteTool? && s.observed[j].step.WriteTool?
          && s.observed[i].step.turn == s.observed[j].step.turn ::
            s.observed[i].step.callId != s.observed[j].step.callId)
    && (s.crashed && s.machine.control.AwaitCall? ==>
          forall i | 0 <= i < |s.observed| && s.observed[i].step.WriteTool?
            && s.observed[i].step.turn == AskOf(cfg, s.machine).step.turn ::
            s.observed[i].step.callId != AskOf(cfg, s.machine).step.callId)
  }

  /** A step name repeats within a run exactly when a turn reuses a call id. */
  lemma StepsDistinctIffCallIds(cfg: Config, first: Machine, s: System)
    requires Explained(cfg, first, s)
    ensures DistinctSteps(cfg, s) <==> DistinctCallIds(cfg, s)
  {
    hide Proceed;
    forall i, j | 0 <= i < j < |s.observed|
      ensures s.observed[i].step == s.observed[j].step ==> s.observed[i].step.WriteTool?
    {
      assert Link(cfg, s, j) && Link(cfg, s, i);
      StepsAdvance(cfg, first, s, i, j);
    }
    if Awaiting(s.machine.control) {
      forall i | 0 <= i < |s.observed|
        ensures s.observed[i].step == AskOf(cfg, s.machine).step ==> s.observed[i].step.WriteTool?
      {
        assert Link(cfg, s, i);
        StepsAdvance(cfg, first, s, i, |s.observed|);
      }
    }
  }

  /** Steps other than the model's have succeeded. */
  predicate ToolStepsOk(obs: seq<Observation>) {
    forall i | 0 <= i < |obs| :: obs[i].step.LlmTurn? || obs[i].result.Ok?
  }

  lemma StepOk(refuse: RefusalRenderer, env: Env, host: Host, name: string, e: Effect)
    ensures var ret := Step(refuse, env, host, name, e).0;
      ret.Returned? && !e.CompleteModel? ==> ret.result.Ok?
  {
    hide ReadOutcomes, ReadRuns, OutcomeOf, RunsOf;
  }

  /** A tool's failure is an outcome: only the model's step can fail. */
  lemma {:induction false} ExecToolStepsOk(cfg: Config, env: Env, s: System, k: nat)
    requires ToolStepsOk(s.observed)
    ensures ToolStepsOk(Exec(cfg, env, s, k).observed)
  {
    hide Exec, Step, Name, Proceed;
    ExecUnfolds(cfg, env, s, if k == 0 then 0 else k - 1);
    if k > 0 {
      ExecToolStepsOk(cfg, env, s, k - 1);
      var t := Exec(cfg, env, s, k - 1);
      if Live(t) {
        var ask := AskOf(cfg, t.machine);
        StepOk(cfg.refuse, env, t.host, Name(ask.step), ask.effect);
      }
    }
  }
}
