/**
 Which tools a turn really runs. Batching reads is unobservable: every call is answered as if it had been dispatched
 by itself, and none runs twice.
 */
module LoopDispatch {
  import opened AgentTypes
  import opened StepNames
  import opened ToolSurface
  import opened Policies
  import opened StepRuntime
  import opened LoopMachine
  import opened LoopTurn

  // ---------- the batch of a turn ----------

  /** A member of the batch is a read of the turn at its own position. */
  predicate ReadAt(cfg: Config, plan: Plan, calls: seq<ToolCall>, x: IndexedCall) {
    x.index < |calls| && x.call == calls[x.index] && IsRead(cfg, plan, x.call)
  }

  lemma {:induction false} ReadsOfExact(cfg: Config, plan: Plan, calls: seq<ToolCall>, from: nat)
    requires from <= |calls|
    ensures var batch := ReadsOf(cfg, plan, calls[from..], from);
      && (forall x :: x in batch <==> from <= x.index && ReadAt(cfg, plan, calls, x))
      && (forall i, j | 0 <= i < j < |batch| :: batch[i].index < batch[j].index)
    decreases |calls| - from
  {
    hide IsRead;
    if from < |calls| {
      assert calls[from..][1..] == calls[from + 1..];
      ReadsOfExact(cfg, plan, calls, from + 1);
      var rest := ReadsOf(cfg, plan, calls[from + 1..], from + 1);
      assert forall j | 0 <= j < |rest| :: rest[j] in rest;
      forall x: IndexedCall | x.index == from && ReadAt(cfg, plan, calls, x)
        ensures x in ReadsOf(cfg, plan, calls[from..], from)
      {
        assert x == IndexedCall(from, calls[from]);
      }
    }
  }

  lemma {:induction false} ReadRunsExact(turn: nat, view: seq<Tool>, batch: seq<IndexedCall>)
    requires forall i, j | 0 <= i < j < |batch| :: batch[i].index < batch[j].index
    ensures forall r :: r in ReadRuns(turn, view, batch) <==>
              r.turn == turn && IndexedCall(r.index, r.call) in batch && DispatchOf(view, r.call).Run?
    ensures forall r :: ReadRuns(turn, view, batch)[r] <= 1
    decreases |batch|
  {
    hide DispatchOf;
    if batch != [] {
      var rest := batch[1..];
      ReadRunsExact(turn, view, rest);
      assert batch == [batch[0]] + rest;
      assert forall x | x in rest :: x.index > batch[0].index;
      forall r
        ensures ReadRuns(turn, view, batch)[r] <= 1
        ensures r in ReadRuns(turn, view, batch) <==>
                r.turn == turn && IndexedCall(r.index, r.call) in batch && DispatchOf(view, r.call).Run?
      {
        assert r in ReadRuns(turn, view, rest) ==> r.index > batch[0].index;
      }
    }
  }

  lemma {:induction false} ReadOutcomesExact(refuse: RefusalRenderer, world: World, tick: nat, view: seq<Tool>,
                                             batch: seq<IndexedCall>)
    ensures var outcomes := ReadOutcomes(refuse, world, tick, view, batch);
      forall i | 0 <= i < |batch| :: outcomes[i] == (batch[i].index, OutcomeOf(refuse, world, tick, view, batch[i]))
    decreases |batch|
  {
    hide OutcomeOf;
    if batch != [] {
      ReadOutcomesExact(refuse, world, tick, view, batch[1..]);
    }
  }

  lemma {:induction false} ByIndexExact(outcomes: seq<(nat, ToolOutcome)>)
    ensures forall i :: i in ByIndex(outcomes) <==> exists k | 0 <= k < |outcomes| :: outcomes[k].0 == i
    ensures forall i | i in ByIndex(outcomes) ::
              exists k | 0 <= k < |outcomes| :: outcomes[k] == (i, ByIndex(outcomes)[i])
    decreases |outcomes|
  {
    if outcomes != [] {
      var n := |outcomes| - 1;
      var init, last := outcomes[..n], outcomes[n];
      ByIndexExact(init);
      assert forall k | 0 <= k < n :: init[k] == outcomes[k];
      forall i
        ensures i in ByIndex(outcomes) <==> exists k | 0 <= k < |outcomes| :: outcomes[k].0 == i
      {
        if i != last.0 && i in ByIndex(init) {
          var k :| 0 <= k < n && init[k].0 == i;
          assert outcomes[k].0 == i;
        }
        if k :| 0 <= k < |outcomes| && outcomes[k].0 == i {
          if k < n {
            assert init[k].0 == i;
          }
        }
        if i == last.0 {
          assert outcomes[n].0 == i;
        }
      }
      forall i | i in ByIndex(outcomes)
        ensures exists k | 0 <= k < |outcomes| :: outcomes[k] == (i, ByIndex(outcomes)[i])
      {
        if i == last.0 {
          assert outcomes[n] == (i, ByIndex(outcomes)[i]);
        } else {
          var k :| 0 <= k < n && init[k] == (i, ByIndex(init)[i]);
          assert outcomes[k] == (i, ByIndex(outcomes)[i]);
        }
      }
    }
  }

  // ---------- no call runs twice ----------

  /** The position of this tool run is behind the machine: it will not be dispatched again. */
  predicate Behind(c: Control, r: ToolRun) {
    match c
    case AtTurn(turn) => r.turn < turn
    case AwaitModel(turn, _) => r.turn < turn
    case AwaitReads(cx) => r.turn < cx.turn
    case AtCall(cx, p, _) => r.turn < cx.turn || (r.turn == cx.turn && (r.index < p.index || r.index in p.batched))
    case AwaitCall(cx, p, _, _) => r.turn < cx.turn
      || (r.turn == cx.turn && (r.index < p.index || r.index in p.batched))
    case AtTail => true
    case Halted(_) => true
  }

  lemma MoveBehind(cfg: Config, m: Machine, r: ToolRun)
    requires !Awaiting(m.control) && !m.control.Halted?
    requires Behind(m.control, r)
    ensures Behind(Move(cfg, m).control, r)
  {
    hide BeforeFrom, AfterFrom, FinishFrom, Tail;
  }

  lemma {:induction false} SettleBehind(cfg: Config, m: Machine, r: ToolRun)
    requires Behind(m.control, r)
    ensures Behind(Settle(cfg, m).control, r)
    decreases Rank(m.control), RestLen(m.control)
  {
    hide Move, Behind;
    if !Awaiting(m.control) && !m.control.Halted? {
      MoveBehind(cfg, m, r);
      SettleBehind(cfg, Move(cfg, m), r);
    }
  }

  /** A waiting machine asks for a call only when the call has no outcome of its own yet. */
  ghost predicate Unanswered(cfg: Config, m: Machine) {
    m.control.AwaitCall? ==>
      && LocalOutcome(cfg, m.control.cx.plan, m.control.progress, m.control.call).None?
      && m.control.progress.index !in m.control.progress.batched
  }

  lemma {:induction false} SettleUnanswered(cfg: Config, m: Machine)
    requires !m.control.AwaitCall?
    ensures Unanswered(cfg, Settle(cfg, m))
    decreases Rank(m.control), RestLen(m.control)
  {
    hide BeforeFrom, AfterFrom, FinishFrom, Tail, Account;
    if !Awaiting(m.control) && !m.control.Halted? {
      var next := Move(cfg, m);
      if next.control.AwaitCall? {
        assert Settle(cfg, m) == next;
      } else {
        SettleUnanswered(cfg, next);
      }
    }
  }

  lemma ProceedUnanswered(cfg: Config, m: Machine, r: StepResult)
    requires Awaiting(m.control) && Answers(m.control, r)
    ensures Unanswered(cfg, Proceed(cfg, m, r))
  {
    hide Settle, Account, IsContextOverflow, ReadsOfTurn, CountReads, Unanswered;
    SettleUnanswered(cfg, Deliver(cfg, m, r));
  }

  /** What a live step runs: calls of the turn, at positions not yet behind, each once. */
  lemma PerformRuns(cfg: Config, world: World, tick: nat, m: Machine)
    requires Awaiting(m.control) && TurnShape(m) && Unanswered(cfg, m)
    ensures var runs := Perform(cfg.refuse, world, tick, AskOf(cfg, m).effect).1;
      && (forall r :: runs[r] <= 1)
      && (forall r | r in runs ::
            && InTurn(m.control) && !Behind(m.control, r)
            && r.turn == ContextOf(m.control).turn
            && r.index < |ContextOf(m.control).assistant.toolCalls|
            && r.call == ContextOf(m.control).assistant.toolCalls[r.index])
  {
    hide ReadsOf, ReadRuns, ReadOutcomes, DispatchOf, LocalOutcome, EndsWithTurn;
    match m.control {
      case AwaitReads(cx) =>
        var calls := cx.assistant.toolCalls;
        assert calls[0..] == calls;
        ReadsOfExact(cfg, cx.plan, calls, 0);
        ReadRunsExact(cx.turn, DispatchView(cfg, cx.plan), ReadsOfTurn(cfg, cx));
      case AwaitCall(cx, p, call, rest) =>
        assert call == ([call] + rest)[0] == cx.assistant.toolCalls[p.index..][0];
      case AwaitModel(_, _) =>
    }
  }

  /** Every call a batch ran has an outcome in the batch's map. */
  lemma BatchCovers(cfg: Config, world: World, tick: nat, cx: TurnContext, r: ToolRun)
    ensures var calls := ReadsOfTurn(cfg, cx);
      r in ReadRuns(cx.turn, DispatchView(cfg, cx.plan), calls) ==>
        && r.turn == cx.turn
        && r.index in ByIndex(ReadOutcomes(cfg.refuse, world, tick, DispatchView(cfg, cx.plan), calls))
  {
    hide ReadsOf, ReadRuns, ReadOutcomes, View, ByIndex, OutcomeOf;
    var calls, batch, view := cx.assistant.toolCalls, ReadsOfTurn(cfg, cx), DispatchView(cfg, cx.plan);
    if r in ReadRuns(cx.turn, view, batch) {
      assert calls[0..] == calls;
      ReadsOfExact(cfg, cx.plan, calls, 0);
      ReadRunsExact(cx.turn, view, batch);
      ReadOutcomesExact(cfg.refuse, world, tick, view, batch);
      ByIndexExact(ReadOutcomes(cfg.refuse, world, tick, view, batch));
      var k :| 0 <= k < |batch| && batch[k] == IndexedCall(r.index, r.call);
      assert ReadOutcomes(cfg.refuse, world, tick, view, batch)[k].0 == r.index;
    }
  }

  lemma BatchRunsGetBehind(cfg: Config, world: World, tick: nat, m: Machine, r: ToolRun)
    requires m.control.AwaitReads? && TurnShape(m) && Unanswered(cfg, m)
    ensures var (result, runs) := Perform(cfg.refuse, world, tick, AskOf(cfg, m).effect);
      r in runs ==> Answers(m.control, result) && Behind(Deliver(cfg, m, result).control, r)
  {
    hide ReadsOfTurn, ReadRuns, ReadOutcomes, DispatchView, ByIndex;
    BatchCovers(cfg, world, tick, m.control.cx, r);
  }

  lemma RunsGetBehind(cfg: Config, world: World, tick: nat, m: Machine, r: ToolRun)
    requires Awaiting(m.control) && TurnShape(m) && Unanswered(cfg, m)
    ensures var (result, runs) := Perform(cfg.refuse, world, tick, AskOf(cfg, m).effect);
      r in runs ==> Answers(m.control, result) && Behind(Proceed(cfg, m, result).control, r)
  {
    hide ReadsOf, ReadRuns, ReadOutcomes, DispatchOf, LocalOutcome, Settle, ByIndex, OutcomeOf;
    var (result, runs) := Perform(cfg.refuse, world, tick, AskOf(cfg, m).effect);
    if r in runs {
      match m.control {
        case AwaitReads(_) => BatchRunsGetBehind(cfg, world, tick, m, r);
        case AwaitCall(cx, p, call, rest) =>
          PerformRuns(cfg, world, tick, m);
          AccountFields(cfg, cx.turn, call, result.value.outcome, m.st, p);
        case _ =>
      }
      SettleBehind(cfg, Deliver(cfg, m, result), r);
    }
  }

  /** Since `before`, every tool run served a call of its own, and a live run is past all of them. */
  ghost predicate RanOnce(before: multiset<ToolRun>, s: System) {
    var ran := s.host.ran;
    && before <= ran
    && (forall r :: (ran - before)[r] <= 1)
    && (forall r, q | r in ran - before && q in ran - before :: r.turn == q.turn && r.index == q.index ==> r == q)
    && (!s.crashed ==> forall r | r in ran - before :: Behind(s.machine.control, r))
  }

  lemma ProceedBehind(cfg: Config, m: Machine, result: StepResult, r: ToolRun)
    requires Awaiting(m.control) && Answers(m.control, result) && Behind(m.control, r) && TurnShape(m)
    ensures Behind(Proceed(cfg, m, result).control, r)
  {
    hide Settle, IsContextOverflow, ReadsOfTurn, CountReads, ByIndex;
    if m.control.AwaitCall? && result.Ok? {
      AccountFields(cfg, m.control.cx.turn, m.control.call, result.value.outcome, m.st, m.control.progress);
    }
    SettleBehind(cfg, Deliver(cfg, m, result), r);
  }

  /** A step either runs nothing, or exactly what its effect runs and returns what the effect returned. */
  lemma StepRuns(refuse: RefusalRenderer, env: Env, host: Host, name: string, e: Effect)
    ensures var (ret, next) := Step(refuse, env, host, name, e);
      var (result, runs) := Perform(refuse, env.world, |host.trace|, e);
      || next.ran == host.ran
      || (next.ran == host.ran + runs && (ret.Returned? ==> ret.result == result))
  {
    hide Perform, Rehydrate;
  }

  lemma TickRanOnce(cfg: Config, env: Env, before: multiset<ToolRun>, s: System)
    requires RanOnce(before, s) && TurnShape(s.machine) && Unanswered(cfg, s.machine)
    ensures RanOnce(before, Tick(cfg, env, s)) && Unanswered(cfg, Tick(cfg, env, s).machine)
  {
    hide Step, Name, Proceed, AskOf, Perform, TurnShape, Unanswered, Behind;
    if Live(s) {
      var ask := AskOf(cfg, s.machine);
      var (ret, host) := Step(cfg.refuse, env, s.host, Name(ask.step), ask.effect);
      var (result, runs) := Perform(cfg.refuse, env.world, |s.host.trace|, ask.effect);
      StepRuns(cfg.refuse, env, s.host, Name(ask.step), ask.effect);
      PerformRuns(cfg, env.world, |s.host.trace|, s.machine);
      LoopTurn.StepAnswers(cfg, env, s);
      var next := Tick(cfg, env, s);
      if ret.Returned? {
        ProceedUnanswered(cfg, s.machine, ret.result);
        forall r | r in next.host.ran - before
          ensures Behind(next.machine.control, r)
        {
          if r in s.host.ran - before {
            ProceedBehind(cfg, s.machine, ret.result, r);
          } else {
            RunsGetBehind(cfg, env.world, |s.host.trace|, s.machine, r);
          }
        }
      }
      NewRunsOnce(before, s.host.ran, runs, s.machine.control);
    }
  }

  lemma NewRunsOnce(before: multiset<ToolRun>, ran: multiset<ToolRun>, runs: multiset<ToolRun>, c: Control)
    requires before <= ran
    requires forall r :: (ran - before)[r] <= 1
    requires forall r, q | r in ran - before && q in ran - before :: r.turn == q.turn && r.index == q.index ==> r == q
    requires forall r | r in ran - before :: Behind(c, r)
    requires forall r :: runs[r] <= 1
    requires forall r | r in runs :: InTurn(c) && !Behind(c, r) && r.turn == ContextOf(c).turn
               && r.index < |ContextOf(c).assistant.toolCalls| && r.call == ContextOf(c).assistant.toolCalls[r.index]
    ensures before <= ran + runs
    ensures forall r :: (ran + runs - before)[r] <= 1
    ensures forall r, q | r in ran + runs - before && q in ran + runs - before ::
              r.turn == q.turn && r.index == q.index ==> r == q
  {
    assert forall r :: r in ran + runs - before <==> r in ran - before || r in runs;
    assert forall r, q | r in ran - before && q in runs :: Behind(c, r) != Behind(c, q);
  }

  /**
   At most once: in any one attempt, over any journal and any world, no two tool runs serve the same call of the same
   turn, whether it was batched, asked by itself or replayed.
   */
  lemma {:induction false} EachCallRunsOnce(cfg: Config, env: Env, messages: seq<ChatMessage>, policies: seq<Policy>,
                                            host: Host, k: nat)
    ensures RanOnce(host.ran, Exec(cfg, env, Start(cfg, messages, policies, host), k))
    ensures Unanswered(cfg, Exec(cfg, env, Start(cfg, messages, policies, host), k).machine)
  {
    hide Exec, Tick, Settle, Behind, TurnShape, Unanswered;
    var s := Start(cfg, messages, policies, host);
    ExecUnfolds(cfg, env, s, if k == 0 then 0 else k - 1);
    if k == 0 {
      SettleUnanswered(cfg, Machine(AtTurn(0), StartState(messages, policies)));
      assert host.ran - host.ran == multiset{};
    } else {
      EachCallRunsOnce(cfg, env, messages, policies, host, k - 1);
      ExecShape(cfg, env, messages, policies, host, k - 1);
      TickRanOnce(cfg, env, host.ran, Exec(cfg, env, s, k - 1));
    }
  }
}
