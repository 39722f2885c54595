/**
 The loop as it is written: nested loops that update the conversation, the counters and the policies in place and ask
 the host for steps. Proved to be exactly the step machine.
 */
module LoopDriver {
  import opened Wrappers
  import opened AgentTypes
  import opened StepNames
  import opened ToolSurface
  import opened Budget
  import opened Policies
  import opened StepRuntime
  import opened LoopMachine
  import opened LoopTurn
  import opened LoopSettle
  import opened Checkpoint

  /** Where a turn leaves the run. */
  datatype TurnFlow = NextTurn | StopLoop | Return(outcome: LoopOutcome) | Raise(error: StepError) | Died

  datatype RunReturn = Ended(result: RunResult) | Killed

  ghost function PolicyStates(policies: seq<TurnPolicy>): (states: seq<Policy>)
    reads policies
    ensures |states| == |policies|
    ensures forall i | 0 <= i < |policies| :: states[i] == policies[i].policy
  {
    if policies == [] then [] else [policies[0].policy] + PolicyStates(policies[1..])
  }

  // ---------- one step of each policy phase ----------

  lemma BeforeUnfolds(cfg: Config, turn: nat, i: nat, st: LoopState, plan: Plan)
    requires i < |st.policies|
    ensures var (st', plan') := BeforePolicy(cfg, turn, i, st, plan);
      |st'.policies| == |st.policies| && BeforeFrom(cfg, turn, i, st, plan) == BeforeFrom(cfg, turn, i + 1, st', plan')
  {
    hide BeforePolicy;
    BeforePolicyKeeps(cfg, turn, i, st, plan);
  }

  lemma AfterUnfolds(cfg: Config, turn: nat, converging: bool, outcome: TurnOutcome, i: nat, st: LoopState,
                     reject: bool)
    requires i < |st.policies|
    ensures var hook := AfterHook(StateFor(cfg, turn, st, converging), outcome);
      var (p, actions) := Respond(st.policies[i], hook);
      var (st', reject') := ApplyAllAfter(cfg, turn, p.Name(), actions, Told(st, i, p, hook, actions), reject);
      AfterFrom(cfg, turn, converging, outcome, i, st, reject)
      == AfterFrom(cfg, turn, converging, outcome, i + 1, st', reject')
  {
    hide Respond, ApplyAllAfter;
  }

  lemma AfterEnds(cfg: Config, turn: nat, converging: bool, outcome: TurnOutcome, st: LoopState, reject: bool)
    ensures AfterFrom(cfg, turn, converging, outcome, |st.policies|, st, reject) == (st, reject)
  {
  }

  lemma FinishUnfolds(cfg: Config, turn: nat, converging: bool, outcome: TurnOutcome, i: nat, st: LoopState)
    requires i < |st.policies|
    ensures var hook := FinishHook(StateFor(cfg, turn, st, converging), outcome);
      var (p, actions) := Respond(st.policies[i], hook);
      FinishFrom(cfg, turn, converging, outcome, i, st)
      == FinishFrom(cfg, turn, converging, outcome, i + 1,
                    ApplyRecords(turn, p.Name(), actions, Told(st, i, p, hook, actions)))
  {
    hide Respond, ApplyRecords;
  }

  lemma FinishEnds(cfg: Config, turn: nat, converging: bool, outcome: TurnOutcome, st: LoopState)
    ensures FinishFrom(cfg, turn, converging, outcome, |st.policies|, st) == st
  {
  }

  lemma ExhaustedUnfolds(cfg: Config, i: nat, st: LoopState)
    requires i < |st.policies|
    ensures var turn := cfg.limits.maxTurns;
      var hook := ExhaustedHook(StateFor(cfg, turn, st, true));
      var (p, actions) := Respond(st.policies[i], hook);
      ExhaustedFrom(cfg, i, st)
      == ExhaustedFrom(cfg, i + 1, ApplyRecords(turn, p.Name(), actions, Told(st, i, p, hook, actions)))
  {
    hide Respond, ApplyRecords;
  }

  lemma ExhaustedEnds(cfg: Config, st: LoopState)
    ensures ExhaustedFrom(cfg, |st.policies|, st) == st
  {
  }

  class AgentLoop {
    const cfg: Config
    const host: StepHost
    const policies: seq<TurnPolicy>
    var messages: seq<ChatMessage>
    var stats: LoopStats
    var consecutiveFailures: nat
    var contextOverflow: bool
    var transcript: seq<TranscriptEvent>
    ghost var nudges: seq<(string, Nudge)>
    ghost var completed: seq<CompletedTurn>
    ghost var heard: seq<Said>
    // The run so far as the step machine sees it: where it began, where it is, how many steps that took.
    ghost var first: System
    ghost var sys: System
    ghost var ticks: nat

    ghost predicate Assembled() {
      && host.refuse == cfg.refuse
      && forall i, j | 0 <= i < j < |policies| :: policies[i] != policies[j]
    }

    ghost function StateOf(): LoopState
      reads this, policies
    {
      LoopState(messages, stats, consecutiveFailures, contextOverflow, PolicyStates(policies), transcript, nudges,
                completed, heard)
    }

    /** The host is where the machine's world is, and the machine got there by ticks. */
    ghost predicate InSync()
      reads this, host, host.store
    {
      && host.Valid()
      && sys.host == host.View()
      && sys == Exec(cfg, host.env, first, ticks)
    }

    constructor (cfg: Config, host: StepHost, policies: seq<TurnPolicy>)
      requires host.refuse == cfg.refuse
      requires forall i, j | 0 <= i < j < |policies| :: policies[i] != policies[j]
      ensures Assembled() && this.cfg == cfg && this.host == host && this.policies == policies
    {
      this.cfg, this.host, this.policies := cfg, host, policies;
      messages, stats, consecutiveFailures, contextOverflow, transcript := [], NO_STATS, 0, false, [];
    }

    method Nudge(name: string, nudge: Nudge)
      modifies this`messages, this`nudges
      ensures StateOf() == Nudged(cfg, old(StateOf()), name, nudge)
    {
      messages := messages + [UserMessage(cfg.wording(nudge))];
      nudges := nudges + [(name, nudge)];
    }

    method RecordEvent(event: TranscriptEvent)
      modifies this`transcript
      ensures StateOf() == Recorded(old(StateOf()), event)
    {
      transcript := transcript + [event];
    }

    // ---------- policy phases ----------

    method TrimMessages(target: nat) returns (trimmed: nat)
      modifies this`messages
      ensures messages == Trimming(old(messages), BaseSpecs(cfg), target).messages
      ensures trimmed == Trimming(old(messages), BaseSpecs(cfg), target).trimmed
    {
      hide Trimming, BaseSpecs;
      var before := messages;
      var history := new ChatMessage[|before|](i requires 0 <= i < |before| => before[i]);
      assert history[..] == before;
      trimmed := TrimToolHistory(history, BaseSpecs(cfg), target);
      messages := history[..];
    }

    method TrimNow(turn: nat, name: string, target: nat)
      modifies this`messages, this`transcript, this`heard
      ensures StateOf() == LoopMachine.TrimNow(cfg, turn, name, target, old(StateOf()))
    {
      hide Trimming, BaseSpecs, PolicyStates;
      var trimmed := TrimMessages(target);
      if trimmed > 0 {
        RecordEvent(PolicyEvent(turn, name, TrimmedDetail(trimmed)));
        heard := heard + [Trimmed(turn, name, trimmed)];
      }
    }

    method ConvergeOn(turn: nat, name: string, c: Convergence)
      modifies this`messages, this`transcript, this`nudges, this`heard
      ensures StateOf() == LoopMachine.ConvergeOn(cfg, turn, name, c, old(StateOf()))
    {
      hide PolicyStates;
      if c.nudge.Some? {
        Nudge(name, c.nudge.value);
      }
      if c.detail.Some? {
        RecordEvent(PolicyEvent(turn, "wind_down", c.detail.value));
      }
      heard := heard + [StillOver(turn, name, c)];
    }

    /** Trim the history in place, then converge if it is still over the target. */
    method Trim(turn: nat, name: string, target: nat, convergence: Option<Convergence>, plan: Plan) returns (next: Plan)
      modifies this`messages, this`transcript, this`nudges, this`heard
      ensures StateOf() == ApplyTrim(cfg, turn, name, target, convergence, old(StateOf()), plan).0
      ensures next == ApplyTrim(cfg, turn, name, target, convergence, old(StateOf()), plan).1
    {
      hide LoopMachine.TrimNow, LoopMachine.ConvergeOn, EstimateTokens, BaseSpecs, PolicyStates;
      next := plan;
      TrimNow(turn, name, target);
      if EstimateTokens(messages, BaseSpecs(cfg)) >= target && convergence.Some? {
        var c := convergence.value;
        next := next.(filter := next.filter.Narrow(c.filter));
        ConvergeOn(turn, name, c);
        next := next.(converging := true);
      }
    }

    method PerformBefore(turn: nat, name: string, action: PolicyAction, plan: Plan) returns (next: Plan)
      modifies this`messages, this`transcript, this`nudges, this`heard
      ensures StateOf() == ApplyBefore(cfg, turn, name, action, old(StateOf()), plan).0
      ensures next == ApplyBefore(cfg, turn, name, action, old(StateOf()), plan).1
    {
      hide ApplyTrim;
      next := plan;
      match action {
        case Narrow(filter) => next := next.(filter := next.filter.Narrow(filter));
        case Inject(nudge) => Nudge(name, nudge);
        case Converge(filter, nudge) =>
          next := next.(filter := next.filter.Narrow(filter));
          Nudge(name, nudge);
          next := next.(converging := true);
        case TrimHistory(target, convergence) => next := Trim(turn, name, target, convergence, plan);
        case GuardOffered => next := next.(guardOffered := true);
        case Record(event, detail) => RecordEvent(PolicyEvent(turn, event.GetOr(name), detail));
        case ForceFinish => next := next.(forceFinish := true);
        case RejectFinish(_) =>
        case SetFindings(_) =>
      }
    }

    method TurnStateOf(turn: nat, converging: bool) returns (state: TurnState)
      ensures state == StateFor(cfg, turn, StateOf(), converging)
    {
      state := TurnState(turn, cfg.limits.maxTurns, messages, BaseSpecs(cfg), stats, converging);
    }

    /** Ask one policy, which updates itself in place. */
    method Ask(i: nat, hook: Hook) returns (name: string, actions: seq<PolicyAction>)
      requires Assembled() && i < |policies|
      modifies policies[i], this`heard
      ensures var (p, acts) := Respond(old(policies[i].policy), hook);
        && name == p.Name() && actions == acts
        && StateOf() == Told(old(StateOf()), i, p, hook, acts)
    {
      hide Respond;
      actions := policies[i].Hear(hook);
      name := policies[i].policy.Name();
      heard := heard + [Answer(i, name, hook, actions)];
      assert PolicyStates(policies) == old(PolicyStates(policies))[i := policies[i].policy];
    }

    method PerformAllBefore(turn: nat, name: string, actions: seq<PolicyAction>, plan: Plan) returns (next: Plan)
      modifies this`messages, this`transcript, this`nudges, this`heard
      ensures StateOf() == ApplyAllBefore(cfg, turn, name, actions, old(StateOf()), plan).0
      ensures next == ApplyAllBefore(cfg, turn, name, actions, old(StateOf()), plan).1
    {
      hide ApplyBefore, StateOf;
      next := plan;
      assert actions[0..] == actions;
      for a := 0 to |actions|
        invariant ApplyAllBefore(cfg, turn, name, actions[a..], StateOf(), next)
                  == ApplyAllBefore(cfg, turn, name, actions, old(StateOf()), plan)
      {
        assert actions[a..][1..] == actions[a + 1..];
        next := PerformBefore(turn, name, actions[a], next);
      }
      assert actions[|actions|..] == [];
    }

    method BeforeTurn(turn: nat) returns (plan: Plan)
      requires Assembled()
      modifies this`messages, this`transcript, this`nudges, this`heard, policies
      ensures StateOf() == BeforeFrom(cfg, turn, 0, old(StateOf()), FreshPlan(cfg)).0
      ensures plan == BeforeFrom(cfg, turn, 0, old(StateOf()), FreshPlan(cfg)).1
    {
      hide Respond, ApplyAllBefore, PolicyStates;
      plan := FreshPlan(cfg);
      for i := 0 to |policies|
        invariant BeforeFrom(cfg, turn, i, StateOf(), plan) == BeforeFrom(cfg, turn, 0, old(StateOf()), FreshPlan(cfg))
      {
        ghost var st0, plan0 := StateOf(), plan;
        var state := TurnStateOf(turn, plan.converging);
        var name, actions := Ask(i, BeforeHook(state));
        plan := PerformAllBefore(turn, name, actions, plan);
        assert (StateOf(), plan) == BeforePolicy(cfg, turn, i, st0, plan0);
        BeforeUnfolds(cfg, turn, i, st0, plan0);
      }
    }

    method PerformAfter(turn: nat, name: string, action: PolicyAction, reject: bool) returns (next: bool)
      modifies this`messages, this`transcript, this`nudges, this`stats
      ensures StateOf() == ApplyAfter(cfg, turn, name, action, old(StateOf()), reject).0
      ensures next == ApplyAfter(cfg, turn, name, action, old(StateOf()), reject).1
    {
      next := reject;
      match action {
        case Inject(nudge) => Nudge(name, nudge);
        case RejectFinish(nudge) =>
          next := true;
          Nudge(name, nudge);
        case Record(event, detail) => RecordEvent(PolicyEvent(turn, event.GetOr(name), detail));
        case SetFindings(count) => stats := stats.(findingsRecorded := count);
        case _ =>
      }
    }

    method PerformAllAfter(turn: nat, name: string, actions: seq<PolicyAction>, reject: bool) returns (next: bool)
      modifies this`messages, this`transcript, this`nudges, this`stats
      ensures StateOf() == ApplyAllAfter(cfg, turn, name, actions, old(StateOf()), reject).0
      ensures next == ApplyAllAfter(cfg, turn, name, actions, old(StateOf()), reject).1
    {
      hide ApplyAfter, StateOf;
      next := reject;
      assert actions[0..] == actions;
      for a := 0 to |actions|
        invariant ApplyAllAfter(cfg, turn, name, actions[a..], StateOf(), next)
                  == ApplyAllAfter(cfg, turn, name, actions, old(StateOf()), reject)
      {
        assert actions[a..][1..] == actions[a + 1..];
        next := PerformAfter(turn, name, actions[a], next);
      }
      assert actions[|actions|..] == [];
    }

    method AfterTurn(turn: nat, converging: bool, outcome: TurnOutcome) returns (reject: bool)
      requires Assembled()
      modifies this`messages, this`transcript, this`nudges, this`stats, this`heard, policies
      ensures StateOf() == AfterFrom(cfg, turn, converging, outcome, 0, old(StateOf()), false).0
      ensures reject == AfterFrom(cfg, turn, converging, outcome, 0, old(StateOf()), false).1
    {
      hide Respond, ApplyAllAfter, AfterFrom, PolicyStates;
      reject := false;
      for i := 0 to |policies|
        invariant AfterFrom(cfg, turn, converging, outcome, i, StateOf(), reject)
                  == AfterFrom(cfg, turn, converging, outcome, 0, old(StateOf()), false)
      {
        AfterUnfolds(cfg, turn, converging, outcome, i, StateOf(), reject);
        var state := TurnStateOf(turn, converging);
        var name, actions := Ask(i, AfterHook(state, outcome));
        reject := PerformAllAfter(turn, name, actions, reject);
      }
      AfterEnds(cfg, turn, converging, outcome, StateOf(), reject);
    }

    /** Record what a policy asks to have recorded, and nothing else. */
    method RecordAll(turn: nat, name: string, actions: seq<PolicyAction>)
      modifies this`transcript
      ensures StateOf() == ApplyRecords(turn, name, actions, old(StateOf()))
    {
      assert actions[0..] == actions;
      for a := 0 to |actions|
        invariant ApplyRecords(turn, name, actions[a..], StateOf()) == ApplyRecords(turn, name, actions, old(StateOf()))
      {
        assert actions[a..][1..] == actions[a + 1..];
        if actions[a].Record? {
          RecordEvent(PolicyEvent(turn, actions[a].name.GetOr(name), actions[a].detail));
        }
      }
      assert actions[|actions|..] == [];
    }

    method FinishTurn(turn: nat, converging: bool, outcome: TurnOutcome)
      requires Assembled()
      modifies this`transcript, this`heard, policies
      ensures StateOf() == FinishFrom(cfg, turn, converging, outcome, 0, old(StateOf()))
    {
      hide Respond, ApplyRecords, FinishFrom, PolicyStates;
      for i := 0 to |policies|
        invariant FinishFrom(cfg, turn, converging, outcome, i, StateOf())
                  == FinishFrom(cfg, turn, converging, outcome, 0, old(StateOf()))
      {
        FinishUnfolds(cfg, turn, converging, outcome, i, StateOf());
        var state := TurnStateOf(turn, converging);
        var name, actions := Ask(i, FinishHook(state, outcome));
        RecordAll(turn, name, actions);
      }
      FinishEnds(cfg, turn, converging, outcome, StateOf());
    }

    method ExhaustedTail()
      requires Assembled()
      modifies this`transcript, this`heard, policies
      ensures StateOf() == Tail(cfg, old(StateOf()))
    {
      hide Respond, ApplyRecords, ExhaustedFrom, PolicyStates;
      var turn := cfg.limits.maxTurns;
      RecordEvent(PolicyEvent(turn, "exhausted", ExhaustedDetail(contextOverflow, stats.findingsRecorded)));
      ghost var st0 := StateOf();
      for i := 0 to |policies|
        invariant ExhaustedFrom(cfg, i, StateOf()) == ExhaustedFrom(cfg, 0, st0)
      {
        ExhaustedUnfolds(cfg, i, StateOf());
        var state := TurnStateOf(turn, true);
        var name, actions := Ask(i, ExhaustedHook(state));
        RecordAll(turn, name, actions);
      }
      ExhaustedEnds(cfg, StateOf());
    }

    // ---------- steps ----------

    /** Ask the host for the step the machine is waiting for. */
    method AskStep(step: StepId, effect: Effect) returns (ret: StepReturn)
      requires Assembled() && InSync() && Live(sys) && AskOf(cfg, sys.machine) == LoopMachine.Ask(step, effect)
      modifies host, host.store, this`sys, this`ticks
      ensures InSync() && first == old(first)
      ensures ret.Crashed? ==> sys.crashed && sys.machine == old(sys).machine
      ensures ret.Returned? ==>
                && Answers(old(sys).machine.control, ret.result)
                && !sys.crashed
                && sys.machine == Proceed(cfg, old(sys).machine, ret.result)
    {
      hide Exec, Proceed, StepRuntime.Step, Name;
      ret := host.Step(Name(step), effect);
      LoopTurn.StepAnswers(cfg, host.env, sys);
      ExecUnfolds(cfg, host.env, first, ticks);
      sys := Tick(cfg, host.env, sys);
      ticks := ticks + 1;
    }

    /** The reads of the turn that the turn's view would dispatch, with their positions. */
    method CollectReads(plan: Plan, calls: seq<ToolCall>) returns (batch: seq<IndexedCall>)
      ensures batch == ReadsOf(cfg, plan, calls, 0)
    {
      hide IsRead;
      batch := [];
      for i := 0 to |calls|
        invariant batch + ReadsOf(cfg, plan, calls[i..], i) == ReadsOf(cfg, plan, calls, 0)
      {
        assert calls[i..][1..] == calls[i + 1..];
        ghost var rest := ReadsOf(cfg, plan, calls[i + 1..], i + 1);
        if IsRead(cfg, plan, calls[i]) {
          assert batch + ([IndexedCall(i, calls[i])] + rest) == (batch + [IndexedCall(i, calls[i])]) + rest;
          batch := batch + [IndexedCall(i, calls[i])];
        }
      }
      assert calls[|calls|..] == [];
    }

    method TallyReads(calls: seq<ToolCall>)
      modifies this`stats
      ensures stats == CountReads(cfg, calls, old(stats))
    {
      hide KindOf;
      assert calls[0..] == calls;
      for i := 0 to |calls|
        invariant CountReads(cfg, calls[i..], stats) == CountReads(cfg, calls, old(stats))
      {
        assert calls[i..][1..] == calls[i + 1..];
        match KindOf(cfg.tools, calls[i].name) {
          case Some(ReadOnly(File)) => stats := stats.(filesRead := stats.filesRead + 1);
          case Some(ReadOnly(Retrieval)) => stats := stats.(searches := stats.searches + 1);
          case _ =>
        }
      }
      assert calls[|calls|..] == [];
    }

    method CollectOutcomes(outcomes: seq<(nat, ToolOutcome)>) returns (batched: map<nat, ToolOutcome>)
      ensures batched == ByIndex(outcomes)
    {
      batched := map[];
      for i := 0 to |outcomes|
        invariant batched == ByIndex(outcomes[..i])
      {
        assert outcomes[..i + 1][..i] == outcomes[..i];
        batched := batched[outcomes[i].0 := outcomes[i].1];
      }
      assert outcomes[..|outcomes|] == outcomes;
    }

    /** Record a call's outcome and push its answer. */
    method AccountFor(turn: nat, call: ToolCall, outcome: ToolOutcome,
                      progress: TurnProgress) returns (next: TurnProgress)
      modifies this`messages, this`stats, this`transcript
      ensures StateOf() == Account(cfg, turn, call, outcome, old(StateOf()), progress).0
      ensures next == Account(cfg, turn, call, outcome, old(StateOf()), progress).1
    {
      var kind := KindOf(cfg.tools, call.name);
      RecordEvent(ToolEvent(turn, call, outcome));
      next := progress.(batched := progress.batched - {progress.index}, index := progress.index + 1,
                        results := progress.results + [ToolCallResult(call, kind, outcome)]);
      match outcome
      case Continue(content) =>
        if kind == Some(Write) {
          stats := stats.(successfulWrites := stats.successfulWrites + 1);
        }
        messages := messages + [ToolMessage(call.id, content)];
      case Finish =>
        next := next.(finishRequested := true);
      case Abort(reason) =>
        next := next.(abortReason := Some(reason));
    }

    /** Where the run stands after a turn told the loop what to do. */
    ghost predicate Follows(turn: nat, flow: TurnFlow)
      reads this, policies
    {
      match flow
      case NextTurn => !sys.crashed && sys.machine == Settle(cfg, Machine(AtTurn(turn + 1), StateOf()))
      case StopLoop => !sys.crashed && sys.machine == Settle(cfg, Machine(AtTail, StateOf()))
      case Return(outcome) => !sys.crashed && sys.machine == Machine(Halted(Completed(outcome)), StateOf())
      case Raise(error) => !sys.crashed && sys.machine == Machine(Halted(Failed(error)), StateOf())
      case Died => sys.crashed
    }

    /** Let the policies react to a completed turn, then decide whether the run is over. */
    method CloseTurn(cx: TurnContext, progress: TurnProgress) returns (flow: TurnFlow)
      requires Assembled() && InSync() && !sys.crashed
      requires sys.machine == Settle(cfg, EndTurn(cfg, cx, progress, StateOf()))
      modifies this`messages, this`transcript, this`nudges, this`stats, this`completed, this`heard, policies
      ensures InSync() && Follows(cx.turn, flow)
      ensures flow.NextTurn? || flow.Return?
    {
      hide AfterFrom, FinishFrom, Move, PolicyStates, Exec;
      var outcome := TurnOutcome(cx.assistant, progress.results, progress.finishRequested, progress.abortReason);
      var reject := AfterTurn(cx.turn, cx.plan.converging, outcome);
      completed := completed + [CompletedTurn(cx, progress.results, reject)];
      if progress.abortReason.Some? {
        return Return(Aborted(progress.abortReason.value));
      }
      if progress.finishRequested && !reject {
        FinishTurn(cx.turn, cx.plan.converging, outcome);
        return Return(Finished);
      }
      return NextTurn;
    }

    /** Work through the calls of a turn in order: batched, refused, or asked one by one. */
    method RunCalls(cx: TurnContext, batched: map<nat, ToolOutcome>) returns (flow: TurnFlow)
      requires Assembled() && InSync() && !sys.crashed
      requires sys.machine
               == Settle(cfg, Machine(AtCall(cx, NO_PROGRESS.(batched := batched), cx.assistant.toolCalls), StateOf()))
      modifies this, policies, host, host.store
      ensures InSync() && first == old(first) && Follows(cx.turn, flow)
      ensures !flow.StopLoop?
    {
      hide Settle, Move, Account, LocalOutcome, PolicyStates, Exec, Deliver, AskOf, EndTurn;
      var calls := cx.assistant.toolCalls;
      var progress := NO_PROGRESS.(batched := batched);
      assert calls[0..] == calls;
      for i := 0 to |calls|
        invariant InSync() && !sys.crashed && first == old(first) && progress.index == i
        invariant sys.machine == Settle(cfg, Machine(AtCall(cx, progress, calls[i..]), StateOf()))
      {
        var call := calls[i];
        assert calls[i..][0] == call && calls[i..][1..] == calls[i + 1..];
        CallUnfolds(cfg, cx, progress, calls[i..], StateOf());
        var outcome;
        var local := LocalOutcomeOf(cx.plan, progress, call);
        if local.Some? {
          outcome := local.value;
        } else {
          CallAsks(cfg, cx, progress, call, calls[i + 1..], StateOf());
          var ret := AskStep(WriteTool(cx.turn, call.id),
                             DispatchCall(cx.turn, View(cfg.tools, ALL), IndexedCall(i, call)));
          if ret.Crashed? {
            return Died;
          }
          ProceedFromCall(cfg, cx, progress, call, calls[i + 1..], StateOf(), ret.result);
          if ret.result.Err? {
            return Raise(ret.result.error);
          }
          outcome := ret.result.value.outcome;
        }
        AccountFields(cfg, cx.turn, call, outcome, StateOf(), progress);
        progress := AccountFor(cx.turn, call, outcome, progress);
      }
      assert calls[|calls|..] == [];
      CallsDone(cfg, cx, progress, StateOf());
      flow := CloseTurn(cx, progress);
    }

    /** The outcome of a call that needs no step of its own. */
    method LocalOutcomeOf(plan: Plan, progress: TurnProgress, call: ToolCall) returns (outcome: Option<ToolOutcome>)
      ensures outcome == LocalOutcome(cfg, plan, progress, call)
    {
      if progress.index in progress.batched {
        return Some(progress.batched[progress.index]);
      }
      if plan.guardOffered && !Offered(OfferedView(cfg, plan), call.name) {
        return Some(cfg.refuse(NotOffered(call.name)));
      }
      if ReplayOf(cfg.tools, call.name) == Some(NeedsDedupKey) && Text.Trim(call.id) == [] {
        return Some(cfg.refuse(MissingCallId(call.name)));
      }
      return None;
    }

    /** One turn: policies, model, reads, calls, policies. */
    method RunTurn(turn: nat) returns (flow: TurnFlow)
      requires Assembled() && InSync() && !sys.crashed && turn < cfg.limits.maxTurns
      requires sys.machine == Settle(cfg, Machine(AtTurn(turn), StateOf()))
      modifies this, policies, host, host.store
      ensures InSync() && first == old(first) && Follows(turn, flow)
    {
      hide Settle, Move, BeforeFrom, PolicyStates, Exec, Deliver, AskOf, IsContextOverflow, ReadsOf, CountReads,
           ByIndex, OnAssistant, View, StepHost.Valid, StepHost.View;
      TurnUnfolds(cfg, turn, StateOf());
      var plan := BeforeTurn(turn);
      if plan.forceFinish {
        return StopLoop;
      }
      var offered := OfferedView(cfg, plan);
      ModelAsks(cfg, turn, plan, StateOf());
      var ret := AskStep(LlmTurn(turn), CompleteModel(messages, Specs(offered)));
      if ret.Crashed? {
        return Died;
      }
      ProceedFromModel(cfg, turn, plan, StateOf(), ret.result);
      if ret.result.Err? {
        flow := FailTurn(turn, plan, ret.result.error);
        return;
      }
      flow := AnswerTurn(turn, plan, ret.result.value.assistant);
    }

    /** The model failed: count it, give up on the conversation, or raise the error. */
    method FailTurn(turn: nat, plan: Plan, error: StepError) returns (flow: TurnFlow)
      requires Assembled() && InSync() && !sys.crashed && turn < cfg.limits.maxTurns
      requires sys.machine == Settle(cfg, OnModelError(cfg, turn, error, StateOf()))
      modifies this`consecutiveFailures, this`contextOverflow
      ensures InSync() && first == old(first) && Follows(turn, flow)
    {
      hide Settle, Move, PolicyStates, Exec, Deliver, AskOf, IsContextOverflow, View, StepHost.Valid, StepHost.View;
      ProceedFromModel(cfg, turn, plan, StateOf(), Err(error));
      if error.Transient? {
        consecutiveFailures := consecutiveFailures + 1;
        if cfg.limits.circuitBreakerThreshold > 0 && consecutiveFailures >= cfg.limits.circuitBreakerThreshold {
          return Raise(error);
        }
        return NextTurn;
      }
      if IsContextOverflow(error) {
        contextOverflow := true;
        return StopLoop;
      }
      return Raise(error);
    }

    /** The model answered: take its message in and find out which of its calls to batch. */
    method TakeAnswer(turn: nat, plan: Plan, a: AssistantTurn) returns (batch: seq<IndexedCall>)
      modifies this`messages, this`stats, this`consecutiveFailures, this`transcript
      ensures batch == ReadsOf(cfg, plan, a.toolCalls, 0)
      ensures var cx := TurnContext(turn, plan, AssistantMessage(a));
        OnAssistant(cfg, turn, plan, a, old(StateOf()))
        == Machine(if a.toolCalls == [] then AtTurn(turn + 1)
                   else if batch == [] then AtCall(cx, NO_PROGRESS, a.toolCalls)
                   else AwaitReads(cx), StateOf())
    {
      hide PolicyStates, ReadsOf, CountReads;
      batch := CollectReads(plan, a.toolCalls);
      consecutiveFailures := 0;
      var message := AssistantMessage(a);
      RecordEvent(AssistantEvent(turn, message, a.telemetry));
      messages := messages + [message];
      if a.toolCalls == [] {
        messages := messages + [UserMessage(cfg.limits.noToolNudge)];
        return;
      }
      if batch != [] {
        stats := stats.(batches := stats.batches + 1);
      }
      TallyReads(a.toolCalls);
    }

    /** Nudge an answer without calls; otherwise run its reads as one step, then work through its calls. */
    method AnswerTurn(turn: nat, plan: Plan, a: AssistantTurn) returns (flow: TurnFlow)
      requires Assembled() && InSync() && !sys.crashed
      requires sys.machine == Settle(cfg, OnAssistant(cfg, turn, plan, a, StateOf()))
      modifies this, policies, host, host.store
      ensures InSync() && first == old(first) && Follows(turn, flow)
    {
      hide Settle, Move, PolicyStates, Exec, Deliver, AskOf, ReadsOf, CountReads, ByIndex, OnAssistant, DispatchView,
           StepHost.Valid, StepHost.View;
      var batch := TakeAnswer(turn, plan, a);
      if a.toolCalls == [] {
        return NextTurn;
      }
      var cx := TurnContext(turn, plan, AssistantMessage(a));
      var batched := map[];
      assert NO_PROGRESS.(batched := map[]) == NO_PROGRESS;
      if batch != [] {
        ReadsAsk(cfg, cx, StateOf());
        var ret := AskStep(ToolsBatch(turn), DispatchReads(turn, DispatchView(cfg, plan), batch));
        if ret.Crashed? {
          return Died;
        }
        ProceedFromReads(cfg, cx, StateOf(), ret.result);
        if ret.result.Err? {
          return Raise(ret.result.error);
        }
        batched := CollectOutcomes(ret.result.value.outcomes);
      }
      flow := RunCalls(cx, batched);
    }

    /** Take the conversation over and start counting. */
    method Clear(conversation: seq<ChatMessage>)
      modifies this`messages, this`stats, this`consecutiveFailures, this`contextOverflow, this`transcript,
               this`nudges, this`completed, this`heard
      ensures StateOf() == StartState(conversation, PolicyStates(policies))
    {
      hide PolicyStates;
      messages, stats, consecutiveFailures, contextOverflow, transcript := conversation, NO_STATS, 0, false, [];
      nudges, completed, heard := [], [], [];
    }

    method Begin(conversation: seq<ChatMessage>)
      requires host.Valid()
      modifies this
      ensures InSync() && !sys.crashed
      ensures first == Start(cfg, conversation, PolicyStates(policies), host.View())
      ensures sys.machine == Settle(cfg, Machine(AtTurn(0), StateOf()))
    {
      hide Settle, PolicyStates, Exec, Start, Tick, StepHost.Valid, StepHost.View;
      Clear(conversation);
      ghost var begun := Start(cfg, conversation, PolicyStates(policies), host.View());
      StartIs(cfg, conversation, PolicyStates(policies), host.View());
      ExecBegins(cfg, host.env, begun);
      first, sys, ticks := begun, begun, 0;
    }

    /** No more turns: record the exhaustion and end the run. */
    method Exhaust(turn: nat)
      requires Assembled() && InSync() && !sys.crashed && turn <= cfg.limits.maxTurns
      requires || sys.machine == Settle(cfg, Machine(AtTail, StateOf()))
               || (turn == cfg.limits.maxTurns && sys.machine == Settle(cfg, Machine(AtTurn(turn), StateOf())))
      modifies this`transcript, this`heard, policies
      ensures InSync()
      ensures sys.machine == Machine(Halted(Completed(Exhausted)), StateOf())
    {
      hide Settle, Move, PolicyStates, Exec, Tail;
      TailUnfolds(cfg, turn, StateOf());
      ExhaustedTail();
    }

    /**
     Run the loop over a conversation. Whatever the world does, the run is the step machine's run from the same start,
     ended where it halts or cut where the process died.
     */
    method Run(conversation: seq<ChatMessage>) returns (r: RunReturn)
      requires Assembled() && host.Valid()
      modifies this, policies, host, host.store
      ensures InSync() && first == Start(cfg, conversation, old(PolicyStates(policies)), old(host.View()))
      ensures r.Killed? ==> sys.crashed
      ensures r.Ended? ==> !sys.crashed && sys.machine == Machine(Halted(r.result), StateOf())
    {
      hide Settle, Exec, Start, PolicyStates, StateOf, StepHost.Valid, StepHost.View;
      Begin(conversation);
      var turn := 0;
      while turn < cfg.limits.maxTurns
        invariant InSync() && !sys.crashed && turn <= cfg.limits.maxTurns
        invariant first == Start(cfg, conversation, old(PolicyStates(policies)), old(host.View()))
        invariant sys.machine == Settle(cfg, Machine(AtTurn(turn), StateOf()))
      {
        var flow := RunTurn(turn);
        match flow {
          case NextTurn => turn := turn + 1;
          case StopLoop => break;
          case Return(outcome) => return Ended(Completed(outcome));
          case Raise(error) => return Ended(Failed(error));
          case Died => return Killed;
        }
      }
      Exhaust(turn);
      return Ended(Completed(Exhausted));
    }
  }
}
