/**
 What the counters count. In every run the budgets' counters are the numbers of calls the model has made, of turns with
 a read to dispatch, and of writes that went on, read off the answers of the model and the results of the calls.
 */
module LoopTallies {
  import opened Wrappers
  import opened AgentTypes
  import opened StepNames
  import opened ToolSurface
  import opened Policies
  import opened StepRuntime
  import opened LoopMachine
  import opened LoopTurn
  import opened LoopInduction
  import opened LoopOrder
  import opened LoopProgress
  import opened LoopAccounts
  import LoopSequential
  import LoopOutcomes

  // ---------- calls and tools ----------

  /** The call is to a registered tool of that kind; of two tools of one name the first is meant. */
  predicate Calls(tools: seq<Tool>, call: ToolCall, kind: ToolKind) {
    exists i | 0 <= i < |tools| ::
      && tools[i].spec.name == call.name && tools[i].kind == kind
      && forall j | 0 <= j < i :: tools[j].spec.name != call.name
  }

  lemma {:induction false} KindIs(tools: seq<Tool>, call: ToolCall, kind: ToolKind)
    ensures KindOf(tools, call.name) == Some(kind) <==> Calls(tools, call, kind)
  {
    if tools != [] {
      var rest := tools[1..];
      KindIs(rest, call, kind);
      if tools[0].spec.name == call.name {
        if Calls(tools, call, kind) {
          var i :| 0 <= i < |tools| && tools[i].spec.name == call.name && tools[i].kind == kind
            && forall j | 0 <= j < i :: tools[j].spec.name != call.name;
          assert i == 0;
        }
      } else {
        if Calls(tools, call, kind) {
          var i :| 0 <= i < |tools| && tools[i].spec.name == call.name && tools[i].kind == kind
            && forall j | 0 <= j < i :: tools[j].spec.name != call.name;
          assert rest[i - 1] == tools[i] && forall j | 0 <= j < i - 1 :: rest[j] == tools[j + 1];
        }
        if Calls(rest, call, kind) {
          var i :| 0 <= i < |rest| && rest[i].spec.name == call.name && rest[i].kind == kind
            && forall j | 0 <= j < i :: rest[j].spec.name != call.name;
          assert tools[i + 1] == rest[i];
          forall j | 0 <= j < i + 1 ensures tools[j].spec.name != call.name {
            assert j > 0 ==> tools[j] == rest[j - 1];
          }
        }
      }
    }
  }

  function CountCalls(tools: seq<Tool>, calls: seq<ToolCall>, kind: ToolKind): nat {
    if calls == [] then 0
    else CountCalls(tools, calls[..|calls| - 1], kind) + if Calls(tools, calls[|calls| - 1], kind) then 1 else 0
  }

  /** How many calls to tools of that kind the model has made. */
  function CallsMade(tools: seq<Tool>, obs: seq<Observation>, kind: ToolKind): nat {
    if obs == [] then 0
    else
      var o := obs[|obs| - 1];
      CallsMade(tools, obs[..|obs| - 1], kind)
      + if ModelAnswered(o) then CountCalls(tools, o.result.value.assistant.toolCalls, kind) else 0
  }

  /**
   The call reads, and the turn it is made on may dispatch it: unguarded, or one of the offered tools has its name.
   */
  ghost predicate ReadToDispatch(cfg: Config, plan: Plan, call: ToolCall) {
    && (exists read :: Calls(cfg.tools, call, ReadOnly(read)))
    && (plan.guardOffered ==> exists t | t in cfg.tools && plan.filter.Offers(t) :: t.spec.name == call.name)
  }

  ghost predicate Reads(cfg: Config, o: Observation) {
    && ModelAnswered(o) && o.before.control.AwaitModel?
    && exists call | call in o.result.value.assistant.toolCalls :: ReadToDispatch(cfg, o.before.control.plan, call)
  }

  /** On how many turns the model has made a call to read that may be dispatched. */
  ghost function ReadTurns(cfg: Config, obs: seq<Observation>): nat {
    if obs == [] then 0
    else ReadTurns(cfg, obs[..|obs| - 1]) + if Reads(cfg, obs[|obs| - 1]) then 1 else 0
  }

  /** How many of these calls wrote and let the run go on. */
  function WritesIn(tools: seq<Tool>, results: seq<ToolCallResult>): nat {
    if results == [] then 0
    else
      var last := results[|results| - 1];
      WritesIn(tools, results[..|results| - 1])
      + if Calls(tools, last.call, Write) && last.outcome.Continue? then 1 else 0
  }

  function WritesOf(tools: seq<Tool>, done: seq<CompletedTurn>): nat {
    if done == [] then 0
    else WritesOf(tools, done[..|done| - 1]) + WritesIn(tools, done[|done| - 1].results)
  }

  function WritesMade(tools: seq<Tool>, m: Machine): nat {
    WritesOf(tools, m.st.completed) + if InTurn(m.control) then WritesIn(tools, ProgressOf(m.control).results) else 0
  }

  /** The counters are what they say. */
  ghost predicate Tallied(cfg: Config, obs: seq<Observation>, m: Machine) {
    && m.st.stats.filesRead == CallsMade(cfg.tools, obs, ReadOnly(File))
    && m.st.stats.searches == CallsMade(cfg.tools, obs, ReadOnly(Retrieval))
    && m.st.stats.batches == ReadTurns(cfg, obs)
    && m.st.stats.successfulWrites == WritesMade(cfg.tools, m)
  }

  // ---------- one answer ----------

  /** Counting an answer's calls from the front adds what they are. */
  lemma {:induction false} CountReadsCounts(cfg: Config, calls: seq<ToolCall>, stats: LoopStats)
    ensures var r := CountReads(cfg, calls, stats);
      && r.filesRead == stats.filesRead + CountCalls(cfg.tools, calls, ReadOnly(File))
      && r.searches == stats.searches + CountCalls(cfg.tools, calls, ReadOnly(Retrieval))
      && r.batches == stats.batches && r.successfulWrites == stats.successfulWrites
    decreases |calls|
  {
    hide KindOf, Calls;
    if calls != [] {
      KindIs(cfg.tools, calls[0], ReadOnly(File));
      KindIs(cfg.tools, calls[0], ReadOnly(Retrieval));
      var next := match KindOf(cfg.tools, calls[0].name)
        case Some(ReadOnly(File)) => stats.(filesRead := stats.filesRead + 1)
        case Some(ReadOnly(Retrieval)) => stats.(searches := stats.searches + 1)
        case _ => stats;
      CountReadsCounts(cfg, calls[1..], next);
      CountCallsFront(cfg.tools, calls, ReadOnly(File));
      CountCallsFront(cfg.tools, calls, ReadOnly(Retrieval));
    }
  }

  lemma {:induction false} CountCallsFront(tools: seq<Tool>, calls: seq<ToolCall>, kind: ToolKind)
    requires calls != []
    ensures CountCalls(tools, calls, kind)
      == (if Calls(tools, calls[0], kind) then 1 else 0) + CountCalls(tools, calls[1..], kind)
    decreases |calls|
  {
    hide Calls;
    if |calls| > 1 {
      var front := calls[..|calls| - 1];
      CountCallsFront(tools, front, kind);
      assert front[1..] == calls[1..][..|calls| - 2];
    }
  }

  lemma ReadIs(cfg: Config, plan: Plan, call: ToolCall)
    ensures IsRead(cfg, plan, call) <==> ReadToDispatch(cfg, plan, call)
  {
    hide KindOf, Calls, View;
    forall read ensures KindOf(cfg.tools, call.name) == Some(ReadOnly(read))
      <==> Calls(cfg.tools, call, ReadOnly(read)) {
      KindIs(cfg.tools, call, ReadOnly(read));
    }
  }

  lemma {:induction false} SomeRead(cfg: Config, plan: Plan, calls: seq<ToolCall>, index: nat)
    ensures ReadsOf(cfg, plan, calls, index) != [] <==> exists call | call in calls :: ReadToDispatch(cfg, plan, call)
    decreases |calls|
  {
    hide IsRead, ReadToDispatch;
    if calls != [] {
      ReadIs(cfg, plan, calls[0]);
      SomeRead(cfg, plan, calls[1..], index + 1);
      assert calls == [calls[0]] + calls[1..];
    }
  }

  // ---------- every run ----------

  lemma ResultPush(tools: seq<Tool>, results: seq<ToolCallResult>, r: ToolCallResult)
    ensures WritesIn(tools, results + [r])
      == WritesIn(tools, results) + if Calls(tools, r.call, Write) && r.outcome.Continue? then 1 else 0
  {
    hide Calls;
    assert (results + [r])[..|results|] == results;
  }

  lemma DonePush(tools: seq<Tool>, done: seq<CompletedTurn>, t: CompletedTurn)
    ensures WritesOf(tools, done + [t]) == WritesOf(tools, done) + WritesIn(tools, t.results)
  {
    assert (done + [t])[..|done|] == done;
  }

  lemma ObservationPush(cfg: Config, obs: seq<Observation>, o: Observation)
    ensures forall kind ::
      CallsMade(cfg.tools, obs + [o], kind)
      == CallsMade(cfg.tools, obs, kind)
         + if ModelAnswered(o) then CountCalls(cfg.tools, o.result.value.assistant.toolCalls, kind) else 0
    ensures ReadTurns(cfg, obs + [o]) == ReadTurns(cfg, obs) + if Reads(cfg, o) then 1 else 0
  {
    hide CountCalls, Reads;
    assert (obs + [o])[..|obs|] == obs;
  }

  lemma AccountTallies(cfg: Config, turn: nat, call: ToolCall, outcome: ToolOutcome, st: LoopState, p: TurnProgress)
    ensures var (st', p') := Account(cfg, turn, call, outcome, st, p);
      && st'.completed == st.completed
      && st'.stats == st.stats.(successfulWrites := st'.stats.successfulWrites)
      && st'.stats.successfulWrites - st.stats.successfulWrites
         == WritesIn(cfg.tools, p'.results) - WritesIn(cfg.tools, p.results)
  {
    hide KindOf, Calls, WritesIn;
    KindIs(cfg.tools, call, Write);
    ResultPush(cfg.tools, p.results, ToolCallResult(call, KindOf(cfg.tools, call.name), outcome));
  }

  lemma MoveTallied(cfg: Config, obs: seq<Observation>, m: Machine)
    requires Moving(m) && TurnShape(m) && Tallied(cfg, obs, m)
    ensures Tallied(cfg, obs, Move(cfg, m))
  {
    hide BeforeFrom, EndTurn, Tail, Account, LocalOutcome, InOrder, EndsWithTurn, CallsMade, ReadTurns, WritesIn;
    match m.control {
      case AtTurn(turn) =>
        LoopSequential.BeforeKeepsCompleted(cfg, turn, 0, m.st, FreshPlan(cfg));
        BeforeStats(cfg, turn, 0, m.st, FreshPlan(cfg));
      case AtTail =>
        TailKeepsCompleted(cfg, m.st);
        TailStats(cfg, m.st);
      case AtCall(cx, p, rest) =>
        if rest == [] {
          EndTurnStats(cfg, cx, p, m.st);
          LoopSequential.EndTurnCompletes(cfg, cx, p, m.st);
          var done := EndTurn(cfg, cx, p, m.st).st.completed;
          assert done == m.st.completed + [done[|m.st.completed|]];
          DonePush(cfg.tools, m.st.completed, done[|m.st.completed|]);
        } else {
          var o := LocalOutcome(cfg, cx.plan, p, rest[0]);
          if o.Some? {
            AccountTallies(cfg, cx.turn, rest[0], o.value, m.st, p);
          }
        }
    }
  }

  lemma TailStats(cfg: Config, st: LoopState)
    ensures Tail(cfg, st).stats == st.stats
  {
    hide ExhaustedFrom;
    ExhaustedStats(cfg, 0, Recorded(st, ExhaustedEvent(cfg, st)));
  }

  lemma DeliverTallied(cfg: Config, obs: seq<Observation>, m: Machine, r: StepResult)
    requires Awaiting(m.control) && Answers(m.control, r) && (m.control.AwaitModel? || r.Ok?) && Tallied(cfg, obs, m)
    ensures Tallied(cfg, obs + [Observation(m, AskOf(cfg, m).step, r)], Deliver(cfg, m, r))
  {
    hide Account, OnAssistant, IsContextOverflow, ByIndex, CallsMade, ReadTurns, CountCalls, WritesIn, Reads;
    var o := Observation(m, AskOf(cfg, m).step, r);
    ObservationPush(cfg, obs, o);
    match m.control {
      case AwaitModel(turn, plan) =>
        if r.Ok? {
          AnswerTallies(cfg, turn, plan, r.value.assistant, m.st, o);
        } else {
          OnlyAnswersRead(cfg, o);
        }
      case AwaitReads(cx) => OnlyAnswersRead(cfg, o);
      case AwaitCall(cx, p, call, rest) =>
        OnlyAnswersRead(cfg, o);
        AccountTallies(cfg, cx.turn, call, r.value.outcome, m.st, p);
    }
  }

  lemma OnlyAnswersRead(cfg: Config, o: Observation)
    requires !ModelAnswered(o)
    ensures !Reads(cfg, o)
  {
  }

  lemma AnswerTallies(cfg: Config, turn: nat, plan: Plan, a: AssistantTurn, st: LoopState, o: Observation)
    requires o.before.control == AwaitModel(turn, plan) && o.step == LlmTurn(turn) && o.result == Ok(AssistantValue(a))
    ensures var next := OnAssistant(cfg, turn, plan, a, st);
      && next.st.completed == st.completed
      && (InTurn(next.control) ==> WritesIn(cfg.tools, ProgressOf(next.control).results) == 0)
      && next.st.stats.filesRead == st.stats.filesRead + CountCalls(cfg.tools, a.toolCalls, ReadOnly(File))
      && next.st.stats.searches == st.stats.searches + CountCalls(cfg.tools, a.toolCalls, ReadOnly(Retrieval))
      && next.st.stats.batches == st.stats.batches + (if Reads(cfg, o) then 1 else 0)
      && next.st.stats.successfulWrites == st.stats.successfulWrites
  {
    hide ReadsOf, CountReads, Calls, ReadToDispatch;
    SomeRead(cfg, plan, a.toolCalls, 0);
    CountReadsCounts(cfg, a.toolCalls, st.stats);
    CountReadsCounts(cfg, a.toolCalls, st.stats.(batches := st.stats.batches + 1));
  }

  /**
   At every point of every run, whatever the world and the policies do: files read and searches are the calls the model
   has made to tools of those kinds, batches the turns on which it made a read that may be dispatched, and successful
   writes the calls to writing tools that went on.
   */
  lemma CountersCount(cfg: Config, env: Env, messages: seq<ChatMessage>, policies: seq<Policy>, host: Host, k: nat)
    ensures var s := Exec(cfg, env, Start(cfg, messages, policies, host), k); Tallied(cfg, s.observed, s.machine)
  {
    hide Exec, Settle, Tallied, Move, Deliver, TurnShape;
    var P: Property := (obs: seq<Observation>, m: Machine) => ToolStepsOk(obs) ==> Tallied(cfg, obs, m);
    forall obs: seq<Observation>, m: Machine | Moving(m) && TurnShape(m) && P(obs, m) ensures P(obs, Move(cfg, m)) {
      if ToolStepsOk(obs) {
        MoveTallied(cfg, obs, m);
      }
    }
    forall obs: seq<Observation>, m: Machine, r: StepResult
      | Awaiting(m.control) && Answers(m.control, r) && TurnShape(m) && P(obs, m)
      ensures P(obs + [Observation(m, AskOf(cfg, m).step, r)], Deliver(cfg, m, r))
    {
      var more := obs + [Observation(m, AskOf(cfg, m).step, r)];
      if ToolStepsOk(more) {
        assert forall i | 0 <= i < |obs| :: more[i] == obs[i];
        assert more[|obs|].step.LlmTurn? || more[|obs|].result.Ok?;
        DeliverTallied(cfg, obs, m, r);
      }
    }
    NothingTallied(cfg, messages, policies);
    Always(cfg, env, messages, policies, host, k, P);
    ExecToolStepsOk(cfg, env, Start(cfg, messages, policies, host), k);
  }

  lemma NothingTallied(cfg: Config, messages: seq<ChatMessage>, policies: seq<Policy>)
    ensures Tallied(cfg, [], Machine(AtTurn(0), StartState(messages, policies)))
  {
  }
}
