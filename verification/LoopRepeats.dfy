/** Two writes of one turn under one call id: the plain runtime performs both, the journaled one performs one. */
module LoopRepeats {
  import opened Wrappers
  import opened AgentTypes
  import opened StepNames
  import opened ToolSurface
  import opened Policies
  import opened StepRuntime
  import opened LoopMachine
  import opened LoopSettle
  import opened LoopResume
  import opened LoopTransparency

  const WRITE_TOOL := Tool(ToolSpec("write", "", 0), Write, Idempotent)
  const FIRST := ToolCall("x", "write", "1")
  const SECOND := ToolCall("x", "write", "2")

  function RepeatConfig(refuse: RefusalRenderer): Config {
    Config([WRITE_TOOL], LoopLimits(1, 4, 0, ""), refuse, (n: Nudge) => "", ALL)
  }

  /** A faultless world where the model asks for two writes under the id "x". */
  function RepeatEnv(codec: Codec): Env {
    Env(StepRuntime.Checkpoint(codec),
        World((t: nat, m: seq<ChatMessage>, sp: seq<ToolSpec>) => Ok(AssistantTurn(None, [FIRST, SECOND], None)),
              (t: nat, i: nat, c: ToolCall) => Continue("done")),
        (t: nat) => false, (t: nat) => false, (t: nat) => NoCrash)
  }

  function RepeatPlan(): Plan { Plan(ALL, false, false, false) }

  function RepeatContext(): TurnContext {
    TurnContext(0, RepeatPlan(), ChatMessage("assistant", None, [FIRST, SECOND], None))
  }

  lemma RepeatTools(refuse: RefusalRenderer)
    ensures var cfg := RepeatConfig(refuse);
      && Find(cfg.tools, "write") == Some(WRITE_TOOL) && View(cfg.tools, ALL) == cfg.tools
      && ReadsOfTurn(cfg, RepeatContext()) == []
      && CountReads(cfg, [FIRST, SECOND], NO_STATS) == NO_STATS
  {
    var cfg := RepeatConfig(refuse);
    ViewOfAll(cfg.tools);
    assert [FIRST, SECOND][1..] == [SECOND] && [SECOND][1..] == [];
    assert ReadsOf(cfg, RepeatPlan(), [], 2) == [] && ReadsOf(cfg, RepeatPlan(), [SECOND], 1) == [];
    assert CountReads(cfg, [], NO_STATS) == NO_STATS && CountReads(cfg, [SECOND], NO_STATS) == NO_STATS;
  }

  lemma RepeatStart(refuse: RefusalRenderer, host: Host)
    ensures Start(RepeatConfig(refuse), [], [], host)
            == System(Machine(AwaitModel(0, RepeatPlan()), StartState([], [])), host, false, [])
  {
    StartIs(RepeatConfig(refuse), [], [], host);
    TurnUnfolds(RepeatConfig(refuse), 0, StartState([], []));
  }

  lemma ModelStep(refuse: RefusalRenderer, codec: Codec, s: System)
    requires s == System(Machine(AwaitModel(0, RepeatPlan()), StartState([], [])), s.host, false, [])
    ensures var next := Tick(RepeatConfig(refuse), Plain(RepeatEnv(codec)), s);
      && !next.crashed && next.host.ran == s.host.ran
      && next.machine.control == AwaitCall(RepeatContext(), NO_PROGRESS, FIRST, [SECOND])
      && next.machine.st.policies == [] && next.machine.st.stats == NO_STATS
      && |next.observed| == 1 && next.observed[0].step == LlmTurn(0)
  {
    hide Name, Settle, Move, ReadsOf, View, Find;
    var cfg := RepeatConfig(refuse);
    ModelAsks(cfg, 0, RepeatPlan(), StartState([], []));
    var a := AssistantTurn(None, [FIRST, SECOND], None);
    ProceedFromModel(cfg, 0, RepeatPlan(), StartState([], []), Ok(AssistantValue(a)));
    RepeatTools(refuse);
    var m := OnAssistant(cfg, 0, RepeatPlan(), a, StartState([], []));
    assert [FIRST, SECOND][1..] == [SECOND];
    CallUnfolds(cfg, RepeatContext(), NO_PROGRESS, [FIRST, SECOND], m.st);
  }

  /** What delivering a call's outcome leads to, whichever runtime it came from. */
  lemma FirstDelivered(refuse: RefusalRenderer, st: LoopState)
    requires st.stats == NO_STATS
    ensures var cfg, cx := RepeatConfig(refuse), RepeatContext();
      var next := Proceed(cfg, Machine(AwaitCall(cx, NO_PROGRESS, FIRST, [SECOND]), st),
                          Ok(OutcomeValue(Continue("done"))));
      && next.control.AwaitCall? && next.control.cx == cx && next.control.call == SECOND && next.control.rest == []
      && next.control.progress.index == 1 && !next.control.progress.finishRequested
      && next.control.progress.abortReason == None
      && next.st.stats.successfulWrites == 1 && next.st.policies == st.policies
  {
    hide Settle, Move, View, Find, ReadsOf;
    var cfg, cx := RepeatConfig(refuse), RepeatContext();
    RepeatTools(refuse);
    ProceedFromCall(cfg, cx, NO_PROGRESS, FIRST, [SECOND], st, Ok(OutcomeValue(Continue("done"))));
    var (st', p') := Account(cfg, 0, FIRST, Continue("done"), st, NO_PROGRESS);
    assert [SECOND][1..] == [];
    CallUnfolds(cfg, cx, p', [SECOND], st');
  }

  lemma SecondDelivered(refuse: RefusalRenderer, p: TurnProgress, st: LoopState)
    requires !p.finishRequested && p.abortReason == None && st.stats.successfulWrites == 1 && st.policies == []
    ensures var cfg, cx := RepeatConfig(refuse), RepeatContext();
      var next := Proceed(cfg, Machine(AwaitCall(cx, p, SECOND, []), st), Ok(OutcomeValue(Continue("done"))));
      next.control == Halted(Completed(Exhausted)) && next.st.stats.successfulWrites == 2
  {
    hide Settle, Move, View, Find, ReadsOf;
    var cfg, cx := RepeatConfig(refuse), RepeatContext();
    RepeatTools(refuse);
    ProceedFromCall(cfg, cx, p, SECOND, [], st, Ok(OutcomeValue(Continue("done"))));
    var (st', p') := Account(cfg, 0, SECOND, Continue("done"), st, p);
    CallsDone(cfg, cx, p', st');
    TailUnfolds(cfg, 1, EndTurn(cfg, cx, p', st').st);
  }

  /** A write under the plain runtime runs its tool. */
  lemma PlainCallStep(refuse: RefusalRenderer, codec: Codec, s: System, p: TurnProgress, call: ToolCall,
                      rest: seq<ToolCall>)
    requires !s.crashed && s.machine.control == AwaitCall(RepeatContext(), p, call, rest)
    requires call == FIRST || call == SECOND
    ensures var next := Tick(RepeatConfig(refuse), Plain(RepeatEnv(codec)), s);
      && !next.crashed && next.host.ran == s.host.ran + multiset{ToolRun(0, p.index, call)}
      && next.machine == Proceed(RepeatConfig(refuse), s.machine, Ok(OutcomeValue(Continue("done"))))
      && next.observed == s.observed + [Observation(s.machine, WriteTool(0, "x"), Ok(OutcomeValue(Continue("done"))))]
  {
    hide Name, Proceed, View, Find, ReadsOf;
    RepeatTools(refuse);
    CallAsks(RepeatConfig(refuse), RepeatContext(), p, call, rest, s.machine.st);
  }

  /**
   Two writes of one turn with one id. Both runtimes count two successful writes; the plain one performed both, the
   journaled one performed the first and gave its result to the second.
   */
  lemma RepeatedIdSkipsWrite(refuse: RefusalRenderer, codec: Codec)
    requires RoundTrips(codec) && forall v :: codec.encode(v).Some?
    ensures var cfg, env := RepeatConfig(refuse), RepeatEnv(codec);
      var s := Start(cfg, [], [], Host(map[], [], multiset{}));
      var p, c := Exec(cfg, Plain(env), s, 3), Exec(cfg, env, s, 3);
      && p.machine.st.stats.successfulWrites == c.machine.st.stats.successfulWrites == 2
      && p.host.ran == multiset{ToolRun(0, 0, FIRST), ToolRun(0, 1, SECOND)}
      && c.host.ran == multiset{ToolRun(0, 0, FIRST)}
  {
    hide Exec, Tick, Name, RoundTrips, Settle, Proceed, Rehydrate;
    var cfg, env := RepeatConfig(refuse), RepeatEnv(codec);
    var host := Host(map[], [], multiset{});
    var s := Start(cfg, [], [], host);
    RepeatStart(refuse, host);
    ExecUnfolds(cfg, Plain(env), s, 0);
    ExecUnfolds(cfg, Plain(env), s, 1);
    ExecUnfolds(cfg, Plain(env), s, 2);
    ExecUnfolds(cfg, env, s, 2);
    ModelStep(refuse, codec, s);
    var p1 := Exec(cfg, Plain(env), s, 1);
    PlainCallStep(refuse, codec, p1, NO_PROGRESS, FIRST, [SECOND]);
    FirstDelivered(refuse, p1.machine.st);
    var p2 := Exec(cfg, Plain(env), s, 2);
    var progress := p2.machine.control.progress;
    PlainCallStep(refuse, codec, p2, progress, SECOND, []);
    SecondDelivered(refuse, progress, p2.machine.st);
    ExecUnfolds(cfg, env, s, 1);
    SameUntilCalls(cfg, env, s);
    JournaledFirst(refuse, codec, p1, Exec(cfg, env, s, 1));
    JournaledRepeat(refuse, codec, Exec(cfg, env, s, 2));
  }

  /** Up to its first call the journaled run is the plain one. */
  lemma SameUntilCalls(cfg: Config, env: Env, s: System)
    requires env.runtime.Checkpoint? && s.observed == [] && !s.crashed && s.host == Host(map[], [], multiset{})
    requires var p := Exec(cfg, Plain(env), s, 1); !p.crashed && |p.observed| == 1 && p.observed[0].step == LlmTurn(0)
    ensures var p, c := Exec(cfg, Plain(env), s, 1), Exec(cfg, env, s, 1);
      SameRun(p, c) && Name(WriteTool(0, "x")) !in c.host.journal
  {
    hide Exec, Name, AskOf;
    var p, c := Exec(cfg, Plain(env), s, 1), Exec(cfg, env, s, 1);
    DistinctUnfound(cfg, env, s.host, p);
    SameWhileUnfound(cfg, env, s, 1);
    NamesAreDistinct(LlmTurn(0), WriteTool(0, "x"));
    assert !KeptUnder(env, 0, c, 1, Name(WriteTool(0, "x")));
  }

  /** The first write runs its tool and leaves its result under the id. */
  lemma JournaledFirst(refuse: RefusalRenderer, codec: Codec, p: System, c: System)
    requires RoundTrips(codec) && (forall v :: codec.encode(v).Some?)
    requires SameRun(p, c) && !c.crashed && Name(WriteTool(0, "x")) !in c.host.journal
    requires c.machine.control == AwaitCall(RepeatContext(), NO_PROGRESS, FIRST, [SECOND])
    ensures var next := Tick(RepeatConfig(refuse), RepeatEnv(codec), c);
      && !next.crashed && next.host.ran == p.host.ran + multiset{ToolRun(0, 0, FIRST)}
      && next.machine == Proceed(RepeatConfig(refuse), p.machine, Ok(OutcomeValue(Continue("done"))))
      && Stored(codec, next.host.journal, Name(WriteTool(0, "x")), OutcomeValue(Continue("done")))
  {
    hide Name, Proceed, Rehydrate, View, Find, ReadsOf;
    RepeatTools(refuse);
    CallAsks(RepeatConfig(refuse), RepeatContext(), NO_PROGRESS, FIRST, [SECOND], c.machine.st);
  }

  lemma JournaledRepeat(refuse: RefusalRenderer, codec: Codec, c: System)
    requires !c.crashed && Stored(codec, c.host.journal, Name(WriteTool(0, "x")), OutcomeValue(Continue("done")))
    requires c.machine.control.AwaitCall? && c.machine.control.cx == RepeatContext() && c.machine.control.call == SECOND
    ensures var next := Tick(RepeatConfig(refuse), RepeatEnv(codec), c);
      && next.host.ran == c.host.ran
      && next.machine == Proceed(RepeatConfig(refuse), c.machine, Ok(OutcomeValue(Continue("done"))))
  {
    hide Name, Proceed, Rehydrate, View;
    var cfg, env, m := RepeatConfig(refuse), RepeatEnv(codec), c.machine;
    CallAsks(cfg, m.control.cx, m.control.progress, SECOND, m.control.rest, m.st);
    StepReplays(refuse, env, c.host, Name(WriteTool(0, "x")), AskOf(cfg, m).effect, OutcomeValue(Continue("done")));
  }
}
