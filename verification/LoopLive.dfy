/**
 Where a step's result comes from. In every run, over any journal, codec and faults, a completed step was either
 answered by the entry the journal held for it, or by the world: the model asked with this very conversation and the
 offered tools, or the tools the turn's calls are meant for.
 */
module LoopLive {
  import opened Wrappers
  import opened Text
  import opened AgentTypes
  import opened StepNames
  import opened ToolSurface
  import opened StepRuntime
  import opened LoopMachine
  import opened LoopDispatch
  import opened LoopTallies

  // ---------- what the world answers ----------

  ghost predicate OfferedAt(tools: seq<Tool>, filter: TurnFilter, at: seq<nat>) {
    && (forall i, j | 0 <= i < j < |at| :: at[i] < at[j])
    && forall p: nat :: p in at <==> p < |tools| && filter.Offers(tools[p])
  }

  /** The specs are those of the offered tools, once each, in the order the tools were registered. */
  ghost predicate ShowsOffered(tools: seq<Tool>, filter: TurnFilter, specs: seq<ToolSpec>) {
    exists at: seq<nat> | OfferedAt(tools, filter, at) ::
      |specs| == |at| && forall j | 0 <= j < |at| :: at[j] < |tools| && specs[j] == tools[at[j]].spec
  }

  /** Under that filter the call means tool `i`: the first offered one of its name. */
  predicate Meant(tools: seq<Tool>, filter: TurnFilter, call: ToolCall, i: nat) {
    && i < |tools| && tools[i].spec.name == call.name && filter.Offers(tools[i])
    && forall j | 0 <= j < i :: !(tools[j].spec.name == call.name && filter.Offers(tools[j]))
  }

  /** The call means a tool, and has an id if that tool needs one. */
  predicate Runs(tools: seq<Tool>, filter: TurnFilter, call: ToolCall) {
    exists i | 0 <= i < |tools| ::
      Meant(tools, filter, call, i) && !(tools[i].replay == NeedsDedupKey && Blank(call.id))
  }

  /** What a call comes to at that moment: what its tool answers, or the refusal of it. */
  predicate Gives(cfg: Config, world: World, tick: nat, filter: TurnFilter, index: nat, call: ToolCall,
                  outcome: ToolOutcome)
  {
    outcome == if Runs(cfg.tools, filter, call) then world.tool(tick, index, call)
               else if exists i | 0 <= i < |cfg.tools| :: Meant(cfg.tools, filter, call, i)
               then cfg.refuse(MissingCallId(call.name))
               else cfg.refuse(NotOffered(call.name))
  }

  /** The tools a turn's batched reads may reach: the offered ones under the guard, else all. */
  function Reach(plan: Plan): TurnFilter {
    if plan.guardOffered then plan.filter else ALL
  }

  /** One outcome for each read of the turn that may be dispatched, and for nothing else, in call order. */
  ghost predicate ReadsGiven(cfg: Config, world: World, tick: nat, cx: TurnContext, outcomes: seq<(nat, ToolOutcome)>) {
    var calls := cx.assistant.toolCalls;
    && (forall i, j | 0 <= i < j < |outcomes| :: outcomes[i].0 < outcomes[j].0)
    && (forall p: nat :: (exists j | 0 <= j < |outcomes| :: outcomes[j].0 == p)
                         <==> p < |calls| && ReadToDispatch(cfg, cx.plan, calls[p]))
    && (forall j | 0 <= j < |outcomes| ::
          && outcomes[j].0 < |calls|
          && Gives(cfg, world, tick, Reach(cx.plan), outcomes[j].0, calls[outcomes[j].0], outcomes[j].1))
  }

  /** The result is what the world gives at that moment for what the machine asks. */
  ghost predicate WorldGives(cfg: Config, world: World, tick: nat, m: Machine, r: StepResult)
    requires Awaiting(m.control)
  {
    match m.control
    case AwaitModel(turn, plan) =>
      exists specs | ShowsOffered(cfg.tools, plan.filter, specs) ::
        && (forall a :: r == Ok(AssistantValue(a)) <==> world.model(tick, m.st.messages, specs) == Ok(a))
        && (forall e :: r == Err(e) <==> world.model(tick, m.st.messages, specs) == Err(e))
    case AwaitReads(cx) => r.Ok? && r.value.ReadsValue? && ReadsGiven(cfg, world, tick, cx, r.value.outcomes)
    case AwaitCall(cx, p, call, _) =>
      r.Ok? && r.value.OutcomeValue? && Gives(cfg, world, tick, ALL, p.index, call, r.value.outcome)
  }

  /** The tool runs that take place when the world is asked. */
  ghost function RunsAsked(cfg: Config, m: Machine): multiset<ToolRun> {
    match m.control
    case AwaitReads(cx) =>
      var calls := cx.assistant.toolCalls;
      multiset(set p: nat | p < |calls| && ReadToDispatch(cfg, cx.plan, calls[p])
               && Runs(cfg.tools, Reach(cx.plan), calls[p])
                 :: ToolRun(cx.turn, p, calls[p]))
    case AwaitCall(cx, p, call, _) =>
      if Runs(cfg.tools, ALL, call) then multiset{ToolRun(cx.turn, p.index, call)} else multiset{}
    case _ => multiset{}
  }

  // ---------- what a step was given ----------

  /** The machine asks for that step. */
  predicate AsksFor(m: Machine, step: StepId)
    requires Awaiting(m.control)
  {
    match m.control
    case AwaitModel(turn, _) => step == LlmTurn(turn)
    case AwaitReads(cx) => step == ToolsBatch(cx.turn)
    case AwaitCall(cx, _, call, _) => step == WriteTool(cx.turn, call.id)
  }

  function KindAsked(m: Machine): Kind
    requires Awaiting(m.control)
  {
    match m.control
    case AwaitModel(_, _) => ModelStep
    case AwaitReads(_) => ReadsStep
    case AwaitCall(_, _, _, _) => CallStep
  }

  /** The entry reads back as that value, of the type asked for. */
  predicate ReadsAs(codec: Codec, kind: Kind, entry: Option<Json>, v: StepValue) {
    entry.Some? && codec.decode(kind, entry.value) == Some(v) && KindOfValue(v) == kind
  }

  /** What looking a step up in the journal comes to, given the entry there. */
  ghost predicate LookedUp(env: Env, tick: nat, kind: Kind, entry: Option<Json>, fetch: Fetch) {
    match env.runtime
    case Passthrough => fetch == NotConsulted
    case Checkpoint(codec) =>
      && (fetch == FetchFailed <==> env.fetchFails(tick))
      && (fetch == Miss <==> !env.fetchFails(tick) && entry.None?)
      && (fetch == Hit <==> !env.fetchFails(tick) && exists v :: ReadsAs(codec, kind, entry, v))
      && fetch != NotConsulted
  }

  predicate TakesWrite(env: Env, tick: nat, r: StepResult) {
    && env.runtime.Checkpoint? && r.Ok? && env.runtime.codec.encode(r.value).Some?
    && !env.upsertFails(tick) && env.crash(tick) != BeforeUpsert
  }

  /**
   What a machine asking at that moment was given, if the journal held that entry for it: the entry's value if it can be
   fetched and read; otherwise the world's answer, unless the process dies first.
   */
  ghost predicate Took(cfg: Config, env: Env, tick: nat, m: Machine, entry: Option<Json>, e: StepEvent, r: StepResult)
    requires Awaiting(m.control)
  {
    && (e.crashed <==> env.crash(tick) != NoCrash)
    && LookedUp(env, tick, KindAsked(m), entry, e.fetch)
    && (e.fetch == Hit ==>
          && e.ran == NotRun && !e.persisted
          && r.Ok? && ReadsAs(env.runtime.codec, KindAsked(m), entry, r.value))
    && (e.fetch != Hit && env.crash(tick) == BeforeEffect ==> e.ran == NotRun && !e.persisted)
    && (e.fetch != Hit && env.crash(tick) != BeforeEffect ==>
          && WorldGives(cfg, env.world, tick, m, r)
          && e.ran == (if r.Ok? then RanOk else RanErr)
          && (e.persisted <==> TakesWrite(env, tick, r)))
  }

  function Lookup(journal: map<string, Json>, name: string): Option<Json> {
    if name in journal then Some(journal[name]) else None
  }

  /**
   What the journal holds under a name when step `i` of a run is asked: the last result that an earlier step wrote
   there, or what was there at the start.
   */
  function EntryBefore(env: Env, start: Host, s: System, i: nat, name: string): Option<Json>
    requires i <= |s.observed| && |start.trace| + i <= |s.host.trace|
  {
    if i == 0 then Lookup(start.journal, name)
    else
      var e, o := s.host.trace[|start.trace| + i - 1], s.observed[i - 1];
      if e.persisted && Name(o.step) == name && env.runtime.Checkpoint? && o.result.Ok?
      then env.runtime.codec.encode(o.result.value)
      else EntryBefore(env, start, s, i - 1, name)
  }

  /** The tool runs of the first `i` steps: those of the steps that ran live. */
  ghost function RunsBefore(cfg: Config, start: Host, s: System, i: nat): multiset<ToolRun>
    requires i <= |s.observed| && |start.trace| + i <= |s.host.trace|
  {
    if i == 0 then multiset{}
    else
      var e := s.host.trace[|start.trace| + i - 1];
      RunsBefore(cfg, start, s, i - 1)
      + if e.ran == NotRun then multiset{} else RunsAsked(cfg, s.observed[i - 1].before)
  }

  /** Completed step `i`, its event and what it was given. */
  ghost predicate Taken(cfg: Config, env: Env, start: Host, s: System, i: nat)
    requires i < |s.observed| && |start.trace| + i < |s.host.trace|
  {
    var tick, o := |start.trace| + i, s.observed[i];
    var e := s.host.trace[tick];
    && Awaiting(o.before.control) && AsksFor(o.before, o.step) && !e.crashed && e.name == Name(o.step)
    && Took(cfg, env, tick, o.before, EntryBefore(env, start, s, i, Name(o.step)), e, o.result)
  }

  ghost predicate StepsTaken(cfg: Config, env: Env, start: Host, s: System) {
    && |s.host.trace| == |start.trace| + |s.observed| + (if s.crashed then 1 else 0)
    && s.host.trace[..|start.trace|] == start.trace
    && forall i | 0 <= i < |s.observed| :: Taken(cfg, env, start, s, i)
  }

  /** The step the process died in, and what became of the world and the journal in it. */
  ghost predicate DiedIn(cfg: Config, env: Env, start: Host, s: System, step: StepId, r: StepResult)
    requires StepsTaken(cfg, env, start, s) && s.crashed
  {
    var n, name := |s.observed|, Name(step);
    var e := s.host.trace[|start.trace| + n];
    && Awaiting(s.machine.control) && AsksFor(s.machine, step) && e.crashed && e.name == name
    && Took(cfg, env, |start.trace| + n, s.machine, EntryBefore(env, start, s, n, name), e, r)
    && s.host.ran == start.ran + RunsBefore(cfg, start, s, n)
                     + (if e.ran == NotRun then multiset{} else RunsAsked(cfg, s.machine))
    && forall other :: Lookup(s.host.journal, other)
         == if e.persisted && other == name && env.runtime.Checkpoint? && r.Ok? then env.runtime.codec.encode(r.value)
            else EntryBefore(env, start, s, n, other)
  }

  ghost predicate Lived(cfg: Config, env: Env, start: Host, s: System) {
    && StepsTaken(cfg, env, start, s)
    && (!s.crashed ==>
          && s.host.ran == start.ran + RunsBefore(cfg, start, s, |s.observed|)
          && forall name :: Lookup(s.host.journal, name) == EntryBefore(env, start, s, |s.observed|, name))
    && (s.crashed ==> exists step, r :: DiedIn(cfg, env, start, s, step, r))
  }

  // ---------- calls and tools ----------

  lemma {:induction false} FindMeant(tools: seq<Tool>, filter: TurnFilter, call: ToolCall)
    ensures Find(View(tools, filter), call.name).Some? <==> exists i | 0 <= i < |tools| :: Meant(tools, filter, call, i)
    ensures forall i | 0 <= i < |tools| && Meant(tools, filter, call, i) ::
              Find(View(tools, filter), call.name) == Some(tools[i])
  {
    hide TurnFilter.Offers;
    if tools != [] {
      var rest := tools[1..];
      FindMeant(rest, filter, call);
      if tools[0].spec.name == call.name && filter.Offers(tools[0]) {
        assert Meant(tools, filter, call, 0);
      } else {
        forall i | 0 < i < |tools| ensures Meant(tools, filter, call, i) <==> Meant(rest, filter, call, i - 1) {
          MeantLater(tools, filter, call, i);
        }
        if i :| 0 <= i < |rest| && Meant(rest, filter, call, i) {
          assert Meant(tools, filter, call, i + 1);
        }
      }
    }
  }

  lemma MeantLater(tools: seq<Tool>, filter: TurnFilter, call: ToolCall, i: nat)
    requires 0 < i < |tools| && !(tools[0].spec.name == call.name && filter.Offers(tools[0]))
    ensures Meant(tools, filter, call, i) <==> Meant(tools[1..], filter, call, i - 1)
  {
    hide TurnFilter.Offers;
    assert forall j | 0 < j < |tools| :: tools[j] == tools[1..][j - 1];
    if Meant(tools[1..], filter, call, i - 1) {
      forall j | 0 <= j < i ensures !(tools[j].spec.name == call.name && filter.Offers(tools[j])) {
        assert j > 0 ==> tools[j] == tools[1..][j - 1];
      }
    }
  }

  /** What a view does with a call, said of the tools themselves. */
  lemma DispatchMeans(tools: seq<Tool>, filter: TurnFilter, call: ToolCall)
    ensures var d := DispatchOf(View(tools, filter), call);
      && (d.Run? <==> Runs(tools, filter, call))
      && (d.Refuse? ==> d.refusal == if exists i | 0 <= i < |tools| :: Meant(tools, filter, call, i)
                                     then MissingCallId(call.name) else NotOffered(call.name))
  {
    hide View, Meant, Trim, Find;
    FindMeant(tools, filter, call);
    BlankTrims(call.id);
    var d := DispatchOf(View(tools, filter), call);
    if d.Run? {
      var i :| 0 <= i < |tools| && Meant(tools, filter, call, i);
      assert Find(View(tools, filter), call.name) == Some(tools[i]);
    }
  }

  lemma OutcomeGiven(cfg: Config, world: World, tick: nat, filter: TurnFilter, c: IndexedCall)
    ensures Gives(cfg, world, tick, filter, c.index, c.call,
                  OutcomeOf(cfg.refuse, world, tick, View(cfg.tools, filter), c))
  {
    hide View, Meant, Runs, DispatchOf;
    DispatchMeans(cfg.tools, filter, c.call);
  }

  lemma SpecsShown(tools: seq<Tool>, filter: TurnFilter)
    ensures ShowsOffered(tools, filter, Specs(View(tools, filter)))
  {
    hide View, TurnFilter.Offers;
    ViewInOrder(tools, filter, 0);
    assert tools[0..] == tools;
    var at := OfferedFrom(tools, filter, 0);
    assert OfferedAt(tools, filter, at);
    forall j | 0 <= j < |at| ensures at[j] < |tools| && Specs(View(tools, filter))[j] == tools[at[j]].spec {
      assert at[j] in at;
    }
  }

  // ---------- one live execution ----------

  lemma ReachIs(cfg: Config, plan: Plan)
    ensures DispatchView(cfg, plan) == View(cfg.tools, Reach(plan))
  {
    hide View;
  }

  lemma BatchGives(cfg: Config, world: World, tick: nat, cx: TurnContext)
    ensures ReadsGiven(cfg, world, tick, cx,
              ReadOutcomes(cfg.refuse, world, tick, View(cfg.tools, Reach(cx.plan)), ReadsOfTurn(cfg, cx)))
  {
    hide ReadOutcomes, OutcomeOf, Gives, ReadToDispatch, IsRead, View, ReadsOf;
    var calls, view, batch := cx.assistant.toolCalls, View(cfg.tools, Reach(cx.plan)), ReadsOfTurn(cfg, cx);
    assert calls[0..] == calls;
    ReadsOfExact(cfg, cx.plan, calls, 0);
    var outcomes := ReadOutcomes(cfg.refuse, world, tick, view, batch);
    ReadOutcomesExact(cfg.refuse, world, tick, view, batch);
    forall j | 0 <= j < |outcomes|
      ensures outcomes[j].0 < |calls|
        && Gives(cfg, world, tick, Reach(cx.plan), outcomes[j].0, calls[outcomes[j].0], outcomes[j].1) {
      assert batch[j] in batch;
      OutcomeGiven(cfg, world, tick, Reach(cx.plan), batch[j]);
    }
    forall p: nat ensures (exists j | 0 <= j < |outcomes| :: outcomes[j].0 == p)
      <==> p < |calls| && ReadToDispatch(cfg, cx.plan, calls[p]) {
      if j :| 0 <= j < |outcomes| && outcomes[j].0 == p {
        assert batch[j] in batch;
        ReadIs(cfg, cx.plan, calls[p]);
      }
      if p < |calls| && ReadToDispatch(cfg, cx.plan, calls[p]) {
        ReadIs(cfg, cx.plan, calls[p]);
        assert IndexedCall(p, calls[p]) in batch;
        var j :| 0 <= j < |batch| && batch[j] == IndexedCall(p, calls[p]);
        assert outcomes[j].0 == p;
      }
    }
  }

  lemma BatchRuns(cfg: Config, m: Machine, cx: TurnContext)
    requires m.control == AwaitReads(cx)
    ensures ReadRuns(cx.turn, View(cfg.tools, Reach(cx.plan)), ReadsOfTurn(cfg, cx)) == RunsAsked(cfg, m)
  {
    hide ReadRuns, ReadToDispatch, IsRead, View, ReadsOf, Runs, DispatchOf;
    var calls, view, batch := cx.assistant.toolCalls, View(cfg.tools, Reach(cx.plan)), ReadsOfTurn(cfg, cx);
    assert calls[0..] == calls;
    ReadsOfExact(cfg, cx.plan, calls, 0);
    ReadRunsExact(cx.turn, view, batch);
    var runs, asked := ReadRuns(cx.turn, view, batch), RunsAsked(cfg, m);
    forall r ensures runs[r] == asked[r] {
      if r.index < |calls| {
        ReadIs(cfg, cx.plan, calls[r.index]);
        DispatchMeans(cfg.tools, Reach(cx.plan), calls[r.index]);
      }
      assert r in runs <==> r in asked;
    }
  }

  /** A live execution answers with what the world gives, and runs the tools it takes. */
  lemma PerformGives(cfg: Config, world: World, tick: nat, m: Machine)
    requires Awaiting(m.control)
    ensures var (r, runs) := Perform(cfg.refuse, world, tick, AskOf(cfg, m).effect);
      WorldGives(cfg, world, tick, m, r) && runs == RunsAsked(cfg, m) && (r.Err? ==> runs == multiset{})
  {
    hide ReadOutcomes, ReadRuns, View, ReadsOf, ShowsOffered, Specs, DispatchOf, Runs, Gives, ReadsGiven,
         ReadToDispatch;
    match m.control {
      case AwaitModel(turn, plan) =>
        SpecsShown(cfg.tools, plan.filter);
        assert ShowsOffered(cfg.tools, plan.filter, Specs(View(cfg.tools, plan.filter)));
      case AwaitReads(cx) =>
        ReachIs(cfg, cx.plan);
        BatchGives(cfg, world, tick, cx);
        BatchRuns(cfg, m, cx);
      case AwaitCall(cx, p, call, _) =>
        DispatchMeans(cfg.tools, ALL, call);
        OutcomeGiven(cfg, world, tick, ALL, IndexedCall(p.index, call));
    }
  }

  lemma AskIs(cfg: Config, m: Machine)
    requires Awaiting(m.control)
    ensures AsksFor(m, AskOf(cfg, m).step) && KindOfEffect(AskOf(cfg, m).effect) == KindAsked(m)
  {
    hide View, Specs, ReadsOf;
  }

  /** A step answered by the journal. */
  lemma HitTook(cfg: Config, env: Env, host: Host, m: Machine, v: StepValue)
    requires Awaiting(m.control) && env.runtime.Checkpoint?
    requires var ask := AskOf(cfg, m);
      Consult(env.runtime.codec, env, host, Name(ask.step), KindOfEffect(ask.effect)) == (Hit, Some(v))
    ensures TookInStep(cfg, env, host, m, Ok(v))
  {
    hide AskOf, Name, WorldGives, RunsAsked, GoLive;
    AskIs(cfg, m);
    assert ReadsAs(env.runtime.codec, KindAsked(m), Lookup(host.journal, Name(AskOf(cfg, m).step)), v);
  }

  /** A step answered by the world, or cut short. */
  lemma LiveTook(cfg: Config, env: Env, host: Host, m: Machine)
    requires Awaiting(m.control)
    requires env.runtime.Checkpoint? ==>
      var ask := AskOf(cfg, m);
      Consult(env.runtime.codec, env, host, Name(ask.step), KindOfEffect(ask.effect)).1 == None
    ensures TookInStep(cfg, env, host, m, Perform(cfg.refuse, env.world, |host.trace|, AskOf(cfg, m).effect).0)
  {
    hide AskOf, Name, Perform, WorldGives, RunsAsked, LookedUp, Consult, Lookup;
    PerformGives(cfg, env.world, |host.trace|, m);
    LookupIs(cfg, env, host, m);
  }

  lemma LookupIs(cfg: Config, env: Env, host: Host, m: Machine)
    requires Awaiting(m.control)
    ensures var ask := AskOf(cfg, m);
      LookedUp(env, |host.trace|, KindAsked(m), Lookup(host.journal, Name(ask.step)),
               if env.runtime.Passthrough? then NotConsulted
               else Consult(env.runtime.codec, env, host, Name(ask.step), KindOfEffect(ask.effect)).0)
  {
    hide AskOf, Name;
    AskIs(cfg, m);
    if env.runtime.Checkpoint? {
      var v := Consult(env.runtime.codec, env, host, Name(AskOf(cfg, m).step), KindOfEffect(AskOf(cfg, m).effect)).1;
      if v.Some? {
        assert ReadsAs(env.runtime.codec, KindAsked(m), Lookup(host.journal, Name(AskOf(cfg, m).step)), v.value);
      }
    }
  }

  /** One step of any runtime, given `r`: what it was given, what ran, and what the journal gained. */
  ghost predicate TookInStep(cfg: Config, env: Env, host: Host, m: Machine, r: StepResult)
    requires Awaiting(m.control)
  {
    var ask := AskOf(cfg, m);
    var name := Name(ask.step);
    var (ret, next) := Step(cfg.refuse, env, host, name, ask.effect);
    var e := next.trace[|host.trace|];
    && next.trace == host.trace + [e]
    && e.name == name && (e.crashed <==> ret.Crashed?) && (ret.Returned? ==> ret.result == r)
    && Took(cfg, env, |host.trace|, m, Lookup(host.journal, name), e, r)
    && next.ran == host.ran + (if e.ran == NotRun then multiset{} else RunsAsked(cfg, m))
    && (e.persisted ==> env.runtime.Checkpoint? && r.Ok? && env.runtime.codec.encode(r.value).Some?
                        && next.journal == host.journal[name := env.runtime.codec.encode(r.value).value])
    && (!e.persisted ==> next.journal == host.journal)
  }

  lemma StepTook(cfg: Config, env: Env, host: Host, m: Machine) returns (r: StepResult)
    requires Awaiting(m.control)
    ensures TookInStep(cfg, env, host, m, r)
  {
    hide AskOf, Name, Perform, TookInStep, Rehydrate;
    var ask := AskOf(cfg, m);
    if env.runtime.Checkpoint?
       && Consult(env.runtime.codec, env, host, Name(ask.step), KindOfEffect(ask.effect)).1.Some? {
      var v := Consult(env.runtime.codec, env, host, Name(ask.step), KindOfEffect(ask.effect)).1.value;
      r := Ok(v);
      HitTook(cfg, env, host, m, v);
    } else {
      r := Perform(cfg.refuse, env.world, |host.trace|, ask.effect).0;
      LiveTook(cfg, env, host, m);
    }
  }

  // ---------- whole runs ----------

  lemma {:induction false} EntriesStay(env: Env, start: Host, s: System, next: System, i: nat, name: string)
    requires i <= |s.observed| && |start.trace| + i <= |s.host.trace|
    requires s.observed <= next.observed && s.host.trace <= next.host.trace
    ensures EntryBefore(env, start, s, i, name) == EntryBefore(env, start, next, i, name)
  {
    hide Name;
    if i > 0 {
      EntriesStay(env, start, s, next, i - 1, name);
      assert s.observed[i - 1] == next.observed[i - 1];
    }
  }

  lemma {:induction false} RunsStay(cfg: Config, start: Host, s: System, next: System, i: nat)
    requires i <= |s.observed| && |start.trace| + i <= |s.host.trace|
    requires s.observed <= next.observed && s.host.trace <= next.host.trace
    ensures forall j | 0 <= j < i :: next.observed[j] == s.observed[j]
    ensures RunsBefore(cfg, start, s, i) == RunsBefore(cfg, start, next, i)
  {
    hide RunsAsked;
    if i > 0 {
      RunsStay(cfg, start, s, next, i - 1);
      assert s.observed[i - 1] == next.observed[i - 1];
    }
  }

  lemma TakenStay(cfg: Config, env: Env, start: Host, s: System, next: System, i: nat)
    requires i < |s.observed| && |start.trace| + i < |s.host.trace| && Taken(cfg, env, start, s, i)
    requires s.observed <= next.observed && s.host.trace <= next.host.trace
    ensures Taken(cfg, env, start, next, i)
  {
    hide Took, Name, AsksFor, EntryBefore;
    assert s.observed[i] == next.observed[i] && s.host.trace[|start.trace| + i] == next.host.trace[|start.trace| + i];
    EntriesStay(env, start, s, next, i, Name(s.observed[i].step));
  }

  /** What one more step adds to the world. */
  lemma TickAdds(cfg: Config, env: Env, s: System) returns (step: StepId, r: StepResult, e: StepEvent)
    requires Live(s)
    ensures var next, name := Tick(cfg, env, s), Name(step);
      && AsksFor(s.machine, step)
      && next.host.trace == s.host.trace + [e]
      && e.name == name && next.crashed == e.crashed
      && Took(cfg, env, |s.host.trace|, s.machine, Lookup(s.host.journal, name), e, r)
      && next.host.ran == s.host.ran + (if e.ran == NotRun then multiset{} else RunsAsked(cfg, s.machine))
      && (forall other :: Lookup(next.host.journal, other)
            == if e.persisted && other == name && env.runtime.Checkpoint? && r.Ok?
               then env.runtime.codec.encode(r.value) else Lookup(s.host.journal, other))
      && (e.crashed ==> next.observed == s.observed && next.machine == s.machine)
      && (!e.crashed ==> next.observed == s.observed + [Observation(s.machine, step, r)])
  {
    hide Step, AskOf, Name, Proceed, Took, RunsAsked, AsksFor;
    step := AskOf(cfg, s.machine).step;
    AskIs(cfg, s.machine);
    r := StepTook(cfg, env, s.host, s.machine);
    var next := Tick(cfg, env, s);
    e := next.host.trace[|s.host.trace|];
    assert next.host.trace == next.host.trace[..|s.host.trace|] + [e];
  }

  lemma TickTakes(cfg: Config, env: Env, start: Host, s: System, step: StepId, r: StepResult, e: StepEvent)
    requires Lived(cfg, env, start, s) && Live(s) && AsksFor(s.machine, step) && !e.crashed
    requires var next := Tick(cfg, env, s);
      && next.host.trace == s.host.trace + [e] && e.name == Name(step)
      && next.observed == s.observed + [Observation(s.machine, step, r)]
    requires Took(cfg, env, |s.host.trace|, s.machine, Lookup(s.host.journal, Name(step)), e, r)
    ensures var next := Tick(cfg, env, s); forall i | 0 <= i < |next.observed| :: Taken(cfg, env, start, next, i)
  {
    hide Tick, Name, Took, RunsAsked, AsksFor, EntryBefore;
    var next, n := Tick(cfg, env, s), |s.observed|;
    forall i | 0 <= i < |next.observed| ensures Taken(cfg, env, start, next, i) {
      if i < n {
        TakenStay(cfg, env, start, s, next, i);
      } else {
        EntriesStay(env, start, s, next, n, Name(step));
        assert next.observed[n] == Observation(s.machine, step, r) && next.host.trace[|start.trace| + n] == e;
      }
    }
  }

  lemma TickLived(cfg: Config, env: Env, start: Host, s: System)
    requires Lived(cfg, env, start, s) && Live(s)
    ensures Lived(cfg, env, start, Tick(cfg, env, s))
  {
    hide Tick, Name, Took, RunsAsked, AsksFor, Taken;
    var next, n := Tick(cfg, env, s), |s.observed|;
    var step, r, e := TickAdds(cfg, env, s);
    RunsStay(cfg, start, s, next, n);
    forall name ensures EntryBefore(env, start, s, n, name) == EntryBefore(env, start, next, n, name) {
      EntriesStay(env, start, s, next, n, name);
    }
    assert next.host.trace[|start.trace| + n] == e && next.host.trace[..|start.trace|] == s.host.trace[..|start.trace|];
    if e.crashed {
      forall i | 0 <= i < n ensures Taken(cfg, env, start, next, i) {
        TakenStay(cfg, env, start, s, next, i);
      }
      assert DiedIn(cfg, env, start, next, step, r);
    } else {
      TickTakes(cfg, env, start, s, step, r, e);
      assert next.observed[n] == Observation(s.machine, step, r);
    }
  }

  /**
   In every run, over any journal, with any codec, any faults and any deaths: each completed step was looked up under
   its name; if the entry the journal then held could be fetched and reads back as a result of its type, that is what
   the step was given, and nothing ran; otherwise it was given what the world answers at that moment, the tools run
   are those its calls are meant for, and the result was written if it could be. The tools run, and the journal, are
   those of the steps taken, the one the process died in included.
   */
  lemma {:induction false} EveryStepLived(cfg: Config, env: Env, s: System, k: nat)
    requires s.observed == [] && !s.crashed
    ensures Lived(cfg, env, s.host, Exec(cfg, env, s, k))
  {
    hide Exec, Tick, Lived;
    ExecUnfolds(cfg, env, s, if k == 0 then 0 else k - 1);
    if k == 0 {
      NothingLived(cfg, env, s);
    } else {
      EveryStepLived(cfg, env, s, k - 1);
      var t := Exec(cfg, env, s, k - 1);
      if Live(t) {
        TickLived(cfg, env, s.host, t);
      } else {
        DeadStays(cfg, env, t);
      }
    }
  }

  lemma DeadStays(cfg: Config, env: Env, s: System)
    requires !Live(s)
    ensures Tick(cfg, env, s) == s
  {
  }

  lemma NothingLived(cfg: Config, env: Env, s: System)
    requires s.observed == [] && !s.crashed
    ensures Lived(cfg, env, s.host, s)
  {
  }
}
