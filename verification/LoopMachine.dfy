/**
 The agent loop as a step machine. Between two steps the loop is a deterministic function of its own state; the
 machine stops exactly where the loop asks its runtime for a named step, so a run is a sequence of asked steps and a
 crash is a run cut short.
 */
module LoopMachine {
  import opened Wrappers
  import opened Text
  import opened AgentTypes
  import opened StepNames
  import opened ToolSurface
  import opened Budget
  import opened Policies
  import opened StepRuntime
  import opened Iteration

  datatype LoopLimits = LoopLimits(
    maxTurns: nat, maxBatchSize: nat, circuitBreakerThreshold: nat, noToolNudge: string)

  /** What a run is assembled from, fixed for its whole length. */
  datatype Config = Config(
    tools: seq<Tool>, limits: LoopLimits, refuse: RefusalRenderer,
    wording: Nudge -> string, initialFilter: TurnFilter)

  datatype TranscriptEvent =
    | AssistantEvent(turn: nat, message: ChatMessage, telemetry: Option<string>)
    | ToolEvent(turn: nat, call: ToolCall, outcome: ToolOutcome)
    | PolicyEvent(turn: nat, name: string, detail: Detail)

  /** What the policies decided for the coming turn. */
  datatype Plan = Plan(filter: TurnFilter, converging: bool, guardOffered: bool, forceFinish: bool)

  datatype TurnContext = TurnContext(turn: nat, plan: Plan, assistant: ChatMessage)

  /** A turn whose calls were all accounted for, and whether a policy rejected finishing with it. */
  datatype CompletedTurn = CompletedTurn(cx: TurnContext, results: seq<ToolCallResult>, rejected: bool)

  /**
   What the policies have to do with a run: an answer of the policy at a position of the stack, a trim it asked for that
   replaced something, and one that left the history over its target and so made the turn converge.
   */
  datatype Said =
    | Answer(policy: nat, name: string, hook: Hook, actions: seq<PolicyAction>)
    | Trimmed(turn: nat, name: string, count: nat)
    | StillOver(turn: nat, name: string, convergence: Convergence)

  /**
   The state that persists from turn to turn. The last three fields are history variables: every nudge pushed onto the
   conversation with the policy it came from, every completed turn, and everything the policies said.
   */
  datatype LoopState = LoopState(
    messages: seq<ChatMessage>, stats: LoopStats, consecutiveFailures: nat, contextOverflow: bool,
    policies: seq<Policy>, transcript: seq<TranscriptEvent>, nudges: seq<(string, Nudge)>,
    completed: seq<CompletedTurn>, heard: seq<Said>)

  function StartState(messages: seq<ChatMessage>, policies: seq<Policy>): LoopState {
    LoopState(messages, NO_STATS, 0, false, policies, [], [], [], [])
  }

  datatype TurnProgress = TurnProgress(
    batched: map<nat, ToolOutcome>, index: nat, results: seq<ToolCallResult>, finishRequested: bool,
    abortReason: Option<string>)

  datatype RunResult = Completed(outcome: LoopOutcome) | Failed(error: StepError)

  datatype Control =
    | AtTurn(turn: nat)
    | AwaitModel(turn: nat, plan: Plan)
    | AwaitReads(cx: TurnContext)
    | AtCall(cx: TurnContext, progress: TurnProgress, rest: seq<ToolCall>)
    | AwaitCall(cx: TurnContext, progress: TurnProgress, call: ToolCall, rest: seq<ToolCall>)
    | AtTail
    | Halted(result: RunResult)

  datatype Machine = Machine(control: Control, st: LoopState)

  predicate Awaiting(c: Control) {
    c.AwaitModel? || c.AwaitReads? || c.AwaitCall?
  }

  /** Policy `i` has become `p` in answering that hook. */
  function Told(st: LoopState, i: nat, p: Policy, hook: Hook, actions: seq<PolicyAction>): LoopState
    requires i < |st.policies|
  {
    st.(policies := st.policies[i := p], heard := st.heard + [Answer(i, p.Name(), hook, actions)])
  }

  // ---------- before a turn: the policies narrow, trim and nudge ----------

  function BaseSpecs(cfg: Config): seq<ToolSpec> {
    Specs(View(cfg.tools, ALL))
  }

  /** What every registered tool is to the model, in the order they were registered. */
  function AllSpecs(cfg: Config): seq<ToolSpec> {
    seq(|cfg.tools|, i requires 0 <= i < |cfg.tools| => cfg.tools[i].spec)
  }

  lemma BaseSpecsAreAll(cfg: Config)
    ensures BaseSpecs(cfg) == AllSpecs(cfg)
  {
    hide View;
    ViewOfAll(cfg.tools);
  }

  function StateFor(cfg: Config, turn: nat, st: LoopState, converging: bool): TurnState {
    TurnState(turn, cfg.limits.maxTurns, st.messages, BaseSpecs(cfg), st.stats, converging)
  }

  function Nudged(cfg: Config, st: LoopState, name: string, nudge: Nudge): LoopState {
    st.(messages := st.messages + [UserMessage(cfg.wording(nudge))], nudges := st.nudges + [(name, nudge)])
  }

  function Noted(st: LoopState, said: Said): LoopState {
    st.(heard := st.heard + [said])
  }

  function Recorded(st: LoopState, event: TranscriptEvent): LoopState {
    st.(transcript := st.transcript + [event])
  }

  function TrimNow(cfg: Config, turn: nat, name: string, target: nat, st: LoopState): LoopState {
    var trim := Trimming(st.messages, BaseSpecs(cfg), target);
    var s := st.(messages := trim.messages);
    if trim.trimmed > 0
    then Noted(Recorded(s, PolicyEvent(turn, name, TrimmedDetail(trim.trimmed))), Trimmed(turn, name, trim.trimmed))
    else s
  }

  function ConvergeOn(cfg: Config, turn: nat, name: string, c: Convergence, st: LoopState): LoopState {
    var s := if c.nudge.Some? then Nudged(cfg, st, name, c.nudge.value) else st;
    var s' := if c.detail.Some? then Recorded(s, PolicyEvent(turn, "wind_down", c.detail.value)) else s;
    Noted(s', StillOver(turn, name, c))
  }

  /** Trim the history; if that is not enough, converge as the policy asked. */
  function ApplyTrim(cfg: Config, turn: nat, name: string, target: nat, convergence: Option<Convergence>,
                     st: LoopState, plan: Plan): (LoopState, Plan)
  {
    var s := TrimNow(cfg, turn, name, target, st);
    if EstimateTokens(s.messages, BaseSpecs(cfg)) >= target && convergence.Some? then
      var c := convergence.value;
      (ConvergeOn(cfg, turn, name, c, s), plan.(filter := plan.filter.Narrow(c.filter), converging := true))
    else (s, plan)
  }

  function ApplyBefore(cfg: Config, turn: nat, name: string, action: PolicyAction, st: LoopState, plan: Plan):
    (LoopState, Plan)
  {
    match action
    case Narrow(filter) => (st, plan.(filter := plan.filter.Narrow(filter)))
    case Inject(nudge) => (Nudged(cfg, st, name, nudge), plan)
    case Converge(filter, nudge) =>
      (Nudged(cfg, st, name, nudge), plan.(filter := plan.filter.Narrow(filter), converging := true))
    case TrimHistory(target, convergence) => ApplyTrim(cfg, turn, name, target, convergence, st, plan)
    case GuardOffered => (st, plan.(guardOffered := true))
    case Record(event, detail) => (Recorded(st, PolicyEvent(turn, event.GetOr(name), detail)), plan)
    case ForceFinish => (st, plan.(forceFinish := true))
    case RejectFinish(_) => (st, plan)
    case SetFindings(_) => (st, plan)
  }

  function ApplyAllBefore(cfg: Config, turn: nat, name: string, actions: seq<PolicyAction>, st: LoopState, plan: Plan):
    (LoopState, Plan)
  {
    if actions == [] then (st, plan)
    else
      var (st', plan') := ApplyBefore(cfg, turn, name, actions[0], st, plan);
      ApplyAllBefore(cfg, turn, name, actions[1..], st', plan')
  }

  /** Ask policy `i` what to do this turn, and do it. */
  function BeforePolicy(cfg: Config, turn: nat, i: nat, st: LoopState, plan: Plan): (LoopState, Plan)
    requires i < |st.policies|
  {
    var hook := BeforeHook(StateFor(cfg, turn, st, plan.converging));
    var (p, actions) := Respond(st.policies[i], hook);
    ApplyAllBefore(cfg, turn, p.Name(), actions, Told(st, i, p, hook, actions), plan)
  }

  lemma ApplyBeforeKeeps(cfg: Config, turn: nat, name: string, action: PolicyAction, st: LoopState, plan: Plan)
    ensures var st' := ApplyBefore(cfg, turn, name, action, st, plan).0;
      && st'.policies == st.policies && st'.stats == st.stats
      && st'.consecutiveFailures == st.consecutiveFailures && st'.contextOverflow == st.contextOverflow
      && st'.completed == st.completed
  {
    hide Trimming, EstimateTokens;
  }

  lemma {:induction false} ApplyAllBeforeKeeps(cfg: Config, turn: nat, name: string, actions: seq<PolicyAction>,
                                               st: LoopState, plan: Plan)
    ensures var st' := ApplyAllBefore(cfg, turn, name, actions, st, plan).0;
      && st'.policies == st.policies && st'.stats == st.stats
      && st'.consecutiveFailures == st.consecutiveFailures && st'.contextOverflow == st.contextOverflow
      && st'.completed == st.completed
    decreases |actions|
  {
    hide ApplyBefore;
    if actions != [] {
      ApplyBeforeKeeps(cfg, turn, name, actions[0], st, plan);
      var (st', plan') := ApplyBefore(cfg, turn, name, actions[0], st, plan);
      ApplyAllBeforeKeeps(cfg, turn, name, actions[1..], st', plan');
    }
  }

  function BeforeFrom(cfg: Config, turn: nat, i: nat, st: LoopState, plan: Plan): (LoopState, Plan)
    requires i <= |st.policies|
    decreases |st.policies| - i
  {
    if i == |st.policies| then (st, plan)
    else
      var (st', plan') := BeforePolicy(cfg, turn, i, st, plan);
      BeforePolicyKeeps(cfg, turn, i, st, plan);
      BeforeFrom(cfg, turn, i + 1, st', plan')
  }

  lemma BeforePolicyKeeps(cfg: Config, turn: nat, i: nat, st: LoopState, plan: Plan)
    requires i < |st.policies|
    ensures |BeforePolicy(cfg, turn, i, st, plan).0.policies| == |st.policies|
  {
    var hook := BeforeHook(StateFor(cfg, turn, st, plan.converging));
    var (p, actions) := Respond(st.policies[i], hook);
    ApplyAllBeforeKeeps(cfg, turn, p.Name(), actions, Told(st, i, p, hook, actions), plan);
  }

  function FreshPlan(cfg: Config): Plan {
    Plan(cfg.initialFilter, false, false, false)
  }

  // ---------- the model's answer ----------

  function OfferedView(cfg: Config, plan: Plan): seq<Tool> {
    View(cfg.tools, plan.filter)
  }

  /** The view batched reads go through: the offered one only under the guard. */
  function DispatchView(cfg: Config, plan: Plan): seq<Tool> {
    if plan.guardOffered then OfferedView(cfg, plan) else View(cfg.tools, ALL)
  }

  predicate Dispatchable(cfg: Config, plan: Plan, name: string) {
    !plan.guardOffered || Offered(OfferedView(cfg, plan), name)
  }

  predicate IsRead(cfg: Config, plan: Plan, call: ToolCall) {
    && KindOf(cfg.tools, call.name).Some? && KindOf(cfg.tools, call.name).value.ReadOnly?
    && Dispatchable(cfg, plan, call.name)
  }

  /** The read calls of a turn with their positions, counted from `index`. */
  function ReadsOf(cfg: Config, plan: Plan, calls: seq<ToolCall>, index: nat): seq<IndexedCall> {
    if calls == [] then []
    else
      var rest := ReadsOf(cfg, plan, calls[1..], index + 1);
      if IsRead(cfg, plan, calls[0]) then [IndexedCall(index, calls[0])] + rest else rest
  }

  function CountReads(cfg: Config, calls: seq<ToolCall>, stats: LoopStats): LoopStats {
    if calls == [] then stats
    else
      var next := match KindOf(cfg.tools, calls[0].name)
        case Some(ReadOnly(File)) => stats.(filesRead := stats.filesRead + 1)
        case Some(ReadOnly(Retrieval)) => stats.(searches := stats.searches + 1)
        case _ => stats;
      CountReads(cfg, calls[1..], next)
  }

  function ReadsOfTurn(cfg: Config, cx: TurnContext): seq<IndexedCall> {
    ReadsOf(cfg, cx.plan, cx.assistant.toolCalls, 0)
  }

  const NO_PROGRESS := TurnProgress(map[], 0, [], false, None)

  /** The model answered: record it, and either nudge an answer without calls or start on the calls. */
  function OnAssistant(cfg: Config, turn: nat, plan: Plan, a: AssistantTurn, st: LoopState): Machine {
    var message := AssistantMessage(a);
    var s0 := Recorded(st.(consecutiveFailures := 0), AssistantEvent(turn, message, a.telemetry));
    var s1 := s0.(messages := s0.messages + [message]);
    if a.toolCalls == [] then
      Machine(AtTurn(turn + 1), s1.(messages := s1.messages + [UserMessage(cfg.limits.noToolNudge)]))
    else
      var cx := TurnContext(turn, plan, message);
      var batch := ReadsOfTurn(cfg, cx);
      var batched := if batch == [] then s1.stats else s1.stats.(batches := s1.stats.batches + 1);
      var s2 := s1.(stats := CountReads(cfg, a.toolCalls, batched));
      if batch == [] then Machine(AtCall(cx, NO_PROGRESS, a.toolCalls), s2) else Machine(AwaitReads(cx), s2)
  }

  predicate BreakerTrips(cfg: Config, failures: nat) {
    0 < cfg.limits.circuitBreakerThreshold <= failures
  }

  function OnModelError(cfg: Config, turn: nat, error: StepError, st: LoopState): Machine {
    if error.Transient? then
      var s := st.(consecutiveFailures := st.consecutiveFailures + 1);
      if BreakerTrips(cfg, s.consecutiveFailures) then Machine(Halted(Failed(error)), s)
      else Machine(AtTurn(turn + 1), s)
    else if IsContextOverflow(error) then Machine(AtTail, st.(contextOverflow := true))
    else Machine(Halted(Failed(error)), st)
  }

  // ---------- the calls of a turn ----------

  /** Indexed outcomes as a map; of two entries for one index the last stays. */
  function ByIndex(outcomes: seq<(nat, ToolOutcome)>): map<nat, ToolOutcome> {
    if outcomes == [] then map[]
    else
      var last := outcomes[|outcomes| - 1];
      ByIndex(outcomes[..|outcomes| - 1])[last.0 := last.1]
  }

  /** The outcome of a call that needs no step of its own: batched already, or refused. */
  function LocalOutcome(cfg: Config, plan: Plan, progress: TurnProgress, call: ToolCall): Option<ToolOutcome> {
    if progress.index in progress.batched then Some(progress.batched[progress.index])
    else if plan.guardOffered && !Offered(OfferedView(cfg, plan), call.name) then
      Some(cfg.refuse(NotOffered(call.name)))
    else if ReplayOf(cfg.tools, call.name) == Some(NeedsDedupKey) && Trim(call.id) == [] then
      Some(cfg.refuse(MissingCallId(call.name)))
    else None
  }

  /** Account for a call's outcome in the transcript, the conversation and the turn's progress. */
  function Account(cfg: Config, turn: nat, call: ToolCall, outcome: ToolOutcome, st: LoopState, progress: TurnProgress):
    (LoopState, TurnProgress)
  {
    var kind := KindOf(cfg.tools, call.name);
    var s := Recorded(st, ToolEvent(turn, call, outcome));
    var p := progress.(batched := progress.batched - {progress.index}, index := progress.index + 1,
                       results := progress.results + [ToolCallResult(call, kind, outcome)]);
    match outcome
    case Continue(content) =>
      var stats := if kind == Some(Write) then s.stats.(successfulWrites := s.stats.successfulWrites + 1) else s.stats;
      (s.(stats := stats, messages := s.messages + [ToolMessage(call.id, content)]), p)
    case Finish => (s, p.(finishRequested := true))
    case Abort(reason) => (s, p.(abortReason := Some(reason)))
  }

  // ---------- after a turn ----------

  function ApplyAfter(cfg: Config, turn: nat, name: string, action: PolicyAction, st: LoopState, reject: bool):
    (LoopState, bool)
  {
    match action
    case Inject(nudge) => (Nudged(cfg, st, name, nudge), reject)
    case RejectFinish(nudge) => (Nudged(cfg, st, name, nudge), true)
    case Record(event, detail) => (Recorded(st, PolicyEvent(turn, event.GetOr(name), detail)), reject)
    case SetFindings(count) => (st.(stats := st.stats.(findingsRecorded := count)), reject)
    case _ => (st, reject)
  }

  function ApplyAllAfter(cfg: Config, turn: nat, name: string, actions: seq<PolicyAction>, st: LoopState, reject: bool):
    (r: (LoopState, bool))
    ensures r.0.policies == st.policies && r.0.completed == st.completed && r.0.heard == st.heard
    ensures r.0.consecutiveFailures == st.consecutiveFailures
    decreases |actions|
  {
    if actions == [] then (st, reject)
    else
      var (st', reject') := ApplyAfter(cfg, turn, name, actions[0], st, reject);
      ApplyAllAfter(cfg, turn, name, actions[1..], st', reject')
  }

  function AfterFrom(cfg: Config, turn: nat, converging: bool, outcome: TurnOutcome, i: nat, st: LoopState,
                     reject: bool):
    (r: (LoopState, bool))
    requires i <= |st.policies|
    ensures r.0.completed == st.completed && r.0.consecutiveFailures == st.consecutiveFailures
    decreases |st.policies| - i
  {
    if i == |st.policies| then (st, reject)
    else
      var hook := AfterHook(StateFor(cfg, turn, st, converging), outcome);
      var (p, actions) := Respond(st.policies[i], hook);
      var (st', reject') := ApplyAllAfter(cfg, turn, p.Name(), actions, Told(st, i, p, hook, actions), reject);
      AfterFrom(cfg, turn, converging, outcome, i + 1, st', reject')
  }

  /** Hooks that may only record: the finish hook and the exhaustion hook. */
  function ApplyRecords(turn: nat, name: string, actions: seq<PolicyAction>, st: LoopState): (r: LoopState)
    ensures r == st.(transcript := r.transcript)
    decreases |actions|
  {
    if actions == [] then st
    else
      var st' := match actions[0]
        case Record(event, detail) => Recorded(st, PolicyEvent(turn, event.GetOr(name), detail))
        case _ => st;
      ApplyRecords(turn, name, actions[1..], st')
  }

  function FinishFrom(cfg: Config, turn: nat, converging: bool, outcome: TurnOutcome, i: nat, st: LoopState): LoopState
    requires i <= |st.policies|
    decreases |st.policies| - i
  {
    if i == |st.policies| then st
    else
      var hook := FinishHook(StateFor(cfg, turn, st, converging), outcome);
      var (p, actions) := Respond(st.policies[i], hook);
      FinishFrom(cfg, turn, converging, outcome, i + 1,
                 ApplyRecords(turn, p.Name(), actions, Told(st, i, p, hook, actions)))
  }

  function ExhaustedFrom(cfg: Config, i: nat, st: LoopState): LoopState
    requires i <= |st.policies|
    decreases |st.policies| - i
  {
    if i == |st.policies| then st
    else
      var turn := cfg.limits.maxTurns;
      var hook := ExhaustedHook(StateFor(cfg, turn, st, true));
      var (p, actions) := Respond(st.policies[i], hook);
      ExhaustedFrom(cfg, i + 1, ApplyRecords(turn, p.Name(), actions, Told(st, i, p, hook, actions)))
  }

  function Tail(cfg: Config, st: LoopState): LoopState {
    ExhaustedFrom(cfg, 0, Recorded(st, PolicyEvent(cfg.limits.maxTurns, "exhausted",
                                                   ExhaustedDetail(st.contextOverflow, st.stats.findingsRecorded))))
  }

  /** All calls are accounted for: let the policies react, then stop or go on. */
  function EndTurn(cfg: Config, cx: TurnContext, progress: TurnProgress, st: LoopState): Machine {
    var outcome := TurnOutcome(cx.assistant, progress.results, progress.finishRequested, progress.abortReason);
    var (s, reject) := AfterFrom(cfg, cx.turn, cx.plan.converging, outcome, 0, st, false);
    var st' := s.(completed := s.completed + [CompletedTurn(cx, progress.results, reject)]);
    if progress.abortReason.Some? then
      Machine(Halted(Completed(Aborted(progress.abortReason.value))), st')
    else if progress.finishRequested && !reject then
      Machine(Halted(Completed(Finished)), FinishFrom(cfg, cx.turn, cx.plan.converging, outcome, 0, st'))
    else Machine(AtTurn(cx.turn + 1), st')
  }

  // ---------- running between steps ----------

  function Rank(c: Control): nat {
    match c case AtCall(_, _, _) => 3 case AtTurn(_) => 2 case AtTail => 1 case _ => 0
  }

  function RestLen(c: Control): nat {
    if c.AtCall? then |c.rest| else 0
  }

  /** One internal move of a machine that is not waiting for a step. */
  function Move(cfg: Config, m: Machine): (r: Machine)
    requires !Awaiting(m.control) && !m.control.Halted?
    ensures Rank(r.control) < Rank(m.control)
            || (Rank(r.control) == Rank(m.control) && RestLen(r.control) < RestLen(m.control))
  {
    match m.control
    case AtTurn(turn) =>
      if turn < cfg.limits.maxTurns then
        var (st, plan) := BeforeFrom(cfg, turn, 0, m.st, FreshPlan(cfg));
        if plan.forceFinish then Machine(AtTail, st) else Machine(AwaitModel(turn, plan), st)
      else Machine(AtTail, m.st)
    case AtTail => Machine(Halted(Completed(Exhausted)), Tail(cfg, m.st))
    case AtCall(cx, progress, rest) =>
      if rest == [] then EndTurn(cfg, cx, progress, m.st)
      else
        match LocalOutcome(cfg, cx.plan, progress, rest[0])
        case Some(outcome) =>
          var (st, p) := Account(cfg, cx.turn, rest[0], outcome, m.st, progress);
          Machine(AtCall(cx, p, rest[1..]), st)
        case None => Machine(AwaitCall(cx, progress, rest[0], rest[1..]), m.st)
  }

  /** Run on until a step is needed or the run is over. */
  function Settle(cfg: Config, m: Machine): (r: Machine)
    ensures Awaiting(r.control) || r.control.Halted?
    decreases Rank(m.control), RestLen(m.control)
  {
    if Awaiting(m.control) || m.control.Halted? then m else Settle(cfg, Move(cfg, m))
  }

  // ---------- steps ----------

  datatype Ask = Ask(step: StepId, effect: Effect)

  /** The step a waiting machine asks for. */
  function AskOf(cfg: Config, m: Machine): Ask
    requires Awaiting(m.control)
  {
    match m.control
    case AwaitModel(turn, plan) =>
      Ask(LlmTurn(turn), CompleteModel(m.st.messages, Specs(OfferedView(cfg, plan))))
    case AwaitReads(cx) =>
      Ask(ToolsBatch(cx.turn), DispatchReads(cx.turn, DispatchView(cfg, cx.plan), ReadsOfTurn(cfg, cx)))
    case AwaitCall(cx, progress, call, _) =>
      Ask(WriteTool(cx.turn, call.id),
          DispatchCall(cx.turn, View(cfg.tools, ALL), IndexedCall(progress.index, call)))
  }

  predicate Answers(c: Control, r: StepResult) {
    r.Ok? ==> match c
              case AwaitModel(_, _) => r.value.AssistantValue?
              case AwaitReads(_) => r.value.ReadsValue?
              case AwaitCall(_, _, _, _) => r.value.OutcomeValue?
              case _ => false
  }

  /** Take a step's result and move past it. */
  function Deliver(cfg: Config, m: Machine, r: StepResult): Machine
    requires Awaiting(m.control) && Answers(m.control, r)
  {
    match m.control
    case AwaitModel(turn, plan) => (
      match r
      case Ok(v) => OnAssistant(cfg, turn, plan, v.assistant, m.st)
      case Err(error) => OnModelError(cfg, turn, error, m.st))
    case AwaitReads(cx) => (
      match r
      case Ok(v) => Machine(AtCall(cx, NO_PROGRESS.(batched := ByIndex(v.outcomes)), cx.assistant.toolCalls), m.st)
      case Err(error) => Machine(Halted(Failed(error)), m.st))
    case AwaitCall(cx, progress, call, rest) => (
      match r
      case Ok(v) =>
        var (st, p) := Account(cfg, cx.turn, call, v.outcome, m.st, progress);
        Machine(AtCall(cx, p, rest), st)
      case Err(error) => Machine(Halted(Failed(error)), m.st))
  }

  /** Where a step's result leads: past it, and on to the next step or the end. */
  function Proceed(cfg: Config, m: Machine, r: StepResult): (next: Machine)
    requires Awaiting(m.control) && Answers(m.control, r)
    ensures Awaiting(next.control) || next.control.Halted?
  {
    Settle(cfg, Deliver(cfg, m, r))
  }

  /** A completed step: the state that asked for it, and what it was given. */
  datatype Observation = Observation(before: Machine, step: StepId, result: StepResult)

  /** The loop together with its world. `observed` is the history of completed steps of this run. */
  datatype System = System(machine: Machine, host: Host, crashed: bool, observed: seq<Observation>)

  function Start(cfg: Config, messages: seq<ChatMessage>, policies: seq<Policy>, host: Host): System {
    System(Settle(cfg, Machine(AtTurn(0), StartState(messages, policies))), host, false, [])
  }

  predicate Live(s: System) {
    !s.crashed && Awaiting(s.machine.control)
  }

  /** One step of the run; a crashed or finished run stays as it is. */
  function Tick(cfg: Config, env: Env, s: System): System {
    if !Live(s) then s
    else
      var ask := AskOf(cfg, s.machine);
      var (ret, host) := Step(cfg.refuse, env, s.host, Name(ask.step), ask.effect);
      match ret
      case Crashed => s.(host := host, crashed := true)
      case Returned(r) =>
        System(Proceed(cfg, s.machine, r), host, false,
               s.observed + [Observation(s.machine, ask.step, r)])
  }

  /** The run after `k` ticks. */
  function Exec(cfg: Config, env: Env, s: System, k: nat): System {
    Iterate((x: System) => Tick(cfg, env, x), s, k)
  }

  lemma ExecUnfolds(cfg: Config, env: Env, s: System, k: nat)
    ensures Exec(cfg, env, s, 0) == s
    ensures Exec(cfg, env, s, k + 1) == Tick(cfg, env, Exec(cfg, env, s, k))
    ensures Exec(cfg, env, s, k + 1) == Exec(cfg, env, Tick(cfg, env, s), k)
  {
    hide Tick;
    IterateLast((x: System) => Tick(cfg, env, x), s, k);
  }
}
