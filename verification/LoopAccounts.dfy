/**
 Where everything a run leaves behind comes from. At every point of every run the conversation, the nudges, the
 transcript and the findings count are accounted for by what the model answered, what came of the calls, and what the
 policies, answering for themselves, said.
 */
module LoopAccounts {
  import opened Wrappers
  import opened AgentTypes
  import opened StepNames
  import opened ToolSurface
  import opened Policies
  import opened StepRuntime
  import opened LoopMachine
  import opened LoopTurn
  import opened LoopInduction
  import opened LoopOrder
  import LoopSequential
  import LoopOutcomes
  import opened LoopSaid
  import opened LoopRounds

  // ---------- what the model said ----------

  predicate ModelAnswered(o: Observation) {
    o.step.LlmTurn? && o.result.Ok? && o.result.value.AssistantValue?
  }

  /** What an answer puts into the conversation: itself and, when it calls no tool, the loop's reminder. */
  function SpokenBy(cfg: Config, o: Observation): multiset<ChatMessage> {
    if !ModelAnswered(o) then multiset{}
    else
      var a := o.result.value.assistant;
      multiset{ChatMessage("assistant", a.content, a.toolCalls, None)}
      + if a.toolCalls == [] then multiset{ChatMessage("user", Some(cfg.limits.noToolNudge), [], None)} else multiset{}
  }

  function Spoken(cfg: Config, obs: seq<Observation>): multiset<ChatMessage> {
    if obs == [] then multiset{} else Spoken(cfg, obs[..|obs| - 1]) + SpokenBy(cfg, obs[|obs| - 1])
  }

  /** The transcript's record of the model's answers. */
  function AnswersHeard(obs: seq<Observation>): seq<TranscriptEvent> {
    if obs == [] then []
    else
      var o := obs[|obs| - 1];
      AnswersHeard(obs[..|obs| - 1])
      + if ModelAnswered(o) then
          var a := o.result.value.assistant;
          [AssistantEvent(o.step.turn, ChatMessage("assistant", a.content, a.toolCalls, None), a.telemetry)]
        else []
  }

  // ---------- what came of the calls ----------

  function ResultEvents(turn: nat, results: seq<ToolCallResult>): seq<TranscriptEvent> {
    seq(|results|, i requires 0 <= i < |results| => ToolEvent(turn, results[i].call, results[i].outcome))
  }

  function TurnEvents(done: seq<CompletedTurn>): seq<TranscriptEvent> {
    if done == [] then []
    else
      var last := done[|done| - 1];
      TurnEvents(done[..|done| - 1]) + ResultEvents(last.cx.turn, last.results)
  }

  /** The results of completed turns, then those of the turn in progress. */
  function CallEvents(m: Machine): seq<TranscriptEvent> {
    TurnEvents(m.st.completed)
    + if InTurn(m.control) then ResultEvents(ContextOf(m.control).turn, ProgressOf(m.control).results) else []
  }

  // ---------- parts of a transcript ----------

  predicate OfModel(e: TranscriptEvent) { e.AssistantEvent? }
  predicate OfCall(e: TranscriptEvent) { e.ToolEvent? }
  predicate OfPolicy(e: TranscriptEvent) { e.PolicyEvent? }

  function Part(transcript: seq<TranscriptEvent>, kind: TranscriptEvent -> bool): seq<TranscriptEvent> {
    if transcript == [] then []
    else
      var last := transcript[|transcript| - 1];
      Part(transcript[..|transcript| - 1], kind) + if kind(last) then [last] else []
  }

  lemma {:induction false} PartConcat(a: seq<TranscriptEvent>, b: seq<TranscriptEvent>, kind: TranscriptEvent -> bool)
    ensures Part(a + b, kind) == Part(a, kind) + Part(b, kind)
    decreases |b|
  {
    if b == [] {
      assert a + b == a;
    } else {
      assert (a + b)[..|a + b| - 1] == a + b[..|b| - 1];
      PartConcat(a, b[..|b| - 1], kind);
    }
  }

  lemma PartPush(a: seq<TranscriptEvent>, e: TranscriptEvent, kind: TranscriptEvent -> bool)
    ensures Part(a + [e], kind) == if kind(e) then Part(a, kind) + [e] else Part(a, kind)
  {
    assert (a + [e])[..|a|] == a;
  }

  lemma {:induction false} PartOfPolicies(es: seq<TranscriptEvent>)
    requires forall e | e in es :: e.PolicyEvent?
    ensures Part(es, OfModel) == [] && Part(es, OfCall) == [] && Part(es, OfPolicy) == es
  {
    if es != [] {
      PartOfPolicies(es[..|es| - 1]);
      assert es[|es| - 1] in es;
    }
  }

  /** The record that a run ran out of turns. */
  function ExhaustedEvent(cfg: Config, st: LoopState): TranscriptEvent {
    PolicyEvent(cfg.limits.maxTurns, "exhausted", ExhaustedDetail(st.contextOverflow, st.stats.findingsRecorded))
  }

  predicate RanOut(m: Machine) {
    m.control == Halted(Completed(Exhausted))
  }

  // ---------- the law ----------

  /** Everything is accounted for. */
  ghost predicate Accounted(cfg: Config, initial: seq<Policy>, conversation: seq<ChatMessage>, obs: seq<Observation>,
                            m: Machine)
  {
    && Faithful(initial, m.st)
    && m.st.stats.findingsRecorded == FindingsSaid(m.st.heard)
    && multiset(m.st.nudges) == Sum(m.st.heard).nudges
    && Voices(m.st.messages) == Voices(conversation) + Spoken(cfg, obs) + NudgeVoices(cfg, m.st.nudges)
    && Part(m.st.transcript, OfModel) == AnswersHeard(obs)
    && Part(m.st.transcript, OfCall) == CallEvents(m)
    && multiset(Part(m.st.transcript, OfPolicy))
       == Sum(m.st.heard).events + if RanOut(m) then multiset{ExhaustedEvent(cfg, m.st)} else multiset{}
  }

  /** What policies say in a round keeps a state accounted for, given that nothing else changed. */
  lemma GrewParts(cfg: Config, base: multiset<ChatMessage>, st: LoopState, st': LoopState, said: seq<Said>)
    requires Grew(cfg, st, st', said)
    ensures st'.heard == st.heard + said && st'.completed == st.completed && st'.contextOverflow == st.contextOverflow
    ensures Part(st'.transcript, OfModel) == Part(st.transcript, OfModel)
    ensures Part(st'.transcript, OfCall) == Part(st.transcript, OfCall)
    ensures multiset(Part(st'.transcript, OfPolicy)) == multiset(Part(st.transcript, OfPolicy)) + Sum(said).events
    ensures multiset(st'.nudges) == multiset(st.nudges) + Sum(said).nudges
    ensures Voices(st.messages) == base + NudgeVoices(cfg, st.nudges) ==>
              Voices(st'.messages) == base + NudgeVoices(cfg, st'.nudges)
    ensures Sum(st'.heard) == Sum(st.heard).And(Sum(said))
  {
    hide Sum, Voices, NudgeVoices, Part;
    SumSaid(said);
    SumConcat(st.heard, said);
    var es, ns := st'.transcript[|st.transcript|..], st'.nudges[|st.nudges|..];
    assert st'.transcript == st.transcript + es && st'.nudges == st.nudges + ns;
    assert forall e | e in es :: e in multiset(es);
    PartOfPolicies(es);
    PartConcat(st.transcript, es, OfModel);
    PartConcat(st.transcript, es, OfCall);
    PartConcat(st.transcript, es, OfPolicy);
    NudgeVoicesConcat(cfg, st.nudges, ns);
  }

  ghost predicate StateAccounted(cfg: Config, initial: seq<Policy>, conversation: seq<ChatMessage>,
                                 obs: seq<Observation>, calls: seq<TranscriptEvent>,
                                 extra: multiset<TranscriptEvent>, st: LoopState)
  {
    && Faithful(initial, st)
    && st.stats.findingsRecorded == FindingsSaid(st.heard)
    && multiset(st.nudges) == Sum(st.heard).nudges
    && Voices(st.messages) == Voices(conversation) + Spoken(cfg, obs) + NudgeVoices(cfg, st.nudges)
    && Part(st.transcript, OfModel) == AnswersHeard(obs)
    && Part(st.transcript, OfCall) == calls
    && multiset(Part(st.transcript, OfPolicy)) == Sum(st.heard).events + extra
  }

  lemma RoundKeeps(cfg: Config, initial: seq<Policy>, conversation: seq<ChatMessage>, obs: seq<Observation>,
                   calls: seq<TranscriptEvent>, extra: multiset<TranscriptEvent>, st: LoopState, st': LoopState,
                   said: seq<Said>)
    requires StateAccounted(cfg, initial, conversation, obs, calls, extra, st)
    requires Grew(cfg, st, st', said)
    requires Faithful(initial, st') && st'.stats.findingsRecorded == FindingsSaid(st'.heard)
    ensures StateAccounted(cfg, initial, conversation, obs, calls, extra, st')
  {
    hide Sum, Voices, NudgeVoices, Part, Grew, Faithful, Spoken, AnswersHeard, FindingsSaid;
    GrewParts(cfg, Voices(conversation) + Spoken(cfg, obs), st, st', said);
  }

  /** Trims and answers before a turn set no findings. */
  lemma {:induction false} BeforeSetsNothing(a: seq<Said>, b: seq<Said>)
    requires forall s | s in b :: s.Answer? ==> !s.hook.AfterHook?
    ensures FindingsSaid(a + b) == FindingsSaid(a)
    decreases |b|
  {
    if b == [] {
      assert a + b == a;
    } else {
      assert (a + b)[..|a + b| - 1] == a + b[..|b| - 1];
      assert b[|b| - 1] in b;
      BeforeSetsNothing(a, b[..|b| - 1]);
    }
  }

  lemma {:induction false} RoundMoments(cfg: Config, said: seq<Said>, moment: Moment, turn: nat, from: nat, n: nat)
    requires Round(cfg, said, moment, turn, from, n)
    ensures forall s | s in said && s.Answer? :: MomentOf(s.hook) == moment && s.hook.state.turn == turn
    ensures forall s | s in said && !s.Answer? :: s.turn == turn && moment == BeforeTurn
  {
    forall s | s in said && s.Answer? ensures MomentOf(s.hook) == moment && s.hook.state.turn == turn {
      assert s in Replies(said);
      var j :| 0 <= j < |Replies(said)| && Replies(said)[j] == s;
      assert AskedAt(cfg, Replies(said)[j], from + j, moment, turn);
    }
  }

  /** A turn begins: the policies are asked. */
  lemma BeginTurn(cfg: Config, initial: seq<Policy>, conversation: seq<ChatMessage>, obs: seq<Observation>,
                  calls: seq<TranscriptEvent>, turn: nat, st: LoopState)
    requires StateAccounted(cfg, initial, conversation, obs, calls, multiset{}, st)
    ensures StateAccounted(cfg, initial, conversation, obs, calls, multiset{},
                           BeforeFrom(cfg, turn, 0, st, FreshPlan(cfg)).0)
  {
    hide BeforeFrom, Sum, Voices, NudgeVoices, Part, Grew, Faithful, Spoken, AnswersHeard, Granted, Round, WishSaid;
    var st' := BeforeFrom(cfg, turn, 0, st, FreshPlan(cfg)).0;
    var said := BeforeSays(cfg, initial, turn, 0, st, FreshPlan(cfg));
    RoundMoments(cfg, said, BeforeTurn, turn, 0, |st.policies|);
    GrewParts(cfg, multiset{}, st, st', said);
    BeforeSetsNothing(st.heard, said);
    RoundKeeps(cfg, initial, conversation, obs, calls, multiset{}, st, st', said);
  }

  /** A turn ends: the policies are asked, and once more if the run finishes with it. */
  lemma CloseTurn(cfg: Config, initial: seq<Policy>, conversation: seq<ChatMessage>, obs: seq<Observation>,
                  calls: seq<TranscriptEvent>, cx: TurnContext, p: TurnProgress, st: LoopState)
    requires StateAccounted(cfg, initial, conversation, obs, calls, multiset{}, st)
    requires EndsWithTurn(st.messages, cx.assistant, p.results)
    ensures StateAccounted(cfg, initial, conversation, obs, calls, multiset{}, EndTurn(cfg, cx, p, st).st)
  {
    hide AfterFrom, FinishFrom, EndsWithTurn, ShowsTurn, Judges, Sum, Voices, NudgeVoices, Part, Grew, Faithful, Spoken,
         AnswersHeard, Round, FindingsSaid;
    var outcome := TurnOutcome(cx.assistant, p.results, p.finishRequested, p.abortReason);
    var (s, reject) := AfterFrom(cfg, cx.turn, cx.plan.converging, outcome, 0, st, false);
    TurnShows(st.messages, cx.assistant, p.results);
    var said := AfterSays(cfg, initial, cx.turn, cx.plan.converging, outcome, 0, st, false);
    RoundKeeps(cfg, initial, conversation, obs, calls, multiset{}, st, s, said);
    var st' := s.(completed := s.completed + [CompletedTurn(cx, p.results, reject)]);
    SameFaith(initial, s, st');
    if p.abortReason.None? && p.finishRequested && !reject {
      var last := FinishSays(cfg, initial, cx.turn, cx.plan.converging, outcome, 0, st');
      RoundKeeps(cfg, initial, conversation, obs, calls, multiset{}, st',
                 FinishFrom(cfg, cx.turn, cx.plan.converging, outcome, 0, st'), last);
    }
  }

  lemma SameFaith(initial: seq<Policy>, a: LoopState, b: LoopState)
    requires Faithful(initial, a) && a.policies == b.policies && a.heard == b.heard
    ensures Faithful(initial, b)
  {
    hide HooksTo, PolicyAfter, OwnAnswer;
  }

  /** The run is out of turns: that is recorded, and the policies are asked. */
  lemma RunOut(cfg: Config, initial: seq<Policy>, conversation: seq<ChatMessage>, obs: seq<Observation>,
               calls: seq<TranscriptEvent>, st: LoopState)
    requires StateAccounted(cfg, initial, conversation, obs, calls, multiset{}, st)
    ensures StateAccounted(cfg, initial, conversation, obs, calls, multiset{ExhaustedEvent(cfg, st)}, Tail(cfg, st))
    ensures ExhaustedEvent(cfg, Tail(cfg, st)) == ExhaustedEvent(cfg, st)
  {
    hide ExhaustedFrom, Sum, Voices, NudgeVoices, Part, Faithful, Spoken, AnswersHeard, Round, FindingsSaid;
    var e := ExhaustedEvent(cfg, st);
    var st1 := Recorded(st, e);
    SameFaith(initial, st, st1);
    PartPush(st.transcript, e, OfModel);
    PartPush(st.transcript, e, OfCall);
    PartPush(st.transcript, e, OfPolicy);
    var said := ExhaustedSays(cfg, initial, 0, st1);
    RoundKeeps(cfg, initial, conversation, obs, calls, multiset{e}, st1, Tail(cfg, st), said);
    GrewParts(cfg, multiset{}, st1, Tail(cfg, st), said);
    ExhaustedSetsNothing(st1.heard, said);
  }

  lemma ExhaustedSetsNothing(a: seq<Said>, b: seq<Said>)
    requires forall s | s in b :: s.Answer? && s.hook.ExhaustedHook?
    ensures FindingsSaid(a + b) == FindingsSaid(a)
  {
    BeforeSetsNothing(a, b);
  }

  /** A call is accounted for: one event, and a message if it continues. */
  lemma OneCall(cfg: Config, initial: seq<Policy>, conversation: seq<ChatMessage>, obs: seq<Observation>, turn: nat,
                before: seq<TranscriptEvent>, call: ToolCall, outcome: ToolOutcome, st: LoopState, p: TurnProgress)
    requires StateAccounted(cfg, initial, conversation, obs, before + ResultEvents(turn, p.results), multiset{}, st)
    ensures var (st', p') := Account(cfg, turn, call, outcome, st, p);
      StateAccounted(cfg, initial, conversation, obs, before + ResultEvents(turn, p'.results), multiset{}, st')
  {
    hide Sum, Part, NudgeVoices, Faithful, Spoken, AnswersHeard, FindingsSaid;
    var (st', p') := Account(cfg, turn, call, outcome, st, p);
    var e := ToolEvent(turn, call, outcome);
    SameFaith(initial, st, st');
    PartPush(st.transcript, e, OfModel);
    PartPush(st.transcript, e, OfCall);
    PartPush(st.transcript, e, OfPolicy);
    if outcome.Continue? {
      VoicesPush(st.messages, ToolMessage(call.id, outcome.content));
    }
    assert ResultEvents(turn, p'.results) == ResultEvents(turn, p.results) + [e];
    assert before + (ResultEvents(turn, p.results) + [e]) == before + ResultEvents(turn, p.results) + [e];
  }

  lemma TurnEventsPush(done: seq<CompletedTurn>, t: CompletedTurn)
    ensures TurnEvents(done + [t]) == TurnEvents(done) + ResultEvents(t.cx.turn, t.results)
  {
    assert (done + [t])[..|done|] == done;
  }

  lemma EndTurnCalls(cfg: Config, cx: TurnContext, p: TurnProgress, st: LoopState)
    ensures var next := EndTurn(cfg, cx, p, st);
      && !InTurn(next.control) && !RanOut(next)
      && TurnEvents(next.st.completed) == TurnEvents(st.completed) + ResultEvents(cx.turn, p.results)
  {
    hide AfterFrom, FinishFrom, ResultEvents;
    LoopSequential.EndTurnCompletes(cfg, cx, p, st);
    var done := EndTurn(cfg, cx, p, st).st.completed;
    assert done == st.completed + [done[|st.completed|]];
    TurnEventsPush(st.completed, done[|st.completed|]);
  }

  // ---------- every run ----------

  ghost predicate AccountedParts(cfg: Config, initial: seq<Policy>, conversation: seq<ChatMessage>,
                                 obs: seq<Observation>, m: Machine)
  {
    StateAccounted(cfg, initial, conversation, obs, CallEvents(m),
                   if RanOut(m) then multiset{ExhaustedEvent(cfg, m.st)} else multiset{}, m.st)
  }

  lemma MoveAccounted(cfg: Config, initial: seq<Policy>, conversation: seq<ChatMessage>, obs: seq<Observation>,
                      m: Machine)
    requires Moving(m) && TurnShape(m) && AccountedParts(cfg, initial, conversation, obs, m)
    ensures AccountedParts(cfg, initial, conversation, obs, Move(cfg, m))
  {
    hide StateAccounted, BeforeFrom, EndTurn, Tail, Account, LocalOutcome, ResultEvents, InOrder, EndsWithTurn;
    match m.control {
      case AtTurn(turn) =>
        LoopSequential.BeforeKeepsCompleted(cfg, turn, 0, m.st, FreshPlan(cfg));
        BeginTurn(cfg, initial, conversation, obs, CallEvents(m), turn, m.st);
      case AtTail =>
        RunOut(cfg, initial, conversation, obs, CallEvents(m), m.st);
        LoopSequential.ExhaustedKeepsCompleted(cfg, 0, Recorded(m.st, ExhaustedEvent(cfg, m.st)));
        TailKeepsCompleted(cfg, m.st);
      case AtCall(cx, p, rest) =>
        if rest == [] {
          CloseTurn(cfg, initial, conversation, obs, CallEvents(m), cx, p, m.st);
          EndTurnCalls(cfg, cx, p, m.st);
          assert TurnEvents(EndTurn(cfg, cx, p, m.st).st.completed) + [] == CallEvents(m);
        } else {
          var o := LocalOutcome(cfg, cx.plan, p, rest[0]);
          if o.Some? {
            OneCall(cfg, initial, conversation, obs, cx.turn, TurnEvents(m.st.completed), rest[0], o.value, m.st, p);
            LoopOutcomes.AccountKeepsCompleted(cfg, cx.turn, rest[0], o.value, m.st, p);
          }
        }
    }
  }

  lemma TailKeepsCompleted(cfg: Config, st: LoopState)
    ensures Tail(cfg, st).completed == st.completed
  {
    hide ExhaustedFrom;
    LoopSequential.ExhaustedKeepsCompleted(cfg, 0, Recorded(st, ExhaustedEvent(cfg, st)));
  }

  /** The model's answer is taken in. */
  lemma TakeIn(cfg: Config, initial: seq<Policy>, conversation: seq<ChatMessage>, obs: seq<Observation>,
               calls: seq<TranscriptEvent>, turn: nat, plan: Plan, a: AssistantTurn, st: LoopState, o: Observation)
    requires StateAccounted(cfg, initial, conversation, obs, calls, multiset{}, st)
    requires o.step == LlmTurn(turn) && o.result == Ok(AssistantValue(a))
    ensures StateAccounted(cfg, initial, conversation, obs + [o], calls, multiset{},
                           OnAssistant(cfg, turn, plan, a, st).st)
  {
    hide Sum, NudgeVoices, Faithful, FindingsSaid, OnAssistant, Part, Voices, Spoken, AnswersHeard;
    TakenIn(cfg, turn, plan, a, st);
    var m, e := AssistantMessage(a), AssistantEvent(turn, AssistantMessage(a), a.telemetry);
    SpokenPush(cfg, obs, o);
    PartPush(st.transcript, e, OfModel);
    PartPush(st.transcript, e, OfCall);
    PartPush(st.transcript, e, OfPolicy);
    VoicesPush(st.messages, m);
    VoicesPush(st.messages + [m], UserMessage(cfg.limits.noToolNudge));
    var st' := OnAssistant(cfg, turn, plan, a, st).st;
    assert st.messages + [m] + [] == st.messages + [m];
    assert Voices(st'.messages) == Voices(st.messages) + SpokenBy(cfg, o);
    SameFaith(initial, st, st');
  }

  lemma TakenIn(cfg: Config, turn: nat, plan: Plan, a: AssistantTurn, st: LoopState)
    ensures var next := OnAssistant(cfg, turn, plan, a, st);
      && next.st.completed == st.completed && next.st.policies == st.policies && next.st.heard == st.heard
      && next.st.nudges == st.nudges && next.st.stats.findingsRecorded == st.stats.findingsRecorded
      && next.st.transcript == st.transcript + [AssistantEvent(turn, AssistantMessage(a), a.telemetry)]
      && next.st.messages == st.messages + [AssistantMessage(a)]
           + (if a.toolCalls == [] then [UserMessage(cfg.limits.noToolNudge)] else [])
      && !RanOut(next)
      && (InTurn(next.control) ==> ProgressOf(next.control).results == [])
    ensures AssistantMessage(a).role != TOOL_ROLE && UserMessage(cfg.limits.noToolNudge).role != TOOL_ROLE
  {
    hide ReadsOfTurn, CountReads;
    assert |"assistant"| != |TOOL_ROLE| && "user"[0] == 'u';
    CountsKeepFindings(cfg, a.toolCalls, st.stats);
    CountsKeepFindings(cfg, a.toolCalls, st.stats.(batches := st.stats.batches + 1));
    assert st.messages + [AssistantMessage(a)] + [] == st.messages + [AssistantMessage(a)];
  }

  lemma {:induction false} CountsKeepFindings(cfg: Config, calls: seq<ToolCall>, stats: LoopStats)
    ensures CountReads(cfg, calls, stats).findingsRecorded == stats.findingsRecorded
    decreases |calls|
  {
    hide KindOf;
    if calls != [] {
      var next := match KindOf(cfg.tools, calls[0].name)
        case Some(ReadOnly(File)) => stats.(filesRead := stats.filesRead + 1)
        case Some(ReadOnly(Retrieval)) => stats.(searches := stats.searches + 1)
        case _ => stats;
      CountsKeepFindings(cfg, calls[1..], next);
    }
  }

  lemma SpokenPush(cfg: Config, obs: seq<Observation>, o: Observation)
    ensures Spoken(cfg, obs + [o]) == Spoken(cfg, obs) + SpokenBy(cfg, o)
    ensures AnswersHeard(obs + [o])
      == if ModelAnswered(o)
         then AnswersHeard(obs) + [AssistantEvent(o.step.turn, AssistantMessage(o.result.value.assistant),
                                                  o.result.value.assistant.telemetry)]
         else AnswersHeard(obs)
  {
    assert (obs + [o])[..|obs|] == obs;
  }

  lemma AnswerAccounted(cfg: Config, initial: seq<Policy>, conversation: seq<ChatMessage>, obs: seq<Observation>,
                        m: Machine, r: StepResult)
    requires m.control.AwaitModel? && Answers(m.control, r) && r.Ok?
    requires AccountedParts(cfg, initial, conversation, obs, m)
    ensures AccountedParts(cfg, initial, conversation, obs + [Observation(m, AskOf(cfg, m).step, r)],
                           Deliver(cfg, m, r))
  {
    hide OnAssistant, ResultEvents, Spoken, AnswersHeard, Sum, Voices, NudgeVoices, Part, Faithful, FindingsSaid;
    var turn, plan := m.control.turn, m.control.plan;
    NoResults(m, Deliver(cfg, m, r));
    TakeIn(cfg, initial, conversation, obs, CallEvents(m), turn, plan, r.value.assistant, m.st,
           Observation(m, AskOf(cfg, m).step, r));
    TakenIn(cfg, turn, plan, r.value.assistant, m.st);
  }

  lemma ErrorAccounted(cfg: Config, initial: seq<Policy>, conversation: seq<ChatMessage>, obs: seq<Observation>,
                       m: Machine, r: StepResult)
    requires m.control.AwaitModel? && r.Err?
    requires AccountedParts(cfg, initial, conversation, obs, m)
    ensures AccountedParts(cfg, initial, conversation, obs + [Observation(m, AskOf(cfg, m).step, r)],
                           Deliver(cfg, m, r))
  {
    hide OnModelError, ResultEvents, Spoken, AnswersHeard, Sum, Voices, NudgeVoices, Part, Faithful, FindingsSaid;
    SpokenPush(cfg, obs, Observation(m, AskOf(cfg, m).step, r));
    NoResults(m, Deliver(cfg, m, r));
    ErrorStarts(cfg, initial, m.control.turn, r.error, m.st);
  }

  lemma DeliverAccounted(cfg: Config, initial: seq<Policy>, conversation: seq<ChatMessage>, obs: seq<Observation>,
                         m: Machine, r: StepResult)
    requires Awaiting(m.control) && Answers(m.control, r) && TurnShape(m) && (m.control.AwaitModel? || r.Ok?)
    requires AccountedParts(cfg, initial, conversation, obs, m)
    ensures AccountedParts(cfg, initial, conversation, obs + [Observation(m, AskOf(cfg, m).step, r)],
                           Deliver(cfg, m, r))
  {
    hide Account, OnAssistant, IsContextOverflow, ByIndex, ResultEvents, Spoken, AnswersHeard, Sum, Voices, NudgeVoices,
         Part, Faithful, FindingsSaid, InOrder, EndsWithTurn;
    if m.control.AwaitModel? {
      if r.Ok? {
        AnswerAccounted(cfg, initial, conversation, obs, m, r);
      } else {
        ErrorAccounted(cfg, initial, conversation, obs, m, r);
      }
    } else {
      SpokenPush(cfg, obs, Observation(m, AskOf(cfg, m).step, r));
      NoResults(m, Deliver(cfg, m, r));
      if m.control.AwaitCall? {
        var turn, p, call := m.control.cx.turn, m.control.progress, m.control.call;
        OneCall(cfg, initial, conversation, obs, turn, TurnEvents(m.st.completed), call, r.value.outcome, m.st, p);
        LoopOutcomes.AccountKeepsCompleted(cfg, turn, call, r.value.outcome, m.st, p);
      }
    }
  }

  /** Outside a turn, and before any of its results, the calls accounted for are those of completed turns. */
  lemma NoResults(m: Machine, next: Machine)
    ensures !InTurn(m.control) || ProgressOf(m.control).results == [] ==> CallEvents(m) == TurnEvents(m.st.completed)
    ensures !InTurn(next.control) || ProgressOf(next.control).results == [] ==>
              CallEvents(next) == TurnEvents(next.st.completed)
  {
  }

  lemma ErrorStarts(cfg: Config, initial: seq<Policy>, turn: nat, error: StepError, st: LoopState)
    ensures var next := OnModelError(cfg, turn, error, st);
      && next.st.completed == st.completed && !RanOut(next) && !InTurn(next.control)
      && next.st.heard == st.heard && next.st.nudges == st.nudges && next.st.messages == st.messages
      && next.st.transcript == st.transcript && next.st.stats == st.stats && next.st.policies == st.policies
    ensures Faithful(initial, st) ==> Faithful(initial, OnModelError(cfg, turn, error, st).st)
  {
    hide IsContextOverflow, HooksTo, PolicyAfter, OwnAnswer;
  }

  lemma StartAccounted(cfg: Config, conversation: seq<ChatMessage>, policies: seq<Policy>)
    ensures AccountedParts(cfg, policies, conversation, [], Machine(AtTurn(0), StartState(conversation, policies)))
  {
  }

  /**
   At every point of every run, over any journal: the policies are what their questions made of them and have answered
   for themselves; the nudges are those their answers call for; the conversation, tool messages apart, is the one given,
   the model's answers, the reminders and the nudges; the transcript holds each answer of the model and each result
   once, in order, and what the policies had recorded; the findings count is the last one a policy set.
   */
  lemma EverythingAccounted(cfg: Config, env: Env, conversation: seq<ChatMessage>, policies: seq<Policy>, host: Host,
                            k: nat)
    ensures var s := Exec(cfg, env, Start(cfg, conversation, policies, host), k);
      Accounted(cfg, policies, conversation, s.observed, s.machine)
  {
    hide Exec, Settle, StateAccounted, Move, Deliver, TurnShape, CallEvents;
    var P: Property := (obs: seq<Observation>, m: Machine) =>
      ToolStepsOk(obs) ==> AccountedParts(cfg, policies, conversation, obs, m);
    forall obs: seq<Observation>, m: Machine | Moving(m) && TurnShape(m) && P(obs, m) ensures P(obs, Move(cfg, m)) {
      if ToolStepsOk(obs) {
        MoveAccounted(cfg, policies, conversation, obs, m);
      }
    }
    forall obs: seq<Observation>, m: Machine, r: StepResult
      | Awaiting(m.control) && Answers(m.control, r) && TurnShape(m) && P(obs, m)
      ensures P(obs + [Observation(m, AskOf(cfg, m).step, r)], Deliver(cfg, m, r))
    {
      var more := obs + [Observation(m, AskOf(cfg, m).step, r)];
      if ToolStepsOk(more) {
        assert forall i | 0 <= i < |obs| :: more[i] == obs[i];
        assert more[|obs|].step.LlmTurn? || more[|obs|].result.Ok?;
        DeliverAccounted(cfg, policies, conversation, obs, m, r);
      }
    }
    StartAccounted(cfg, conversation, policies);
    Always(cfg, env, conversation, policies, host, k, P);
    ExecToolStepsOk(cfg, env, Start(cfg, conversation, policies, host), k);
    Whole(cfg, policies, conversation, Exec(cfg, env, Start(cfg, conversation, policies, host), k));
  }

  lemma Whole(cfg: Config, initial: seq<Policy>, conversation: seq<ChatMessage>, s: System)
    requires AccountedParts(cfg, initial, conversation, s.observed, s.machine)
    ensures Accounted(cfg, initial, conversation, s.observed, s.machine)
  {
    hide Sum, Voices, NudgeVoices, Part, Faithful, Spoken, AnswersHeard, FindingsSaid;
  }
}
