/**
 What a run does to the conversation. History is append-only except for the contents the trimmer elides, and every
 tool message answers a call of the assistant message just before its group.
 */
module LoopConversation {
  import opened Wrappers
  import opened AgentTypes
  import opened ToolSurface
  import opened Budget
  import opened Policies
  import opened StepRuntime
  import opened LoopMachine
  import opened LoopTurn

  // ---------- growth ----------

  /** `after` is `before`, some old tool outputs elided, with messages appended. */
  ghost predicate Extends(before: seq<ChatMessage>, after: seq<ChatMessage>) {
    |before| <= |after| && OnlyStubs(before, after[..|before|])
  }

  lemma ExtendsTrans(a: seq<ChatMessage>, b: seq<ChatMessage>, c: seq<ChatMessage>)
    requires Extends(a, b) && Extends(b, c)
    ensures Extends(a, c)
  {
    hide Eligible;
  }

  /** Only user messages were appended. */
  ghost predicate UserTail(before: seq<ChatMessage>, after: seq<ChatMessage>) {
    && Extends(before, after)
    && forall i | |before| <= i < |after| :: after[i].role == "user"
  }

  lemma UserTailTrans(a: seq<ChatMessage>, b: seq<ChatMessage>, c: seq<ChatMessage>)
    requires UserTail(a, b) && UserTail(b, c)
    ensures UserTail(a, c)
  {
    hide Eligible;
  }

  lemma UserTailRefl(ms: seq<ChatMessage>)
    ensures UserTail(ms, ms)
  {
    hide Eligible;
  }

  lemma UserTailPush(ms: seq<ChatMessage>, text: string)
    ensures UserTail(ms, ms + [UserMessage(text)])
  {
    hide Eligible;
  }

  lemma ApplyBeforeMessages(cfg: Config, turn: nat, name: string, action: PolicyAction, st: LoopState, plan: Plan)
    ensures UserTail(st.messages, ApplyBefore(cfg, turn, name, action, st, plan).0.messages)
  {
    hide Eligible, UserTail, Trimming, EstimateTokens;
    UserTailRefl(st.messages);
    match action
    case Inject(nudge) => UserTailPush(st.messages, cfg.wording(nudge));
    case Converge(_, nudge) => UserTailPush(st.messages, cfg.wording(nudge));
    case TrimHistory(target, c) =>
      var trimmed := Trimming(st.messages, BaseSpecs(cfg), target).messages;
      TrimmingUserTail(st.messages, BaseSpecs(cfg), target);
      if c.Some? && c.value.nudge.Some? {
        UserTailPush(trimmed, cfg.wording(c.value.nudge.value));
        UserTailTrans(st.messages, trimmed, trimmed + [UserMessage(cfg.wording(c.value.nudge.value))]);
      }
    case _ =>
  }

  lemma TrimmingUserTail(ms: seq<ChatMessage>, tools: seq<ToolSpec>, target: nat)
    ensures UserTail(ms, Trimming(ms, tools, target).messages)
  {
    hide Eligible, EstimateTokens;
    var _ := TrimmingMeaning(ms, tools, target);
    var after := Trimming(ms, tools, target).messages;
    assert after[..|ms|] == after;
  }

  lemma {:induction false} ApplyAllBeforeMessages(cfg: Config, turn: nat, name: string, actions: seq<PolicyAction>,
                                                  st: LoopState, plan: Plan)
    ensures UserTail(st.messages, ApplyAllBefore(cfg, turn, name, actions, st, plan).0.messages)
    decreases |actions|
  {
    hide UserTail, ApplyBefore;
    if actions == [] {
      UserTailRefl(st.messages);
    } else {
      var (st', plan') := ApplyBefore(cfg, turn, name, actions[0], st, plan);
      ApplyBeforeMessages(cfg, turn, name, actions[0], st, plan);
      ApplyAllBeforeMessages(cfg, turn, name, actions[1..], st', plan');
      UserTailTrans(st.messages, st'.messages, ApplyAllBefore(cfg, turn, name, actions, st, plan).0.messages);
    }
  }

  lemma {:induction false} BeforeMessages(cfg: Config, turn: nat, i: nat, st: LoopState, plan: Plan)
    requires i <= |st.policies|
    ensures UserTail(st.messages, BeforeFrom(cfg, turn, i, st, plan).0.messages)
    decreases |st.policies| - i
  {
    hide UserTail, ApplyAllBefore, Respond;
    if i == |st.policies| {
      UserTailRefl(st.messages);
    } else {
      var (st', plan') := BeforePolicy(cfg, turn, i, st, plan);
      BeforePolicyKeeps(cfg, turn, i, st, plan);
      var hook := BeforeHook(StateFor(cfg, turn, st, plan.converging));
      var (p, actions) := Respond(st.policies[i], hook);
      ApplyAllBeforeMessages(cfg, turn, p.Name(), actions, Told(st, i, p, hook, actions), plan);
      BeforeMessages(cfg, turn, i + 1, st', plan');
      UserTailTrans(st.messages, st'.messages, BeforeFrom(cfg, turn, i, st, plan).0.messages);
    }
  }

  lemma {:induction false} ApplyAllAfterMessages(cfg: Config, turn: nat, name: string, actions: seq<PolicyAction>,
                                                 st: LoopState, reject: bool)
    ensures UserTail(st.messages, ApplyAllAfter(cfg, turn, name, actions, st, reject).0.messages)
    decreases |actions|
  {
    hide UserTail;
    UserTailRefl(st.messages);
    if actions != [] {
      var (st', reject') := ApplyAfter(cfg, turn, name, actions[0], st, reject);
      match actions[0] {
        case Inject(nudge) => UserTailPush(st.messages, cfg.wording(nudge));
        case RejectFinish(nudge) => UserTailPush(st.messages, cfg.wording(nudge));
        case _ =>
      }
      ApplyAllAfterMessages(cfg, turn, name, actions[1..], st', reject');
      UserTailTrans(st.messages, st'.messages, ApplyAllAfter(cfg, turn, name, actions, st, reject).0.messages);
    }
  }

  lemma {:induction false} AfterMessages(cfg: Config, turn: nat, converging: bool, outcome: TurnOutcome, i: nat,
                                         st: LoopState, reject: bool)
    requires i <= |st.policies|
    ensures UserTail(st.messages, AfterFrom(cfg, turn, converging, outcome, i, st, reject).0.messages)
    decreases |st.policies| - i
  {
    hide UserTail, ApplyAllAfter, Respond;
    if i == |st.policies| {
      UserTailRefl(st.messages);
    } else {
      var hook := AfterHook(StateFor(cfg, turn, st, converging), outcome);
      var (p, actions) := Respond(st.policies[i], hook);
      var s := Told(st, i, p, hook, actions);
      ApplyAllAfterMessages(cfg, turn, p.Name(), actions, s, reject);
      var (st', reject') := ApplyAllAfter(cfg, turn, p.Name(), actions, s, reject);
      AfterMessages(cfg, turn, converging, outcome, i + 1, st', reject');
      UserTailTrans(st.messages, st'.messages,
                    AfterFrom(cfg, turn, converging, outcome, i, st, reject).0.messages);
    }
  }

  // ---------- pairing ----------

  /** Position of the first call with that id. */
  function FirstWithId(calls: seq<ToolCall>, id: string): (at: Option<nat>)
    ensures at.Some? ==> at.value < |calls| && calls[at.value].id == id
    ensures at.Some? ==> forall i | 0 <= i < at.value :: calls[i].id != id
    ensures at.None? ==> forall i | 0 <= i < |calls| :: calls[i].id != id
  {
    if calls == [] then None
    else if calls[0].id == id then Some(0)
    else match FirstWithId(calls[1..], id) case Some(i) => Some(i + 1) case None => None
  }

  /**
   Read a conversation left to right, keeping the calls that may still be answered. `None` is a conversation a chat
   API would reject: a tool message that answers no pending call, or answers out of call order, or does not follow its
   assistant message directly.
   */
  function ScanOne(pending: Option<seq<ToolCall>>, m: ChatMessage): Option<seq<ToolCall>> {
    if pending.None? then None
    else if m.role == TOOL_ROLE then
      if m.toolCallId.None? then None
      else match FirstWithId(pending.value, m.toolCallId.value)
        case Some(i) => Some(pending.value[i + 1..])
        case None => None
    else if m.role == "assistant" then Some(m.toolCalls)
    else Some([])
  }

  function Scan(pending: Option<seq<ToolCall>>, ms: seq<ChatMessage>): Option<seq<ToolCall>>
    decreases |ms|
  {
    if ms == [] then pending else Scan(ScanOne(pending, ms[0]), ms[1..])
  }

  lemma {:induction false} ScanConcat(pending: Option<seq<ToolCall>>, a: seq<ChatMessage>, b: seq<ChatMessage>)
    ensures Scan(pending, a + b) == Scan(Scan(pending, a), b)
    ensures Scan(pending, a).None? ==> Scan(pending, a + b).None?
    decreases |a|
  {
    if a == [] {
      assert a + b == b;
      ScanNone(b);
    } else {
      assert (a + b)[1..] == a[1..] + b;
      ScanConcat(ScanOne(pending, a[0]), a[1..], b);
    }
  }

  lemma {:induction false} ScanNone(ms: seq<ChatMessage>)
    ensures Scan(None, ms).None?
  {
    if ms != [] {
      ScanNone(ms[1..]);
    }
  }

  lemma {:induction false} ScanUsers(pending: Option<seq<ToolCall>>, ms: seq<ChatMessage>)
    requires pending.Some? && forall m | m in ms :: m.role == "user"
    ensures Scan(pending, ms).Some?
    decreases |ms|
  {
    if ms != [] {
      ScanUsers(ScanOne(pending, ms[0]), ms[1..]);
    }
  }

  /** Eliding contents does not change how a conversation reads. */
  lemma {:induction false} ScanStubs(pending: Option<seq<ToolCall>>, a: seq<ChatMessage>, b: seq<ChatMessage>)
    requires OnlyStubs(a, b)
    ensures Scan(pending, a) == Scan(pending, b)
    decreases |a|
  {
    hide Eligible;
    if a != [] {
      assert b[0] == a[0] || b[0] == Stubbed(a[0]);
      assert ScanOne(pending, a[0]) == ScanOne(pending, b[0]);
      assert OnlyStubs(a[1..], b[1..]) by {
        assert forall i | 0 <= i < |a| - 1 :: a[1..][i] == a[i + 1] && b[1..][i] == b[i + 1];
      }
      ScanStubs(ScanOne(pending, a[0]), a[1..], b[1..]);
    }
  }

  /** The messages appended since the conversation had `n0` of them read as a legal continuation. */
  ghost predicate Legal(n0: nat, ms: seq<ChatMessage>) {
    n0 <= |ms| && Scan(Some([]), ms[n0..]).Some?
  }

  lemma UserTailLegal(n0: nat, before: seq<ChatMessage>, after: seq<ChatMessage>)
    requires Legal(n0, before) && UserTail(before, after)
    ensures Legal(n0, after)
  {
    hide Eligible;
    var kept, added := after[n0..|before|], after[|before|..];
    assert after[n0..] == kept + added;
    assert OnlyStubs(before[n0..], kept) by {
      assert forall i | n0 <= i < |before| :: kept[i - n0] == after[..|before|][i] && before[n0..][i - n0] == before[i];
    }
    ScanStubs(Some([]), before[n0..], kept);
    ScanConcat(Some([]), kept, added);
    ScanUsers(Scan(Some([]), kept), added);
  }

  /** `left` still holds all of `rest` at its end. */
  ghost predicate Keeps(left: Option<seq<ToolCall>>, rest: seq<ToolCall>) {
    left.Some? && |rest| <= |left.value| && left.value[|left.value| - |rest|..] == rest
  }

  lemma KeepsAfterAnswer(left: seq<ToolCall>, rest: seq<ToolCall>, content: string)
    requires rest != [] && Keeps(Some(left), rest)
    ensures Keeps(ScanOne(Some(left), ToolMessage(rest[0].id, content)), rest[1..])
    ensures Keeps(Some(left), rest[1..])
  {
  }

  /** The answers to a turn's calls read as answers to them: skipping a call never loses a later one. */
  lemma {:induction false} ScanAnswers(calls: seq<ToolCall>, results: seq<ToolCallResult>)
    requires |results| <= |calls|
    requires forall i | 0 <= i < |results| :: results[i].call == calls[i]
    ensures Keeps(Scan(Some(calls), AnswersOf(results)), calls[|results|..])
    decreases |results|
  {
    if results != [] {
      var n := |results| - 1;
      var last := results[n];
      ScanAnswers(calls, results[..n]);
      assert results == results[..n] + [last];
      ResultsPush(results[..n], last);
      var left := Scan(Some(calls), AnswersOf(results[..n])).value;
      KeepsAfterAnswer(left, calls[n..], if last.outcome.Continue? then last.outcome.content else "");
      assert calls[n..][1..] == calls[n + 1..];
      if last.outcome.Continue? {
        var m := ToolMessage(last.call.id, last.outcome.content);
        ScanConcat(Some(calls), AnswersOf(results[..n]), [m]);
        ScanSingle(Some(left), m);
        assert AnswersOf(results) == AnswersOf(results[..n]) + [m];
      } else {
        assert AnswersOf(results) == AnswersOf(results[..n]);
      }
    }
  }

  lemma ScanSingle(pending: Option<seq<ToolCall>>, m: ChatMessage)
    ensures Scan(pending, [m]) == ScanOne(pending, m)
  {
    assert [m][1..] == [];
  }

  /** The conversation is legal, and the turn in progress began in its appended part. */
  ghost predicate Paired(n0: nat, m: Machine) {
    && Legal(n0, m.st.messages)
    && (InTurn(m.control) ==> n0 + |AnswersOf(ProgressOf(m.control).results)| < |m.st.messages|)
  }

  lemma AccountLegal(n0: nat, messages: seq<ChatMessage>, assistant: ChatMessage, results: seq<ToolCallResult>,
                     r: ToolCallResult)
    requires Legal(n0, messages)
    requires EndsWithTurn(messages, assistant, results) && n0 + |AnswersOf(results)| < |messages|
    requires assistant.role == "assistant" && |results| < |assistant.toolCalls|
    requires forall i | 0 <= i <= |results| :: (results + [r])[i].call == assistant.toolCalls[i]
    ensures Legal(n0, messages + AnswersOf([r]))
  {
    hide AnswersOf;
    var grown := messages + AnswersOf([r]);
    EndsWithTurnPush(messages, assistant, results, r);
    var at := |messages| - |AnswersOf(results)| - 1;
    ResultsPush(results, r);
    ResultsPush([], r);
    assert [] + [r] == [r];
    var before, answers := messages[n0..at], AnswersOf(results + [r]);
    assert answers == AnswersOf(results) + AnswersOf([r]) by {
      AnswersOfNothing();
    }
    assert grown[n0..] == before + ([assistant] + answers);
    assert messages[n0..] == before + messages[at..];
    ScanConcat(Some([]), before, messages[at..]);
    ScanConcat(Some([]), before, [assistant] + answers);
    assert ([assistant] + answers)[1..] == answers;
    ScanAnswers(assistant.toolCalls, results + [r]);
  }

  lemma AnswersOfNothing()
    ensures AnswersOf([]) == []
  {
  }

  // ---------- every step of a run ----------

  lemma ExtendsPush(before: seq<ChatMessage>, added: seq<ChatMessage>)
    ensures Extends(before, before + added)
  {
    hide Eligible;
  }

  lemma ExtendsRefl(ms: seq<ChatMessage>)
    ensures Extends(ms, ms)
  {
  }

  lemma EndTurnMessages(cfg: Config, cx: TurnContext, p: TurnProgress, st: LoopState)
    ensures UserTail(st.messages, EndTurn(cfg, cx, p, st).st.messages)
    ensures !InTurn(EndTurn(cfg, cx, p, st).control)
  {
    hide UserTail, AfterFrom, FinishFrom;
    var outcome := TurnOutcome(cx.assistant, p.results, p.finishRequested, p.abortReason);
    AfterMessages(cfg, cx.turn, cx.plan.converging, outcome, 0, st, false);
    var (s, reject) := AfterFrom(cfg, cx.turn, cx.plan.converging, outcome, 0, st, false);
    FinishKeepsMessages(cfg, cx.turn, cx.plan.converging, outcome, 0,
                        s.(completed := s.completed + [CompletedTurn(cx, p.results, reject)]));
  }

  lemma {:induction false} FinishKeepsMessages(cfg: Config, turn: nat, converging: bool, outcome: TurnOutcome, i: nat,
                                               st: LoopState)
    requires i <= |st.policies|
    ensures FinishFrom(cfg, turn, converging, outcome, i, st).messages == st.messages
    decreases |st.policies| - i
  {
    hide Respond;
    if i < |st.policies| {
      var hook := FinishHook(StateFor(cfg, turn, st, converging), outcome);
      var (p, actions) := Respond(st.policies[i], hook);
      FinishKeepsMessages(cfg, turn, converging, outcome, i + 1,
                          ApplyRecords(turn, p.Name(), actions, Told(st, i, p, hook, actions)));
    }
  }

  lemma {:induction false} ExhaustedKeepsMessages(cfg: Config, i: nat, st: LoopState)
    requires i <= |st.policies|
    ensures ExhaustedFrom(cfg, i, st).messages == st.messages
    decreases |st.policies| - i
  {
    hide Respond;
    if i < |st.policies| {
      var turn := cfg.limits.maxTurns;
      var hook := ExhaustedHook(StateFor(cfg, turn, st, true));
      var (p, actions) := Respond(st.policies[i], hook);
      ExhaustedKeepsMessages(cfg, i + 1, ApplyRecords(turn, p.Name(), actions, Told(st, i, p, hook, actions)));
    }
  }

  /** The conversation after one piece of a run, in terms of the conversation before it. */
  ghost predicate Continues(n0: nat, m: Machine, next: Machine) {
    Extends(m.st.messages, next.st.messages) && (Paired(n0, m) ==> Paired(n0, next))
  }

  lemma AccountContinues(n0: nat, cfg: Config, cx: TurnContext, p: TurnProgress, call: ToolCall, rest: seq<ToolCall>,
                         outcome: ToolOutcome, st: LoopState)
    requires cx.assistant.role == "assistant"
    requires InOrder(cx.assistant.toolCalls, p, [call] + rest)
    requires EndsWithTurn(st.messages, cx.assistant, p.results)
    ensures var (st', p') := Account(cfg, cx.turn, call, outcome, st, p);
      && Extends(st.messages, st'.messages)
      && (Legal(n0, st.messages) && n0 + |AnswersOf(p.results)| < |st.messages| ==>
            Legal(n0, st'.messages) && n0 + |AnswersOf(p'.results)| < |st'.messages|)
  {
    hide Account, AnyFinish, LastAbort, EndsWithTurn, Extends, Legal;
    var r := ToolCallResult(call, KindOf(cfg.tools, call.name), outcome);
    AccountFields(cfg, cx.turn, call, outcome, st, p);
    ResultsPush(p.results, r);
    ResultsPush([], r);
    assert [] + [r] == [r];
    ExtendsPush(st.messages, AnswersOf([r]));
    if Legal(n0, st.messages) && n0 + |AnswersOf(p.results)| < |st.messages| {
      assert ([call] + rest)[0] == cx.assistant.toolCalls[p.index..][0];
      AccountLegal(n0, st.messages, cx.assistant, p.results, r);
    }
  }

  lemma MoveContinues(n0: nat, cfg: Config, m: Machine)
    requires !Awaiting(m.control) && !m.control.Halted? && TurnShape(m)
    ensures Continues(n0, m, Move(cfg, m))
  {
    hide BeforeFrom, ExhaustedFrom, EndTurn, Account, LocalOutcome, InOrder, EndsWithTurn, Legal, Extends;
    ExtendsRefl(m.st.messages);
    match m.control {
      case AtTurn(turn) =>
        BeforeMessages(cfg, turn, 0, m.st, FreshPlan(cfg));
        if Legal(n0, m.st.messages) {
          UserTailLegal(n0, m.st.messages, BeforeFrom(cfg, turn, 0, m.st, FreshPlan(cfg)).0.messages);
        }
      case AtTail =>
        ExhaustedKeepsMessages(cfg, 0, Recorded(m.st, PolicyEvent(cfg.limits.maxTurns, "exhausted",
          ExhaustedDetail(m.st.contextOverflow, m.st.stats.findingsRecorded))));
      case AtCall(cx, p, rest) =>
        if rest == [] {
          EndTurnMessages(cfg, cx, p, m.st);
          if Legal(n0, m.st.messages) {
            UserTailLegal(n0, m.st.messages, EndTurn(cfg, cx, p, m.st).st.messages);
          }
        } else {
          assert rest == [rest[0]] + rest[1..];
          var o := LocalOutcome(cfg, cx.plan, p, rest[0]);
          if o.Some? {
            AccountContinues(n0, cfg, cx, p, rest[0], rest[1..], o.value, m.st);
          }
        }
    }
  }

  lemma {:induction false} SettleContinues(n0: nat, cfg: Config, m: Machine)
    requires TurnShape(m)
    ensures Continues(n0, m, Settle(cfg, m))
    decreases Rank(m.control), RestLen(m.control)
  {
    hide Move, TurnShape, Paired, Extends;
    if Awaiting(m.control) || m.control.Halted? {
      ExtendsRefl(m.st.messages);
    } else {
      var next := Move(cfg, m);
      MoveContinues(n0, cfg, m);
      MoveShape(cfg, m);
      SettleContinues(n0, cfg, next);
      ExtendsTrans(m.st.messages, next.st.messages, Settle(cfg, m).st.messages);
    }
  }

  lemma DeliverContinues(n0: nat, cfg: Config, m: Machine, r: StepResult)
    requires Awaiting(m.control) && Answers(m.control, r) && TurnShape(m)
    ensures Continues(n0, m, Deliver(cfg, m, r))
  {
    hide Account, IsContextOverflow, ReadsOfTurn, CountReads, ByIndex, InOrder, EndsWithTurn, Legal, Extends;
    ExtendsRefl(m.st.messages);
    AnswersOfNothing();
    match m.control {
      case AwaitModel(turn, plan) =>
        if r.Ok? {
          var message := AssistantMessage(r.value.assistant);
          ExtendsPush(m.st.messages, [message]);
          ExtendsPush(m.st.messages, [message, UserMessage(cfg.limits.noToolNudge)]);
          assert m.st.messages + [message] + [UserMessage(cfg.limits.noToolNudge)]
              == m.st.messages + [message, UserMessage(cfg.limits.noToolNudge)];
          if Legal(n0, m.st.messages) {
            AssistantLegal(n0, m.st.messages, message);
            UserTailPush(m.st.messages + [message], cfg.limits.noToolNudge);
            UserTailLegal(n0, m.st.messages + [message],
                          m.st.messages + [message] + [UserMessage(cfg.limits.noToolNudge)]);
          }
        }
      case AwaitCall(cx, p, call, rest) =>
        if r.Ok? {
          AccountContinues(n0, cfg, cx, p, call, rest, r.value.outcome, m.st);
        }
      case AwaitReads(_) =>
    }
  }

  lemma AssistantLegal(n0: nat, ms: seq<ChatMessage>, message: ChatMessage)
    requires Legal(n0, ms) && message.role == "assistant"
    ensures Legal(n0, ms + [message])
    ensures n0 < |ms + [message]|
  {
    assert (ms + [message])[n0..] == ms[n0..] + [message];
    ScanConcat(Some([]), ms[n0..], [message]);
    ScanSingle(Scan(Some([]), ms[n0..]), message);
  }

  lemma ProceedContinues(n0: nat, cfg: Config, m: Machine, r: StepResult)
    requires Awaiting(m.control) && Answers(m.control, r) && TurnShape(m)
    ensures Continues(n0, m, Proceed(cfg, m, r))
  {
    hide Deliver, Settle, TurnShape, Paired, Extends;
    DeliverContinues(n0, cfg, m, r);
    ProceedShape(cfg, m, r);
    SettleContinues(n0, cfg, Deliver(cfg, m, r));
    ExtendsTrans(m.st.messages, Deliver(cfg, m, r).st.messages, Proceed(cfg, m, r).st.messages);
  }

  lemma TickContinues(n0: nat, cfg: Config, env: Env, s: System)
    requires TurnShape(s.machine)
    ensures Continues(n0, s.machine, Tick(cfg, env, s).machine)
  {
    hide Step, StepNames.Name, Proceed, TurnShape, AskOf, Paired, Extends;
    ExtendsRefl(s.machine.st.messages);
    if Live(s) {
      var ask := AskOf(cfg, s.machine);
      var ret := Step(cfg.refuse, env, s.host, StepNames.Name(ask.step), ask.effect).0;
      if ret.Returned? {
        LoopTurn.StepAnswers(cfg, env, s);
        ProceedContinues(n0, cfg, s.machine, ret.result);
      }
    }
  }

  lemma {:induction false} ExecExtends(cfg: Config, env: Env, messages: seq<ChatMessage>, policies: seq<Policy>,
                                       host: Host, j: nat, k: nat)
    ensures var s := Start(cfg, messages, policies, host);
      Extends(Exec(cfg, env, s, j).machine.st.messages, Exec(cfg, env, s, j + k).machine.st.messages)
    decreases k
  {
    hide Exec, Tick, Settle, Extends, TurnShape;
    var s := Start(cfg, messages, policies, host);
    if k == 0 {
      ExtendsRefl(Exec(cfg, env, s, j).machine.st.messages);
    } else {
      ExecExtends(cfg, env, messages, policies, host, j, k - 1);
      ExecUnfolds(cfg, env, s, j + k - 1);
      ExecShape(cfg, env, messages, policies, host, j + k - 1);
      TickContinues(0, cfg, env, Exec(cfg, env, s, j + k - 1));
      ExtendsTrans(Exec(cfg, env, s, j).machine.st.messages, Exec(cfg, env, s, j + k - 1).machine.st.messages,
                   Exec(cfg, env, s, j + k).machine.st.messages);
    }
  }

  /**
   Over every run, whatever the model, the tools, the journal and the crashes do: between any two points of it the
   conversation only grows, apart from elided contents; and everything appended to the initial conversation pairs
   every tool message with a call of the assistant message it follows, in call order.
   */
  lemma ConversationHolds(cfg: Config, env: Env, messages: seq<ChatMessage>, policies: seq<Policy>, host: Host,
                          j: nat, k: nat)
    ensures var s := Start(cfg, messages, policies, host);
      && Extends(messages, Exec(cfg, env, s, j).machine.st.messages)
      && Extends(Exec(cfg, env, s, j).machine.st.messages, Exec(cfg, env, s, j + k).machine.st.messages)
      && Legal(|messages|, Exec(cfg, env, s, j + k).machine.st.messages)
  {
    hide Exec, Tick, Settle, Extends, TurnShape, Legal;
    var s := Start(cfg, messages, policies, host);
    StartPaired(cfg, messages, policies);
    ExecPaired(cfg, env, messages, policies, host, j + k);
    ExecExtends(cfg, env, messages, policies, host, 0, j);
    ExecExtends(cfg, env, messages, policies, host, j, k);
    ExecUnfolds(cfg, env, s, 0);
    ExtendsTrans(messages, s.machine.st.messages, Exec(cfg, env, s, j).machine.st.messages);
  }

  lemma StartPaired(cfg: Config, messages: seq<ChatMessage>, policies: seq<Policy>)
    ensures var m := Settle(cfg, Machine(AtTurn(0), StartState(messages, policies)));
      Paired(|messages|, m) && Extends(messages, m.st.messages)
  {
    hide Settle, Extends;
    var m := Machine(AtTurn(0), StartState(messages, policies));
    assert messages[|messages|..] == [];
    SettleContinues(|messages|, cfg, m);
  }

  lemma {:induction false} ExecPaired(cfg: Config, env: Env, messages: seq<ChatMessage>, policies: seq<Policy>,
                                      host: Host, k: nat)
    ensures Paired(|messages|, Exec(cfg, env, Start(cfg, messages, policies, host), k).machine)
  {
    hide Exec, Tick, Settle, Extends, TurnShape, Paired;
    var s := Start(cfg, messages, policies, host);
    ExecUnfolds(cfg, env, s, if k == 0 then 0 else k - 1);
    if k == 0 {
      StartPaired(cfg, messages, policies);
    } else {
      ExecPaired(cfg, env, messages, policies, host, k - 1);
      ExecShape(cfg, env, messages, policies, host, k - 1);
      TickContinues(|messages|, cfg, env, Exec(cfg, env, s, k - 1));
    }
  }
}
