/**
 Whose word decides. In every run the turns follow one another without a gap; each is planned as the policies, asked
 once each before it, wished; a finish stands unless one of them, asked once each after it, rejects it; and the run
 ends without a verdict only for want of turns, on a policy's order, or because the model's context overflowed.
 */
module LoopVerdicts {
  import opened Wrappers
  import opened AgentTypes
  import opened StepNames
  import opened Policies
  import opened StepRuntime
  import opened LoopMachine
  import opened LoopTurn
  import opened LoopInduction
  import opened LoopSaid
  import opened LoopRounds
  import opened LoopAccounts
  import LoopSequential
  import LoopOutcomes
  import LoopOrder

  // ---------- the log, turn by turn ----------

  function MomentOfSaid(s: Said): Moment {
    if s.Answer? then MomentOf(s.hook) else BeforeTurn
  }

  function TurnOfSaid(s: Said): nat {
    if s.Answer? then s.hook.state.turn else s.turn
  }

  predicate At(s: Said, moment: Moment, turn: nat) {
    MomentOfSaid(s) == moment && TurnOfSaid(s) == turn
  }

  /** What was said at one moment of one turn. */
  function Pick(said: seq<Said>, moment: Moment, turn: nat): (r: seq<Said>)
    ensures forall s :: s in r <==> s in said && At(s, moment, turn)
  {
    if said == [] then []
    else
      var last := said[|said| - 1];
      Pick(said[..|said| - 1], moment, turn) + if At(last, moment, turn) then [last] else []
  }

  lemma {:induction false} PickConcat(a: seq<Said>, b: seq<Said>, moment: Moment, turn: nat)
    ensures Pick(a + b, moment, turn) == Pick(a, moment, turn) + Pick(b, moment, turn)
    decreases |b|
  {
    hide At;
    if b == [] {
      assert a + b == a;
    } else {
      assert (a + b)[..|a + b| - 1] == a + b[..|b| - 1];
      PickConcat(a, b[..|b| - 1], moment, turn);
    }
  }

  lemma {:induction false} PickAll(said: seq<Said>, moment: Moment, turn: nat)
    requires forall s | s in said :: At(s, moment, turn)
    ensures Pick(said, moment, turn) == said
  {
    hide At;
    if said != [] {
      var front, last := said[..|said| - 1], said[|said| - 1];
      assert said == front + [last];
      PickAll(front, moment, turn);
    }
  }

  lemma {:induction false} PickNone(said: seq<Said>, moment: Moment, turn: nat)
    requires forall s | s in said :: !At(s, moment, turn)
    ensures Pick(said, moment, turn) == []
  {
    hide At;
    if said != [] {
      PickNone(said[..|said| - 1], moment, turn);
    }
  }

  /** What is said in one round goes to that round's moment and turn. */
  lemma PickGrows(heard: seq<Said>, said: seq<Said>, moment: Moment, turn: nat, other: Moment, t: nat)
    requires forall s | s in said :: At(s, moment, turn)
    ensures Pick(heard + said, other, t)
      == if other == moment && t == turn then Pick(heard, other, t) + said else Pick(heard, other, t)
  {
    hide Pick;
    PickConcat(heard, said, other, t);
    if other == moment && t == turn {
      PickAll(said, moment, turn);
    } else {
      PickNone(said, other, t);
      assert Pick(heard, other, t) + [] == Pick(heard, other, t);
    }
  }

  // ---------- turns ----------

  /** How often the model was asked. */
  function Asks(obs: seq<Observation>): nat {
    if obs == [] then 0 else Asks(obs[..|obs| - 1]) + if obs[|obs| - 1].step.LlmTurn? then 1 else 0
  }

  /** The model is asked for turn 0, then turn 1, and so on. */
  predicate AskedInOrder(obs: seq<Observation>) {
    forall i | 0 <= i < |obs| && obs[i].step.LlmTurn? :: obs[i].step.turn == Asks(obs[..i])
  }

  lemma AsksPush(obs: seq<Observation>, o: Observation)
    requires AskedInOrder(obs) && (o.step.LlmTurn? ==> o.step.turn == Asks(obs))
    ensures AskedInOrder(obs + [o])
    ensures Asks(obs + [o]) == Asks(obs) + if o.step.LlmTurn? then 1 else 0
  {
    var more := obs + [o];
    assert more[..|obs|] == obs;
    forall i | 0 <= i < |more| && more[i].step.LlmTurn? ensures more[i].step.turn == Asks(more[..i]) {
      if i < |obs| {
        assert more[..i] == obs[..i];
      }
    }
  }

  predicate FailedWith(obs: seq<Observation>, e: StepError) {
    obs != [] && obs[|obs| - 1].step.LlmTurn? && obs[|obs| - 1].result == Err(e)
  }

  /** The model's last failure was that its context overflowed. */
  predicate Overflowed(obs: seq<Observation>) {
    && obs != [] && obs[|obs| - 1].step.LlmTurn? && obs[|obs| - 1].result.Err?
    && !obs[|obs| - 1].result.error.Transient? && IsContextOverflow(obs[|obs| - 1].result.error)
  }

  /** Some policy, asked before a turn, ordered the run to end. */
  predicate Ordered(heard: seq<Said>) {
    exists s | s in heard :: s.Answer? && s.hook.BeforeHook? && ForceFinish in s.actions
  }

  /** Where the run is, how many turns it has begun, and which it has completed. */
  ghost predicate TurnsKept(cfg: Config, obs: seq<Observation>, m: Machine) {
    var n := Asks(obs);
    && AskedInOrder(obs)
    && n <= cfg.limits.maxTurns
    && (m.control.AtTurn? ==> n == m.control.turn)
    && (m.control.AwaitModel? ==> n == m.control.turn < cfg.limits.maxTurns)
    && (InTurn(m.control) ==> n == ContextOf(m.control).turn + 1)
    && (forall i, j | 0 <= i < j < |m.st.completed| :: m.st.completed[i].cx.turn < m.st.completed[j].cx.turn)
    && (forall i | 0 <= i < |m.st.completed| :: m.st.completed[i].cx.turn < n)
    && (InTurn(m.control) ==> forall i | 0 <= i < |m.st.completed| :: m.st.completed[i].cx.turn < n - 1)
  }

  lemma MoveTurns(cfg: Config, obs: seq<Observation>, m: Machine)
    requires Moving(m) && TurnShape(m) && TurnsKept(cfg, obs, m)
    ensures TurnsKept(cfg, obs, Move(cfg, m))
  {
    hide BeforeFrom, EndTurn, Tail, Account, LocalOutcome, InOrder, EndsWithTurn, Asks, AskedInOrder;
    match m.control {
      case AtTurn(turn) => LoopSequential.BeforeKeepsCompleted(cfg, turn, 0, m.st, FreshPlan(cfg));
      case AtTail => TailKeepsCompleted(cfg, m.st);
      case AtCall(cx, p, rest) =>
        if rest == [] {
          LoopSequential.EndTurnCompletes(cfg, cx, p, m.st);
          var done := EndTurn(cfg, cx, p, m.st).st.completed;
          assert forall i | 0 <= i < |m.st.completed| :: done[i] == done[..|m.st.completed|][i];
        } else {
          var o := LocalOutcome(cfg, cx.plan, p, rest[0]);
          if o.Some? {
            LoopOutcomes.AccountKeepsCompleted(cfg, cx.turn, rest[0], o.value, m.st, p);
          }
        }
    }
  }

  lemma DeliverTurns(cfg: Config, obs: seq<Observation>, m: Machine, r: StepResult)
    requires Awaiting(m.control) && Answers(m.control, r) && TurnsKept(cfg, obs, m)
    ensures TurnsKept(cfg, obs + [Observation(m, AskOf(cfg, m).step, r)], Deliver(cfg, m, r))
  {
    hide Account, OnAssistant, IsContextOverflow, ByIndex, Asks, AskedInOrder;
    AsksPush(obs, Observation(m, AskOf(cfg, m).step, r));
    match m.control {
      case AwaitModel(turn, plan) =>
        if r.Ok? {
          TakenIn(cfg, turn, plan, r.value.assistant, m.st);
          AnswerStaysInTurn(cfg, turn, plan, r.value.assistant, m.st);
        }
      case AwaitReads(cx) =>
      case AwaitCall(cx, p, call, rest) =>
        if r.Ok? {
          LoopOutcomes.AccountKeepsCompleted(cfg, cx.turn, call, r.value.outcome, m.st, p);
        }
    }
  }

  lemma AnswerStaysInTurn(cfg: Config, turn: nat, plan: Plan, a: AssistantTurn, st: LoopState)
    ensures var c := OnAssistant(cfg, turn, plan, a, st).control;
      if a.toolCalls == [] then c == AtTurn(turn + 1)
      else InTurn(c) && ContextOf(c) == TurnContext(turn, plan, AssistantMessage(a))
  {
    hide ReadsOfTurn, CountReads;
  }

  // ---------- what a turn owes to the policies ----------

  /** Before that turn every policy was asked once, in order, and the plan is what they wished, no more and no less. */
  ghost predicate PlannedBy(cfg: Config, n: nat, heard: seq<Said>, turn: nat, plan: Plan) {
    var said := Pick(heard, BeforeTurn, turn);
    && Round(cfg, said, BeforeTurn, turn, 0, n) && Forewarned(false, said)
    && Granted(FreshPlan(cfg), WishSaid(said), plan)
    && !plan.forceFinish
  }

  function OutcomeShown(t: CompletedTurn): TurnOutcome {
    TurnOutcome(t.cx.assistant, t.results, AnyFinish(t.results), LastAbort(t.results))
  }

  /**
   After that turn every policy was asked once, in order, about it, and it is rejected exactly if one of them said so.
   */
  ghost predicate JudgedBy(cfg: Config, n: nat, heard: seq<Said>, t: CompletedTurn) {
    var said := Pick(heard, AfterTurn, t.cx.turn);
    && Round(cfg, said, AfterTurn, t.cx.turn, 0, n)
    && (forall s | s in said :: Judges(s, t.cx.plan.converging, OutcomeShown(t)))
    && (t.rejected <==> RejectSaid(heard, t.cx.turn))
  }

  ghost predicate TurnRight(cfg: Config, n: nat, heard: seq<Said>, t: CompletedTurn) {
    PlannedBy(cfg, n, heard, t.cx.turn, t.cx.plan) && JudgedBy(cfg, n, heard, t)
  }

  lemma RejectionPicked(heard: seq<Said>, turn: nat)
    ensures RejectSaid(heard, turn) <==> RejectSaid(Pick(heard, AfterTurn, turn), turn)
  {
    hide Rejects;
  }

  lemma PlanStays(cfg: Config, n: nat, heard: seq<Said>, said: seq<Said>, moment: Moment, turn: nat, t: nat, plan: Plan)
    requires PlannedBy(cfg, n, heard, t, plan) && (forall s | s in said :: At(s, moment, turn))
    requires !(moment == BeforeTurn && turn == t)
    ensures PlannedBy(cfg, n, heard + said, t, plan)
  {
    hide Pick, Round, Granted, WishSaid, Forewarned;
    PickGrows(heard, said, moment, turn, BeforeTurn, t);
  }

  lemma JudgementStays(cfg: Config, n: nat, heard: seq<Said>, said: seq<Said>, moment: Moment, turn: nat,
                       t: CompletedTurn)
    requires JudgedBy(cfg, n, heard, t) && (forall s | s in said :: At(s, moment, turn))
    requires !(moment == AfterTurn && turn == t.cx.turn)
    ensures JudgedBy(cfg, n, heard + said, t)
  {
    hide Pick, Round, RejectSaid, OutcomeShown;
    PickGrows(heard, said, moment, turn, AfterTurn, t.cx.turn);
    RejectionPicked(heard, t.cx.turn);
    RejectionPicked(heard + said, t.cx.turn);
  }

  /** How many turns the policies have been asked before, and how many after, if the run is still going. */
  function BegunTurns(cfg: Config, c: Control): nat {
    match c
    case AtTurn(turn) => turn
    case AwaitModel(turn, _) => turn + 1
    case AwaitReads(cx) => cx.turn + 1
    case AtCall(cx, _, _) => cx.turn + 1
    case AwaitCall(cx, _, _, _) => cx.turn + 1
    case _ => cfg.limits.maxTurns
  }

  function ClosedTurns(cfg: Config, c: Control): nat {
    match c
    case AtTurn(turn) => turn
    case AwaitModel(turn, _) => turn
    case AwaitReads(cx) => cx.turn
    case AtCall(cx, _, _) => cx.turn
    case AwaitCall(cx, _, _, _) => cx.turn
    case _ => cfg.limits.maxTurns
  }

  ghost predicate Fresh(heard: seq<Said>, moment: Moment, from: nat) {
    forall t | from <= t :: Pick(heard, moment, t) == []
  }

  const FINISHED := Halted(Completed(Finished))
  const RAN_OUT := Halted(Completed(Exhausted))

  /** The policies are asked about a finish exactly if the run finishes, and about exhaustion exactly if it runs out. */
  ghost predicate LastRounds(cfg: Config, n: nat, heard: seq<Said>, done: seq<CompletedTurn>, c: Control) {
    && (if c == FINISHED then
          && done != []
          && var t := done[|done| - 1];
             var last := t.cx.turn;
             && Round(cfg, Pick(heard, OnFinish, last), OnFinish, last, 0, n)
             && (forall s | s in Pick(heard, OnFinish, last) :: Farewell(s, t.cx.plan.converging, OutcomeShown(t)))
             && forall t | t != last :: Pick(heard, OnFinish, t) == []
        else Fresh(heard, OnFinish, 0))
    && (if c == RAN_OUT then
          && Round(cfg, Pick(heard, OnExhausted, cfg.limits.maxTurns), OnExhausted, cfg.limits.maxTurns, 0, n)
          && forall t | t != cfg.limits.maxTurns :: Pick(heard, OnExhausted, t) == []
        else Fresh(heard, OnExhausted, 0))
  }

  /** All that is said of turns, in terms of the log: what was completed, where control is, what the counters are. */
  ghost predicate LogKept(cfg: Config, n: nat, heard: seq<Said>, done: seq<CompletedTurn>, c: Control,
                          stats: LoopStats) {
    && (forall i | 0 <= i < |done| :: TurnRight(cfg, n, heard, done[i]))
    && (InTurn(c) ==> PlannedBy(cfg, n, heard, ContextOf(c).turn, ContextOf(c).plan))
    && (c.AwaitModel? ==>
          && PlannedBy(cfg, n, heard, c.turn, c.plan)
          && forall s | s in Pick(heard, BeforeTurn, c.turn) && s.Answer? :: s.hook.state.stats == stats)
    && Fresh(heard, BeforeTurn, BegunTurns(cfg, c))
    && Fresh(heard, AfterTurn, ClosedTurns(cfg, c))
    && LastRounds(cfg, n, heard, done, c)
    && (Ordered(heard) ==> c.AtTail? || c == RAN_OUT)
  }

  lemma {:induction false} FinishWished(said: seq<Said>)
    ensures WishSaid(said).finish <==> Ordered(said)
  {
    if said != [] {
      var front, last := said[..|said| - 1], said[|said| - 1];
      assert said == front + [last];
      FinishWished(front);
      if last.Answer? {
        FinishAmong(last.actions);
      }
    }
  }

  lemma {:induction false} FinishAmong(actions: seq<PolicyAction>)
    ensures WishIn(actions).finish <==> ForceFinish in actions
  {
    if actions != [] {
      FinishAmong(actions[1..]);
    }
  }

  lemma RoundIsAt(cfg: Config, said: seq<Said>, moment: Moment, turn: nat, n: nat)
    requires Round(cfg, said, moment, turn, 0, n)
    ensures forall s | s in said :: At(s, moment, turn)
  {
    hide Round;
    RoundMoments(cfg, said, moment, turn, 0, n);
  }

  /** A round keeps what was said at other moments and turns. */
  lemma OthersStay(cfg: Config, n: nat, heard: seq<Said>, done: seq<CompletedTurn>, said: seq<Said>, moment: Moment,
                   turn: nat)
    requires forall s | s in said :: At(s, moment, turn)
    requires forall i | 0 <= i < |done| :: TurnRight(cfg, n, heard, done[i])
    requires forall i | 0 <= i < |done| :: done[i].cx.turn != turn || moment == OnFinish || moment == OnExhausted
    ensures forall i | 0 <= i < |done| :: TurnRight(cfg, n, heard + said, done[i])
    ensures forall other, t ::
      Pick(heard + said, other, t) == if other == moment && t == turn then Pick(heard, other, t) + said
                                      else Pick(heard, other, t)
    ensures Ordered(heard + said) <==> Ordered(heard) || Ordered(said)
  {
    hide Pick, PlannedBy, JudgedBy, At;
    forall other, t ensures Pick(heard + said, other, t)
      == if other == moment && t == turn then Pick(heard, other, t) + said else Pick(heard, other, t) {
      PickGrows(heard, said, moment, turn, other, t);
    }
    forall i | 0 <= i < |done| ensures TurnRight(cfg, n, heard + said, done[i]) {
      assert TurnRight(cfg, n, heard, done[i]);
      PlanStays(cfg, n, heard, said, moment, turn, done[i].cx.turn, done[i].cx.plan);
      JudgementStays(cfg, n, heard, said, moment, turn, done[i]);
    }
  }

  lemma FreshNow(heard: seq<Said>, moment: Moment, turn: nat)
    requires Fresh(heard, moment, turn)
    ensures Pick(heard, moment, turn) == []
  {
  }

  /** What was not said yet at other moments and later turns still is not. */
  lemma FreshStays(heard: seq<Said>, said: seq<Said>, moment: Moment, turn: nat, other: Moment, from: nat, next: nat)
    requires forall s | s in said :: At(s, moment, turn)
    requires Fresh(heard, other, from) && from <= next && (other == moment ==> turn < next)
    ensures Fresh(heard + said, other, next)
  {
    hide Pick, At;
    forall t | next <= t ensures Pick(heard + said, other, t) == [] {
      PickGrows(heard, said, moment, turn, other, t);
    }
  }

  /** A turn is opened: its round joins the log. */
  lemma OpenedLog(cfg: Config, n: nat, heard: seq<Said>, done: seq<CompletedTurn>, turn: nat, stats: LoopStats,
                  said: seq<Said>, plan: Plan)
    requires turn < cfg.limits.maxTurns && LogKept(cfg, n, heard, done, AtTurn(turn), stats)
    requires forall i | 0 <= i < |done| :: done[i].cx.turn < turn
    requires Round(cfg, said, BeforeTurn, turn, 0, n) && Granted(FreshPlan(cfg), WishSaid(said), plan)
    requires Forewarned(false, said)
    requires forall s | s in said && s.Answer? :: s.hook.state.stats == stats
    requires plan.forceFinish <==> Ordered(said)
    ensures LogKept(cfg, n, heard + said, done, if plan.forceFinish then AtTail else AwaitModel(turn, plan), stats)
  {
    hide Pick, Round, Granted, WishSaid, TurnRight, Ordered, Forewarned, Fresh, Farewell, OutcomeShown, At;
    var next := if plan.forceFinish then AtTail else AwaitModel(turn, plan);
    RoundIsAt(cfg, said, BeforeTurn, turn, n);
    assert Pick(heard + said, BeforeTurn, turn) == said by {
      FreshNow(heard, BeforeTurn, turn);
      PickGrows(heard, said, BeforeTurn, turn, BeforeTurn, turn);
      assert [] + said == said;
    }
    assert Ordered(heard + said) <==> Ordered(said) by {
      OthersStay(cfg, n, heard, done, said, BeforeTurn, turn);
    }
    assert forall i | 0 <= i < |done| :: TurnRight(cfg, n, heard + said, done[i]) by {
      OthersStay(cfg, n, heard, done, said, BeforeTurn, turn);
    }
    FreshStays(heard, said, BeforeTurn, turn, BeforeTurn, turn, BegunTurns(cfg, next));
    FreshStays(heard, said, BeforeTurn, turn, AfterTurn, turn, ClosedTurns(cfg, next));
    FreshStays(heard, said, BeforeTurn, turn, OnFinish, 0, 0);
    FreshStays(heard, said, BeforeTurn, turn, OnExhausted, 0, 0);
  }

  lemma OpenTurn(cfg: Config, initial: seq<Policy>, turn: nat, st: LoopState) returns (said: seq<Said>)
    requires Faithful(initial, st)
    ensures var (st', plan) := BeforeFrom(cfg, turn, 0, st, FreshPlan(cfg));
      && Round(cfg, said, BeforeTurn, turn, 0, |st.policies|) && Granted(FreshPlan(cfg), WishSaid(said), plan)
      && Forewarned(false, said)
      && (forall s | s in said && s.Answer? :: s.hook.state.stats == st.stats)
      && (plan.forceFinish <==> Ordered(said))
      && st'.heard == st.heard + said && st'.completed == st.completed && st'.stats == st.stats
      && |st'.policies| == |st.policies|
  {
    hide BeforeFrom, Grew, Round, Granted, WishSaid, Faithful, Ordered, Forewarned;
    var (st', plan) := BeforeFrom(cfg, turn, 0, st, FreshPlan(cfg));
    said := BeforeSays(cfg, initial, turn, 0, st, FreshPlan(cfg));
    GrewParts(cfg, multiset{}, st, st', said);
    FinishWished(said);
    WishGranted(FreshPlan(cfg), WishSaid(said), plan);
    SameCount(initial, st, st');
  }

  lemma WishGranted(plan: Plan, w: Wish, plan': Plan)
    requires Granted(plan, w, plan')
    ensures plan'.forceFinish == (plan.forceFinish || w.finish)
  {
    hide Combined;
  }

  lemma SameCount(initial: seq<Policy>, a: LoopState, b: LoopState)
    requires Faithful(initial, a) && Faithful(initial, b)
    ensures |a.policies| == |b.policies|
  {
    hide HooksTo, PolicyAfter, OwnAnswer;
  }

  lemma RejectionIs(heard: seq<Said>, said: seq<Said>, turn: nat)
    requires Pick(heard + said, AfterTurn, turn) == said
    ensures RejectSaid(heard + said, turn) <==> RejectSaid(said, turn)
  {
    hide Pick, Rejects;
    RejectionPicked(heard + said, turn);
  }

  /** A turn is judged: its round joins the log, and it the completed turns. */
  lemma JudgedLog(cfg: Config, n: nat, heard: seq<Said>, done: seq<CompletedTurn>, c: Control, stats: LoopStats,
                  said: seq<Said>, t: CompletedTurn)
    requires InTurn(c) && ContextOf(c) == t.cx && LogKept(cfg, n, heard, done, c, stats)
    requires forall i | 0 <= i < |done| :: done[i].cx.turn < t.cx.turn
    requires t.cx.turn < cfg.limits.maxTurns
    requires Round(cfg, said, AfterTurn, t.cx.turn, 0, n)
    requires forall s | s in said :: Judges(s, t.cx.plan.converging, OutcomeShown(t))
    requires t.rejected <==> RejectSaid(said, t.cx.turn)
    ensures forall next: Control | next == AtTurn(t.cx.turn + 1)
      || (next.Halted? && next != FINISHED && next != RAN_OUT) ::
      LogKept(cfg, n, heard + said, done + [t], next, stats)
  {
    hide Pick, Round, PlannedBy, Ordered, RejectSaid, OutcomeShown;
    var turn := t.cx.turn;
    RoundIsAt(cfg, said, AfterTurn, turn, n);
    OthersStay(cfg, n, heard, done, said, AfterTurn, turn);
    PlanStays(cfg, n, heard, said, AfterTurn, turn, turn, t.cx.plan);
    assert Pick(heard, AfterTurn, turn) == [] && [] + said == said;
    RejectionIs(heard, said, turn);
    NoOrders(said);
    assert TurnRight(cfg, n, heard + said, t);
    forall i | 0 <= i < |done| + 1 ensures TurnRight(cfg, n, heard + said, (done + [t])[i]) {
      assert i < |done| ==> (done + [t])[i] == done[i];
    }
  }

  /** The run finishes with its last turn: one more round joins the log. */
  lemma FinishedLog(cfg: Config, n: nat, heard: seq<Said>, done: seq<CompletedTurn>, stats: LoopStats, said: seq<Said>,
                    turn: nat)
    requires done != [] && done[|done| - 1].cx.turn == turn && turn < cfg.limits.maxTurns
    requires LogKept(cfg, n, heard, done, AtTurn(turn + 1), stats)
    requires Round(cfg, said, OnFinish, turn, 0, n)
    requires var t := done[|done| - 1];
      forall s | s in said :: Farewell(s, t.cx.plan.converging, OutcomeShown(t))
    ensures LogKept(cfg, n, heard + said, done, FINISHED, stats)
  {
    hide Pick, Round, TurnRight, Ordered, OutcomeShown;
    RoundIsAt(cfg, said, OnFinish, turn, n);
    OthersStay(cfg, n, heard, done, said, OnFinish, turn);
    assert Pick(heard, OnFinish, turn) == [] && [] + said == said;
    NoOrders(said);
  }

  lemma NoOrders(said: seq<Said>)
    requires forall s | s in said :: s.Answer? && !s.hook.BeforeHook?
    ensures !Ordered(said)
  {
  }

  /** The run is over without a verdict: all policies are asked a last time. */
  lemma TailLog(cfg: Config, n: nat, heard: seq<Said>, done: seq<CompletedTurn>, stats: LoopStats, said: seq<Said>)
    requires LogKept(cfg, n, heard, done, AtTail, stats)
    requires Round(cfg, said, OnExhausted, cfg.limits.maxTurns, 0, n)
    ensures LogKept(cfg, n, heard + said, done, RAN_OUT, stats)
  {
    hide Pick, Round, TurnRight, Ordered;
    var turn := cfg.limits.maxTurns;
    RoundIsAt(cfg, said, OnExhausted, turn, n);
    OthersStay(cfg, n, heard, done, said, OnExhausted, turn);
    assert Pick(heard, OnExhausted, turn) == [] && [] + said == said;
  }

  /** Elsewhere the policies are silent. */
  lemma QuietLog(cfg: Config, n: nat, heard: seq<Said>, done: seq<CompletedTurn>, c: Control, stats: LoopStats,
                 next: Control, stats': LoopStats)
    requires LogKept(cfg, n, heard, done, c, stats)
    requires !c.AtTail? && !c.Halted? && next != RAN_OUT && next != FINISHED && !next.AwaitModel?
    requires BegunTurns(cfg, c) <= BegunTurns(cfg, next) && ClosedTurns(cfg, c) <= ClosedTurns(cfg, next)
    requires InTurn(next) ==>
      || (InTurn(c) && ContextOf(c) == ContextOf(next))
      || (c.AwaitModel? && ContextOf(next).turn == c.turn && ContextOf(next).plan == c.plan)
    ensures LogKept(cfg, n, heard, done, next, stats')
  {
    hide Pick, PlannedBy, TurnRight, Ordered;
  }

  // ---------- every run ----------

  /** Closing a turn: the rounds it asks, and what becomes of the run. */
  lemma EndPhase(cfg: Config, initial: seq<Policy>, cx: TurnContext, p: TurnProgress, st: LoopState)
    returns (after: seq<Said>, last: seq<Said>)
    requires Faithful(initial, st) && st.stats.findingsRecorded == FindingsSaid(st.heard)
    requires EndsWithTurn(st.messages, cx.assistant, p.results)
    ensures var next := EndTurn(cfg, cx, p, st);
      var t := CompletedTurn(cx, p.results, RejectSaid(after, cx.turn));
      && Round(cfg, after, AfterTurn, cx.turn, 0, |st.policies|)
      && (forall s | s in after ::
            Judges(s, cx.plan.converging,
                   TurnOutcome(cx.assistant, p.results, p.finishRequested, p.abortReason)))
      && next.st.completed == st.completed + [t]
      && next.st.heard == st.heard + after + last
      && |next.st.policies| == |st.policies| && next.st.contextOverflow == st.contextOverflow
      && next.control == (if p.abortReason.Some? then Halted(Completed(Aborted(p.abortReason.value)))
                          else if p.finishRequested && !t.rejected then FINISHED else AtTurn(cx.turn + 1))
      && (next.control == FINISHED ==>
            && Round(cfg, last, OnFinish, cx.turn, 0, |st.policies|)
            && forall s | s in last ::
                 Farewell(s, cx.plan.converging,
                          TurnOutcome(cx.assistant, p.results, p.finishRequested, p.abortReason)))
      && (next.control != FINISHED ==> last == [])
  {
    hide AfterFrom, FinishFrom, Round, Faithful, FindingsSaid, RejectSaid, Judges, EndsWithTurn, ShowsTurn;
    TurnShows(st.messages, cx.assistant, p.results);
    var outcome := TurnOutcome(cx.assistant, p.results, p.finishRequested, p.abortReason);
    after := AfterPhase(cfg, initial, cx.turn, cx.plan.converging, outcome, st);
    var (s, reject) := AfterFrom(cfg, cx.turn, cx.plan.converging, outcome, 0, st, false);
    var st' := s.(completed := s.completed + [CompletedTurn(cx, p.results, reject)]);
    SameFaith(initial, s, st');
    last := [];
    if p.abortReason.None? && p.finishRequested && !reject {
      last := FinishPhase(cfg, initial, cx.turn, cx.plan.converging, outcome, st');
    } else {
      assert st.heard + after + last == st.heard + after;
    }
  }

  lemma AfterPhase(cfg: Config, initial: seq<Policy>, turn: nat, converging: bool, outcome: TurnOutcome, st: LoopState)
    returns (said: seq<Said>)
    requires Faithful(initial, st) && st.stats.findingsRecorded == FindingsSaid(st.heard)
    requires ShowsTurn(st.messages, outcome.assistant, outcome.results)
    ensures var (s, reject) := AfterFrom(cfg, turn, converging, outcome, 0, st, false);
      && Round(cfg, said, AfterTurn, turn, 0, |st.policies|)
      && (forall x | x in said :: Judges(x, converging, outcome))
      && reject == RejectSaid(said, turn)
      && s.heard == st.heard + said && s.completed == st.completed && s.contextOverflow == st.contextOverflow
      && |s.policies| == |st.policies| && Faithful(initial, s) && s.stats.findingsRecorded == FindingsSaid(s.heard)
  {
    hide AfterFrom, Grew, Round, Faithful, FindingsSaid, RejectSaid, Judges, ShowsTurn;
    var s := AfterFrom(cfg, turn, converging, outcome, 0, st, false).0;
    said := AfterSays(cfg, initial, turn, converging, outcome, 0, st, false);
    GrewParts(cfg, multiset{}, st, s, said);
    SameCount(initial, st, s);
  }

  lemma FinishPhase(cfg: Config, initial: seq<Policy>, turn: nat, converging: bool, outcome: TurnOutcome, st: LoopState)
    returns (said: seq<Said>)
    requires Faithful(initial, st) && st.stats.findingsRecorded == FindingsSaid(st.heard)
    ensures var s := FinishFrom(cfg, turn, converging, outcome, 0, st);
      && Round(cfg, said, OnFinish, turn, 0, |st.policies|)
      && (forall x | x in said :: Farewell(x, converging, outcome))
      && s.heard == st.heard + said && s.completed == st.completed && s.contextOverflow == st.contextOverflow
      && |s.policies| == |st.policies|
  {
    hide FinishFrom, Grew, Round, Faithful, FindingsSaid;
    var s := FinishFrom(cfg, turn, converging, outcome, 0, st);
    said := FinishSays(cfg, initial, turn, converging, outcome, 0, st);
    GrewParts(cfg, multiset{}, st, s, said);
    SameCount(initial, st, s);
  }

  lemma TailPhase(cfg: Config, initial: seq<Policy>, st: LoopState) returns (said: seq<Said>)
    requires Faithful(initial, st) && st.stats.findingsRecorded == FindingsSaid(st.heard)
    ensures var s := Tail(cfg, st);
      && Round(cfg, said, OnExhausted, cfg.limits.maxTurns, 0, |st.policies|)
      && s.heard == st.heard + said && s.completed == st.completed && s.contextOverflow == st.contextOverflow
      && |s.policies| == |st.policies|
  {
    hide ExhaustedFrom, Grew, Round, Faithful, FindingsSaid;
    var st1 := Recorded(st, ExhaustedEvent(cfg, st));
    SameFaith(initial, st, st1);
    said := ExhaustedSays(cfg, initial, 0, st1);
    GrewParts(cfg, multiset{}, st1, Tail(cfg, st), said);
    SameCount(initial, st, Tail(cfg, st));
  }

  /** How a run can be over without a verdict, and what a failure of the model leads to. */
  ghost predicate EndKept(cfg: Config, obs: seq<Observation>, m: Machine) {
    && (m.st.contextOverflow <==> Overflowed(obs))
    && (Overflowed(obs) ==> m.control.AtTail? || m.control == RAN_OUT)
    && (m.control.AtTail? || m.control == RAN_OUT ==>
          Overflowed(obs) || Ordered(m.st.heard) || Asks(obs) == cfg.limits.maxTurns)
    && (forall e: StepError | FailedWith(obs, e) && !e.Transient? && !Overflowed(obs) :: m.control == Halted(Failed(e)))
    && (forall e :: m.control == Halted(Failed(e)) ==> FailedWith(obs, e))
  }

  ghost predicate Lawful(cfg: Config, initial: seq<Policy>, conversation: seq<ChatMessage>, obs: seq<Observation>,
                         m: Machine)
  {
    && AccountedParts(cfg, initial, conversation, obs, m) && |m.st.policies| == |initial|
    && TurnsKept(cfg, obs, m)
    && LogKept(cfg, |initial|, m.st.heard, m.st.completed, m.control, m.st.stats)
    && EndKept(cfg, obs, m)
  }

  lemma AccountedIsFaithful(cfg: Config, initial: seq<Policy>, conversation: seq<ChatMessage>, obs: seq<Observation>,
                            m: Machine)
    requires AccountedParts(cfg, initial, conversation, obs, m)
    ensures Faithful(initial, m.st) && m.st.stats.findingsRecorded == FindingsSaid(m.st.heard)
  {
    hide Faithful, Sum, Voices, NudgeVoices, Part, Spoken, AnswersHeard, FindingsSaid;
  }

  lemma MoveOpens(cfg: Config, initial: seq<Policy>, obs: seq<Observation>, m: Machine, turn: nat)
    requires m.control == AtTurn(turn) && |m.st.policies| == |initial| && Faithful(initial, m.st)
    requires TurnsKept(cfg, obs, m) && EndKept(cfg, obs, m)
    requires LogKept(cfg, |initial|, m.st.heard, m.st.completed, m.control, m.st.stats)
    ensures var next := Move(cfg, m);
      && |next.st.policies| == |initial| && EndKept(cfg, obs, next)
      && LogKept(cfg, |initial|, next.st.heard, next.st.completed, next.control, next.st.stats)
  {
    hide BeforeFrom, Round, Granted, WishSaid, Faithful, Ordered, LogKept, Asks, AskedInOrder, Overflowed, FailedWith;
    if turn < cfg.limits.maxTurns {
      var said := OpenTurn(cfg, initial, turn, m.st);
      var plan := BeforeFrom(cfg, turn, 0, m.st, FreshPlan(cfg)).1;
      OpenedLog(cfg, |initial|, m.st.heard, m.st.completed, turn, m.st.stats, said, plan);
      BeforeKeepsOverflow(cfg, initial, turn, m.st);
      OrderedConcat(m.st.heard, said);
    } else {
      QuietLog(cfg, |initial|, m.st.heard, m.st.completed, m.control, m.st.stats, AtTail, m.st.stats);
    }
  }

  lemma OrderedConcat(a: seq<Said>, b: seq<Said>)
    ensures Ordered(a + b) <==> Ordered(a) || Ordered(b)
  {
  }

  lemma BeforeKeepsOverflow(cfg: Config, initial: seq<Policy>, turn: nat, st: LoopState)
    requires Faithful(initial, st)
    ensures BeforeFrom(cfg, turn, 0, st, FreshPlan(cfg)).0.contextOverflow == st.contextOverflow
  {
    hide BeforeFrom, Grew, Round, Granted, WishSaid, Faithful;
    var said := BeforeSays(cfg, initial, turn, 0, st, FreshPlan(cfg));
    GrewParts(cfg, multiset{}, st, BeforeFrom(cfg, turn, 0, st, FreshPlan(cfg)).0, said);
  }

  lemma MoveCloses(cfg: Config, initial: seq<Policy>, obs: seq<Observation>, m: Machine, cx: TurnContext,
                   p: TurnProgress)
    requires m.control == AtCall(cx, p, []) && |m.st.policies| == |initial| && Faithful(initial, m.st) && TurnShape(m)
    requires m.st.stats.findingsRecorded == FindingsSaid(m.st.heard)
    requires TurnsKept(cfg, obs, m) && EndKept(cfg, obs, m)
    requires LogKept(cfg, |initial|, m.st.heard, m.st.completed, m.control, m.st.stats)
    ensures var next := EndTurn(cfg, cx, p, m.st);
      && |next.st.policies| == |initial| && EndKept(cfg, obs, next)
      && LogKept(cfg, |initial|, next.st.heard, next.st.completed, next.control, next.st.stats)
  {
    hide EndTurn, Round, Faithful, FindingsSaid, LogKept, Asks, AskedInOrder, Overflowed, FailedWith, AnyFinish,
         LastAbort, RejectSaid, Ordered;
    var after, last := EndPhase(cfg, initial, cx, p, m.st);
    var next := EndTurn(cfg, cx, p, m.st);
    var t := CompletedTurn(cx, p.results, RejectSaid(after, cx.turn));
    JudgedLog(cfg, |initial|, m.st.heard, m.st.completed, m.control, m.st.stats, after, t);
    StatsDoNotMatter(cfg, |initial|, m.st.heard + after, next.st.completed, AtTurn(cx.turn + 1), m.st.stats,
                     next.st.stats);
    if next.control == FINISHED {
      FinishedLog(cfg, |initial|, m.st.heard + after, next.st.completed, next.st.stats, last, cx.turn);
    } else {
      assert m.st.heard + after + [] == m.st.heard + after;
      StatsDoNotMatter(cfg, |initial|, next.st.heard, next.st.completed, next.control, m.st.stats, next.st.stats);
    }
  }

  lemma StatsDoNotMatter(cfg: Config, n: nat, heard: seq<Said>, done: seq<CompletedTurn>, c: Control, a: LoopStats,
                         b: LoopStats)
    requires !c.AwaitModel?
    ensures LogKept(cfg, n, heard, done, c, a) ==> LogKept(cfg, n, heard, done, c, b)
  {
    hide Pick, PlannedBy, TurnRight, Ordered;
  }

  lemma MoveEnds(cfg: Config, initial: seq<Policy>, obs: seq<Observation>, m: Machine)
    requires m.control.AtTail? && |m.st.policies| == |initial| && Faithful(initial, m.st)
    requires m.st.stats.findingsRecorded == FindingsSaid(m.st.heard)
    requires EndKept(cfg, obs, m)
    requires LogKept(cfg, |initial|, m.st.heard, m.st.completed, m.control, m.st.stats)
    ensures var next := Move(cfg, m);
      && |next.st.policies| == |initial| && EndKept(cfg, obs, next)
      && LogKept(cfg, |initial|, next.st.heard, next.st.completed, next.control, next.st.stats)
  {
    hide Tail, Round, Faithful, FindingsSaid, LogKept, Asks, Overflowed, FailedWith, Ordered;
    var said := TailPhase(cfg, initial, m.st);
    TailLog(cfg, |initial|, m.st.heard, m.st.completed, m.st.stats, said);
    StatsDoNotMatter(cfg, |initial|, m.st.heard + said, m.st.completed, RAN_OUT, m.st.stats, Tail(cfg, m.st).stats);
    OrderedConcat(m.st.heard, said);
  }

  lemma MoveLawful(cfg: Config, initial: seq<Policy>, conversation: seq<ChatMessage>, obs: seq<Observation>, m: Machine)
    requires Moving(m) && TurnShape(m) && Lawful(cfg, initial, conversation, obs, m)
    ensures Lawful(cfg, initial, conversation, obs, Move(cfg, m))
  {
    hide AccountedParts, TurnsKept, LogKept, EndTurn, BeforeFrom, Tail, Account, LocalOutcome, InOrder, EndsWithTurn,
         Faithful, FindingsSaid, EndKept;
    AccountedIsFaithful(cfg, initial, conversation, obs, m);
    MoveAccounted(cfg, initial, conversation, obs, m);
    MoveTurns(cfg, obs, m);
    match m.control {
      case AtTurn(turn) => MoveOpens(cfg, initial, obs, m, turn);
      case AtTail => MoveEnds(cfg, initial, obs, m);
      case AtCall(cx, p, rest) =>
        if rest == [] {
          MoveCloses(cfg, initial, obs, m, cx, p);
        } else {
          MoveAlong(cfg, |initial|, obs, m, cx, p, rest);
        }
    }
  }

  /** Working through a turn's calls says nothing to the policies. */
  lemma MoveAlong(cfg: Config, n: nat, obs: seq<Observation>, m: Machine, cx: TurnContext, p: TurnProgress,
                  rest: seq<ToolCall>)
    requires m.control == AtCall(cx, p, rest) && rest != [] && EndKept(cfg, obs, m)
    requires LogKept(cfg, n, m.st.heard, m.st.completed, m.control, m.st.stats)
    ensures var next := Move(cfg, m);
      && next.st.policies == m.st.policies && EndKept(cfg, obs, next)
      && LogKept(cfg, n, next.st.heard, next.st.completed, next.control, next.st.stats)
  {
    hide LogKept, Account, LocalOutcome, Asks, Overflowed, FailedWith, Ordered;
    var next := Move(cfg, m);
    var o := LocalOutcome(cfg, cx.plan, p, rest[0]);
    if o.Some? {
      AccountIsSilent(cfg, cx.turn, rest[0], o.value, m.st, p);
    }
    QuietLog(cfg, n, m.st.heard, m.st.completed, m.control, m.st.stats, next.control, next.st.stats);
  }

  lemma AccountIsSilent(cfg: Config, turn: nat, call: ToolCall, outcome: ToolOutcome, st: LoopState, p: TurnProgress)
    ensures var st' := Account(cfg, turn, call, outcome, st, p).0;
      && st'.heard == st.heard && st'.completed == st.completed && st'.policies == st.policies
      && st'.contextOverflow == st.contextOverflow
  {
  }

  lemma DeliverLawful(cfg: Config, initial: seq<Policy>, conversation: seq<ChatMessage>, obs: seq<Observation>,
                      m: Machine, r: StepResult)
    requires Awaiting(m.control) && Answers(m.control, r) && TurnShape(m) && (m.control.AwaitModel? || r.Ok?)
    requires Lawful(cfg, initial, conversation, obs, m)
    ensures Lawful(cfg, initial, conversation, obs + [Observation(m, AskOf(cfg, m).step, r)], Deliver(cfg, m, r))
  {
    hide AccountedParts, TurnsKept, LogKept, Account, OnAssistant, IsContextOverflow, ByIndex, Asks, AskOf, Ordered,
         InOrder, EndsWithTurn;
    DeliverAccounted(cfg, initial, conversation, obs, m, r);
    DeliverTurns(cfg, obs, m, r);
    DeliverEnds(cfg, obs, m, r);
    var next := Deliver(cfg, m, r);
    match m.control {
      case AwaitModel(turn, plan) =>
        if r.Ok? {
          TakenIn(cfg, turn, plan, r.value.assistant, m.st);
          AnswerStaysInTurn(cfg, turn, plan, r.value.assistant, m.st);
        }
      case AwaitReads(cx) =>
      case AwaitCall(cx, p, call, rest) => AccountIsSilent(cfg, cx.turn, call, r.value.outcome, m.st, p);
    }
    var c := m.control;
    TurnsBelow(cfg, obs, m);
    QuietLog(cfg, |initial|, m.st.heard, m.st.completed, c, m.st.stats, next.control, next.st.stats);
  }

  lemma TurnsBelow(cfg: Config, obs: seq<Observation>, m: Machine)
    requires TurnsKept(cfg, obs, m)
    ensures m.control.AwaitModel? ==> m.control.turn < cfg.limits.maxTurns
    ensures InTurn(m.control) ==> ContextOf(m.control).turn < cfg.limits.maxTurns
  {
    hide Asks, AskedInOrder;
  }

  lemma DeliverEnds(cfg: Config, obs: seq<Observation>, m: Machine, r: StepResult)
    requires Awaiting(m.control) && Answers(m.control, r) && (m.control.AwaitModel? || r.Ok?) && EndKept(cfg, obs, m)
    ensures EndKept(cfg, obs + [Observation(m, AskOf(cfg, m).step, r)], Deliver(cfg, m, r))
  {
    hide Account, OnAssistant, IsContextOverflow, ByIndex, Asks, Ordered;
    var o := Observation(m, AskOf(cfg, m).step, r);
    assert (obs + [o])[|obs + [o]| - 1] == o;
    match m.control {
      case AwaitModel(turn, plan) =>
        if r.Ok? {
          TakenIn(cfg, turn, plan, r.value.assistant, m.st);
          AnswerStaysInTurn(cfg, turn, plan, r.value.assistant, m.st);
          AnswerKeepsOverflow(cfg, turn, plan, r.value.assistant, m.st);
        }
      case AwaitReads(cx) =>
      case AwaitCall(cx, p, call, rest) => AccountIsSilent(cfg, cx.turn, call, r.value.outcome, m.st, p);
    }
  }

  lemma AnswerKeepsOverflow(cfg: Config, turn: nat, plan: Plan, a: AssistantTurn, st: LoopState)
    ensures OnAssistant(cfg, turn, plan, a, st).st.contextOverflow == st.contextOverflow
  {
    hide ReadsOfTurn, CountReads;
  }

  lemma StartLawful(cfg: Config, conversation: seq<ChatMessage>, policies: seq<Policy>)
    ensures Lawful(cfg, policies, conversation, [], Machine(AtTurn(0), StartState(conversation, policies)))
  {
    StartAccounted(cfg, conversation, policies);
  }

  lemma {:induction false} RunLawful(cfg: Config, env: Env, conversation: seq<ChatMessage>, policies: seq<Policy>,
                                     host: Host, k: nat)
    ensures var s := Exec(cfg, env, Start(cfg, conversation, policies, host), k);
      Lawful(cfg, policies, conversation, s.observed, s.machine)
  {
    hide Exec, Settle, Lawful, Move, Deliver, TurnShape;
    var P: Property := (obs: seq<Observation>, m: Machine) =>
      LoopOrder.ToolStepsOk(obs) ==> Lawful(cfg, policies, conversation, obs, m);
    forall obs: seq<Observation>, m: Machine | Moving(m) && TurnShape(m) && P(obs, m) ensures P(obs, Move(cfg, m)) {
      if LoopOrder.ToolStepsOk(obs) {
        MoveLawful(cfg, policies, conversation, obs, m);
      }
    }
    forall obs: seq<Observation>, m: Machine, r: StepResult
      | Awaiting(m.control) && Answers(m.control, r) && TurnShape(m) && P(obs, m)
      ensures P(obs + [Observation(m, AskOf(cfg, m).step, r)], Deliver(cfg, m, r))
    {
      var more := obs + [Observation(m, AskOf(cfg, m).step, r)];
      if LoopOrder.ToolStepsOk(more) {
        assert forall i | 0 <= i < |obs| :: more[i] == obs[i];
        assert more[|obs|].step.LlmTurn? || more[|obs|].result.Ok?;
        DeliverLawful(cfg, policies, conversation, obs, m, r);
      }
    }
    StartLawful(cfg, conversation, policies);
    Always(cfg, env, conversation, policies, host, k, P);
    LoopOrder.ExecToolStepsOk(cfg, env, Start(cfg, conversation, policies, host), k);
  }

  /** In every run the model is asked for turn 0, then 1, and so on; turns complete in that order. */
  lemma TurnsFollow(cfg: Config, env: Env, conversation: seq<ChatMessage>, policies: seq<Policy>, host: Host, k: nat)
    ensures var s := Exec(cfg, env, Start(cfg, conversation, policies, host), k);
      var done := s.machine.st.completed;
      && AskedInOrder(s.observed) && Asks(s.observed) <= cfg.limits.maxTurns
      && (forall i, j | 0 <= i < j < |done| :: done[i].cx.turn < done[j].cx.turn)
      && (s.machine.control.AwaitModel? ==> s.machine.control.turn == Asks(s.observed))
  {
    hide Exec, Settle, AccountedParts, LogKept, EndKept, AskedInOrder;
    RunLawful(cfg, env, conversation, policies, host, k);
  }

  /**
   At every point of every run: before each turn on which the model is asked, every policy was asked once, in order,
   about this run's counters, and the turn's plan is the initial filter with all they wished, no more and no less.
   */
  lemma PlansAreWished(cfg: Config, env: Env, conversation: seq<ChatMessage>, policies: seq<Policy>, host: Host, k: nat)
    ensures var m := Exec(cfg, env, Start(cfg, conversation, policies, host), k).machine;
      && (m.control.AwaitModel? ==>
            && PlannedBy(cfg, |policies|, m.st.heard, m.control.turn, m.control.plan)
            && forall s | s in Pick(m.st.heard, BeforeTurn, m.control.turn) && s.Answer? ::
              s.hook.state.stats == m.st.stats)
      && (InTurn(m.control) ==>
            PlannedBy(cfg, |policies|, m.st.heard, ContextOf(m.control).turn, ContextOf(m.control).plan))
      && forall t | t in m.st.completed :: PlannedBy(cfg, |policies|, m.st.heard, t.cx.turn, t.cx.plan)
  {
    hide Exec, Settle, AccountedParts, TurnsKept, EndKept, PlannedBy, JudgedBy, Fresh, LastRounds, Ordered, Pick;
    RunLawful(cfg, env, conversation, policies, host, k);
  }

  /**
   At every point of every run: after each completed turn every policy was asked once, in order, and shown its results;
   the turn is rejected if and only if one of them answered so; and the run is finished if and only if its last
   completed turn holds a `Finish`, no `Abort`, and none of the policies rejected it.
   */
  lemma FinishIsTheirs(cfg: Config, env: Env, conversation: seq<ChatMessage>, policies: seq<Policy>, host: Host, k: nat)
    ensures var m := Exec(cfg, env, Start(cfg, conversation, policies, host), k).machine;
      var done := m.st.completed;
      && (forall t | t in done :: JudgedBy(cfg, |policies|, m.st.heard, t))
      && (m.control == FINISHED <==>
            && done != []
            && var t := done[|done| - 1];
               AnyFinish(t.results) && LastAbort(t.results) == None && !RejectSaid(m.st.heard, t.cx.turn))
      && LastRounds(cfg, |policies|, m.st.heard, done, m.control)
  {
    hide Exec, Settle, AccountedParts, TurnsKept, EndKept, PlannedBy, Fresh, LastRounds, Ordered, Pick, Round,
         AnyFinish, LastAbort, RejectSaid, OutcomeShown;
    RunLawful(cfg, env, conversation, policies, host, k);
    LoopOutcomes.OutcomeMeaning(cfg, env, conversation, policies, host, k);
    var m := Exec(cfg, env, Start(cfg, conversation, policies, host), k).machine;
    var done := m.st.completed;
    if done != [] {
      assert JudgedBy(cfg, |policies|, m.st.heard, done[|done| - 1]);
    }
  }

  /** Between steps a machine waits, or is done. */
  lemma {:induction false} ExecSettled(cfg: Config, env: Env, s: System, k: nat)
    requires Awaiting(s.machine.control) || s.machine.control.Halted?
    ensures var c := Exec(cfg, env, s, k).machine.control; Awaiting(c) || c.Halted?
  {
    hide Exec, Step, StepNames.Name, Proceed, AskOf;
    ExecUnfolds(cfg, env, s, if k == 0 then 0 else k - 1);
    if k > 0 {
      ExecSettled(cfg, env, s, k - 1);
    }
  }

  /**
   A run is over without a verdict only if all turns were used, a policy ordered it, or the model's context overflowed,
   and it is if one of the latter two happened; it fails only with the model's own last error, and does with one that
   is neither transient nor an overflow.
   */
  lemma WhyItEnded(cfg: Config, env: Env, conversation: seq<ChatMessage>, policies: seq<Policy>, host: Host, k: nat)
    ensures var s := Exec(cfg, env, Start(cfg, conversation, policies, host), k);
      var m, obs := s.machine, s.observed;
      && (m.control == RAN_OUT ==> Overflowed(obs) || Ordered(m.st.heard) || Asks(obs) == cfg.limits.maxTurns)
      && (Overflowed(obs) || Ordered(m.st.heard) ==> m.control == RAN_OUT)
      && (m.st.contextOverflow <==> Overflowed(obs))
      && (forall e: StepError | FailedWith(obs, e) && !e.Transient? && !Overflowed(obs) ::
          m.control == Halted(Failed(e)))
      && (forall e :: m.control == Halted(Failed(e)) ==> FailedWith(obs, e))
  {
    hide Exec, Settle, AccountedParts, TurnsKept, TurnRight, PlannedBy, Fresh, LastRounds, Ordered, Pick, Overflowed,
         FailedWith, Asks;
    RunLawful(cfg, env, conversation, policies, host, k);
    ExecSettled(cfg, env, Start(cfg, conversation, policies, host), k);
  }
}
