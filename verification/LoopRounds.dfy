/**
 The rounds in which the policies are asked: before a turn, after its calls, when the run finishes, when it is
 exhausted. In each round every policy is asked once, in the order of the stack, and shown the state of the run.
 */
module LoopRounds {
  import opened AgentTypes
  import opened Policies
  import opened LoopMachine
  import opened LoopTurn
  import opened LoopSaid

  datatype Moment = BeforeTurn | AfterTurn | OnFinish | OnExhausted

  function MomentOf(hook: Hook): Moment {
    match hook
    case BeforeHook(_) => BeforeTurn
    case AfterHook(_, _) => AfterTurn
    case FinishHook(_, _) => OnFinish
    case ExhaustedHook(_) => OnExhausted
  }

  /** The entry is the answer of that policy at that moment of the turn, to a question about this very run. */
  predicate AskedAt(cfg: Config, s: Said, policy: nat, moment: Moment, turn: nat) {
    && s.Answer? && s.policy == policy
    && MomentOf(s.hook) == moment
    && s.hook.state.turn == turn && s.hook.state.maxTurns == cfg.limits.maxTurns
    && s.hook.state.baseTools == AllSpecs(cfg)
  }

  function Replies(said: seq<Said>): (r: seq<Said>)
    ensures forall s :: s in r <==> s in said && s.Answer?
  {
    if said == [] then []
    else
      var last := said[|said| - 1];
      Replies(said[..|said| - 1]) + if last.Answer? then [last] else []
  }

  lemma {:induction false} AnswersConcat(a: seq<Said>, b: seq<Said>)
    ensures Replies(a + b) == Replies(a) + Replies(b)
    decreases |b|
  {
    if b == [] {
      assert a + b == a;
    } else {
      assert (a + b)[..|a + b| - 1] == a + b[..|b| - 1];
      AnswersConcat(a, b[..|b| - 1]);
    }
  }

  lemma {:induction false} TrimsAnswerNothing(said: seq<Said>, turn: nat, name: string)
    requires OfTrims(said, turn, name)
    ensures Replies(said) == []
  {
    if said != [] {
      TrimsAnswerNothing(said[..|said| - 1], turn, name);
    }
  }

  /** Policies `from` up to `n` are asked at that moment of the turn, once each, in order; trims are of that turn. */
  ghost predicate Round(cfg: Config, said: seq<Said>, moment: Moment, turn: nat, from: nat, n: nat) {
    && from <= n && |Replies(said)| == n - from
    && (forall j | 0 <= j < n - from :: AskedAt(cfg, Replies(said)[j], from + j, moment, turn))
    && (forall s | s in said && !s.Answer? :: s.turn == turn && moment == BeforeTurn)
  }

  lemma RoundCons(cfg: Config, s: Said, trims: seq<Said>, more: seq<Said>, moment: Moment, turn: nat, i: nat, n: nat,
                  name: string)
    requires AskedAt(cfg, s, i, moment, turn) && Round(cfg, more, moment, turn, i + 1, n)
    requires OfTrims(trims, turn, name) && (trims != [] ==> moment == BeforeTurn)
    ensures Round(cfg, [s] + trims + more, moment, turn, i, n)
  {
    hide AskedAt, Replies;
    AnswersConcat([s] + trims, more);
    AnswersConcat([s], trims);
    TrimsAnswerNothing(trims, turn, name);
    AnswerOne(cfg, s, i, moment, turn);
    var all := [s] + trims + more;
    assert [s] + [] + Replies(more) == [s] + Replies(more);
    forall j | 0 <= j < n - i ensures AskedAt(cfg, Replies(all)[j], i + j, moment, turn) {
      if j > 0 {
        assert AskedAt(cfg, Replies(more)[j - 1], i + 1 + (j - 1), moment, turn);
      }
    }
    forall x | x in all && !x.Answer? ensures x.turn == turn && moment == BeforeTurn {
      assert x in trims || x in more;
    }
  }

  lemma AnswerOne(cfg: Config, s: Said, i: nat, moment: Moment, turn: nat)
    requires AskedAt(cfg, s, i, moment, turn)
    ensures Replies([s]) == [s] && s.Answer?
  {
    assert [s][..0] == [];
  }

  // ---------- policies speak for themselves ----------

  /** What the policy at `i` has been asked, in order. */
  function HooksTo(said: seq<Said>, i: nat): seq<Hook> {
    if said == [] then []
    else
      var last := said[|said| - 1];
      HooksTo(said[..|said| - 1], i) + if last.Answer? && last.policy == i then [last.hook] else []
  }

  /** A policy after being asked all that. */
  function PolicyAfter(p: Policy, hooks: seq<Hook>): Policy {
    if hooks == [] then p else Respond(PolicyAfter(p, hooks[..|hooks| - 1]), hooks[|hooks| - 1]).0
  }

  /** The entry is what the policy, asked all that came before, answers. */
  predicate OwnAnswer(initial: seq<Policy>, before: seq<Said>, s: Said) {
    s.Answer? ==>
      && s.policy < |initial|
      && var p := PolicyAfter(initial[s.policy], HooksTo(before, s.policy));
         s.actions == Respond(p, s.hook).1 && s.name == p.Name()
  }

  /** The policies have become what their questions made of them, and have answered for themselves. */
  ghost predicate Faithful(initial: seq<Policy>, st: LoopState) {
    && |st.policies| == |initial|
    && (forall i | 0 <= i < |initial| :: st.policies[i] == PolicyAfter(initial[i], HooksTo(st.heard, i)))
    && forall k | 0 <= k < |st.heard| :: OwnAnswer(initial, st.heard[..k], st.heard[k])
  }

  lemma HooksToPush(said: seq<Said>, s: Said, i: nat)
    ensures HooksTo(said + [s], i) == HooksTo(said, i) + if s.Answer? && s.policy == i then [s.hook] else []
  {
    assert (said + [s])[..|said|] == said;
  }

  lemma PolicyAfterPush(p: Policy, hooks: seq<Hook>, hook: Hook)
    ensures PolicyAfter(p, hooks + [hook]) == Respond(PolicyAfter(p, hooks), hook).0
  {
    hide Respond;
    assert (hooks + [hook])[..|hooks|] == hooks;
  }

  lemma NameStays(p: Policy, hook: Hook)
    ensures Respond(p, hook).0.Name() == p.Name()
  {
  }

  lemma PrefixesPush(said: seq<Said>, s: Said)
    ensures forall k | 0 <= k < |said| :: (said + [s])[..k] == said[..k] && (said + [s])[k] == said[k]
    ensures (said + [s])[..|said|] == said && (said + [s])[|said|] == s
  {
  }

  /** Asking a policy keeps the policies faithful. */
  lemma ToldFaithful(initial: seq<Policy>, st: LoopState, i: nat, hook: Hook)
    requires Faithful(initial, st) && i < |st.policies|
    ensures var (p, actions) := Respond(st.policies[i], hook);
      Faithful(initial, Told(st, i, p, hook, actions))
  {
    hide Respond, HooksTo, PolicyAfter;
    var (p, actions) := Respond(st.policies[i], hook);
    var s := Answer(i, p.Name(), hook, actions);
    var st' := Told(st, i, p, hook, actions);
    NameStays(st.policies[i], hook);
    PrefixesPush(st.heard, s);
    PolicyAfterPush(initial[i], HooksTo(st.heard, i), hook);
    forall j | 0 <= j < |initial| ensures st'.policies[j] == PolicyAfter(initial[j], HooksTo(st'.heard, j)) {
      HooksToPush(st.heard, s, j);
      assert HooksTo(st.heard, j) + [] == HooksTo(st.heard, j);
    }
  }

  /** So does anything that leaves the policies alone and logs only trims. */
  lemma {:induction false} TrimsFaithful(initial: seq<Policy>, st: LoopState, st': LoopState, trims: seq<Said>,
                                         turn: nat, name: string)
    requires Faithful(initial, st) && OfTrims(trims, turn, name)
    requires st'.policies == st.policies && st'.heard == st.heard + trims
    ensures Faithful(initial, st')
    decreases |trims|
  {
    hide HooksTo, PolicyAfter, OwnAnswer;
    if trims == [] {
      assert st'.heard == st.heard;
    } else {
      var n := |trims| - 1;
      var mid := st.(heard := st.heard + trims[..n]);
      TrimsFaithful(initial, st, mid, trims[..n], turn, name);
      assert st'.heard == mid.heard + [trims[n]];
      TrimAddsNoQuestion(initial, mid.heard, trims[n]);
      PrefixesPush(mid.heard, trims[n]);
      forall j | 0 <= j < |initial| ensures HooksTo(st'.heard, j) == HooksTo(mid.heard, j) {
        HooksToPush(mid.heard, trims[n], j);
        assert HooksTo(mid.heard, j) + [] == HooksTo(mid.heard, j);
      }
    }
  }

  lemma TrimAddsNoQuestion(initial: seq<Policy>, before: seq<Said>, s: Said)
    requires !s.Answer?
    ensures OwnAnswer(initial, before, s)
  {
  }

  // ---------- before a turn ----------

  /** One policy asked before a turn, and what it did. */
  lemma OneBefore(cfg: Config, initial: seq<Policy>, turn: nat, i: nat, st: LoopState, plan: Plan)
    returns (s: Said, trims: seq<Said>)
    requires i < |st.policies| && Faithful(initial, st)
    ensures var (st', plan') := BeforePolicy(cfg, turn, i, st, plan);
      && Grew(cfg, st, st', [s] + trims)
      && AskedAt(cfg, s, i, BeforeTurn, turn) && s.hook.state.stats == st.stats && OfTrims(trims, turn, s.name)
      && s.Answer? && s.hook.state.converging == plan.converging
      && Granted(plan, WishOf(s).And(WishSaid(trims)), plan')
      && Faithful(initial, st') && st'.stats == st.stats && |st'.policies| == |st.policies|
  {
    hide Respond, ApplyAllBefore, Grew, Granted, Faithful, WishIn;
    var hook := BeforeHook(StateFor(cfg, turn, st, plan.converging));
    var (p, actions) := Respond(st.policies[i], hook);
    var told := Told(st, i, p, hook, actions);
    s := Answer(i, p.Name(), hook, actions);
    ToldFaithful(initial, st, i, hook);
    BaseSpecsAreAll(cfg);
    trims := ApplyAllBeforeSays(cfg, hook, p.Name(), actions, told, plan);
    ApplyAllBeforeKeeps(cfg, turn, p.Name(), actions, told, plan);
    var st1 := BeforePolicy(cfg, turn, i, st, plan).0;
    AnswerGrew(cfg, st, i, p, hook, actions, st1, trims);
    LoggedTrims(cfg, told, st1, hook, p.Name(), actions, trims);
    TrimsFaithful(initial, told, st1, trims, turn, p.Name());
  }

  lemma {:induction false} BeforeSays(cfg: Config, initial: seq<Policy>, turn: nat, i: nat, st: LoopState, plan: Plan)
    returns (said: seq<Said>)
    requires i <= |st.policies| && Faithful(initial, st)
    ensures var (st', plan') := BeforeFrom(cfg, turn, i, st, plan);
      && Grew(cfg, st, st', said)
      && Round(cfg, said, BeforeTurn, turn, i, |st.policies|)
      && (forall s | s in said && s.Answer? :: s.hook.state.stats == st.stats)
      && Forewarned(plan.converging, said)
      && Granted(plan, WishSaid(said), plan')
      && Faithful(initial, st') && st'.stats == st.stats
    decreases |st.policies| - i
  {
    hide BeforePolicy, Grew, Combined, Round, Faithful, WishOf, AskedAt;
    if i == |st.policies| {
      said := [];
      GrewNothing(cfg, st);
      GrantedNothing(plan);
      NoRound(cfg, BeforeTurn, turn, i);
    } else {
      var s, trims := OneBefore(cfg, initial, turn, i, st, plan);
      var (st1, plan1) := BeforePolicy(cfg, turn, i, st, plan);
      var (st2, plan2) := BeforeFrom(cfg, turn, i, st, plan);
      var more := BeforeSays(cfg, initial, turn, i + 1, st1, plan1);
      said := [s] + trims + more;
      GrewThen(cfg, st, st1, st2, [s] + trims, more);
      RoundCons(cfg, s, trims, more, BeforeTurn, turn, i, |st.policies|, s.name);
      WishConcat([s] + trims, more);
      WishConcat([s], trims);
      WishOne(s);
      GrantedThen(plan, WishSaid([s] + trims), plan1, WishSaid(more), plan2);
      ForewarnedCons(plan.converging, s, trims, more, turn);
      assert forall x :: x in said <==> x == s || x in trims || x in more;
    }
  }

  /** Each policy is told whether an earlier one has made the turn converge. */
  predicate Forewarned(converging: bool, said: seq<Said>) {
    forall k | 0 <= k < |said| && said[k].Answer? ::
      said[k].hook.state.converging == (converging || WishSaid(said[..k]).converge)
  }

  lemma ForewarnedCons(converging: bool, s: Said, trims: seq<Said>, more: seq<Said>, turn: nat)
    requires s.Answer? && s.hook.state.converging == converging && OfTrims(trims, turn, s.name)
    requires Forewarned(converging || WishSaid([s] + trims).converge, more)
    ensures Forewarned(converging, [s] + trims + more)
  {
    hide WishOf;
    var all, first := [s] + trims + more, [s] + trims;
    forall k | 0 < k < |first| ensures !all[k].Answer? {
      assert all[k] == trims[k - 1] && trims[k - 1] in trims;
    }
    forall k | 0 <= k < |all| && all[k].Answer?
      ensures all[k].hook.state.converging == (converging || WishSaid(all[..k]).converge)
    {
      if k >= |first| {
        var j := k - |first|;
        assert all[k] == more[j] && all[..k] == first + more[..j];
        WishConcat(first, more[..j]);
      }
    }
  }

  lemma NoRound(cfg: Config, moment: Moment, turn: nat, n: nat)
    ensures Round(cfg, [], moment, turn, n, n)
  {
  }

  lemma LoggedTrims(cfg: Config, st: LoopState, st': LoopState, hook: Hook, name: string, actions: seq<PolicyAction>,
                    trims: seq<Said>)
    requires Added(cfg, st, st', ActionsDelta(hook, name, actions).And(Sum(trims)))
    ensures st'.heard == st.heard + trims
  {
    hide ActionsDelta, Sum, Voices, NudgeVoices;
    NothingLogged(hook, name, actions);
    SumSaid(trims);
  }

  // ---------- after a turn ----------

  predicate Rejects(actions: seq<PolicyAction>) {
    exists a | a in actions :: a.RejectFinish?
  }

  /** Some policy, asked after that turn, rejected finishing with it. */
  predicate RejectSaid(said: seq<Said>, turn: nat) {
    exists s | s in said :: s.Answer? && s.hook.AfterHook? && s.hook.state.turn == turn && Rejects(s.actions)
  }

  /** The findings count after these actions: the last one set, if any. */
  function FindingsIn(count: nat, actions: seq<PolicyAction>): nat
    decreases |actions|
  {
    if actions == [] then count
    else FindingsIn(if actions[0].SetFindings? then actions[0].count else count, actions[1..])
  }

  /** The last count that a policy, asked after a turn, has set. */
  function FindingsSaid(said: seq<Said>): nat {
    if said == [] then 0
    else
      var before, last := FindingsSaid(said[..|said| - 1]), said[|said| - 1];
      if last.Answer? && last.hook.AfterHook? then FindingsIn(before, last.actions) else before
  }

  lemma FindingsPush(said: seq<Said>, s: Said)
    ensures FindingsSaid(said + [s])
      == if s.Answer? && s.hook.AfterHook? then FindingsIn(FindingsSaid(said), s.actions) else FindingsSaid(said)
  {
    assert (said + [s])[..|said|] == said;
  }

  lemma ApplyAfterSays(cfg: Config, hook: Hook, name: string, a: PolicyAction, st: LoopState, reject: bool)
    requires hook.AfterHook?
    ensures var (st', reject') := ApplyAfter(cfg, hook.state.turn, name, a, st, reject);
      && Added(cfg, st, st', ActionDelta(hook, name, a))
      && reject' == (reject || a.RejectFinish?)
      && st'.policies == st.policies
      && st'.stats.findingsRecorded == if a.SetFindings? then a.count else st.stats.findingsRecorded
  {
    hide Added;
    AddedNothing(cfg, st);
    match a
    case Inject(n) => NudgedAdds(cfg, st, name, n);
    case RejectFinish(n) => NudgedAdds(cfg, st, name, n);
    case Record(event, detail) => RecordedAdds(cfg, st, PolicyEvent(hook.state.turn, event.GetOr(name), detail));
    case SetFindings(count) => FindingsAdd(cfg, st, count);
    case _ =>
  }

  lemma {:induction false} ApplyAllAfterSays(cfg: Config, hook: Hook, name: string, actions: seq<PolicyAction>,
                                             st: LoopState, reject: bool)
    requires hook.AfterHook?
    ensures var (st', reject') := ApplyAllAfter(cfg, hook.state.turn, name, actions, st, reject);
      && Added(cfg, st, st', ActionsDelta(hook, name, actions))
      && reject' == (reject || Rejects(actions))
      && st'.policies == st.policies
      && st'.stats.findingsRecorded == FindingsIn(st.stats.findingsRecorded, actions)
    decreases |actions|
  {
    hide Added, ApplyAfter, ActionDelta;
    if actions == [] {
      AddedNothing(cfg, st);
    } else {
      var (st1, reject1) := ApplyAfter(cfg, hook.state.turn, name, actions[0], st, reject);
      ApplyAfterSays(cfg, hook, name, actions[0], st, reject);
      ApplyAllAfterSays(cfg, hook, name, actions[1..], st1, reject1);
      AddedThen(cfg, st, st1, ApplyAllAfter(cfg, hook.state.turn, name, actions, st, reject).0,
                ActionDelta(hook, name, actions[0]), ActionsDelta(hook, name, actions[1..]));
      assert Rejects(actions) <==> actions[0].RejectFinish? || Rejects(actions[1..]) by {
        assert actions == [actions[0]] + actions[1..];
      }
    }
  }

  /** The conversation ends with that turn, answered so far as it went on, but for nudges after it. */
  ghost predicate ShowsTurn(messages: seq<ChatMessage>, assistant: ChatMessage, results: seq<ToolCallResult>) {
    exists n | 0 <= n <= |messages| ::
      EndsWithTurn(messages[..n], assistant, results) && forall i | n <= i < |messages| :: messages[i].role == "user"
  }

  /** The entry is an answer of a policy that was shown the turn, what came of it, and whether it converged. */
  ghost predicate Judges(s: Said, converging: bool, outcome: TurnOutcome) {
    && s.Answer? && s.hook.AfterHook? && s.hook.outcome == outcome && s.hook.state.converging == converging
    && ShowsTurn(s.hook.state.messages, outcome.assistant, outcome.results)
  }

  lemma TurnShows(messages: seq<ChatMessage>, assistant: ChatMessage, results: seq<ToolCallResult>)
    requires EndsWithTurn(messages, assistant, results)
    ensures ShowsTurn(messages, assistant, results)
  {
    hide EndsWithTurn;
    assert messages[..|messages|] == messages;
  }

  lemma NudgeShows(messages: seq<ChatMessage>, text: string, assistant: ChatMessage, results: seq<ToolCallResult>)
    requires ShowsTurn(messages, assistant, results)
    ensures ShowsTurn(messages + [UserMessage(text)], assistant, results)
  {
    hide EndsWithTurn;
    var n :| 0 <= n <= |messages| && EndsWithTurn(messages[..n], assistant, results)
      && forall i | n <= i < |messages| :: messages[i].role == "user";
    assert (messages + [UserMessage(text)])[..n] == messages[..n];
  }

  lemma {:induction false} ActionsShow(cfg: Config, turn: nat, name: string, actions: seq<PolicyAction>, st: LoopState,
                                       reject: bool, assistant: ChatMessage, results: seq<ToolCallResult>)
    requires ShowsTurn(st.messages, assistant, results)
    ensures ShowsTurn(ApplyAllAfter(cfg, turn, name, actions, st, reject).0.messages, assistant, results)
    decreases |actions|
  {
    hide ShowsTurn;
    if actions != [] {
      match actions[0] {
        case Inject(nudge) => NudgeShows(st.messages, cfg.wording(nudge), assistant, results);
        case RejectFinish(nudge) => NudgeShows(st.messages, cfg.wording(nudge), assistant, results);
        case _ =>
      }
      var (st', reject') := ApplyAfter(cfg, turn, name, actions[0], st, reject);
      ActionsShow(cfg, turn, name, actions[1..], st', reject', assistant, results);
    }
  }

  lemma {:induction false} AfterSays(cfg: Config, initial: seq<Policy>, turn: nat, converging: bool,
                                     outcome: TurnOutcome, i: nat, st: LoopState, reject: bool)
    returns (said: seq<Said>)
    requires i <= |st.policies| && Faithful(initial, st) && st.stats.findingsRecorded == FindingsSaid(st.heard)
    requires ShowsTurn(st.messages, outcome.assistant, outcome.results)
    ensures var (st', reject') := AfterFrom(cfg, turn, converging, outcome, i, st, reject);
      && Grew(cfg, st, st', said)
      && Round(cfg, said, AfterTurn, turn, i, |st.policies|)
      && (forall s | s in said :: Judges(s, converging, outcome))
      && reject' == (reject || RejectSaid(said, turn))
      && Faithful(initial, st') && st'.stats.findingsRecorded == FindingsSaid(st'.heard)
    decreases |st.policies| - i
  {
    hide Respond, ApplyAllAfter, Grew, Round, Faithful, Rejects, ShowsTurn;
    if i == |st.policies| {
      said := [];
      GrewNothing(cfg, st);
      NoRound(cfg, AfterTurn, turn, i);
    } else {
      var hook := AfterHook(StateFor(cfg, turn, st, converging), outcome);
      var (p, actions) := Respond(st.policies[i], hook);
      var told := Told(st, i, p, hook, actions);
      var s := Answer(i, p.Name(), hook, actions);
      ToldFaithful(initial, st, i, hook);
      BaseSpecsAreAll(cfg);
      ApplyAllAfterSays(cfg, hook, p.Name(), actions, told, reject);
      var (st1, reject1) := ApplyAllAfter(cfg, turn, p.Name(), actions, told, reject);
      ActionsShow(cfg, turn, p.Name(), actions, told, reject, outcome.assistant, outcome.results);
      DeltaUnit(ActionsDelta(hook, p.Name(), actions));
      AnswerGrew(cfg, st, i, p, hook, actions, st1, []);
      LoggedTrims(cfg, told, st1, hook, p.Name(), actions, []);
      TrimsFaithful(initial, told, st1, [], turn, p.Name());
      FindingsPush(st.heard, s);
      assert st1.heard == st.heard + [s];
      var more := AfterSays(cfg, initial, turn, converging, outcome, i + 1, st1, reject1);
      said := [s] + [] + more;
      GrewThen(cfg, st, st1, AfterFrom(cfg, turn, converging, outcome, i, st, reject).0, [s] + [], more);
      RoundCons(cfg, s, [], more, AfterTurn, turn, i, |st.policies|, p.Name());
      assert forall x :: x in said <==> x == s || x in more;
    }
  }

  // ---------- at the end ----------

  lemma {:induction false} RecordsSay(cfg: Config, hook: Hook, name: string, actions: seq<PolicyAction>, st: LoopState)
    requires hook.FinishHook? || hook.ExhaustedHook?
    ensures var st' := ApplyRecords(hook.state.turn, name, actions, st);
      && Added(cfg, st, st', ActionsDelta(hook, name, actions))
      && st'.policies == st.policies && st'.stats == st.stats
    decreases |actions|
  {
    hide Added;
    AddedNothing(cfg, st);
    if actions != [] {
      var st1 := match actions[0]
        case Record(event, detail) => Recorded(st, PolicyEvent(hook.state.turn, event.GetOr(name), detail))
        case _ => st;
      if actions[0].Record? {
        RecordedAdds(cfg, st, PolicyEvent(hook.state.turn, actions[0].name.GetOr(name), actions[0].detail));
      }
      RecordsSay(cfg, hook, name, actions[1..], st1);
      AddedThen(cfg, st, st1, ApplyRecords(hook.state.turn, name, actions, st),
                ActionDelta(hook, name, actions[0]), ActionsDelta(hook, name, actions[1..]));
    }
  }

  /** One policy asked at the end of a run, and what it recorded. */
  lemma LastWord(cfg: Config, initial: seq<Policy>, hook: Hook, i: nat, st: LoopState)
    requires i < |st.policies| && Faithful(initial, st) && (hook.FinishHook? || hook.ExhaustedHook?)
    requires st.stats.findingsRecorded == FindingsSaid(st.heard)
    ensures var (p, actions) := Respond(st.policies[i], hook);
      var st' := ApplyRecords(hook.state.turn, p.Name(), actions, Told(st, i, p, hook, actions));
      && Grew(cfg, st, st', [Answer(i, p.Name(), hook, actions)] + [])
      && Faithful(initial, st') && st'.stats.findingsRecorded == FindingsSaid(st'.heard)
  {
    hide Respond, Grew, Faithful, ApplyRecords;
    var (p, actions) := Respond(st.policies[i], hook);
    var told := Told(st, i, p, hook, actions);
    var s := Answer(i, p.Name(), hook, actions);
    ToldFaithful(initial, st, i, hook);
    BaseSpecsAreAll(cfg);
    RecordsSay(cfg, hook, p.Name(), actions, told);
    var st' := ApplyRecords(hook.state.turn, p.Name(), actions, told);
    DeltaUnit(ActionsDelta(hook, p.Name(), actions));
    AnswerGrew(cfg, st, i, p, hook, actions, st', []);
    LoggedTrims(cfg, told, st', hook, p.Name(), actions, []);
    TrimsFaithful(initial, told, st', [], hook.state.turn, p.Name());
    FindingsPush(st.heard, s);
    assert st'.heard == st.heard + [s];
  }

  /** The entry is an answer of a policy told that the run finishes, with what came of the turn. */
  predicate Farewell(s: Said, converging: bool, outcome: TurnOutcome) {
    s.Answer? && s.hook.FinishHook? && s.hook.outcome == outcome && s.hook.state.converging == converging
  }

  lemma {:induction false} FinishSays(cfg: Config, initial: seq<Policy>, turn: nat, converging: bool,
                                      outcome: TurnOutcome, i: nat, st: LoopState) returns (said: seq<Said>)
    requires i <= |st.policies| && Faithful(initial, st) && st.stats.findingsRecorded == FindingsSaid(st.heard)
    ensures var st' := FinishFrom(cfg, turn, converging, outcome, i, st);
      && Grew(cfg, st, st', said)
      && Round(cfg, said, OnFinish, turn, i, |st.policies|)
      && (forall s | s in said :: Farewell(s, converging, outcome))
      && Faithful(initial, st') && st'.stats.findingsRecorded == FindingsSaid(st'.heard)
    decreases |st.policies| - i
  {
    hide Respond, ApplyRecords, Grew, Round, Faithful;
    if i == |st.policies| {
      said := [];
      GrewNothing(cfg, st);
      NoRound(cfg, OnFinish, turn, i);
    } else {
      var hook := FinishHook(StateFor(cfg, turn, st, converging), outcome);
      var (p, actions) := Respond(st.policies[i], hook);
      var s := Answer(i, p.Name(), hook, actions);
      LastWord(cfg, initial, hook, i, st);
      BaseSpecsAreAll(cfg);
      var st1 := ApplyRecords(turn, p.Name(), actions, Told(st, i, p, hook, actions));
      var more := FinishSays(cfg, initial, turn, converging, outcome, i + 1, st1);
      said := [s] + [] + more;
      GrewThen(cfg, st, st1, FinishFrom(cfg, turn, converging, outcome, i, st), [s] + [], more);
      RoundCons(cfg, s, [], more, OnFinish, turn, i, |st.policies|, p.Name());
      assert forall x :: x in said <==> x == s || x in more;
    }
  }

  lemma {:induction false} ExhaustedSays(cfg: Config, initial: seq<Policy>, i: nat, st: LoopState)
    returns (said: seq<Said>)
    requires i <= |st.policies| && Faithful(initial, st) && st.stats.findingsRecorded == FindingsSaid(st.heard)
    ensures var st' := ExhaustedFrom(cfg, i, st);
      && Grew(cfg, st, st', said)
      && Round(cfg, said, OnExhausted, cfg.limits.maxTurns, i, |st.policies|)
      && (forall s | s in said :: s.Answer? && s.hook.ExhaustedHook?)
      && Faithful(initial, st') && st'.stats.findingsRecorded == FindingsSaid(st'.heard)
    decreases |st.policies| - i
  {
    hide Respond, ApplyRecords, Grew, Round, Faithful;
    var turn := cfg.limits.maxTurns;
    if i == |st.policies| {
      said := [];
      GrewNothing(cfg, st);
      NoRound(cfg, OnExhausted, turn, i);
    } else {
      var hook := ExhaustedHook(StateFor(cfg, turn, st, true));
      var (p, actions) := Respond(st.policies[i], hook);
      var s := Answer(i, p.Name(), hook, actions);
      LastWord(cfg, initial, hook, i, st);
      BaseSpecsAreAll(cfg);
      var st1 := ApplyRecords(turn, p.Name(), actions, Told(st, i, p, hook, actions));
      var more := ExhaustedSays(cfg, initial, i + 1, st1);
      said := [s] + [] + more;
      GrewThen(cfg, st, st1, ExhaustedFrom(cfg, i, st), [s] + [], more);
      RoundCons(cfg, s, [], more, OnExhausted, turn, i, |st.policies|, p.Name());
      assert forall x :: x in said <==> x == s || x in more;
    }
  }
}
