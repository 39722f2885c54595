/**
 What the policies' answers do to a run. Each phase in which policies are asked leaves in the state exactly what they
 said: the nudges on the conversation, the records in the transcript, and, before a turn, its plan.
 */
module LoopSaid {
  import opened Wrappers
  import opened AgentTypes
  import opened ToolSurface
  import opened Budget
  import opened Policies
  import opened LoopMachine

  // ---------- what was said ----------

  /** What comes of something said: log entries, nudges passed on, records made. */
  datatype Delta = Delta(said: seq<Said>, nudges: multiset<(string, Nudge)>, events: multiset<TranscriptEvent>) {
    function And(d: Delta): Delta {
      Delta(said + d.said, nudges + d.nudges, events + d.events)
    }
  }

  const NO_DELTA := Delta([], multiset{}, multiset{})

  /** One action of a policy's answer. Which actions count depends on when the policy was asked. */
  function ActionDelta(hook: Hook, name: string, a: PolicyAction): Delta {
    match a
    case Inject(n) => if hook.BeforeHook? || hook.AfterHook? then NO_DELTA.(nudges := multiset{(name, n)}) else NO_DELTA
    case Converge(_, n) => if hook.BeforeHook? then NO_DELTA.(nudges := multiset{(name, n)}) else NO_DELTA
    case RejectFinish(n) => if hook.AfterHook? then NO_DELTA.(nudges := multiset{(name, n)}) else NO_DELTA
    case Record(event, detail) =>
      NO_DELTA.(events := multiset{PolicyEvent(hook.state.turn, event.GetOr(name), detail)})
    case _ => NO_DELTA
  }

  function ActionsDelta(hook: Hook, name: string, actions: seq<PolicyAction>): Delta {
    if actions == [] then NO_DELTA
    else ActionDelta(hook, name, actions[0]).And(ActionsDelta(hook, name, actions[1..]))
  }

  function DeltaOf(s: Said): Delta {
    match s
    case Answer(_, name, hook, actions) => ActionsDelta(hook, name, actions).(said := [s])
    case Trimmed(turn, name, count) => Delta([s], multiset{}, multiset{PolicyEvent(turn, name, TrimmedDetail(count))})
    case StillOver(turn, name, c) =>
      Delta([s], if c.nudge.Some? then multiset{(name, c.nudge.value)} else multiset{},
            if c.detail.Some? then multiset{PolicyEvent(turn, "wind_down", c.detail.value)} else multiset{})
  }

  function Sum(said: seq<Said>): Delta {
    if said == [] then NO_DELTA else Sum(said[..|said| - 1]).And(DeltaOf(said[|said| - 1]))
  }

  lemma {:induction false} SumConcat(a: seq<Said>, b: seq<Said>)
    ensures Sum(a + b) == Sum(a).And(Sum(b))
    decreases |b|
  {
    hide DeltaOf;
    if b == [] {
      assert a + b == a;
      DeltaUnit(Sum(a));
    } else {
      assert (a + b)[..|a + b| - 1] == a + b[..|b| - 1];
      SumConcat(a, b[..|b| - 1]);
      DeltaAssoc(Sum(a), Sum(b[..|b| - 1]), DeltaOf(b[|b| - 1]));
    }
  }

  lemma DeltaUnit(d: Delta)
    ensures d.And(NO_DELTA) == d && NO_DELTA.And(d) == d
  {
  }

  lemma DeltaAssoc(a: Delta, b: Delta, c: Delta)
    ensures a.And(b).And(c) == a.And(b.And(c))
  {
    assert (a.said + b.said) + c.said == a.said + (b.said + c.said);
  }

  lemma SumOne(s: Said)
    ensures Sum([s]) == DeltaOf(s)
  {
    hide DeltaOf;
    assert [s][..0] == [];
    DeltaUnit(DeltaOf(s));
  }

  lemma DeltaOfSaid(s: Said)
    ensures DeltaOf(s).said == [s]
  {
  }

  lemma {:induction false} SumSaid(said: seq<Said>)
    ensures Sum(said).said == said
  {
    hide DeltaOf;
    if said != [] {
      var front, last := said[..|said| - 1], said[|said| - 1];
      SumSaid(front);
      DeltaOfSaid(last);
      assert said == front + [last];
    }
  }

  // ---------- the conversation but for tool messages ----------

  function Voices(messages: seq<ChatMessage>): multiset<ChatMessage> {
    if messages == [] then multiset{}
    else
      var last := messages[|messages| - 1];
      Voices(messages[..|messages| - 1]) + if last.role == TOOL_ROLE then multiset{} else multiset{last}
  }

  function NudgeVoices(cfg: Config, nudges: seq<(string, Nudge)>): multiset<ChatMessage> {
    if nudges == [] then multiset{}
    else
      var text := cfg.wording(nudges[|nudges| - 1].1);
      NudgeVoices(cfg, nudges[..|nudges| - 1]) + multiset{ChatMessage("user", Some(text), [], None)}
  }

  lemma VoicesPush(messages: seq<ChatMessage>, m: ChatMessage)
    ensures Voices(messages + [m]) == Voices(messages) + if m.role == TOOL_ROLE then multiset{} else multiset{m}
  {
    assert (messages + [m])[..|messages|] == messages;
  }

  lemma {:induction false} NudgeVoicesConcat(cfg: Config, a: seq<(string, Nudge)>, b: seq<(string, Nudge)>)
    ensures NudgeVoices(cfg, a + b) == NudgeVoices(cfg, a) + NudgeVoices(cfg, b)
    decreases |b|
  {
    if b == [] {
      assert a + b == a;
    } else {
      assert (a + b)[..|a + b| - 1] == a + b[..|b| - 1];
      NudgeVoicesConcat(cfg, a, b[..|b| - 1]);
    }
  }

  lemma {:induction false} StubsAreMute(before: seq<ChatMessage>, after: seq<ChatMessage>)
    requires OnlyStubs(before, after)
    ensures Voices(after) == Voices(before)
  {
    if before != [] {
      var n := |before| - 1;
      assert forall i | 0 <= i < n :: before[..n][i] == before[i] && after[..n][i] == after[i];
      StubsAreMute(before[..n], after[..n]);
    }
  }

  // ---------- one piece of a phase ----------

  /** From `st` to `st'` exactly this was said, nudged and recorded; the rest of the run's tallies stayed. */
  ghost predicate Added(cfg: Config, st: LoopState, st': LoopState, d: Delta) {
    && st'.heard == st.heard + d.said
    && st.nudges <= st'.nudges && multiset(st'.nudges[|st.nudges|..]) == d.nudges
    && Voices(st'.messages) == Voices(st.messages) + NudgeVoices(cfg, st'.nudges[|st.nudges|..])
    && st.transcript <= st'.transcript && multiset(st'.transcript[|st.transcript|..]) == d.events
    && (forall e | e in d.events :: e.PolicyEvent?)
    && st'.completed == st.completed && st'.consecutiveFailures == st.consecutiveFailures
    && st'.contextOverflow == st.contextOverflow
    && st'.stats == st.stats.(findingsRecorded := st'.stats.findingsRecorded)
  }

  lemma AddedNothing(cfg: Config, st: LoopState)
    ensures Added(cfg, st, st, NO_DELTA)
  {
    assert st.nudges[|st.nudges|..] == [] && st.transcript[|st.transcript|..] == [];
  }

  lemma AddedThen(cfg: Config, a: LoopState, b: LoopState, c: LoopState, d: Delta, d': Delta)
    requires Added(cfg, a, b, d) && Added(cfg, b, c, d')
    ensures Added(cfg, a, c, d.And(d'))
  {
    hide Voices, NudgeVoices;
    assert c.nudges[|a.nudges|..] == b.nudges[|a.nudges|..] + c.nudges[|b.nudges|..];
    assert c.transcript[|a.transcript|..] == b.transcript[|a.transcript|..] + c.transcript[|b.transcript|..];
    NudgeVoicesConcat(cfg, b.nudges[|a.nudges|..], c.nudges[|b.nudges|..]);
  }

  lemma NudgedAdds(cfg: Config, st: LoopState, name: string, nudge: Nudge)
    ensures Added(cfg, st, Nudged(cfg, st, name, nudge), NO_DELTA.(nudges := multiset{(name, nudge)}))
  {
    var st' := Nudged(cfg, st, name, nudge);
    VoicesPush(st.messages, UserMessage(cfg.wording(nudge)));
    assert st'.nudges[|st.nudges|..] == [(name, nudge)] && [(name, nudge)][..0] == [];
    assert st'.transcript[|st.transcript|..] == [];
  }

  lemma RecordedAdds(cfg: Config, st: LoopState, event: TranscriptEvent)
    requires event.PolicyEvent?
    ensures Added(cfg, st, Recorded(st, event), NO_DELTA.(events := multiset{event}))
  {
    var st' := Recorded(st, event);
    assert st'.nudges[|st.nudges|..] == [] && st'.transcript[|st.transcript|..] == [event];
  }

  lemma NotedAdds(cfg: Config, st: LoopState, said: Said)
    ensures Added(cfg, st, Noted(st, said), NO_DELTA.(said := [said]))
  {
    assert st.nudges[|st.nudges|..] == [] && st.transcript[|st.transcript|..] == [];
  }

  lemma ToldAdds(cfg: Config, st: LoopState, i: nat, p: Policy, hook: Hook, actions: seq<PolicyAction>)
    requires i < |st.policies|
    ensures Added(cfg, st, Told(st, i, p, hook, actions), NO_DELTA.(said := [Answer(i, p.Name(), hook, actions)]))
  {
    assert st.nudges[|st.nudges|..] == [] && st.transcript[|st.transcript|..] == [];
  }

  lemma FindingsAdd(cfg: Config, st: LoopState, count: nat)
    ensures Added(cfg, st, st.(stats := st.stats.(findingsRecorded := count)), NO_DELTA)
  {
    assert st.nudges[|st.nudges|..] == [] && st.transcript[|st.transcript|..] == [];
  }

  lemma TrimAdds(cfg: Config, st: LoopState, tools: seq<ToolSpec>, target: nat)
    ensures Added(cfg, st, st.(messages := Trimming(st.messages, tools, target).messages), NO_DELTA)
  {
    hide EstimateTokens, Eligible;
    var _ := TrimmingMeaning(st.messages, tools, target);
    StubsAreMute(st.messages, Trimming(st.messages, tools, target).messages);
    assert st.nudges[|st.nudges|..] == [] && st.transcript[|st.transcript|..] == [];
  }

  // ---------- plans ----------

  ghost predicate Forces(filters: set<TurnFilter>, name: string) {
    exists f | f in filters :: name in f.forced
  }

  ghost predicate Blocks(filters: set<TurnFilter>, kind: ToolKind) {
    exists f | f in filters :: kind in f.blocked
  }

  predicate AllAllow(filters: set<TurnFilter>, name: string) {
    forall f | f in filters :: f.Allows(name)
  }

  /** `after` offers what `before` and all these filters together offer. */
  ghost predicate Combined(before: TurnFilter, filters: set<TurnFilter>, after: TurnFilter) {
    && (forall name :: name in after.forced <==> name in before.forced || Forces(filters, name))
    && (forall kind :: kind in after.blocked <==> kind in before.blocked || Blocks(filters, kind))
    && (forall name :: after.Allows(name) <==> before.Allows(name) && AllAllow(filters, name))
  }

  lemma CombinedNone(f: TurnFilter)
    ensures Combined(f, {}, f)
  {
  }

  lemma CombinedOne(before: TurnFilter, f: TurnFilter)
    ensures Combined(before, {f}, before.Narrow(f))
  {
    assert f in {f};
  }

  lemma CombinedThen(a: TurnFilter, fs: set<TurnFilter>, b: TurnFilter, gs: set<TurnFilter>, c: TurnFilter)
    requires Combined(a, fs, b) && Combined(b, gs, c)
    ensures Combined(a, fs + gs, c)
  {
    hide TurnFilter.Allows;
    UnionSays(fs, gs);
    hide Forces, Blocks, AllAllow;
  }

  lemma UnionSays(fs: set<TurnFilter>, gs: set<TurnFilter>)
    ensures forall name :: Forces(fs + gs, name) <==> Forces(fs, name) || Forces(gs, name)
    ensures forall kind :: Blocks(fs + gs, kind) <==> Blocks(fs, kind) || Blocks(gs, kind)
    ensures forall name :: AllAllow(fs + gs, name) <==> AllAllow(fs, name) && AllAllow(gs, name)
  {
    hide TurnFilter.Allows;
    assert forall f :: f in fs + gs <==> f in fs || f in gs;
  }

  /** What actions or answers ask of a plan. */
  datatype Wish = Wish(filters: set<TurnFilter>, converge: bool, guard: bool, finish: bool) {
    function And(other: Wish): Wish {
      Wish(filters + other.filters, converge || other.converge, guard || other.guard, finish || other.finish)
    }
  }

  const NO_WISH := Wish({}, false, false, false)

  function WishOfAction(a: PolicyAction): Wish {
    match a
    case Narrow(f) => NO_WISH.(filters := {f})
    case Converge(f, _) => NO_WISH.(filters := {f}, converge := true)
    case GuardOffered => NO_WISH.(guard := true)
    case ForceFinish => NO_WISH.(finish := true)
    case _ => NO_WISH
  }

  function WishIn(actions: seq<PolicyAction>): Wish {
    if actions == [] then NO_WISH else WishOfAction(actions[0]).And(WishIn(actions[1..]))
  }

  function WishOf(s: Said): Wish {
    match s
    case Answer(_, _, hook, actions) => if hook.BeforeHook? then WishIn(actions) else NO_WISH
    case Trimmed(_, _, _) => NO_WISH
    case StillOver(_, _, c) => NO_WISH.(filters := {c.filter}, converge := true)
  }

  function WishSaid(said: seq<Said>): Wish {
    if said == [] then NO_WISH else WishSaid(said[..|said| - 1]).And(WishOf(said[|said| - 1]))
  }

  lemma WishUnit(w: Wish)
    ensures w.And(NO_WISH) == w && NO_WISH.And(w) == w
  {
  }

  lemma {:induction false} WishConcat(a: seq<Said>, b: seq<Said>)
    ensures WishSaid(a + b) == WishSaid(a).And(WishSaid(b))
    decreases |b|
  {
    hide WishOf;
    if b == [] {
      assert a + b == a;
      WishUnit(WishSaid(a));
    } else {
      assert (a + b)[..|a + b| - 1] == a + b[..|b| - 1];
      WishConcat(a, b[..|b| - 1]);
    }
  }

  lemma WishOne(s: Said)
    ensures WishSaid([s]) == WishOf(s)
  {
    hide WishOf;
    assert [s][..0] == [];
    WishUnit(WishOf(s));
  }

  /** The plan grants exactly what is wished of it, on top of what it already was. */
  ghost predicate Granted(plan: Plan, w: Wish, plan': Plan) {
    && Combined(plan.filter, w.filters, plan'.filter)
    && plan'.converging == (plan.converging || w.converge)
    && plan'.guardOffered == (plan.guardOffered || w.guard)
    && plan'.forceFinish == (plan.forceFinish || w.finish)
  }

  lemma GrantedNothing(plan: Plan)
    ensures Granted(plan, NO_WISH, plan)
  {
    CombinedNone(plan.filter);
  }

  lemma GrantedThen(a: Plan, w: Wish, b: Plan, w': Wish, c: Plan)
    requires Granted(a, w, b) && Granted(b, w', c)
    ensures Granted(a, w.And(w'), c)
  {
    hide Combined;
    CombinedThen(a.filter, w.filters, b.filter, w'.filters, c.filter);
  }

  // ---------- before a turn ----------

  /** Entries the loop itself makes for trims a policy of that name asked for. */
  predicate OfTrims(said: seq<Said>, turn: nat, name: string) {
    forall s | s in said :: !s.Answer? && s.turn == turn && s.name == name
  }

  /** A trim that replaced something is recorded, and nothing else comes of it. */
  lemma TrimPartSays(cfg: Config, turn: nat, name: string, target: nat, st: LoopState) returns (said: seq<Said>)
    ensures var count := Trimming(st.messages, BaseSpecs(cfg), target).trimmed;
      && said == (if count > 0 then [Trimmed(turn, name, count)] else [])
      && Added(cfg, st, TrimNow(cfg, turn, name, target, st), Sum(said))
  {
    hide Added, Trimming, BaseSpecs, Voices;
    var trim := Trimming(st.messages, BaseSpecs(cfg), target);
    var s0 := st.(messages := trim.messages);
    TrimAdds(cfg, st, BaseSpecs(cfg), target);
    said := [];
    if trim.trimmed > 0 {
      var note, event := Trimmed(turn, name, trim.trimmed), PolicyEvent(turn, name, TrimmedDetail(trim.trimmed));
      said := [note];
      RecordedAdds(cfg, s0, event);
      NotedAdds(cfg, Recorded(s0, event), note);
      var d, d' := NO_DELTA.(events := multiset{event}), NO_DELTA.(said := [note]);
      AddedThen(cfg, s0, Recorded(s0, event), Noted(Recorded(s0, event), note), d, d');
      AddedThen(cfg, st, s0, Noted(Recorded(s0, event), note), NO_DELTA, d.And(d'));
      DeltaUnit(d.And(d'));
      SumOne(note);
      assert d.And(d') == DeltaOf(note);
    }
  }

  /** What a history still over its target brings with it. */
  lemma ConvergeSays(cfg: Config, turn: nat, name: string, c: Convergence, s1: LoopState)
    ensures Added(cfg, s1, ConvergeOn(cfg, turn, name, c, s1), DeltaOf(StillOver(turn, name, c)))
  {
    hide Added;
    var note := StillOver(turn, name, c);
    var nudged, recorded := NO_DELTA.(nudges := DeltaOf(note).nudges), NO_DELTA.(events := DeltaOf(note).events);
    var s2 := if c.nudge.Some? then Nudged(cfg, s1, name, c.nudge.value) else s1;
    var s3 := if c.detail.Some? then Recorded(s2, PolicyEvent(turn, "wind_down", c.detail.value)) else s2;
    MaybeNudged(cfg, name, c.nudge, s1);
    MaybeRecorded(cfg, turn, c.detail, s2);
    AddedThen(cfg, s1, s2, s3, nudged, recorded);
    NotedAdds(cfg, s3, note);
    AddedThen(cfg, s1, s3, Noted(s3, note), nudged.And(recorded), NO_DELTA.(said := [note]));
    assert nudged.And(recorded).And(NO_DELTA.(said := [note])) == DeltaOf(note);
  }

  lemma MaybeNudged(cfg: Config, name: string, nudge: Option<Nudge>, st: LoopState)
    ensures if nudge.Some? then Added(cfg, st, Nudged(cfg, st, name, nudge.value),
                                      NO_DELTA.(nudges := multiset{(name, nudge.value)}))
            else Added(cfg, st, st, NO_DELTA)
  {
    hide Added;
    AddedNothing(cfg, st);
    if nudge.Some? {
      NudgedAdds(cfg, st, name, nudge.value);
    }
  }

  lemma MaybeRecorded(cfg: Config, turn: nat, detail: Option<Detail>, st: LoopState)
    ensures if detail.Some? then Added(cfg, st, Recorded(st, PolicyEvent(turn, "wind_down", detail.value)),
                                       NO_DELTA.(events := multiset{PolicyEvent(turn, "wind_down", detail.value)}))
            else Added(cfg, st, st, NO_DELTA)
  {
    hide Added;
    AddedNothing(cfg, st);
    if detail.Some? {
      RecordedAdds(cfg, st, PolicyEvent(turn, "wind_down", detail.value));
    }
  }

  lemma TrimKeepsPolicies(cfg: Config, turn: nat, name: string, target: nat, c: Option<Convergence>, st: LoopState,
                          plan: Plan)
    ensures ApplyTrim(cfg, turn, name, target, c, st, plan).0.policies == st.policies
  {
    hide EstimateTokens, Trimming, BaseSpecs;
  }

  /** A history still over its target adds what it brings to what was said before. */
  lemma OverSays(cfg: Config, turn: nat, name: string, c: Convergence, st: LoopState, s1: LoopState, said: seq<Said>,
                 plan: Plan)
    requires Added(cfg, st, s1, Sum(said)) && OfTrims(said, turn, name) && WishSaid(said) == NO_WISH
    ensures var more := said + [StillOver(turn, name, c)];
      && Added(cfg, st, ConvergeOn(cfg, turn, name, c, s1), Sum(more)) && OfTrims(more, turn, name)
      && Granted(plan, WishSaid(more), plan.(filter := plan.filter.Narrow(c.filter), converging := true))
  {
    hide Added, Granted, ConvergeOn;
    var note := StillOver(turn, name, c);
    ConvergeSays(cfg, turn, name, c, s1);
    AddedThen(cfg, st, s1, ConvergeOn(cfg, turn, name, c, s1), Sum(said), DeltaOf(note));
    SumConcat(said, [note]);
    SumOne(note);
    WishConcat(said, [note]);
    WishOne(note);
    WishUnit(WishOf(note));
    GrantedOver(plan, c.filter);
  }

  lemma ApplyTrimSays(cfg: Config, turn: nat, name: string, target: nat, c: Option<Convergence>, st: LoopState,
                      plan: Plan) returns (said: seq<Said>)
    ensures var (st', plan') := ApplyTrim(cfg, turn, name, target, c, st, plan);
      && Added(cfg, st, st', Sum(said)) && OfTrims(said, turn, name)
      && Granted(plan, WishSaid(said), plan')
      && st'.policies == st.policies
  {
    hide Added, Granted, EstimateTokens, Trimming, BaseSpecs, TrimNow, ConvergeOn, Sum, WishSaid;
    TrimKeepsPolicies(cfg, turn, name, target, c, st, plan);
    said := TrimPartSays(cfg, turn, name, target, st);
    var count := Trimming(st.messages, BaseSpecs(cfg), target).trimmed;
    GrantedNothing(plan);
    TrimsWishNothing(turn, name, count);
    var s1 := TrimNow(cfg, turn, name, target, st);
    if EstimateTokens(s1.messages, BaseSpecs(cfg)) >= target && c.Some? {
      OverSays(cfg, turn, name, c.value, st, s1, said, plan);
      said := said + [StillOver(turn, name, c.value)];
    }
  }

  lemma TrimsWishNothing(turn: nat, name: string, count: nat)
    ensures WishSaid([]) == NO_WISH && WishSaid([Trimmed(turn, name, count)]) == NO_WISH
  {
    WishOne(Trimmed(turn, name, count));
  }

  lemma GrantedOver(plan: Plan, f: TurnFilter)
    ensures Granted(plan, NO_WISH.(filters := {f}, converge := true),
                    plan.(filter := plan.filter.Narrow(f), converging := true))
  {
    CombinedOne(plan.filter, f);
  }

  lemma ApplyBeforeSays(cfg: Config, hook: Hook, name: string, a: PolicyAction, st: LoopState, plan: Plan)
    returns (said: seq<Said>)
    requires hook.BeforeHook?
    ensures var (st', plan') := ApplyBefore(cfg, hook.state.turn, name, a, st, plan);
      && Added(cfg, st, st', ActionDelta(hook, name, a).And(Sum(said)))
      && OfTrims(said, hook.state.turn, name)
      && Granted(plan, WishOfAction(a).And(WishSaid(said)), plan')
      && st'.policies == st.policies
  {
    hide Added, Combined, ApplyTrim;
    said := [];
    AddedNothing(cfg, st);
    CombinedNone(plan.filter);
    DeltaUnit(ActionDelta(hook, name, a));
    WishUnit(WishOfAction(a));
    match a
    case Narrow(f) => CombinedOne(plan.filter, f);
    case Inject(n) => NudgedAdds(cfg, st, name, n);
    case Converge(f, n) =>
      CombinedOne(plan.filter, f);
      NudgedAdds(cfg, st, name, n);
    case TrimHistory(target, c) =>
      said := ApplyTrimSays(cfg, hook.state.turn, name, target, c, st, plan);
      DeltaUnit(Sum(said));
      WishUnit(WishSaid(said));
    case Record(event, detail) => RecordedAdds(cfg, st, PolicyEvent(hook.state.turn, event.GetOr(name), detail));
    case _ =>
  }

  lemma {:induction false} ApplyAllBeforeSays(cfg: Config, hook: Hook, name: string, actions: seq<PolicyAction>,
                                              st: LoopState, plan: Plan)
    returns (said: seq<Said>)
    requires hook.BeforeHook?
    ensures var (st', plan') := ApplyAllBefore(cfg, hook.state.turn, name, actions, st, plan);
      && Added(cfg, st, st', ActionsDelta(hook, name, actions).And(Sum(said)))
      && OfTrims(said, hook.state.turn, name)
      && Granted(plan, WishIn(actions).And(WishSaid(said)), plan')
      && st'.policies == st.policies
    decreases |actions|
  {
    hide Added, Granted, ApplyBefore, ActionDelta, WishOfAction;
    if actions == [] {
      said := [];
      AddedNothing(cfg, st);
      GrantedNothing(plan);
      DeltaUnit(NO_DELTA);
      WishUnit(NO_WISH);
    } else {
      var a, rest := actions[0], actions[1..];
      var (st1, plan1) := ApplyBefore(cfg, hook.state.turn, name, a, st, plan);
      var one := ApplyBeforeSays(cfg, hook, name, a, st, plan);
      var more := ApplyAllBeforeSays(cfg, hook, name, rest, st1, plan1);
      said := one + more;
      var (st2, plan2) := ApplyAllBefore(cfg, hook.state.turn, name, actions, st, plan);
      SumConcat(one, more);
      WishConcat(one, more);
      var d, d' := ActionDelta(hook, name, a), ActionsDelta(hook, name, rest);
      var w, w' := WishOfAction(a), WishIn(rest);
      AddedThen(cfg, st, st1, st2, d.And(Sum(one)), d'.And(Sum(more)));
      GrantedThen(plan, w.And(WishSaid(one)), plan1, w'.And(WishSaid(more)), plan2);
      NothingLogged(hook, name, actions);
      MergeDeltas(d, Sum(one), d', Sum(more));
      MergeWishes(w, WishSaid(one), w', WishSaid(more));
    }
  }

  lemma {:induction false} NothingLogged(hook: Hook, name: string, actions: seq<PolicyAction>)
    ensures ActionsDelta(hook, name, actions).said == []
    ensures actions != [] ==>
      ActionDelta(hook, name, actions[0]).said == [] && ActionsDelta(hook, name, actions[1..]).said == []
  {
    if actions != [] {
      NothingLogged(hook, name, actions[1..]);
    }
  }

  lemma MergeDeltas(a: Delta, b: Delta, c: Delta, d: Delta)
    requires a.said == c.said == []
    ensures a.And(b).And(c.And(d)) == a.And(c).And(b.And(d))
  {
  }

  lemma MergeWishes(a: Wish, b: Wish, c: Wish, d: Wish)
    ensures a.And(b).And(c.And(d)) == a.And(c).And(b.And(d))
  {
  }

  // ---------- whole phases ----------

  /** What was said in a phase accounts for all it did. */
  ghost predicate Grew(cfg: Config, st: LoopState, st': LoopState, said: seq<Said>) {
    Added(cfg, st, st', Sum(said))
  }

  lemma GrewThen(cfg: Config, a: LoopState, b: LoopState, c: LoopState, s: seq<Said>, s': seq<Said>)
    requires Grew(cfg, a, b, s) && Grew(cfg, b, c, s')
    ensures Grew(cfg, a, c, s + s')
  {
    hide Added;
    SumConcat(s, s');
    AddedThen(cfg, a, b, c, Sum(s), Sum(s'));
  }

  lemma GrewNothing(cfg: Config, st: LoopState)
    ensures Grew(cfg, st, st, [])
  {
    AddedNothing(cfg, st);
  }

  /** A policy's answer and what its actions did, together. */
  lemma AnswerGrew(cfg: Config, st: LoopState, i: nat, p: Policy, hook: Hook, actions: seq<PolicyAction>,
                   st': LoopState, trims: seq<Said>)
    requires i < |st.policies|
    requires Added(cfg, Told(st, i, p, hook, actions), st', ActionsDelta(hook, p.Name(), actions).And(Sum(trims)))
    ensures Grew(cfg, st, st', [Answer(i, p.Name(), hook, actions)] + trims)
  {
    hide Added, Told, ActionsDelta;
    var s := Answer(i, p.Name(), hook, actions);
    var d := ActionsDelta(hook, p.Name(), actions);
    ToldAdds(cfg, st, i, p, hook, actions);
    AddedThen(cfg, st, Told(st, i, p, hook, actions), st', NO_DELTA.(said := [s]), d.And(Sum(trims)));
    NothingLogged(hook, p.Name(), actions);
    SumConcat([s], trims);
    SumOne(s);
    DeltaAssoc(NO_DELTA.(said := [s]), d, Sum(trims));
    assert NO_DELTA.(said := [s]).And(d) == DeltaOf(s);
  }
}
