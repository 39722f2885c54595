/**
 The shared policy stack over a whole run: what it takes away stays away, what a run needs to end is always offered,
 and each announcement is made once.
 */
module LoopConvergence {
  import opened Wrappers
  import opened AgentTypes
  import opened ToolSurface
  import opened Budget
  import opened Policies
  import opened StepRuntime
  import opened LoopMachine
  import opened LoopTurn
  import opened LoopInduction
  import opened LoopProgress
  import opened LoopTallies

  // ---------- the stack and what it blocks ----------

  /** The first four policies are the shared stack, wherever their announcements stand. */
  ghost predicate HasStack(b: Budgets, assembly: TurnFilter, policies: seq<Policy>) {
    && |policies| >= 4
    && policies[0].ContextWindowTrim? && policies[0].window == b.contextWindow
    && policies[1].WindDown? && policies[1].maxTurns == b.maxTurns && policies[1].maxBatches == b.maxBatches
    && !policies[1].windDownDisabled && policies[1].assembly == assembly
    && policies[2].ReadBudgets? && policies[2].maxFiles == b.maxFilesRead && policies[2].maxSearches == b.maxSearches
    && !policies[2].readsDisabled
    && policies[3].TurnBudget? && policies[3].halfway == b.maxTurns / 2 && !policies[3].halfwayDisabled
  }

  /** The wind-down tail: late turn or batches spent. */
  predicate TailDue(b: Budgets, turn: nat, stats: LoopStats) {
    turn >= WinddownTurn(b.maxTurns) || stats.batches >= b.maxBatches
  }

  /** The context stays over budget however much is trimmed. */
  predicate ContextOver(cfg: Config, b: Budgets, st: LoopState) {
    && b.contextWindow.Some?
    && var target := b.contextWindow.value * 3 / 4;
       EstimateTokens(Trimming(st.messages, AllSpecs(cfg), target).messages, AllSpecs(cfg)) >= target
  }

  lemma ContextOverIs(cfg: Config, b: Budgets, turn: nat, st: LoopState)
    ensures ContextOver(cfg, b, st) <==>
      b.contextWindow.Some? && RemainsOver(StateFor(cfg, turn, st, false), TrimTarget(b.contextWindow.value))
  {
    hide EstimateTokens, Trimming;
    BaseSpecsAreAll(cfg);
  }

  function BudgetBlocks(b: Budgets, stats: LoopStats): set<ToolKind> {
    (if stats.filesRead >= b.maxFilesRead then {ReadOnly(File)} else {})
    + (if stats.searches >= b.maxSearches then {ReadOnly(Retrieval)} else {})
  }

  /** Everything the stack blocks on a turn. */
  function StackBlocks(b: Budgets, turn: nat, stats: LoopStats, over: bool): set<ToolKind> {
    (if over || TailDue(b, turn, stats) then INVESTIGATION else {}) + BudgetBlocks(b, stats)
  }

  // ---------- one policy at a time ----------

  lemma ApplyAllBeforeConcat(cfg: Config, turn: nat, name: string, a: seq<PolicyAction>, c: seq<PolicyAction>,
                             st: LoopState, plan: Plan)
    ensures var (st', plan') := ApplyAllBefore(cfg, turn, name, a, st, plan);
      ApplyAllBefore(cfg, turn, name, a + c, st, plan) == ApplyAllBefore(cfg, turn, name, c, st', plan')
    decreases |a|
  {
    hide ApplyBefore;
    if a == [] {
      assert a + c == c;
    } else {
      assert (a + c)[1..] == a[1..] + c;
      var (st', plan') := ApplyBefore(cfg, turn, name, a[0], st, plan);
      ApplyAllBeforeConcat(cfg, turn, name, a[1..], c, st', plan');
    }
  }

  lemma ApplyNothing(cfg: Config, turn: nat, name: string, st: LoopState, plan: Plan)
    ensures ApplyAllBefore(cfg, turn, name, [], st, plan) == (st, plan)
  {
  }

  lemma ApplyFirst(cfg: Config, turn: nat, name: string, a: PolicyAction, rest: seq<PolicyAction>, st: LoopState,
                   plan: Plan)
    ensures var (st', plan') := ApplyBefore(cfg, turn, name, a, st, plan);
      ApplyAllBefore(cfg, turn, name, [a] + rest, st, plan) == ApplyAllBefore(cfg, turn, name, rest, st', plan')
  {
    hide ApplyBefore;
  }

  lemma ApplyOne(cfg: Config, turn: nat, name: string, a: PolicyAction, st: LoopState, plan: Plan)
    ensures ApplyAllBefore(cfg, turn, name, [a], st, plan) == ApplyBefore(cfg, turn, name, a, st, plan)
  {
    hide ApplyBefore, ApplyAllBefore;
    assert [a] + [] == [a];
    ApplyFirst(cfg, turn, name, a, [], st, plan);
    var (st', plan') := ApplyBefore(cfg, turn, name, a, st, plan);
    ApplyNothing(cfg, turn, name, st', plan');
  }

  lemma ApplyTwo(cfg: Config, turn: nat, name: string, a: PolicyAction, c: PolicyAction, st: LoopState, plan: Plan)
    ensures var (st', plan') := ApplyBefore(cfg, turn, name, a, st, plan);
      ApplyAllBefore(cfg, turn, name, [a, c], st, plan) == ApplyBefore(cfg, turn, name, c, st', plan')
  {
    hide ApplyBefore, ApplyAllBefore;
    assert [a] + [c] == [a, c];
    ApplyFirst(cfg, turn, name, a, [c], st, plan);
    var (st', plan') := ApplyBefore(cfg, turn, name, a, st, plan);
    ApplyOne(cfg, turn, name, c, st', plan');
  }

  /** The parts of a state that matter here. */
  ghost predicate Became(before: LoopState, after: LoopState, policies: seq<Policy>, nudges: seq<(string, Nudge)>) {
    after.policies == policies && after.nudges == before.nudges + nudges && after.stats == before.stats
  }

  lemma ContextStep(cfg: Config, turn: nat, st: LoopState, plan: Plan)
    requires |st.policies| >= 1 && st.policies[0].ContextWindowTrim? && !plan.converging
    ensures var p := st.policies[0];
      var over := p.window.Some?
        && RemainsOver(StateFor(cfg, turn, st, false), TrimTarget(p.window.value));
      var (st', plan') := BeforePolicy(cfg, turn, 0, st, plan);
      && Became(st, st', st.policies[0 := p.(trimAnnounced := p.trimAnnounced || over)],
               if over && !p.trimAnnounced then [("context_trim", ContextNearlyFull)] else [])
      && plan'.converging == over
      && plan'.filter == if over then plan.filter.Narrow(ConvergenceFilter()) else plan.filter
  {
    hide Trimming, EstimateTokens, ConvergenceFilter, ApplyAllBefore;
    var p := st.policies[0];
    var hook := BeforeHook(StateFor(cfg, turn, st, plan.converging));
    var (q, actions) := Respond(p, hook);
    var st0 := Told(st, 0, q, hook, actions);
    ApplyNothing(cfg, turn, "context_trim", st0, plan);
    if p.window.Some? {
      UnderTargetUntouched(st.messages, BaseSpecs(cfg), TrimTarget(p.window.value));
      if actions != [] {
        ApplyOne(cfg, turn, "context_trim", actions[0], st0, plan);
        assert actions == [actions[0]];
      }
    }
  }

  /** A history under the target is not trimmed. */
  lemma UnderTargetUntouched(messages: seq<ChatMessage>, tools: seq<ToolSpec>, target: nat)
    ensures EstimateTokens(messages, tools) < target ==> Trimming(messages, tools, target).messages == messages
  {
    hide EstimateTokens;
  }

  lemma WindDownStep(cfg: Config, turn: nat, st: LoopState, plan: Plan)
    requires |st.policies| >= 2 && st.policies[1].WindDown? && !st.policies[1].windDownDisabled
    ensures var p := st.policies[1];
      var acts := !plan.converging && (turn >= WinddownTurn(p.maxTurns) || st.stats.batches >= p.maxBatches);
      var says := acts && !p.windDownAnnounced;
      var (st', plan') := BeforePolicy(cfg, turn, 1, st, plan);
      && Became(st, st', st.policies[1 := p.(windDownAnnounced := p.windDownAnnounced || acts)],
              if says then [("wind_down", WindDownStarted(WindDownReason(StateFor(cfg, turn, st, false), p.maxTurns,
                                                                         p.maxBatches)))]
              else [])
      && plan'.converging == (plan.converging || says)
      && plan'.filter == if acts then plan.filter.Narrow(ConvergenceFilter().Narrow(p.assembly)) else plan.filter
  {
    hide ConvergenceFilter, ApplyAllBefore;
    var p := st.policies[1];
    var hook := BeforeHook(StateFor(cfg, turn, st, plan.converging));
    var (q, actions) := Respond(p, hook);
    var st0 := Told(st, 1, q, hook, actions);
    ApplyNothing(cfg, turn, "wind_down", st0, plan);
    if |actions| == 1 {
      assert actions == [actions[0]];
      ApplyOne(cfg, turn, "wind_down", actions[0], st0, plan);
    } else if |actions| == 2 {
      assert actions == [actions[0], actions[1]];
      ApplyTwo(cfg, turn, "wind_down", actions[0], actions[1], st0, plan);
    }
  }

  lemma BudgetActions(cfg: Config, turn: nat, name: string, filter: TurnFilter, event: string, detail: Detail,
                      nudge: Nudge, says: bool, st: LoopState, plan: Plan)
    ensures var actions := if says then [Narrow(filter), Record(Some(event), detail), Inject(nudge)]
                           else [Narrow(filter)];
      var (st', plan') := ApplyAllBefore(cfg, turn, name, actions, st, plan);
      && Became(st, st', st.policies, if says then [(name, nudge)] else [])
      && plan' == plan.(filter := plan.filter.Narrow(filter))
  {
    hide ApplyAllBefore;
    if says {
      var actions := [Narrow(filter), Record(Some(event), detail), Inject(nudge)];
      assert actions == [Narrow(filter)] + [Record(Some(event), detail), Inject(nudge)];
      ApplyFirst(cfg, turn, name, Narrow(filter), [Record(Some(event), detail), Inject(nudge)], st, plan);
      ApplyTwo(cfg, turn, name, Record(Some(event), detail), Inject(nudge), st,
               plan.(filter := plan.filter.Narrow(filter)));
    } else {
      ApplyOne(cfg, turn, name, Narrow(filter), st, plan);
    }
  }

  lemma ReadBudgetsStep(cfg: Config, turn: nat, st: LoopState, plan: Plan)
    requires |st.policies| >= 3 && st.policies[2].ReadBudgets? && !st.policies[2].readsDisabled
    ensures var p := st.policies[2];
      var files := !plan.converging && st.stats.filesRead >= p.maxFiles;
      var searches := !plan.converging && st.stats.searches >= p.maxSearches;
      var (st', plan') := BeforePolicy(cfg, turn, 2, st, plan);
      && Became(st, st', st.policies[2 := p.(filesAnnounced := p.filesAnnounced || files,
                                           searchesAnnounced := p.searchesAnnounced || searches)],
              (if files && !p.filesAnnounced then [("read_budgets", FilesBudgetSpent(st.stats.filesRead))] else [])
              + (if searches && !p.searchesAnnounced then [("read_budgets", SearchesBudgetSpent(st.stats.searches))]
                 else []))
      && plan'.converging == plan.converging
      && plan'.filter == (var f := if files then plan.filter.Narrow(NoFiles()) else plan.filter;
                          if searches then f.Narrow(NoSearches()) else f)
  {
    hide ApplyAllBefore, NoFiles, NoSearches;
    var p := st.policies[2];
    var files := !plan.converging && st.stats.filesRead >= p.maxFiles;
    var searches := !plan.converging && st.stats.searches >= p.maxSearches;
    var hook := BeforeHook(StateFor(cfg, turn, st, plan.converging));
    var (q, actions) := Respond(p, hook);
    var st0 := Told(st, 2, q, hook, actions);
    var fileActions :=
      if !files then []
      else if p.filesAnnounced then [Narrow(NoFiles())]
      else [Narrow(NoFiles()), Record(Some("read_file_budget"), FilesReadDetail(st.stats.filesRead)),
            Inject(FilesBudgetSpent(st.stats.filesRead))];
    var searchActions :=
      if !searches then []
      else if p.searchesAnnounced then [Narrow(NoSearches())]
      else [Narrow(NoSearches()), Record(Some("retrieval_budget"), SearchesDetail(st.stats.searches)),
            Inject(SearchesBudgetSpent(st.stats.searches))];
    assert actions == fileActions + searchActions;
    ApplyAllBeforeConcat(cfg, turn, "read_budgets", fileActions, searchActions, st0, plan);
    ApplyNothing(cfg, turn, "read_budgets", st0, plan);
    BudgetActions(cfg, turn, "read_budgets", NoFiles(), "read_file_budget", FilesReadDetail(st.stats.filesRead),
                  FilesBudgetSpent(st.stats.filesRead), !p.filesAnnounced, st0, plan);
    var (st1, plan1) := ApplyAllBefore(cfg, turn, "read_budgets", fileActions, st0, plan);
    ApplyNothing(cfg, turn, "read_budgets", st1, plan1);
    BudgetActions(cfg, turn, "read_budgets", NoSearches(), "retrieval_budget", SearchesDetail(st.stats.searches),
                  SearchesBudgetSpent(st.stats.searches), !p.searchesAnnounced, st1, plan1);
  }

  lemma TurnBudgetStep(cfg: Config, turn: nat, st: LoopState, plan: Plan)
    requires |st.policies| >= 4 && st.policies[3].TurnBudget? && !st.policies[3].halfwayDisabled
    ensures var p := st.policies[3];
      var says := !p.halfwayAnnounced && !plan.converging && 0 < p.halfway <= turn;
      var (st', plan') := BeforePolicy(cfg, turn, 3, st, plan);
      && Became(st, st', st.policies[3 := p.(halfwayAnnounced := p.halfwayAnnounced || says)],
              if says then [("halfway", PastHalfway)] else [])
      && plan' == plan
  {
    hide ApplyAllBefore;
    var p := st.policies[3];
    var hook := BeforeHook(StateFor(cfg, turn, st, plan.converging));
    var (q, actions) := Respond(p, hook);
    var st0 := Told(st, 3, q, hook, actions);
    ApplyNothing(cfg, turn, "halfway", st0, plan);
    if |actions| == 2 {
      assert actions == [actions[0], actions[1]];
      ApplyTwo(cfg, turn, "halfway", actions[0], actions[1], st0, plan);
    }
  }

  // ---------- the stack as a whole ----------

  lemma RespondKeepsStack(b: Budgets, assembly: TurnFilter, policies: seq<Policy>, i: nat, hook: Hook)
    requires HasStack(b, assembly, policies) && i < |policies|
    ensures HasStack(b, assembly, policies[i := Respond(policies[i], hook).0])
  {
    hide Trimming, EstimateTokens, ConvergenceFilter;
  }

  function BoolCount(flag: bool): nat {
    if flag then 1 else 0
  }

  datatype Announcement = ContextAnnounced | WindDownAnnounced | FilesAnnounced | SearchesAnnounced
    | HalfwayAnnounced | NotAnnounced

  function AnnouncementOf(nudge: Nudge): Announcement {
    match nudge
    case ContextNearlyFull => ContextAnnounced
    case WindDownStarted(_) => WindDownAnnounced
    case FilesBudgetSpent(_) => FilesAnnounced
    case SearchesBudgetSpent(_) => SearchesAnnounced
    case PastHalfway => HalfwayAnnounced
    case OtherNudge(_) => NotAnnounced
  }

  function TimesAnnounced(nudges: seq<(string, Nudge)>, a: Announcement): nat {
    if nudges == [] then 0
    else TimesAnnounced(nudges[..|nudges| - 1], a) + BoolCount(AnnouncementOf(nudges[|nudges| - 1].1) == a)
  }

  /** Each announcement has been made once if its policy remembers making it, and never otherwise. */
  ghost predicate AnnouncedOnce(policies: seq<Policy>, nudges: seq<(string, Nudge)>)
    requires |policies| >= 4 && policies[0].ContextWindowTrim? && policies[1].WindDown? && policies[2].ReadBudgets?
      && policies[3].TurnBudget?
  {
    && TimesAnnounced(nudges, ContextAnnounced) == BoolCount(policies[0].trimAnnounced)
    && TimesAnnounced(nudges, WindDownAnnounced) == BoolCount(policies[1].windDownAnnounced)
    && TimesAnnounced(nudges, FilesAnnounced) == BoolCount(policies[2].filesAnnounced)
    && TimesAnnounced(nudges, SearchesAnnounced) == BoolCount(policies[2].searchesAnnounced)
    && TimesAnnounced(nudges, HalfwayAnnounced) == BoolCount(policies[3].halfwayAnnounced)
  }

  lemma PushNudge(nudges: seq<(string, Nudge)>, n: (string, Nudge))
    ensures forall a ::
      TimesAnnounced(nudges + [n], a) == TimesAnnounced(nudges, a) + BoolCount(AnnouncementOf(n.1) == a)
    ensures nudges + [] == nudges
  {
    assert (nudges + [n])[..|nudges|] == nudges;
  }

  /** The stack's part of a turn: what the filter has become, and who has spoken. */
  lemma StackTurn(cfg: Config, b: Budgets, assembly: TurnFilter, turn: nat, st: LoopState)
    returns (st': LoopState, plan: Plan)
    requires HasStack(b, assembly, st.policies)
    ensures |st'.policies| == |st.policies| && HasStack(b, assembly, st'.policies)
    ensures BeforeFrom(cfg, turn, 0, st, FreshPlan(cfg)) == BeforeFrom(cfg, turn, 4, st', plan)
    ensures st'.stats == st.stats
    ensures StackBlocks(b, turn, st.stats, ContextOver(cfg, b, st)) <= plan.filter.blocked
    ensures assembly == ALL ==>
              plan.filter == cfg.initialFilter.(blocked := cfg.initialFilter.blocked
                + StackBlocks(b, turn, st.stats, ContextOver(cfg, b, st)))
    ensures plan.converging <==>
              ContextOver(cfg, b, st) || (TailDue(b, turn, st.stats) && !st.policies[1].windDownAnnounced)
    ensures AnnouncedOnce(st.policies, st.nudges) ==> AnnouncedOnce(st'.policies, st'.nudges)
  {
    hide BeforePolicy, RemainsOver, WinddownTurn, AnnouncedOnce, WindDownReason, ContextOver;
    var plan0 := FreshPlan(cfg);
    ContextOverIs(cfg, b, turn, st);
    ContextStep(cfg, turn, st, plan0);
    var (st1, plan1) := BeforePolicy(cfg, turn, 0, st, plan0);
    WindDownStep(cfg, turn, st1, plan1);
    var (st2, plan2) := BeforePolicy(cfg, turn, 1, st1, plan1);
    ReadBudgetsStep(cfg, turn, st2, plan2);
    var (st3, plan3) := BeforePolicy(cfg, turn, 2, st2, plan2);
    TurnBudgetStep(cfg, turn, st3, plan3);
    var (st4, plan4) := BeforePolicy(cfg, turn, 3, st3, plan3);
    st', plan := st4, plan4;
    Unfold4(cfg, turn, st, plan0, st1, plan1, st2, plan2, st3, plan3, st4, plan4);
    StackFilter(b, assembly, cfg.initialFilter, turn, st.stats, ContextOver(cfg, b, st), plan1, plan2, plan3,
                st.policies[1].windDownAnnounced);
    if AnnouncedOnce(st.policies, st.nudges) {
      ContextNudges(cfg, b, assembly, turn, st, plan0, st1, plan1);
      WindDownNudges(cfg, b, assembly, turn, st1, plan1, st2, plan2);
      BudgetNudges(cfg, b, assembly, turn, st2, plan2, st3, plan3);
      HalfwayNudges(cfg, b, assembly, turn, st3, plan3, st4, plan4);
    }
  }

  lemma Unfold4(cfg: Config, turn: nat, st: LoopState, plan: Plan, st1: LoopState, plan1: Plan, st2: LoopState,
                plan2: Plan, st3: LoopState, plan3: Plan, st4: LoopState, plan4: Plan)
    requires |st.policies| >= 4 && |st1.policies| == |st2.policies| == |st3.policies| == |st4.policies| == |st.policies|
    requires (st1, plan1) == BeforePolicy(cfg, turn, 0, st, plan)
    requires (st2, plan2) == BeforePolicy(cfg, turn, 1, st1, plan1)
    requires (st3, plan3) == BeforePolicy(cfg, turn, 2, st2, plan2)
    requires (st4, plan4) == BeforePolicy(cfg, turn, 3, st3, plan3)
    ensures BeforeFrom(cfg, turn, 0, st, plan) == BeforeFrom(cfg, turn, 4, st4, plan4)
  {
    hide BeforePolicy;
    assert BeforeFrom(cfg, turn, 0, st, plan) == BeforeFrom(cfg, turn, 1, st1, plan1);
    assert BeforeFrom(cfg, turn, 1, st1, plan1) == BeforeFrom(cfg, turn, 2, st2, plan2);
    assert BeforeFrom(cfg, turn, 2, st2, plan2) == BeforeFrom(cfg, turn, 3, st3, plan3);
    assert BeforeFrom(cfg, turn, 3, st3, plan3) == BeforeFrom(cfg, turn, 4, st4, plan4);
  }

  /** Whoever of the stack narrowed the filter, together they blocked what the budgets call for. */
  lemma StackFilter(b: Budgets, assembly: TurnFilter, initial: TurnFilter, turn: nat, stats: LoopStats, over: bool,
                    plan1: Plan, plan2: Plan, plan3: Plan, announced: bool)
    requires plan1.converging == over
    requires plan1.filter == if over then initial.Narrow(ConvergenceFilter()) else initial
    requires var acts := !over && TailDue(b, turn, stats);
      && plan2.converging == (over || (acts && !announced))
      && plan2.filter == if acts then plan1.filter.Narrow(ConvergenceFilter().Narrow(assembly)) else plan1.filter
    requires var files := !plan2.converging && stats.filesRead >= b.maxFilesRead;
      var searches := !plan2.converging && stats.searches >= b.maxSearches;
      plan3.filter == (var f := if files then plan2.filter.Narrow(NoFiles()) else plan2.filter;
                       if searches then f.Narrow(NoSearches()) else f)
    ensures StackBlocks(b, turn, stats, over) <= plan3.filter.blocked
    ensures assembly == ALL ==>
              plan3.filter == initial.(blocked := initial.blocked + StackBlocks(b, turn, stats, over))
  {
    hide TailDue;
  }

  lemma ContextNudges(cfg: Config, b: Budgets, assembly: TurnFilter, turn: nat, st: LoopState, plan: Plan,
                      st1: LoopState, plan1: Plan)
    requires HasStack(b, assembly, st.policies) && HasStack(b, assembly, st1.policies)
    requires AnnouncedOnce(st.policies, st.nudges) && !plan.converging
    requires (st1, plan1) == BeforePolicy(cfg, turn, 0, st, plan)
    ensures AnnouncedOnce(st1.policies, st1.nudges)
  {
    hide BeforePolicy, RemainsOver, TimesAnnounced;
    ContextStep(cfg, turn, st, plan);
    PushNudge(st.nudges, ("context_trim", ContextNearlyFull));
  }

  lemma WindDownNudges(cfg: Config, b: Budgets, assembly: TurnFilter, turn: nat, st: LoopState, plan: Plan,
                       st1: LoopState, plan1: Plan)
    requires HasStack(b, assembly, st.policies) && HasStack(b, assembly, st1.policies)
    requires AnnouncedOnce(st.policies, st.nudges)
    requires (st1, plan1) == BeforePolicy(cfg, turn, 1, st, plan)
    ensures AnnouncedOnce(st1.policies, st1.nudges)
  {
    hide BeforePolicy, WinddownTurn, TimesAnnounced, WindDownReason;
    WindDownStep(cfg, turn, st, plan);
    var p := st.policies[1];
    PushNudge(st.nudges, ("wind_down", WindDownStarted(WindDownReason(StateFor(cfg, turn, st, false), p.maxTurns,
                                                                      p.maxBatches))));
  }

  lemma BudgetNudges(cfg: Config, b: Budgets, assembly: TurnFilter, turn: nat, st: LoopState, plan: Plan,
                     st1: LoopState, plan1: Plan)
    requires HasStack(b, assembly, st.policies) && HasStack(b, assembly, st1.policies)
    requires AnnouncedOnce(st.policies, st.nudges)
    requires (st1, plan1) == BeforePolicy(cfg, turn, 2, st, plan)
    ensures AnnouncedOnce(st1.policies, st1.nudges)
  {
    hide BeforePolicy, TimesAnnounced;
    ReadBudgetsStep(cfg, turn, st, plan);
    var p := st.policies[2];
    ReadNudges(st.nudges, p.filesAnnounced, !plan.converging && st.stats.filesRead >= p.maxFiles,
               FilesBudgetSpent(st.stats.filesRead), p.searchesAnnounced,
               !plan.converging && st.stats.searches >= p.maxSearches, SearchesBudgetSpent(st.stats.searches),
               st1.nudges);
  }

  lemma HalfwayNudges(cfg: Config, b: Budgets, assembly: TurnFilter, turn: nat, st: LoopState, plan: Plan,
                      st1: LoopState, plan1: Plan)
    requires HasStack(b, assembly, st.policies) && HasStack(b, assembly, st1.policies)
    requires AnnouncedOnce(st.policies, st.nudges)
    requires (st1, plan1) == BeforePolicy(cfg, turn, 3, st, plan)
    ensures AnnouncedOnce(st1.policies, st1.nudges)
  {
    hide BeforePolicy, TimesAnnounced;
    TurnBudgetStep(cfg, turn, st, plan);
    PushNudge(st.nudges, ("halfway", PastHalfway));
  }

  lemma ReadNudges(nudges: seq<(string, Nudge)>, filesBefore: bool, files: bool, filesNudge: Nudge,
                   searchesBefore: bool, searches: bool, searchesNudge: Nudge, after: seq<(string, Nudge)>)
    requires AnnouncementOf(filesNudge) == FilesAnnounced && AnnouncementOf(searchesNudge) == SearchesAnnounced
    requires after == nudges + ((if files && !filesBefore then [("read_budgets", filesNudge)] else [])
                                + (if searches && !searchesBefore then [("read_budgets", searchesNudge)] else []))
    ensures forall a :: TimesAnnounced(after, a) == TimesAnnounced(nudges, a)
              + BoolCount(files && !filesBefore && a == FilesAnnounced)
              + BoolCount(searches && !searchesBefore && a == SearchesAnnounced)
  {
    hide TimesAnnounced;
    var mid := nudges + (if files && !filesBefore then [("read_budgets", filesNudge)] else []);
    PushNudge(nudges, ("read_budgets", filesNudge));
    PushNudge(mid, ("read_budgets", searchesNudge));
    assert after == mid + (if searches && !searchesBefore then [("read_budgets", searchesNudge)] else []);
  }

  // ---------- later policies ----------

  lemma {:induction false} ApplyAllBlocks(cfg: Config, turn: nat, name: string, actions: seq<PolicyAction>,
                                          st: LoopState, plan: Plan)
    ensures plan.filter.blocked <= ApplyAllBefore(cfg, turn, name, actions, st, plan).1.filter.blocked
    decreases |actions|
  {
    hide Trimming, EstimateTokens;
    if actions != [] {
      var (st', plan') := ApplyBefore(cfg, turn, name, actions[0], st, plan);
      assert plan.filter.blocked <= plan'.filter.blocked;
      ApplyAllBlocks(cfg, turn, name, actions[1..], st', plan');
    }
  }

  /** Whatever follows the stack can only block more, and leaves the stack and the stats alone. */
  lemma {:induction false} LaterPolicies(cfg: Config, b: Budgets, assembly: TurnFilter, turn: nat, i: nat,
                                         st: LoopState, plan: Plan)
    requires 4 <= i <= |st.policies| && HasStack(b, assembly, st.policies)
    ensures var (st', plan') := BeforeFrom(cfg, turn, i, st, plan);
      && plan.filter.blocked <= plan'.filter.blocked
      && st'.stats == st.stats
      && |st'.policies| == |st.policies| && HasStack(b, assembly, st'.policies)
    decreases |st.policies| - i
  {
    hide Respond, ApplyAllBefore;
    if i < |st.policies| {
      var hook := BeforeHook(StateFor(cfg, turn, st, plan.converging));
      var (p, actions) := Respond(st.policies[i], hook);
      var s := Told(st, i, p, hook, actions);
      RespondKeepsStack(b, assembly, st.policies, i, hook);
      ApplyAllBlocks(cfg, turn, p.Name(), actions, s, plan);
      ApplyAllBeforeKeeps(cfg, turn, p.Name(), actions, s, plan);
      var (st', plan') := BeforePolicy(cfg, turn, i, st, plan);
      LaterPolicies(cfg, b, assembly, turn, i + 1, st', plan');
    }
  }

  lemma {:induction false} AfterKeepsStack(cfg: Config, b: Budgets, assembly: TurnFilter, turn: nat, converging: bool,
                                           outcome: TurnOutcome, i: nat, st: LoopState, reject: bool)
    requires i <= |st.policies| && HasStack(b, assembly, st.policies)
    ensures var st' := AfterFrom(cfg, turn, converging, outcome, i, st, reject).0;
      && |st'.policies| == |st.policies| && HasStack(b, assembly, st'.policies)
      && SameBudgetStats(st.stats, st'.stats)
      && (|st.policies| == 4 && AnnouncedOnce(st.policies, st.nudges) ==> AnnouncedOnce(st'.policies, st'.nudges))
    decreases |st.policies| - i
  {
    hide Respond, ApplyAllAfter, AnnouncedOnce;
    if i < |st.policies| {
      var hook := AfterHook(StateFor(cfg, turn, st, converging), outcome);
      var (p, actions) := Respond(st.policies[i], hook);
      var s := Told(st, i, p, hook, actions);
      RespondKeepsStack(b, assembly, st.policies, i, hook);
      AfterStats(cfg, turn, p.Name(), actions, s, reject);
      var (st', reject') := ApplyAllAfter(cfg, turn, p.Name(), actions, s, reject);
      if |st.policies| == 4 {
        StackSilentAfter(b, assembly, st.policies, i, hook);
        NothingAfter(cfg, turn, p.Name(), s, reject);
        assert st.policies[i := p] == st.policies;
      }
      AfterKeepsStack(cfg, b, assembly, turn, converging, outcome, i + 1, st', reject');
    }
  }

  lemma NothingAfter(cfg: Config, turn: nat, name: string, st: LoopState, reject: bool)
    ensures ApplyAllAfter(cfg, turn, name, [], st, reject) == (st, reject)
  {
  }

  /** The built-in policies act before turns only. */
  lemma StackSilentAfter(b: Budgets, assembly: TurnFilter, policies: seq<Policy>, i: nat, hook: Hook)
    requires HasStack(b, assembly, policies) && i < 4 && !hook.BeforeHook?
    ensures Respond(policies[i], hook) == (policies[i], [])
  {
  }

  lemma {:induction false} FinishKeepsStack(cfg: Config, b: Budgets, assembly: TurnFilter, turn: nat, converging: bool,
                                            outcome: TurnOutcome, i: nat, st: LoopState)
    requires i <= |st.policies| && HasStack(b, assembly, st.policies)
    ensures var st' := FinishFrom(cfg, turn, converging, outcome, i, st);
      && |st'.policies| == |st.policies| && HasStack(b, assembly, st'.policies) && st'.stats == st.stats
      && (|st.policies| == 4 && AnnouncedOnce(st.policies, st.nudges) ==> AnnouncedOnce(st'.policies, st'.nudges))
    decreases |st.policies| - i
  {
    hide Respond, AnnouncedOnce;
    if i < |st.policies| {
      var hook := FinishHook(StateFor(cfg, turn, st, converging), outcome);
      var (p, actions) := Respond(st.policies[i], hook);
      RespondKeepsStack(b, assembly, st.policies, i, hook);
      if |st.policies| == 4 {
        StackSilentAfter(b, assembly, st.policies, i, hook);
        assert st.policies[i := p] == st.policies;
      }
      FinishKeepsStack(cfg, b, assembly, turn, converging, outcome, i + 1,
                       ApplyRecords(turn, p.Name(), actions, Told(st, i, p, hook, actions)));
    }
  }

  lemma {:induction false} ExhaustedKeepsStack(cfg: Config, b: Budgets, assembly: TurnFilter, i: nat, st: LoopState)
    requires i <= |st.policies| && HasStack(b, assembly, st.policies)
    ensures var st' := ExhaustedFrom(cfg, i, st);
      && |st'.policies| == |st.policies| && HasStack(b, assembly, st'.policies) && st'.stats == st.stats
      && (|st.policies| == 4 && AnnouncedOnce(st.policies, st.nudges) ==> AnnouncedOnce(st'.policies, st'.nudges))
    decreases |st.policies| - i
  {
    hide Respond, AnnouncedOnce;
    if i < |st.policies| {
      var turn := cfg.limits.maxTurns;
      var hook := ExhaustedHook(StateFor(cfg, turn, st, true));
      var (p, actions) := Respond(st.policies[i], hook);
      RespondKeepsStack(b, assembly, st.policies, i, hook);
      if |st.policies| == 4 {
        StackSilentAfter(b, assembly, st.policies, i, hook);
        assert st.policies[i := p] == st.policies;
      }
      ExhaustedKeepsStack(cfg, b, assembly, i + 1, ApplyRecords(turn, p.Name(), actions,
                                                                Told(st, i, p, hook, actions)));
    }
  }

  // ---------- the whole run ----------

  /** A turn about to ask the model offers no more than its budgets allow. */
  ghost predicate Withheld(b: Budgets, assembly: TurnFilter, n: nat, m: Machine) {
    && |m.st.policies| == n && HasStack(b, assembly, m.st.policies)
    && (m.control.AwaitModel? ==>
          StackBlocks(b, m.control.turn, m.st.stats, false) <= m.control.plan.filter.blocked)
  }

  /**
   The turn was planned from `st`: its filter blocks what the budgets withhold, given whether the context of `st`
   stays over its own, and it converges for that reason or because winding down was announced on it.
   */
  ghost predicate Planned(cfg: Config, b: Budgets, m: Machine, st: LoopState)
    requires m.control.AwaitModel?
  {
    var turn, plan := m.control.turn, m.control.plan;
    var over := ContextOver(cfg, b, st);
    && HasStack(b, ALL, st.policies) && st.stats == m.st.stats
    && (m.st, plan) == BeforeFrom(cfg, turn, 0, st, FreshPlan(cfg))
    && plan.filter == TurnFilter(None, StackBlocks(b, turn, st.stats, over), {})
    && (plan.converging <==> over || (TailDue(b, turn, st.stats) && !st.policies[1].windDownAnnounced))
  }

  /** With nothing but the stack: exactly what its budgets call for is withheld, and each policy spoke once. */
  ghost predicate Exact(cfg: Config, b: Budgets, m: Machine) {
    && |m.st.policies| == 4 && HasStack(b, ALL, m.st.policies)
    && AnnouncedOnce(m.st.policies, m.st.nudges)
    && (m.control.AwaitModel? ==> exists st :: Planned(cfg, b, m, st))
  }

  lemma BeforeWithheld(cfg: Config, b: Budgets, assembly: TurnFilter, turn: nat, st: LoopState)
    requires HasStack(b, assembly, st.policies)
    ensures var (st', plan) := BeforeFrom(cfg, turn, 0, st, FreshPlan(cfg));
      && |st'.policies| == |st.policies| && HasStack(b, assembly, st'.policies) && st'.stats == st.stats
      && StackBlocks(b, turn, st.stats, false) <= plan.filter.blocked
      && (|st.policies| == 4 && assembly == ALL && cfg.initialFilter == ALL && AnnouncedOnce(st.policies, st.nudges) ==>
            && AnnouncedOnce(st'.policies, st'.nudges)
            && plan.filter == TurnFilter(None, StackBlocks(b, turn, st.stats, ContextOver(cfg, b, st)), {})
            && (plan.converging <==>
                  ContextOver(cfg, b, st) || (TailDue(b, turn, st.stats) && !st.policies[1].windDownAnnounced)))
  {
    hide AnnouncedOnce, ContextOver, TailDue;
    var st4, plan4 := StackTurn(cfg, b, assembly, turn, st);
    LaterPolicies(cfg, b, assembly, turn, 4, st4, plan4);
    if |st.policies| == 4 {
      assert BeforeFrom(cfg, turn, 4, st4, plan4) == (st4, plan4);
    }
  }

  lemma MoveWithheld(cfg: Config, b: Budgets, assembly: TurnFilter, n: nat, m: Machine)
    requires Moving(m) && Withheld(b, assembly, n, m)
    ensures Withheld(b, assembly, n, Move(cfg, m))
    ensures assembly == ALL && cfg.initialFilter == ALL && Exact(cfg, b, m) ==> Exact(cfg, b, Move(cfg, m))
  {
    hide BeforeFrom, ExhaustedFrom, AfterFrom, FinishFrom, LocalOutcome, AnnouncedOnce, HasStack, StackBlocks;
    match m.control {
      case AtTurn(turn) =>
        BeforeWithheld(cfg, b, assembly, turn, m.st);
        var next := Move(cfg, m);
        if assembly == ALL && cfg.initialFilter == ALL && Exact(cfg, b, m) && next.control.AwaitModel? {
          assert Planned(cfg, b, next, m.st);
        }
      case AtTail =>
        ExhaustedKeepsStack(cfg, b, assembly, 0, Recorded(m.st, PolicyEvent(cfg.limits.maxTurns, "exhausted",
          ExhaustedDetail(m.st.contextOverflow, m.st.stats.findingsRecorded))));
      case AtCall(cx, p, rest) =>
        if rest == [] {
          var outcome := TurnOutcome(cx.assistant, p.results, p.finishRequested, p.abortReason);
          AfterKeepsStack(cfg, b, assembly, cx.turn, cx.plan.converging, outcome, 0, m.st, false);
          var (s, reject) := AfterFrom(cfg, cx.turn, cx.plan.converging, outcome, 0, m.st, false);
          FinishKeepsStack(cfg, b, assembly, cx.turn, cx.plan.converging, outcome, 0,
                           s.(completed := s.completed + [CompletedTurn(cx, p.results, reject)]));
        }
    }
  }

  lemma DeliverWithheld(cfg: Config, b: Budgets, assembly: TurnFilter, n: nat, m: Machine, r: StepResult)
    requires Awaiting(m.control) && Answers(m.control, r) && Withheld(b, assembly, n, m)
    ensures Withheld(b, assembly, n, Deliver(cfg, m, r))
    ensures Exact(cfg, b, m) ==> Exact(cfg, b, Deliver(cfg, m, r))
  {
    hide IsContextOverflow, ReadsOfTurn, CountReads, ByIndex, AnnouncedOnce, HasStack, StackBlocks, Planned;
  }

  lemma StackHolds(cfg: Config, env: Env, messages: seq<ChatMessage>, b: Budgets, assembly: TurnFilter,
                   others: seq<Policy>, host: Host, k: nat)
    ensures Withheld(b, assembly, 4 + |others|,
              Exec(cfg, env, Start(cfg, messages, SharedStack(b, assembly) + others, host), k).machine)
    ensures assembly == ALL && others == [] && cfg.initialFilter == ALL ==>
              Exact(cfg, b, Exec(cfg, env, Start(cfg, messages, SharedStack(b, assembly) + others, host), k).machine)
  {
    hide Exec, Settle, AnnouncedOnce, StackBlocks;
    var policies := SharedStack(b, assembly) + others;
    var plain := assembly == ALL && others == [] && cfg.initialFilter == ALL;
    var P: Property := (obs: seq<Observation>, m: Machine) =>
      Withheld(b, assembly, 4 + |others|, m) && (plain ==> Exact(cfg, b, m));
    forall obs: seq<Observation>, m: Machine | Moving(m) && TurnShape(m) && P(obs, m)
      ensures P(obs, Move(cfg, m))
    {
      MoveWithheld(cfg, b, assembly, 4 + |others|, m);
    }
    forall obs: seq<Observation>, m: Machine, r: StepResult
      | Awaiting(m.control) && Answers(m.control, r) && TurnShape(m) && P(obs, m)
      ensures P(obs + [Observation(m, AskOf(cfg, m).step, r)], Deliver(cfg, m, r))
    {
      DeliverWithheld(cfg, b, assembly, 4 + |others|, m, r);
    }
    assert HasStack(b, assembly, policies);
    if plain {
      NothingAnnounced(policies);
    }
    Always(cfg, env, messages, policies, host, k, P);
  }

  lemma NothingAnnounced(policies: seq<Policy>)
    requires exists b, assembly, others :: policies == SharedStack(b, assembly) + others
    ensures AnnouncedOnce(policies, [])
  {
  }

  /** Reads of any kind, and reports of progress. */
  predicate Investigates(kind: ToolKind) {
    kind.ReadOnly? || kind.Progress?
  }

  lemma InvestigationIs(kind: ToolKind)
    ensures Investigates(kind) <==> kind in INVESTIGATION
  {
    if kind.ReadOnly? {
      match kind.read
      case Retrieval => assert kind == ReadOnly(Retrieval);
      case File => assert kind == ReadOnly(File);
      case Knowledge => assert kind == ReadOnly(Knowledge);
    }
  }

  /**
   Convergence is for good, counted in what the model has done. Once a turn is so late, or so many turns have read, that
   the wind-down tail has begun, no later turn offers an investigation or progress tool; once so many file (retrieval)
   calls have been made, no later turn offers a file (retrieval) tool; whatever policies are stacked behind the shared
   ones, unless a policy forces the tool.
   */
  lemma RunConverges(cfg: Config, env: Env, messages: seq<ChatMessage>, b: Budgets, assembly: TurnFilter,
                     others: seq<Policy>, host: Host, j: nat, k: nat, tool: Tool)
    requires var s := Start(cfg, messages, SharedStack(b, assembly) + others, host);
      var early, late := Exec(cfg, env, s, j), Exec(cfg, env, s, j + k);
      && early.machine.control.AwaitModel? && late.machine.control.AwaitModel?
      && (|| (early.machine.control.turn >= WinddownTurn(b.maxTurns) && Investigates(tool.kind))
          || (ReadTurns(cfg, early.observed) >= b.maxBatches && Investigates(tool.kind))
          || (CallsMade(cfg.tools, early.observed, ReadOnly(File)) >= b.maxFilesRead && tool.kind == ReadOnly(File))
          || (CallsMade(cfg.tools, early.observed, ReadOnly(Retrieval)) >= b.maxSearches
              && tool.kind == ReadOnly(Retrieval)))
      && tool in OfferedView(cfg, late.machine.control.plan)
    ensures var s := Start(cfg, messages, SharedStack(b, assembly) + others, host);
      tool.spec.name in Exec(cfg, env, s, j + k).machine.control.plan.filter.forced
  {
    hide Exec, Settle, HasStack, WinddownTurn, CallsMade, ReadTurns;
    var policies := SharedStack(b, assembly) + others;
    var early := Exec(cfg, env, Start(cfg, messages, policies, host), j).machine;
    InvestigationIs(tool.kind);
    assert TurnAtLeast(early.control.turn, early.control);
    CountersCount(cfg, env, messages, policies, host, j);
    NeverBack(cfg, env, messages, policies, host, j, k);
    StackHolds(cfg, env, messages, b, assembly, others, host, j + k);
  }

  /**
   With the shared stack alone and an unrestricted start, every turn blocks exactly the kinds its budgets withhold:
   the investigation kinds when the context stays over its budget as the turn begins or the turn is in the tail, and
   those whose budget is spent. Writing and ending the run are always possible, and over the whole run each
   announcement is made at most once.
   */
  lemma SharedStackExact(cfg: Config, env: Env, messages: seq<ChatMessage>, b: Budgets, host: Host, k: nat, tool: Tool)
    requires cfg.initialFilter == ALL
    ensures var s := Exec(cfg, env, Start(cfg, messages, SharedStack(b, ALL), host), k);
      var m := s.machine;
      && (m.control.AwaitModel? && tool in cfg.tools && !Investigates(tool.kind) ==>
            tool in OfferedView(cfg, m.control.plan))
      && (m.control.AwaitModel? ==> exists st :: Planned(cfg, b, m, st)) && Tallied(cfg, s.observed, m)
      && (forall a: Announcement | a != NotAnnounced :: TimesAnnounced(m.st.nudges, a) <= 1)
  {
    hide Exec, Settle, WinddownTurn, TimesAnnounced, Tallied;
    InvestigationIs(tool.kind);
    CountersCount(cfg, env, messages, SharedStack(b, ALL), host, k);
    assert SharedStack(b, ALL) + [] == SharedStack(b, ALL);
    StackHolds(cfg, env, messages, b, ALL, [], host, k);
    var m := Exec(cfg, env, Start(cfg, messages, SharedStack(b, ALL), host), k).machine;
    forall a: Announcement | a != NotAnnounced
      ensures TimesAnnounced(m.st.nudges, a) <= 1
    {
      match a case _ =>
    }
  }
}
