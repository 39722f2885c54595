/**
 What the shared policies say and when. Whatever else runs, each of their notices is given on the first occasion that
 calls for it and never again, and what they ask of a turn depends on that turn alone.
 */
module LoopNotices {
  import opened Wrappers
  import opened AgentTypes
  import opened ToolSurface
  import opened Budget
  import opened Policies
  import opened StepRuntime
  import opened LoopMachine
  import opened LoopRounds
  import opened LoopAccounts
  import LoopConvergence

  /** What the shared policies may have to say, each thing once a run. */
  datatype Notice = OfContext | OfTail | OfFiles | OfSearches | OfHalf

  /** The policy of the stack that gives it. */
  function Speaker(notice: Notice): nat {
    match notice case OfContext => 0 case OfTail => 1 case OfFiles => 2 case OfSearches => 2 case OfHalf => 3
  }

  /** A turn in that state calls for it. */
  predicate Due(b: Budgets, notice: Notice, state: TurnState) {
    match notice
    case OfContext =>
      && b.contextWindow.Some?
      && var target := b.contextWindow.value * 3 / 4;
         EstimateTokens(Trimming(state.messages, state.baseTools, target).messages, state.baseTools) >= target
    case OfTail =>
      !state.converging && (state.turn >= WinddownTurn(b.maxTurns) || state.stats.batches >= b.maxBatches)
    case OfFiles => !state.converging && state.stats.filesRead >= b.maxFilesRead
    case OfSearches => !state.converging && state.stats.searches >= b.maxSearches
    case OfHalf => !state.converging && b.maxTurns >= 2 && 2 * state.turn + 1 >= b.maxTurns
  }

  predicate CalledFor(b: Budgets, notice: Notice, hook: Hook) {
    hook.BeforeHook? && Due(b, notice, hook.state)
  }

  /** The kinds of tools that investigate or report progress. */
  const NOTHING_TO_INVESTIGATE := {ReadOnly(Retrieval), ReadOnly(File), ReadOnly(Knowledge), Progress}

  function WithoutReads(read: ReadKind): TurnFilter {
    TurnFilter(None, {ReadOnly(read)}, {})
  }

  /** What a policy of the stack answers before a turn in that state, when these notices have been given. */
  function Answered(b: Budgets, assembly: TurnFilter, policy: nat, state: TurnState, given: set<Notice>):
    seq<PolicyAction>
  {
    if policy == 0 then
      if b.contextWindow.None?
         || EstimateTokens(state.messages, state.baseTools) < b.contextWindow.value * 3 / 4 then []
      else if !Due(b, OfContext, state) then [TrimHistory(b.contextWindow.value * 3 / 4, None)]
      else [TrimHistory(b.contextWindow.value * 3 / 4, Some(Convergence(
              TurnFilter(None, NOTHING_TO_INVESTIGATE, {}),
              if OfContext in given then None else Some(ContextNearlyFull),
              if OfContext in given then None else Some(ReasonDetail(ContextFull)))))]
    else if policy == 1 then
      var filter := TurnFilter(assembly.allowed, NOTHING_TO_INVESTIGATE + assembly.blocked, assembly.forced);
      var reason := if state.turn < WinddownTurn(b.maxTurns) then BatchesSpent(state.stats.batches, b.maxBatches)
                    else TurnsSpent(state.turn, b.maxTurns);
      if !Due(b, OfTail, state) then []
      else if OfTail in given then [Narrow(filter)]
      else [Record(None, ReasonDetail(reason)), Converge(filter, WindDownStarted(reason))]
    else if policy == 2 then
      (if !Due(b, OfFiles, state) then []
       else if OfFiles in given then [Narrow(WithoutReads(File))]
       else [Narrow(WithoutReads(File)), Record(Some("read_file_budget"), FilesReadDetail(state.stats.filesRead)),
             Inject(FilesBudgetSpent(state.stats.filesRead))])
      + (if !Due(b, OfSearches, state) then []
         else if OfSearches in given then [Narrow(WithoutReads(Retrieval))]
         else [Narrow(WithoutReads(Retrieval)), Record(Some("retrieval_budget"), SearchesDetail(state.stats.searches)),
               Inject(SearchesBudgetSpent(state.stats.searches))])
    else if Due(b, OfHalf, state) && OfHalf !in given then [Record(None, NoDetail), Inject(PastHalfway)]
    else []
  }

  // ---------- one policy over all it is asked ----------

  predicate GivenIn(b: Budgets, notice: Notice, hooks: seq<Hook>) {
    exists i | 0 <= i < |hooks| :: CalledFor(b, notice, hooks[i])
  }

  lemma GivenPush(b: Budgets, notice: Notice, hooks: seq<Hook>)
    requires hooks != []
    ensures GivenIn(b, notice, hooks)
      <==> GivenIn(b, notice, hooks[..|hooks| - 1]) || CalledFor(b, notice, hooks[|hooks| - 1])
  {
    hide Due;
    var front := hooks[..|hooks| - 1];
    assert forall i | 0 <= i < |front| :: front[i] == hooks[i];
  }

  /** The policy at that place of the stack, once it has been asked all that. */
  function Become(b: Budgets, assembly: TurnFilter, policy: nat, hooks: seq<Hook>): Policy {
    if policy == 0 then ContextWindowTrim(b.contextWindow, GivenIn(b, OfContext, hooks))
    else if policy == 1 then WindDown(b.maxTurns, b.maxBatches, GivenIn(b, OfTail, hooks), false, assembly)
    else if policy == 2 then
      ReadBudgets(b.maxFilesRead, b.maxSearches, GivenIn(b, OfFiles, hooks), GivenIn(b, OfSearches, hooks), false)
    else TurnBudget(b.maxTurns / 2, GivenIn(b, OfHalf, hooks), false)
  }

  function AllGiven(b: Budgets, hooks: seq<Hook>): set<Notice> {
    set n: Notice | n in {OfContext, OfTail, OfFiles, OfSearches, OfHalf} && GivenIn(b, n, hooks)
  }

  lemma FiltersAre(assembly: TurnFilter)
    ensures ConvergenceFilter() == TurnFilter(None, NOTHING_TO_INVESTIGATE, {})
    ensures ConvergenceFilter().Narrow(assembly)
      == TurnFilter(assembly.allowed, NOTHING_TO_INVESTIGATE + assembly.blocked, assembly.forced)
    ensures NoFiles() == WithoutReads(File) && NoSearches() == WithoutReads(Retrieval)
  {
    assert {} + assembly.forced == assembly.forced;
  }

  /** Asked once more, it answers as it should and becomes what it should. */
  lemma AskedOnceMore(b: Budgets, assembly: TurnFilter, policy: nat, hooks: seq<Hook>, hook: Hook)
    requires policy < 4
    ensures var (p, actions) := Respond(Become(b, assembly, policy, hooks), hook);
      && p == Become(b, assembly, policy, hooks + [hook])
      && actions == if hook.BeforeHook? then Answered(b, assembly, policy, hook.state, AllGiven(b, hooks)) else []
  {
    hide EstimateTokens, Trimming, WinddownTurn, GivenIn, ConvergenceFilter, NoFiles, NoSearches, WithoutReads,
         TurnFilter.Narrow;
    FiltersAre(assembly);
    var more := hooks + [hook];
    assert more[..|more| - 1] == hooks;
    forall n: Notice ensures GivenIn(b, n, more) <==> GivenIn(b, n, hooks) || CalledFor(b, n, hook) {
      GivenPush(b, n, more);
    }
    if hook.BeforeHook? && policy == 0 && b.contextWindow.Some? {
      var target := b.contextWindow.value * 3 / 4;
      if EstimateTokens(hook.state.messages, hook.state.baseTools) < target {
        LoopConvergence.UnderTargetUntouched(hook.state.messages, hook.state.baseTools, target);
      }
    }
  }

  lemma {:induction false} BecomesSo(b: Budgets, assembly: TurnFilter, policy: nat, hooks: seq<Hook>)
    requires policy < 4
    ensures PolicyAfter(SharedStack(b, assembly)[policy], hooks) == Become(b, assembly, policy, hooks)
  {
    hide Respond, GivenIn;
    if hooks == [] {
      NothingGiven(b);
    } else {
      var front, last := hooks[..|hooks| - 1], hooks[|hooks| - 1];
      assert hooks == front + [last];
      BecomesSo(b, assembly, policy, front);
      AskedOnceMore(b, assembly, policy, front, last);
    }
  }

  lemma NothingGiven(b: Budgets)
    ensures forall n: Notice :: !GivenIn(b, n, [])
  {
  }

  // ---------- every run ----------

  /** A turn before entry `n` of the log called for the notice. */
  predicate GivenBefore(b: Budgets, notice: Notice, heard: seq<Said>, n: nat)
    requires n <= |heard|
  {
    exists j | 0 <= j < n :: heard[j].Answer? && heard[j].policy == Speaker(notice)
      && CalledFor(b, notice, heard[j].hook)
  }

  lemma {:induction false} GivenInLog(b: Budgets, notice: Notice, heard: seq<Said>, n: nat)
    requires n <= |heard|
    ensures GivenIn(b, notice, HooksTo(heard[..n], Speaker(notice))) <==> GivenBefore(b, notice, heard, n)
    decreases n
  {
    hide CalledFor, GivenIn, HooksTo;
    if n == 0 {
      NothingAsked(Speaker(notice));
      assert heard[..0] == [];
      NothingGiven(b);
    } else {
      var s, i := heard[n - 1], Speaker(notice);
      GivenInLog(b, notice, heard, n - 1);
      var hooks := HooksTo(heard[..n], i);
      OneMoreHook(heard[..n - 1], s, i);
      assert heard[..n] == heard[..n - 1] + [s];
      if s.Answer? && s.policy == i {
        GivenPush(b, notice, hooks);
      }
    }
  }

  lemma OneMoreHook(said: seq<Said>, s: Said, i: nat)
    ensures var hooks := HooksTo(said + [s], i);
      if s.Answer? && s.policy == i then hooks != [] && hooks[..|hooks| - 1] == HooksTo(said, i)
        && hooks[|hooks| - 1] == s.hook
      else hooks == HooksTo(said, i)
  {
    HooksToPush(said, s, i);
  }

  lemma NothingAsked(i: nat)
    ensures HooksTo([], i) == []
  {
  }

  /**
   At every point of every run that the shared stack leads, whatever policies stand behind it: each answer of its
   policies before a turn is what the state shown calls for, with each notice exactly where an earlier turn had not
   called for it; asked at any other moment they answer nothing.
   */
  lemma SharedPoliciesSpeak(cfg: Config, env: Env, messages: seq<ChatMessage>, b: Budgets, assembly: TurnFilter,
                            others: seq<Policy>, host: Host, k: nat)
    ensures var heard := Exec(cfg, env, Start(cfg, messages, SharedStack(b, assembly) + others, host), k)
        .machine.st.heard;
      forall n | 0 <= n < |heard| && heard[n].Answer? && heard[n].policy < 4 ::
        var given := set notice: Notice | GivenBefore(b, notice, heard, n);
        heard[n].actions == if heard[n].hook.BeforeHook?
                            then Answered(b, assembly, heard[n].policy, heard[n].hook.state, given) else []
  {
    hide Exec, Settle, Answered, GivenBefore, OwnAnswer;
    var policies := SharedStack(b, assembly) + others;
    EverythingAccounted(cfg, env, messages, policies, host, k);
    var heard := Exec(cfg, env, Start(cfg, messages, policies, host), k).machine.st.heard;
    forall n | 0 <= n < |heard| && heard[n].Answer? && heard[n].policy < 4
      ensures
        var given := set notice: Notice | GivenBefore(b, notice, heard, n);
        heard[n].actions == if heard[n].hook.BeforeHook?
                            then Answered(b, assembly, heard[n].policy, heard[n].hook.state, given) else []
    {
      EachSpeaks(b, assembly, others, heard, n);
    }
  }

  lemma EachSpeaks(b: Budgets, assembly: TurnFilter, others: seq<Policy>, heard: seq<Said>, n: nat)
    requires n < |heard| && heard[n].Answer? && heard[n].policy < 4
    requires OwnAnswer(SharedStack(b, assembly) + others, heard[..n], heard[n])
    ensures var given := set notice: Notice | GivenBefore(b, notice, heard, n);
      heard[n].actions == if heard[n].hook.BeforeHook?
                          then Answered(b, assembly, heard[n].policy, heard[n].hook.state, given) else []
  {
    hide Answered, GivenBefore, HooksTo, PolicyAfter, Respond;
    var s, given := heard[n], set notice: Notice | GivenBefore(b, notice, heard, n);
    var hooks := HooksTo(heard[..n], s.policy);
    assert (SharedStack(b, assembly) + others)[s.policy] == SharedStack(b, assembly)[s.policy];
    BecomesSo(b, assembly, s.policy, hooks);
    AskedOnceMore(b, assembly, s.policy, hooks, s.hook);
    forall notice: Notice | Speaker(notice) == s.policy ensures notice in given <==> notice in AllGiven(b, hooks) {
      GivenInLog(b, notice, heard, n);
    }
    if s.hook.BeforeHook? {
      OwnNoticesMatter(b, assembly, s.policy, s.hook.state, given, AllGiven(b, hooks));
    }
  }

  lemma OwnNoticesMatter(b: Budgets, assembly: TurnFilter, policy: nat, state: TurnState, given: set<Notice>,
                         other: set<Notice>)
    requires forall notice: Notice | Speaker(notice) == policy :: notice in given <==> notice in other
    ensures policy < 4 ==>
      Answered(b, assembly, policy, state, given) == Answered(b, assembly, policy, state, other)
  {
    hide Due, EstimateTokens, WinddownTurn;
    assert Speaker(OfContext) == 0 && Speaker(OfTail) == 1 && Speaker(OfHalf) == 3;
  }
}
