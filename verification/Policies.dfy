/** Turn policies: the contract the loop drives and the four built-in budget policies. */
module Policies {
  import opened Wrappers
  import opened AgentTypes
  import opened ToolSurface
  import opened Budget

  /** Why the wind-down tail began. */
  datatype Reason =
    | ContextFull
    | BatchesSpent(batches: nat, maxBatches: nat)
    | TurnsSpent(turn: nat, maxTurns: nat)

  /** Structured detail of a transcript record. */
  datatype Detail =
    | NoDetail
    | TrimmedDetail(count: nat)
    | ReasonDetail(reason: Reason)
    | FilesReadDetail(count: nat)
    | SearchesDetail(count: nat)
    | ExhaustedDetail(contextOverflow: bool, findings: nat)
    | OtherDetail(json: string)

  /** A steer injected as a user message. Its wording is a parameter of the loop. */
  datatype Nudge =
    | ContextNearlyFull
    | WindDownStarted(reason: Reason)
    | FilesBudgetSpent(files: nat)
    | SearchesBudgetSpent(searches: nat)
    | PastHalfway
    | OtherNudge(text: string)

  datatype Convergence = Convergence(filter: TurnFilter, nudge: Option<Nudge>, detail: Option<Detail>)

  /** Ordered effects a policy asks of the loop. */
  datatype PolicyAction =
    | Narrow(filter: TurnFilter)
    | Inject(nudge: Nudge)
    | TrimHistory(target: nat, convergence: Option<Convergence>)
    | Converge(filter: TurnFilter, nudge: Nudge)
    | GuardOffered
    | RejectFinish(nudge: Nudge)
    | Record(name: Option<string>, detail: Detail)
    | ForceFinish
    | SetFindings(count: nat)

  /** What a policy is shown. `converging` says an earlier policy has forced convergence this turn. */
  datatype TurnState = TurnState(
    turn: nat, maxTurns: nat, messages: seq<ChatMessage>, baseTools: seq<ToolSpec>, stats: LoopStats, converging: bool)

  datatype TurnOutcome = TurnOutcome(
    assistant: ChatMessage, results: seq<ToolCallResult>, finishRequested: bool, abortReason: Option<string>)

  datatype Hook =
    | BeforeHook(state: TurnState)
    | AfterHook(state: TurnState, outcome: TurnOutcome)
    | FinishHook(state: TurnState, outcome: TurnOutcome)
    | ExhaustedHook(state: TurnState)

  /**
   A policy with its mutable fields. `Custom` is any other deterministic policy: what it does is some function of
   everything it has been shown since it was built.
   */
  datatype Policy =
    | ContextWindowTrim(window: Option<nat>, trimAnnounced: bool)
    | WindDown(maxTurns: nat, maxBatches: nat, windDownAnnounced: bool, windDownDisabled: bool, assembly: TurnFilter)
    | ReadBudgets(maxFiles: nat, maxSearches: nat, filesAnnounced: bool, searchesAnnounced: bool, readsDisabled: bool)
    | TurnBudget(halfway: nat, halfwayAnnounced: bool, halfwayDisabled: bool)
    | Custom(tag: string, seen: seq<Hook>, respond: seq<Hook> -> seq<PolicyAction>)
  {
    function Name(): string {
      match this
      case ContextWindowTrim(_, _) => "context_trim"
      case WindDown(_, _, _, _, _) => "wind_down"
      case ReadBudgets(_, _, _, _, _) => "read_budgets"
      case TurnBudget(_, _, _) => "halfway"
      case Custom(tag, _, _) => tag
    }
  }

  function WindDownReason(state: TurnState, maxTurns: nat, maxBatches: nat): Reason {
    if state.stats.batches >= maxBatches && state.turn < WinddownTurn(maxTurns)
    then BatchesSpent(state.stats.batches, maxBatches)
    else TurnsSpent(state.turn, maxTurns)
  }

  /** Three quarters of the context window, rounded down. */
  function TrimTarget(window: nat): nat {
    window * 3 / 4
  }

  function NoFiles(): TurnFilter { ALL.WithoutKind(ReadOnly(File)) }
  function NoSearches(): TurnFilter { ALL.WithoutKind(ReadOnly(Retrieval)) }

  /** The history still exceeds the target after trimming all there is to trim. */
  predicate RemainsOver(state: TurnState, target: nat) {
    EstimateTokens(Trimming(state.messages, state.baseTools, target).messages, state.baseTools) >= target
  }

  function ContextBefore(p: Policy, state: TurnState): (Policy, seq<PolicyAction>)
    requires p.ContextWindowTrim?
  {
    if p.window.None? then (p, [])
    else
      var target := TrimTarget(p.window.value);
      if EstimateTokens(state.messages, state.baseTools) < target then (p, [])
      else if !RemainsOver(state, target) then (p, [TrimHistory(target, None)])
      else if p.trimAnnounced then (p, [TrimHistory(target, Some(Convergence(ConvergenceFilter(), None, None)))])
      else (p.(trimAnnounced := true),
            [TrimHistory(target, Some(Convergence(ConvergenceFilter(), Some(ContextNearlyFull),
                                                  Some(ReasonDetail(ContextFull)))))])
  }

  /** The wind-down tail has begun: late turn, or investigation batches spent. */
  predicate WindDownDue(p: Policy, state: TurnState)
    requires p.WindDown?
  {
    state.turn >= WinddownTurn(p.maxTurns) || state.stats.batches >= p.maxBatches
  }

  function WindDownBefore(p: Policy, state: TurnState): (Policy, seq<PolicyAction>)
    requires p.WindDown?
  {
    if p.windDownDisabled || state.converging || !WindDownDue(p, state) then (p, [])
    else
      var narrowed := ConvergenceFilter().Narrow(p.assembly);
      if p.windDownAnnounced then (p, [Narrow(narrowed)])
      else
        var reason := WindDownReason(state, p.maxTurns, p.maxBatches);
        (p.(windDownAnnounced := true),
         [Record(None, ReasonDetail(reason)), Converge(narrowed, WindDownStarted(reason))])
  }

  function ReadBudgetsBefore(p: Policy, state: TurnState): (Policy, seq<PolicyAction>)
    requires p.ReadBudgets?
  {
    if p.readsDisabled || state.converging then (p, [])
    else
      var files, searches := state.stats.filesRead, state.stats.searches;
      var filesSpent, searchesSpent := files >= p.maxFiles, searches >= p.maxSearches;
      var fileActions :=
        if !filesSpent then []
        else if p.filesAnnounced then [Narrow(NoFiles())]
        else [Narrow(NoFiles()), Record(Some("read_file_budget"), FilesReadDetail(files)),
              Inject(FilesBudgetSpent(files))];
      var searchActions :=
        if !searchesSpent then []
        else if p.searchesAnnounced then [Narrow(NoSearches())]
        else [Narrow(NoSearches()), Record(Some("retrieval_budget"), SearchesDetail(searches)),
              Inject(SearchesBudgetSpent(searches))];
      (p.(filesAnnounced := p.filesAnnounced || filesSpent, searchesAnnounced := p.searchesAnnounced || searchesSpent),
       fileActions + searchActions)
  }

  function TurnBudgetBefore(p: Policy, state: TurnState): (Policy, seq<PolicyAction>)
    requires p.TurnBudget?
  {
    if p.halfwayDisabled || p.halfwayAnnounced || state.converging || p.halfway == 0
      || state.turn < p.halfway then (p, [])
    else (p.(halfwayAnnounced := true), [Record(None, NoDetail), Inject(PastHalfway)])
  }

  /** What a policy does when asked, and what becomes of it. */
  function Respond(p: Policy, hook: Hook): (Policy, seq<PolicyAction>) {
    match (p, hook)
    case (Custom(tag, seen, respond), _) =>
      (Custom(tag, seen + [hook], respond), respond(seen + [hook]))
    case (ContextWindowTrim(_, _), BeforeHook(state)) => ContextBefore(p, state)
    case (WindDown(_, _, _, _, _), BeforeHook(state)) => WindDownBefore(p, state)
    case (ReadBudgets(_, _, _, _, _), BeforeHook(state)) => ReadBudgetsBefore(p, state)
    case (TurnBudget(_, _, _), BeforeHook(state)) => TurnBudgetBefore(p, state)
    case _ => (p, [])
  }

  /** The budgets a run is assembled with. */
  datatype Budgets = Budgets(
    maxTurns: nat, maxBatches: nat, maxFilesRead: nat, maxSearches: nat, contextWindow: Option<nat>)

  /** The shared policy stack, in evaluation order. */
  function SharedStack(b: Budgets, assembly: TurnFilter): seq<Policy> {
    [ContextWindowTrim(b.contextWindow, false),
     WindDown(b.maxTurns, b.maxBatches, false, false, assembly),
     ReadBudgets(b.maxFilesRead, b.maxSearches, false, false, false),
     TurnBudget(b.maxTurns / 2, false, false)]
  }

  /** One boxed policy of a running loop: its fields change in place between hooks. */
  class TurnPolicy {
    var policy: Policy

    constructor (policy: Policy)
      ensures this.policy == policy
    {
      this.policy := policy;
    }

    method Hear(hook: Hook) returns (actions: seq<PolicyAction>)
      modifies this
      ensures policy == Respond(old(policy), hook).0 && actions == Respond(old(policy), hook).1
    {
      actions := [];
      match policy
      case Custom(tag, seen, respond) =>
        policy := Custom(tag, seen + [hook], respond);
        actions := respond(seen + [hook]);
      case ContextWindowTrim(_, _) =>
        if hook.BeforeHook? {
          actions := TrimBeforeTurn(hook.state);
        }
      case WindDown(_, _, _, _, _) =>
        if hook.BeforeHook? {
          actions := WindDownBeforeTurn(hook.state);
        }
      case ReadBudgets(_, _, _, _, _) =>
        if hook.BeforeHook? {
          actions := ReadBudgetsBeforeTurn(hook.state);
        }
      case TurnBudget(_, _, _) =>
        if hook.BeforeHook? {
          actions := TurnBudgetBeforeTurn(hook.state);
        }
    }

    method TrimBeforeTurn(state: TurnState) returns (actions: seq<PolicyAction>)
      requires policy.ContextWindowTrim?
      modifies this
      ensures policy == ContextBefore(old(policy), state).0 && actions == ContextBefore(old(policy), state).1
    {
      if policy.window.None? {
        return [];
      }
      var target := TrimTarget(policy.window.value);
      if EstimateTokens(state.messages, state.baseTools) < target {
        return [];
      }
      var preview := new ChatMessage[|state.messages|](i requires 0 <= i < |state.messages| => state.messages[i]);
      assert preview[..] == state.messages;
      var _ := TrimToolHistory(preview, state.baseTools, target);
      var convergence := None;
      if EstimateTokens(preview[..], state.baseTools) >= target {
        if policy.trimAnnounced {
          convergence := Some(Convergence(ConvergenceFilter(), None, None));
        } else {
          policy := policy.(trimAnnounced := true);
          convergence := Some(Convergence(ConvergenceFilter(), Some(ContextNearlyFull),
                                          Some(ReasonDetail(ContextFull))));
        }
      }
      return [TrimHistory(target, convergence)];
    }

    method WindDownBeforeTurn(state: TurnState) returns (actions: seq<PolicyAction>)
      requires policy.WindDown?
      modifies this
      ensures policy == WindDownBefore(old(policy), state).0 && actions == WindDownBefore(old(policy), state).1
    {
      if policy.windDownDisabled || state.converging {
        return [];
      }
      var boundary := WinddownTurn(policy.maxTurns);
      var batchesSpent := state.stats.batches >= policy.maxBatches;
      if state.turn < boundary && !batchesSpent {
        return [];
      }
      var narrowed := ConvergenceFilter().Narrow(policy.assembly);
      actions := [];
      if !policy.windDownAnnounced {
        var reason := WindDownReason(state, policy.maxTurns, policy.maxBatches);
        policy := policy.(windDownAnnounced := true);
        actions := actions + [Record(None, ReasonDetail(reason))];
        actions := actions + [Converge(narrowed, WindDownStarted(reason))];
      } else {
        actions := actions + [Narrow(narrowed)];
      }
    }

    method ReadBudgetsBeforeTurn(state: TurnState) returns (actions: seq<PolicyAction>)
      requires policy.ReadBudgets?
      modifies this
      ensures policy == ReadBudgetsBefore(old(policy), state).0 && actions == ReadBudgetsBefore(old(policy), state).1
    {
      if policy.readsDisabled || state.converging {
        return [];
      }
      actions := [];
      if state.stats.filesRead >= policy.maxFiles {
        actions := actions + [Narrow(NoFiles())];
        if !policy.filesAnnounced {
          policy := policy.(filesAnnounced := true);
          actions := actions + [Record(Some("read_file_budget"), FilesReadDetail(state.stats.filesRead))];
          actions := actions + [Inject(FilesBudgetSpent(state.stats.filesRead))];
        }
      }
      if state.stats.searches >= policy.maxSearches {
        actions := actions + [Narrow(NoSearches())];
        if !policy.searchesAnnounced {
          policy := policy.(searchesAnnounced := true);
          actions := actions + [Record(Some("retrieval_budget"), SearchesDetail(state.stats.searches))];
          actions := actions + [Inject(SearchesBudgetSpent(state.stats.searches))];
        }
      }
    }

    method TurnBudgetBeforeTurn(state: TurnState) returns (actions: seq<PolicyAction>)
      requires policy.TurnBudget?
      modifies this
      ensures policy == TurnBudgetBefore(old(policy), state).0 && actions == TurnBudgetBefore(old(policy), state).1
    {
      if policy.halfwayDisabled || policy.halfwayAnnounced || state.converging || policy.halfway == 0
        || state.turn < policy.halfway {
        return [];
      }
      policy := policy.(halfwayAnnounced := true);
      return [Record(None, NoDetail), Inject(PastHalfway)];
    }
  }
}
