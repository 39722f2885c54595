/**
 How often an effect can happen. A campaign is any sequence of attempts at one run over one journal, each cut wherever
 its process died.
 */
module LoopCounts {
  import opened AgentTypes
  import opened StepNames
  import opened Policies
  import opened StepRuntime
  import opened LoopMachine
  import opened LoopResume

  function Count(trace: seq<StepEvent>, such: StepEvent -> bool): nat {
    if trace == [] then 0 else Count(trace[..|trace| - 1], such) + if such(trace[|trace| - 1]) then 1 else 0
  }

  /** Successful executions of a step. */
  function Succeeded(name: string): StepEvent -> bool {
    (e: StepEvent) => e.name == name && e.ran == RanOk
  }

  /** Executions whose result never reached the journal. */
  function Lost(name: string): StepEvent -> bool {
    (e: StepEvent) => e.name == name && e.ran == RanOk && !e.persisted
  }

  /** Executions after a journal read that failed or could not be rehydrated. */
  function Misread(name: string): StepEvent -> bool {
    (e: StepEvent) => e.name == name && e.ran == RanOk && (e.fetch == FetchFailed || e.fetch == NotRehydrated)
  }

  ghost predicate Bounded(host: Host, name: string) {
    Count(host.trace, Succeeded(name))
    <= (if name in host.journal then 1 else 0) + Count(host.trace, Lost(name)) + Count(host.trace, Misread(name))
  }

  lemma CountPush(trace: seq<StepEvent>, e: StepEvent, such: StepEvent -> bool)
    ensures Count(trace + [e], such) == Count(trace, such) + if such(e) then 1 else 0
  {
    assert (trace + [e])[..|trace|] == trace;
  }

  /** A success that reached the journal was not there before, or could not be read. */
  lemma StepEventFacts(refuse: RefusalRenderer, env: Env, host: Host, step: string, e: Effect)
    requires env.runtime.Checkpoint?
    ensures var next := Step(refuse, env, host, step, e).1;
      var event := LastEvent(next);
      && next.trace == host.trace + [event]
      && event.name == step
      && (event.persisted ==> step in next.journal)
      && (event.ran == RanOk && event.fetch != FetchFailed && event.fetch != NotRehydrated ==> step !in host.journal)
      && (forall n :: n in next.journal ==> n in host.journal || n == step)
      && (forall n :: n in host.journal ==> n in next.journal)
  {
    hide Perform, Rehydrate;
  }

  lemma StepBounded(refuse: RefusalRenderer, env: Env, host: Host, step: string, e: Effect, name: string)
    requires env.runtime.Checkpoint? && Bounded(host, name)
    ensures Bounded(Step(refuse, env, host, step, e).1, name)
  {
    hide Step, Count;
    StepEventFacts(refuse, env, host, step, e);
    var event := LastEvent(Step(refuse, env, host, step, e).1);
    CountPush(host.trace, event, Succeeded(name));
    CountPush(host.trace, event, Lost(name));
    CountPush(host.trace, event, Misread(name));
  }

  lemma TickBounded(cfg: Config, env: Env, s: System, name: string)
    requires env.runtime.Checkpoint? && Bounded(s.host, name)
    ensures Bounded(Tick(cfg, env, s).host, name)
  {
    hide Step, Name, Proceed, Bounded;
    if Live(s) {
      var ask := AskOf(cfg, s.machine);
      StepBounded(cfg.refuse, env, s.host, Name(ask.step), ask.effect, name);
    }
  }

  lemma {:induction false} ExecBounded(cfg: Config, env: Env, s: System, k: nat, name: string)
    requires env.runtime.Checkpoint? && Bounded(s.host, name)
    ensures Bounded(Exec(cfg, env, s, k).host, name)
  {
    hide Exec, Tick, Bounded;
    ExecUnfolds(cfg, env, s, if k == 0 then 0 else k - 1);
    if k > 0 {
      ExecBounded(cfg, env, s, k - 1, name);
      TickBounded(cfg, env, Exec(cfg, env, s, k - 1), name);
    }
  }

  /** The world after a series of attempts, attempt `i` having been cut after `cuts[i]` steps. */
  function Campaign(cfg: Config, env: Env, messages: seq<ChatMessage>, policies: seq<Policy>, host: Host,
                    cuts: seq<nat>): Host
    decreases |cuts|
  {
    if cuts == [] then host
    else Campaign(cfg, env, messages, policies,
                  Exec(cfg, env, Start(cfg, messages, policies, host), cuts[0]).host, cuts[1..])
  }

  /**
   At-least-once, bounded: over any number of crashes and restarts a step succeeds at most once more than its result
   was lost before reaching the journal or could not be read back from it.
   */
  lemma {:induction false} CampaignBounded(cfg: Config, env: Env, messages: seq<ChatMessage>, policies: seq<Policy>,
                                           host: Host, cuts: seq<nat>, name: string)
    requires env.runtime.Checkpoint? && Bounded(host, name)
    ensures var end := Campaign(cfg, env, messages, policies, host, cuts);
      && Bounded(end, name)
      && Count(end.trace, Succeeded(name))
         <= 1 + Count(end.trace, Lost(name)) + Count(end.trace, Misread(name))
    decreases |cuts|
  {
    hide Exec, Settle;
    if cuts != [] {
      var s := Start(cfg, messages, policies, host);
      ExecBounded(cfg, env, s, cuts[0], name);
      CampaignBounded(cfg, env, messages, policies, Exec(cfg, env, s, cuts[0]).host, cuts[1..], name);
    }
  }

  // ---------- with a faultless journal ----------

  function KindOfStep(step: StepId): Kind {
    match step case LlmTurn(_) => ModelStep case ToolsBatch(_) => ReadsStep case WriteTool(_, _) => CallStep
  }

  /** Every entry under a step's name can be read back as that step's type. */
  ghost predicate Readable(codec: Codec, journal: map<string, Json>) {
    forall step: StepId :: Name(step) in journal ==> Rehydrate(codec, KindOfStep(step), journal[Name(step)]).Some?
  }

  /** The journal after is the journal before with new entries. */
  ghost predicate Grown(before: map<string, Json>, after: map<string, Json>) {
    forall n | n in before :: n in after && after[n] == before[n]
  }

  lemma StepGrows(refuse: RefusalRenderer, env: Env, host: Host, step: StepId, e: Effect)
    requires Journaling(env) && !env.fetchFails(|host.trace|)
    requires KindOfEffect(e) == KindOfStep(step) && Readable(env.runtime.codec, host.journal)
    ensures var next := Step(refuse, env, host, Name(step), e).1;
      && Grown(host.journal, next.journal)
      && Readable(env.runtime.codec, next.journal)
      && next.trace == host.trace + [LastEvent(next)]
      && LastEvent(next).fetch != FetchFailed && LastEvent(next).fetch != NotRehydrated
  {
    hide Perform, Name, Rehydrate;
    var next := Step(refuse, env, host, Name(step), e).1;
    forall other: StepId | Name(other) in next.journal
      ensures Rehydrate(env.runtime.codec, KindOfStep(other), next.journal[Name(other)]).Some?
    {
      NamesAreDistinct(step, other);
    }
  }

  lemma TickGrows(cfg: Config, env: Env, s: System, name: string)
    requires Journaling(env) && (forall t :: !env.fetchFails(t)) && Readable(env.runtime.codec, s.host.journal)
    ensures Grown(s.host.journal, Tick(cfg, env, s).host.journal)
    ensures Readable(env.runtime.codec, Tick(cfg, env, s).host.journal)
    ensures Count(Tick(cfg, env, s).host.trace, Misread(name)) == Count(s.host.trace, Misread(name))
  {
    hide Step, Name, Proceed, Readable, RoundTrips, Count;
    if Live(s) {
      var ask := AskOf(cfg, s.machine);
      StepGrows(cfg.refuse, env, s.host, ask.step, ask.effect);
      CountPush(s.host.trace, LastEvent(Tick(cfg, env, s).host), Misread(name));
    }
  }

  lemma {:induction false} ExecGrows(cfg: Config, env: Env, s: System, k: nat, name: string)
    requires Journaling(env) && (forall t :: !env.fetchFails(t)) && Readable(env.runtime.codec, s.host.journal)
    ensures Grown(s.host.journal, Exec(cfg, env, s, k).host.journal)
    ensures Readable(env.runtime.codec, Exec(cfg, env, s, k).host.journal)
    ensures Count(Exec(cfg, env, s, k).host.trace, Misread(name)) == Count(s.host.trace, Misread(name))
  {
    hide Exec, Tick, Readable, RoundTrips, Count;
    ExecUnfolds(cfg, env, s, if k == 0 then 0 else k - 1);
    if k > 0 {
      ExecGrows(cfg, env, s, k - 1, name);
      TickGrows(cfg, env, Exec(cfg, env, s, k - 1), name);
    }
  }

  lemma {:induction false} CampaignGrows(cfg: Config, env: Env, messages: seq<ChatMessage>, policies: seq<Policy>,
                                         host: Host, cuts: seq<nat>, name: string)
    requires Journaling(env) && (forall t :: !env.fetchFails(t)) && Readable(env.runtime.codec, host.journal)
    ensures Grown(host.journal, Campaign(cfg, env, messages, policies, host, cuts).journal)
    ensures Count(Campaign(cfg, env, messages, policies, host, cuts).trace, Misread(name))
            == Count(host.trace, Misread(name))
    decreases |cuts|
  {
    hide Exec, Settle, Readable, RoundTrips, Count;
    if cuts != [] {
      var s := Start(cfg, messages, policies, host);
      ExecGrows(cfg, env, s, cuts[0], name);
      CampaignGrows(cfg, env, messages, policies, Exec(cfg, env, s, cuts[0]).host, cuts[1..], name);
    }
  }

  /**
   Exactly-once up to lost results: if the journal can always be read, then across any number of attempts from an
   empty world no journal entry is ever replaced, and a step succeeds at most once more than its result was lost
   before reaching the journal.
   */
  lemma CampaignOnce(cfg: Config, env: Env, messages: seq<ChatMessage>, policies: seq<Policy>,
                     cuts: seq<nat>, more: seq<nat>, name: string)
    requires Journaling(env) && (forall t :: !env.fetchFails(t))
    ensures var mid := Campaign(cfg, env, messages, policies, Host(map[], [], multiset{}), cuts);
      var end := Campaign(cfg, env, messages, policies, mid, more);
      && Grown(mid.journal, end.journal)
      && Count(end.trace, Succeeded(name)) <= 1 + Count(end.trace, Lost(name))
  {
    hide Exec, Settle, RoundTrips, Name, Rehydrate;
    var start := Host(map[], [], multiset{});
    var mid := Campaign(cfg, env, messages, policies, start, cuts);
    CampaignReadable(cfg, env, messages, policies, start, cuts);
    CampaignGrows(cfg, env, messages, policies, start, cuts, name);
    CampaignGrows(cfg, env, messages, policies, mid, more, name);
    CampaignBounded(cfg, env, messages, policies, start, cuts, name);
    CampaignBounded(cfg, env, messages, policies, mid, more, name);
  }

  lemma {:induction false} CampaignReadable(cfg: Config, env: Env, messages: seq<ChatMessage>, policies: seq<Policy>,
                                            host: Host, cuts: seq<nat>)
    requires Journaling(env) && (forall t :: !env.fetchFails(t)) && Readable(env.runtime.codec, host.journal)
    ensures Readable(env.runtime.codec, Campaign(cfg, env, messages, policies, host, cuts).journal)
    decreases |cuts|
  {
    hide Exec, Settle, Readable, RoundTrips;
    if cuts != [] {
      var s := Start(cfg, messages, policies, host);
      ExecGrows(cfg, env, s, cuts[0], "");
      CampaignReadable(cfg, env, messages, policies, Exec(cfg, env, s, cuts[0]).host, cuts[1..]);
    }
  }
}
