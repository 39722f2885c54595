/**
 Crashing costs nothing but time. In a world that answers the same question the same way whenever it is asked, over a
 journal whose writes and reads work, any series of crashed attempts ends as the run would have ended had nothing ever
 crashed and nothing ever been journaled.
 */
module LoopCampaign {
  import opened AgentTypes
  import opened StepNames
  import opened ToolSurface
  import opened Policies
  import opened StepRuntime
  import opened LoopMachine
  import opened LoopResume
  import opened LoopOrder
  import opened LoopCounts

  /** The world's answers do not depend on when it is asked. */
  ghost predicate Stationary(world: World) {
    && (forall t: nat, u: nat, messages, specs :: world.model(t, messages, specs) == world.model(u, messages, specs))
    && (forall t: nat, u: nat, i, call :: world.tool(t, i, call) == world.tool(u, i, call))
  }

  /** The journal's reads and writes work and every value can be written; crashes may fall anywhere. */
  ghost predicate Reliable(env: Env) {
    && Journaling(env)
    && (forall v :: env.runtime.codec.encode(v).Some?)
    && (forall t :: !env.fetchFails(t) && !env.upsertFails(t))
  }

  /** The same world without a journal and without crashes. */
  function Uninterrupted(env: Env): Env {
    env.(runtime := Passthrough, crash := (t: nat) => NoCrash)
  }

  lemma {:induction false} ReadOutcomesAnytime(refuse: RefusalRenderer, world: World, t: nat, u: nat, view: seq<Tool>,
                                               batch: seq<IndexedCall>)
    requires Stationary(world)
    ensures ReadOutcomes(refuse, world, t, view, batch) == ReadOutcomes(refuse, world, u, view, batch)
    decreases |batch|
  {
    hide DispatchOf;
    if batch != [] {
      ReadOutcomesAnytime(refuse, world, t, u, view, batch[1..]);
    }
  }

  lemma PerformAnytime(refuse: RefusalRenderer, world: World, t: nat, u: nat, e: Effect)
    requires Stationary(world)
    ensures Perform(refuse, world, t, e) == Perform(refuse, world, u, e)
  {
    hide ReadOutcomes, DispatchOf;
    if e.DispatchReads? {
      ReadOutcomesAnytime(refuse, world, t, u, e.view, e.batch);
    }
  }

  // ---------- the uninterrupted run ----------

  /** Completed step `i` of the run got what performing its effect gives. */
  ghost predicate Genuine(cfg: Config, world: World, p: System, i: nat)
    requires i < |p.observed|
  {
    && Awaiting(p.observed[i].before.control)
    && p.observed[i].result == Perform(cfg.refuse, world, 0, AskOf(cfg, p.observed[i].before).effect).0
  }

  lemma TickGenuine(cfg: Config, env: Env, p: System)
    requires Stationary(env.world) && !p.crashed && (forall i | 0 <= i < |p.observed| :: Genuine(cfg, env.world, p, i))
    ensures var next := Tick(cfg, Uninterrupted(env), p);
      && !next.crashed && (forall i | 0 <= i < |next.observed| :: Genuine(cfg, env.world, next, i))
      && |next.observed| == |p.observed| + if Awaiting(p.machine.control) then 1 else 0
  {
    hide Name, Proceed, AskOf, Perform, Stationary;
    var next := Tick(cfg, Uninterrupted(env), p);
    if Live(p) {
      PerformAnytime(cfg.refuse, env.world, |p.host.trace|, 0, AskOf(cfg, p.machine).effect);
      forall i | 0 <= i < |next.observed| ensures Genuine(cfg, env.world, next, i) {
        if i < |p.observed| {
          assert Genuine(cfg, env.world, p, i) && next.observed[i] == p.observed[i];
        }
      }
    }
  }

  /** Nothing crashes it, so after `n` steps it is over or has completed all of them. */
  lemma {:induction false} RunsThrough(cfg: Config, env: Env, s: System, n: nat)
    requires Stationary(env.world) && s.observed == [] && !s.crashed
    ensures var p := Exec(cfg, Uninterrupted(env), s, n);
      && !p.crashed && (forall i | 0 <= i < |p.observed| :: Genuine(cfg, env.world, p, i))
      && |p.observed| <= n && (Awaiting(p.machine.control) ==> |p.observed| == n)
  {
    hide Exec, Tick, Genuine, Stationary;
    ExecUnfolds(cfg, Uninterrupted(env), s, if n == 0 then 0 else n - 1);
    if n > 0 {
      var p := Exec(cfg, Uninterrupted(env), s, n - 1);
      RunsThrough(cfg, env, s, n - 1);
      TickGenuine(cfg, env, p);
      OverStays(cfg, env, p);
    }
  }

  lemma OverStays(cfg: Config, env: Env, p: System)
    ensures !Awaiting(p.machine.control) ==> Tick(cfg, Uninterrupted(env), p) == p
  {
  }

  // ---------- attempts follow it ----------

  /** Every entry is the result of a step of the uninterrupted run. */
  ghost predicate TrueTo(codec: Codec, journal: map<string, Json>, p: System) {
    forall n | n in journal :: exists i | 0 <= i < |p.observed| ::
      p.observed[i].result.Ok? && Name(p.observed[i].step) == n && Stored(codec, journal, n, p.observed[i].result.value)
  }

  /** The attempt has taken the first steps of the uninterrupted run. */
  ghost predicate Follows(p: System, s: System) {
    && |s.observed| <= |p.observed|
    && s.observed == p.observed[..|s.observed|]
    && s.machine == MachineAt(p, |s.observed|)
  }

  /** Replayed or run, a step returns what performing its effect gives, and that is all it writes. */
  lemma ReliableStep(refuse: RefusalRenderer, env: Env, host: Host, name: string, e: Effect, r: StepResult)
    requires Reliable(env) && r == Perform(refuse, env.world, |host.trace|, e).0
    requires name in host.journal ==> r.Ok? && Stored(env.runtime.codec, host.journal, name, r.value)
    ensures var (ret, next) := Step(refuse, env, host, name, e);
      && (ret.Returned? ==> ret.result == r)
      && (|| next.journal == host.journal
          || (r.Ok? && next.journal == host.journal[name := env.runtime.codec.encode(r.value).value]))
  {
    hide Perform, RoundTrips;
  }

  /** The entry for a step, if there is one, is that step's own result. */
  lemma EntryIsResult(codec: Codec, journal: map<string, Json>, p: System, i: nat)
    requires TrueTo(codec, journal, p) && i < |p.observed|
    requires forall a, b | 0 <= a < b < |p.observed| :: p.observed[a].step != p.observed[b].step
    ensures Name(p.observed[i].step) in journal ==>
              p.observed[i].result.Ok? && Stored(codec, journal, Name(p.observed[i].step), p.observed[i].result.value)
  {
    hide Name, Stored;
    var n := Name(p.observed[i].step);
    if n in journal {
      var a :| 0 <= a < |p.observed| && p.observed[a].result.Ok? && Name(p.observed[a].step) == n
        && Stored(codec, journal, n, p.observed[a].result.value);
      NamesAreDistinct(p.observed[a].step, p.observed[i].step);
      assert a == i;
    }
  }

  lemma TrueToWritten(codec: Codec, journal: map<string, Json>, p: System, i: nat)
    requires RoundTrips(codec) && TrueTo(codec, journal, p)
    requires i < |p.observed| && p.observed[i].result.Ok? && codec.encode(p.observed[i].result.value).Some?
    ensures TrueTo(codec, journal[Name(p.observed[i].step) := codec.encode(p.observed[i].result.value).value], p)
  {
    hide Name, Rehydrate;
    var v := p.observed[i].result.value;
    var n := Name(p.observed[i].step);
    var more := journal[n := codec.encode(v).value];
    forall m | m in more ensures exists a | 0 <= a < |p.observed| ::
      p.observed[a].result.Ok? && Name(p.observed[a].step) == m && Stored(codec, more, m, p.observed[a].result.value)
    {
      if m == n {
        assert Stored(codec, more, n, v);
      } else {
        var a :| 0 <= a < |p.observed| && p.observed[a].result.Ok? && Name(p.observed[a].step) == m
          && Stored(codec, journal, m, p.observed[a].result.value);
        assert Stored(codec, more, m, p.observed[a].result.value);
      }
    }
  }

  lemma TickFollows(cfg: Config, env: Env, first: Machine, p: System, s: System)
    requires Reliable(env) && Stationary(env.world) && Explained(cfg, first, p) && DistinctSteps(cfg, p)
    requires forall i | 0 <= i < |p.observed| :: Genuine(cfg, env.world, p, i)
    requires Follows(p, s) && TrueTo(env.runtime.codec, s.host.journal, p)
    requires Live(s) ==> |s.observed| < |p.observed|
    ensures var next := Tick(cfg, env, s);
      && Follows(p, next) && TrueTo(env.runtime.codec, next.host.journal, p)
      && |next.observed| == |s.observed| + if Live(s) && !next.crashed then 1 else 0
  {
    hide Step, Name, Proceed, Perform, Stationary, RoundTrips, Stored, TrueTo;
    if Live(s) {
      var n, codec := |s.observed|, env.runtime.codec;
      var o, ask := p.observed[n], AskOf(cfg, s.machine);
      assert Link(cfg, p, n) && Genuine(cfg, env.world, p, n);
      PerformAnytime(cfg.refuse, env.world, 0, |s.host.trace|, ask.effect);
      EntryIsResult(codec, s.host.journal, p, n);
      ReliableStep(cfg.refuse, env, s.host, Name(ask.step), ask.effect, o.result);
      if o.result.Ok? {
        TrueToWritten(codec, s.host.journal, p, n);
      }
      assert p.observed[..n + 1] == p.observed[..n] + [o];
    }
  }

  /** An attempt of any length up to the uninterrupted run's, over a true journal, follows it. */
  lemma {:induction false} AttemptFollows(cfg: Config, env: Env, messages: seq<ChatMessage>, policies: seq<Policy>,
                                          host: Host, p: System, n: nat, k: nat)
    requires Reliable(env) && Stationary(env.world) && k <= n
    requires Explained(cfg, Start(cfg, messages, policies, host).machine, p) && DistinctSteps(cfg, p)
    requires forall i | 0 <= i < |p.observed| :: Genuine(cfg, env.world, p, i)
    requires Awaiting(p.machine.control) ==> |p.observed| == n
    requires TrueTo(env.runtime.codec, host.journal, p)
    ensures var s := Exec(cfg, env, Start(cfg, messages, policies, host), k);
      && Follows(p, s) && TrueTo(env.runtime.codec, s.host.journal, p) && |s.observed| <= k
      && (!s.crashed && Awaiting(s.machine.control) ==> |s.observed| == k)
  {
    hide Exec, Tick, Settle, Genuine, Stationary, Reliable, TrueTo, DistinctSteps, Link;
    var s0 := Start(cfg, messages, policies, host);
    ExecUnfolds(cfg, env, s0, if k == 0 then 0 else k - 1);
    if k > 0 {
      var s := Exec(cfg, env, s0, k - 1);
      AttemptFollows(cfg, env, messages, policies, host, p, n, k - 1);
      TickFollows(cfg, env, s0.machine, p, s);
      NotLiveStays(cfg, env, s);
    }
  }

  lemma NotLiveStays(cfg: Config, env: Env, s: System)
    ensures !Live(s) ==> Tick(cfg, env, s) == s
  {
  }

  lemma {:induction false} CampaignStaysTrue(cfg: Config, env: Env, messages: seq<ChatMessage>, policies: seq<Policy>,
                                             host: Host, p: System, n: nat, cuts: seq<nat>)
    requires Reliable(env) && Stationary(env.world) && forall c | c in cuts :: c <= n
    requires Explained(cfg, Start(cfg, messages, policies, host).machine, p) && DistinctSteps(cfg, p)
    requires forall i | 0 <= i < |p.observed| :: Genuine(cfg, env.world, p, i)
    requires Awaiting(p.machine.control) ==> |p.observed| == n
    requires TrueTo(env.runtime.codec, host.journal, p)
    ensures TrueTo(env.runtime.codec, Campaign(cfg, env, messages, policies, host, cuts).journal, p)
    decreases |cuts|
  {
    hide Exec, Settle, Genuine, Stationary, Reliable, TrueTo, DistinctSteps, Link;
    if cuts != [] {
      assert cuts[0] in cuts && forall c | c in cuts[1..] :: c in cuts;
      AttemptFollows(cfg, env, messages, policies, host, p, n, cuts[0]);
      var after := Exec(cfg, env, Start(cfg, messages, policies, host), cuts[0]).host;
      CampaignStaysTrue(cfg, env, messages, policies, after, p, n, cuts[1..]);
    }
  }

  /**
   After any number of attempts, each cut anywhere within `n` steps and dead wherever its world killed it, a last
   attempt that is not killed within `n` steps is where the uninterrupted plain run is after `n`: same state, same
   steps taken, same results. One that is killed has taken the first of those steps. The condition is that no turn of
   the plain run asks two calls with one id.
   */
  lemma CampaignEndsAsPlain(cfg: Config, env: Env, messages: seq<ChatMessage>, policies: seq<Policy>, host: Host,
                            cuts: seq<nat>, n: nat)
    requires Reliable(env) && Stationary(env.world) && host.journal == map[]
    requires forall c | c in cuts :: c <= n
    requires DistinctCallIds(cfg, Exec(cfg, Uninterrupted(env), Start(cfg, messages, policies, host), n))
    ensures var p := Exec(cfg, Uninterrupted(env), Start(cfg, messages, policies, host), n);
      var last := Campaign(cfg, env, messages, policies, host, cuts);
      var s := Exec(cfg, env, Start(cfg, messages, policies, last), n);
      && s.observed <= p.observed
      && (!s.crashed ==> s.machine == p.machine && s.observed == p.observed)
  {
    hide Exec, Settle, Genuine, Stationary, Reliable, DistinctSteps, DistinctCallIds, Link;
    var s0 := Start(cfg, messages, policies, host);
    var p := Exec(cfg, Uninterrupted(env), s0, n);
    RunsThrough(cfg, env, s0, n);
    ExecExplained(cfg, Uninterrupted(env), s0, n);
    StepsDistinctIffCallIds(cfg, s0.machine, p);
    CampaignStaysTrue(cfg, env, messages, policies, host, p, n, cuts);
    var last := Campaign(cfg, env, messages, policies, host, cuts);
    AttemptFollows(cfg, env, messages, policies, last, p, n, n);
    var s := Exec(cfg, env, Start(cfg, messages, policies, last), n);
    if !s.crashed && |s.observed| < |p.observed| {
      AskedThere(cfg, s0.machine, p, |s.observed|);
    }
  }

  lemma AskedThere(cfg: Config, first: Machine, p: System, i: nat)
    requires Explained(cfg, first, p) && i < |p.observed|
    ensures Awaiting(MachineAt(p, i).control)
  {
    hide Proceed;
    assert Link(cfg, p, i);
  }
}
