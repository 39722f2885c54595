/**
 Crash and resume. A run killed at any point and restarted over the journal it left behind passes through the same
 states, step by step, without asking the model or any tool again.
 */
module LoopResume {
  import opened Wrappers
  import opened AgentTypes
  import opened StepNames
  import opened Policies
  import opened StepRuntime
  import opened LoopMachine

  /** The machine after `i` completed steps of the run. */
  function MachineAt(s: System, i: nat): Machine
    requires i <= |s.observed|
  {
    if i < |s.observed| then s.observed[i].before else s.machine
  }

  /** Step `i` of the run was asked by the machine recorded for it and led to the next one. */
  ghost predicate Link(cfg: Config, s: System, i: nat)
    requires i < |s.observed|
  {
    var o := s.observed[i];
    && Awaiting(o.before.control)
    && Answers(o.before.control, o.result)
    && o.step == AskOf(cfg, o.before).step
    && MachineAt(s, i + 1) == Proceed(cfg, o.before, o.result)
  }

  /** The history of a run explains its state, from its first machine on. */
  ghost predicate Explained(cfg: Config, first: Machine, s: System) {
    && MachineAt(s, 0) == first
    && forall i | 0 <= i < |s.observed| :: Link(cfg, s, i)
  }

  lemma TickExplained(cfg: Config, env: Env, first: Machine, s: System)
    requires Explained(cfg, first, s)
    ensures Explained(cfg, first, Tick(cfg, env, s))
  {
    hide Step, Name, Proceed;
    var next := Tick(cfg, env, s);
    if next.observed != s.observed {
      var o := next.observed[|s.observed|];
      assert next.observed == s.observed + [o] && o.before == s.machine;
      forall i | 0 <= i < |next.observed|
        ensures Link(cfg, next, i)
      {
        if i < |s.observed| {
          assert Link(cfg, s, i);
        }
      }
    } else {
      assert forall i | 0 <= i < |s.observed| :: Link(cfg, s, i) ==> Link(cfg, next, i);
    }
  }

  lemma {:induction false} ExecExplained(cfg: Config, env: Env, s: System, k: nat)
    requires s.observed == []
    ensures Explained(cfg, s.machine, Exec(cfg, env, s, k))
  {
    hide Exec, Tick, AskOf, Proceed;
    if k == 0 {
      ExecUnfolds(cfg, env, s, 0);
    } else {
      ExecExplained(cfg, env, s, k - 1);
      ExecUnfolds(cfg, env, s, k - 1);
      TickExplained(cfg, env, s.machine, Exec(cfg, env, s, k - 1));
    }
  }

  // ---------- what a durable run leaves in the journal ----------

  /** A step left its result behind: replayed from the journal, or run and written to it. */
  predicate DurableEvent(e: StepEvent) {
    e.crashed || e.fetch == Hit || (e.ran == RanOk && e.persisted)
  }

  function LastEvent(host: Host): StepEvent
    requires host.trace != []
  {
    host.trace[|host.trace| - 1]
  }

  predicate Stored(codec: Codec, journal: map<string, Json>, name: string, value: StepValue) {
    name in journal && Rehydrate(codec, KindOfValue(value), journal[name]) == Some(value)
  }

  /** The runtime journals, with a codec that reads back what it wrote. */
  ghost predicate Journaling(env: Env) {
    env.runtime.Checkpoint? && RoundTrips(env.runtime.codec)
  }

  lemma StepFacts(refuse: RefusalRenderer, env: Env, host: Host, name: string, e: Effect)
    requires Journaling(env)
    ensures var (ret, host') := Step(refuse, env, host, name, e);
      && host'.trace == host.trace + [LastEvent(host')]
      && LastEvent(host').name == name
      && (ret.Crashed? <==> LastEvent(host').crashed)
      && (forall n | n in host.journal && n != name :: n in host'.journal && host'.journal[n] == host.journal[n])
      && (ret.Returned? && DurableEvent(LastEvent(host')) ==>
            ret.result.Ok? && Stored(env.runtime.codec, host'.journal, name, ret.result.value))
  {
    hide Perform;
  }

  /** A step whose entry is there finds it, unless the read fails, and then leaves the journal alone. */
  lemma StepFinds(refuse: RefusalRenderer, env: Env, host: Host, name: string, e: Effect, v: StepValue)
    requires env.runtime.Checkpoint? && Stored(env.runtime.codec, host.journal, name, v)
      && KindOfValue(v) == KindOfEffect(e)
    ensures var next := Step(refuse, env, host, name, e).1;
      && next.trace != []
      && (LastEvent(next).fetch == FetchFailed || (LastEvent(next).fetch == Hit && next.journal == host.journal))
  {
    hide Perform;
  }

  /** The steps of a run, with the one it crashed in, are pairwise different. */
  ghost predicate DistinctSteps(cfg: Config, s: System) {
    && (forall i, j | 0 <= i < j < |s.observed| :: s.observed[i].step != s.observed[j].step)
    && (s.crashed && Awaiting(s.machine.control) ==>
          forall i | 0 <= i < |s.observed| :: s.observed[i].step != AskOf(cfg, s.machine).step)
  }

  /** No journal read failed since event `base`. */
  ghost predicate AllFetched(base: nat, s: System) {
    forall i | base <= i < |s.host.trace| :: s.host.trace[i].fetch != FetchFailed
  }

  /**
   Since its first event `base`, the run left every completed step behind; and no step repeats another, or no journal
   read failed, so that a repeated one found its entry.
   */
  ghost predicate Durable(cfg: Config, base: nat, s: System) {
    && base <= |s.host.trace|
    && (DistinctSteps(cfg, s) || AllFetched(base, s))
    && forall i | base <= i < |s.host.trace| :: DurableEvent(s.host.trace[i])
  }

  ghost predicate Journaled(codec: Codec, journal: map<string, Json>, o: Observation) {
    && o.result.Ok?
    && Stored(codec, journal, Name(o.step), o.result.value)
  }

  lemma TickDurable(cfg: Config, env: Env, base: nat, s: System)
    requires Journaling(env) && base <= |s.host.trace|
    requires Durable(cfg, base, Tick(cfg, env, s))
    ensures Durable(cfg, base, s)
  {
    hide Step, Name, Proceed, Rehydrate, RoundTrips;
    var next := Tick(cfg, env, s);
    if Live(s) {
      var ask := AskOf(cfg, s.machine);
      StepFacts(cfg.refuse, env, s.host, Name(ask.step), ask.effect);
      assert forall i | 0 <= i < |s.host.trace| :: next.host.trace[i] == s.host.trace[i];
      assert forall i | 0 <= i < |s.observed| :: next.observed[i] == s.observed[i];
    }
  }

  /** A step leaves what was journaled in the journal: a repeated name is found there, or there is none. */
  lemma TickJournal(cfg: Config, env: Env, base: nat, s: System, i: nat)
    requires Journaling(env) && base <= |s.host.trace|
    requires Durable(cfg, base, Tick(cfg, env, s)) && Live(s)
    requires i < |s.observed| && Link(cfg, s, i) && Journaled(env.runtime.codec, s.host.journal, s.observed[i])
    ensures Journaled(env.runtime.codec, Tick(cfg, env, s).host.journal, s.observed[i])
  {
    hide Step, Name, Proceed, Rehydrate, RoundTrips;
    var next, ask, o := Tick(cfg, env, s), AskOf(cfg, s.machine), s.observed[i];
    StepFacts(cfg.refuse, env, s.host, Name(ask.step), ask.effect);
    NamesAreDistinct(o.step, ask.step);
    if o.step == ask.step {
      assert next.observed[i] == o;
      assert !DistinctSteps(cfg, next) by {
        assert next.crashed || next.observed[|s.observed|].step == ask.step;
      }
      assert LastEvent(next.host).fetch != FetchFailed;
      StepFinds(cfg.refuse, env, s.host, Name(ask.step), ask.effect, o.result.value);
    }
  }

  lemma TickJournals(cfg: Config, env: Env, base: nat, first: Machine, s: System)
    requires Journaling(env) && base <= |s.host.trace| && Explained(cfg, first, s)
    requires Durable(cfg, base, Tick(cfg, env, s))
    requires forall i | 0 <= i < |s.observed| :: Journaled(env.runtime.codec, s.host.journal, s.observed[i])
    ensures var next := Tick(cfg, env, s);
      forall i | 0 <= i < |next.observed| :: Journaled(env.runtime.codec, next.host.journal, next.observed[i])
  {
    hide Step, Name, Proceed, Stored, RoundTrips, Link;
    if Live(s) {
      var next, ask := Tick(cfg, env, s), AskOf(cfg, s.machine);
      StepFacts(cfg.refuse, env, s.host, Name(ask.step), ask.effect);
      forall i | 0 <= i < |next.observed|
        ensures Journaled(env.runtime.codec, next.host.journal, next.observed[i])
      {
        if i < |s.observed| {
          assert Link(cfg, s, i);
          TickJournal(cfg, env, base, s, i);
          assert next.observed[i] == s.observed[i];
        } else {
          assert !next.crashed && next.observed[i].step == ask.step;
          assert DurableEvent(LastEvent(next.host));
        }
      }
    }
  }

  lemma {:induction false} DurableJournal(cfg: Config, env: Env, s: System, k: nat)
    requires Journaling(env)
    requires s.observed == []
    requires Durable(cfg, |s.host.trace|, Exec(cfg, env, s, k))
    ensures var t := Exec(cfg, env, s, k);
      forall i | 0 <= i < |t.observed| :: Journaled(env.runtime.codec, t.host.journal, t.observed[i])
  {
    hide Exec, Tick, Journaled, Journaling, AskOf, Durable;
    ExecUnfolds(cfg, env, s, if k == 0 then 0 else k - 1);
    if k > 0 {
      var t := Exec(cfg, env, s, k - 1);
      TraceGrows(cfg, env, s, k - 1);
      TickDurable(cfg, env, |s.host.trace|, t);
      DurableJournal(cfg, env, s, k - 1);
      ExecExplained(cfg, env, s, k - 1);
      TickJournals(cfg, env, |s.host.trace|, s.machine, t);
    }
  }

  lemma {:induction false} TraceGrows(cfg: Config, env: Env, s: System, k: nat)
    ensures |s.host.trace| <= |Exec(cfg, env, s, k).host.trace|
  {
    hide Exec, Tick;
    ExecUnfolds(cfg, env, s, if k == 0 then 0 else k - 1);
    if k > 0 {
      TraceGrows(cfg, env, s, k - 1);
      TickTrace(cfg, env, Exec(cfg, env, s, k - 1));
    }
  }

  lemma TickTrace(cfg: Config, env: Env, s: System)
    ensures |Tick(cfg, env, s).host.trace| == |s.host.trace| + if Live(s) then 1 else 0
  {
    hide Step, Name, Proceed;
  }

  // ---------- resuming ----------

  /** No journal read fails and no crash happens during `count` steps from tick `from`. */
  ghost predicate Quiet(env: Env, from: nat, count: nat) {
    forall t: nat | from <= t < from + count :: !env.fetchFails(t) && env.crash(t) == NoCrash
  }

  lemma StepReplays(refuse: RefusalRenderer, env: Env, host: Host, name: string, e: Effect, v: StepValue)
    requires env.runtime.Checkpoint? && Stored(env.runtime.codec, host.journal, name, v)
      && KindOfEffect(e) == KindOfValue(v)
    requires !env.fetchFails(|host.trace|) && env.crash(|host.trace|) == NoCrash
    ensures Step(refuse, env, host, name, e)
            == (Returned(Ok(v)), Happened(host, StepEvent(name, Hit, NotRun, false, false), multiset{}))
  {
    hide Perform, GoLive;
  }

  /** `r` has replayed the first `k` completed steps of `t` and nothing else has happened to its world. */
  ghost predicate Replayed(t: System, world: Host, r: System, k: nat)
    requires k <= |t.observed|
  {
    && !r.crashed
    && r.observed == t.observed[..k]
    && r.machine == MachineAt(t, k)
    && r.host.journal == world.journal
    && r.host.ran == world.ran
    && |r.host.trace| == |world.trace| + k
    && world.trace <= r.host.trace
    && forall i | |world.trace| <= i < |r.host.trace| :: r.host.trace[i].fetch == Hit && r.host.trace[i].ran == NotRun
  }

  lemma TickReplays(cfg: Config, env: Env, t: System, world: Host, r: System, k: nat)
    requires env.runtime.Checkpoint?
    requires k < |t.observed| && Link(cfg, t, k)
    requires Journaled(env.runtime.codec, world.journal, t.observed[k])
    requires Replayed(t, world, r, k)
    requires !env.fetchFails(|r.host.trace|) && env.crash(|r.host.trace|) == NoCrash
    ensures Replayed(t, world, Tick(cfg, env, r), k + 1)
  {
    hide Step, Name, Proceed, Rehydrate;
    var o := t.observed[k];
    var ask := AskOf(cfg, r.machine);
    StepReplays(cfg.refuse, env, r.host, Name(ask.step), ask.effect, o.result.value);
    assert t.observed[..k + 1] == t.observed[..k] + [o];
  }

  lemma {:induction false} ReplaysPrefix(cfg: Config, env: Env, t: System, r0: System, k: nat)
    requires env.runtime.Checkpoint?
    requires k <= |t.observed| && r0.observed == [] && !r0.crashed
    requires Explained(cfg, r0.machine, t)
    requires forall i | 0 <= i < |t.observed| :: Journaled(env.runtime.codec, r0.host.journal, t.observed[i])
    requires Quiet(env, |r0.host.trace|, k)
    ensures Replayed(t, r0.host, Exec(cfg, env, r0, k), k)
  {
    hide Exec, Tick, Journaled, Link, Proceed, AskOf;
    ExecUnfolds(cfg, env, r0, if k == 0 then 0 else k - 1);
    if k > 0 {
      ReplaysPrefix(cfg, env, t, r0, k - 1);
      TickReplays(cfg, env, t, r0.host, Exec(cfg, env, r0, k - 1), k - 1);
    }
  }

  /**
   Crash-resume simulation. Take any run, cut anywhere (its last step may have crashed before the effect, before the
   write or after it), whose completed steps were all written to the journal, and in which no step name repeats or no
   journal read failed. Restart it with the same configuration, conversation and fresh policies over that journal, in
   any other world that is quiet for as long. After each of those steps the restarted run is in the state the first
   run was in, has been given the same results, and has run neither the model nor a tool.
   */
  lemma ResumeSimulates(cfg: Config, messages: seq<ChatMessage>, policies: seq<Policy>,
                        env: Env, host: Host, n: nat, env': Env, host': Host, k: nat)
    requires Journaling(env) && env'.runtime == env.runtime
    requires var t := Exec(cfg, env, Start(cfg, messages, policies, host), n);
      && Durable(cfg, |host.trace|, t)
      && host'.journal == t.host.journal
      && k <= |t.observed|
      && Quiet(env', |host'.trace|, k)
    ensures var t := Exec(cfg, env, Start(cfg, messages, policies, host), n);
      Replayed(t, host', Exec(cfg, env', Start(cfg, messages, policies, host'), k), k)
  {
    hide Exec, Tick, Journaled, Link, Proceed, AskOf, Settle, Move, StartState, RoundTrips;
    var s0 := Start(cfg, messages, policies, host);
    ExecExplained(cfg, env, s0, n);
    DurableJournal(cfg, env, s0, n);
    ReplaysPrefix(cfg, env', Exec(cfg, env, s0, n), Start(cfg, messages, policies, host'), k);
  }
}
