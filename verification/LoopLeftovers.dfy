/**
 What a journal says of every run over it. A journal determines by itself which steps a run replays before its first
 gap; entries it does not reach that way are leftovers, and only a leftover can be replayed behind a gap.
 */
module LoopLeftovers {
  import opened Wrappers
  import opened AgentTypes
  import opened StepNames
  import opened Policies
  import opened StepRuntime
  import opened LoopMachine
  import opened LoopResume
  import opened LoopCounts
  import opened LoopGaps

  type Journal = map<string, Json>

  function ReadBack(codec: Codec, journal: Journal, step: StepId): (v: StepValue)
    requires ReadableAs(codec, journal, step)
    ensures KindOfValue(v) == KindOfStep(step)
  {
    Rehydrate(codec, KindOfStep(step), journal[Name(step)]).value
  }

  /** The machine waits for a step the journal has an entry for. */
  predicate Found(cfg: Config, codec: Codec, journal: Journal, m: Machine) {
    Awaiting(m.control) && ReadableAs(codec, journal, AskOf(cfg, m).step)
  }

  function Advanced(cfg: Config, codec: Codec, journal: Journal, m: Machine): Machine
    requires Found(cfg, codec, journal, m)
  {
    Proceed(cfg, m, Ok(ReadBack(codec, journal, AskOf(cfg, m).step)))
  }

  /** The machine after `n` steps read off the journal, or where it finds no more. */
  function JournalMachine(cfg: Config, codec: Codec, journal: Journal, m: Machine, n: nat): Machine {
    if n == 0 then m
    else
      var before := JournalMachine(cfg, codec, journal, m, n - 1);
      if Found(cfg, codec, journal, before) then Advanced(cfg, codec, journal, before) else before
  }

  /** The steps so read: up to `n` of them. */
  function JournalSteps(cfg: Config, codec: Codec, journal: Journal, m: Machine, n: nat): (r: seq<StepId>)
    ensures |r| <= n
    ensures forall step | step in r :: ReadableAs(codec, journal, step)
  {
    if n == 0 then []
    else
      var before := JournalMachine(cfg, codec, journal, m, n - 1);
      JournalSteps(cfg, codec, journal, m, n - 1)
      + if Found(cfg, codec, journal, before) then [AskOf(cfg, before).step] else []
  }

  /** Once nothing is found, nothing is found any more; until then each step adds one. */
  lemma {:induction false} JournalStops(cfg: Config, codec: Codec, journal: Journal, m: Machine, a: nat, b: nat)
    requires a <= b
    ensures var (sa, sb) := (JournalSteps(cfg, codec, journal, m, a), JournalSteps(cfg, codec, journal, m, b));
      && sa <= sb
      && (|sa| < a ==> !Found(cfg, codec, journal, JournalMachine(cfg, codec, journal, m, a)))
      && (!Found(cfg, codec, journal, JournalMachine(cfg, codec, journal, m, a)) ==>
            sb == sa && JournalMachine(cfg, codec, journal, m, b) == JournalMachine(cfg, codec, journal, m, a))
    decreases b, a
  {
    hide Found, Advanced, AskOf;
    if a < b {
      JournalStops(cfg, codec, journal, m, a, b - 1);
    } else if a > 0 {
      JournalStops(cfg, codec, journal, m, a - 1, a - 1);
    }
  }

  // ---------- a run over the journal ----------

  ghost predicate Fetches(env: Env) {
    env.runtime.Checkpoint? && forall t :: !env.fetchFails(t)
  }

  /** The run has only read off the journal so far. */
  ghost predicate OnJournal(cfg: Config, codec: Codec, journal: Journal, m: Machine, s: System, k: nat) {
    var steps := JournalSteps(cfg, codec, journal, m, k);
    && |s.observed| <= |steps|
    && (forall i | 0 <= i < |s.observed| :: s.observed[i].step == steps[i])
    && (!s.crashed ==> |s.observed| == k && s.host.journal == journal
                       && s.machine == JournalMachine(cfg, codec, journal, m, k))
  }

  lemma StepReadsBack(refuse: RefusalRenderer, env: Env, host: Host, step: StepId, e: Effect)
    requires Fetches(env) && KindOfEffect(e) == KindOfStep(step) && ReadableAs(env.runtime.codec, host.journal, step)
    ensures var (ret, next) := Step(refuse, env, host, Name(step), e);
      && next.journal == host.journal
      && (ret.Returned? ==> ret.result == Ok(ReadBack(env.runtime.codec, host.journal, step)))
  {
    hide Perform, Name, Rehydrate;
  }

  lemma TickOnJournal(cfg: Config, env: Env, journal: Journal, m: Machine, s: System, k: nat)
    requires Fetches(env) && OnJournal(cfg, env.runtime.codec, journal, m, s, k)
    requires |JournalSteps(cfg, env.runtime.codec, journal, m, k + 1)| == k + 1
    ensures OnJournal(cfg, env.runtime.codec, journal, m, Tick(cfg, env, s), k + 1)
  {
    hide Step, Name, Proceed, ReadableAs, ReadBack;
    if !s.crashed {
      var ask := AskOf(cfg, s.machine);
      StepReadsBack(cfg.refuse, env, s.host, ask.step, ask.effect);
    }
  }

  lemma {:induction false} ExecOnJournal(cfg: Config, env: Env, s: System, k: nat)
    requires Fetches(env) && s.observed == [] && !s.crashed
    requires |JournalSteps(cfg, env.runtime.codec, s.host.journal, s.machine, k)| == k
    ensures OnJournal(cfg, env.runtime.codec, s.host.journal, s.machine, Exec(cfg, env, s, k), k)
  {
    hide Exec, Tick, OnJournal, JournalSteps;
    ExecUnfolds(cfg, env, s, if k == 0 then 0 else k - 1);
    if k == 0 {
      OnJournalYet(cfg, env.runtime.codec, s);
    } else {
      FullBefore(cfg, env.runtime.codec, s.host.journal, s.machine, k);
      ExecOnJournal(cfg, env, s, k - 1);
      TickOnJournal(cfg, env, s.host.journal, s.machine, Exec(cfg, env, s, k - 1), k - 1);
    }
  }

  lemma FullBefore(cfg: Config, codec: Codec, journal: Journal, m: Machine, k: nat)
    requires k > 0 && |JournalSteps(cfg, codec, journal, m, k)| == k
    ensures |JournalSteps(cfg, codec, journal, m, k - 1)| == k - 1
  {
    hide Found, AskOf;
  }

  lemma OnJournalYet(cfg: Config, codec: Codec, s: System)
    requires s.observed == [] && !s.crashed
    ensures OnJournal(cfg, codec, s.host.journal, s.machine, s, 0)
  {
  }

  /** The steps a run takes first are those of its journal, and then comes one the journal has no entry for. */
  lemma FirstStepsAreJournals(cfg: Config, env: Env, s: System, k: nat)
    requires Fetches(env) && s.observed == [] && !s.crashed
    ensures var r := Exec(cfg, env, s, k);
      var steps := JournalSteps(cfg, env.runtime.codec, s.host.journal, s.machine, k);
      && (forall i | 0 <= i < |r.observed| && i < |steps| :: r.observed[i].step == steps[i])
      && (|steps| < |r.observed| ==> !ReadableAs(env.runtime.codec, s.host.journal, r.observed[|steps|].step))
  {
    hide Exec, Tick, Found, AskOf, JournalSteps, JournalMachine, ReadableAs, Proceed;
    var codec, j, m := env.runtime.codec, s.host.journal, s.machine;
    var r, steps := Exec(cfg, env, s, k), JournalSteps(cfg, codec, j, m, k);
    var n := |steps|;
    JournalStops(cfg, codec, j, m, n, k);
    StepsUpTo(cfg, codec, j, m, k);
    ExecOnJournal(cfg, env, s, n);
    var t := Exec(cfg, env, s, n);
    ObservedGrows(cfg, env, s, n, k);
    assert forall i | 0 <= i < |t.observed| :: r.observed[i] == t.observed[i];
    if t.crashed {
      CrashedForGood(cfg, env, s, n, k);
    } else if n < |r.observed| {
      ObservedGrows(cfg, env, s, 0, k);
      ExecExplained(cfg, env, s, n);
      ExecExplained(cfg, env, s, k);
      NextAsked(cfg, env, s, n, k);
      NotFound(cfg, codec, j, t.machine);
    }
  }

  lemma NotFound(cfg: Config, codec: Codec, journal: Journal, m: Machine)
    requires !Found(cfg, codec, journal, m) && Awaiting(m.control)
    ensures !ReadableAs(codec, journal, AskOf(cfg, m).step)
  {
  }

  /** The journal's steps within `k` are all there are within their own number, and if fewer than `k`, all. */
  lemma {:induction false} StepsUpTo(cfg: Config, codec: Codec, journal: Journal, m: Machine, k: nat)
    ensures var steps := JournalSteps(cfg, codec, journal, m, k);
      && JournalSteps(cfg, codec, journal, m, |steps|) == steps
      && (|steps| < k ==> !Found(cfg, codec, journal, JournalMachine(cfg, codec, journal, m, |steps|)))
  {
    hide Found, Advanced, AskOf;
    if k > 0 {
      StepsUpTo(cfg, codec, journal, m, k - 1);
      JournalStops(cfg, codec, journal, m, |JournalSteps(cfg, codec, journal, m, k - 1)|, k - 1);
    }
  }

  lemma {:induction false} CrashedForGood(cfg: Config, env: Env, s: System, n: nat, k: nat)
    requires n <= k && Exec(cfg, env, s, n).crashed
    ensures Exec(cfg, env, s, k) == Exec(cfg, env, s, n)
    decreases k
  {
    hide Exec, Tick;
    if n < k {
      ExecUnfolds(cfg, env, s, k - 1);
      CrashedForGood(cfg, env, s, n, k - 1);
      CrashedStays(cfg, env, Exec(cfg, env, s, k - 1));
    }
  }

  /** What an uncrashed run asks next is its next step, if it ever takes one. */
  lemma NextAsked(cfg: Config, env: Env, s: System, n: nat, k: nat)
    requires n <= k && !Exec(cfg, env, s, n).crashed
    requires var t, r := Exec(cfg, env, s, n), Exec(cfg, env, s, k);
      && |t.observed| < |r.observed| && t.observed <= r.observed
      && Explained(cfg, s.machine, t) && Explained(cfg, s.machine, r)
    ensures var t, r := Exec(cfg, env, s, n), Exec(cfg, env, s, k);
      Awaiting(t.machine.control) && r.observed[|t.observed|].step == AskOf(cfg, t.machine).step
  {
    hide Exec, Proceed, AskOf;
    var t, r := Exec(cfg, env, s, n), Exec(cfg, env, s, k);
    assert r.observed[..|t.observed|] == t.observed[..|t.observed|];
    SamePrefixSameMachine(cfg, s.machine, t, r, |t.observed|);
    assert Link(cfg, r, |t.observed|);
  }

  // ---------- behind the first gap ----------

  /** An entry the journal's own steps do not reach. */
  predicate Leftover(cfg: Config, codec: Codec, journal: Journal, m: Machine, k: nat, step: StepId) {
    ReadableAs(codec, journal, step) && step !in JournalSteps(cfg, codec, journal, m, k)
  }

  /**
   Over any journal, a run whose reads work and whose steps do not repeat replays until the first gap and then goes
   on live if and only if it asks for no leftover of the journal.
   */
  lemma LiveIffNoLeftoverAsked(cfg: Config, env: Env, messages: seq<ChatMessage>, policies: seq<Policy>, host: Host,
                               k: nat)
    requires Journaling(env) && Fetches(env)
    requires DistinctSteps(cfg, Exec(cfg, env, Start(cfg, messages, policies, host), k))
    ensures var s := Start(cfg, messages, policies, host);
      var r := Exec(cfg, env, s, k);
      LiveFromFirstGap(|host.trace|, r) <==>
        forall i | 0 <= i < |r.observed| ::
          !Leftover(cfg, env.runtime.codec, host.journal, s.machine, k, r.observed[i].step)
  {
    hide Exec, Settle, RoundTrips, Name, ReplayedAt, JournalSince, Aligned, Written, ReadableAs, JournalSteps;
    var s := Start(cfg, messages, policies, host);
    var r, codec, j := Exec(cfg, env, s, k), env.runtime.codec, host.journal;
    var steps := JournalSteps(cfg, codec, j, s.machine, k);
    ReplayedWhenServable(cfg, env, s, k);
    LiveFromFirstGapIff(cfg, env, messages, policies, host, k);
    FirstStepsAreJournals(cfg, env, s, k);
    forall i | 0 <= i < |r.observed|
      ensures Servable(env, j, |host.trace|, r, i) <==> ReadableAs(codec, j, r.observed[i].step)
    {
      DistinctUnwritten(cfg, env, |host.trace|, r, i);
    }
    OrderOfEntries(cfg, codec, j, r, steps);
  }

  /** Entries are asked without a gap before them exactly when all that are asked are the journal's own first steps. */
  lemma OrderOfEntries(cfg: Config, codec: Codec, journal: Journal, r: System, steps: seq<StepId>)
    requires DistinctSteps(cfg, r) && forall step | step in steps :: ReadableAs(codec, journal, step)
    requires forall i | 0 <= i < |r.observed| && i < |steps| :: r.observed[i].step == steps[i]
    requires |steps| < |r.observed| ==> !ReadableAs(codec, journal, r.observed[|steps|].step)
    ensures (forall i, j | 0 <= i < j < |r.observed| ::
               ReadableAs(codec, journal, r.observed[j].step) ==> ReadableAs(codec, journal, r.observed[i].step))
            <==> forall i | 0 <= i < |r.observed| ::
                   ReadableAs(codec, journal, r.observed[i].step) ==> r.observed[i].step in steps
  {
    hide ReadableAs;
    var n := |steps|;
    if forall i | 0 <= i < |r.observed| ::
      ReadableAs(codec, journal, r.observed[i].step) ==> r.observed[i].step in steps
    {
      forall i, j | 0 <= i < j < |r.observed| && ReadableAs(codec, journal, r.observed[j].step)
        ensures ReadableAs(codec, journal, r.observed[i].step)
      {
        var q :| 0 <= q < n && steps[q] == r.observed[j].step;
        assert q < |r.observed| ==> r.observed[q].step == steps[q];
        assert j < n;
        assert r.observed[i].step == steps[i] && steps[i] in steps;
      }
    } else {
      var i :| 0 <= i < |r.observed| && ReadableAs(codec, journal, r.observed[i].step) && r.observed[i].step !in steps;
      assert n < i;
    }
  }

  /** A journal all of whose entries are reached leaves nothing behind. */
  ghost predicate Reached(cfg: Config, codec: Codec, journal: Journal, m: Machine) {
    exists n: nat :: forall step | ReadableAs(codec, journal, step) :: step in JournalSteps(cfg, codec, journal, m, n)
  }

  /**
   The condition on the journal alone: if its own steps reach every entry, then in every world whose reads work each
   run whose steps do not repeat replays until the first gap and goes on live.
   */
  lemma ReachedJournalLive(cfg: Config, env: Env, messages: seq<ChatMessage>, policies: seq<Policy>, host: Host, k: nat)
    requires Journaling(env) && Fetches(env)
    requires DistinctSteps(cfg, Exec(cfg, env, Start(cfg, messages, policies, host), k))
    requires Reached(cfg, env.runtime.codec, host.journal, Start(cfg, messages, policies, host).machine)
    ensures LiveFromFirstGap(|host.trace|, Exec(cfg, env, Start(cfg, messages, policies, host), k))
  {
    hide Exec, Settle, RoundTrips, ReadableAs, JournalSteps, JournalMachine, LiveFromFirstGap, Found, DistinctSteps,
         Fetches;
    var s := Start(cfg, messages, policies, host);
    var r, codec, j := Exec(cfg, env, s, k), env.runtime.codec, host.journal;
    var steps := JournalSteps(cfg, codec, j, s.machine, k);
    var n: nat :| forall step | ReadableAs(codec, j, step) :: step in JournalSteps(cfg, codec, j, s.machine, n);
    LiveIffNoLeftoverAsked(cfg, env, messages, policies, host, k);
    FirstStepsAreJournals(cfg, env, s, k);
    ObservedGrows(cfg, env, s, 0, k);
    StepsUpTo(cfg, codec, j, s.machine, k);
    if n <= k {
      JournalStops(cfg, codec, j, s.machine, n, k);
    } else if |steps| < k {
      JournalStops(cfg, codec, j, s.machine, |steps|, n);
    }
    forall i | 0 <= i < |r.observed| && ReadableAs(codec, j, r.observed[i].step) ensures r.observed[i].step in steps {
      assert i < |steps| ==> r.observed[i].step == steps[i];
    }
  }
}
