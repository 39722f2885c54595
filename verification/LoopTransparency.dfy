/**
 When journaling is invisible. Over any journal a checkpointed run is the plain run, whatever reads and writes of the
 journal fail and wherever the process dies, exactly as long as no step finds an entry: one it can read from the start,
 or that of an earlier step. With different call ids per turn none finds the latter.
 */
module LoopTransparency {
  import opened AgentTypes
  import opened StepNames
  import opened Policies
  import opened StepRuntime
  import opened LoopMachine
  import opened LoopResume
  import opened LoopOrder
  import LoopCounts
  import LoopGaps
  import LoopLive

  /** The same world without a journal. */
  function Plain(env: Env): Env {
    env.(runtime := Passthrough)
  }

  /**
   Same states, same results, same tools run, same death, and every step performed in one is performed in the other.
   */
  ghost predicate SameRun(p: System, c: System) {
    && p.machine == c.machine
    && p.observed == c.observed
    && p.crashed == c.crashed
    && p.host.ran == c.host.ran
    && |p.host.trace| == |c.host.trace|
    && forall i | 0 <= i < |p.host.trace| :: p.host.trace[i].ran == c.host.trace[i].ran
  }

  // ---------- finding an earlier step's entry ----------

  /** The steps a run asked for, the one it died in included. */
  function Asked(cfg: Config, s: System): seq<StepId> {
    seq(|s.observed|, i requires 0 <= i < |s.observed| => s.observed[i].step)
    + if s.crashed && Awaiting(s.machine.control) then [AskOf(cfg, s.machine).step] else []
  }

  /** A journal takes the result of completed step `j`: it is a success, can be written, and its write works. */
  predicate Kept(env: Env, base: nat, s: System, j: nat)
    requires env.runtime.Checkpoint? && j < |s.observed|
  {
    var r := s.observed[j].result;
    r.Ok? && env.runtime.codec.encode(r.value).Some? && !env.upsertFails(base + j)
  }

  /** Some completed step whose result a journal takes has this name. */
  ghost predicate KeptUnder(env: Env, base: nat, s: System, until: nat, name: string)
    requires env.runtime.Checkpoint?
  {
    exists j | 0 <= j < until && j < |s.observed| :: Kept(env, base, s, j) && Name(s.observed[j].step) == name
  }

  /**
   A step is found at that tick: its entry was readable at the start or its name was kept since, and it can be read.
   */
  ghost predicate Findable(env: Env, start: Host, s: System, until: nat, step: StepId)
    requires env.runtime.Checkpoint?
  {
    var tick := |start.trace| + until;
    && !env.fetchFails(tick) && env.crash(tick) != BeforeEffect
    && (|| LoopGaps.ReadableAs(env.runtime.codec, start.journal, step)
        || KeptUnder(env, |start.trace|, s, until, Name(step)))
  }

  /**
   No step a run asks for is there to be found, where the journal can be read and the process lives to do so: not in the
   journal it started over, not as the kept result of an earlier step.
   */
  ghost predicate NothingFound(cfg: Config, env: Env, start: Host, s: System)
    requires env.runtime.Checkpoint?
  {
    forall i: nat | i < |Asked(cfg, s)| :: !Findable(env, start, s, i, Asked(cfg, s)[i])
  }

  lemma TickAsked(cfg: Config, env: Env, s: System)
    ensures var next := Tick(cfg, env, s);
      && Asked(cfg, next) == Asked(cfg, s) + (if Live(s) then [AskOf(cfg, s.machine).step] else [])
      && s.observed <= next.observed
      && |Asked(cfg, s)| <= |s.observed| + 1
      && (Live(s) ==> |Asked(cfg, s)| == |s.observed|)
  {
    hide Step, Name, Proceed, AskOf;
  }

  lemma KeptUnderStays(env: Env, base: nat, s: System, next: System, until: nat, name: string)
    requires env.runtime.Checkpoint? && until <= |s.observed| && s.observed <= next.observed
    ensures KeptUnder(env, base, s, until, name) <==> KeptUnder(env, base, next, until, name)
  {
    hide Name;
    assert forall j | 0 <= j < |s.observed| :: next.observed[j] == s.observed[j];
    assert forall j | 0 <= j < until :: Kept(env, base, s, j) <==> Kept(env, base, next, j);
  }

  /** One step more finds nothing if none before it did and it does not. */
  lemma TickFound(cfg: Config, env: Env, start: Host, s: System)
    requires env.runtime.Checkpoint?
    ensures var next := Tick(cfg, Plain(env), s);
      NothingFound(cfg, env, start, next) <==>
        && NothingFound(cfg, env, start, s)
        && (Live(s) ==> !Findable(env, start, s, |s.observed|, AskOf(cfg, s.machine).step))
  {
    hide Tick, Name, AskOf, KeptUnder, Asked, LoopGaps.ReadableAs;
    var next := Tick(cfg, Plain(env), s);
    TickAsked(cfg, Plain(env), s);
    forall i: nat, step | i <= |s.observed|
      ensures Findable(env, start, next, i, step) <==> Findable(env, start, s, i, step)
    {
      KeptUnderStays(env, |start.trace|, s, next, i, Name(step));
    }
    assert forall i: nat | i < |Asked(cfg, s)| :: Asked(cfg, next)[i] == Asked(cfg, s)[i];
    if Live(s) {
      assert Asked(cfg, next)[|s.observed|] == AskOf(cfg, s.machine).step;
    }
  }

  // ---------- as long as nothing is found ----------

  /** The journal holds what it held at the start, except under the names of the completed steps that were kept. */
  ghost predicate JournalOf(env: Env, start: Host, c: System)
    requires env.runtime.Checkpoint?
  {
    && |c.host.trace| == |start.trace| + |c.observed|
    && forall n | !KeptUnder(env, |start.trace|, c, |c.observed|, n) ::
         (n in c.host.journal <==> n in start.journal)
         && (n in start.journal ==> c.host.journal[n] == start.journal[n])
  }

  predicate Unfound(env: Env, c: Host, step: StepId)
    requires env.runtime.Checkpoint?
  {
    || !LoopGaps.ReadableAs(env.runtime.codec, c.journal, step)
    || env.fetchFails(|c.trace|) || env.crash(|c.trace|) == BeforeEffect
  }

  /** What cannot be found is not. */
  lemma NotFindable(env: Env, start: Host, c: System, step: StepId)
    requires env.runtime.Checkpoint? && JournalOf(env, start, c)
    requires !Findable(env, start, c, |c.observed|, step)
    ensures Unfound(env, c.host, step)
  {
    hide Name, KeptUnder, Rehydrate;
  }

  /** A step that does not find an entry does what it does without a journal. */
  lemma UnfoundStep(refuse: RefusalRenderer, env: Env, p: Host, c: Host, step: StepId, e: Effect)
    requires env.runtime.Checkpoint? && KindOfEffect(e) == LoopCounts.KindOfStep(step)
    requires |p.trace| == |c.trace| && p.ran == c.ran && Unfound(env, c, step)
    ensures var (ret, next) := Step(refuse, env, c, Name(step), e);
      var (plainRet, plainNext) := Step(refuse, Plain(env), p, Name(step), e);
      && ret == plainRet && next.ran == plainNext.ran
      && plainNext.trace == p.trace + [LastEvent(plainNext)]
      && next.trace == c.trace + [LastEvent(next)]
      && LastEvent(next).ran == LastEvent(plainNext).ran
  {
    hide Step, GoLive, Consult, Unfound, Name;
    UnfoundGoesLive(refuse, env, c, step, e);
    LiveAlike(refuse, env, p, c, Name(step), e, Consult(env.runtime.codec, env, c, Name(step), KindOfEffect(e)).0);
  }

  lemma UnfoundGoesLive(refuse: RefusalRenderer, env: Env, c: Host, step: StepId, e: Effect)
    requires env.runtime.Checkpoint? && KindOfEffect(e) == LoopCounts.KindOfStep(step) && Unfound(env, c, step)
    ensures var fetch := Consult(env.runtime.codec, env, c, Name(step), KindOfEffect(e)).0;
      Step(refuse, env, c, Name(step), e) == GoLive(refuse, env, c, Name(step), e, fetch)
  {
    hide Perform, Rehydrate, Name;
  }

  lemma LiveAlike(refuse: RefusalRenderer, env: Env, p: Host, c: Host, name: string, e: Effect, fetch: Fetch)
    requires |p.trace| == |c.trace| && p.ran == c.ran
    ensures var (ret, next) := GoLive(refuse, env, c, name, e, fetch);
      var (plainRet, plainNext) := Step(refuse, Plain(env), p, name, e);
      && ret == plainRet && next.ran == plainNext.ran
      && plainNext.trace == p.trace + [LastEvent(plainNext)]
      && next.trace == c.trace + [LastEvent(next)]
      && LastEvent(next).ran == LastEvent(plainNext).ran
  {
    hide Perform;
  }

  /** And the journal takes its result, if it can. */
  lemma UnfoundWrites(refuse: RefusalRenderer, env: Env, c: Host, step: StepId, e: Effect)
    requires env.runtime.Checkpoint? && KindOfEffect(e) == LoopCounts.KindOfStep(step) && Unfound(env, c, step)
    ensures var (ret, next) := Step(refuse, env, c, Name(step), e);
      ret.Returned? ==>
        next.journal == c.journal
        || (next.journal == c.journal[Name(step) := next.journal[Name(step)]]
            && ret.result.Ok? && env.runtime.codec.encode(ret.result.value).Some? && !env.upsertFails(|c.trace|))
  {
    hide Perform, Rehydrate, Name;
  }

  lemma KeptUnderPush(env: Env, base: nat, c: System, c': System, o: Observation, name: string)
    requires env.runtime.Checkpoint? && c'.observed == c.observed + [o]
    ensures KeptUnder(env, base, c', |c'.observed|, name)
            <==> || KeptUnder(env, base, c, |c.observed|, name)
                 || (Kept(env, base, c', |c.observed|) && Name(o.step) == name)
  {
    hide Name, Kept;
    var n := |c.observed|;
    assert c'.observed[n] == o;
    assert forall j | 0 <= j < n :: c'.observed[j] == c.observed[j];
    forall j | 0 <= j < n ensures Kept(env, base, c', j) <==> Kept(env, base, c, j) {
      KeptAlike(env, base, c, c', j);
    }
  }

  lemma KeptAlike(env: Env, base: nat, c: System, c': System, j: nat)
    requires env.runtime.Checkpoint? && j < |c.observed| && c.observed <= c'.observed
    ensures Kept(env, base, c', j) <==> Kept(env, base, c, j)
  {
    assert c'.observed[j] == c.observed[j];
  }

  lemma AskKind(cfg: Config, m: Machine)
    requires Awaiting(m.control)
    ensures KindOfEffect(AskOf(cfg, m).effect) == LoopCounts.KindOfStep(AskOf(cfg, m).step)
  {
  }

  /** One more step of both runs, at a step that does not find an entry. */
  lemma TickSame(cfg: Config, env: Env, start: Host, p: System, c: System)
    requires env.runtime.Checkpoint? && SameRun(p, c)
    requires !c.crashed ==> JournalOf(env, start, c)
    requires Live(c) ==> Unfound(env, c.host, AskOf(cfg, c.machine).step)
    ensures SameRun(Tick(cfg, Plain(env), p), Tick(cfg, env, c))
    ensures !Tick(cfg, env, c).crashed ==> JournalOf(env, start, Tick(cfg, env, c))
  {
    hide Step, Name, Proceed, AskOf, KeptUnder, Unfound;
    if Live(c) {
      var ask, c' := AskOf(cfg, c.machine), Tick(cfg, env, c);
      AskKind(cfg, c.machine);
      UnfoundStep(cfg.refuse, env, p.host, c.host, ask.step, ask.effect);
      UnfoundWrites(cfg.refuse, env, c.host, ask.step, ask.effect);
      if !c'.crashed {
        var o := c'.observed[|c.observed|];
        assert c'.observed == c.observed + [o];
        forall n | !KeptUnder(env, |start.trace|, c', |c'.observed|, n)
          ensures (n in c'.host.journal <==> n in start.journal)
            && (n in start.journal ==> c'.host.journal[n] == start.journal[n])
        {
          KeptUnderPush(env, |start.trace|, c, c', o, n);
        }
      }
    }
  }

  /** As long as no step finds an entry, the two runs stay the same. */
  lemma {:induction false} SameWhileUnfound(cfg: Config, env: Env, s: System, k: nat)
    requires env.runtime.Checkpoint? && s.observed == [] && !s.crashed
    requires NothingFound(cfg, env, s.host, Exec(cfg, Plain(env), s, k))
    ensures SameRun(Exec(cfg, Plain(env), s, k), Exec(cfg, env, s, k))
    ensures !Exec(cfg, env, s, k).crashed ==> JournalOf(env, s.host, Exec(cfg, env, s, k))
  {
    hide Exec, Tick, AskOf, Name, Findable, NothingFound, KeptUnder, Unfound;
    ExecUnfolds(cfg, Plain(env), s, if k == 0 then 0 else k - 1);
    ExecUnfolds(cfg, env, s, if k == 0 then 0 else k - 1);
    if k > 0 {
      var p, c := Exec(cfg, Plain(env), s, k - 1), Exec(cfg, env, s, k - 1);
      TickFound(cfg, env, s.host, p);
      SameWhileUnfound(cfg, env, s, k - 1);
      if Live(c) {
        var step := AskOf(cfg, c.machine).step;
        FindableSame(env, s.host, p, c, step);
        NotFindable(env, s.host, c, step);
      }
      TickSame(cfg, env, s.host, p, c);
    }
  }

  lemma FindableSame(env: Env, start: Host, p: System, c: System, step: StepId)
    requires env.runtime.Checkpoint? && p.observed == c.observed
    ensures Findable(env, start, p, |p.observed|, step) <==> Findable(env, start, c, |c.observed|, step)
  {
    hide Name;
    assert forall j | 0 <= j < |p.observed| :: Kept(env, |start.trace|, p, j) <==> Kept(env, |start.trace|, c, j);
  }

  // ---------- the first entry found ----------

  /** A kept result was written, if nothing was found up to there. */
  lemma KeptWasWritten(cfg: Config, env: Env, start: Host, p: System, c: System, j: nat)
    requires env.runtime.Checkpoint? && SameRun(p, c)
    requires LoopLive.Lived(cfg, Plain(env), start, p) && LoopLive.Lived(cfg, env, start, c)
    requires j < |c.observed| && Kept(env, |start.trace|, c, j)
    ensures var e := c.host.trace[|start.trace| + j]; e.persisted && e.name == Name(c.observed[j].step)
  {
    hide Name, LoopLive.WorldGives, LoopLive.AsksFor, LoopLive.EntryBefore, LoopLive.RunsBefore, LoopLive.DiedIn;
    assert LoopLive.Taken(cfg, Plain(env), start, p, j) && LoopLive.Taken(cfg, env, start, c, j);
  }

  /** What can be found is in the journal, readable. */
  lemma FindableIsThere(cfg: Config, env: Env, start: Host, p: System, c: System, step: StepId)
    requires Journaling(env) && SameRun(p, c) && !c.crashed
    requires LoopLive.Lived(cfg, Plain(env), start, p) && LoopLive.Lived(cfg, env, start, c)
    requires LoopGaps.JournalSince(env.runtime.codec, start.journal, |start.trace|, c.host)
    requires Findable(env, start, c, |c.observed|, step)
    ensures !Unfound(env, c.host, step)
  {
    hide Name, LoopGaps.ReadableAs, RoundTrips, Kept, LoopLive.Taken, LoopLive.RunsBefore, LoopLive.EntryBefore;
    if !LoopGaps.ReadableAs(env.runtime.codec, start.journal, step) {
      var j :| 0 <= j < |c.observed| && Kept(env, |start.trace|, c, j) && Name(c.observed[j].step) == Name(step);
      KeptWasWritten(cfg, env, start, p, c, j);
      assert LoopGaps.Written(c.host.trace, |start.trace|, |c.host.trace|, Name(step));
    }
  }

  /** A step that finds an entry is performed by the plain runtime only. */
  lemma FoundStep(refuse: RefusalRenderer, env: Env, p: Host, c: Host, step: StepId, e: Effect)
    requires env.runtime.Checkpoint? && |p.trace| == |c.trace| && KindOfEffect(e) == LoopCounts.KindOfStep(step)
    requires !Unfound(env, c, step)
    ensures var next, plainNext := Step(refuse, env, c, Name(step), e).1, Step(refuse, Plain(env), p, Name(step), e).1;
      && next.trace == c.trace + [LastEvent(next)] && plainNext.trace == p.trace + [LastEvent(plainNext)]
      && LastEvent(next).ran == NotRun && LastEvent(plainNext).ran != NotRun
  {
    hide Perform, Name, Rehydrate;
  }

  lemma TickTracePrefix(cfg: Config, env: Env, s: System)
    ensures s.host.trace <= Tick(cfg, env, s).host.trace
  {
    hide Name, Proceed, AskOf, Perform;
  }

  /** Where a step finds an entry the runs part. */
  lemma TickParts(cfg: Config, env: Env, p: System, c: System)
    requires env.runtime.Checkpoint? && SameRun(p, c) && Live(c)
    requires !Unfound(env, c.host, AskOf(cfg, c.machine).step)
    ensures var p', c' := Tick(cfg, Plain(env), p), Tick(cfg, env, c);
      && |p'.host.trace| == |c'.host.trace| == |c.host.trace| + 1
      && p'.host.trace[|c.host.trace|].ran != c'.host.trace[|c.host.trace|].ran
  {
    hide Step, Name, Proceed, Unfound, AskOf;
    var ask := AskOf(cfg, c.machine);
    AskKind(cfg, c.machine);
    FoundStep(cfg.refuse, env, p.host, c.host, ask.step, ask.effect);
  }

  /** Where the first step finds an entry, the plain run performs one that the checkpointed run does not. */
  lemma {:induction false} FoundShows(cfg: Config, env: Env, s: System, k: nat) returns (at: nat)
    requires Journaling(env) && s.observed == [] && !s.crashed
    requires !NothingFound(cfg, env, s.host, Exec(cfg, Plain(env), s, k))
    ensures var p, c := Exec(cfg, Plain(env), s, k), Exec(cfg, env, s, k);
      at < |p.host.trace| && at < |c.host.trace| && p.host.trace[at].ran != c.host.trace[at].ran
  {
    hide Exec, Tick, AskOf, Name, Findable, NothingFound, RoundTrips, JournalOf, Unfound, LoopLive.Lived,
         LoopGaps.Aligned, LoopGaps.JournalSince, LoopGaps.ReplayedIffServable;
    ExecUnfolds(cfg, Plain(env), s, if k == 0 then 0 else k - 1);
    ExecUnfolds(cfg, env, s, if k == 0 then 0 else k - 1);
    if k == 0 {
      NothingAsked(cfg, env, s);
      assert false;
    } else {
      var p, c := Exec(cfg, Plain(env), s, k - 1), Exec(cfg, env, s, k - 1);
      TickTracePrefix(cfg, Plain(env), p);
      TickTracePrefix(cfg, env, c);
      if !NothingFound(cfg, env, s.host, p) {
        at := FoundShows(cfg, env, s, k - 1);
      } else {
        TickFound(cfg, env, s.host, p);
        SameWhileUnfound(cfg, env, s, k - 1);
        var step := AskOf(cfg, c.machine).step;
        FindableSame(env, s.host, p, c, step);
        LoopLive.EveryStepLived(cfg, Plain(env), s, k - 1);
        LoopLive.EveryStepLived(cfg, env, s, k - 1);
        LoopGaps.ReplayedWhenServable(cfg, env, s, k - 1);
        FindableIsThere(cfg, env, s.host, p, c, step);
        TickParts(cfg, env, p, c);
        at := |c.host.trace|;
      }
    }
  }

  lemma NothingAsked(cfg: Config, env: Env, s: System)
    requires env.runtime.Checkpoint? && s.observed == [] && !s.crashed
    ensures NothingFound(cfg, env, s.host, s)
  {
  }

  // ---------- transparency ----------

  /**
   Journal transparency, with its exact condition. Started over any journal, the checkpointed run and the plain run of
   one world pass through the same states, run the same tools, perform the same steps and die at the same point,
   whichever reads and writes fail, if and only if no step of the plain run asks, with a read that works, for an entry
   that was readable at the start or for a step whose result a journal would hold.
   */
  lemma TransparentIffNothingFound(cfg: Config, env: Env, messages: seq<ChatMessage>, policies: seq<Policy>,
                                   host: Host, k: nat)
    requires Journaling(env)
    ensures var s := Start(cfg, messages, policies, host);
      SameRun(Exec(cfg, Plain(env), s, k), Exec(cfg, env, s, k))
      <==> NothingFound(cfg, env, host, Exec(cfg, Plain(env), s, k))
  {
    hide Exec, Settle, NothingFound, RoundTrips;
    var s := Start(cfg, messages, policies, host);
    if NothingFound(cfg, env, host, Exec(cfg, Plain(env), s, k)) {
      SameWhileUnfound(cfg, env, s, k);
    } else {
      var at := FoundShows(cfg, env, s, k);
    }
  }

  /** The journal cannot serve any step the run asks for, where it can be read and the process lives to read it. */
  ghost predicate ServesNone(cfg: Config, env: Env, start: Host, s: System)
    requires env.runtime.Checkpoint?
  {
    forall i: nat | i < |Asked(cfg, s)| ::
      var tick := |start.trace| + i;
      || env.fetchFails(tick) || env.crash(tick) == BeforeEffect
      || !LoopGaps.ReadableAs(env.runtime.codec, start.journal, Asked(cfg, s)[i])
  }

  /** Where no step repeats, nothing is found but what the journal served from the start. */
  lemma DistinctUnfound(cfg: Config, env: Env, start: Host, s: System)
    requires env.runtime.Checkpoint? && DistinctSteps(cfg, s)
    ensures NothingFound(cfg, env, start, s) <==> ServesNone(cfg, env, start, s)
  {
    hide Name, Kept, AskOf, LoopGaps.ReadableAs;
    forall i, j | 0 <= j < i < |Asked(cfg, s)| && j < |s.observed|
      ensures Name(s.observed[j].step) != Name(Asked(cfg, s)[i])
    {
      NamesAreDistinct(s.observed[j].step, Asked(cfg, s)[i]);
    }
  }

  /**
   A journal adds no behaviour of its own: where no turn of the plain run asks two calls with one id, and the journal
   it starts over serves none of its steps, the checkpointed run is that run, whatever fails, whether or not the codec
   reads back what it wrote.
   */
  lemma TransparentWhenIdsDistinct(cfg: Config, env: Env, messages: seq<ChatMessage>, policies: seq<Policy>,
                                   host: Host, k: nat)
    requires env.runtime.Checkpoint?
    requires var p := Exec(cfg, Plain(env), Start(cfg, messages, policies, host), k);
      DistinctCallIds(cfg, p) && ServesNone(cfg, env, host, p)
    ensures var s := Start(cfg, messages, policies, host);
      SameRun(Exec(cfg, Plain(env), s, k), Exec(cfg, env, s, k))
  {
    hide Exec, Settle, NothingFound, ServesNone, DistinctSteps, DistinctCallIds, Link;
    var s := Start(cfg, messages, policies, host);
    var p := Exec(cfg, Plain(env), s, k);
    ExecExplained(cfg, Plain(env), s, k);
    StepsDistinctIffCallIds(cfg, s.machine, p);
    DistinctUnfound(cfg, env, host, p);
    SameWhileUnfound(cfg, env, s, k);
  }

  // ---------- without faults ----------

  /** The store never fails, every value can be written, and nothing crashes. */
  ghost predicate Faultless(env: Env) {
    && Journaling(env)
    && (forall v :: env.runtime.codec.encode(v).Some?)
    && (forall t :: !env.fetchFails(t) && !env.upsertFails(t) && env.crash(t) == NoCrash)
  }

  /** Without faults a call under a used id finds the other call's entry. */
  lemma ReusedIdFound(cfg: Config, env: Env, start: Host, s: System)
    requires Faultless(env) && ToolStepsOk(s.observed) && !s.crashed && !DistinctCallIds(cfg, s)
    ensures !NothingFound(cfg, env, start, s)
  {
    hide Name, RoundTrips, LoopGaps.ReadableAs;
    var i, j :| 0 <= i < j < |s.observed| && s.observed[i].step.WriteTool? && s.observed[j].step.WriteTool?
      && s.observed[i].step.turn == s.observed[j].step.turn && s.observed[i].step.callId == s.observed[j].step.callId;
    assert s.observed[i].step == s.observed[j].step == Asked(cfg, s)[j];
    assert Kept(env, |start.trace|, s, i);
    assert KeptUnder(env, |start.trace|, s, j, Name(Asked(cfg, s)[j]));
    assert Findable(env, start, s, j, Asked(cfg, s)[j]);
  }

  lemma {:induction false} PlainUncrashed(cfg: Config, env: Env, s: System, k: nat)
    requires Faultless(env) && !s.crashed
    ensures !Exec(cfg, Plain(env), s, k).crashed
  {
    hide Exec, Proceed, Name, AskOf, Perform, RoundTrips;
    ExecUnfolds(cfg, Plain(env), s, if k == 0 then 0 else k - 1);
    if k > 0 {
      PlainUncrashed(cfg, env, s, k - 1);
    }
  }

  /**
   In a faultless world the two runs are the same if and only if no turn asks two calls with one id and none of the
   steps asked for reads back from the journal started over.
   */
  lemma TransparentIffIdsDistinct(cfg: Config, env: Env, messages: seq<ChatMessage>, policies: seq<Policy>,
                                  host: Host, k: nat)
    requires Faultless(env)
    ensures var s := Start(cfg, messages, policies, host);
      var p := Exec(cfg, Plain(env), s, k);
      SameRun(p, Exec(cfg, env, s, k))
      <==> && DistinctCallIds(cfg, p)
           && forall i | 0 <= i < |p.observed| ::
                !LoopGaps.ReadableAs(env.runtime.codec, host.journal, p.observed[i].step)
  {
    hide Exec, Settle, SameRun, DistinctSteps, DistinctCallIds, NothingFound, RoundTrips, Link, LoopGaps.ReadableAs,
         Name;
    var s := Start(cfg, messages, policies, host);
    var p := Exec(cfg, Plain(env), s, k);
    PlainUncrashed(cfg, env, s, k);
    TransparentIffNothingFound(cfg, env, messages, policies, host, k);
    if DistinctCallIds(cfg, p) {
      ExecExplained(cfg, Plain(env), s, k);
      StepsDistinctIffCallIds(cfg, s.machine, p);
      DistinctUnfound(cfg, env, host, p);
      assert forall i | 0 <= i < |p.observed| :: Asked(cfg, p)[i] == p.observed[i].step;
    } else {
      ExecToolStepsOk(cfg, Plain(env), s, k);
      ReusedIdFound(cfg, env, host, p);
    }
  }
}
