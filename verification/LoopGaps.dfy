/**
 Replay is decided name by name. The journal is not read "until the first gap": a step recorded by an earlier attempt
 is replayed even after steps that had to run live.
 */
module LoopGaps {
  import opened Wrappers
  import opened AgentTypes
  import opened StepNames
  import opened ToolSurface
  import opened Policies
  import opened StepRuntime
  import opened LoopMachine
  import opened LoopSettle
  import opened LoopResume
  import opened LoopCounts

  // ---------- which steps are replayed ----------

  /** The journal holds an entry for the step that reads back as a result of its type. */
  predicate ReadableAs(codec: Codec, journal: map<string, Json>, step: StepId) {
    Name(step) in journal && Rehydrate(codec, KindOfStep(step), journal[Name(step)]).Some?
  }

  /** A step of that name was written to the journal at one of these ticks. */
  ghost predicate Written(trace: seq<StepEvent>, from: nat, until: nat, name: string) {
    exists t | from <= t < until && t < |trace| :: trace[t].persisted && trace[t].name == name
  }

  /** What the journal serves: what it held at the start, and what was written since. */
  ghost predicate JournalSince(codec: Codec, start: map<string, Json>, from: nat, host: Host) {
    forall step: StepId :: ReadableAs(codec, host.journal, step)
      <==> ReadableAs(codec, start, step) || Written(host.trace, from, |host.trace|, Name(step))
  }

  /** Completed step `i` of the run was served from the journal. */
  predicate ReplayedAt(base: nat, s: System, i: nat) {
    base + i < |s.host.trace| && s.host.trace[base + i].fetch == Hit
  }

  /**
   The journal could serve completed step `i`: its read worked, and its entry was readable at the start or written by
   an earlier step of the run.
   */
  ghost predicate Servable(env: Env, start: map<string, Json>, base: nat, s: System, i: nat)
    requires env.runtime.Checkpoint? && i < |s.observed|
  {
    && !env.fetchFails(base + i)
    && (|| ReadableAs(env.runtime.codec, start, s.observed[i].step)
        || Written(s.host.trace, base, base + i, Name(s.observed[i].step)))
  }

  /** The events since `base` are the run's completed steps, and the one it crashed in. */
  ghost predicate Aligned(cfg: Config, env: Env, base: nat, s: System) {
    && |s.host.trace| == base + |s.observed| + (if s.crashed then 1 else 0)
    && (forall i | 0 <= i < |s.observed| ::
          s.host.trace[base + i].name == Name(s.observed[i].step) && env.crash(base + i) == NoCrash)
    && (s.crashed ==> Awaiting(s.machine.control)
                      && s.host.trace[base + |s.observed|].name == Name(AskOf(cfg, s.machine).step))
  }

  ghost predicate ReplayedIffServable(env: Env, start: map<string, Json>, base: nat, s: System)
    requires env.runtime.Checkpoint?
  {
    forall i | 0 <= i < |s.observed| :: ReplayedAt(base, s, i) <==> Servable(env, start, base, s, i)
  }

  lemma StepFetches(refuse: RefusalRenderer, env: Env, host: Host, step: StepId, e: Effect)
    requires env.runtime.Checkpoint? && KindOfEffect(e) == KindOfStep(step)
    ensures var (ret, next) := Step(refuse, env, host, Name(step), e);
      && next.trace == host.trace + [LastEvent(next)]
      && LastEvent(next).name == Name(step)
      && (LastEvent(next).fetch == Hit
          <==> !env.fetchFails(|host.trace|) && ReadableAs(env.runtime.codec, host.journal, step))
      && (ret.Returned? <==> env.crash(|host.trace|) == NoCrash)
  {
    hide Perform, Name, Rehydrate;
  }

  /** The journal gained a value of that type under that name. */
  predicate Wrote(codec: Codec, before: Host, after: Host, name: string, kind: Kind, v: StepValue) {
    && KindOfValue(v) == kind && codec.encode(v).Some?
    && after.journal == before.journal[name := codec.encode(v).value]
  }

  lemma StepWrites(refuse: RefusalRenderer, env: Env, host: Host, name: string, e: Effect)
    requires env.runtime.Checkpoint?
    ensures var next := Step(refuse, env, host, name, e).1;
      && next.trace != []
      && (LastEvent(next).persisted ==> exists v :: Wrote(env.runtime.codec, host, next, name, KindOfEffect(e), v))
      && (!LastEvent(next).persisted ==> next.journal == host.journal)
  {
    hide Perform, Consult;
    var next := Step(refuse, env, host, name, e).1;
    if LastEvent(next).persisted {
      assert Wrote(env.runtime.codec, host, next, name, KindOfEffect(e),
                   Perform(refuse, env.world, |host.trace|, e).0.value);
    }
  }

  lemma StepReads(refuse: RefusalRenderer, env: Env, host: Host, step: StepId, e: Effect)
    requires Journaling(env) && KindOfEffect(e) == KindOfStep(step)
    ensures var (ret, next) := Step(refuse, env, host, Name(step), e);
      && next.trace == host.trace + [LastEvent(next)]
      && LastEvent(next).name == Name(step)
      && (LastEvent(next).fetch == Hit
          <==> !env.fetchFails(|host.trace|) && ReadableAs(env.runtime.codec, host.journal, step))
      && (LastEvent(next).persisted ==> ReadableAs(env.runtime.codec, next.journal, step))
      && (!LastEvent(next).persisted ==> next.journal == host.journal)
      && (forall n | n != Name(step) :: n in next.journal <==> n in host.journal)
      && (forall n | n != Name(step) && n in host.journal :: next.journal[n] == host.journal[n])
      && (ret.Returned? <==> env.crash(|host.trace|) == NoCrash)
  {
    hide Step, Name, Rehydrate;
    StepFetches(refuse, env, host, step, e);
    StepWrites(refuse, env, host, Name(step), e);
  }

  lemma StepSince(refuse: RefusalRenderer, env: Env, start: map<string, Json>, from: nat, host: Host, step: StepId,
                  e: Effect)
    requires Journaling(env) && KindOfEffect(e) == KindOfStep(step) && from <= |host.trace|
    requires JournalSince(env.runtime.codec, start, from, host)
    ensures JournalSince(env.runtime.codec, start, from, Step(refuse, env, host, Name(step), e).1)
  {
    hide Step, Name, Rehydrate, RoundTrips, LastEvent;
    var codec := env.runtime.codec;
    var next := Step(refuse, env, host, Name(step), e).1;
    StepReads(refuse, env, host, step, e);
    var event := LastEvent(next);
    forall other: StepId ensures ReadableAs(codec, next.journal, other)
      <==> ReadableAs(codec, start, other) || Written(next.trace, from, |next.trace|, Name(other)) {
      NamesAreDistinct(step, other);
      WrittenPush(host.trace, event, from, Name(other));
      assert ReadableAs(codec, next.journal, other) <==>
        ReadableAs(codec, host.journal, other) || (event.persisted && event.name == Name(other));
    }
  }

  lemma WrittenPush(trace: seq<StepEvent>, e: StepEvent, from: nat, name: string)
    requires from <= |trace|
    ensures Written(trace + [e], from, |trace| + 1, name)
            <==> Written(trace, from, |trace|, name) || (e.persisted && e.name == name)
  {
    var more := trace + [e];
    assert forall t | 0 <= t < |trace| :: more[t] == trace[t];
    if e.persisted && e.name == name {
      assert more[|trace|] == e;
    }
  }

  lemma WrittenStays(trace: seq<StepEvent>, e: StepEvent, from: nat, until: nat, name: string)
    requires until <= |trace|
    ensures Written(trace + [e], from, until, name) <==> Written(trace, from, until, name)
  {
    assert forall t | 0 <= t < |trace| :: (trace + [e])[t] == trace[t];
  }

  lemma TickServes(cfg: Config, env: Env, start: map<string, Json>, base: nat, s: System)
    requires Journaling(env) && Aligned(cfg, env, base, s) && !s.crashed
    requires JournalSince(env.runtime.codec, start, base, s.host) && ReplayedIffServable(env, start, base, s)
    ensures var next := Tick(cfg, env, s);
      && Aligned(cfg, env, base, next) && JournalSince(env.runtime.codec, start, base, next.host)
      && ReplayedIffServable(env, start, base, next)
  {
    hide Step, Name, Proceed, ReadableAs, RoundTrips, Written, JournalSince;
    if Live(s) {
      var ask, next := AskOf(cfg, s.machine), Tick(cfg, env, s);
      StepReads(cfg.refuse, env, s.host, ask.step, ask.effect);
      StepSince(cfg.refuse, env, start, base, s.host, ask.step, ask.effect);
      var n, event := |s.observed|, LastEvent(next.host);
      forall i | 0 <= i < |next.observed|
        ensures ReplayedAt(base, next, i) <==> Servable(env, start, base, next, i)
      {
        WrittenStays(s.host.trace, event, base, base + i, Name(next.observed[i].step));
        if i < n {
          assert next.observed[i] == s.observed[i];
          assert ReplayedAt(base, s, i) <==> Servable(env, start, base, s, i);
        } else {
          assert next.observed[n].step == ask.step;
          ServedNow(env.runtime.codec, start, base, s.host, ask.step);
        }
      }
    }
  }

  lemma ServedNow(codec: Codec, start: map<string, Json>, from: nat, host: Host, step: StepId)
    requires JournalSince(codec, start, from, host)
    ensures ReadableAs(codec, host.journal, step)
            <==> ReadableAs(codec, start, step) || Written(host.trace, from, |host.trace|, Name(step))
  {
    hide Name, ReadableAs, Written;
  }

  /** In every run, over any journal and any faults, a step is replayed exactly when the journal could serve it. */
  lemma {:induction false} ReplayedWhenServable(cfg: Config, env: Env, s: System, k: nat)
    requires Journaling(env) && s.observed == [] && !s.crashed
    ensures var t := Exec(cfg, env, s, k);
      && Aligned(cfg, env, |s.host.trace|, t)
      && JournalSince(env.runtime.codec, s.host.journal, |s.host.trace|, t.host)
      && ReplayedIffServable(env, s.host.journal, |s.host.trace|, t)
  {
    hide Exec, Tick, Aligned, JournalSince, ReplayedIffServable, RoundTrips;
    ExecUnfolds(cfg, env, s, if k == 0 then 0 else k - 1);
    if k == 0 {
      NothingYet(cfg, env, s);
    } else {
      var t := Exec(cfg, env, s, k - 1);
      ReplayedWhenServable(cfg, env, s, k - 1);
      if t.crashed {
        CrashedStays(cfg, env, t);
      } else {
        TickServes(cfg, env, s.host.journal, |s.host.trace|, t);
      }
    }
  }

  lemma NothingYet(cfg: Config, env: Env, s: System)
    requires env.runtime.Checkpoint? && s.observed == [] && !s.crashed
    ensures Aligned(cfg, env, |s.host.trace|, s)
    ensures JournalSince(env.runtime.codec, s.host.journal, |s.host.trace|, s.host)
    ensures ReplayedIffServable(env, s.host.journal, |s.host.trace|, s)
  {
    hide ReadableAs;
  }

  lemma CrashedStays(cfg: Config, env: Env, s: System)
    requires s.crashed
    ensures Tick(cfg, env, s) == s
  {
  }

  // ---------- until the first gap? ----------

  /** Once a step ran live, no later step is replayed. */
  ghost predicate LiveFromFirstGap(base: nat, s: System) {
    forall i, j | 0 <= i < j < |s.observed| :: ReplayedAt(base, s, j) ==> ReplayedAt(base, s, i)
  }

  /**
   "Replays from storage until the first gap, then continues live" holds of a run exactly when no step the journal
   could not serve comes before one it could: whichever entries were missing or unreadable at the start, whichever
   reads failed, and whichever names repeated.
   */
  lemma LiveFromFirstGapIff(cfg: Config, env: Env, messages: seq<ChatMessage>, policies: seq<Policy>, host: Host,
                            k: nat)
    requires Journaling(env)
    ensures var s := Exec(cfg, env, Start(cfg, messages, policies, host), k);
      LiveFromFirstGap(|host.trace|, s) <==>
        forall i, j | 0 <= i < j < |s.observed| ::
          Servable(env, host.journal, |host.trace|, s, j) ==> Servable(env, host.journal, |host.trace|, s, i)
  {
    hide Exec, Settle, RoundTrips, Name, ReplayedAt, Servable, Aligned, JournalSince;
    ReplayedWhenServable(cfg, env, Start(cfg, messages, policies, host), k);
  }

  /** Over an empty journal, as after a purge, no step is replayed unless the run itself wrote its name before. */
  lemma PurgedRunsLive(cfg: Config, env: Env, messages: seq<ChatMessage>, policies: seq<Policy>, host: Host, k: nat)
    requires Journaling(env) && host.journal == map[]
    ensures var s := Exec(cfg, env, Start(cfg, messages, policies, host), k);
      && (forall i | 0 <= i < |s.observed| && ReplayedAt(|host.trace|, s, i) ::
            Written(s.host.trace, |host.trace|, |host.trace| + i, Name(s.observed[i].step)))
      && (DistinctSteps(cfg, s) ==> forall i | 0 <= i < |s.observed| :: !ReplayedAt(|host.trace|, s, i))
  {
    hide Exec, Settle, RoundTrips, Name, ReplayedAt, JournalSince, Written;
    var base, s := |host.trace|, Exec(cfg, env, Start(cfg, messages, policies, host), k);
    ReplayedWhenServable(cfg, env, Start(cfg, messages, policies, host), k);
    if DistinctSteps(cfg, s) {
      forall i | 0 <= i < |s.observed| ensures !Written(s.host.trace, base, base + i, Name(s.observed[i].step)) {
        DistinctUnwritten(cfg, env, base, s, i);
      }
    }
  }

  /** With different steps, no step's name was written by an earlier one. */
  lemma DistinctUnwritten(cfg: Config, env: Env, base: nat, s: System, i: nat)
    requires DistinctSteps(cfg, s) && Aligned(cfg, env, base, s) && i < |s.observed|
    ensures !Written(s.host.trace, base, base + i, Name(s.observed[i].step))
  {
    hide Name;
    forall t | base <= t < base + i ensures s.host.trace[t].name != Name(s.observed[i].step) {
      var o := s.observed[t - base];
      assert base + (t - base) == t && o.step != s.observed[i].step;
      NamesAreDistinct(o.step, s.observed[i].step);
    }
  }

  // ---------- resuming a durable attempt ----------

  /** Two histories with the same first machine and the same steps taken are at the same machine. */
  lemma SamePrefixSameMachine(cfg: Config, first: Machine, a: System, b: System, n: nat)
    requires Explained(cfg, first, a) && Explained(cfg, first, b)
    requires n <= |a.observed| && n <= |b.observed| && a.observed[..n] == b.observed[..n]
    ensures MachineAt(a, n) == MachineAt(b, n)
  {
    hide Proceed;
    if n > 0 {
      assert a.observed[n - 1] == a.observed[..n][n - 1] == b.observed[..n][n - 1] == b.observed[n - 1];
      assert Link(cfg, a, n - 1) && Link(cfg, b, n - 1);
    }
  }

  lemma {:induction false} ObservedGrows(cfg: Config, env: Env, s: System, j: nat, k: nat)
    requires j <= k
    ensures Exec(cfg, env, s, j).observed <= Exec(cfg, env, s, k).observed
    ensures |Exec(cfg, env, s, k).observed| <= |s.observed| + k
    decreases k
  {
    hide Exec, Step, Name, Proceed, AskOf;
    ExecUnfolds(cfg, env, s, if k == 0 then 0 else k - 1);
    if k > 0 {
      ObservedGrows(cfg, env, s, if j < k then j else 0, k - 1);
    }
  }

  /** A restart over the journal of a durable attempt takes that attempt's steps first, one after the other. */
  lemma ResumedPrefix(cfg: Config, messages: seq<ChatMessage>, policies: seq<Policy>, env: Env, host: Host, n: nat,
                      env': Env, host': Host, k: nat)
    requires Journaling(env) && env'.runtime == env.runtime
    requires var t := Exec(cfg, env, Start(cfg, messages, policies, host), n);
      Durable(cfg, |host.trace|, t) && host'.journal == t.host.journal
    requires forall tick :: !env'.fetchFails(tick)
    ensures var t := Exec(cfg, env, Start(cfg, messages, policies, host), n);
      var r := Exec(cfg, env', Start(cfg, messages, policies, host'), k);
      && (forall i | 0 <= i < |r.observed| && i < |t.observed| :: r.observed[i] == t.observed[i])
      && (|t.observed| < |r.observed| ==>
            Awaiting(t.machine.control) && r.observed[|t.observed|].step == AskOf(cfg, t.machine).step)
  {
    hide Exec, Tick, Settle, RoundTrips, Proceed, AskOf, Durable, JournalSince, ReplayedIffServable, Move;
    var s0, r0 := Start(cfg, messages, policies, host), Start(cfg, messages, policies, host');
    var t, r := Exec(cfg, env, s0, n), Exec(cfg, env', r0, k);
    ReplayedWhenServable(cfg, env', r0, k);
    ObservedGrows(cfg, env', r0, 0, k);
    var m := if |r.observed| < |t.observed| then |r.observed| else |t.observed|;
    forall tick: nat | |host'.trace| <= tick < |host'.trace| + m ensures env'.crash(tick) == NoCrash {
      var i := tick - |host'.trace|;
      assert r0.host == host' && r.host.trace[|host'.trace| + i].name == Name(r.observed[i].step);
    }
    ResumeSimulates(cfg, messages, policies, env, host, n, env', host', m);
    ObservedGrows(cfg, env', r0, m, k);
    assert r.observed[..m] == t.observed[..m];
    assert forall i | 0 <= i < m :: r.observed[i] == r.observed[..m][i] && t.observed[i] == t.observed[..m][i];
    if |t.observed| < |r.observed| {
      ExecExplained(cfg, env, s0, n);
      ExecExplained(cfg, env', r0, k);
      SamePrefixSameMachine(cfg, s0.machine, t, r, m);
      assert Link(cfg, r, m);
    }
  }

  /**
   Restarted over the journal a durable attempt left of an empty one, with working reads, a run whose steps do not
   repeat does replay until the first gap and then continue live, wherever the first attempt died.
   */
  lemma ResumeLiveFromFirstGap(cfg: Config, messages: seq<ChatMessage>, policies: seq<Policy>, env: Env, host: Host,
                               n: nat, env': Env, host': Host, k: nat)
    requires Journaling(env) && env'.runtime == env.runtime && host.journal == map[]
    requires var t := Exec(cfg, env, Start(cfg, messages, policies, host), n);
      Durable(cfg, |host.trace|, t) && host'.journal == t.host.journal
    requires forall tick :: !env'.fetchFails(tick)
    requires DistinctSteps(cfg, Exec(cfg, env', Start(cfg, messages, policies, host'), k))
    ensures LiveFromFirstGap(|host'.trace|, Exec(cfg, env', Start(cfg, messages, policies, host'), k))
  {
    hide Exec, Settle, RoundTrips, Name, Durable, DistinctSteps, ReplayedAt, JournalSince, Aligned, Written, ReadableAs;
    var s0, r0 := Start(cfg, messages, policies, host), Start(cfg, messages, policies, host');
    var t, r := Exec(cfg, env, s0, n), Exec(cfg, env', r0, k);
    ReplayedWhenServable(cfg, env, s0, n);
    ReplayedWhenServable(cfg, env', r0, k);
    ResumedPrefix(cfg, messages, policies, env, host, n, env', host', k);
    LiveFromFirstGapIff(cfg, env', messages, policies, host', k);
    forall i, j | 0 <= i < j < |r.observed| && Servable(env', host'.journal, |host'.trace|, r, j)
      ensures Servable(env', host'.journal, |host'.trace|, r, i)
    {
      DistinctUnwritten(cfg, env', |host'.trace|, r, j);
      EntryIsOwn(cfg, env, host, t, r.observed[j].step);
      if i < |t.observed| {
        DurableJournal(cfg, env, s0, n);
        ExecExplained(cfg, env, s0, n);
        JournaledReadable(cfg, env.runtime.codec, t, i);
      } else {
        NoLaterEntry(cfg, t, r, i, j);
      }
    }
  }

  /** An entry of a journal that started empty is of a completed step, or of the one the run died in. */
  lemma EntryIsOwn(cfg: Config, env: Env, host: Host, t: System, step: StepId)
    requires env.runtime.Checkpoint? && host.journal == map[] && Aligned(cfg, env, |host.trace|, t)
    requires JournalSince(env.runtime.codec, host.journal, |host.trace|, t.host)
    ensures ReadableAs(env.runtime.codec, t.host.journal, step) ==>
              || (exists l | 0 <= l < |t.observed| :: t.observed[l].step == step)
              || (Awaiting(t.machine.control) && step == AskOf(cfg, t.machine).step)
  {
    hide Name;
    var base := |host.trace|;
    if ReadableAs(env.runtime.codec, t.host.journal, step) {
      ServedNow(env.runtime.codec, host.journal, base, t.host, step);
      var at :| base <= at < |t.host.trace| && t.host.trace[at].persisted && t.host.trace[at].name == Name(step);
      var l := at - base;
      assert at == base + l;
      if l < |t.observed| {
        NamesAreDistinct(t.observed[l].step, step);
        assert t.observed[l].step == step;
      } else {
        NamesAreDistinct(AskOf(cfg, t.machine).step, step);
      }
    }
  }

  lemma JournaledReadable(cfg: Config, codec: Codec, t: System, i: nat)
    requires i < |t.observed| && Link(cfg, t, i) && Journaled(codec, t.host.journal, t.observed[i])
    ensures ReadableAs(codec, t.host.journal, t.observed[i].step)
  {
    hide Name, Proceed, Rehydrate;
  }

  /** Behind the steps it repeats, a run whose steps differ finds no entry of the attempt it repeats. */
  lemma NoLaterEntry(cfg: Config, t: System, r: System, i: nat, j: nat)
    requires DistinctSteps(cfg, r) && |t.observed| <= i < j < |r.observed|
    requires forall l | 0 <= l < |t.observed| :: r.observed[l] == t.observed[l]
    requires Awaiting(t.machine.control) && r.observed[|t.observed|].step == AskOf(cfg, t.machine).step
    ensures forall l | 0 <= l < |t.observed| :: t.observed[l].step != r.observed[j].step
    ensures AskOf(cfg, t.machine).step != r.observed[j].step
  {
    hide AskOf;
    assert forall l | 0 <= l < |t.observed| :: r.observed[l].step != r.observed[j].step;
  }

  // ---------- an entry behind a gap ----------

  const READ_TOOL := Tool(ToolSpec("read", "", 0), ReadOnly(File), ReplayReadOnly)
  const WRITE_TOOL := Tool(ToolSpec("write", "", 0), Write, Idempotent)
  const READ_CALL := ToolCall("a", "read", "")
  const WRITE_CALL := ToolCall("b", "write", "")

  function GapConfig(refuse: RefusalRenderer): Config {
    Config([READ_TOOL, WRITE_TOOL], LoopLimits(1, 4, 0, ""), refuse, (n: Nudge) => "", ALL)
  }

  /** A world where the model asks for a read and a write and every tool says "fresh". */
  function GapEnv(codec: Codec): Env {
    Env(StepRuntime.Checkpoint(codec),
        World((t: nat, m: seq<ChatMessage>, sp: seq<ToolSpec>) =>
                Ok(AssistantTurn(None, [READ_CALL, WRITE_CALL], None)),
              (t: nat, i: nat, c: ToolCall) => Continue("fresh")),
        (t: nat) => false, (t: nat) => false, (t: nat) => NoCrash)
  }

  const GAP_MESSAGE := ChatMessage("assistant", None, [READ_CALL, WRITE_CALL], None)

  function GapPlan(): Plan { Plan(ALL, false, false, false) }
  function GapContext(): TurnContext { TurnContext(0, GapPlan(), GAP_MESSAGE) }

  const STALE := [(1, Continue("stale"))]

  lemma GapStart(refuse: RefusalRenderer, host: Host)
    ensures Start(GapConfig(refuse), [], [], host)
            == System(Machine(AwaitModel(0, GapPlan()), StartState([], [])), host, false, [])
  {
    var cfg := GapConfig(refuse);
    StartIs(cfg, [], [], host);
    TurnUnfolds(cfg, 0, StartState([], []));
  }

  // The attempt before: the model asked for the write first, its answer could not be written, and the
  // process died once the batch was.

  function LostEnv(codec: Codec): Env {
    Env(StepRuntime.Checkpoint(codec),
        World((t: nat, m: seq<ChatMessage>, sp: seq<ToolSpec>) =>
                Ok(AssistantTurn(None, [WRITE_CALL, READ_CALL], None)),
              (t: nat, i: nat, c: ToolCall) => Continue("stale")),
        (t: nat) => false, (t: nat) => t == 0, (t: nat) => if t == 1 then AfterUpsert else NoCrash)
  }

  function LostContext(): TurnContext {
    TurnContext(0, GapPlan(), ChatMessage("assistant", None, [WRITE_CALL, READ_CALL], None))
  }

  lemma LostReads(refuse: RefusalRenderer)
    ensures ReadsOfTurn(GapConfig(refuse), LostContext()) == [IndexedCall(1, READ_CALL)]
    ensures DispatchView(GapConfig(refuse), GapPlan()) == GapConfig(refuse).tools
  {
    var cfg := GapConfig(refuse);
    assert |"read"| != |"write"|;
    assert cfg.tools[1..] == [WRITE_TOOL];
    assert KindOf(cfg.tools, "read") == Some(ReadOnly(File)) && KindOf(cfg.tools, "write") == Some(Write);
    assert [WRITE_CALL, READ_CALL][1..] == [READ_CALL] && [READ_CALL][1..] == [];
    assert ReadsOf(cfg, GapPlan(), [], 2) == [];
    assert ReadsOf(cfg, GapPlan(), [READ_CALL], 1) == [IndexedCall(1, READ_CALL)];
    ViewOfAll(cfg.tools);
  }

  lemma LostModelStep(refuse: RefusalRenderer, codec: Codec)
    ensures var cfg := GapConfig(refuse);
      var s := Tick(cfg, LostEnv(codec), System(Machine(AwaitModel(0, GapPlan()), StartState([], [])),
                                                Host(map[], [], multiset{}), false, []));
      && !s.crashed && |s.host.trace| == 1 && s.host.journal == map[] && s.host.ran == multiset{}
      && s.machine.control == AwaitReads(LostContext())
  {
    hide Name, Settle, Move, Rehydrate, ReadsOf;
    var cfg := GapConfig(refuse);
    ModelAsks(cfg, 0, GapPlan(), StartState([], []));
    var a := AssistantTurn(None, [WRITE_CALL, READ_CALL], None);
    ProceedFromModel(cfg, 0, GapPlan(), StartState([], []), Ok(AssistantValue(a)));
    LostReads(refuse);
    var m := OnAssistant(cfg, 0, GapPlan(), a, StartState([], []));
    ReadsAsk(cfg, LostContext(), m.st);
  }

  lemma LostReadsStep(refuse: RefusalRenderer, codec: Codec, json: Json, s: System)
    requires codec.encode(ReadsValue(STALE)) == Some(json)
    requires !s.crashed && |s.host.trace| == 1 && s.host.journal == map[] && s.host.ran == multiset{}
    requires s.machine.control == AwaitReads(LostContext())
    ensures var next := Tick(GapConfig(refuse), LostEnv(codec), s);
      && next.crashed && next.host.journal == map[Name(ToolsBatch(0)) := json]
      && next.host.ran == multiset{ToolRun(0, 1, READ_CALL)}
  {
    hide Name, Settle, Move, ReadsOf, Find, View;
    var cfg := GapConfig(refuse);
    ReadsAsk(cfg, LostContext(), s.machine.st);
    LostReads(refuse);
    assert DispatchOf(cfg.tools, READ_CALL) == Run(READ_TOOL) by { FoundFirst(cfg.tools, READ_TOOL); }
    var batch := [IndexedCall(1, READ_CALL)];
    assert batch[1..] == [];
    assert ReadOutcomes(cfg.refuse, LostEnv(codec).world, 1, cfg.tools, batch) == STALE;
    assert ReadRuns(0, cfg.tools, batch) == multiset{ToolRun(0, 1, READ_CALL)};
  }

  lemma FoundFirst(tools: seq<Tool>, tool: Tool)
    requires tools != [] && tools[0] == tool
    ensures Find(tools, tool.spec.name) == Some(tool)
  {
  }

  /** An attempt whose `llm_turn:0` could not be written, and that died after its batch was, leaves that batch alone. */
  lemma LostAttempt(refuse: RefusalRenderer, codec: Codec, json: Json)
    requires codec.encode(ReadsValue(STALE)) == Some(json)
    ensures var host := Exec(GapConfig(refuse), LostEnv(codec),
                             Start(GapConfig(refuse), [], [], Host(map[], [], multiset{})), 2).host;
      && host.journal == map[Name(ToolsBatch(0)) := json]
      && host.ran == multiset{ToolRun(0, 1, READ_CALL)}
  {
    hide Exec, Tick, Name, Settle;
    var cfg, env := GapConfig(refuse), LostEnv(codec);
    var s0 := Start(cfg, [], [], Host(map[], [], multiset{}));
    GapStart(refuse, Host(map[], [], multiset{}));
    ExecUnfolds(cfg, env, s0, 0);
    ExecUnfolds(cfg, env, s0, 1);
    LostModelStep(refuse, codec);
    LostReadsStep(refuse, codec, json, Exec(cfg, env, s0, 1));
  }

  // The attempt after it.

  /** Over a journal that lost `llm_turn:0` but kept `tools:0`, the model is asked anew. */
  lemma GapModelStep(refuse: RefusalRenderer, codec: Codec, json: Json, host: Host)
    requires RoundTrips(codec) && codec.encode(ReadsValue(STALE)) == Some(json)
    requires host.journal == map[Name(ToolsBatch(0)) := json]
    ensures var cfg, env := GapConfig(refuse), GapEnv(codec);
      var s := Tick(cfg, env, System(Machine(AwaitModel(0, GapPlan()), StartState([], [])), host, false, []));
      && !s.crashed
      && s.machine.control == AwaitReads(GapContext()) && s.machine.st.policies == []
        && s.machine.st.stats.successfulWrites == 0
      && Name(ToolsBatch(0)) in s.host.journal && s.host.journal[Name(ToolsBatch(0))] == json
      && s.host.ran == host.ran
      && Name(WriteTool(0, "a")) !in s.host.journal
  {
    hide Name, Settle, Move, Rehydrate;
    var cfg, env := GapConfig(refuse), GapEnv(codec);
    NamesAreDistinct(ToolsBatch(0), LlmTurn(0));
    NamesAreDistinct(ToolsBatch(0), WriteTool(0, "a"));
    NamesAreDistinct(LlmTurn(0), WriteTool(0, "a"));
    ModelAsks(cfg, 0, GapPlan(), StartState([], []));
    var a := AssistantTurn(None, [READ_CALL, WRITE_CALL], None);
    ProceedFromModel(cfg, 0, GapPlan(), StartState([], []), Ok(AssistantValue(a)));
    GapReads(refuse);
    var m := OnAssistant(cfg, 0, GapPlan(), a, StartState([], []));
    ReadsAsk(cfg, GapContext(), m.st);
  }

  lemma GapReads(refuse: RefusalRenderer)
    ensures ReadsOfTurn(GapConfig(refuse), GapContext()) == [IndexedCall(0, READ_CALL)]
    ensures CountReads(GapConfig(refuse), [READ_CALL, WRITE_CALL], LoopStats(0, 0, 1, 0, 0)) == LoopStats(1, 0, 1, 0, 0)
  {
    var cfg := GapConfig(refuse);
    assert |"read"| != |"write"|;
    assert cfg.tools[1..] == [WRITE_TOOL];
    assert KindOf(cfg.tools, "read") == Some(ReadOnly(File)) && KindOf(cfg.tools, "write") == Some(Write);
    assert [READ_CALL, WRITE_CALL][1..] == [WRITE_CALL];
    assert [WRITE_CALL][1..] == [];
    assert ReadsOf(cfg, GapPlan(), [], 2) == [];
    assert ReadsOf(cfg, GapPlan(), [WRITE_CALL], 1) == [];
    var stats := LoopStats(1, 0, 1, 0, 0);
    assert CountReads(cfg, [], stats) == stats;
    assert CountReads(cfg, [WRITE_CALL], stats) == stats;
  }

  const GAP_PROGRESS := NO_PROGRESS.(batched := map[1 := Continue("stale")])

  /** The stale entry is replayed, and the read it does not mention is asked by itself. */
  lemma GapReadsStep(refuse: RefusalRenderer, codec: Codec, json: Json, s: System)
    requires RoundTrips(codec) && codec.encode(ReadsValue(STALE)) == Some(json)
    requires !s.crashed && s.machine.control == AwaitReads(GapContext())
    requires Name(ToolsBatch(0)) in s.host.journal && s.host.journal[Name(ToolsBatch(0))] == json
    ensures var next := Tick(GapConfig(refuse), GapEnv(codec), s);
      && !next.crashed && next.host.journal == s.host.journal && next.host.ran == s.host.ran
      && next.machine == Machine(AwaitCall(GapContext(), GAP_PROGRESS, READ_CALL, [WRITE_CALL]), s.machine.st)
  {
    hide Name, Settle, Move, RoundTrips, ReadsOf;
    var cfg, env := GapConfig(refuse), GapEnv(codec);
    ReadsAsk(cfg, GapContext(), s.machine.st);
    assert Stored(codec, s.host.journal, Name(ToolsBatch(0)), ReadsValue(STALE)) by {
      assert RoundTrips(codec);
      StoredBack(codec, ReadsValue(STALE), json);
    }
    StepReplays(refuse, env, s.host, Name(ToolsBatch(0)), AskOf(cfg, s.machine).effect, ReadsValue(STALE));
    ProceedFromReads(cfg, GapContext(), s.machine.st, Ok(ReadsValue(STALE)));
    assert ByIndex(STALE) == map[1 := Continue("stale")] by {
      assert STALE[..0] == [];
    }
    assert [READ_CALL, WRITE_CALL][1..] == [WRITE_CALL];
    CallUnfolds(cfg, GapContext(), GAP_PROGRESS, [READ_CALL, WRITE_CALL], s.machine.st);
    GapLocal(refuse);
  }

  lemma StoredBack(codec: Codec, v: StepValue, json: Json)
    requires RoundTrips(codec) && codec.encode(v) == Some(json)
    ensures Rehydrate(codec, KindOfValue(v), json) == Some(v)
  {
  }

  lemma GapLocal(refuse: RefusalRenderer)
    ensures LocalOutcome(GapConfig(refuse), GapPlan(), GAP_PROGRESS, READ_CALL).None?
    ensures KindOf(GapConfig(refuse).tools, "read") == Some(ReadOnly(File))
    ensures KindOf(GapConfig(refuse).tools, "write") == Some(Write)
    ensures DispatchOf(View(GapConfig(refuse).tools, ALL), READ_CALL) == Run(READ_TOOL)
  {
    var cfg := GapConfig(refuse);
    assert |"read"| != |"write"|;
    assert cfg.tools[1..] == [WRITE_TOOL];
    ViewOfAll(cfg.tools);
  }

  /** The read runs, under its own id. */
  lemma GapDispatch(refuse: RefusalRenderer, codec: Codec, host: Host)
    requires Name(WriteTool(0, "a")) !in host.journal
    ensures var effect := DispatchCall(0, View(GapConfig(refuse).tools, ALL), IndexedCall(0, READ_CALL));
      var (ret, next) := Step(refuse, GapEnv(codec), host, Name(WriteTool(0, "a")), effect);
      && ret == Returned(Ok(OutcomeValue(Continue("fresh"))))
      && next.ran == host.ran + multiset{ToolRun(0, 0, READ_CALL)}
  {
    hide Name, View, Find, KindOf, ReplayOf;
    GapLocal(refuse);
  }

  /** The write is given the stale outcome, and the turn and the run end. */
  lemma GapFinish(refuse: RefusalRenderer, st: LoopState)
    requires st.policies == [] && st.stats.successfulWrites == 0
    ensures var (st', p') := Account(GapConfig(refuse), 0, READ_CALL, Continue("fresh"), st, GAP_PROGRESS);
      var end := Settle(GapConfig(refuse), Machine(AtCall(GapContext(), p', [WRITE_CALL]), st'));
      end.control == Halted(Completed(Exhausted)) && end.st.stats.successfulWrites == 1
  {
    hide Settle, View, Find, KindOf, ReplayOf;
    var cfg, cx := GapConfig(refuse), GapContext();
    GapLocal(refuse);
    var (st1, p1) := Account(cfg, 0, READ_CALL, Continue("fresh"), st, GAP_PROGRESS);
    CallUnfolds(cfg, cx, p1, [WRITE_CALL], st1);
    assert [WRITE_CALL][1..] == [];
    var (st2, p2) := Account(cfg, 0, WRITE_CALL, Continue("stale"), st1, p1);
    CallsDone(cfg, cx, p2, st2);
    GapEnd(cfg, cx, p2, st2);
  }

  /** The last step of the run: the read is dispatched, and a write is counted. */
  lemma GapCallStep(refuse: RefusalRenderer, codec: Codec, s: System)
    requires !s.crashed && s.machine.st.policies == [] && s.machine.st.stats.successfulWrites == 0
    requires s.machine.control == AwaitCall(GapContext(), GAP_PROGRESS, READ_CALL, [WRITE_CALL])
    requires Name(WriteTool(0, "a")) !in s.host.journal
    ensures var next := Tick(GapConfig(refuse), GapEnv(codec), s);
      && !next.crashed
      && next.host.ran == s.host.ran + multiset{ToolRun(0, 0, READ_CALL)}
      && next.machine.control == Halted(Completed(Exhausted))
      && next.machine.st.stats.successfulWrites == 1
  {
    hide Name, Step, AskOf, Settle, Proceed, Account, View, Find;
    var cfg, cx, st := GapConfig(refuse), GapContext(), s.machine.st;
    CallAsks(cfg, cx, GAP_PROGRESS, READ_CALL, [WRITE_CALL], st);
    GapDispatch(refuse, codec, s.host);
    ProceedFromCall(cfg, cx, GAP_PROGRESS, READ_CALL, [WRITE_CALL], st, Ok(OutcomeValue(Continue("fresh"))));
    GapFinish(refuse, st);
  }

  lemma GapEnd(cfg: Config, cx: TurnContext, p: TurnProgress, st: LoopState)
    requires st.policies == [] && cfg.limits.maxTurns == 1 && cx.turn == 0
    requires !p.finishRequested && p.abortReason.None?
    ensures var end := Settle(cfg, EndTurn(cfg, cx, p, st));
      end.control == Halted(Completed(Exhausted)) && end.st.stats == st.stats
  {
    hide Settle, Move;
    TailUnfolds(cfg, 1, EndTurn(cfg, cx, p, st).st);
  }

  /**
   "Until the first gap" is false of the code, and not harmlessly so. One attempt fails to write `llm_turn:0`, writes
   `tools:0` and dies; the next asks the model anew, replays the stale batch against the new calls, and counts a
   successful write that no tool performed in either attempt.
   */
  lemma StaleBatchSwallowsWrite(refuse: RefusalRenderer, codec: Codec)
    requires RoundTrips(codec) && codec.encode(ReadsValue(STALE)).Some?
    ensures var cfg := GapConfig(refuse);
      var host := Exec(cfg, LostEnv(codec), Start(cfg, [], [], Host(map[], [], multiset{})), 2).host;
      var s := Exec(cfg, GapEnv(codec), Start(cfg, [], [], host), 3);
      && s.machine.control == Halted(Completed(Exhausted))
      && s.machine.st.stats.successfulWrites == 1
      && forall r | r in s.host.ran :: r.call != WRITE_CALL
  {
    hide Exec, Tick, Name, RoundTrips, Settle;
    var cfg, env, json := GapConfig(refuse), GapEnv(codec), codec.encode(ReadsValue(STALE)).value;
    LostAttempt(refuse, codec, json);
    var host := Exec(cfg, LostEnv(codec), Start(cfg, [], [], Host(map[], [], multiset{})), 2).host;
    var s0 := Start(cfg, [], [], host);
    GapStart(refuse, host);
    ExecUnfolds(cfg, env, s0, 0);
    ExecUnfolds(cfg, env, s0, 1);
    ExecUnfolds(cfg, env, s0, 2);
    GapModelStep(refuse, codec, json, host);
    var s1 := Exec(cfg, env, s0, 1);
    GapReadsStep(refuse, codec, json, s1);
    var s2 := Exec(cfg, env, s0, 2);
    GapCallStep(refuse, codec, s2);
  }
}
