/**
 The runtime as it is written: a shared in-memory journal and a `step` that consults it, runs the effect with its
 reads joined chunk by chunk, and writes the result back.
 */
module Checkpoint {
  import opened Wrappers
  import opened AgentTypes
  import opened ToolSurface
  import opened StepRuntime

  /** The journal of one run, shared by every runtime that resumes it. */
  class InMemoryStepStore {
    var entries: map<string, Json>

    constructor ()
      ensures entries == map[]
    {
      entries := map[];
    }

    method Fetch(name: string) returns (found: Option<Json>)
      ensures found.Some? <==> name in entries
      ensures found.Some? ==> found.value == entries[name]
    {
      found := if name in entries then Some(entries[name]) else None;
    }

    method Upsert(name: string, json: Json)
      modifies this
      ensures entries == old(entries)[name := json]
    {
      entries := entries[name := json];
    }

    /** Drop the whole journal, as a finished run does. */
    method Purge()
      modifies this
      ensures entries == map[]
    {
      entries := map[];
    }
  }

  /** The positions below `n`. */
  function Positions(n: nat): (positions: set<nat>)
    ensures forall i: int :: i in positions <==> 0 <= i < n
  {
    if n == 0 then {} else Positions(n - 1) + {n - 1}
  }

  /** Which reads of a chunk have completed, as the tools they ran. */
  ghost function RunsDone(turn: nat, view: seq<Tool>, chunk: seq<IndexedCall>, done: set<nat>,
                          n: nat): multiset<ToolRun>
    requires n <= |chunk|
  {
    if n == 0 then multiset{}
    else RunsDone(turn, view, chunk, done, n - 1)
         + if n - 1 in done then RunsOf(turn, view, chunk[n - 1]) else multiset{}
  }

  lemma {:induction false} RunsDoneAdd(turn: nat, view: seq<Tool>, chunk: seq<IndexedCall>, done: set<nat>, j: nat,
                                       n: nat)
    requires n <= |chunk| && j < |chunk| && j !in done
    ensures RunsDone(turn, view, chunk, done + {j}, n)
            == RunsDone(turn, view, chunk, done, n) + if j < n then RunsOf(turn, view, chunk[j]) else multiset{}
  {
    hide RunsOf;
    if n > 0 {
      RunsDoneAdd(turn, view, chunk, done, j, n - 1);
    }
  }

  lemma {:induction false} RunsDoneNone(turn: nat, view: seq<Tool>, chunk: seq<IndexedCall>, n: nat)
    requires n <= |chunk|
    ensures RunsDone(turn, view, chunk, {}, n) == multiset{}
  {
    hide RunsOf;
    if n > 0 {
      RunsDoneNone(turn, view, chunk, n - 1);
    }
  }

  lemma {:induction false} RunsDoneAll(turn: nat, view: seq<Tool>, chunk: seq<IndexedCall>, done: set<nat>, n: nat)
    requires n <= |chunk| && forall i: nat | i < n :: i in done
    ensures RunsDone(turn, view, chunk, done, n) == ReadRuns(turn, view, chunk[..n])
  {
    hide RunsOf;
    if n > 0 {
      RunsDoneAll(turn, view, chunk, done, n - 1);
      assert chunk[..n] == chunk[..n - 1] + [chunk[n - 1]];
      ReadRunsConcat(turn, view, chunk[..n - 1], [chunk[n - 1]]);
    }
  }

  lemma {:induction false} ReadRunsConcat(turn: nat, view: seq<Tool>, a: seq<IndexedCall>, b: seq<IndexedCall>)
    ensures ReadRuns(turn, view, a + b) == ReadRuns(turn, view, a) + ReadRuns(turn, view, b)
    decreases |a|
  {
    hide RunsOf;
    if a == [] {
      assert a + b == b;
    } else {
      assert (a + b)[1..] == a[1..] + b;
      ReadRunsConcat(turn, view, a[1..], b);
    }
  }

  lemma {:induction false} ReadOutcomesConcat(refuse: RefusalRenderer, world: World, tick: nat, view: seq<Tool>,
                                              a: seq<IndexedCall>, b: seq<IndexedCall>)
    ensures ReadOutcomes(refuse, world, tick, view, a + b)
            == ReadOutcomes(refuse, world, tick, view, a) + ReadOutcomes(refuse, world, tick, view, b)
    decreases |a|
  {
    hide OutcomeOf;
    if a == [] {
      assert a + b == b;
    } else {
      assert (a + b)[1..] == a[1..] + b;
      ReadOutcomesConcat(refuse, world, tick, view, a[1..], b);
    }
  }

  lemma {:induction false} ReadOutcomesPush(refuse: RefusalRenderer, world: World, tick: nat, view: seq<Tool>,
                                            batch: seq<IndexedCall>, n: nat)
    requires n < |batch|
    ensures ReadOutcomes(refuse, world, tick, view, batch[..n + 1])
            == ReadOutcomes(refuse, world, tick, view, batch[..n])
               + [(batch[n].index, OutcomeOf(refuse, world, tick, view, batch[n]))]
  {
    hide OutcomeOf;
    assert batch[..n + 1] == batch[..n] + [batch[n]];
    ReadOutcomesConcat(refuse, world, tick, view, batch[..n], [batch[n]]);
    assert ReadOutcomes(refuse, world, tick, view, [batch[n]])
        == [(batch[n].index, OutcomeOf(refuse, world, tick, view, batch[n]))] by {
      assert [batch[n]][1..] == [];
    }
  }

  /** A process running steps: the runtime, the world it acts on, and what has happened so far. */
  class StepHost {
    const env: Env
    const refuse: RefusalRenderer
    const batchSize: nat
    const store: InMemoryStepStore
    var tick: nat
    ghost var trace: seq<StepEvent>
    ghost var ran: multiset<ToolRun>

    ghost predicate Valid()
      reads this
    {
      tick == |trace|
    }

    ghost function View(): Host
      reads this, store
    {
      Host(store.entries, trace, ran)
    }

    constructor (env: Env, refuse: RefusalRenderer, batchSize: nat, store: InMemoryStepStore)
      ensures Valid() && View() == Host(store.entries, [], multiset{})
      ensures this.env == env && this.refuse == refuse && this.batchSize == batchSize && this.store == store
    {
      this.env, this.refuse, this.batchSize, this.store := env, refuse, batchSize, store;
      tick, trace, ran := 0, [], multiset{};
    }

    /** Dispatch one call on a view: run the tool found, or render the refusal. */
    method Dispatch(turn: nat, view: seq<Tool>, c: IndexedCall) returns (outcome: ToolOutcome)
      modifies this`ran
      ensures outcome == OutcomeOf(refuse, env.world, tick, view, c)
      ensures ran == old(ran) + RunsOf(turn, view, c)
    {
      match DispatchOf(view, c.call)
      case Run(_) =>
        outcome := env.world.tool(tick, c.index, c.call);
        ran := ran + multiset{ToolRun(turn, c.index, c.call)};
      case Refuse(refusal) =>
        outcome := refuse(refusal);
    }

    /** Run the reads of a chunk, completing in any order, and give their outcomes in chunk order. */
    method JoinAll(turn: nat, view: seq<Tool>, chunk: seq<IndexedCall>) returns (joined: seq<(nat, ToolOutcome)>)
      modifies this`ran
      ensures joined == ReadOutcomes(refuse, env.world, tick, view, chunk)
      ensures ran == old(ran) + ReadRuns(turn, view, chunk)
    {
      hide OutcomeOf, RunsOf, ReadOutcomes, ReadRuns, RunsDone;
      var slots: map<nat, ToolOutcome> := map[];
      var pending := Positions(|chunk|);
      ghost var done: set<nat> := {};
      RunsDoneNone(turn, view, chunk, |chunk|);
      while pending != {}
        invariant forall i: nat | i < |chunk| :: i in done <==> i !in pending
        invariant forall i: int :: i in pending ==> 0 <= i < |chunk|
        invariant forall i | i in done ::
          i < |chunk| && i in slots && slots[i] == OutcomeOf(refuse, env.world, tick, view, chunk[i])
        invariant ran == old(ran) + RunsDone(turn, view, chunk, done, |chunk|)
        decreases |pending|
      {
        var i :| i in pending;
        var outcome := Dispatch(turn, view, chunk[i]);
        slots := slots[i := outcome];
        RunsDoneAdd(turn, view, chunk, done, i, |chunk|);
        done := done + {i};
        pending := pending - {i};
      }
      assert chunk[..|chunk|] == chunk;
      RunsDoneAll(turn, view, chunk, done, |chunk|);
      assert ran == old(ran) + ReadRuns(turn, view, chunk);
      joined := [];
      assert chunk[..0] == [];
      ReadOutcomesNone(tick, view);
      for n := 0 to |chunk|
        invariant joined == ReadOutcomes(refuse, env.world, tick, view, chunk[..n])
        invariant ran == old(ran) + ReadRuns(turn, view, chunk)
      {
        joined := joined + [(chunk[n].index, slots[n])];
        ReadOutcomesPush(refuse, env.world, tick, view, chunk, n);
      }
    }

    lemma ReadOutcomesNone(tick: nat, view: seq<Tool>)
      ensures ReadOutcomes(refuse, env.world, tick, view, []) == []
      ensures forall turn :: ReadRuns(turn, view, []) == multiset{}
    {
    }

    /** Run a batch of reads in chunks of at most the batch size, one at least. */
    method DispatchBatch(turn: nat, view: seq<Tool>, batch: seq<IndexedCall>) returns (ordered: seq<(nat, ToolOutcome)>)
      modifies this`ran
      ensures ordered == ReadOutcomes(refuse, env.world, tick, view, batch)
      ensures ran == old(ran) + ReadRuns(turn, view, batch)
    {
      hide OutcomeOf, RunsOf, ReadOutcomes, ReadRuns;
      var size := if batchSize < 1 then 1 else batchSize;
      ordered := [];
      var from := 0;
      ReadOutcomesNone(tick, view);
      assert batch[..0] == [];
      while from < |batch|
        invariant 0 <= from <= |batch|
        invariant ordered == ReadOutcomes(refuse, env.world, tick, view, batch[..from])
        invariant ran == old(ran) + ReadRuns(turn, view, batch[..from])
      {
        var to := if from + size < |batch| then from + size else |batch|;
        var joined := JoinAll(turn, view, batch[from..to]);
        assert batch[..to] == batch[..from] + batch[from..to];
        ReadOutcomesConcat(refuse, env.world, tick, view, batch[..from], batch[from..to]);
        ReadRunsConcat(turn, view, batch[..from], batch[from..to]);
        ordered := ordered + joined;
        from := to;
      }
      assert batch[..|batch|] == batch;
    }

    method RunEffect(e: Effect) returns (result: StepResult)
      modifies this`ran
      ensures result == Perform(refuse, env.world, tick, e).0
      ensures ran == old(ran) + Perform(refuse, env.world, tick, e).1
    {
      hide OutcomeOf, RunsOf, ReadOutcomes, ReadRuns;
      match e
      case CompleteModel(messages, specs) =>
        match env.world.model(tick, messages, specs) {
          case Ok(assistant) => result := Ok(AssistantValue(assistant));
          case Err(error) => result := Err(error);
        }
      case DispatchReads(turn, view, batch) =>
        var ordered := DispatchBatch(turn, view, batch);
        result := Ok(ReadsValue(ordered));
      case DispatchCall(turn, view, target) =>
        var outcome := Dispatch(turn, view, target);
        result := Ok(OutcomeValue(outcome));
    }

    method Note(event: StepEvent)
      requires Valid()
      modifies this`tick, this`trace
      ensures Valid() && trace == old(trace) + [event]
    {
      tick := tick + 1;
      trace := trace + [event];
    }

    /** Run the effect and, under a journal, try to record what it gave. */
    method RunLive(name: string, e: Effect, fetch: Fetch) returns (ret: StepReturn)
      requires Valid()
      modifies this, store
      ensures Valid()
      ensures ret == GoLive(refuse, env, old(View()), name, e, fetch).0
      ensures View() == GoLive(refuse, env, old(View()), name, e, fetch).1
    {
      hide Perform, Rehydrate;
      var crash := env.crash(tick);
      if crash == BeforeEffect {
        Note(StepEvent(name, fetch, NotRun, false, true));
        return Crashed;
      }
      var result := RunEffect(e);
      if result.Err? {
        Note(StepEvent(name, fetch, RanErr, false, crash != NoCrash));
        return if crash != NoCrash then Crashed else Returned(result);
      }
      var persisted := false;
      if env.runtime.Checkpoint? && crash != BeforeUpsert && !env.upsertFails(tick) {
        var json := env.runtime.codec.encode(result.value);
        if json.Some? {
          store.Upsert(name, json.value);
          persisted := true;
        }
      }
      Note(StepEvent(name, fetch, RanOk, persisted, crash != NoCrash));
      return if crash != NoCrash then Crashed else Returned(result);
    }

    /** Replay the journaled result if there is one; otherwise run the effect and journal what it gave. */
    method Step(name: string, e: Effect) returns (ret: StepReturn)
      requires Valid()
      modifies this, store
      ensures Valid()
      ensures ret == StepRuntime.Step(refuse, env, old(View()), name, e).0
      ensures View() == StepRuntime.Step(refuse, env, old(View()), name, e).1
    {
      hide Perform, GoLive;
      var fetch := NotConsulted;
      if env.runtime.Checkpoint? {
        if env.fetchFails(tick) {
          fetch := FetchFailed;
        } else {
          var found := store.Fetch(name);
          if found.None? {
            fetch := Miss;
          } else {
            var replayed := Rehydrate(env.runtime.codec, KindOfEffect(e), found.value);
            if replayed.Some? {
              var crash := env.crash(tick);
              Note(StepEvent(name, Hit, NotRun, false, crash != NoCrash));
              return if crash != NoCrash then Crashed else Returned(Ok(replayed.value));
            }
            fetch := NotRehydrated;
          }
        }
      }
      ret := RunLive(name, e, fetch);
    }
  }
}
