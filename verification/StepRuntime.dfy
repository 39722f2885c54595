/**
 Named steps: the effects a step may perform, the world they act on, and the two runtimes that perform them.
 `Passthrough` runs every effect; `Checkpoint` consults a journal keyed by step name.
 */
module StepRuntime {
  import opened Wrappers
  import opened AgentTypes
  import opened ToolSurface

  type Json = string

  datatype IndexedCall = IndexedCall(index: nat, call: ToolCall)

  /** What a step does when it runs live. */
  datatype Effect =
    | CompleteModel(messages: seq<ChatMessage>, specs: seq<ToolSpec>)
    | DispatchReads(turn: nat, view: seq<Tool>, batch: seq<IndexedCall>)
    | DispatchCall(turn: nat, view: seq<Tool>, target: IndexedCall)

  datatype StepValue =
    | AssistantValue(assistant: AssistantTurn)
    | ReadsValue(outcomes: seq<(nat, ToolOutcome)>)
    | OutcomeValue(outcome: ToolOutcome)

  /** The Rust type a step's result is rehydrated into. */
  datatype Kind = ModelStep | ReadsStep | CallStep

  function KindOfValue(v: StepValue): Kind {
    match v case AssistantValue(_) => ModelStep case ReadsValue(_) => ReadsStep case OutcomeValue(_) => CallStep
  }

  function KindOfEffect(e: Effect): Kind {
    match e
    case CompleteModel(_, _) => ModelStep
    case DispatchReads(_, _, _) => ReadsStep
    case DispatchCall(_, _, _) => CallStep
  }

  type StepResult = Result<StepValue, StepError>

  /** Serialisation to and from the journal; either direction may fail. */
  datatype Codec = Codec(encode: StepValue -> Option<Json>, decode: (Kind, Json) -> Option<StepValue>)

  function Rehydrate(codec: Codec, kind: Kind, json: Json): (r: Option<StepValue>)
    ensures r.Some? ==> KindOfValue(r.value) == kind
  {
    match codec.decode(kind, json)
    case Some(v) => if KindOfValue(v) == kind then Some(v) else None
    case None => None
  }

  /** What was written can be read back as the same value. */
  ghost predicate RoundTrips(codec: Codec) {
    forall v, j :: codec.encode(v) == Some(j) ==> Rehydrate(codec, KindOfValue(v), j) == Some(v)
  }

  datatype Runtime = Passthrough | Checkpoint(codec: Codec)

  datatype CrashPoint = NoCrash | BeforeEffect | BeforeUpsert | AfterUpsert

  type RefusalRenderer = DispatchRefusal -> ToolOutcome

  /** The model and the tools: any functions of the tick, of the call's position and of what is asked. */
  datatype World = World(
    model: (nat, seq<ChatMessage>, seq<ToolSpec>) -> Result<AssistantTurn, StepError>,
    tool: (nat, nat, ToolCall) -> ToolOutcome)

  /**
   The runtime a run is hosted on and everything the process does not control, as functions of the tick: the number of
   steps asked of this world so far. Quantifying over environments quantifies over every behaviour of the model and
   the tools, every store fault and every crash.
   */
  datatype Env = Env(
    runtime: Runtime, world: World, fetchFails: nat -> bool, upsertFails: nat -> bool, crash: nat -> CrashPoint)

  /** A tool that really ran, for the call at `index` of the given turn. */
  datatype ToolRun = ToolRun(turn: nat, index: nat, call: ToolCall)

  datatype Fetch = NotConsulted | Hit | Miss | FetchFailed | NotRehydrated
  datatype Ran = NotRun | RanErr | RanOk

  datatype StepEvent = StepEvent(name: string, fetch: Fetch, ran: Ran, persisted: bool, crashed: bool)

  /** The journal, with the history of steps asked and tools run. */
  datatype Host = Host(journal: map<string, Json>, trace: seq<StepEvent>, ran: multiset<ToolRun>)

  datatype StepReturn = Crashed | Returned(result: StepResult)

  function OutcomeOf(refuse: RefusalRenderer, world: World, tick: nat, view: seq<Tool>, c: IndexedCall): ToolOutcome {
    match DispatchOf(view, c.call)
    case Run(_) => world.tool(tick, c.index, c.call)
    case Refuse(refusal) => refuse(refusal)
  }

  function RunsOf(turn: nat, view: seq<Tool>, c: IndexedCall): multiset<ToolRun> {
    if DispatchOf(view, c.call).Run? then multiset{ToolRun(turn, c.index, c.call)} else multiset{}
  }

  function ReadOutcomes(refuse: RefusalRenderer, world: World, tick: nat, view: seq<Tool>, batch: seq<IndexedCall>):
    (r: seq<(nat, ToolOutcome)>)
    ensures |r| == |batch|
  {
    if batch == [] then []
    else [(batch[0].index, OutcomeOf(refuse, world, tick, view, batch[0]))]
         + ReadOutcomes(refuse, world, tick, view, batch[1..])
  }

  function ReadRuns(turn: nat, view: seq<Tool>, batch: seq<IndexedCall>): multiset<ToolRun> {
    if batch == [] then multiset{} else RunsOf(turn, view, batch[0]) + ReadRuns(turn, view, batch[1..])
  }

  /** One live execution of an effect. Tool steps always succeed; their failures are outcomes. */
  function Perform(refuse: RefusalRenderer, world: World, tick: nat, e: Effect): (r: (StepResult, multiset<ToolRun>))
    ensures r.0.Ok? ==> KindOfValue(r.0.value) == KindOfEffect(e)
  {
    match e
    case CompleteModel(messages, specs) => (
      match world.model(tick, messages, specs)
      case Ok(assistant) => (Ok(AssistantValue(assistant)), multiset{})
      case Err(error) => (Err(error), multiset{}))
    case DispatchReads(turn, view, batch) =>
      (Ok(ReadsValue(ReadOutcomes(refuse, world, tick, view, batch))), ReadRuns(turn, view, batch))
    case DispatchCall(turn, view, target) =>
      (Ok(OutcomeValue(OutcomeOf(refuse, world, tick, view, target))), RunsOf(turn, view, target))
  }

  /** What consulting the journal yields. */
  function Consult(codec: Codec, env: Env, host: Host, name: string, kind: Kind): (r: (Fetch, Option<StepValue>))
    ensures r.0 == Hit <==> r.1.Some?
    ensures r.1.Some? ==> KindOfValue(r.1.value) == kind
  {
    if env.fetchFails(|host.trace|) then (FetchFailed, None)
    else if name !in host.journal then (Miss, None)
    else match Rehydrate(codec, kind, host.journal[name])
      case Some(v) => (Hit, Some(v))
      case None => (NotRehydrated, None)
  }

  function Happened(host: Host, event: StepEvent, runs: multiset<ToolRun>): Host {
    host.(trace := host.trace + [event], ran := host.ran + runs)
  }

  /** The live part of a step: run the effect and, under a journal, try to record its result. */
  function GoLive(refuse: RefusalRenderer, env: Env, host: Host, name: string, e: Effect,
                  fetch: Fetch): (r: (StepReturn, Host))
    ensures r.0.Returned? && r.0.result.Ok? ==> KindOfValue(r.0.result.value) == KindOfEffect(e)
  {
    var tick := |host.trace|;
    var crash := env.crash(tick);
    if crash == BeforeEffect then
      (Crashed, Happened(host, StepEvent(name, fetch, NotRun, false, true), multiset{}))
    else
      var (result, runs) := Perform(refuse, env.world, tick, e);
      var down := crash != NoCrash;
      if result.Err? then
        (if down then Crashed else Returned(result),
         Happened(host, StepEvent(name, fetch, RanErr, false, down), runs))
      else
        var json := if env.runtime.Checkpoint? && crash != BeforeUpsert && !env.upsertFails(tick)
                    then env.runtime.codec.encode(result.value) else None;
        var written := if json.Some? then host.(journal := host.journal[name := json.value]) else host;
        (if down then Crashed else Returned(result),
         Happened(written, StepEvent(name, fetch, RanOk, json.Some?, down), runs))
  }

  /** `StepRuntime::step`: replay from the journal if possible, otherwise run live. */
  function Step(refuse: RefusalRenderer, env: Env, host: Host, name: string, e: Effect):
    (r: (StepReturn, Host))
    ensures r.0.Returned? && r.0.result.Ok? ==> KindOfValue(r.0.result.value) == KindOfEffect(e)
    ensures |r.1.trace| == |host.trace| + 1
    ensures host.ran <= r.1.ran
    ensures host.journal.Keys <= r.1.journal.Keys
  {
    match env.runtime
    case Passthrough => GoLive(refuse, env, host, name, e, NotConsulted)
    case Checkpoint(codec) =>
      var (fetch, replayed) := Consult(codec, env, host, name, KindOfEffect(e));
      if replayed.Some? then
        var down := env.crash(|host.trace|) != NoCrash;
        (if down then Crashed else Returned(Ok(replayed.value)),
         Happened(host, StepEvent(name, Hit, NotRun, false, down), multiset{}))
      else GoLive(refuse, env, host, name, e, fetch)
  }
}
