/**
 The JSON-RPC client over an agent's stdio (section 5 of JSON-RPC 2.0): requests issued concurrently, one reader that
 routes replies to their waiters and answers the agent's own requests.
 */
module AcpHost {
  import opened Wrappers

  /** A JSON value, as far as the client looks at it. */
  type Value = string

  // ---------- permission requests ----------

  datatype PermissionPolicy = AllowFirst | Cancel

  datatype PermissionOption = PermissionOption(kind: Option<string>, optionId: Option<string>)

  datatype Decision = Selected(optionId: string) | Cancelled

  predicate IsAllow(o: PermissionOption) {
    o.kind.Some? && "allow" <= o.kind.value
  }

  /** The first option of an allowing kind. */
  function FirstAllow(options: seq<PermissionOption>): (r: Option<PermissionOption>)
    ensures r.Some? ==> r.value in options && IsAllow(r.value)
    ensures r.None? ==> forall o | o in options :: !IsAllow(o)
  {
    if options == [] then None
    else if IsAllow(options[0]) then Some(options[0])
    else FirstAllow(options[1..])
  }

  lemma {:induction false} FirstAllowIsFirst(options: seq<PermissionOption>, i: nat)
    requires i < |options| && IsAllow(options[i])
    requires forall j | 0 <= j < i :: !IsAllow(options[j])
    ensures FirstAllow(options) == Some(options[i])
  {
    if i > 0 {
      FirstAllowIsFirst(options[1..], i - 1);
    }
  }

  /** An option that allows, or any option where none does. */
  predicate Selectable(o: PermissionOption, options: seq<PermissionOption>) {
    IsAllow(o) || forall p | p in options :: !IsAllow(p)
  }

  /** Option `i` is the first that allows, or the first of all where none does. */
  predicate Preferred(options: seq<PermissionOption>, i: nat)
    requires i < |options|
  {
    if IsAllow(options[i]) then forall j | 0 <= j < i :: !IsAllow(options[j])
    else i == 0 && forall o | o in options :: !IsAllow(o)
  }

  /** The answer to a permission request; `None` stands for a request without a list of options. */
  function DecidePermission(options: Option<seq<PermissionOption>>, policy: PermissionPolicy): (d: Decision)
    ensures policy == Cancel ==> d == Cancelled
    ensures options.None? || options.value == [] ==> d == Cancelled
    ensures d.Selected? ==> exists o | o in options.value ::
      Selectable(o, options.value) && o.optionId == Some(d.optionId)
  {
    if policy == Cancel || options.None? || options.value == [] then Cancelled
    else
      var chosen := FirstAllow(options.value).GetOr(options.value[0]);
      match chosen.optionId case Some(id) => Selected(id) case None => Cancelled
  }

  /** Without a policy against it, the answer is the preferred option, if that has an id to select it by. */
  lemma PreferredIsDecided(options: seq<PermissionOption>, i: nat)
    requires i < |options| && Preferred(options, i)
    ensures var d := DecidePermission(Some(options), AllowFirst);
      if options[i].optionId.Some? then d == Selected(options[i].optionId.value) else d == Cancelled
  {
    if IsAllow(options[i]) {
      FirstAllowIsFirst(options, i);
    }
  }

  /** Some option is preferred wherever there are options. */
  lemma {:induction false} SomePreferred(options: seq<PermissionOption>) returns (i: nat)
    requires options != []
    ensures i < |options| && Preferred(options, i)
  {
    if o :| o in options && IsAllow(o) {
      var k :| 0 <= k < |options| && options[k] == o;
      i := FirstAllowAt(options, k);
    } else {
      i := 0;
    }
  }

  lemma {:induction false} FirstAllowAt(options: seq<PermissionOption>, k: nat) returns (i: nat)
    requires k < |options| && IsAllow(options[k])
    ensures i <= k && IsAllow(options[i]) && forall j | 0 <= j < i :: !IsAllow(options[j])
  {
    if j :| 0 <= j < k && IsAllow(options[j]) {
      i := FirstAllowAt(options, j);
    } else {
      i := k;
    }
  }

  /** A request is cancelled exactly by policy, for want of options, or for want of an id on the preferred one. */
  lemma CancelledIff(options: Option<seq<PermissionOption>>, policy: PermissionPolicy)
    ensures DecidePermission(options, policy) == Cancelled <==>
            || policy == Cancel || options.None? || options.value == []
            || forall i | 0 <= i < |options.value| && Preferred(options.value, i) :: options.value[i].optionId.None?
  {
    if policy == AllowFirst && options.Some? && options.value != [] {
      var i := SomePreferred(options.value);
      forall k | 0 <= k < |options.value| && Preferred(options.value, k)
        ensures options.value[k].optionId.None? <==> DecidePermission(options, policy) == Cancelled {
        PreferredIsDecided(options.value, k);
      }
    }
  }

  // ---------- messages ----------

  /** What a reply carries; a reply with neither part is a success with no value. */
  datatype Reply = Reply(error: Option<Value>, result: Option<Value>)

  datatype Message =
    | Malformed
    | Response(id: Option<int>, reply: Reply)
    | SessionUpdate(update: Option<Value>)
    | PermissionRequest(id: Option<int>, options: Option<seq<PermissionOption>>)
    | OtherCall(id: Option<int>, name: string)

  /** An answer the client writes to a request of the agent. */
  datatype Answer = Decided(id: int, decision: Decision) | MethodNotFound(id: int, name: string)

  // ---------- the client ----------

  /**
   How far a request has come: its id taken, its waiter registered, its line written, its write failed, its waiter
   withdrawn.
   */
  datatype Phase = Issued | Registered | Written | WriteFailed | Withdrawn

  /** What woke a waiter: a reply, or the channel closing. */
  datatype Wake = Replied(reply: Reply) | Closed

  datatype Reader = Reading | Exited | Cleared

  /** A message the reader took, and whether its answer, if it calls for one, could be written. */
  datatype Received = Received(message: Message, writable: bool)

  datatype State = State(
    nextId: int, phase: map<int, Phase>, pending: set<int>, woken: map<int, Wake>, reader: Reader,
    updates: seq<Value>, answers: seq<Answer>,
    registeredLate: set<int>, received: seq<Received>)

  const START := State(1, map[], {}, map[], Reading, [], [], {}, [])

  /** One atomic step of a requesting thread or of the reader. */
  datatype Event =
    | Issue
    | Register(id: int)
    | WriteOk(id: int)
    | WriteFails(id: int)
    | Withdraw(id: int)
    | Receive(message: Message, writable: bool)
    | Eof
    | Clear

  function UpdateOf(m: Message): seq<Value> {
    if m.SessionUpdate? && m.update.Some? then [m.update.value] else []
  }

  function AnswerTo(m: Message, policy: PermissionPolicy): seq<Answer> {
    match m
    case PermissionRequest(Some(id), options) => [Decided(id, DecidePermission(options, policy))]
    case OtherCall(Some(id), name) => [MethodNotFound(id, name)]
    case _ => []
  }

  function InPhase(s: State, id: int, p: Phase): bool {
    id in s.phase && s.phase[id] == p
  }

  /** Wake every waiter in `ids` with a closed channel. */
  function CloseAll(woken: map<int, Wake>, ids: set<int>): map<int, Wake> {
    map id | id in woken.Keys + ids :: if id in ids then Closed else woken[id]
  }

  /** The state after an event; an event that cannot happen changes nothing. */
  function Step(s: State, e: Event, policy: PermissionPolicy): State {
    match e
    case Issue => s.(nextId := s.nextId + 1, phase := s.phase[s.nextId := Issued])
    case Register(id) =>
      if !InPhase(s, id, Issued) then s
      else s.(phase := s.phase[id := Registered], pending := s.pending + {id},
              registeredLate := if s.reader == Cleared then s.registeredLate + {id} else s.registeredLate)
    case WriteOk(id) => if !InPhase(s, id, Registered) then s else s.(phase := s.phase[id := Written])
    case WriteFails(id) => if !InPhase(s, id, Registered) then s else s.(phase := s.phase[id := WriteFailed])
    case Withdraw(id) =>
      if !InPhase(s, id, WriteFailed) then s
      else s.(phase := s.phase[id := Withdrawn], pending := s.pending - {id})
    case Receive(m, writable) =>
      if s.reader != Reading then s
      else
        var t := s.(received := s.received + [Received(m, writable)], updates := s.updates + UpdateOf(m),
                    answers := if writable then s.answers + AnswerTo(m, policy) else s.answers);
        if m.Response? && m.id.Some? && m.id.value in s.pending then
          t.(pending := s.pending - {m.id.value}, woken := s.woken[m.id.value := Replied(m.reply)])
        else t
    case Eof => if s.reader == Reading then s.(reader := Exited) else s
    case Clear =>
      if s.reader != Exited then s
      else s.(reader := Cleared, pending := {}, woken := CloseAll(s.woken, s.pending))
  }

  function Run(s: State, events: seq<Event>, policy: PermissionPolicy): State
    decreases |events|
  {
    if events == [] then s else Run(Step(s, events[0], policy), events[1..], policy)
  }

  // ---------- what every interleaving keeps ----------

  predicate Waiting(s: State, id: int) {
    InPhase(s, id, Registered) || InPhase(s, id, Written)
  }

  /** The invariant, request by request. */
  ghost predicate Consistent(s: State) {
    && (forall id | id in s.phase :: 0 < id < s.nextId)
    && (forall id | id in s.pending ::
          id in s.phase && s.phase[id] != Issued && s.phase[id] != Withdrawn && id !in s.woken)
    && (forall id | id in s.woken :: id in s.phase && s.phase[id] != Issued)
    && (forall id | id in s.phase && Waiting(s, id) :: id in s.pending <==> id !in s.woken)
    && (s.reader == Cleared ==> forall id | id in s.pending :: id in s.registeredLate)
    && (s.reader != Cleared ==> s.registeredLate == {})
    && (forall id | id in s.registeredLate :: id in s.phase && s.phase[id] != Issued && id !in s.woken)
    && 0 < s.nextId
  }

  lemma StepConsistent(s: State, e: Event, policy: PermissionPolicy)
    requires Consistent(s)
    ensures Consistent(Step(s, e, policy))
  {
    hide AnswerTo, UpdateOf;
  }

  lemma {:induction false} RunConsistent(s: State, events: seq<Event>, policy: PermissionPolicy)
    requires Consistent(s)
    ensures Consistent(Run(s, events, policy))
    decreases |events|
  {
    hide Step, Consistent;
    if events != [] {
      StepConsistent(s, events[0], policy);
      RunConsistent(Step(s, events[0], policy), events[1..], policy);
    }
  }

  lemma Reachable(events: seq<Event>, policy: PermissionPolicy)
    ensures Consistent(Run(START, events, policy))
  {
    RunConsistent(START, events, policy);
  }

  function IssuesIn(events: seq<Event>): nat {
    if events == [] then 0 else IssuesIn(events[1..]) + if events[0].Issue? then 1 else 0
  }

  /** Ids 1, 2, 3 and so on: as many as requests were issued, each given once. */
  lemma {:induction false} IdsAreUnique(s: State, events: seq<Event>, policy: PermissionPolicy)
    requires Consistent(s) && forall id | 0 < id < s.nextId :: id in s.phase
    ensures var t := Run(s, events, policy);
      && t.nextId == s.nextId + IssuesIn(events)
      && t.nextId !in t.phase
      && forall id :: id in t.phase <==> 0 < id < t.nextId
    decreases |events|
  {
    hide AnswerTo, UpdateOf;
    if events != [] {
      StepConsistent(s, events[0], policy);
      IdsAreUnique(Step(s, events[0], policy), events[1..], policy);
    }
  }

  /** Once woken, a waiter stays as it was woken: no later message, failure or exit touches it. */
  lemma {:induction false} WokenForGood(s: State, events: seq<Event>, policy: PermissionPolicy, id: int)
    requires Consistent(s) && id in s.woken
    ensures id in Run(s, events, policy).woken && Run(s, events, policy).woken[id] == s.woken[id]
    decreases |events|
  {
    hide AnswerTo, UpdateOf, Consistent;
    if events != [] {
      StepConsistent(s, events[0], policy);
      StepKeepsWoken(s, events[0], policy, id);
      WokenForGood(Step(s, events[0], policy), events[1..], policy, id);
    }
  }

  lemma StepKeepsWoken(s: State, e: Event, policy: PermissionPolicy, id: int)
    requires Consistent(s) && id in s.woken
    ensures id in Step(s, e, policy).woken && Step(s, e, policy).woken[id] == s.woken[id]
  {
    hide AnswerTo, UpdateOf;
  }

  /** A reply touches the waiter of its own id and no other. */
  lemma ReplyWakesOnlyItsOwn(s: State, id: int, reply: Reply, writable: bool, policy: PermissionPolicy)
    ensures var t := Step(s, Receive(Response(Some(id), reply), writable), policy);
      forall other | other != id :: (other in t.pending <==> other in s.pending)
        && (other in t.woken <==> other in s.woken) && (other in s.woken ==> t.woken[other] == s.woken[other])
  {
  }

  /** A reply to a written request that is still waited for finds its waiter, whatever ran before. */
  lemma ReplyFindsWaiter(events: seq<Event>, policy: PermissionPolicy, id: int, reply: Reply, writable: bool)
    requires var s := Run(START, events, policy);
      s.reader == Reading && InPhase(s, id, Written) && id !in s.woken
    ensures var t := Run(START, events + [Receive(Response(Some(id), reply), writable)], policy);
      id in t.woken && t.woken[id] == Replied(reply)
  {
    hide AnswerTo, UpdateOf;
    var s := Run(START, events, policy);
    Reachable(events, policy);
    RunSnoc(START, events, Receive(Response(Some(id), reply), writable), policy);
    assert Waiting(s, id);
  }

  lemma {:induction false} RunSnoc(s: State, events: seq<Event>, e: Event, policy: PermissionPolicy)
    ensures Run(s, events + [e], policy) == Step(Run(s, events, policy), e, policy)
    decreases |events|
  {
    hide Step;
    if events != [] {
      assert (events + [e])[1..] == events[1..] + [e];
      RunSnoc(Step(s, events[0], policy), events[1..], e, policy);
    } else {
      assert [e][1..] == [];
      assert [] + [e] == [e];
    }
  }

  /** Every waiter registered before the reader's final clear is woken by it, if by nothing earlier. */
  lemma ClearWakesAll(events: seq<Event>, policy: PermissionPolicy)
    requires Run(START, events, policy).reader == Exited
    ensures var s, t := Run(START, events, policy), Run(START, events + [Clear], policy);
      && t.pending == {}
      && forall id | id in s.phase && Waiting(s, id) :: id in t.woken
  {
    hide AnswerTo, UpdateOf;
    Reachable(events, policy);
    RunSnoc(START, events, Clear, policy);
  }

  /** After the clear, a request that awaits its reply is woken exactly when it did not register late. */
  lemma AfterClearWokenIff(events: seq<Event>, policy: PermissionPolicy, id: int)
    requires var s := Run(START, events, policy);
      s.reader == Cleared && id in s.phase && Waiting(s, id)
    ensures var s := Run(START, events, policy);
      id in s.woken <==> id !in s.registeredLate
  {
    Reachable(events, policy);
  }

  /** There are such requests: one issued after the clear is written, awaits its reply, and nothing wakes it. */
  lemma LateRequestWaits(policy: PermissionPolicy)
    ensures var s := Run(START, [Eof, Clear, Issue, Register(1), WriteOk(1)], policy);
      s.reader == Cleared && InPhase(s, 1, Written) && 1 in s.registeredLate && 1 !in s.woken
  {
    var events := [Eof, Clear, Issue, Register(1), WriteOk(1)];
    assert events[1..] == [Clear, Issue, Register(1), WriteOk(1)];
    assert events[1..][1..] == [Issue, Register(1), WriteOk(1)];
    assert events[1..][1..][1..] == [Register(1), WriteOk(1)];
    assert events[1..][1..][1..][1..] == [WriteOk(1)];
    assert events[1..][1..][1..][1..][1..] == [];
  }

  /** A late registration is never woken, however the run goes on. */
  lemma LateNeverWoken(events: seq<Event>, policy: PermissionPolicy, id: int, more: seq<Event>)
    requires id in Run(START, events, policy).registeredLate
    ensures id !in Run(START, events + more, policy).woken
  {
    hide Step;
    Reachable(events, policy);
    LateStays(Run(START, events, policy), more, policy, id);
    RunSplit(START, events, more, policy);
    Reachable(events + more, policy);
  }

  lemma {:induction false} LateStays(s: State, events: seq<Event>, policy: PermissionPolicy, id: int)
    requires id in s.registeredLate
    ensures id in Run(s, events, policy).registeredLate
    decreases |events|
  {
    hide AnswerTo, UpdateOf;
    if events != [] {
      LateStays(Step(s, events[0], policy), events[1..], policy, id);
    }
  }

  lemma {:induction false} RunSplit(s: State, a: seq<Event>, b: seq<Event>, policy: PermissionPolicy)
    ensures Run(s, a + b, policy) == Run(Run(s, a, policy), b, policy)
    decreases |a|
  {
    hide Step;
    if a == [] {
      assert a + b == b;
    } else {
      assert (a + b)[1..] == a[1..] + b;
      RunSplit(Step(s, a[0], policy), a[1..], b, policy);
    }
  }

  // ---------- what a request returns ----------

  datatype RequestError = WriteError | ChannelClosed | AgentError(error: Value)

  const NULL: Value := "null"

  /** What `request` returns, once it does. */
  function Outcome(s: State, id: int): Option<Result<Value, RequestError>> {
    if InPhase(s, id, Withdrawn) then Some(Err(WriteError))
    else if InPhase(s, id, Written) && id in s.woken then
      match s.woken[id]
      case Closed => Some(Err(ChannelClosed))
      case Replied(Reply(Some(error), _)) => Some(Err(AgentError(error)))
      case Replied(Reply(None, result)) => Some(Ok(result.GetOr(NULL)))
    else None
  }

  predicate WasReceived(s: State, m: Message) {
    exists r | r in s.received :: r.message == m
  }

  /** A waiter woken by a reply was woken by one the reader received for its id. */
  ghost predicate RepliesReceived(s: State) {
    forall id | id in s.woken && s.woken[id].Replied? :: WasReceived(s, Response(Some(id), s.woken[id].reply))
  }

  lemma StepReceives(s: State, e: Event, policy: PermissionPolicy)
    requires RepliesReceived(s)
    ensures RepliesReceived(Step(s, e, policy))
  {
    hide AnswerTo, UpdateOf, WasReceived;
    var t := Step(s, e, policy);
    forall m | WasReceived(s, m) ensures WasReceived(t, m) {
      ReceivedStays(s, e, policy, m);
    }
    if e.Receive? && s.reader == Reading {
      JustReceived(s, e, policy);
    }
  }

  lemma ReceivedStays(s: State, e: Event, policy: PermissionPolicy, m: Message)
    requires WasReceived(s, m)
    ensures WasReceived(Step(s, e, policy), m)
  {
    hide AnswerTo, UpdateOf;
    var r :| r in s.received && r.message == m;
    assert r in Step(s, e, policy).received;
  }

  lemma JustReceived(s: State, e: Event, policy: PermissionPolicy)
    requires e.Receive? && s.reader == Reading
    ensures WasReceived(Step(s, e, policy), e.message)
  {
    hide AnswerTo, UpdateOf;
    assert Received(e.message, e.writable) in Step(s, e, policy).received;
  }

  lemma {:induction false} RepliesWereReceived(s: State, events: seq<Event>, policy: PermissionPolicy)
    requires RepliesReceived(s)
    ensures RepliesReceived(Run(s, events, policy))
    decreases |events|
  {
    hide Step, RepliesReceived;
    if events != [] {
      StepReceives(s, events[0], policy);
      RepliesWereReceived(Step(s, events[0], policy), events[1..], policy);
    }
  }

  /** A request succeeds only with a value the agent sent for its own id, and returns once. */
  lemma SuccessMeans(events: seq<Event>, policy: PermissionPolicy, id: int, more: seq<Event>)
    requires var o := Outcome(Run(START, events, policy), id);
      o.Some? && o.value.Ok?
    ensures var s := Run(START, events, policy);
      exists reply: Reply :: WasReceived(s, Response(Some(id), reply)) && reply.error == None
        && Outcome(s, id) == Some(Ok(reply.result.GetOr(NULL)))
    ensures Outcome(Run(START, events + more, policy), id) == Outcome(Run(START, events, policy), id)
  {
    hide Step;
    var s := Run(START, events, policy);
    RepliesWereReceived(START, events, policy);
    assert WasReceived(s, Response(Some(id), s.woken[id].reply));
    Reachable(events, policy);
    RunSplit(START, events, more, policy);
    WokenForGood(s, more, policy, id);
    WrittenStays(s, more, policy, id);
  }

  lemma {:induction false} WrittenStays(s: State, events: seq<Event>, policy: PermissionPolicy, id: int)
    requires Consistent(s) && InPhase(s, id, Written)
    ensures InPhase(Run(s, events, policy), id, Written)
    decreases |events|
  {
    hide AnswerTo, UpdateOf;
    if events != [] {
      StepConsistent(s, events[0], policy);
      WrittenStays(Step(s, events[0], policy), events[1..], policy, id);
    }
  }

  /** Woken by that event, a request returns what was woken with, however the run goes on, once it has been written. */
  lemma WokenReturns(before: seq<Event>, e: Event, after: seq<Event>, policy: PermissionPolicy, id: int, wake: Wake)
    requires var s := Step(Run(START, before, policy), e, policy); id in s.woken && s.woken[id] == wake
    ensures var t := Run(START, before + [e] + after, policy);
      InPhase(t, id, Written) ==> id in t.woken && t.woken[id] == wake
  {
    hide Step;
    Reachable(before + [e], policy);
    RunSnoc(START, before, e, policy);
    RunSplit(START, before + [e], after, policy);
    WokenForGood(Run(START, before + [e], policy), after, policy, id);
  }

  /**
   The first reply the reader takes for a request that awaits one is what the request returns, once it has been written:
   the agent's error if the reply has one, otherwise its result, `null` for want of one.
   */
  lemma ReplyIsReturned(before: seq<Event>, id: int, reply: Reply, writable: bool, after: seq<Event>,
                        policy: PermissionPolicy)
    requires var s := Run(START, before, policy); s.reader == Reading && Waiting(s, id) && id !in s.woken
    ensures var t := Run(START, before + [Receive(Response(Some(id), reply), writable)] + after, policy);
      InPhase(t, id, Written) ==>
        Outcome(t, id) == Some(if reply.error.Some? then Err(AgentError(reply.error.value))
                               else Ok(if reply.result.Some? then reply.result.value else "null"))
  {
    hide Run, AnswerTo, UpdateOf;
    Reachable(before, policy);
    WokenReturns(before, Receive(Response(Some(id), reply), writable), after, policy, id, Replied(reply));
  }

  /**
   A request that still awaits its reply when the reader is done fails for a closed channel, once it has been written.
   */
  lemma ClearIsReturned(before: seq<Event>, id: int, after: seq<Event>, policy: PermissionPolicy)
    requires var s := Run(START, before, policy); s.reader == Exited && Waiting(s, id) && id !in s.woken
    ensures var t := Run(START, before + [Clear] + after, policy);
      InPhase(t, id, Written) ==> Outcome(t, id) == Some(Err(ChannelClosed))
  {
    hide Run, AnswerTo, UpdateOf;
    Reachable(before, policy);
    WokenReturns(before, Clear, after, policy, id, Closed);
  }

  // ---------- the agent's own messages ----------

  function UpdatesIn(received: seq<Received>): seq<Value> {
    if received == [] then [] else UpdatesIn(received[..|received| - 1]) + UpdateOf(received[|received| - 1].message)
  }

  /** The answers the messages call for, but for those that could not be written. */
  function AnswersIn(received: seq<Received>, policy: PermissionPolicy): seq<Answer> {
    if received == [] then []
    else
      var last := received[|received| - 1];
      AnswersIn(received[..|received| - 1], policy) + if last.writable then AnswerTo(last.message, policy) else []
  }

  ghost predicate InOrder(s: State, policy: PermissionPolicy) {
    s.updates == UpdatesIn(s.received) && s.answers == AnswersIn(s.received, policy)
  }

  lemma StepKeepsOrder(s: State, e: Event, policy: PermissionPolicy)
    requires InOrder(s, policy)
    ensures InOrder(Step(s, e, policy), policy)
  {
    hide AnswerTo, UpdateOf, UpdatesIn, AnswersIn;
    if e.Receive? {
      OneMoreReceived(s.received, Received(e.message, e.writable), policy);
    }
  }

  lemma OneMoreReceived(received: seq<Received>, r: Received, policy: PermissionPolicy)
    ensures UpdatesIn(received + [r]) == UpdatesIn(received) + UpdateOf(r.message)
    ensures AnswersIn(received + [r], policy)
            == AnswersIn(received, policy) + if r.writable then AnswerTo(r.message, policy) else []
  {
    hide AnswerTo, UpdateOf;
    assert (received + [r])[..|received|] == received;
  }

  lemma {:induction false} RunKeepsOrder(events: seq<Event>, policy: PermissionPolicy)
    ensures InOrder(Run(START, events, policy), policy)
    decreases |events|
  {
    hide Run, Step;
    if events == [] {
      NothingRunFrom(START, policy);
    } else {
      var front, last := events[..|events| - 1], events[|events| - 1];
      RunKeepsOrder(front, policy);
      assert events == front + [last];
      RunSnoc(START, front, last, policy);
      StepKeepsOrder(Run(START, front, policy), last, policy);
    }
  }

  /** What arrives before the input ends. */
  function ReceivedIn(events: seq<Event>): seq<Received> {
    if events == [] then []
    else
      var front, last := events[..|events| - 1], events[|events| - 1];
      ReceivedIn(front) + if last.Receive? && Eof !in front then [Received(last.message, last.writable)] else []
  }

  /** The reader takes every message that arrives before the input ends, and none after. */
  lemma {:induction false} AllReceived(events: seq<Event>, policy: PermissionPolicy)
    ensures Run(START, events, policy).received == ReceivedIn(events)
    ensures Run(START, events, policy).reader == Reading <==> Eof !in events
  {
    hide AnswerTo, UpdateOf, CloseAll;
    if events == [] {
      NothingRunFrom(START, policy);
    } else {
      var front, last := events[..|events| - 1], events[|events| - 1];
      assert events == front + [last];
      AllReceived(front, policy);
      RunSnoc(START, front, last, policy);
    }
  }

  predicate HoldsUpdate(m: Message) {
    m.SessionUpdate? && m.update.Some?
  }

  /** The updates are those of the messages that hold one, in order. */
  ghost predicate ListsUpdates(received: seq<Received>, updates: seq<Value>, at: seq<nat>) {
    && |at| == |updates| && (forall j, k | 0 <= j < k < |at| :: at[j] < at[k])
    && (forall j | 0 <= j < |at| :: at[j] < |received| && received[at[j]].message == SessionUpdate(Some(updates[j])))
    && forall i | 0 <= i < |received| && HoldsUpdate(received[i].message) :: exists j | 0 <= j < |at| :: at[j] == i
  }

  /** The message asks for an answer, and one could be written. */
  predicate Answerable(r: Received) {
    r.writable && (r.message.PermissionRequest? || r.message.OtherCall?) && r.message.id.Some?
  }

  /** The answer is the one to that message: the decision on a permission, or that there is no such method. */
  predicate Answers(a: Answer, m: Message, policy: PermissionPolicy) {
    match m
    case PermissionRequest(id, options) =>
      a.Decided? && Some(a.id) == id && a.decision == DecidePermission(options, policy)
    case OtherCall(id, name) => a.MethodNotFound? && Some(a.id) == id && a.name == name
    case _ => false
  }

  /** The answers are those to the answerable messages, in order. */
  ghost predicate ListsAnswers(received: seq<Received>, answers: seq<Answer>, policy: PermissionPolicy, at: seq<nat>) {
    && |at| == |answers| && (forall j, k | 0 <= j < k < |at| :: at[j] < at[k])
    && (forall j | 0 <= j < |at| :: at[j] < |received| && Answerable(received[at[j]])
          && Answers(answers[j], received[at[j]].message, policy))
    && forall i | 0 <= i < |received| && Answerable(received[i]) :: exists j | 0 <= j < |at| :: at[j] == i
  }

  lemma {:induction false} UpdatesListed(received: seq<Received>) returns (at: seq<nat>)
    ensures ListsUpdates(received, UpdatesIn(received), at)
  {
    at := [];
    if received != [] {
      var front, last := received[..|received| - 1], received[|received| - 1];
      at := UpdatesListed(front);
      assert received == front + [last];
      OneMoreUpdate(front, last, UpdatesIn(front), at);
      at := at + if HoldsUpdate(last.message) then [|front|] else [];
    }
  }

  lemma OneMoreUpdate(front: seq<Received>, last: Received, updates: seq<Value>, at: seq<nat>)
    requires ListsUpdates(front, updates, at)
    ensures ListsUpdates(front + [last], updates + UpdateOf(last.message),
                         at + if HoldsUpdate(last.message) then [|front|] else [])
  {
    var more := at + if HoldsUpdate(last.message) then [|front|] else [];
    forall i | 0 <= i < |front + [last]| && HoldsUpdate((front + [last])[i].message)
      ensures exists j | 0 <= j < |more| :: more[j] == i
    {
      if i < |front| {
        var j :| 0 <= j < |at| && at[j] == i;
        assert more[j] == i;
      } else {
        assert more[|at|] == i;
      }
    }
  }

  lemma {:induction false} AnswersListed(received: seq<Received>, policy: PermissionPolicy) returns (at: seq<nat>)
    ensures ListsAnswers(received, AnswersIn(received, policy), policy, at)
  {
    hide Answers, AnswerTo;
    at := [];
    if received != [] {
      var front, last := received[..|received| - 1], received[|received| - 1];
      at := AnswersListed(front, policy);
      assert received == front + [last];
      OneMoreAnswer(front, last, AnswersIn(front, policy), policy, at);
      at := at + if Answerable(last) then [|front|] else [];
    }
  }

  lemma AnswerIs(r: Received, policy: PermissionPolicy)
    ensures var a := if r.writable then AnswerTo(r.message, policy) else [];
      if Answerable(r) then |a| == 1 && Answers(a[0], r.message, policy) else a == []
  {
    hide DecidePermission;
  }

  lemma OneMoreAnswer(front: seq<Received>, last: Received, answers: seq<Answer>, policy: PermissionPolicy,
                      at: seq<nat>)
    requires ListsAnswers(front, answers, policy, at)
    ensures ListsAnswers(front + [last], answers + (if last.writable then AnswerTo(last.message, policy) else []),
                         policy, at + if Answerable(last) then [|front|] else [])
  {
    hide Answers, AnswerTo, Answerable;
    AnswerIs(last, policy);
    var more := at + if Answerable(last) then [|front|] else [];
    forall i | 0 <= i < |front + [last]| && Answerable((front + [last])[i])
      ensures exists j | 0 <= j < |more| :: more[j] == i
    {
      if i < |front| {
        var j :| 0 <= j < |at| && at[j] == i;
        assert more[j] == i;
      } else {
        assert more[|at|] == i;
      }
    }
  }

  /**
   Whatever else runs in between: every message before the end of input is received; the updates kept are those
   received, in order; and each request of the agent that has an id is answered once, in order, with that id, a
   permission request with the decision on it and any other with the refusal of its method, unless the answer cannot
   be written.
   */
  lemma ReaderKeepsOrder(events: seq<Event>, policy: PermissionPolicy)
    ensures var s := Run(START, events, policy);
      && s.received == ReceivedIn(events)
      && (exists at :: ListsUpdates(s.received, s.updates, at))
      && (exists at :: ListsAnswers(s.received, s.answers, policy, at))
  {
    hide Run, ListsUpdates, ListsAnswers, ReceivedIn;
    RunKeepsOrder(events, policy);
    AllReceived(events, policy);
    var s := Run(START, events, policy);
    var at := UpdatesListed(s.received);
    var on := AnswersListed(s.received, policy);
  }

  // ---------- the client object ----------

  class AcpClient {
    const policy: PermissionPolicy
    var nextId: int
    var phase: map<int, Phase>
    var pending: set<int>
    var woken: map<int, Wake>
    var reader: Reader
    var updates: seq<Value>
    var answers: seq<Answer>
    ghost var registeredLate: set<int>
    ghost var received: seq<Received>

    ghost function Now(): State
      reads this
    {
      State(nextId, phase, pending, woken, reader, updates, answers, registeredLate, received)
    }

    constructor (policy: PermissionPolicy)
      ensures Now() == START && this.policy == policy
    {
      this.policy := policy;
      nextId, phase, pending, woken := 1, map[], {}, map[];
      reader, updates, answers := Reading, [], [];
      registeredLate, received := {}, [];
    }

    method TakeId() returns (id: int)
      modifies this
      ensures id == old(nextId) && Now() == Step(old(Now()), Issue, policy)
    {
      id := nextId;
      nextId := nextId + 1;
      phase := phase[id := Issued];
    }

    method RegisterWaiter(id: int)
      requires InPhase(Now(), id, Issued)
      modifies this
      ensures Now() == Step(old(Now()), Register(id), policy)
    {
      pending := pending + {id};
      phase := phase[id := Registered];
      registeredLate := if reader == Cleared then registeredLate + {id} else registeredLate;
    }

    method Sent(id: int, ok: bool)
      requires InPhase(Now(), id, Registered)
      modifies this
      ensures Now() == Step(old(Now()), if ok then WriteOk(id) else WriteFails(id), policy)
    {
      phase := phase[id := if ok then Written else WriteFailed];
    }

    method WithdrawWaiter(id: int)
      requires InPhase(Now(), id, WriteFailed)
      modifies this
      ensures Now() == Step(old(Now()), Withdraw(id), policy)
    {
      pending := pending - {id};
      phase := phase[id := Withdrawn];
    }

    /** One message off the agent's stdout; whether an answer can be written is the agent's doing. */
    method Handle(message: Message, writable: bool)
      requires reader == Reading
      modifies this
      ensures Now() == Step(old(Now()), Receive(message, writable), policy)
    {
      received := received + [Received(message, writable)];
      match message
      case Malformed =>
      case Response(None, _) =>
      case Response(Some(id), reply) =>
        if id in pending {
          pending := pending - {id};
          woken := woken[id := Replied(reply)];
        }
      case SessionUpdate(Some(update)) => updates := updates + [update];
      case SessionUpdate(None) =>
      case PermissionRequest(Some(id), options) => Send(Decided(id, DecidePermission(options, policy)), writable);
      case PermissionRequest(None, _) =>
      case OtherCall(Some(id), name) => Send(MethodNotFound(id, name), writable);
      case OtherCall(None, _) =>
    }

    /** Write an answer to the agent, or fail to. */
    method Send(answer: Answer, ok: bool)
      modifies this`answers
      ensures answers == if ok then old(answers) + [answer] else old(answers)
    {
      if ok {
        answers := answers + [answer];
      }
    }

    /** Steps of requesting threads, one after the other. */
    method Meanwhile(steps: seq<Event>)
      requires forall e | e in steps :: OfRequest(e)
      modifies this
      ensures Now() == Run(old(Now()), steps, policy) && reader == old(reader)
    {
      hide Step;
      NothingRunFrom(Now(), policy);
      assert steps[..0] == [];
      for i := 0 to |steps|
        invariant Now() == Run(old(Now()), steps[..i], policy) && reader == old(reader)
      {
        RunSnoc(old(Now()), steps[..i], steps[i], policy);
        assert steps[..i] + [steps[i]] == steps[..i + 1];
        RequestStep(steps[i]);
      }
      assert steps[..|steps|] == steps;
    }

    /** One step of a requesting thread; one that cannot happen changes nothing. */
    method RequestStep(e: Event)
      requires OfRequest(e)
      modifies this
      ensures Now() == Step(old(Now()), e, policy) && reader == old(reader)
    {
      match e
      case Issue => var id := TakeId();
      case Register(id) => if id in phase && phase[id] == Issued { RegisterWaiter(id); }
      case WriteOk(id) => if id in phase && phase[id] == Registered { Sent(id, true); }
      case WriteFails(id) => if id in phase && phase[id] == Registered { Sent(id, false); }
      case Withdraw(id) => if id in phase && phase[id] == WriteFailed { WithdrawWaiter(id); }
    }

    /**
     The reader until end of input, then its exit clear, with any steps of requests before and after each of its own.
     */
    method ReadAll(messages: seq<Received>, before: seq<seq<Event>>, atExit: seq<Event>, beforeClear: seq<Event>)
      requires reader == Reading && |before| == |messages|
      requires forall steps, e | steps in before + [atExit, beforeClear] && e in steps :: OfRequest(e)
      modifies this
      ensures Now() == Run(old(Now()), Interleaved(messages, before) + atExit + [Eof] + beforeClear + [Clear], policy)
    {
      hide Step;
      NothingRunFrom(Now(), policy);
      assert messages[..0] == [] && before[..0] == [];
      for i := 0 to |messages|
        invariant reader == Reading
        invariant Now() == Run(old(Now()), Interleaved(messages[..i], before[..i]), policy)
      {
        assert before[i] in before + [atExit, beforeClear];
        InterleavedSnoc(old(Now()), messages, before, i, policy);
        Meanwhile(before[i]);
        StillReading(Now(), messages[i], policy);
        Handle(messages[i].message, messages[i].writable);
      }
      assert messages[..|messages|] == messages && before[..|before|] == before;
      ghost var read := Interleaved(messages, before);
      assert atExit in before + [atExit, beforeClear] && beforeClear in before + [atExit, beforeClear];
      RunSplit(old(Now()), read, atExit, policy);
      Meanwhile(atExit);
      RunSnoc(old(Now()), read + atExit, Eof, policy);
      EofStep(Now(), policy);
      reader := Exited;
      RunSplit(old(Now()), read + atExit + [Eof], beforeClear, policy);
      Meanwhile(beforeClear);
      RunSnoc(old(Now()), read + atExit + [Eof] + beforeClear, Clear, policy);
      ClearStep(Now(), policy);
      woken := CloseAll(woken, pending);
      pending := {};
      reader := Cleared;
    }
  }

  /** A step of a thread that requests. */
  predicate OfRequest(e: Event) {
    e.Issue? || e.Register? || e.WriteOk? || e.WriteFails? || e.Withdraw?
  }

  /** The reader's messages, each after the steps that come before it. */
  function Interleaved(messages: seq<Received>, before: seq<seq<Event>>): seq<Event>
    requires |before| == |messages|
  {
    if messages == [] then []
    else
      var n := |messages| - 1;
      Interleaved(messages[..n], before[..n]) + before[n] + [Receive(messages[n].message, messages[n].writable)]
  }

  lemma InterleavedSnoc(s: State, messages: seq<Received>, before: seq<seq<Event>>, i: nat, policy: PermissionPolicy)
    requires |before| == |messages| && i < |messages|
    ensures var front := Interleaved(messages[..i], before[..i]);
      Run(s, Interleaved(messages[..i + 1], before[..i + 1]), policy)
      == Step(Run(Run(s, front, policy), before[i], policy), Receive(messages[i].message, messages[i].writable), policy)
  {
    hide Step, Run;
    var front := Interleaved(messages[..i], before[..i]);
    assert messages[..i + 1][..i] == messages[..i] && before[..i + 1][..i] == before[..i];
    RunSplit(s, front, before[i], policy);
    RunSnoc(s, front + before[i], Receive(messages[i].message, messages[i].writable), policy);
  }

  lemma StillReading(s: State, r: Received, policy: PermissionPolicy)
    requires s.reader == Reading
    ensures Step(s, Receive(r.message, r.writable), policy).reader == Reading
  {
    hide AnswerTo, UpdateOf;
  }

  lemma EofStep(s: State, policy: PermissionPolicy)
    requires s.reader == Reading
    ensures Step(s, Eof, policy) == s.(reader := Exited)
  {
  }

  lemma ClearStep(s: State, policy: PermissionPolicy)
    requires s.reader == Exited
    ensures Step(s, Clear, policy) == s.(reader := Cleared, pending := {}, woken := CloseAll(s.woken, s.pending))
  {
  }

  lemma NothingRunFrom(s: State, policy: PermissionPolicy)
    ensures Run(s, [], policy) == s
  {
  }
}
