/** The tool registry, the per-turn filter over it, and the guarded dispatcher. */
module ToolSurface {
  import opened Wrappers
  import opened Text
  import opened AgentTypes

  /** What one turn leaves of the tools: names it keeps, kinds it drops, and names it offers whatever else is said. */
  datatype TurnFilter = TurnFilter(
    allowed: Option<set<string>>, blocked: set<ToolKind>, forced: set<string>) {

    function WithoutKind(kind: ToolKind): TurnFilter {
      this.(blocked := blocked + {kind})
    }

    /** Intersect the names, unite the blocked kinds, unite the forced names. */
    function Narrow(other: TurnFilter): TurnFilter {
      var names := match (allowed, other.allowed)
        case (Some(current), Some(next)) => Some(current * next)
        case (None, Some(next)) => Some(next)
        case (_, None) => allowed;
      TurnFilter(names, blocked + other.blocked, forced + other.forced)
    }

    predicate Allows(name: string) {
      allowed.None? || name in allowed.value
    }

    predicate Offers(tool: Tool) {
      tool.spec.name in forced || (tool.kind !in blocked && Allows(tool.spec.name))
    }
  }

  const ALL := TurnFilter(None, {}, {})

  function NarrowAll(filter: TurnFilter, others: seq<TurnFilter>): TurnFilter
    decreases |others|
  {
    if others == [] then filter else NarrowAll(filter.Narrow(others[0]), others[1..])
  }

  /** A sequence of narrowings offers a tool iff some filter forces it, or none blocks it and all allow it. */
  lemma {:induction false} NarrowAllOffers(filter: TurnFilter, others: seq<TurnFilter>, tool: Tool)
    ensures NarrowAll(filter, others).Offers(tool) <==>
            || (exists f | f in [filter] + others :: tool.spec.name in f.forced)
            || (forall f | f in [filter] + others :: tool.kind !in f.blocked && f.Allows(tool.spec.name))
    decreases |others|
  {
    if others == [] {
      assert forall f :: f in [filter] + others <==> f == filter;
    } else {
      var first := filter.Narrow(others[0]);
      NarrowAllOffers(first, others[1..], tool);
      assert others == [others[0]] + others[1..];
      assert forall f :: f in [filter] + others <==> f == filter || f == others[0] || f in others[1..];
      assert forall f :: f in [first] + others[1..] <==> f == first || f in others[1..];
    }
  }

  /** The first tool of that name. */
  function Find(tools: seq<Tool>, name: string): (r: Option<Tool>)
    ensures r.Some? ==> r.value in tools && r.value.spec.name == name
    ensures r.None? ==> forall t | t in tools :: t.spec.name != name
  {
    if tools == [] then None
    else if tools[0].spec.name == name then Some(tools[0])
    else Find(tools[1..], name)
  }

  function KindOf(tools: seq<Tool>, name: string): Option<ToolKind> {
    match Find(tools, name) case Some(tool) => Some(tool.kind) case None => None
  }

  function ReplayOf(tools: seq<Tool>, name: string): Option<ReplaySafety> {
    match Find(tools, name) case Some(tool) => Some(tool.replay) case None => None
  }

  /** The offered tools, in registration order. */
  function View(tools: seq<Tool>, filter: TurnFilter): (view: seq<Tool>)
    ensures forall t :: t in view <==> t in tools && filter.Offers(t)
  {
    if tools == [] then []
    else if filter.Offers(tools[0]) then [tools[0]] + View(tools[1..], filter)
    else View(tools[1..], filter)
  }

  /** The offered positions from `k` on. */
  function OfferedFrom(tools: seq<Tool>, filter: TurnFilter, k: nat): (at: seq<nat>)
    requires k <= |tools|
    ensures forall p :: p in at <==> k <= p < |tools| && filter.Offers(tools[p])
    ensures forall i, j | 0 <= i < j < |at| :: at[i] < at[j]
    decreases |tools| - k
  {
    if k == |tools| then []
    else
      var later := OfferedFrom(tools, filter, k + 1);
      assert forall i | 0 <= i < |later| :: later[i] in later;
      if filter.Offers(tools[k]) then [k] + later else later
  }

  function PickAt(tools: seq<Tool>, at: seq<nat>): seq<Tool>
    requires forall p | p in at :: p < |tools|
  {
    seq(|at|, i requires 0 <= i < |at| => assert at[i] in at; tools[at[i]])
  }

  /** From position `k` on, a view lists the offered tools once each, in the order they were registered. */
  lemma {:induction false} ViewInOrder(tools: seq<Tool>, filter: TurnFilter, k: nat)
    requires k <= |tools|
    ensures View(tools[k..], filter) == PickAt(tools, OfferedFrom(tools, filter, k))
    decreases |tools| - k
  {
    hide View, PickAt, OfferedFrom, TurnFilter.Offers;
    if k < |tools| {
      ViewInOrder(tools, filter, k + 1);
      ViewHead(tools, filter, k);
      PickCons(tools, k, OfferedFrom(tools, filter, k + 1));
    } else {
      ViewEnd(tools, filter);
    }
  }

  lemma PickCons(tools: seq<Tool>, k: nat, at: seq<nat>)
    requires k < |tools| && forall p | p in at :: p < |tools|
    ensures PickAt(tools, [k] + at) == [tools[k]] + PickAt(tools, at)
  {
    assert forall p | p in [k] + at :: p == k || p in at;
  }

  lemma ViewEnd(tools: seq<Tool>, filter: TurnFilter)
    ensures View(tools[|tools|..], filter) == PickAt(tools, OfferedFrom(tools, filter, |tools|))
  {
  }

  lemma ViewHead(tools: seq<Tool>, filter: TurnFilter, k: nat)
    requires k < |tools|
    ensures var here := filter.Offers(tools[k]);
      && View(tools[k..], filter) == (if here then [tools[k]] + View(tools[k + 1..], filter)
                                      else View(tools[k + 1..], filter))
      && OfferedFrom(tools, filter, k) == (if here then [k] + OfferedFrom(tools, filter, k + 1)
                                           else OfferedFrom(tools, filter, k + 1))
  {
    hide TurnFilter.Offers;
    assert tools[k..][1..] == tools[k + 1..] && tools[k..][0] == tools[k];
  }

  function Specs(view: seq<Tool>): seq<ToolSpec> {
    seq(|view|, i requires 0 <= i < |view| => view[i].spec)
  }

  predicate Offered(view: seq<Tool>, name: string) {
    exists t | t in view :: t.spec.name == name
  }

  lemma {:induction false} ViewOfAll(tools: seq<Tool>)
    ensures View(tools, ALL) == tools
  {
    if tools != [] {
      ViewOfAll(tools[1..]);
    }
  }

  datatype DispatchRefusal = NotOffered(toolName: string) | MissingCallId(toolName: string)

  datatype Dispatch = Run(tool: Tool) | Refuse(refusal: DispatchRefusal)

  /** What a view does with a call: run it on the tool found, or refuse it without running anything. */
  function DispatchOf(view: seq<Tool>, call: ToolCall): (d: Dispatch)
    ensures d.Run? ==> d.tool in view && d.tool.spec.name == call.name && Find(view, call.name) == Some(d.tool)
    ensures d == Refuse(MissingCallId(call.name)) <==>
            Offered(view, call.name) && ReplayOf(view, call.name) == Some(NeedsDedupKey) && Trim(call.id) == []
    ensures d == Refuse(NotOffered(call.name)) <==> !Offered(view, call.name)
  {
    match Find(view, call.name)
    case Some(tool) =>
      if tool.replay == NeedsDedupKey && Trim(call.id) == [] then Refuse(MissingCallId(call.name)) else Run(tool)
    case None => Refuse(NotOffered(call.name))
  }

  datatype RegistryError = DuplicateName(name: string) | MissingDedupCapability(name: string)

  datatype RuntimeCaps = RuntimeCaps(replaysCompletedSteps: bool, perCallDedup: bool)

  /** All registered tools, in the order they came, no two of one name. */
  class ToolRegistry {
    var tools: seq<Tool>

    ghost predicate Valid()
      reads this
    {
      forall i, j | 0 <= i < j < |tools| :: tools[i].spec.name != tools[j].spec.name
    }

    constructor ()
      ensures Valid() && tools == []
    {
      tools := [];
    }

    /** Append a tool unless its name is taken or its replay guarantee cannot be met. */
    method Register(tool: Tool, caps: RuntimeCaps) returns (r: Result<(), RegistryError>)
      requires Valid()
      modifies this
      ensures Valid()
      ensures r == Err(DuplicateName(tool.spec.name)) <==> Offered(old(tools), tool.spec.name)
      ensures r == Err(MissingDedupCapability(tool.spec.name)) <==>
              && !Offered(old(tools), tool.spec.name)
              && tool.replay == NeedsDedupKey && caps.replaysCompletedSteps && !caps.perCallDedup
      ensures tools == if r.Ok? then old(tools) + [tool] else old(tools)
      ensures r.Ok? ==> Find(tools, tool.spec.name) == Some(tool)
    {
      if Find(tools, tool.spec.name).Some? {
        return Err(DuplicateName(tool.spec.name));
      }
      if tool.replay == NeedsDedupKey && caps.replaysCompletedSteps && !caps.perCallDedup {
        return Err(MissingDedupCapability(tool.spec.name));
      }
      tools := tools + [tool];
      return Ok(());
    }
  }
}
