/** Running a batch of tool calls: policy and verdicts, the cancellation tie rule, and which
    results survive (`events/tool_step.py`, `core/runtime/execute_tool.py`). */
module ToolStep {
  import opened Domain
  import opened Transcript

  /** What `asyncio.wait(FIRST_COMPLETED)` on the work and the cancellation poll can report. */
  datatype Race<+T> = WorkFirst(result: T) | CancelFirst | Tie(result: T)

  datatype Attempt<+T> = Done(result: T) | Stopped

  function RunCancellable<T>(race: Race<T>, keepCompletedWork: bool): Attempt<T> {
    match race
    case WorkFirst(r) => Done(r)
    case CancelFirst => Stopped
    case Tie(r) => if keepCompletedWork then Done(r) else Stopped
  }

  /** What running each tool call comes to. A call runs at most once, so a function of the call
      is the most general environment. */
  type Tools = ToolCall -> Race<ToolResult>

  datatype Plan = Refuse(message: string) | Execute

  datatype Order = Order(call: ToolCall, plan: Plan)

  function ExecuteDecided(call: ToolCall, decision: ToolDecision): Order
    requires !decision.NeedsApproval?
  {
    Order(call, if decision.Deny? then Refuse("denied by tool policy") else Execute)
  }

  function ExecuteVerdict(call: ToolCall, verdict: Verdict): Order {
    match verdict
    case Approve => Order(call, Execute)
    case Reject(reason) =>
      Order(call, Refuse("denied by user" +
        (if reason.Some? && reason.value != "" then " (reason: " + reason.value + ")" else "")))
  }

  function Outcome(order: Order, tools: Tools): Attempt<ToolResult> {
    match order.plan
    case Refuse(message) => Done(ToolResult(message, true, None))
    case Execute => RunCancellable(tools(order.call), true)
  }

  function CallsOfOrders(orders: seq<Order>): seq<ToolCall> {
    seq(|orders|, i requires 0 <= i < |orders| => orders[i].call)
  }

  /** The calls of a batch that completed, with their results, in request order. */
  function Settled(orders: seq<Order>, tools: Tools): seq<Resolved> {
    if orders == [] then []
    else
      var last := orders[|orders| - 1];
      Settled(orders[..|orders| - 1], tools) +
      match Outcome(last, tools)
      case Done(r) => [Resolved(last.call, r)]
      case Stopped => []
  }

  predicate AnyStopped(orders: seq<Order>, tools: Tools) {
    exists i :: 0 <= i < |orders| && Outcome(orders[i], tools).Stopped?
  }

  /** `resolve_batch`: a stopped call never discards a completed sibling. */
  method ResolveBatch(orders: seq<Order>, tools: Tools) returns (resolved: seq<Resolved>, cancelled: bool)
    ensures resolved == Settled(orders, tools)
    ensures cancelled <==> AnyStopped(orders, tools)
  {
    resolved, cancelled := [], false;
    for i := 0 to |orders|
      invariant resolved == Settled(orders[..i], tools)
      invariant cancelled <==> AnyStopped(orders[..i], tools)
    {
      SettledSnoc(orders, tools, i);
      match Outcome(orders[i], tools) {
        case Stopped => cancelled := true;
        case Done(r) => resolved := resolved + [Resolved(orders[i].call, r)];
      }
    }
    assert orders[..|orders|] == orders;
  }

  lemma SettledSnoc(orders: seq<Order>, tools: Tools, i: nat)
    requires i < |orders|
    ensures Settled(orders[..i + 1], tools) == Settled(orders[..i], tools) +
            match Outcome(orders[i], tools) case Done(r) => [Resolved(orders[i].call, r)] case Stopped => []
    ensures AnyStopped(orders[..i + 1], tools) <==> AnyStopped(orders[..i], tools) || Outcome(orders[i], tools).Stopped?
  {
    assert orders[..i + 1][..i] == orders[..i];
    assert orders[..i + 1][i] == orders[i];
    if AnyStopped(orders[..i], tools) {
      var k :| 0 <= k < i && Outcome(orders[..i][k], tools).Stopped?;
      assert orders[..i + 1][k] == orders[..i][k];
    }
  }

  /** Exactly the calls that were not stopped are settled, each with its own result. */
  lemma {:induction false} SettledExactly(orders: seq<Order>, tools: Tools)
    requires Distinct(CallsOfOrders(orders))
    ensures Distinct(CallsIn(Settled(orders, tools)))
    ensures Ids(CallsIn(Settled(orders, tools))) <= Ids(CallsOfOrders(orders))
    ensures forall o :: o in orders ==>
              (o.call.id in Ids(CallsIn(Settled(orders, tools))) <==> Outcome(o, tools).Done?)
    ensures forall o :: o in orders && Outcome(o, tools).Done? ==>
              Resolved(o.call, Outcome(o, tools).result) in Settled(orders, tools)
  {
    if orders != [] {
      var init, last := orders[..|orders| - 1], orders[|orders| - 1];
      assert orders == init + [last];
      assert CallsOfOrders(orders) == CallsOfOrders(init) + [last.call];
      DistinctSnoc(CallsOfOrders(init), last.call);
      SettledExactly(init, tools);
      var before := Settled(init, tools);
      assert forall o :: o in init ==> o.call.id in Ids(CallsOfOrders(init)) by {
        forall o | o in init ensures o.call.id in Ids(CallsOfOrders(init)) {
          var i :| 0 <= i < |init| && init[i] == o;
          assert CallsOfOrders(init)[i] == o.call;
        }
      }
      if Outcome(last, tools).Done? {
        assert CallsIn(Settled(orders, tools)) == CallsIn(before) + [last.call];
        DistinctSnoc(CallsIn(before), last.call);
      } else {
        assert Settled(orders, tools) == before;
      }
    }
  }
}
