/** One batch of tool calls from announcement to folded results: the step shared by the loop
    (`AgentLoop._execute_decided_batch`) and by approval resolution (`AgentHarness._apply_approvals`). */
module Batch {
  import opened Domain
  import opened Transcript
  import opened Protocol
  import opened ToolStep
  import opened Hub

  /** The process may open every call of the batch and has nothing else open. */
  predicate BatchReady(w: World, state: RunState, orders: seq<Order>) {
    && Active(w) && !w.live.value.awaiting
    && w.live.value.state == state && w.live.value.anchor == state
    && w.live.value.open == {} && w.live.value.executing == {}
    && Distinct(CallsOfOrders(orders))
    && forall c :: c in CallsOfOrders(orders) ==>
         && c.id in w.live.value.ready && c in CallsOf(state.messages)
         && (IsFollowUp(c.id) || c in CallsOf(w.rec.value.state.messages))
  }

  function Running(orders: seq<Order>): set<string> {
    set o | o in orders && o.plan.Execute? :: o.call.id
  }

  function ModelIssued(ids: set<string>): set<string> { set id | id in ids && !IsFollowUp(id) }

  /** The events of a batch, phase by phase. */
  function Announced(orders: seq<Order>): seq<Event> {
    seq(|orders|, i requires 0 <= i < |orders| => Before(orders[i].call.id))
  }

  function Begun(orders: seq<Order>): seq<Event> {
    if orders == [] then []
    else Begun(orders[..|orders| - 1]) +
         (if orders[|orders| - 1].plan.Execute? then [Begin(orders[|orders| - 1].call.id)] else [])
  }

  function Ended(settled: seq<Resolved>): seq<Event> {
    seq(|settled|, i requires 0 <= i < |settled| => After(settled[i].call.id))
  }

  /** The process after a batch: `settled` folded and committed, the other calls still open. */
  predicate BatchDone(w0: World, w: World, orders: seq<Order>, settled: seq<Resolved>) {
    Active(w0) && Active(w)
    && var l0, l, ids := w0.live.value, w.live.value, Ids(CallsOfOrders(orders));
    && l.state == FoldResults(l0.state, settled) && l.anchor == l.state
    && l.ready == l0.ready - ids
    && l.open + l.executing == ids - Ids(CallsIn(settled))
    && l.spawn == l0.spawn + ModelIssued(Ids(CallsIn(settled)))
    && l.stale == l0.stale && !l.awaiting
    && w.rec.value.status == w0.rec.value.status
    && w.rec.value.state == (if settled == [] then w0.rec.value.state else l.state)
    && w.asked == w0.asked
    && w.trace == w0.trace + Announced(orders) + Begun(orders) + Ended(settled)
  }

  /** What opening a batch shows of the stored transcript. */
  function OpeningsOf(orders: seq<Order>, stored: RunState): seq<Opening> {
    seq(|orders|, i requires 0 <= i < |orders| => OpeningOf(orders[i].call, stored))
  }

  /** Where a batch may break off: at a delivery of `before_tool`, while the tools run, or at a
      delivery of `after_tool`, numbered in that order. How many calls were opened by then. */
  function OpenedBefore(orders: seq<Order>, fault: Option<nat>): nat {
    if fault.Some? && fault.value < |orders| then fault.value + 1 else |orders|
  }

  /** An empty batch does nothing, so nothing can break it off. */
  predicate Raised(orders: seq<Order>, tools: Tools, fault: Option<nat>) {
    orders != [] && fault.Some? && fault.value <= |orders| + |Settled(orders, tools)|
  }

  /** What a batch broken off at `n` leaves in the record, of which it found `stored` there: the
      results folded by then, if any. */
  function StoredBy(before: RunState, stored: RunState, orders: seq<Order>, tools: Tools, n: nat): RunState {
    if n <= |orders| || n - |orders| > |Settled(orders, tools)| then stored
    else FoldResults(before, Settled(orders, tools)[..n - |orders|])
  }

  /** And what it was seen to do by then. */
  function EventsBy(orders: seq<Order>, tools: Tools, n: nat): seq<Event> {
    if n < |orders| then Announced(orders[..n + 1])
    else if n - |orders| > |Settled(orders, tools)| then []
    else Announced(orders) + Begun(orders) + Ended(Settled(orders, tools)[..n - |orders|])
  }

  /** All it does if nothing breaks it off: every call of it, refusals included, is opened, the ones to
      execute start, and what completed is closed. */
  function BatchEvents(orders: seq<Order>, tools: Tools): seq<Event> {
    Announced(orders) + Begun(orders) + Ended(Settled(orders, tools))
  }

  /** What a batch is seen to do, broken off or not. */
  function EventsOf(orders: seq<Order>, tools: Tools, fault: Option<nat>): seq<Event> {
    if Raised(orders, tools, fault) then EventsBy(orders, tools, fault.value) else BatchEvents(orders, tools)
  }

  lemma EventsAssoc(trace: seq<Event>, orders: seq<Order>, tools: Tools)
    ensures trace + Announced(orders) + Begun(orders) + Ended(Settled(orders, tools)) == trace + BatchEvents(orders, tools)
  {
  }

  lemma {:induction false} BegunMeans(orders: seq<Order>, id: string)
    ensures Begin(id) in Begun(orders) <==>
            exists k :: 0 <= k < |orders| && orders[k].plan.Execute? && orders[k].call.id == id
  {
    if orders != [] {
      var init := orders[..|orders| - 1];
      BegunMeans(init, id);
      assert forall k :: 0 <= k < |init| ==> init[k] == orders[k];
    }
  }

  /** Whatever starts was opened with its batch, and is an order to execute. */
  lemma StartsAreOrders(orders: seq<Order>, tools: Tools, fault: Option<nat>, id: string)
    requires Begin(id) in EventsOf(orders, tools, fault)
    ensures OpenedBefore(orders, fault) == |orders|
    ensures exists k :: 0 <= k < |orders| && orders[k].plan.Execute? && orders[k].call.id == id
  {
    BegunMeans(orders, id);
  }

  /** The process after a batch broken off at `n`: its own variable still lags. */
  predicate BrokenOff(w0: World, w: World, before: RunState, orders: seq<Order>, tools: Tools, n: nat) {
    && Active(w0) && Active(w) && w.live.value.anchor == before
    && w.rec.value.status == w0.rec.value.status
    && w.rec.value.state == StoredBy(before, w0.rec.value.state, orders, tools, n)
    && w.trace == w0.trace + EventsBy(orders, tools, n)
    && w.asked == w0.asked
  }

  /** A batch in the middle of being announced. */
  predicate Announcing(w0: World, w: World, done: seq<Order>) {
    Active(w0)
    && var l0, ids := w0.live.value, Ids(CallsOfOrders(done));
       w == w0.(live := Some(l0.(ready := l0.ready - ids, open := ids)), trace := w0.trace + Announced(done))
  }

  lemma AnnouncingStep(w0: World, w: World, state: RunState, orders: seq<Order>, i: nat)
    requires i < |orders| && BatchReady(w0, state, orders) && Announcing(w0, w, orders[..i])
    ensures CanOpen(w, orders[i].call)
    ensures Announcing(w0, OpenedCall(w, orders[i].call), orders[..i + 1])
  {
    var calls, c, ready := CallsOfOrders(orders), orders[i].call, w0.live.value.ready;
    var before := CallsOfOrders(orders[..i]);
    assert calls[i] == c && c in calls;
    assert before == calls[..i];
    assert CallsOfOrders(orders[..i + 1]) == before + [c];
    assert before + [c] == calls[..i + 1] && Distinct(calls[..i + 1]);
    DistinctSnoc(before, c);
    assert ready - Ids(before) - {c.id} == ready - Ids(before + [c]);
    assert Announced(orders[..i + 1]) == Announced(orders[..i]) + [Before(c.id)];
  }

  /** The first `k` calls were announced, and this is what it showed of the stored transcript. */
  predicate AnnouncedTo(w0: World, w: World, before: seq<Opening>, openings: seq<Opening>, orders: seq<Order>, k: nat) {
    && k <= |orders| && Announcing(w0, w, orders[..k])
    && openings == before + OpeningsOf(orders[..k], w0.rec.value.state)
  }

  lemma AnnouncedOneMore(w0: World, w: World, before: seq<Opening>, openings: seq<Opening>, state: RunState,
                         orders: seq<Order>, i: nat)
    requires i < |orders| && BatchReady(w0, state, orders) && AnnouncedTo(w0, w, before, openings, orders, i)
    ensures CanOpen(w, orders[i].call)
    ensures AnnouncedTo(w0, OpenedCall(w, orders[i].call), before,
                        openings + [OpeningOf(orders[i].call, w.rec.value.state)], orders, i + 1)
  {
    AnnouncingStep(w0, w, state, orders, i);
  }

  lemma NoneAnnounced(w: World, openings: seq<Opening>, orders: seq<Order>)
    requires Active(w) && w.live.value.open == {}
    ensures AnnouncedTo(w, w, openings, openings, orders, 0)
  {
    assert Ids(CallsOfOrders(orders[..0])) == {} && Announced(orders[..0]) == [];
    assert w.live.value.ready - {} == w.live.value.ready;
  }

  method AnnounceOne(hub: EventHub, state: RunState, orders: seq<Order>, i: nat, ghost w0: World, ghost before: seq<Opening>)
    requires hub.Valid() && i < |orders| && BatchReady(w0, state, orders)
    requires AnnouncedTo(w0, hub.world, before, hub.openings, orders, i)
    modifies hub`trace, hub`log, hub`world, hub`openings
    ensures hub.Valid() && old(hub.log) <= hub.log
    ensures AnnouncedTo(w0, hub.world, before, hub.openings, orders, i + 1)
  {
    AnnouncedOneMore(w0, hub.world, before, hub.openings, state, orders, i);
    hub.BeforeTool(orders[i].call);
  }

  method AnnounceAll(hub: EventHub, state: RunState, orders: seq<Order>, fault: Option<nat>) returns (raised: bool)
    requires hub.Valid() && BatchReady(hub.world, state, orders)
    modifies hub`trace, hub`log, hub`world, hub`openings
    ensures hub.Valid() && old(hub.log) <= hub.log
    ensures raised <==> fault.Some? && fault.value < |orders|
    ensures AnnouncedTo(old(hub.world), hub.world, old(hub.openings), hub.openings, orders, OpenedBefore(orders, fault))
  {
    NoneAnnounced(hub.world, hub.openings, orders);
    for i := 0 to |orders|
      invariant hub.Valid() && old(hub.log) <= hub.log && (fault.Some? ==> i <= fault.value)
      invariant AnnouncedTo(old(hub.world), hub.world, old(hub.openings), hub.openings, orders, i)
    {
      AnnounceOne(hub, state, orders, i, old(hub.world), old(hub.openings));
      if fault == Some(i) {
        return true;
      }
    }
    return false;
  }

  /** A batch in the middle of being started. */
  predicate Starting(w0: World, w: World, done: seq<Order>) {
    Active(w0)
    && var l0 := w0.live.value;
       w == w0.(live := Some(l0.(open := l0.open - Running(done), executing := Running(done))),
                trace := w0.trace + Begun(done))
  }

  lemma StartingStep(w0: World, w: World, orders: seq<Order>, i: nat)
    requires i < |orders| && Distinct(CallsOfOrders(orders))
    requires Active(w0) && w0.live.value.open == Ids(CallsOfOrders(orders)) && Starting(w0, w, orders[..i])
    ensures orders[i].plan.Execute? ==> CanExecute(w, orders[i].call.id)
    ensures Starting(w0, if orders[i].plan.Execute? then ExecutedCall(w, orders[i].call.id) else w, orders[..i + 1])
  {
    assert orders[..i + 1] == orders[..i] + [orders[i]];
    assert orders[..i + 1][..i] == orders[..i];
    if orders[i].plan.Execute? {
      RunningSnoc(orders, i);
      var open, id := w0.live.value.open, orders[i].call.id;
      assert open - Running(orders[..i]) - {id} == open - Running(orders[..i + 1]);
    } else {
      assert Running(orders[..i + 1]) == Running(orders[..i]);
    }
  }

  method StartAll(hub: EventHub, orders: seq<Order>)
    requires hub.Valid() && Active(hub.world) && Distinct(CallsOfOrders(orders))
    requires hub.world.live.value.open == Ids(CallsOfOrders(orders)) && hub.world.live.value.executing == {}
    modifies hub`trace, hub`log, hub`world
    ensures hub.Valid() && old(hub.log) <= hub.log
    ensures Starting(old(hub.world), hub.world, orders)
  {
    assert Running(orders[..0]) == {} && hub.world.live.value.open - {} == hub.world.live.value.open;
    for i := 0 to |orders|
      invariant hub.Valid() && old(hub.log) <= hub.log
      invariant Starting(old(hub.world), hub.world, orders[..i])
    {
      StartingStep(old(hub.world), hub.world, orders, i);
      if orders[i].plan.Execute? {
        hub.StartTool(orders[i].call);
      }
    }
    assert orders[..|orders|] == orders;
  }

  lemma RunningSnoc(orders: seq<Order>, i: nat)
    requires i < |orders| && Distinct(CallsOfOrders(orders)) && orders[i].plan.Execute?
    ensures Running(orders[..i + 1]) == Running(orders[..i]) + {orders[i].call.id}
    ensures orders[i].call.id in Ids(CallsOfOrders(orders)) - Running(orders[..i])
  {
    assert orders[..i + 1] == orders[..i] + [orders[i]];
    var calls := CallsOfOrders(orders);
    assert calls[i] in calls;
    forall o | o in orders[..i] ensures o.call.id != orders[i].call.id {
      var k :| 0 <= k < i && orders[k] == o;
      assert calls[k].id != calls[i].id;
    }
  }

  /** A batch in the middle of being folded: `done` is in, the loop's own variable still lags. */
  predicate Folding(w0: World, w: World, done: seq<Resolved>) {
    Active(w0) && Active(w)
    && var l0, l, ids := w0.live.value, w.live.value, Ids(CallsIn(done));
    && l.state == FoldResults(l0.state, done) && l.anchor == l0.anchor
    && l.ready == l0.ready
    && l.open + l.executing == l0.open + l0.executing - ids
    && l.spawn == l0.spawn + ModelIssued(ids)
    && l.stale == l0.stale && l.awaiting == l0.awaiting
    && w.rec.value.status == w0.rec.value.status
    && w.rec.value.state == (if done == [] then w0.rec.value.state else l.state)
    && w.asked == w0.asked
    && w.trace == w0.trace + Ended(done)
  }

  lemma FoldingStep(w0: World, w: World, settled: seq<Resolved>, i: nat, now: nat)
    requires i < |settled| && Distinct(CallsIn(settled))
    requires Active(w0) && Ids(CallsIn(settled)) <= w0.live.value.open + w0.live.value.executing
    requires Folding(w0, w, settled[..i]) && w.rec.value.updatedAt < now
    ensures CanFinish(w, settled[i].call)
    ensures CanSave(FinishedCall(w, settled[i].call, settled[i].result), now)
    ensures Folding(w0, Saved(FinishedCall(w, settled[i].call, settled[i].result), now), settled[..i + 1])
  {
    FoldSnoc(w0.live.value.state, settled, i);
    SettledPrefix(settled, i);
    var id, before, after := settled[i].call.id, Ids(CallsIn(settled[..i])), Ids(CallsIn(settled[..i + 1]));
    assert ModelIssued(after) == ModelIssued(before) + (if IsFollowUp(id) then {} else {id});
    var all := w0.live.value.open + w0.live.value.executing;
    assert all - before - {id} == all - after;
    assert Ended(settled[..i + 1]) == Ended(settled[..i]) + [After(id)];
  }

  lemma NothingFolded(w: World)
    requires Active(w)
    ensures Folding(w, w, [])
  {
    assert Ids(CallsIn([])) == {} && ModelIssued({}) == {} && w.trace + Ended([]) == w.trace;
    assert w.live.value.spawn + {} == w.live.value.spawn;
    assert w.live.value.open + w.live.value.executing - {} == w.live.value.open + w.live.value.executing;
  }

  method FoldOne(hub: EventHub, start: RunState, settled: seq<Resolved>, i: nat, before: RunState, ghost w0: World)
    returns (state: RunState)
    requires hub.Valid() && i < |settled| && Distinct(CallsIn(settled)) && Active(w0)
    requires w0.live.value.state == start && Ids(CallsIn(settled)) <= w0.live.value.open + w0.live.value.executing
    requires before == FoldResults(start, settled[..i]) && Folding(w0, hub.world, settled[..i])
    modifies hub`trace, hub`log, hub`world, hub.store
    ensures hub.Valid() && old(hub.log) <= hub.log && hub.store.Others(hub.runId) == old(hub.store.Others(hub.runId))
    ensures state == FoldResults(start, settled[..i + 1]) && Folding(w0, hub.world, settled[..i + 1])
  {
    FoldSnoc(start, settled, i);
    FoldingStep(w0, hub.world, settled, i, hub.store.clock);
    state := AppendToolResult(before, settled[i].call, settled[i].result);
    hub.AfterTool(settled[i].call, settled[i].result, state);
  }

  /** The results are folded, stored and announced in order; the batch may break off before the first
      (`fault` 0) or when the observers of one raise. */
  method FoldBatch(hub: EventHub, start: RunState, settled: seq<Resolved>, fault: Option<nat>)
    returns (state: RunState, raised: bool)
    requires hub.Valid() && Active(hub.world)
    requires hub.world.live.value.state == start && hub.world.live.value.anchor == start
    requires Distinct(CallsIn(settled))
    requires Ids(CallsIn(settled)) <= hub.world.live.value.open + hub.world.live.value.executing
    modifies hub`trace, hub`log, hub`world, hub.store
    ensures hub.Valid() && old(hub.log) <= hub.log && hub.store.Others(hub.runId) == old(hub.store.Others(hub.runId))
    ensures raised <==> fault.Some? && fault.value <= |settled|
    ensures !raised ==> state == FoldResults(start, settled)
    ensures Folding(old(hub.world), hub.world, if raised then settled[..fault.value] else settled)
  {
    NothingFolded(hub.world);
    state := start;
    if fault == Some(0) {
      return state, true;
    }
    assert settled[..0] == [];
    for i := 0 to |settled|
      invariant hub.Valid() && old(hub.log) <= hub.log && (fault.Some? ==> i < fault.value)
      invariant hub.store.Others(hub.runId) == old(hub.store.Others(hub.runId))
      invariant state == FoldResults(start, settled[..i]) && Folding(old(hub.world), hub.world, settled[..i])
    {
      state := FoldOne(hub, start, settled, i, state, old(hub.world));
      if fault == Some(i + 1) {
        return state, true;
      }
    }
    assert settled[..|settled|] == settled;
    return state, false;
  }

  lemma SettledPrefix(settled: seq<Resolved>, i: nat)
    requires i < |settled| && Distinct(CallsIn(settled))
    ensures Ids(CallsIn(settled[..i + 1])) == Ids(CallsIn(settled[..i])) + {settled[i].call.id}
    ensures settled[i].call.id in Ids(CallsIn(settled)) - Ids(CallsIn(settled[..i]))
  {
    var calls := CallsIn(settled);
    assert calls[i] in calls;
    assert CallsIn(settled[..i]) == calls[..i];
    assert CallsIn(settled[..i + 1]) == calls[..i] + [calls[i]];
    assert Distinct(calls[..i] + [calls[i]]);
    DistinctSnoc(calls[..i], calls[i]);
  }

  lemma EmptyBatch(w: World, start: RunState, tools: Tools)
    ensures BatchReady(w, start, []) ==> BatchDone(w, w, [], [])
    ensures Settled([], tools) == [] && !AnyStopped([], tools)
  {
    assert Ids(CallsOfOrders([])) == {} && Ids(CallsIn([])) == {} && ModelIssued({}) == {};
    assert w.trace + Announced([]) + Begun([]) + Ended([]) == w.trace;
    if w.live.Some? {
      assert w.live.value.ready - {} == w.live.value.ready && w.live.value.spawn + {} == w.live.value.spawn;
    }
  }

  /** Announcing, starting, folding and committing make a batch. */
  lemma BatchComposed(w0: World, wa: World, ws: World, wf: World, start: RunState, orders: seq<Order>, settled: seq<Resolved>)
    requires BatchReady(w0, start, orders) && Ids(CallsIn(settled)) <= Ids(CallsOfOrders(orders))
    requires Announcing(w0, wa, orders) && Starting(wa, ws, orders) && Folding(ws, wf, settled)
    ensures BatchDone(w0, Committed(wf), orders, settled)
  {
    RunningAreCalls(orders);
  }

  /** A batch broken off while it is announced, while its tools run, or while it is folded. */
  lemma AnnouncedPart(w0: World, wa: World, start: RunState, orders: seq<Order>, tools: Tools, n: nat)
    requires BatchReady(w0, start, orders) && n < |orders| && Announcing(w0, wa, orders[..n + 1])
    ensures BrokenOff(w0, wa, start, orders, tools, n)
  {
  }

  lemma FoldedPart(w0: World, wa: World, ws: World, w: World, start: RunState, orders: seq<Order>, tools: Tools, k: nat)
    requires BatchReady(w0, start, orders) && k <= |Settled(orders, tools)|
    requires Announcing(w0, wa, orders) && Starting(wa, ws, orders) && Folding(ws, w, Settled(orders, tools)[..k])
    ensures BrokenOff(w0, w, start, orders, tools, |orders| + k)
  {
    PartsOfTrace(w0.trace, orders, Settled(orders, tools)[..k]);
  }

  lemma PartsOfTrace(trace: seq<Event>, orders: seq<Order>, settled: seq<Resolved>)
    ensures trace + Announced(orders) + Begun(orders) + Ended(settled)
            == trace + (Announced(orders) + Begun(orders) + Ended(settled))
  {
  }

  /** Whatever completed was opened. */
  lemma MayFinish(w0: World, wa: World, ws: World, start: RunState, orders: seq<Order>, tools: Tools)
    requires BatchReady(w0, start, orders) && Announcing(w0, wa, orders) && Starting(wa, ws, orders)
    ensures Distinct(CallsIn(Settled(orders, tools)))
    ensures Ids(CallsIn(Settled(orders, tools))) <= Ids(CallsOfOrders(orders))
    ensures Ids(CallsIn(Settled(orders, tools))) <= ws.live.value.open + ws.live.value.executing
  {
    SettledExactly(orders, tools);
    RunningAreCalls(orders);
  }

  /** The announced calls run together. */
  method ExecuteBatch(hub: EventHub, start: RunState, orders: seq<Order>, tools: Tools, ghost w0: World)
    returns (resolved: seq<Resolved>, cancelled: bool)
    requires hub.Valid() && BatchReady(w0, start, orders) && Announcing(w0, hub.world, orders)
    modifies hub`trace, hub`log, hub`world
    ensures hub.Valid() && old(hub.log) <= hub.log && Starting(old(hub.world), hub.world, orders)
    ensures resolved == Settled(orders, tools) && (cancelled <==> AnyStopped(orders, tools))
    ensures Distinct(CallsIn(resolved)) && Ids(CallsIn(resolved)) <= Ids(CallsOfOrders(orders))
    ensures Ids(CallsIn(resolved)) <= hub.world.live.value.open + hub.world.live.value.executing
  {
    ghost var wa := hub.world;
    StartAll(hub, orders);
    resolved, cancelled := ResolveBatch(orders, tools);
    MayFinish(w0, wa, hub.world, start, orders, tools);
  }

  /** What completed is folded and committed, unless the batch breaks off before or meanwhile. */
  method FoldAndCommit(hub: EventHub, start: RunState, orders: seq<Order>, tools: Tools, resolved: seq<Resolved>,
                       fault: Option<nat>, ghost w0: World, ghost wa: World)
    returns (state: RunState, raised: bool)
    requires hub.Valid() && BatchReady(w0, start, orders) && Announcing(w0, wa, orders) && Starting(wa, hub.world, orders)
    requires resolved == Settled(orders, tools)
    requires Distinct(CallsIn(resolved)) && Ids(CallsIn(resolved)) <= Ids(CallsOfOrders(orders))
    requires Ids(CallsIn(resolved)) <= hub.world.live.value.open + hub.world.live.value.executing
    modifies hub`trace, hub`log, hub`world, hub.store
    ensures hub.Valid() && old(hub.log) <= hub.log && hub.store.Others(hub.runId) == old(hub.store.Others(hub.runId))
    ensures raised <==> fault.Some? && fault.value <= |resolved|
    ensures raised ==> BrokenOff(w0, hub.world, start, orders, tools, |orders| + fault.value)
    ensures !raised ==> state == FoldResults(start, resolved) && BatchDone(w0, hub.world, orders, resolved)
  {
    ghost var ws := hub.world;
    state, raised := FoldBatch(hub, start, resolved, fault);
    if raised {
      FoldedPart(w0, wa, ws, hub.world, start, orders, tools, fault.value);
    } else {
      BatchComposed(w0, wa, ws, hub.world, start, orders, resolved);
      hub.Note(Commit);
    }
  }

  /** The announced calls run together, and what completed is folded and committed. */
  method FinishBatch(hub: EventHub, start: RunState, orders: seq<Order>, tools: Tools, fault: Option<nat>, ghost w0: World)
    returns (state: RunState, cancelled: bool, resolved: seq<Resolved>, raised: bool)
    requires hub.Valid() && BatchReady(w0, start, orders) && Announcing(w0, hub.world, orders)
    modifies hub`trace, hub`log, hub`world, hub.store
    ensures hub.Valid() && old(hub.log) <= hub.log && hub.store.Others(hub.runId) == old(hub.store.Others(hub.runId))
    ensures raised <==> fault.Some? && fault.value <= |Settled(orders, tools)|
    ensures raised ==> BrokenOff(w0, hub.world, start, orders, tools, |orders| + fault.value)
    ensures !raised ==>
      && resolved == Settled(orders, tools) && state == FoldResults(start, resolved)
      && (cancelled <==> AnyStopped(orders, tools))
      && BatchDone(w0, hub.world, orders, resolved)
  {
    ghost var wa := hub.world;
    resolved, cancelled := ExecuteBatch(hub, start, orders, tools, w0);
    state, raised := FoldAndCommit(hub, start, orders, tools, resolved, fault, w0, wa);
  }

  /** The calls of a batch, if there are any. */
  method RunCalls(hub: EventHub, start: RunState, orders: seq<Order>, tools: Tools, fault: Option<nat>)
    returns (state: RunState, cancelled: bool, resolved: seq<Resolved>, raised: bool)
    requires hub.Valid() && BatchReady(hub.world, start, orders) && orders != []
    modifies hub`trace, hub`log, hub`world, hub`openings, hub.store
    ensures hub.Valid() && old(hub.log) <= hub.log && hub.store.Others(hub.runId) == old(hub.store.Others(hub.runId))
    ensures hub.openings == old(hub.openings) +
                            OpeningsOf(orders[..OpenedBefore(orders, fault)], old(hub.world).rec.value.state)
    ensures raised <==> fault.Some? && fault.value <= |orders| + |Settled(orders, tools)|
    ensures raised ==> BrokenOff(old(hub.world), hub.world, start, orders, tools, fault.value)
    ensures !raised ==>
      && resolved == Settled(orders, tools) && state == FoldResults(start, resolved)
      && (cancelled <==> AnyStopped(orders, tools))
      && BatchDone(old(hub.world), hub.world, orders, resolved)
  {
    state, cancelled, resolved := start, false, [];
    ghost var w0 := hub.world;
    raised := AnnounceAll(hub, start, orders, fault);
    if raised {
      AnnouncedPart(w0, hub.world, start, orders, tools, fault.value);
      return;
    }
    assert orders[..|orders|] == orders;
    var later := if fault.Some? then Some(fault.value - |orders|) else None;
    state, cancelled, resolved, raised := FinishBatch(hub, start, orders, tools, later, w0);
  }

  /** Every call is announced; the allowed ones run together; every result that completed is
      folded, written and announced in request order before a cancellation is reported.
      An observer that raises, or a cancelled task, breaks the batch off at once. */
  method RunBatch(hub: EventHub, start: RunState, orders: seq<Order>, tools: Tools, fault: Option<nat>)
    returns (state: RunState, cancelled: bool, resolved: seq<Resolved>, raised: bool)
    requires hub.Valid() && BatchReady(hub.world, start, orders)
    modifies hub`trace, hub`log, hub`world, hub`openings, hub.store
    ensures hub.Valid() && old(hub.log) <= hub.log && hub.store.Others(hub.runId) == old(hub.store.Others(hub.runId))
    ensures hub.openings == old(hub.openings) +
                            OpeningsOf(orders[..OpenedBefore(orders, fault)], old(hub.world).rec.value.state)
    ensures raised <==> Raised(orders, tools, fault)
    ensures raised ==> BrokenOff(old(hub.world), hub.world, start, orders, tools, fault.value)
    ensures !raised ==>
      && resolved == Settled(orders, tools) && state == FoldResults(start, resolved)
      && (cancelled <==> AnyStopped(orders, tools))
      && BatchDone(old(hub.world), hub.world, orders, resolved)
  {
    state, cancelled, resolved, raised := start, false, [], false;
    EmptyBatch(hub.world, start, tools);
    if orders == [] {
      assert hub.openings + OpeningsOf([], start) == hub.openings;
      return;
    }
    state, cancelled, resolved, raised := RunCalls(hub, start, orders, tools, fault);
  }

  /** What a batch was seen to do. */
  lemma BatchTrace(w0: World, w: World, before: RunState, orders: seq<Order>, tools: Tools, fault: Option<nat>)
    requires if Raised(orders, tools, fault) then BrokenOff(w0, w, before, orders, tools, fault.value)
             else BatchDone(w0, w, orders, Settled(orders, tools))
    ensures w.trace == w0.trace + EventsOf(orders, tools, fault)
  {
    EventsAssoc(w0.trace, orders, tools);
  }

  lemma RunningAreCalls(orders: seq<Order>)
    ensures Running(orders) <= Ids(CallsOfOrders(orders))
  {
    forall o | o in orders ensures o.call.id in Ids(CallsOfOrders(orders)) {
      var k :| 0 <= k < |orders| && orders[k] == o;
      assert CallsOfOrders(orders)[k] == o.call;
    }
  }
}
