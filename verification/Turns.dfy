/** How the loop splits a turn's calls by policy and which follow-up calls it synthesises. */
module Turns {
  import opened Domain
  import opened Transcript
  import opened Protocol
  import opened Lifecycle
  import opened ToolStep
  import opened Batch

  /** `ToolStepExecutor.decide`; each call is decided once, so a function of the call is general. */
  type Policy = ToolCall -> ToolDecision

  /** The calls that can run without a human, with their decision. */
  function Runnable(calls: seq<ToolCall>, policy: Policy): seq<Order> {
    if calls == [] then []
    else (if policy(calls[0]).NeedsApproval? then [] else [ExecuteDecided(calls[0], policy(calls[0]))])
         + Runnable(calls[1..], policy)
  }

  /** The calls that pause the Run. */
  function Held(calls: seq<ToolCall>, policy: Policy): seq<ToolCall> {
    if calls == [] then []
    else (if policy(calls[0]).NeedsApproval? then [calls[0]] else []) + Held(calls[1..], policy)
  }

  function Synthesize(r: Resolved): seq<ToolCall> {
    match r.result.followUp
    case None => []
    case Some(f) => [ToolCall(FollowUpId(r.call.id), f.toolName, f.arguments)]
  }

  /** The follow-up calls a batch's results ask for, in result order. */
  function Synthesized(rs: seq<Resolved>): seq<ToolCall> {
    if rs == [] then [] else Synthesized(rs[..|rs| - 1]) + Synthesize(rs[|rs| - 1])
  }

  function AppendSynthetics(state: RunState, calls: seq<ToolCall>): RunState {
    if calls == [] then state
    else AppendSyntheticToolCall(AppendSynthetics(state, calls[..|calls| - 1]), calls[|calls| - 1])
  }

  lemma {:induction false} SplitMembers(calls: seq<ToolCall>, policy: Policy)
    ensures forall c :: c in CallsOfOrders(Runnable(calls, policy)) <==> c in calls && !policy(c).NeedsApproval?
    ensures forall c :: c in Held(calls, policy) <==> c in calls && policy(c).NeedsApproval?
  {
    if calls != [] {
      SplitMembers(calls[1..], policy);
      assert calls == [calls[0]] + calls[1..];
      var rest := Runnable(calls[1..], policy);
      if policy(calls[0]).NeedsApproval? {
        assert Runnable(calls, policy) == rest;
      } else {
        assert CallsOfOrders(Runnable(calls, policy)) == [calls[0]] + CallsOfOrders(rest);
      }
    }
  }

  /** The policy alone decides what becomes of a call that waits for nobody. */
  lemma {:induction false} PolicyDecides(calls: seq<ToolCall>, policy: Policy)
    ensures forall o :: o in Runnable(calls, policy) ==>
              && o.call in calls && !policy(o.call).NeedsApproval?
              && (o.plan.Execute? <==> policy(o.call).Allow?)
  {
    if calls != [] {
      PolicyDecides(calls[1..], policy);
      assert calls == [calls[0]] + calls[1..];
    }
  }

  lemma {:induction false} RunnableDistinct(calls: seq<ToolCall>, policy: Policy)
    requires Distinct(calls)
    ensures Distinct(CallsOfOrders(Runnable(calls, policy)))
  {
    if calls != [] {
      RunnableDistinct(calls[1..], policy);
      SplitMembers(calls[1..], policy);
      var rest := CallsOfOrders(Runnable(calls[1..], policy));
      if policy(calls[0]).NeedsApproval? {
        assert Runnable(calls, policy) == Runnable(calls[1..], policy);
      } else {
        assert CallsOfOrders(Runnable(calls, policy)) == [calls[0]] + rest;
        forall k | 0 <= k < |rest| ensures rest[k].id != calls[0].id {
          assert rest[k] in calls[1..];
        }
      }
    }
  }

  /** Taking the runnable calls out of a response leaves the held ones, in order. */
  lemma {:induction false} HeldIsTheRest(calls: seq<ToolCall>, policy: Policy, ran: set<string>)
    requires forall c :: c in calls ==> (c.id in ran <==> !policy(c).NeedsApproval?)
    ensures Except(calls, ran) == Held(calls, policy)
  {
    if calls != [] {
      assert forall c :: c in calls[1..] ==> c in calls;
      HeldIsTheRest(calls[1..], policy, ran);
      assert calls[0] in calls;
    }
  }

  lemma SplitIds(calls: seq<ToolCall>, policy: Policy)
    requires Distinct(calls)
    ensures Except(calls, Ids(CallsOfOrders(Runnable(calls, policy)))) == Held(calls, policy)
    ensures Ids(Held(calls, policy)) == Ids(calls) - Ids(CallsOfOrders(Runnable(calls, policy)))
    ensures Ids(CallsOfOrders(Runnable(calls, policy))) <= Ids(calls)
  {
    SplitMembers(calls, policy);
    var run := CallsOfOrders(Runnable(calls, policy));
    forall c | c in calls ensures c.id in Ids(run) <==> !policy(c).NeedsApproval? {
      if c.id in Ids(run) {
        var d :| d in run && d.id == c.id;
        DistinctIds(calls, c, d);
      }
    }
    HeldIsTheRest(calls, policy, Ids(run));
    ExceptIds(calls, Ids(run));
  }

  lemma DistinctIds(calls: seq<ToolCall>, c: ToolCall, d: ToolCall)
    requires Distinct(calls) && c in calls && d in calls && c.id == d.id
    ensures c == d
  {
    var i :| 0 <= i < |calls| && calls[i] == c;
    var j :| 0 <= j < |calls| && calls[j] == d;
    assert i == j;
  }

  lemma {:induction false} NoneStopped(orders: seq<Order>, tools: Tools)
    requires !AnyStopped(orders, tools)
    ensures CallsIn(Settled(orders, tools)) == CallsOfOrders(orders)
  {
    if orders != [] {
      var init, last := orders[..|orders| - 1], orders[|orders| - 1];
      assert orders == init + [last] && orders[..|orders|] == orders;
      SettledSnoc(orders, tools, |orders| - 1);
      NoneStopped(init, tools);
      assert CallsOfOrders(orders) == CallsOfOrders(init) + [last.call];
      assert CallsIn(Settled(orders, tools)) == CallsIn(Settled(init, tools)) + [last.call];
    }
  }

  lemma SynthesizedSnoc(rs: seq<Resolved>, i: nat)
    requires i < |rs|
    ensures Synthesized(rs[..i + 1]) == Synthesized(rs[..i]) + Synthesize(rs[i])
  {
    assert rs[..i + 1][..i] == rs[..i];
  }

  lemma SyntheticsSnoc(state: RunState, calls: seq<ToolCall>, c: ToolCall)
    ensures AppendSynthetics(state, calls + [c]) == AppendSyntheticToolCall(AppendSynthetics(state, calls), c)
  {
    assert (calls + [c])[..|calls|] == calls;
  }

  // ----- a turn's two batches -----

  function FirstBatch(state: RunState, calls: seq<ToolCall>, policy: Policy, tools: Tools): RunState {
    FoldResults(state, Settled(Runnable(calls, policy), tools))
  }

  function FollowUps(calls: seq<ToolCall>, policy: Policy, tools: Tools): seq<ToolCall> {
    Synthesized(Settled(Runnable(calls, policy), tools))
  }

  function WithFollowUps(state: RunState, calls: seq<ToolCall>, policy: Policy, tools: Tools): RunState {
    AppendSynthetics(FirstBatch(state, calls, policy, tools), FollowUps(calls, policy, tools))
  }

  function SecondBatch(state: RunState, calls: seq<ToolCall>, policy: Policy, tools: Tools): RunState {
    FirstBatch(WithFollowUps(state, calls, policy, tools), FollowUps(calls, policy, tools), policy, tools)
  }

  predicate Stops(calls: seq<ToolCall>, policy: Policy, tools: Tools) { AnyStopped(Runnable(calls, policy), tools) }

  /** The calls a turn leaves for a human: the model's first, then the synthesised ones. */
  function Needs(calls: seq<ToolCall>, policy: Policy, tools: Tools): seq<ToolCall> {
    Held(calls, policy) + Held(FollowUps(calls, policy, tools), policy)
  }

  /** At most one follow-up, and nothing held beside it. */
  predicate QuietTurn(calls: seq<ToolCall>, policy: Policy, tools: Tools) {
    var synthetic := FollowUps(calls, policy, tools);
    synthetic == [] || (|synthetic| == 1 && Held(calls, policy) == [])
  }

  lemma {:induction false} FoldCounts(state: RunState, rs: seq<Resolved>)
    ensures FoldResults(state, rs).completedModelCalls == state.completedModelCalls
    ensures FoldResults(state, rs).usage == state.usage
  {
    FoldShape(state, rs);
  }

  lemma {:induction false} SyntheticsCount(state: RunState, calls: seq<ToolCall>)
    ensures AppendSynthetics(state, calls).completedModelCalls == state.completedModelCalls
    ensures AppendSynthetics(state, calls).usage == state.usage
  {
    if calls != [] {
      SyntheticsCount(state, calls[..|calls| - 1]);
    }
  }

  /** Tools are not billed: every state a turn's tools may leave has the answer's counts. */
  lemma ToolsCount(start: RunState, calls: seq<ToolCall>, policy: Policy, tools: Tools)
    ensures FirstBatch(start, calls, policy, tools).completedModelCalls == start.completedModelCalls
    ensures WithFollowUps(start, calls, policy, tools).completedModelCalls == start.completedModelCalls
    ensures SecondBatch(start, calls, policy, tools).completedModelCalls == start.completedModelCalls
  {
    FoldCounts(start, Settled(Runnable(calls, policy), tools));
    var synthetic := FollowUps(calls, policy, tools);
    SyntheticsCount(FirstBatch(start, calls, policy, tools), synthetic);
    FoldCounts(WithFollowUps(start, calls, policy, tools), Settled(Runnable(synthetic, policy), tools));
  }

  lemma {:induction false} FoldCalls(state: RunState, rs: seq<Resolved>)
    ensures CallsOf(FoldResults(state, rs).messages) == CallsOf(state.messages)
  {
    if rs != [] {
      FoldCalls(state, rs[..|rs| - 1]);
      var last := rs[|rs| - 1];
      Snoc(FoldResults(state, rs[..|rs| - 1]).messages, ToolMessage(last.call.id, last.result.content));
    }
  }

  lemma {:induction false} FoldHolds(state: RunState, rs: seq<Resolved>)
    ensures forall r :: r in rs ==> ToolMessage(r.call.id, r.result.content) in FoldResults(state, rs).messages
  {
    if rs != [] {
      var init := rs[..|rs| - 1];
      FoldHolds(state, init);
      assert rs == init + [rs[|rs| - 1]];
    }
  }

  lemma ConcatAssoc(a: seq<ToolCall>, b: seq<ToolCall>, c: seq<ToolCall>)
    ensures a + b + c == a + (b + c)
  {
  }

  lemma {:induction false} SyntheticsCalls(state: RunState, calls: seq<ToolCall>)
    ensures CallsOf(AppendSynthetics(state, calls).messages) == CallsOf(state.messages) + calls
  {
    if calls != [] {
      var init, c := calls[..|calls| - 1], calls[|calls| - 1];
      SyntheticsCalls(state, init);
      Snoc(AppendSynthetics(state, init).messages, Message(Assistant, "", [c], None, ""));
      ConcatAssoc(CallsOf(state.messages), init, [c]);
      assert calls == init + [c];
    }
  }

  lemma {:induction false} FollowUpsAreFollowUps(settled: seq<Resolved>)
    ensures forall c :: c in Synthesized(settled) ==> IsFollowUp(c.id)
  {
    if settled != [] {
      var init, last := settled[..|settled| - 1], settled[|settled| - 1];
      FollowUpsAreFollowUps(init);
      FollowUpIds(last.call.id, last.call.id);
    }
  }

  lemma DistinctParts(a: seq<ToolCall>, b: seq<ToolCall>)
    requires Distinct(a + b)
    ensures Distinct(a) && Distinct(b) && Ids(a) !! Ids(b)
  {
    var all := a + b;
    assert forall i :: 0 <= i < |a| ==> all[i] == a[i];
    assert forall i :: 0 <= i < |b| ==> all[|a| + i] == b[i];
    forall c, d | c in a && d in b ensures c.id != d.id {
      var i :| 0 <= i < |a| && a[i] == c;
      var j :| 0 <= j < |b| && b[j] == d;
      assert all[i].id != all[|a| + j].id;
    }
  }

  /** A turn's tools add only follow-up calls to the transcript. */
  lemma SecondBatchCalls(start: RunState, calls: seq<ToolCall>, policy: Policy, tools: Tools)
    ensures ModelIssued(Ids(CallsOf(SecondBatch(start, calls, policy, tools).messages)))
            == ModelIssued(Ids(CallsOf(start.messages)))
  {
    var first, synthetic := FirstBatch(start, calls, policy, tools), FollowUps(calls, policy, tools);
    FoldCalls(start, Settled(Runnable(calls, policy), tools));
    SyntheticsCalls(first, synthetic);
    FoldCalls(AppendSynthetics(first, synthetic), Settled(Runnable(synthetic, policy), tools));
    FollowUpsAreFollowUps(Settled(Runnable(calls, policy), tools));
    IdsConcat(CallsOf(start.messages), synthetic);
  }

  /** Whatever part of a batch is cancelled, a tool that finished is in the folded transcript with its
      result, even if the cancellation came in the same instant; so is every refusal; a tool that
      lost to the cancellation stays pending; and no call was added. */
  lemma CompletedWorkIsKept(state: RunState, orders: seq<Order>, tools: Tools)
    requires WellFormed(state.messages) && Distinct(CallsOfOrders(orders)) && Ids(CallsOfOrders(orders)) <= PendingIds(state)
    ensures var folded := FoldResults(state, Settled(orders, tools));
      && (forall o :: o in orders && o.plan.Refuse? ==> ToolMessage(o.call.id, o.plan.message) in folded.messages)
      && (forall o :: o in orders && o.plan.Execute? && !tools(o.call).CancelFirst? ==>
            ToolMessage(o.call.id, tools(o.call).result.content) in folded.messages)
      && (forall o :: o in orders && o.plan.Execute? && tools(o.call).CancelFirst? ==> o.call.id in PendingIds(folded))
      && CallsOf(folded.messages) == CallsOf(state.messages)
  {
    var settled := Settled(orders, tools);
    SettledExactly(orders, tools);
    FoldHolds(state, settled);
    FoldKeepsOthers(state, settled);
    ExceptIds(UnmatchedToolCalls(state.messages), Ids(CallsIn(settled)));
    forall o | o in orders ensures o.call.id in PendingIds(state) {
      var k :| 0 <= k < |orders| && orders[k] == o;
      assert CallsOfOrders(orders)[k] in CallsOfOrders(orders);
    }
  }

  /** No transcript holds a follow-up before it is synthesised. */
  lemma FollowUpsAreNew(state: RunState, calls: seq<ToolCall>, policy: Policy, tools: Tools)
    requires WellFormed(WithFollowUps(state, calls, policy, tools).messages)
    ensures Ids(FollowUps(calls, policy, tools)) !! Ids(CallsOf(FirstBatch(state, calls, policy, tools).messages))
  {
    var first, synthetic := FirstBatch(state, calls, policy, tools), FollowUps(calls, policy, tools);
    SyntheticsCalls(first, synthetic);
    SatisfiedWereCalled(AppendSynthetics(first, synthetic).messages);
    DistinctParts(CallsOf(first.messages), synthetic);
  }

  lemma {:induction false} FoldExtends(state: RunState, rs: seq<Resolved>)
    ensures state.messages <= FoldResults(state, rs).messages
  {
    if rs != [] {
      FoldExtends(state, rs[..|rs| - 1]);
    }
  }

  lemma {:induction false} SyntheticsExtend(state: RunState, calls: seq<ToolCall>)
    ensures state.messages <= AppendSynthetics(state, calls).messages
  {
    if calls != [] {
      SyntheticsExtend(state, calls[..|calls| - 1]);
    }
  }

  /** Each stage of a turn's tools only extends the transcript. */
  lemma FollowUpsExtend(start: RunState, calls: seq<ToolCall>, policy: Policy, tools: Tools)
    ensures start.messages <= FirstBatch(start, calls, policy, tools).messages
            <= WithFollowUps(start, calls, policy, tools).messages
            <= SecondBatch(start, calls, policy, tools).messages
    ensures start.messages <= WithFollowUps(start, calls, policy, tools).messages
    ensures FirstBatch(start, calls, policy, tools).messages <= SecondBatch(start, calls, policy, tools).messages
  {
    var first, synthetic := FirstBatch(start, calls, policy, tools), FollowUps(calls, policy, tools);
    var before := WithFollowUps(start, calls, policy, tools);
    FoldExtends(start, Settled(Runnable(calls, policy), tools));
    SyntheticsExtend(first, synthetic);
    FoldExtends(before, Settled(Runnable(synthetic, policy), tools));
    PrefixChain(start.messages, first.messages, before.messages);
    PrefixChain(first.messages, before.messages, SecondBatch(start, calls, policy, tools).messages);
  }

  lemma PrefixChain(a: seq<Message>, b: seq<Message>, c: seq<Message>)
    requires a <= b <= c
    ensures a <= c
  {
  }

  /** The result of every call of a batch that completed is among the messages. */
  predicate Holds(ms: seq<Message>, orders: seq<Order>, tools: Tools) {
    forall o :: o in orders && Outcome(o, tools).Done? ==>
      ToolMessage(o.call.id, Outcome(o, tools).result.content) in ms
  }

  lemma BatchHolds(state: RunState, orders: seq<Order>, tools: Tools, later: seq<Message>)
    requires Distinct(CallsOfOrders(orders)) && FoldResults(state, Settled(orders, tools)).messages <= later
    ensures Holds(later, orders, tools)
  {
    SettledExactly(orders, tools);
    FoldHolds(state, Settled(orders, tools));
    var folded := FoldResults(state, Settled(orders, tools)).messages;
    assert forall m :: m in folded ==> m in later;
  }

  /** Distinct calls ask for distinct follow-ups. */
  lemma {:induction false} SynthesizedDistinct(rs: seq<Resolved>)
    requires Distinct(CallsIn(rs))
    ensures Distinct(Synthesized(rs))
    ensures forall c :: c in Synthesized(rs) ==> exists id :: id in Ids(CallsIn(rs)) && c.id == FollowUpId(id)
  {
    if rs != [] {
      var init, last := rs[..|rs| - 1], rs[|rs| - 1];
      assert CallsIn(rs) == CallsIn(init) + [last.call];
      DistinctSnoc(CallsIn(init), last.call);
      SynthesizedDistinct(init);
      if last.result.followUp.Some? {
        var c := Synthesize(last)[0];
        forall d | d in Synthesized(init) ensures d.id != c.id {
          var id :| id in Ids(CallsIn(init)) && d.id == FollowUpId(id);
          FollowUpIds(id, last.call.id);
        }
        DistinctSnoc(Synthesized(init), c);
        assert Synthesized(rs) == Synthesized(init) + [c];
        assert last.call.id in Ids(CallsIn(rs));
      }
    }
  }

  lemma FollowUpsDistinct(calls: seq<ToolCall>, policy: Policy, tools: Tools)
    requires Distinct(calls)
    ensures Distinct(FollowUps(calls, policy, tools))
  {
    RunnableDistinct(calls, policy);
    SettledExactly(Runnable(calls, policy), tools);
    SynthesizedDistinct(Settled(Runnable(calls, policy), tools));
  }
}
