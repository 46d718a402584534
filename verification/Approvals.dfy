/** Resolving the calls a paused Run exposes: what one batch of verdicts does to the transcript,
    and why answering them one at a time does the same (`harness.py`). */
module Approvals {
  import opened Domain
  import opened Transcript
  import opened ToolStep

  type Verdicts = map<string, Verdict>

  /** The pending calls that have a verdict, in transcript order. */
  function DecidedOrders(pending: seq<ToolCall>, verdicts: Verdicts): seq<Order> {
    if pending == [] then []
    else (if pending[0].id in verdicts then [ExecuteVerdict(pending[0], verdicts[pending[0].id])] else [])
         + DecidedOrders(pending[1..], verdicts)
  }

  function StillPending(pending: seq<ToolCall>, verdicts: Verdicts): seq<ToolCall> {
    Except(pending, verdicts.Keys)
  }

  /** The results of the decided ones among `calls`, appended. */
  function Resolve(state: RunState, calls: seq<ToolCall>, verdicts: Verdicts, tools: Tools): RunState {
    FoldResults(state, Settled(DecidedOrders(calls, verdicts), tools))
  }

  /** The transcript after one batch of verdicts. */
  function ResolveWith(state: RunState, verdicts: Verdicts, tools: Tools): RunState {
    Resolve(state, UnmatchedToolCalls(state.messages), verdicts, tools)
  }

  /** `n` answers in a row, each to the call that is first in line at that moment. */
  function OneAtATime(state: RunState, verdicts: Verdicts, tools: Tools, n: nat): RunState
    decreases n
  {
    var pending := UnmatchedToolCalls(state.messages);
    if n == 0 || pending == [] || pending[0].id !in verdicts then state
    else OneAtATime(ResolveWith(state, map[pending[0].id := verdicts[pending[0].id]], tools), verdicts, tools, n - 1)
  }

  predicate NeverCancelled(tools: Tools, calls: seq<ToolCall>) {
    forall c :: c in calls ==> !tools(c).CancelFirst?
  }

  // ----- lemmas -----

  lemma {:induction false} DecidedMembers(pending: seq<ToolCall>, verdicts: Verdicts)
    ensures forall c :: c in CallsOfOrders(DecidedOrders(pending, verdicts)) <==> c in pending && c.id in verdicts
    ensures forall o :: o in DecidedOrders(pending, verdicts) ==> o.call in pending
  {
    if pending != [] {
      DecidedMembers(pending[1..], verdicts);
      assert pending == [pending[0]] + pending[1..];
      DecidedCalls(pending, verdicts);
    }
  }

  /** The calls a human approved. */
  function Approved(verdicts: Verdicts): set<string> { set id | id in verdicts && verdicts[id].Approve? }

  /** The verdict alone decides what becomes of a call that has one. */
  lemma {:induction false} VerdictDecides(pending: seq<ToolCall>, verdicts: Verdicts)
    ensures forall o :: o in DecidedOrders(pending, verdicts) ==>
              o.call in pending && o.call.id in verdicts && (o.plan.Execute? <==> o.call.id in Approved(verdicts))
  {
    if pending != [] {
      VerdictDecides(pending[1..], verdicts);
      assert pending == [pending[0]] + pending[1..];
    }
  }

  lemma DecidedCalls(pending: seq<ToolCall>, verdicts: Verdicts)
    requires pending != []
    ensures CallsOfOrders(DecidedOrders(pending, verdicts)) ==
            (if pending[0].id in verdicts then [pending[0]] else []) + CallsOfOrders(DecidedOrders(pending[1..], verdicts))
  {
  }

  lemma {:induction false} DecidedDistinct(pending: seq<ToolCall>, verdicts: Verdicts)
    requires Distinct(pending)
    ensures Distinct(CallsOfOrders(DecidedOrders(pending, verdicts)))
  {
    if pending != [] {
      var rest := CallsOfOrders(DecidedOrders(pending[1..], verdicts));
      DecidedDistinct(pending[1..], verdicts);
      DecidedMembers(pending[1..], verdicts);
      DecidedCalls(pending, verdicts);
      forall k | 0 <= k < |rest| ensures rest[k].id != pending[0].id {
        assert rest[k] in pending[1..];
      }
    }
  }

  lemma DecidedIds(pending: seq<ToolCall>, verdicts: Verdicts)
    ensures Ids(CallsOfOrders(DecidedOrders(pending, verdicts))) == Ids(pending) * verdicts.Keys
    ensures Except(pending, Ids(CallsOfOrders(DecidedOrders(pending, verdicts)))) == StillPending(pending, verdicts)
  {
    DecidedMembers(pending, verdicts);
    SameExcept(pending, Ids(CallsOfOrders(DecidedOrders(pending, verdicts))), verdicts.Keys);
  }

  lemma {:induction false} SameExcept(calls: seq<ToolCall>, s: set<string>, t: set<string>)
    requires forall c :: c in calls ==> (c.id in s <==> c.id in t)
    ensures Except(calls, s) == Except(calls, t)
  {
    if calls != [] {
      assert calls[0] in calls && forall c :: c in calls[1..] ==> c in calls;
      SameExcept(calls[1..], s, t);
    }
  }

  lemma {:induction false} NoneStoppedWhenNeverCancelled(orders: seq<Order>, tools: Tools)
    requires forall o :: o in orders ==> !tools(o.call).CancelFirst?
    ensures !AnyStopped(orders, tools)
    ensures CallsIn(Settled(orders, tools)) == CallsOfOrders(orders)
  {
    if orders != [] {
      var init, last := orders[..|orders| - 1], orders[|orders| - 1];
      assert orders == init + [last];
      NoneStoppedWhenNeverCancelled(init, tools);
      assert CallsOfOrders(orders) == CallsOfOrders(init) + [last.call];
      assert CallsIn(Settled(orders, tools)) == CallsIn(Settled(init, tools)) + [last.call];
    }
  }

  /** A batch of verdicts resolves exactly the pending calls it names and leaves exactly the
      others, in transcript order. */
  lemma ResolvesExactly(state: RunState, verdicts: Verdicts, tools: Tools)
    requires WellFormed(state.messages) && NeverCancelled(tools, UnmatchedToolCalls(state.messages))
    ensures WellFormed(ResolveWith(state, verdicts, tools).messages)
    ensures UnmatchedToolCalls(ResolveWith(state, verdicts, tools).messages) ==
            StillPending(UnmatchedToolCalls(state.messages), verdicts)
  {
    var pending := UnmatchedToolCalls(state.messages);
    var orders := DecidedOrders(pending, verdicts);
    SatisfiedWereCalled(state.messages);
    DecidedMembers(pending, verdicts);
    DecidedDistinct(pending, verdicts);
    DecidedIds(pending, verdicts);
    NoneStoppedWhenNeverCancelled(orders, tools);
    FoldKeepsOthers(state, Settled(orders, tools));
  }

  lemma {:induction false} FoldConcat(state: RunState, a: seq<Resolved>, b: seq<Resolved>)
    ensures FoldResults(FoldResults(state, a), b) == FoldResults(state, a + b)
  {
    if b == [] {
      assert a + b == a;
    } else {
      FoldConcat(state, a, b[..|b| - 1]);
      assert (a + b)[..|a + b| - 1] == a + b[..|b| - 1];
    }
  }

  lemma {:induction false} SettledConcat(a: seq<Order>, b: seq<Order>, tools: Tools)
    ensures Settled(a + b, tools) == Settled(a, tools) + Settled(b, tools)
  {
    if b == [] {
      assert a + b == a;
    } else {
      SettledConcat(a, b[..|b| - 1], tools);
      assert (a + b)[..|a + b| - 1] == a + b[..|b| - 1];
    }
  }

  lemma {:induction false} DecidedConcat(a: seq<ToolCall>, b: seq<ToolCall>, verdicts: Verdicts)
    ensures DecidedOrders(a + b, verdicts) == DecidedOrders(a, verdicts) + DecidedOrders(b, verdicts)
  {
    if a == [] {
      assert a + b == b;
    } else {
      DecidedConcat(a[1..], b, verdicts);
      assert (a + b)[0] == a[0] && (a + b)[1..] == a[1..] + b;
      var head := if a[0].id in verdicts then [ExecuteVerdict(a[0], verdicts[a[0].id])] else [];
      OrdersAssoc(head, DecidedOrders(a[1..], verdicts), DecidedOrders(b, verdicts));
    }
  }

  lemma OrdersAssoc(a: seq<Order>, b: seq<Order>, c: seq<Order>)
    ensures a + b + c == a + (b + c)
  {
  }

  lemma {:induction false} NothingDecided(pending: seq<ToolCall>, verdicts: Verdicts)
    requires forall c :: c in pending ==> c.id !in verdicts
    ensures DecidedOrders(pending, verdicts) == []
  {
    if pending != [] {
      assert pending[0] in pending && forall c :: c in pending[1..] ==> c in pending;
      NothingDecided(pending[1..], verdicts);
    }
  }

  lemma ExceptHead(calls: seq<ToolCall>)
    requires Distinct(calls) && calls != []
    ensures Except(calls, {calls[0].id}) == calls[1..]
  {
    forall c | c in calls[1..] ensures c.id != calls[0].id {
      var k :| 1 <= k < |calls| && calls[k] == c;
    }
    ExceptNone(calls[1..], {calls[0].id});
  }

  /** Among the pending calls a single verdict for the first one decides exactly that one. */
  lemma FirstDecided(pending: seq<ToolCall>, verdicts: Verdicts)
    requires Distinct(pending) && pending != [] && pending[0].id in verdicts
    ensures var one := map[pending[0].id := verdicts[pending[0].id]];
      && DecidedOrders(pending, one) == DecidedOrders(pending[..1], verdicts)
      && StillPending(pending, one) == pending[1..]
  {
    var one := map[pending[0].id := verdicts[pending[0].id]];
    assert one.Keys == {pending[0].id};
    ExceptHead(pending);
    assert forall c :: c in pending[1..] ==> exists k :: 1 <= k < |pending| && pending[k] == c;
    NothingDecided(pending[1..], one);
    var order := ExecuteVerdict(pending[0], verdicts[pending[0].id]);
    assert pending[..1] == [pending[0]];
    assert DecidedOrders(pending[..1], verdicts) == [order] + DecidedOrders([], verdicts) == [order];
    assert DecidedOrders(pending, one) == [order] + [] == [order];
  }

  /** Answering only the first pending call: its result is appended and the rest moves up. */
  lemma AnswerFirst(state: RunState, verdicts: Verdicts, tools: Tools)
    requires WellFormed(state.messages)
    requires var pending := UnmatchedToolCalls(state.messages);
      pending != [] && pending[0].id in verdicts && NeverCancelled(tools, pending)
    ensures var pending := UnmatchedToolCalls(state.messages);
      var next := ResolveWith(state, map[pending[0].id := verdicts[pending[0].id]], tools);
      && WellFormed(next.messages) && UnmatchedToolCalls(next.messages) == pending[1..]
      && next == Resolve(state, pending[..1], verdicts, tools)
  {
    var pending := UnmatchedToolCalls(state.messages);
    SatisfiedWereCalled(state.messages);
    FirstDecided(pending, verdicts);
    ResolvesExactly(state, map[pending[0].id := verdicts[pending[0].id]], tools);
  }

  lemma ResolveConcat(state: RunState, a: seq<ToolCall>, b: seq<ToolCall>, verdicts: Verdicts, tools: Tools)
    ensures Resolve(state, a + b, verdicts, tools) == Resolve(Resolve(state, a, verdicts, tools), b, verdicts, tools)
  {
    var first, rest := DecidedOrders(a, verdicts), DecidedOrders(b, verdicts);
    DecidedConcat(a, b, verdicts);
    SettledConcat(first, rest, tools);
    FoldConcat(state, Settled(first, tools), Settled(rest, tools));
  }

  lemma RestOfLine(pending: seq<ToolCall>, verdicts: Verdicts, tools: Tools)
    requires pending != [] && Ids(pending) <= verdicts.Keys && NeverCancelled(tools, pending)
    ensures Ids(pending[1..]) <= verdicts.Keys && NeverCancelled(tools, pending[1..])
  {
    assert forall c :: c in pending[1..] ==> c in pending;
  }

  lemma OneMore(state: RunState, verdicts: Verdicts, tools: Tools, n: nat)
    requires WellFormed(state.messages)
    requires var pending := UnmatchedToolCalls(state.messages);
      0 < n <= |pending| && Ids(pending) <= verdicts.Keys && NeverCancelled(tools, pending)
    ensures var pending := UnmatchedToolCalls(state.messages);
      var next := Resolve(state, pending[..1], verdicts, tools);
      && WellFormed(next.messages) && UnmatchedToolCalls(next.messages) == pending[1..]
      && Ids(pending[1..]) <= verdicts.Keys && NeverCancelled(tools, pending[1..])
      && OneAtATime(state, verdicts, tools, n) == OneAtATime(next, verdicts, tools, n - 1)
  {
    var pending := UnmatchedToolCalls(state.messages);
    assert pending[0] in pending && pending[0].id in Ids(pending);
    AnswerFirst(state, verdicts, tools);
    RestOfLine(pending, verdicts, tools);
  }

  lemma {:induction false} OneAtATimeFolds(state: RunState, verdicts: Verdicts, tools: Tools, n: nat)
    requires WellFormed(state.messages)
    requires var pending := UnmatchedToolCalls(state.messages);
      n <= |pending| && Ids(pending) <= verdicts.Keys && NeverCancelled(tools, pending)
    ensures OneAtATime(state, verdicts, tools, n) ==
            Resolve(state, UnmatchedToolCalls(state.messages)[..n], verdicts, tools)
    decreases n
  {
    var pending := UnmatchedToolCalls(state.messages);
    if n > 0 {
      OneMore(state, verdicts, tools, n);
      OneAtATimeFolds(Resolve(state, pending[..1], verdicts, tools), verdicts, tools, n - 1);
      ResolveConcat(state, pending[..1], pending[1..][..n - 1], verdicts, tools);
      FirstAndRest(pending, n);
    }
  }

  lemma FirstAndRest(calls: seq<ToolCall>, n: nat)
    requires 0 < n <= |calls|
    ensures calls[..n] == calls[..1] + calls[1..][..n - 1]
  {
  }

  /** One batch of verdicts for every pending call and the same verdicts given one at a time
      produce the same transcript, with nothing pending. */
  lemma BatchEqualsOneAtATime(state: RunState, verdicts: Verdicts, tools: Tools)
    requires WellFormed(state.messages)
    requires PendingIds(state) <= verdicts.Keys && NeverCancelled(tools, UnmatchedToolCalls(state.messages))
    ensures OneAtATime(state, verdicts, tools, |UnmatchedToolCalls(state.messages)|) == ResolveWith(state, verdicts, tools)
    ensures UnmatchedToolCalls(ResolveWith(state, verdicts, tools).messages) == []
  {
    var pending := UnmatchedToolCalls(state.messages);
    OneAtATimeFolds(state, verdicts, tools, |pending|);
    assert pending[..|pending|] == pending;
    ResolvesExactly(state, verdicts, tools);
    ExceptAll(pending, verdicts.Keys);
  }

  /** In whatever portions verdicts arrive, the same calls are pending afterwards. */
  lemma PortionsLeaveTheSame(state: RunState, first: Verdicts, second: Verdicts, tools: Tools)
    requires WellFormed(state.messages) && NeverCancelled(tools, UnmatchedToolCalls(state.messages))
    ensures UnmatchedToolCalls(ResolveWith(ResolveWith(state, first, tools), second, tools).messages)
            == UnmatchedToolCalls(ResolveWith(state, first + second, tools).messages)
  {
    var pending := UnmatchedToolCalls(state.messages);
    ResolvesExactly(state, first, tools);
    ExceptIds(pending, first.Keys);
    ResolvesExactly(ResolveWith(state, first, tools), second, tools);
    ResolvesExactly(state, first + second, tools);
    ExceptTwice(pending, first.Keys, second.Keys);
    assert (first + second).Keys == first.Keys + second.Keys;
  }
}
