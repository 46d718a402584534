/** What the policy and a human's verdicts mean for what runs and what the transcript says, told call by
    call without the batches that carry it out (`events/tool_step.py`). */
module Decisions {
  import opened Domain
  import opened Transcript
  import opened Protocol
  import opened Lifecycle
  import opened ToolStep
  import opened Approvals
  import opened Batch
  import opened Turns
  import opened Outcomes

  /** What is decided about a call: it may run, it is refused with a message, or it waits. */
  datatype Ruling = Runs | Refused(message: string) | Waits

  type Rule = ToolCall -> Ruling

  function ByPolicy(decision: ToolDecision): Ruling {
    match decision
    case Allow => Runs
    case Deny => Refused("denied by tool policy")
    case NeedsApproval => Waits
  }

  /** A reason that is missing or empty is not shown. */
  function ByVerdict(verdict: Verdict): Ruling {
    match verdict
    case Approve => Runs
    case Reject(None) => Refused("denied by user")
    case Reject(Some(reason)) => Refused(if reason == "" then "denied by user" else "denied by user (reason: " + reason + ")")
  }

  function PolicyRule(policy: Policy): Rule { (c: ToolCall) => ByPolicy(policy(c)) }

  function VerdictRule(verdicts: Verdicts): Rule {
    (c: ToolCall) => if c.id in verdicts then ByVerdict(verdicts[c.id]) else Waits
  }

  // ----- what must be seen and said -----

  /** Every call that does not wait is opened, in order. */
  function Opens(calls: seq<ToolCall>, rule: Rule): seq<Event> {
    if calls == [] then [] else (if rule(calls[0]).Waits? then [] else [Before(calls[0].id)]) + Opens(calls[1..], rule)
  }

  /** Only the calls that may run start. */
  function Starts(calls: seq<ToolCall>, rule: Rule): seq<Event> {
    if calls == [] then [] else (if rule(calls[0]).Runs? then [Begin(calls[0].id)] else []) + Starts(calls[1..], rule)
  }

  /** A refused call has its result at once; one that runs has it unless it lost to the cancellation. */
  predicate HasResult(ruling: Ruling, race: Race<ToolResult>) {
    ruling.Refused? || (ruling.Runs? && !race.CancelFirst?)
  }

  function Says(ruling: Ruling, race: Race<ToolResult>): string
    requires HasResult(ruling, race)
  {
    if ruling.Refused? then ruling.message else race.result.content
  }

  function Close(c: ToolCall, ruling: Ruling, race: Race<ToolResult>): seq<Event> {
    if HasResult(ruling, race) then [After(c.id)] else []
  }

  function Closes(calls: seq<ToolCall>, rule: Rule, tools: Tools): seq<Event> {
    if calls == [] then [] else Close(calls[0], rule(calls[0]), tools(calls[0])) + Closes(calls[1..], rule, tools)
  }

  /** The result a call gets, as it stands in the transcript. */
  function ResultMessage(c: ToolCall, content: string): Message { Message(Tool, content, [], Some(c.id), "") }

  function Tell(c: ToolCall, ruling: Ruling, race: Race<ToolResult>): seq<Message> {
    if HasResult(ruling, race) then [ResultMessage(c, Says(ruling, race))] else []
  }

  /** The results, in the order of their calls. */
  function Told(calls: seq<ToolCall>, rule: Rule, tools: Tools): seq<Message> {
    if calls == [] then [] else Tell(calls[0], rule(calls[0]), tools(calls[0])) + Told(calls[1..], rule, tools)
  }

  /** All that is seen of a batch. */
  function Doings(calls: seq<ToolCall>, rule: Rule, tools: Tools): seq<Event> {
    Opens(calls, rule) + Starts(calls, rule) + Closes(calls, rule, tools)
  }

  /** Only a call that ran can ask for another. */
  function AskFor(c: ToolCall, ruling: Ruling, race: Race<ToolResult>): seq<ToolCall> {
    if ruling.Runs? && !race.CancelFirst? && race.result.followUp.Some? then
      [ToolCall(c.id + ":follow-up", race.result.followUp.value.toolName, race.result.followUp.value.arguments)]
    else []
  }

  /** The calls asked for, in the order of the calls that ask. */
  function Asked(calls: seq<ToolCall>, rule: Rule, tools: Tools): seq<ToolCall> {
    if calls == [] then [] else AskFor(calls[0], rule(calls[0]), tools(calls[0])) + Asked(calls[1..], rule, tools)
  }

  // ----- a batch that carries a rule out -----

  /** The orders are the calls that do not wait, in order, each with what was ruled. */
  predicate Carries(orders: seq<Order>, calls: seq<ToolCall>, rule: Rule) {
    if calls == [] then orders == []
    else match rule(calls[0])
      case Waits => Carries(orders, calls[1..], rule)
      case Runs => orders != [] && orders[0] == Order(calls[0], Plan.Execute) && Carries(orders[1..], calls[1..], rule)
      case Refused(m) => orders != [] && orders[0] == Order(calls[0], Refuse(m)) && Carries(orders[1..], calls[1..], rule)
  }

  lemma {:induction false} RunnableCarries(calls: seq<ToolCall>, policy: Policy)
    ensures Carries(Runnable(calls, policy), calls, PolicyRule(policy))
  {
    if calls != [] {
      RunnableCarries(calls[1..], policy);
      if !policy(calls[0]).NeedsApproval? {
        assert Runnable(calls, policy)[1..] == Runnable(calls[1..], policy);
      } else {
        assert Runnable(calls, policy) == Runnable(calls[1..], policy);
      }
    }
  }

  lemma RefusalText(reason: string)
    ensures "denied by user" + (" (reason: " + reason + ")") == "denied by user (reason: " + reason + ")"
    ensures "denied by user" + "" == "denied by user"
  {
    assert "denied by user" + " (reason: " == "denied by user (reason: ";
  }

  lemma VerdictCarried(c: ToolCall, verdict: Verdict)
    ensures ExecuteVerdict(c, verdict) ==
            match ByVerdict(verdict)
            case Refused(m) => Order(c, Refuse(m))
            case _ => Order(c, Plan.Execute)
    ensures !ByVerdict(verdict).Waits?
  {
    RefusalText(if verdict.Reject? && verdict.reason.Some? then verdict.reason.value else "");
  }

  lemma {:induction false} DecidedCarries(pending: seq<ToolCall>, verdicts: Verdicts)
    ensures Carries(DecidedOrders(pending, verdicts), pending, VerdictRule(verdicts))
  {
    if pending != [] {
      DecidedCarries(pending[1..], verdicts);
      if pending[0].id in verdicts {
        VerdictCarried(pending[0], verdicts[pending[0].id]);
        assert DecidedOrders(pending, verdicts)[1..] == DecidedOrders(pending[1..], verdicts);
      } else {
        assert DecidedOrders(pending, verdicts) == DecidedOrders(pending[1..], verdicts);
      }
    }
  }

  lemma {:induction false} BegunConcat(a: seq<Order>, b: seq<Order>)
    ensures Begun(a + b) == Begun(a) + Begun(b)
  {
    if b == [] {
      assert a + b == a;
    } else {
      BegunConcat(a, b[..|b| - 1]);
      assert (a + b)[..|a + b| - 1] == a + b[..|b| - 1];
    }
  }

  lemma {:induction false} SynthesizedConcat(a: seq<Resolved>, b: seq<Resolved>)
    ensures Synthesized(a + b) == Synthesized(a) + Synthesized(b)
  {
    if b == [] {
      assert a + b == a;
    } else {
      var init, last := b[..|b| - 1], b[|b| - 1];
      SynthesizedConcat(a, init);
      assert (a + b)[..|a + b| - 1] == a + init && (a + b)[|a + b| - 1] == last;
      ConcatAssoc(Synthesized(a), Synthesized(init), Synthesize(last));
    }
  }

  /** The messages folding adds, one per result. */
  function Folded(rs: seq<Resolved>): seq<Message> {
    seq(|rs|, i requires 0 <= i < |rs| => ToolMessage(rs[i].call.id, rs[i].result.content))
  }

  lemma {:induction false} FoldAdds(state: RunState, rs: seq<Resolved>)
    ensures FoldResults(state, rs).messages == state.messages + Folded(rs)
  {
    if rs != [] {
      FoldAdds(state, rs[..|rs| - 1]);
    }
  }

  lemma SettledFirst(order: Order, rest: seq<Order>, tools: Tools)
    ensures Settled([order] + rest, tools) ==
            (match Outcome(order, tools) case Done(r) => [Resolved(order.call, r)] case Stopped => []) + Settled(rest, tools)
  {
    assert [order][..0] == [];
    SettledConcat([order], rest, tools);
  }

  /** What the first result adds. */
  lemma FirstResolved(r: Resolved, rest: seq<Resolved>)
    ensures Ended([r] + rest) == [After(r.call.id)] + Ended(rest)
    ensures Folded([r] + rest) == [ToolMessage(r.call.id, r.result.content)] + Folded(rest)
    ensures Synthesized([r] + rest) == Synthesize(r) + Synthesized(rest)
  {
    assert [r][..0] == [];
    SynthesizedConcat([r], rest);
  }

  /** What the first order adds. */
  lemma FirstOrder(order: Order, rest: seq<Order>)
    ensures Announced([order] + rest) == [Before(order.call.id)] + Announced(rest)
    ensures Begun([order] + rest) == (if order.plan.Execute? then [Begin(order.call.id)] else []) + Begun(rest)
  {
    assert [order][..0] == [];
    assert Begun([order]) == (if order.plan.Execute? then [Begin(order.call.id)] else []);
    BegunConcat([order], rest);
  }

  /** A batch opens and starts what was ruled. */
  lemma {:induction false} BatchOpens(orders: seq<Order>, calls: seq<ToolCall>, rule: Rule)
    requires Carries(orders, calls, rule)
    ensures Announced(orders) == Opens(calls, rule) && Begun(orders) == Starts(calls, rule)
  {
    if calls == [] {
    } else if rule(calls[0]).Waits? {
      BatchOpens(orders, calls[1..], rule);
    } else {
      var order, rest := orders[0], orders[1..];
      assert orders == [order] + rest;
      FirstOrder(order, rest);
      BatchOpens(rest, calls[1..], rule);
    }
  }

  /** What the results of a batch amount to: events, messages, and calls asked for. */
  predicate Amount(settled: seq<Resolved>, closes: seq<Event>, told: seq<Message>, asked: seq<ToolCall>) {
    Ended(settled) == closes && Folded(settled) == told && Synthesized(settled) == asked
  }

  /** An order comes to what was ruled. */
  lemma OrderAsRuled(order: Order, ruling: Ruling, tools: Tools)
    requires order.plan == (if ruling.Refused? then Refuse(ruling.message) else Plan.Execute) && !ruling.Waits?
    ensures HasResult(ruling, tools(order.call)) <==> Outcome(order, tools).Done?
    ensures Outcome(order, tools).Done? ==> Outcome(order, tools).result.content == Says(ruling, tools(order.call))
    ensures match Outcome(order, tools)
            case Done(r) => Synthesize(Resolved(order.call, r)) == AskFor(order.call, ruling, tools(order.call))
            case Stopped => AskFor(order.call, ruling, tools(order.call)) == []
  {
  }

  lemma AmountOfFirst(order: Order, ruling: Ruling, rest: seq<Order>, tools: Tools, closes: seq<Event>, told: seq<Message>,
                      asked: seq<ToolCall>)
    requires Amount(Settled(rest, tools), closes, told, asked)
    requires order.plan == (if ruling.Refused? then Refuse(ruling.message) else Plan.Execute) && !ruling.Waits?
    ensures var c, race := order.call, tools(order.call);
      Amount(Settled([order] + rest, tools), Close(c, ruling, race) + closes, Tell(c, ruling, race) + told,
             AskFor(c, ruling, race) + asked)
  {
    OrderAsRuled(order, ruling, tools);
    SettledFirst(order, rest, tools);
    if Outcome(order, tools).Done? {
      FirstResolved(Resolved(order.call, Outcome(order, tools).result), Settled(rest, tools));
    } else {
      NothingAdded(Settled(rest, tools), closes, told, asked);
    }
  }

  lemma NothingAdded(settled: seq<Resolved>, closes: seq<Event>, told: seq<Message>, asked: seq<ToolCall>)
    ensures [] + settled == settled && [] + closes == closes && [] + told == told && [] + asked == asked
  {
  }

  /** And its results are those of the calls that ran, and the refusals. */
  lemma {:induction false} BatchResults(orders: seq<Order>, calls: seq<ToolCall>, rule: Rule, tools: Tools)
    requires Carries(orders, calls, rule)
    ensures Amount(Settled(orders, tools), Closes(calls, rule, tools), Told(calls, rule, tools), Asked(calls, rule, tools))
  {
    if calls != [] {
      var c, closes, told, asked := calls[0], Closes(calls[1..], rule, tools), Told(calls[1..], rule, tools),
                                    Asked(calls[1..], rule, tools);
      if rule(c).Waits? {
        BatchResults(orders, calls[1..], rule, tools);
        NothingAdded(Settled(orders, tools), closes, told, asked);
      } else {
        BatchResults(orders[1..], calls[1..], rule, tools);
        assert orders == [orders[0]] + orders[1..];
        AmountOfFirst(orders[0], rule(c), orders[1..], tools, closes, told, asked);
      }
    }
  }

  // ----- call by call -----

  /** Among distinct calls each is opened, started, closed and answered as was ruled about it. */
  lemma {:induction false} EachAsRuled(calls: seq<ToolCall>, rule: Rule, tools: Tools, id: string)
    ensures Before(id) in Opens(calls, rule) <==> exists c :: c in calls && c.id == id && !rule(c).Waits?
    ensures Begin(id) in Starts(calls, rule) <==> exists c :: c in calls && c.id == id && rule(c).Runs?
    ensures After(id) in Closes(calls, rule, tools) <==> exists c :: c in calls && c.id == id && HasResult(rule(c), tools(c))
    ensures forall e :: e in Opens(calls, rule) ==> e.Before?
    ensures forall e :: e in Starts(calls, rule) ==> e.Begin?
    ensures forall e :: e in Closes(calls, rule, tools) ==> e.After?
  {
    if calls != [] {
      var c, rest := calls[0], calls[1..];
      assert calls == [c] + rest;
      EachAsRuled(rest, rule, tools, id);
    }
  }

  lemma {:induction false} ToldOf(calls: seq<ToolCall>, rule: Rule, tools: Tools)
    ensures forall c :: c in calls && HasResult(rule(c), tools(c)) ==>
              ResultMessage(c, Says(rule(c), tools(c))) in Told(calls, rule, tools)
    ensures forall m :: m in Told(calls, rule, tools) ==>
              exists c :: c in calls && HasResult(rule(c), tools(c)) && m == ResultMessage(c, Says(rule(c), tools(c)))
  {
    if calls != [] {
      assert calls == [calls[0]] + calls[1..];
      ToldOf(calls[1..], rule, tools);
    }
  }

  /** What a batch is seen to do with one of its calls, and only with it. */
  predicate DoneAs(events: seq<Event>, id: string, ruling: Ruling, race: Race<ToolResult>) {
    && (Before(id) in events <==> !ruling.Waits?)
    && (Begin(id) in events <==> ruling.Runs?)
    && (After(id) in events <==> HasResult(ruling, race))
  }

  lemma RuledDone(calls: seq<ToolCall>, rule: Rule, tools: Tools, c: ToolCall)
    requires Distinct(calls) && c in calls
    ensures DoneAs(Doings(calls, rule, tools), c.id, rule(c), tools(c))
  {
    EachAsRuled(calls, rule, tools, c.id);
    forall d | d in calls && d.id == c.id ensures d == c {
      DistinctIds(calls, c, d);
    }
  }

  /** A batch of the model's calls opens a call if and only if it waits for nobody, starts it if and only
      if the policy allows it, and gives a denied one its refusal as result. */
  lemma PolicyIsObeyed(state: RunState, calls: seq<ToolCall>, policy: Policy, tools: Tools, c: ToolCall)
    requires Distinct(calls) && c in calls
    ensures var events := BatchEvents(Runnable(calls, policy), tools);
      && (Before(c.id) in events <==> !policy(c).NeedsApproval?)
      && (Begin(c.id) in events <==> policy(c).Allow?)
      && (After(c.id) in events <==> policy(c).Deny? || (policy(c).Allow? && !tools(c).CancelFirst?))
    ensures var ms := FirstBatch(state, calls, policy, tools).messages;
      && ms == state.messages + Told(calls, PolicyRule(policy), tools)
      && (policy(c).Deny? ==> ResultMessage(c, "denied by tool policy") in ms)
      && (policy(c).Allow? && !tools(c).CancelFirst? ==> ResultMessage(c, tools(c).result.content) in ms)
  {
    var rule := PolicyRule(policy);
    RunnableCarries(calls, policy);
    BatchOpens(Runnable(calls, policy), calls, rule);
    BatchResults(Runnable(calls, policy), calls, rule, tools);
    FoldAdds(state, Settled(Runnable(calls, policy), tools));
    RuledDone(calls, rule, tools, c);
    ToldOf(calls, rule, tools);
  }

  /** A batch of verdicts starts a call if and only if a human approved it; a rejected one is opened and
      gets the rejection, with the reason if there is one, as result. */
  lemma VerdictsAreObeyed(state: RunState, verdicts: Verdicts, tools: Tools, c: ToolCall)
    requires WellFormed(state.messages) && c in UnmatchedToolCalls(state.messages) && c.id in verdicts
    ensures var events, verdict := BatchEvents(DecidedOrders(UnmatchedToolCalls(state.messages), verdicts), tools), verdicts[c.id];
      && Before(c.id) in events
      && (Begin(c.id) in events <==> verdict.Approve?)
      && (After(c.id) in events <==> verdict.Reject? || !tools(c).CancelFirst?)
    ensures var ms, verdict := ResolveWith(state, verdicts, tools).messages, verdicts[c.id];
      && ms == state.messages + Told(UnmatchedToolCalls(state.messages), VerdictRule(verdicts), tools)
      && (verdict.Approve? && !tools(c).CancelFirst? ==> ResultMessage(c, tools(c).result.content) in ms)
      && (verdict.Reject? && (verdict.reason.None? || verdict.reason.value == "") ==> ResultMessage(c, "denied by user") in ms)
      && (verdict.Reject? && verdict.reason.Some? && verdict.reason.value != "" ==>
            ResultMessage(c, "denied by user (reason: " + verdict.reason.value + ")") in ms)
  {
    var pending, rule := UnmatchedToolCalls(state.messages), VerdictRule(verdicts);
    var orders := DecidedOrders(pending, verdicts);
    SatisfiedWereCalled(state.messages);
    DecidedCarries(pending, verdicts);
    BatchOpens(orders, pending, rule);
    BatchResults(orders, pending, rule, tools);
    FoldAdds(state, Settled(orders, tools));
    RuledDone(pending, rule, tools, c);
    ToldOf(pending, rule, tools);
  }

  // ----- a turn's two batches -----

  /** The follow-up calls as assistant messages of their own. */
  function Spoken(calls: seq<ToolCall>): seq<Message> {
    seq(|calls|, i requires 0 <= i < |calls| => Message(Assistant, "", [calls[i]], None, ""))
  }

  lemma {:induction false} SyntheticsAdd(state: RunState, calls: seq<ToolCall>)
    ensures AppendSynthetics(state, calls).messages == state.messages + Spoken(calls)
  {
    if calls != [] {
      SyntheticsAdd(state, calls[..|calls| - 1]);
    }
  }

  /** The follow-ups a turn's results ask for. */
  function Wanted(calls: seq<ToolCall>, policy: Policy, tools: Tools): seq<ToolCall> {
    Asked(calls, PolicyRule(policy), tools)
  }

  /** What the tools of a turn nobody disturbed add to the transcript: the results, the follow-ups they
      ask for, and the results of those. */
  lemma TurnTranscript(start: RunState, calls: seq<ToolCall>, policy: Policy, tools: Tools)
    ensures FollowUps(calls, policy, tools) == Wanted(calls, policy, tools)
    ensures FirstBatch(start, calls, policy, tools).messages == start.messages + Told(calls, PolicyRule(policy), tools)
    ensures WithFollowUps(start, calls, policy, tools).messages ==
            FirstBatch(start, calls, policy, tools).messages + Spoken(Wanted(calls, policy, tools))
    ensures SecondBatch(start, calls, policy, tools).messages ==
            WithFollowUps(start, calls, policy, tools).messages + Told(Wanted(calls, policy, tools), PolicyRule(policy), tools)
  {
    var first, spun := FirstBatch(start, calls, policy, tools), FollowUps(calls, policy, tools);
    RunnableCarries(calls, policy);
    BatchResults(Runnable(calls, policy), calls, PolicyRule(policy), tools);
    FoldAdds(start, Settled(Runnable(calls, policy), tools));
    SyntheticsAdd(first, spun);
    RunnableCarries(spun, policy);
    BatchResults(Runnable(spun, policy), spun, PolicyRule(policy), tools);
    FoldAdds(AppendSynthetics(first, spun), Settled(Runnable(spun, policy), tools));
  }

  /** Some call that may run loses to the cancellation. */
  predicate LosesOne(calls: seq<ToolCall>, policy: Policy, tools: Tools) {
    exists c :: c in calls && policy(c).Allow? && tools(c).CancelFirst?
  }

  /** Some call waits for a human. */
  predicate HoldsOne(calls: seq<ToolCall>, policy: Policy) { exists c :: c in calls && policy(c).NeedsApproval? }

  lemma StopsIffOneLoses(calls: seq<ToolCall>, policy: Policy, tools: Tools)
    ensures Stops(calls, policy, tools) <==> LosesOne(calls, policy, tools)
    ensures Held(calls, policy) != [] <==> HoldsOne(calls, policy)
  {
    var orders, held := Runnable(calls, policy), Held(calls, policy);
    SplitMembers(calls, policy);
    PolicyDecides(calls, policy);
    if LosesOne(calls, policy, tools) {
      var c :| c in calls && policy(c).Allow? && tools(c).CancelFirst?;
      var k :| 0 <= k < |CallsOfOrders(orders)| && CallsOfOrders(orders)[k] == c;
      assert orders[k] in orders && Outcome(orders[k], tools).Stopped?;
    }
    if Stops(calls, policy, tools) {
      var k :| 0 <= k < |orders| && Outcome(orders[k], tools).Stopped?;
      assert orders[k] in orders;
    }
    if held != [] {
      assert held[0] in held;
    }
  }

  lemma BatchDoes(calls: seq<ToolCall>, policy: Policy, tools: Tools)
    ensures BatchEvents(Runnable(calls, policy), tools) == Doings(calls, PolicyRule(policy), tools)
  {
    RunnableCarries(calls, policy);
    BatchOpens(Runnable(calls, policy), calls, PolicyRule(policy));
    BatchResults(Runnable(calls, policy), calls, PolicyRule(policy), tools);
  }

  /** What the two batches of a turn nobody disturbed are seen to do. */
  lemma TurnEvents(start: RunState, calls: seq<ToolCall>, policy: Policy, tools: Tools, turn: Turn)
    requires turn.fault.Never?
    ensures ToolEvents(start, calls, policy, tools, turn) ==
      Doings(calls, PolicyRule(policy), tools) +
      if LosesOne(calls, policy, tools) then []
      else Doings(FollowUps(calls, policy, tools), PolicyRule(policy), tools)
  {
    StopsIffOneLoses(calls, policy, tools);
    BatchDoes(calls, policy, tools);
    BatchDoes(FollowUps(calls, policy, tools), policy, tools);
  }

  /** A call that is not among those of a batch is not touched by it. */
  lemma NotTouched(calls: seq<ToolCall>, rule: Rule, tools: Tools, id: string)
    requires id !in Ids(calls)
    ensures var events := Doings(calls, rule, tools);
      Before(id) !in events && Begin(id) !in events && After(id) !in events
  {
    EachAsRuled(calls, rule, tools, id);
  }

  /** The calls a turn decides about: the model's, and the follow-ups unless the turn was cancelled
      before them. */
  predicate Ruled(c: ToolCall, calls: seq<ToolCall>, policy: Policy, tools: Tools) {
    c in calls || (!LosesOne(calls, policy, tools) && c in Wanted(calls, policy, tools))
  }

  /** Throughout a turn nobody disturbed, follow-ups included: a call is opened if and only if it waits for
      nobody, started if and only if the policy allows it, and closed if and only if it is denied or its
      tool finished. */
  lemma TurnObeysPolicy(start: RunState, calls: seq<ToolCall>, policy: Policy, tools: Tools, turn: Turn, c: ToolCall)
    requires turn.fault.Never? && Distinct(calls) && (forall d :: d in calls ==> !IsFollowUp(d.id))
    requires Ruled(c, calls, policy, tools)
    ensures var events := ToolEvents(start, calls, policy, tools, turn);
      && (Before(c.id) in events <==> !policy(c).NeedsApproval?)
      && (Begin(c.id) in events <==> policy(c).Allow?)
      && (After(c.id) in events <==> policy(c).Deny? || (policy(c).Allow? && !tools(c).CancelFirst?))
  {
    var rule, spun := PolicyRule(policy), Wanted(calls, policy, tools);
    TurnEvents(start, calls, policy, tools, turn);
    TurnTranscript(start, calls, policy, tools);
    FollowUpsDistinct(calls, policy, tools);
    FollowUpsAreFollowUps(Settled(Runnable(calls, policy), tools));
    if c in calls {
      RuledDone(calls, rule, tools, c);
      NotTouched(spun, rule, tools, c.id);
    } else {
      RuledDone(spun, rule, tools, c);
      NotTouched(calls, rule, tools, c.id);
    }
  }

  lemma InPart(base: seq<Message>, a: seq<Message>, b: seq<Message>, c: seq<Message>, m: Message)
    ensures m in a ==> m in (base + a)[|base|..] && m in (base + a + b + c)[|base|..]
    ensures m in c ==> m in (base + a + b + c)[|base|..]
  {
    assert (base + a)[|base|..] == a && (base + a + b + c)[|base|..] == a + b + c;
  }

  /** What became of one call stands in what was added to `base`. */
  predicate Recorded(base: seq<Message>, ms: seq<Message>, c: ToolCall, policy: Policy, tools: Tools) {
    && base <= ms
    && (policy(c).Deny? ==> ResultMessage(c, "denied by tool policy") in ms[|base|..])
    && (policy(c).Allow? && !tools(c).CancelFirst? ==> ResultMessage(c, tools(c).result.content) in ms[|base|..])
  }

  lemma RecordedIn(base: seq<Message>, a: seq<Message>, b: seq<Message>, e: seq<Message>, calls: seq<ToolCall>, policy: Policy,
                   tools: Tools, c: ToolCall)
    requires c in calls
    ensures a == Told(calls, PolicyRule(policy), tools) ==>
              Recorded(base, base + a, c, policy, tools) && Recorded(base, base + a + b + e, c, policy, tools)
    ensures e == Told(calls, PolicyRule(policy), tools) ==> Recorded(base, base + a + b + e, c, policy, tools)
  {
    var rule := PolicyRule(policy);
    ToldOf(calls, rule, tools);
    if HasResult(rule(c), tools(c)) {
      InPart(base, a, b, e, ResultMessage(c, Says(rule(c), tools(c))));
    }
  }

  /** And what such a turn leaves, whether it goes on, pauses or is cancelled, has the refusal of every
      denied call and the result of every tool that finished. */
  lemma TurnTells(start: RunState, calls: seq<ToolCall>, policy: Policy, tools: Tools, turn: Turn, c: ToolCall)
    requires turn.fault.Never? && turn.parting == QUIET && Ruled(c, calls, policy, tools)
    ensures match ToolsResult(start, calls, policy, tools, turn)
            case GoesOn(state) => Recorded(start.messages, state.messages, c, policy, tools)
            case Ends(_, final, _) => Recorded(start.messages, final.messages, c, policy, tools)
            case Dies(_) => false
  {
    var rule, spun := PolicyRule(policy), Wanted(calls, policy, tools);
    TurnTranscript(start, calls, policy, tools);
    StopsIffOneLoses(calls, policy, tools);
    ToolsSettle(start, calls, policy, tools, turn);
    if c in calls {
      RecordedIn(start.messages, Told(calls, rule, tools), Spoken(spun), Told(spun, rule, tools), calls, policy, tools, c);
    } else {
      RecordedIn(start.messages, Told(calls, rule, tools), Spoken(spun), Told(spun, rule, tools), spun, policy, tools, c);
    }
  }

  /** Where such a turn's tools leave the transcript. */
  lemma ToolsSettle(start: RunState, calls: seq<ToolCall>, policy: Policy, tools: Tools, turn: Turn)
    requires turn.fault.Never? && turn.parting == QUIET
    ensures var r, needs := ToolsResult(start, calls, policy, tools, turn), Needs(calls, policy, tools);
      r == if Stops(calls, policy, tools) then Ends(Cancelled, FirstBatch(start, calls, policy, tools), [])
           else if Stops(FollowUps(calls, policy, tools), policy, tools) then
             Ends(Cancelled, SecondBatch(start, calls, policy, tools), [])
           else if needs != [] then Ends(WaitingForApproval, SecondBatch(start, calls, policy, tools), needs)
           else GoesOn(SecondBatch(start, calls, policy, tools))
  {
  }
}
