/** What follow-up calls do to a Run: which of them a crash can forget, and how one beside a held call
    ends in a request that separates a result from its call. */
module FollowUps {
  import opened Domain
  import opened Transcript
  import opened Protocol
  import opened Lifecycle
  import opened ToolStep
  import opened Turns
  import opened Approvals
  import opened Pipeline
  import opened Tokens
  import opened Compaction
  import opened Outcomes
  import Batch
  import Harness
  import Hub
  import Loop

  // ----- a held call and a follow-up in one turn -----

  /** A turn with one call that runs at once and asks for a follow-up that also runs at once, and
      one call held for approval. */
  predicate MixedTurn(start: RunState, a: ToolCall, b: ToolCall, f: ToolCall, policy: Policy, tools: Tools) {
    && WellFormed(start.messages) && UnmatchedToolCalls(start.messages) == [a, b]
    && f.id == FollowUpId(a.id) && f.id !in Ids(CallsOf(start.messages))
    && policy(a).Allow? && policy(b).NeedsApproval? && policy(f).Allow?
    && tools(a).WorkFirst? && tools(b).WorkFirst? && tools(f).WorkFirst?
    && tools(a).result.followUp == Some(FollowUpCall(f.name, f.arguments))
  }

  lemma OneOrder(order: Order, tools: Tools)
    requires Outcome(order, tools).Done?
    ensures Settled([order], tools) == [Resolved(order.call, Outcome(order, tools).result)]
  {
    assert [order][..0] == [];
    assert [] + [Resolved(order.call, Outcome(order, tools).result)] == [Resolved(order.call, Outcome(order, tools).result)];
  }

  lemma FoldOne(state: RunState, r: Resolved)
    ensures FoldResults(state, [r]) == AppendToolResult(state, r.call, r.result)
  {
    assert [r][..0] == [];
  }

  lemma SplitOne(c: ToolCall, policy: Policy)
    ensures policy(c).NeedsApproval? ==> Runnable([c], policy) == [] && Held([c], policy) == [c]
    ensures policy(c).Allow? ==> Runnable([c], policy) == [ExecuteDecided(c, Allow)] && Held([c], policy) == []
  {
    assert [c][1..] == [];
  }

  lemma SplitTwo(a: ToolCall, b: ToolCall, policy: Policy)
    requires policy(a).Allow? && policy(b).NeedsApproval?
    ensures Runnable([a, b], policy) == [ExecuteDecided(a, Allow)] && Held([a, b], policy) == [b]
  {
    SplitOne(b, policy);
    assert [a, b][1..] == [b];
  }

  lemma AsksFor(a: ToolCall, f: ToolCall, result: ToolResult)
    requires f.id == FollowUpId(a.id) && result.followUp == Some(FollowUpCall(f.name, f.arguments))
    ensures Synthesized([Resolved(a, result)]) == [f]
  {
    assert [Resolved(a, result)][..0] == [];
    assert [] + [f] == [f];
  }

  lemma SynthesizeOne(state: RunState, f: ToolCall)
    ensures AppendSynthetics(state, [f]) == AppendSyntheticToolCall(state, f)
  {
    assert [f][..0] == [];
  }

  /** What the loop makes of such a turn before it pauses. */
  lemma Paused(start: RunState, a: ToolCall, b: ToolCall, f: ToolCall, policy: Policy, tools: Tools)
    requires MixedTurn(start, a, b, f, policy, tools)
    ensures SecondBatch(start, [a, b], policy, tools) ==
            AppendToolResult(AppendSyntheticToolCall(AppendToolResult(start, a, tools(a).result), f), f, tools(f).result)
  {
    var ran := Resolved(a, tools(a).result);
    SplitTwo(a, b, policy);
    OneOrder(ExecuteDecided(a, Allow), tools);
    AsksFor(a, f, tools(a).result);
    SplitOne(f, policy);
    OneOrder(ExecuteDecided(f, Allow), tools);
    FoldOne(start, ran);
    SynthesizeOne(AppendToolResult(start, a, tools(a).result), f);
    FoldOne(AppendSyntheticToolCall(AppendToolResult(start, a, tools(a).result), f), Resolved(f, tools(f).result));
  }

  lemma PendingAfterPause(start: RunState, a: ToolCall, b: ToolCall, f: ToolCall, policy: Policy, tools: Tools)
    requires MixedTurn(start, a, b, f, policy, tools)
    ensures var paused := SecondBatch(start, [a, b], policy, tools);
      WellFormed(paused.messages) && UnmatchedToolCalls(paused.messages) == [b] && f.id != b.id
  {
    Paused(start, a, b, f, policy, tools);
    SatisfiedWereCalled(start.messages);
    assert [a, b][0].id != [a, b][1].id;
    PendingWereCalled(start);
    assert [a, b][1] in [a, b] && [a, b][0] in [a, b];
    var one := AppendToolResult(start, a, tools(a).result);
    ResultSnoc(start, a, tools(a).result);
    ExceptHead([a, b]);
    SyntheticSnoc(one.messages, f);
    var two := AppendSyntheticToolCall(one, f);
    assert f in UnmatchedToolCalls(two.messages);
    ResultSnoc(two, f, tools(f).result);
    ExceptConcat([b], [f], {f.id});
    ExceptNone([b], {f.id});
    ExceptAll([f], {f.id});
  }

  lemma ApproveOne(state: RunState, b: ToolCall, tools: Tools)
    requires WellFormed(state.messages) && UnmatchedToolCalls(state.messages) == [b] && tools(b).WorkFirst?
    ensures ResolveWith(state, map[b.id := Approve], tools) == AppendToolResult(state, b, tools(b).result)
    ensures Closed(AppendToolResult(state, b, tools(b).result).messages)
  {
    var order := ExecuteVerdict(b, Approve);
    assert [b][1..] == [];
    assert DecidedOrders([b], map[b.id := Approve]) == [order] + [] == [order];
    OneOrder(order, tools);
    FoldOne(state, Resolved(b, tools(b).result));
    assert [b][0] in [b];
    ResultSnoc(state, b, tools(b).result);
    ExceptAll([b], {b.id});
  }

  /** The transcript of such a turn once the held call was approved. */
  function MixedTranscript(ms: seq<Message>, a: string, b: string, f: ToolCall, ra: string, rb: string, rf: string): seq<Message> {
    ms + [ToolMessage(a, ra)] + [Message(Assistant, "", [f], None, "")] + [ToolMessage(f.id, rf)] + [ToolMessage(b, rb)]
  }

  lemma EndOfMixedTurn(start: RunState, a: ToolCall, b: ToolCall, f: ToolCall, policy: Policy, tools: Tools)
    requires MixedTurn(start, a, b, f, policy, tools)
    ensures var done := ResolveWith(SecondBatch(start, [a, b], policy, tools), map[b.id := Approve], tools);
      && Closed(done.messages) && f.id != b.id
      && done.messages == MixedTranscript(start.messages, a.id, b.id, f, tools(a).result.content,
                                          tools(b).result.content, tools(f).result.content)
  {
    Paused(start, a, b, f, policy, tools);
    PendingAfterPause(start, a, b, f, policy, tools);
    ApproveOne(SecondBatch(start, [a, b], policy, tools), b, tools);
  }

  lemma OrphanAt(ms: seq<Message>, a: string, b: string, f: ToolCall, ra: string, rb: string, rf: string)
    requires f.id != b
    ensures var all := MixedTranscript(ms, a, b, f, ra, rb, rf);
      && AtBoundary(all, |ms| + 1) && !Paired(all[|ms| + 1..])
      && (Closed(all) ==> !Grouped(all))
  {
    var all := MixedTranscript(ms, a, b, f, ra, rb, rf);
    var tail := all[|ms| + 1..];
    assert tail[0] == Message(Assistant, "", [f], None, "");
    assert tail[1] == ToolMessage(f.id, rf);
    assert tail[2] == ToolMessage(b, rb);
    assert !Calls(tail[0], b) && !Calls(tail[1], b);
    assert !HasCall(tail, 2);
    if Closed(all) {
      CutsAreSafeIffGrouped(all);
    }
  }

  /** The automatic cut does land there: for every counter that finds a token in the follow-up, when
      the two results behind it are exactly what the keep budget holds. */
  lemma CutLandsBeforeFollowUp(counter: TokenCounter, state: RunState, ms: seq<Message>, a: string, b: string, f: ToolCall,
                               ra: string, rb: string, rf: string)
    requires state.messages == MixedTranscript(ms, a, b, f, ra, rb, rf) && Already(state) <= |ms|
    requires counter.countText(counter.dumpCalls([f])) > 0
    ensures IsCut(counter, state, counter.countText(rf) + counter.countText(rb), |ms| + 1)
  {
    var all, s, keep := state.messages, |ms| + 1, counter.countText(rf) + counter.countText(rb);
    assert all[s] == Message(Assistant, "", [f], None, "") && "" + counter.dumpCalls([f]) == counter.dumpCalls([f]);
    assert all[s + 1] == ToolMessage(f.id, rf) && all[s + 2] == ToolMessage(b, rb);
    assert TailTokens(counter, all, s + 3) == 0;
    assert TailTokens(counter, all, s + 2) == counter.countText(rb);
    assert TailTokens(counter, all, s + 1) == keep;
    forall k | s < k <= |all| ensures TailTokens(counter, all, k) <= keep {
      TailGrows(counter, all, s + 1, k);
    }
    assert ShortestOverflow(counter, all, keep, Already(state), s) && SnapsTo(all, s, s);
  }

  /** With the default counter, and any two results that are not empty, the handler's keep budget can
      be that number. */
  lemma DefaultCounterCutsThere(dumpCalls: seq<ToolCall> -> string, f: ToolCall, rb: string, rf: string)
    requires dumpCalls([f]) != "" && rb != "" && rf != ""
    ensures var counter := TokenCounter(ApproxCount, dumpCalls);
      && counter.countText(counter.dumpCalls([f])) > 0
      && counter.countText(rf) + counter.countText(rb) >= 1
  {
  }

  lemma OrphanBehind(first: Message, second: Message, tail: seq<Message>, f: ToolCall, rf: string, b: string, rb: string)
    requires first.toolCalls == [] && second.toolCalls == [] && f.id != b
    requires tail == [Message(Assistant, "", [f], None, ""), ToolMessage(f.id, rf), ToolMessage(b, rb)]
    ensures !Paired([first] + ([second] + tail))
  {
    var request := [first] + ([second] + tail);
    assert request[4] == tail[2];
    assert request[0] == first && request[1] == second && request[2] == tail[0] && request[3] == tail[1];
    assert !HasCall(request, 4);
  }

  lemma OrphanInRequest(state: RunState, ms: seq<Message>, a: string, b: string, f: ToolCall, ra: string, rb: string,
                        rf: string, summary: string, prompt: string)
    requires state.messages == MixedTranscript(ms, a, b, f, ra, rb, rf) && f.id != b
    ensures !Paired(Assemble(state.(compaction := Some(CompactionState(summary, |ms| + 1))), prompt))
  {
    var tail := state.messages[|ms| + 1..];
    assert tail == [Message(Assistant, "", [f], None, ""), ToolMessage(f.id, rf), ToolMessage(b, rb)];
    OrphanBehind(SystemMessage(prompt), SummaryMessage(summary), tail, f, rf, b, rb);
  }

  lemma MixedBreaks(done: RunState, ms: seq<Message>, a: string, b: string, f: ToolCall, ra: string, rb: string, rf: string,
                    counter: TokenCounter, summary: string, prompt: string)
    requires done.messages == MixedTranscript(ms, a, b, f, ra, rb, rf) && Closed(done.messages)
    requires f.id != b && Already(done) <= |ms| && counter.countText(counter.dumpCalls([f])) > 0
    ensures !Grouped(done.messages)
    ensures IsCut(counter, done, counter.countText(rf) + counter.countText(rb), |ms| + 1)
    ensures !Paired(Assemble(done.(compaction := Some(CompactionState(summary, |ms| + 1))), prompt))
  {
    OrphanAt(ms, a, b, f, ra, rb, rf);
    CutLandsBeforeFollowUp(counter, done, ms, a, b, f, ra, rb, rf);
    OrphanInRequest(done, ms, a, b, f, ra, rb, rf, summary, prompt);
  }

  /** Approving the held call closes the transcript, but its result now stands behind the follow-up:
      the automatic cut may fall before the follow-up, and the next request then carries that result
      without its call. */
  lemma FollowUpsBreakGrouping(start: RunState, a: ToolCall, b: ToolCall, f: ToolCall, policy: Policy, tools: Tools,
                               counter: TokenCounter, summary: string, prompt: string)
    returns (done: RunState, keep: nat, cut: nat)
    requires MixedTurn(start, a, b, f, policy, tools) && Already(start) <= |start.messages|
    requires counter.countText(counter.dumpCalls([f])) > 0
    ensures done == ResolveWith(SecondBatch(start, [a, b], policy, tools), map[b.id := Approve], tools)
    ensures keep == counter.countText(tools(f).result.content) + counter.countText(tools(b).result.content)
    ensures Closed(done.messages) && !Grouped(done.messages) && IsCut(counter, done, keep, cut)
    ensures !Paired(Assemble(done.(compaction := Some(CompactionState(summary, cut))), prompt))
  {
    var ra, rb, rf := tools(a).result.content, tools(b).result.content, tools(f).result.content;
    done := ApprovedMixed(start, a, b, f, policy, tools);
    keep, cut := counter.countText(rf) + counter.countText(rb), |start.messages| + 1;
    MixedBreaks(done, start.messages, a.id, b.id, f, ra, rb, rf, counter, summary, prompt);
  }

  lemma ApprovedMixed(start: RunState, a: ToolCall, b: ToolCall, f: ToolCall, policy: Policy, tools: Tools)
    returns (done: RunState)
    requires MixedTurn(start, a, b, f, policy, tools)
    ensures done == ResolveWith(SecondBatch(start, [a, b], policy, tools), map[b.id := Approve], tools)
    ensures Closed(done.messages) && f.id != b.id && done.compaction == start.compaction
    ensures done.messages == MixedTranscript(start.messages, a.id, b.id, f, tools(a).result.content,
                                             tools(b).result.content, tools(f).result.content)
  {
    done := ResolveWith(SecondBatch(start, [a, b], policy, tools), map[b.id := Approve], tools);
    EndOfMixedTurn(start, a, b, f, policy, tools);
    MixedKeepsFolded(start, a, b, f, policy, tools);
  }

  lemma MixedKeepsFolded(start: RunState, a: ToolCall, b: ToolCall, f: ToolCall, policy: Policy, tools: Tools)
    requires MixedTurn(start, a, b, f, policy, tools)
    ensures ResolveWith(SecondBatch(start, [a, b], policy, tools), map[b.id := Approve], tools).compaction == start.compaction
  {
    Paused(start, a, b, f, policy, tools);
    PendingAfterPause(start, a, b, f, policy, tools);
    ApproveOne(SecondBatch(start, [a, b], policy, tools), b, tools);
  }

  // ----- such a turn can be reached -----

  const ASK := ToolCall("a", "subagent", "{}")
  const HELD := ToolCall("b", "bash", "{}")
  const MERGE := ToolCall(FollowUpId("a"), "merge", "{}")
  const ANSWER := ModelResponse("", [ASK, HELD], TokenUsage(1, 1, 0, 0), "")

  function ExamplePolicy(c: ToolCall): ToolDecision { if c == HELD then NeedsApproval else Allow }

  function ExampleTools(c: ToolCall): Race<ToolResult> {
    WorkFirst(ToolResult("done", false, if c == ASK then Some(FollowUpCall("merge", "{}")) else None))
  }

  /** A fresh Run that has sent its first request. */
  lemma FreshRunAsks(prompt: string) returns (log: seq<Action>, w: World, state: RunState)
    ensures log == [] + [Create(prompt, NO_SKILLS, 0)] + [Launch(1)] + [Ask] && Replay(log) == Some(w)
    ensures Loop.Waiting(w, state) && w.rec.value.updatedAt == 1 && w.rec.value.status.Running?
    ensures state.messages == [UserMessage(prompt)] && CallsOf(state.messages) == [] && state.compaction.None?
  {
    StartIsGood(prompt, NO_SKILLS);
    var c, l, created := Create(prompt, NO_SKILLS, 0), Launch(1), Created(INITIAL, prompt, NO_SKILLS, 0);
    ReplayOne([], INITIAL, c);
    ReplayOne([] + [c], created, l);
    ReplayOne([] + [c] + [l], Launched(created, 1), Ask);
    log, w, state := [] + [c] + [l] + [Ask], Asked(Launched(created, 1)), created.live.value.state;
  }

  lemma AnswerArrives(log: seq<Action>, w: World, state: RunState, r: ModelResponse, now: nat)
    requires Replay(log) == Some(w) && Loop.Waiting(w, state) && Fresh(r.toolCalls, state)
    requires w.rec.value.updatedAt < now && w.rec.value.status.Running?
    ensures Replay(log + [Reply(r)] + [Save(now)]) == Some(Saved(Replied(w, r), now))
    ensures Loop.Answered(Saved(Replied(w, r), now), AppendModelResponse(state, r), r.toolCalls)
    ensures CallsOf(AppendModelResponse(state, r).messages) == CallsOf(state.messages) + r.toolCalls
    ensures WellFormed(AppendModelResponse(state, r).messages)
  {
    Loop.AnswerIsPending(log, w, state, r, now);
    ReplayOne(log, w, Reply(r));
    ReplayOne(log + [Reply(r)], Replied(w, r), Save(now));
    HistoryKeeps(log + [Reply(r)]);
  }

  lemma ReplayOne(log: seq<Action>, w: World, a: Action)
    requires Replay(log) == Some(w) && Enabled(w, a)
    ensures Replay(log + [a]) == Some(Apply(w, a))
  {
    assert (log + [a])[..|log|] == log;
  }

  /** A follow-up beside a held call is not hypothetical: a fresh Run whose first answer is `ANSWER`
      has such a turn. */
  lemma MixedTurnIsReachable() returns (log: seq<Action>, start: RunState)
    ensures log == [] + [Create("go", NO_SKILLS, 0)] + [Launch(1)] + [Ask] + [Reply(ANSWER)] + [Save(2)]
    ensures Replay(log).Some? && Loop.Answered(Replay(log).value, start, [ASK, HELD])
    ensures Replay(log).value.rec.value.updatedAt == 2
    ensures MixedTurn(start, ASK, HELD, MERGE, ExamplePolicy, ExampleTools) && start.compaction.None?
  {
    var asked, w, state := FreshRunAsks("go");
    ExampleIdsDiffer(state);
    AnswerArrives(asked, w, state, ANSWER, 2);
    assert [] + ANSWER.toolCalls == [ASK, HELD];
    log, start := asked + [Reply(ANSWER)] + [Save(2)], AppendModelResponse(state, ANSWER);
  }

  lemma ExampleIdsDiffer(state: RunState)
    requires CallsOf(state.messages) == []
    ensures ASK != HELD && MERGE != HELD && MERGE != ASK
    ensures Fresh(ANSWER.toolCalls, state) && MERGE.id !in Ids([ASK, HELD])
  {
    assert "a"[0] != "b"[0];
    assert |MERGE.id| > 1;
  }

  // ----- which follow-ups a crash can forget -----

  lemma PendingAfterTurn(start: RunState, calls: seq<ToolCall>, policy: Policy, tools: Tools)
    requires WellFormed(start.messages) && UnmatchedToolCalls(start.messages) == calls
    requires WellFormed(WithFollowUps(start, calls, policy, tools).messages)
    requires !Stops(calls, policy, tools) && !Stops(FollowUps(calls, policy, tools), policy, tools)
    ensures UnmatchedToolCalls(SecondBatch(start, calls, policy, tools).messages) == Needs(calls, policy, tools)
  {
    var held, synthetic := Held(calls, policy), FollowUps(calls, policy, tools);
    var orders, before := Runnable(synthetic, policy), WithFollowUps(start, calls, policy, tools);
    FirstBatchPends(start, calls, policy, tools);
    SyntheticsPending(FirstBatch(start, calls, policy, tools), held, synthetic);
    SecondBatchFolds(start, calls, policy, tools);
    FoldKeepsOthers(before, Settled(orders, tools));
    NoneStopped(orders, tools);
    SatisfiedWereCalled(before.messages);
    DistinctParts(held, synthetic);
    SplitIds(synthetic, policy);
    ExceptConcat(held, synthetic, Ids(CallsOfOrders(orders)));
    ExceptNone(held, Ids(CallsOfOrders(orders)));
  }

  /** Wherever a follow-up is opened, in its own turn or for a verdict after the pause, it is in the
      stored transcript at that moment if and only if the policy held it for approval: the pause
      stores it, whereas one that may run at once is opened before anything is written. */
  lemma FollowUpStoredIffHeld(start: RunState, calls: seq<ToolCall>, policy: Policy, tools: Tools, turn: Turn,
                              verdicts: Verdicts, visit: Harness.Visit, f: ToolCall)
    requires WellFormed(start.messages) && UnmatchedToolCalls(start.messages) == calls
    requires forall c :: c in calls ==> !IsFollowUp(c.id)
    requires WellFormed(WithFollowUps(start, calls, policy, tools).messages) && f in FollowUps(calls, policy, tools)
    requires !Stops(calls, policy, tools) && !Stops(FollowUps(calls, policy, tools), policy, tools)
    ensures var os := ToolOpenings(start, calls, policy, tools, turn)
                      + Harness.ApprovalOpenings(SecondBatch(start, calls, policy, tools), verdicts, visit);
      forall o :: o in os && o.call == f ==> (o.durable <==> policy(f).NeedsApproval?)
  {
    ExceptIds(CallsOf(start.messages), Satisfied(start.messages));
    FollowUpsAreNew(start, calls, policy, tools);
    FollowUpsAreFollowUps(Settled(Runnable(calls, policy), tools));
    OpenedInTurn(start, calls, policy, tools, turn);
    var paused := SecondBatch(start, calls, policy, tools);
    PendingAfterTurn(start, calls, policy, tools);
    Harness.ApprovalsAreStored(paused, verdicts, visit);
    SplitMembers(calls, policy);
    SplitMembers(FollowUps(calls, policy, tools), policy);
  }

  /** And each is opened: at once if the policy lets it run, or for its verdict. */
  lemma EveryFollowUpIsOpened(start: RunState, calls: seq<ToolCall>, policy: Policy, tools: Tools, turn: Turn,
                              verdicts: Verdicts, visit: Harness.Visit, f: ToolCall)
    requires WellFormed(start.messages) && UnmatchedToolCalls(start.messages) == calls
    requires WellFormed(WithFollowUps(start, calls, policy, tools).messages) && f in FollowUps(calls, policy, tools)
    requires !Stops(calls, policy, tools) && !Stops(FollowUps(calls, policy, tools), policy, tools)
    requires turn.fault.Never? && visit.fault.None? && !visit.cancelled && f.id in verdicts
    ensures if policy(f).NeedsApproval?
            then Hub.Opening(f, true) in Harness.ApprovalOpenings(SecondBatch(start, calls, policy, tools), verdicts, visit)
            else Hub.Opening(f, false) in ToolOpenings(start, calls, policy, tools, turn)
  {
    var synthetic, paused := FollowUps(calls, policy, tools), SecondBatch(start, calls, policy, tools);
    if policy(f).NeedsApproval? {
      PendingAfterTurn(start, calls, policy, tools);
      SplitMembers(synthetic, policy);
      DecidedMembers(UnmatchedToolCalls(paused.messages), verdicts);
      Harness.ApprovalsAreStored(paused, verdicts, visit);
      OpensIt(Harness.DecidedNow(paused, verdicts), paused, f);
    } else {
      var first := FirstBatch(start, calls, policy, tools);
      SplitMembers(synthetic, policy);
      FollowUpsAreNew(start, calls, policy, tools);
      assert f.id in Ids(synthetic);
      OpensIt(Runnable(synthetic, policy), first, f);
      assert Runnable(synthetic, policy)[..|Runnable(synthetic, policy)|] == Runnable(synthetic, policy);
      assert Hub.OpeningOf(f, first) in BatchOpenings(synthetic, policy, first, FollowUpFault(turn));
    }
  }

  lemma OpensIt(orders: seq<Order>, stored: RunState, c: ToolCall)
    requires c in CallsOfOrders(orders)
    ensures Hub.OpeningOf(c, stored) in Batch.OpeningsOf(orders, stored)
    ensures orders[..|orders|] == orders
  {
    var k :| 0 <= k < |orders| && CallsOfOrders(orders)[k] == c;
    assert Batch.OpeningsOf(orders, stored)[k] == Hub.OpeningOf(c, stored);
  }

  /** Run `a` and store its result. */
  function AfterOne(w: World, a: ToolCall, result: ToolResult, now: nat): World
    requires CanOpen(w, a)
    requires CanSave(FinishedCall(ExecutedCall(OpenedCall(w, a), a.id), a, result), now)
  {
    Committed(Saved(FinishedCall(ExecutedCall(OpenedCall(w, a), a.id), a, result), now))
  }

  lemma OneRuns(log: seq<Action>, w: World, start: RunState, calls: seq<ToolCall>, a: ToolCall, result: ToolResult, now: nat)
    requires Replay(log) == Some(w) && Loop.Answered(w, start, calls) && a in calls && w.rec.value.updatedAt < now
    ensures CanOpen(w, a) && CanSave(FinishedCall(ExecutedCall(OpenedCall(w, a), a.id), a, result), now)
    ensures Replay(log + [Open(a)] + [Action.Execute(a.id)] + [Finish(a, result)] + [Save(now)] + [Commit])
            == Some(AfterOne(w, a, result, now))
  {
    Loop.PendingIsDistinct(log, w);
    var w1 := OpenedCall(w, a);
    var w2 := ExecutedCall(w1, a.id);
    var w3 := FinishedCall(w2, a, result);
    ReplayOne(log, w, Open(a));
    ReplayOne(log + [Open(a)], w1, Action.Execute(a.id));
    ReplayOne(log + [Open(a)] + [Action.Execute(a.id)], w2, Finish(a, result));
    ReplayOne(log + [Open(a)] + [Action.Execute(a.id)] + [Finish(a, result)], w3, Save(now));
    ReplayOne(log + [Open(a)] + [Action.Execute(a.id)] + [Finish(a, result)] + [Save(now)], Saved(w3, now), Commit);
  }

  lemma FollowUpStarts(log: seq<Action>, w: World, base: string, f: ToolCall)
    requires Replay(log) == Some(w) && CanSpawn(w, base, f)
    ensures CanOpen(Spawned(w, base, f), f)
    ensures Replay(log + [Spawn(base, f)] + [Open(f)] + [Action.Execute(f.id)])
            == Some(ExecutedCall(OpenedCall(Spawned(w, base, f), f), f.id))
    ensures f.id !in RecordIds(w)
  {
    HistoryKeeps(log);
    FollowUpIds(base, base);
    assert f.id !in Mentioned(w);
    GoodSynthetic(w.live.value.state, f);
    var w1 := Spawned(w, base, f);
    assert f in CallsOf(w1.live.value.state.messages);
    ReplayOne(log, w, Spawn(base, f));
    ReplayOne(log + [Spawn(base, f)], w1, Open(f));
    ReplayOne(log + [Spawn(base, f)] + [Open(f)], OpenedCall(w1, f), Action.Execute(f.id));
  }

  lemma Forgotten(log: seq<Action>, w: World, id: string)
    requires Replay(log) == Some(w) && w.live.Some? && id !in RecordIds(w) && Begin(id) in w.trace
    ensures Replay(log + [Leave] + [Claim(None, None)]).Some?
    ensures var after := Replay(log + [Leave] + [Claim(None, None)]).value;
      Begin(id) in after.trace && id !in RecordIds(after) && id !in LiveIds(after)
  {
    HistoryKeeps(log);
    ReplayOne(log, w, Leave);
    ReplayOne(log + [Leave], Left(w), Claim(None, None));
    ClaimedState(Left(w), None, None);
  }

  /** A turn in which one call runs and asks for one follow-up, both at once. */
  lemma OneAsksForOne(calls: seq<ToolCall>, policy: Policy, tools: Tools, a: ToolCall, f: ToolCall)
    requires Runnable(calls, policy) == [ExecuteDecided(a, Allow)] && FollowUps(calls, policy, tools) == [f]
    ensures a in calls && f.id == FollowUpId(a.id) && !tools(a).CancelFirst?
  {
    var order := ExecuteDecided(a, Allow);
    SplitMembers(calls, policy);
    assert CallsOfOrders([order])[0] == a;
    StoppedSettlesNothing(order, tools);
    if !tools(a).CancelFirst? {
      OneOrder(order, tools);
      SynthesizedOne(Resolved(a, tools(a).result));
      assert Synthesize(Resolved(a, tools(a).result))[0] == f;
    }
  }

  lemma StoppedSettlesNothing(order: Order, tools: Tools)
    ensures Outcome(order, tools).Stopped? ==> Settled([order], tools) == []
    ensures Synthesized([]) == []
  {
    assert [order][..0] == [];
  }

  lemma SynthesizedOne(r: Resolved)
    ensures Synthesized([r]) == Synthesize(r)
  {
    assert [r][..0] == [];
    assert [] + Synthesize(r) == Synthesize(r);
  }

  /** The crash that makes the difference, as a history: the only call that may run at once asks for a
      follow-up the policy lets run at once; it has started when the process dies, and the resumed
      transcript knows nothing of it. */
  lemma CrashForgetsFollowUp(log: seq<Action>, w: World, start: RunState, calls: seq<ToolCall>, policy: Policy,
                             tools: Tools, a: ToolCall, f: ToolCall, now: nat) returns (more: seq<Action>)
    requires Replay(log) == Some(w) && Loop.Answered(w, start, calls) && w.rec.value.updatedAt < now
    requires Runnable(calls, policy) == [ExecuteDecided(a, Allow)]
    requires FollowUps(calls, policy, tools) == [f] && policy(f).Allow?
    ensures Replay(log + more).Some?
    ensures var after := Replay(log + more).value;
      Begin(f.id) in after.trace && f.id !in RecordIds(after) && f.id !in LiveIds(after)
  {
    OneAsksForOne(calls, policy, tools, a, f);
    var result := tools(a).result;
    OneRuns(log, w, start, calls, a, result, now);
    var first := [Open(a)] + [Action.Execute(a.id)] + [Finish(a, result)] + [Save(now)] + [Commit];
    var second := [Spawn(a.id, f)] + [Open(f)] + [Action.Execute(f.id)];
    var before, after := log + first, log + first + second;
    FiveMore(log, Open(a), Action.Execute(a.id), Finish(a, result), Save(now), Commit);
    FollowUpStarts(before, AfterOne(w, a, result, now), a.id, f);
    ThreeMore(before, Spawn(a.id, f), Open(f), Action.Execute(f.id));
    Forgotten(after, Replay(after).value, f.id);
    more := first + second + [Leave] + [Claim(None, None)];
    FourParts(log, first, second, [Leave], [Claim(None, None)]);
  }

  /** What a process that goes in the follow-ups' batch leaves. */
  lemma DiesInFollowUps(start: RunState, calls: seq<ToolCall>, policy: Policy, tools: Tools, turn: Turn)
    requires !Stops(calls, policy, tools) && Batch.Raised(Runnable(FollowUps(calls, policy, tools), policy), tools, FollowUpFault(turn))
    requires turn.fault.Fault? && turn.fault.kind.TaskCancel? && turn.fault.site.InFollowUps?
    ensures FirstResult(start, calls, policy, tools, turn).GoesOn?
    ensures ToolsResult(start, calls, policy, tools, turn) ==
      Dies(StillRunning(Batch.StoredBy(WithFollowUps(start, calls, policy, tools), FirstBatch(start, calls, policy, tools),
                                       Runnable(FollowUps(calls, policy, tools), policy), tools, turn.fault.site.n)))
  {
    Loop.BatchStages(start, start, calls, policy, tools, turn, BatchFault(turn));
    Loop.BatchStages(WithFollowUps(start, calls, policy, tools), FirstBatch(start, calls, policy, tools),
                     FollowUps(calls, policy, tools), policy, tools, turn, FollowUpFault(turn));
    Loop.FollowUpStages(start, calls, policy, tools, turn);
  }

  /** A follow-up is missing from that record if and only if no result of the batch was stored yet. */
  lemma MissingIff(start: RunState, calls: seq<ToolCall>, policy: Policy, tools: Tools, f: ToolCall, n: nat)
    requires WellFormed(WithFollowUps(start, calls, policy, tools).messages) && f in FollowUps(calls, policy, tools)
    requires Batch.Raised(Runnable(FollowUps(calls, policy, tools), policy), tools, Some(n))
    ensures f !in CallsOf(FirstBatch(start, calls, policy, tools).messages)
    ensures var orders := Runnable(FollowUps(calls, policy, tools), policy);
      var left := Batch.StoredBy(WithFollowUps(start, calls, policy, tools), FirstBatch(start, calls, policy, tools),
                                 orders, tools, n);
      f !in CallsOf(left.messages) <==> n <= |orders|
  {
    var synthetic, first := FollowUps(calls, policy, tools), FirstBatch(start, calls, policy, tools);
    var orders := Runnable(synthetic, policy);
    FollowUpsAreNew(start, calls, policy, tools);
    assert f.id in Ids(synthetic);
    SyntheticsCalls(first, synthetic);
    FoldCalls(WithFollowUps(start, calls, policy, tools), Settled(orders, tools)[..if n <= |orders| then 0 else n - |orders|]);
  }

  /** The same for every turn, from what its methods are held to: if the process goes in the
      follow-ups' batch, a follow-up opened by then was opened unstored, and is missing from the record
      left if and only if no result of that batch was stored yet. */
  lemma DyingTurnForgets(start: RunState, calls: seq<ToolCall>, policy: Policy, tools: Tools, turn: Turn, f: ToolCall,
                         i: nat)
    requires WellFormed(WithFollowUps(start, calls, policy, tools).messages) && !Stops(calls, policy, tools)
    requires turn.fault.Fault? && turn.fault.kind.TaskCancel? && turn.fault.site.InFollowUps?
    requires var orders := Runnable(FollowUps(calls, policy, tools), policy); var n := turn.fault.site.n;
      && i < |orders| && i <= n && orders[i].call == f && Batch.Raised(orders, tools, Some(n))
    ensures f in FollowUps(calls, policy, tools) && !policy(f).NeedsApproval?
    ensures Hub.Opening(f, false) in ToolOpenings(start, calls, policy, tools, turn)
    ensures var must := ToolsResult(start, calls, policy, tools, turn);
      && must.Dies? && must.left.status.Running?
      && (f !in CallsOf(must.left.state.messages) <==>
          turn.fault.site.n <= |Runnable(FollowUps(calls, policy, tools), policy)|)
  {
    var synthetic, first := FollowUps(calls, policy, tools), FirstBatch(start, calls, policy, tools);
    var n := turn.fault.site.n;
    SplitMembers(synthetic, policy);
    assert CallsOfOrders(Runnable(synthetic, policy))[i] == f;
    DiesInFollowUps(start, calls, policy, tools, turn);
    MissingIff(start, calls, policy, tools, f, n);
    assert BatchOpenings(synthetic, policy, first, Some(n))[i] == Hub.OpeningOf(f, first);
  }

  /** What the record does not know the next claim does not know either. */
  lemma ResumeForgets(w: World, id: string, extra: Option<string>, skills: Option<Skills>)
    requires w.rec.Some? && GoodState(w.rec.value.state) && id !in RecordIds(w)
    ensures id !in Ids(CallsOf(ClaimedLive(w, extra, skills).state.messages))
  {
    ClaimedState(w, extra, skills);
  }

  lemma FiveMore(log: seq<Action>, a: Action, b: Action, c: Action, d: Action, e: Action)
    ensures log + [a] + [b] + [c] + [d] + [e] == log + ([a] + [b] + [c] + [d] + [e])
  {
  }

  lemma ThreeMore(log: seq<Action>, a: Action, b: Action, c: Action)
    ensures log + [a] + [b] + [c] == log + ([a] + [b] + [c])
  {
  }

  lemma FourParts(log: seq<Action>, a: seq<Action>, b: seq<Action>, c: seq<Action>, d: seq<Action>)
    ensures log + a + b + c + d == log + (a + b + c + d)
  {
  }

  /** In the example it happens to a call the policy allows. */
  lemma ExampleForgets() returns (log: seq<Action>)
    ensures ExamplePolicy(MERGE).Allow? && Replay(log).Some?
    ensures var after := Replay(log).value;
      Begin(MERGE.id) in after.trace && MERGE.id !in RecordIds(after) && MERGE.id !in LiveIds(after)
  {
    var example, start := MixedTurnIsReachable();
    ExampleIdsDiffer(EMPTY_STATE);
    SplitTwo(ASK, HELD, ExamplePolicy);
    OneOrder(ExecuteDecided(ASK, Allow), ExampleTools);
    AsksFor(ASK, MERGE, ExampleTools(ASK).result);
    var more := CrashForgetsFollowUp(example, Replay(example).value, start, [ASK, HELD], ExamplePolicy, ExampleTools, ASK,
                                     MERGE, 3);
    log := example + more;
  }

  // ----- the request that separates a result from its call, as it is sent -----

  lemma MixedBatches(start: RunState, a: ToolCall, b: ToolCall, f: ToolCall, policy: Policy, tools: Tools)
    requires MixedTurn(start, a, b, f, policy, tools)
    ensures FollowUps([a, b], policy, tools) == [f] && Needs([a, b], policy, tools) == [b]
    ensures !Stops([a, b], policy, tools) && !Stops([f], policy, tools)
  {
    SplitTwo(a, b, policy);
    OneOrder(ExecuteDecided(a, Allow), tools);
    AsksFor(a, f, tools(a).result);
    SplitOne(f, policy);
    assert [b] + [] == [b];
  }

  /** Such a turn, undisturbed, pauses on the held call with exactly that transcript. */
  lemma MixedTurnPauses(start: RunState, a: ToolCall, b: ToolCall, f: ToolCall, policy: Policy, tools: Tools, turn: Turn)
    requires MixedTurn(start, a, b, f, policy, tools) && Undisturbed(turn)
    ensures ToolsResult(start, [a, b], policy, tools, turn) ==
            Ends(WaitingForApproval, SecondBatch(start, [a, b], policy, tools), [b])
  {
    MixedBatches(start, a, b, f, policy, tools);
    UndisturbedTurnPauses(start, [a, b], policy, tools, turn);
  }

  lemma UndisturbedTurnPauses(start: RunState, calls: seq<ToolCall>, policy: Policy, tools: Tools, turn: Turn)
    requires Undisturbed(turn) && !Stops(calls, policy, tools) && !Stops(FollowUps(calls, policy, tools), policy, tools)
    requires Needs(calls, policy, tools) != []
    ensures ToolsResult(start, calls, policy, tools, turn) ==
            Ends(WaitingForApproval, SecondBatch(start, calls, policy, tools), Needs(calls, policy, tools))
  {
    Loop.ToolStages(start, calls, policy, tools, turn);
    Loop.FollowUpStages(start, calls, policy, tools, turn);
  }

  /** A summary is always given. */
  ghost predicate Summarises(summarize: Summarizer) {
    forall earlier, ms :: summarize(earlier, ms).Some? && summarize(earlier, ms).value.content != ""
  }

  /** Over the trigger the handler proposes the one cut there is. */
  lemma ProposesTheCut(handler: CompactionHandler, request: ModelRequest, state: RunState, summarize: Summarizer, cut: nat)
    requires RequestTokens(handler.counter, request) > handler.triggerTokens && Summarises(summarize)
    requires IsCut(handler.counter, state, handler.keepRecentTokens, cut)
    ensures var p := handler.Proposed(request, state, summarize);
      p.Some? && p.value.compaction.throughIndex == cut
  {
    forall other | IsCut(handler.counter, state, handler.keepRecentTokens, other) ensures other == cut {
      CutIsUnique(handler.counter, state, handler.keepRecentTokens, other, cut);
    }
  }

  /** The first turn after the approval gets as far as its request. */
  predicate Asking(turns: seq<Turn>) {
    turns != [] && !turns[0].cancelledAtHead && turns[0].fault.Never?
  }

  /** What that turn asks from: the transcript cut before the follow-up. */
  lemma AsksFromTheCut(frame: Frame, done: RunState, turns: seq<Turn>, maxCalls: int, policy: Policy, tools: Tools, cut: nat)
    returns (summary: string)
    requires Asking(turns) && !AtLimit(done, maxCalls) && Summarises(turns[0].summarize)
    requires frame.compactor != null
    requires RequestTokens(frame.compactor.counter, PlainRequest(frame, done)) > frame.compactor.triggerTokens
    requires IsCut(frame.compactor.counter, done, frame.compactor.keepRecentTokens, cut)
    ensures var asks := Asks(frame, done, turns, maxCalls, policy, tools);
      asks != [] && asks[0] == done.(compaction := Some(CompactionState(summary, cut)))
  {
    ProposesTheCut(frame.compactor, PlainRequest(frame, done), done, turns[0].summarize, cut);
    var proposal := Proposes(frame, done, turns[0]);
    summary := proposal.value.compaction.summary;
  }

  /** Nothing is trimmed away: there is no limit, or the request is within it. */
  predicate SentWhole(basis: Hub.Basis, state: RunState) {
    basis.limit.None?
    || RequestTokens(basis.limit.value.counter, Hub.FullRequest(basis, state)) <= basis.limit.value.budget
  }

  lemma WholeRequest(basis: Hub.Basis, state: RunState)
    requires SentWhole(basis, state)
    ensures Hub.RequestOf(basis, state).messages == Assemble(state, basis.prompt)
  {
  }

  /** The handler's side of it: a visit that gets to ask from `done`, over the trigger, with the cost of
      the two results as the keep budget. */
  ghost predicate CutAhead(frame: Frame, done: RunState, f: ToolCall, rb: string, rf: string, visit: Harness.Visit,
                           maxCalls: int) {
    && Asking(visit.turns) && Summarises(visit.turns[0].summarize) && !AtLimit(done, maxCalls)
    && frame.compactor != null
    && var counter := frame.compactor.counter;
    && counter.countText(counter.dumpCalls([f])) > 0
    && frame.compactor.keepRecentTokens == counter.countText(rf) + counter.countText(rb)
    && RequestTokens(counter, PlainRequest(frame, done)) > frame.compactor.triggerTokens
  }

  /** A visit that goes on with such a transcript sends a request that separates it. */
  lemma OrphanIsSent(hub: Hub.EventHub, before: seq<RunState>, frame: Frame, paused: RunState, verdicts: Verdicts,
                     policy: Policy, tools: Tools, visit: Harness.Visit, maxCalls: int, done: RunState,
                     ms: seq<Message>, a: string, b: string, f: ToolCall, ra: string, rb: string, rf: string)
    requires hub.Valid() && Harness.ApprovalsResult(paused, verdicts, tools, visit) == GoesOn(done)
    requires hub.asked == before + Harness.VisitAsks(frame, paused, verdicts, policy, tools, visit, maxCalls)
    requires |before| < |hub.asked| ==> SentWhole(hub.basis[|before|], hub.asked[|before|])
    requires CutAhead(frame, done, f, rb, rf, visit, maxCalls) && f.id != b && Already(done) <= |ms|
    requires done.messages == MixedTranscript(ms, a, b, f, ra, rb, rf)
    ensures |before| < |hub.sent| && !Paired(hub.sent[|before|].messages)
  {
    CutLandsBeforeFollowUp(frame.compactor.counter, done, ms, a, b, f, ra, rb, rf);
    var summary := AsksFromTheCut(frame, done, visit.turns, maxCalls, policy, tools, |ms| + 1);
    assert hub.asked[|before|] == done.(compaction := Some(CompactionState(summary, |ms| + 1)));
    assert Hub.SentAt(hub.sent, hub.basis, hub.asked, |before|);
    WholeRequest(hub.basis[|before|], hub.asked[|before|]);
    OrphanInRequest(done, ms, a, b, f, ra, rb, rf, summary, hub.basis[|before|].prompt);
  }

  /** All of it in one: a Run paused by such a turn and its held call approved; with `asked` extended as
      `respond_approval` is held to, the request it sends first carries a result without its call. */
  lemma UnpairedRequestIsSent(hub: Hub.EventHub, before: seq<RunState>, frame: Frame, start: RunState, a: ToolCall,
                              b: ToolCall, f: ToolCall, policy: Policy, tools: Tools, visit: Harness.Visit, maxCalls: int,
                              paused: RunState, done: RunState)
    requires MixedTurn(start, a, b, f, policy, tools) && Already(start) <= |start.messages|
    requires paused == SecondBatch(start, [a, b], policy, tools) && done == ResolveWith(paused, map[b.id := Approve], tools)
    requires !visit.cancelled && visit.fault.None?
    requires CutAhead(frame, done, f, tools(b).result.content, tools(f).result.content, visit, maxCalls)
    requires hub.Valid()
    requires hub.asked == before + Harness.VisitAsks(frame, paused, map[b.id := Approve], policy, tools, visit, maxCalls)
    requires |before| < |hub.asked| ==> SentWhole(hub.basis[|before|], hub.asked[|before|])
    ensures |before| < |hub.sent| && !Paired(hub.sent[|before|].messages)
  {
    ApprovedMixedGoesOn(start, a, b, f, policy, tools, visit, paused, done);
    OrphanIsSent(hub, before, frame, paused, map[b.id := Approve], policy, tools, visit, maxCalls, done, start.messages,
                 a.id, b.id, f, tools(a).result.content, tools(b).result.content, tools(f).result.content);
  }

  lemma ApprovedMixedGoesOn(start: RunState, a: ToolCall, b: ToolCall, f: ToolCall, policy: Policy, tools: Tools,
                            visit: Harness.Visit, paused: RunState, done: RunState)
    requires MixedTurn(start, a, b, f, policy, tools) && !visit.cancelled && visit.fault.None?
    requires paused == SecondBatch(start, [a, b], policy, tools) && done == ResolveWith(paused, map[b.id := Approve], tools)
    ensures Harness.ApprovalsResult(paused, map[b.id := Approve], tools, visit) == GoesOn(done)
    ensures f.id != b.id && Already(done) == Already(start)
    ensures done.messages == MixedTranscript(start.messages, a.id, b.id, f, tools(a).result.content,
                                             tools(b).result.content, tools(f).result.content)
  {
    var same := ApprovedMixed(start, a, b, f, policy, tools);
    ApprovalGoesOn(start, a, b, f, policy, tools, visit);
  }

  lemma ApprovalGoesOn(start: RunState, a: ToolCall, b: ToolCall, f: ToolCall, policy: Policy, tools: Tools,
                       visit: Harness.Visit)
    requires MixedTurn(start, a, b, f, policy, tools) && !visit.cancelled && visit.fault.None?
    ensures var paused := SecondBatch(start, [a, b], policy, tools);
      Harness.ApprovalsResult(paused, map[b.id := Approve], tools, visit) ==
      GoesOn(ResolveWith(paused, map[b.id := Approve], tools))
  {
    PendingAfterPause(start, a, b, f, policy, tools);
    ExceptAll([b], map[b.id := Approve].Keys);
    DecidedMembers([b], map[b.id := Approve]);
    NoneStoppedWhenNeverCancelled(DecidedOrders([b], map[b.id := Approve]), tools);
  }

  /** The example is an instance, with the default counter, a keep budget of two tokens and a trigger
      that every request is over. */
  lemma ExampleIsCut(frame: Frame, dumpCalls: seq<ToolCall> -> string, visit: Harness.Visit, done: RunState)
    requires dumpCalls([MERGE]) != "" && Asking(visit.turns) && Summarises(visit.turns[0].summarize)
    requires frame.compactor != null && frame.compactor.counter == TokenCounter(ApproxCount, dumpCalls)
    requires frame.compactor.keepRecentTokens == 2 && frame.compactor.triggerTokens < REQUEST_OVERHEAD
    ensures CutAhead(frame, done, MERGE, ExampleTools(HELD).result.content, ExampleTools(MERGE).result.content, visit, 0)
  {
    DoneIsOneToken();
    RequestIsAffine(frame.compactor.counter, PlainRequest(frame, done).messages, frame.schemas);
  }

  lemma DoneIsOneToken()
    ensures ApproxCount("done") == 1
  {
    CjkBounds("done");
  }
}
