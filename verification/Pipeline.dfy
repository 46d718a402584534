/** Why a shaped request never separates a result from its call: the transcript's grouping, what
    breaks it, and what cutting, assembling and trimming make of it. */
module Pipeline {
  import opened Domain
  import opened Transcript
  import opened Protocol
  import opened Lifecycle
  import opened Budget
  import opened Compaction
  import opened Tokens
  import opened Hub
  import opened ToolStep
  import opened Turns

  /** The calls of the last message that is not a result. */
  function LastTurn(ms: seq<Message>): set<string> {
    if ms == [] then {}
    else
      var last := ms[|ms| - 1];
      if last.role.Tool? then LastTurn(ms[..|ms| - 1])
      else if last.role.Assistant? then Ids(last.toolCalls) else {}
  }

  /** Each result answers the nearest preceding message that is not a result. */
  predicate Grouped(ms: seq<Message>) {
    ms == []
    || (var init, last := ms[..|ms| - 1], ms[|ms| - 1];
        Grouped(init) && (last.role.Tool? ==> last.toolCallId.Some? && last.toolCallId.value in LastTurn(init)))
  }

  predicate Tidy(ms: seq<Message>) { Grouped(ms) && Ids(UnmatchedToolCalls(ms)) <= LastTurn(ms) }

  /** Each message that is not a result was appended with nothing pending. */
  predicate Orderly(ms: seq<Message>) {
    ms == []
    || (var init, last := ms[..|ms| - 1], ms[|ms| - 1];
        Orderly(init) && (!last.role.Tool? ==> UnmatchedToolCalls(init) == []))
  }

  // ----- which transcripts are tidy -----

  lemma TidySnoc(ms: seq<Message>, m: Message)
    requires WellFormed(ms) && Follows(ms, m) && Tidy(ms)
    requires m.role.Tool? || UnmatchedToolCalls(ms) == []
    ensures Tidy(ms + [m])
  {
    assert (ms + [m])[..|ms|] == ms;
    UnmatchedSnoc(ms, m);
    if m.role.Tool? {
      ExceptIds(UnmatchedToolCalls(ms), {m.toolCallId.value});
    } else {
      assert UnmatchedToolCalls(ms) + m.toolCalls == m.toolCalls;
    }
  }

  lemma {:induction false} CallsOfPrefix(ms: seq<Message>, k: nat)
    requires k <= |ms|
    ensures Ids(CallsOf(ms[..k])) <= Ids(CallsOf(ms))
  {
    if k < |ms| {
      CallsOfPrefix(ms[..|ms| - 1], k);
      assert ms[..|ms| - 1][..k] == ms[..k];
      assert ms == ms[..|ms| - 1] + [ms[|ms| - 1]];
      Snoc(ms[..|ms| - 1], ms[|ms| - 1]);
    } else {
      assert ms[..k] == ms;
    }
  }

  /** The last turn's calls are not those of an earlier turn. */
  lemma {:induction false} LastTurnIsLater(ms: seq<Message>, k: nat)
    requires WellFormed(ms) && k < |ms| && !ms[k].role.Tool?
    ensures LastTurn(ms) !! Ids(CallsOf(ms[..k]))
  {
    var init, last := ms[..|ms| - 1], ms[|ms| - 1];
    assert init[..if k < |init| then k else |init|] == ms[..k];
    if last.role.Tool? {
      LastTurnIsLater(init, k);
    } else {
      CallsOfPrefix(init, k);
    }
  }

  /** In a grouped transcript what is pending where a new turn begins stays pending for ever. */
  lemma {:induction false} PendingStays(ms: seq<Message>, k: nat)
    requires WellFormed(ms) && Grouped(ms) && k < |ms| && !ms[k].role.Tool?
    ensures PendingAt(ms, k) <= PendingAt(ms, |ms|)
  {
    var init, last := ms[..|ms| - 1], ms[|ms| - 1];
    assert ms == init + [last] && ms[..|ms|] == ms && init[..|init|] == init;
    UnmatchedSnoc(init, last);
    IdsConcat(UnmatchedToolCalls(init), last.toolCalls);
    if k < |init| {
      assert init[..k] == ms[..k];
      PendingStays(init, k);
    }
    if last.role.Tool? {
      ExceptIds(UnmatchedToolCalls(init), {last.toolCallId.value});
      LastTurnIsLater(init, k);
      ExceptIds(CallsOf(ms[..k]), Satisfied(ms[..k]));
    }
  }

  function PendingAt(ms: seq<Message>, k: nat): set<string>
    requires k <= |ms|
  {
    Ids(UnmatchedToolCalls(ms[..k]))
  }

  /** A transcript is tidy if and only if each message that is not a result was appended with
      nothing pending. */
  lemma {:induction false} TidyIffOrderly(ms: seq<Message>)
    requires WellFormed(ms)
    ensures Tidy(ms) <==> Orderly(ms)
  {
    if ms != [] {
      var init, last := ms[..|ms| - 1], ms[|ms| - 1];
      assert ms == init + [last];
      TidyIffOrderly(init);
      if Orderly(ms) {
        TidySnoc(init, last);
      } else if Tidy(ms) {
        TidyHadTidyPrefix(ms);
      }
    }
  }

  lemma TidyHadTidyPrefix(ms: seq<Message>)
    requires WellFormed(ms) && ms != [] && Tidy(ms)
    ensures Tidy(ms[..|ms| - 1])
    ensures !ms[|ms| - 1].role.Tool? ==> UnmatchedToolCalls(ms[..|ms| - 1]) == []
  {
    var init, last := ms[..|ms| - 1], ms[|ms| - 1];
    assert ms == init + [last] && ms[..|ms|] == ms;
    UnmatchedSnoc(init, last);
    if last.role.Tool? {
      ExceptIds(UnmatchedToolCalls(init), {last.toolCallId.value});
    } else {
      PendingStays(ms, |init|);
      LastTurnIsLater(ms, |init|);
      ExceptIds(CallsOf(init), Satisfied(init));
      NoIdsNoCalls(UnmatchedToolCalls(init));
    }
  }

  lemma NoIdsNoCalls(calls: seq<ToolCall>)
    ensures Ids(calls) == {} <==> calls == []
  {
    if calls != [] {
      assert calls[0].id in Ids(calls);
    }
  }

  /** The exact guard: appending a message keeps a transcript tidy if and only if it is a result or
      nothing was pending, and no later message repairs one that is not. */
  lemma TidySnocIff(ms: seq<Message>, m: Message)
    requires WellFormed(ms) && Follows(ms, m)
    ensures Tidy(ms + [m]) <==> Tidy(ms) && (m.role.Tool? || UnmatchedToolCalls(ms) == [])
  {
    Snoc(ms, m);
    TidyIffOrderly(ms);
    TidyIffOrderly(ms + [m]);
  }

  /** With nothing pending, grouped means appended in order: a turn that began with calls pending
      breaks the grouping of every closed transcript it becomes part of. */
  lemma GroupedIffOrderly(ms: seq<Message>)
    requires Closed(ms)
    ensures Grouped(ms) <==> Orderly(ms)
  {
    TidyIffOrderly(ms);
    assert Ids(UnmatchedToolCalls(ms)) == {};
  }

  lemma {:induction false} OrderlyPrefix(ms: seq<Message>, k: nat)
    requires Orderly(ms) && k <= |ms|
    ensures Orderly(ms[..k])
  {
    if k < |ms| {
      OrderlyPrefix(ms[..|ms| - 1], k);
      assert ms[..|ms| - 1][..k] == ms[..k];
    } else {
      assert ms[..k] == ms;
    }
  }

  lemma UntidyForEver(ms: seq<Message>, later: seq<Message>)
    requires WellFormed(ms) && !Tidy(ms) && ms <= later && Closed(later)
    ensures !Grouped(later)
  {
    TidyIffOrderly(ms);
    GroupedIffOrderly(later);
    assert later[..|ms|] == ms;
    if Orderly(later) {
      OrderlyPrefix(later, |ms|);
    }
  }

  lemma {:induction false} TidyFold(state: RunState, rs: seq<Resolved>)
    requires WellFormed(state.messages)
    requires Distinct(CallsIn(rs)) && Ids(CallsIn(rs)) <= PendingIds(state)
    ensures Tidy(FoldResults(state, rs).messages) <==> Tidy(state.messages)
  {
    if rs != [] {
      var init, last := rs[..|rs| - 1], rs[|rs| - 1];
      assert CallsIn(rs) == CallsIn(init) + [last.call];
      DistinctSnoc(CallsIn(init), last.call);
      TidyFold(state, init);
      FoldKeepsOthers(state, init);
      ExceptIds(UnmatchedToolCalls(state.messages), Ids(CallsIn(init)));
      TidySnocIff(FoldResults(state, init).messages, ToolMessage(last.call.id, last.result.content));
    }
  }

  lemma TidySealed(state: RunState)
    requires WellFormed(state.messages) && Tidy(state.messages)
    ensures Tidy(Sealed(state).messages)
  {
    var pending := UnmatchedToolCalls(state.messages);
    assert CallsIn(Interrupted(pending)) == pending;
    SatisfiedWereCalled(state.messages);
    TidyFold(state, Interrupted(pending));
  }

  // ----- which turns are tidy -----

  lemma SyntheticSnocIff(before: RunState, c: ToolCall)
    requires WellFormed(AppendSyntheticToolCall(before, c).messages)
    ensures var after := AppendSyntheticToolCall(before, c).messages;
      && WellFormed(before.messages)
      && UnmatchedToolCalls(after) == UnmatchedToolCalls(before.messages) + [c]
      && (Tidy(after) <==> Tidy(before.messages) && UnmatchedToolCalls(before.messages) == [])
  {
    var m := Message(Assistant, "", [c], None, "");
    Snoc(before.messages, m);
    UnmatchedSnoc(before.messages, m);
    TidySnocIff(before.messages, m);
  }

  lemma LastOfThree(held: seq<ToolCall>, synthetic: seq<ToolCall>)
    requires synthetic != []
    ensures held + synthetic[..|synthetic| - 1] + [synthetic[|synthetic| - 1]] == held + synthetic
  {
  }

  lemma {:induction false} SyntheticsPending(first: RunState, held: seq<ToolCall>, synthetic: seq<ToolCall>)
    requires WellFormed(AppendSynthetics(first, synthetic).messages) && UnmatchedToolCalls(first.messages) == held
    ensures WellFormed(first.messages)
    ensures UnmatchedToolCalls(AppendSynthetics(first, synthetic).messages) == held + synthetic
  {
    if synthetic == [] {
      assert held + synthetic == held;
    } else {
      var init, c := synthetic[..|synthetic| - 1], synthetic[|synthetic| - 1];
      assert AppendSynthetics(first, synthetic) == AppendSyntheticToolCall(AppendSynthetics(first, init), c);
      SyntheticSnocIff(AppendSynthetics(first, init), c);
      SyntheticsPending(first, held, init);
      LastOfThree(held, synthetic);
    }
  }

  lemma NothingBefore(held: seq<ToolCall>, synthetic: seq<ToolCall>)
    requires synthetic != []
    ensures held + synthetic[..|synthetic| - 1] == [] <==> |synthetic| == 1 && held == []
  {
  }

  lemma {:induction false} SyntheticsTidyIff(first: RunState, held: seq<ToolCall>, synthetic: seq<ToolCall>)
    requires WellFormed(AppendSynthetics(first, synthetic).messages) && UnmatchedToolCalls(first.messages) == held
    requires Tidy(first.messages)
    ensures Tidy(AppendSynthetics(first, synthetic).messages) <==> synthetic == [] || (|synthetic| == 1 && held == [])
  {
    if synthetic != [] {
      var init, c := synthetic[..|synthetic| - 1], synthetic[|synthetic| - 1];
      assert AppendSynthetics(first, synthetic) == AppendSyntheticToolCall(AppendSynthetics(first, init), c);
      SyntheticSnocIff(AppendSynthetics(first, init), c);
      SyntheticsPending(first, held, init);
      SyntheticsTidyIff(first, held, init);
      NothingBefore(held, synthetic);
    }
  }

  /** The exact condition on a turn: its transcript stays tidy if and only if it synthesised no
      follow-up, or exactly one with none of the model's calls held. */
  lemma TurnIsTidyIffQuiet(start: RunState, calls: seq<ToolCall>, policy: Policy, tools: Tools)
    requires WellFormed(start.messages) && Tidy(start.messages) && UnmatchedToolCalls(start.messages) == calls
    requires !Stops(calls, policy, tools) && WellFormed(WithFollowUps(start, calls, policy, tools).messages)
    ensures Tidy(WithFollowUps(start, calls, policy, tools).messages) <==> QuietTurn(calls, policy, tools)
    ensures Tidy(SecondBatch(start, calls, policy, tools).messages) <==> QuietTurn(calls, policy, tools)
  {
    FirstBatchPends(start, calls, policy, tools);
    TidyFold(start, Settled(Runnable(calls, policy), tools));
    var first, synthetic := FirstBatch(start, calls, policy, tools), FollowUps(calls, policy, tools);
    SyntheticsPending(first, Held(calls, policy), synthetic);
    SyntheticsTidyIff(first, Held(calls, policy), synthetic);
    SecondBatchFolds(start, calls, policy, tools);
    TidyFold(WithFollowUps(start, calls, policy, tools), Settled(Runnable(synthetic, policy), tools));
  }

  lemma FirstBatchPends(start: RunState, calls: seq<ToolCall>, policy: Policy, tools: Tools)
    requires WellFormed(start.messages) && UnmatchedToolCalls(start.messages) == calls && !Stops(calls, policy, tools)
    ensures var rs := Settled(Runnable(calls, policy), tools);
      Distinct(CallsIn(rs)) && Ids(CallsIn(rs)) <= PendingIds(start)
    ensures UnmatchedToolCalls(FirstBatch(start, calls, policy, tools).messages) == Held(calls, policy)
  {
    var orders := Runnable(calls, policy);
    SatisfiedWereCalled(start.messages);
    RunnableDistinct(calls, policy);
    SplitIds(calls, policy);
    NoneStopped(orders, tools);
    FoldKeepsOthers(start, Settled(orders, tools));
  }

  lemma SecondBatchFolds(start: RunState, calls: seq<ToolCall>, policy: Policy, tools: Tools)
    requires WellFormed(WithFollowUps(start, calls, policy, tools).messages)
    requires UnmatchedToolCalls(WithFollowUps(start, calls, policy, tools).messages) ==
             Held(calls, policy) + FollowUps(calls, policy, tools)
    ensures var rs := Settled(Runnable(FollowUps(calls, policy, tools), policy), tools);
      Distinct(CallsIn(rs)) && Ids(CallsIn(rs)) <= PendingIds(WithFollowUps(start, calls, policy, tools))
  {
    var synthetic := FollowUps(calls, policy, tools);
    SatisfiedWereCalled(WithFollowUps(start, calls, policy, tools).messages);
    DistinctParts(Held(calls, policy), synthetic);
    RunnableDistinct(synthetic, policy);
    SettledExactly(Runnable(synthetic, policy), tools);
    SplitIds(synthetic, policy);
    IdsConcat(Held(calls, policy), synthetic);
  }

  // ----- where a transcript may be cut -----

  predicate AtBoundary(ms: seq<Message>, k: nat) { k <= |ms| && (k < |ms| ==> !ms[k].role.Tool?) }

  predicate HasCall(ms: seq<Message>, j: nat)
    requires j < |ms|
  {
    ms[j].toolCallId.Some? && exists i :: 0 <= i < j && Calls(ms[i], ms[j].toolCallId.value)
  }

  predicate HasResult(ms: seq<Message>, i: nat, id: string) {
    exists j :: i < j < |ms| && Answers(ms[j], id)
  }

  /** Every result comes after its call and every call before its result. */
  ghost predicate Paired(ms: seq<Message>) {
    && (forall j: nat {:trigger HasCall(ms, j)} :: j < |ms| && ms[j].role.Tool? ==> HasCall(ms, j))
    && (forall i: nat, id {:trigger HasResult(ms, i, id)} :: i < |ms| && Calls(ms[i], id) ==> HasResult(ms, i, id))
  }

  /** `n` is the last message before `j` that is not a result. */
  predicate Heads(ms: seq<Message>, n: nat, j: nat) {
    n < j <= |ms| && !ms[n].role.Tool? && forall l :: n < l < j ==> ms[l].role.Tool?
  }

  lemma {:induction false} LastTurnMeans(ms: seq<Message>, j: nat, id: string)
    requires j <= |ms|
    ensures id in LastTurn(ms[..j]) <==> exists n: nat :: Heads(ms, n, j) && Calls(ms[n], id)
  {
    if j > 0 {
      assert ms[..j][..j - 1] == ms[..j - 1];
      if ms[j - 1].role.Tool? {
        LastTurnMeans(ms, j - 1, id);
        assert forall n: nat :: Heads(ms, n, j) <==> Heads(ms, n, j - 1);
      } else {
        assert Heads(ms, j - 1, j);
        assert forall n: nat :: Heads(ms, n, j) ==> n == j - 1;
      }
    } else {
      assert forall n: nat :: !Heads(ms, n, j);
    }
  }

  lemma {:induction false} GroupedMeans(ms: seq<Message>)
    ensures Grouped(ms) <==> forall j :: 0 <= j < |ms| && ms[j].role.Tool? ==>
              ms[j].toolCallId.Some? && ms[j].toolCallId.value in LastTurn(ms[..j])
  {
    if ms != [] {
      var init := ms[..|ms| - 1];
      GroupedMeans(init);
      assert forall j :: 0 <= j < |init| ==> init[j] == ms[j] && init[..j] == ms[..j];
    }
  }

  lemma {:induction false} FirstIsNoResult(ms: seq<Message>)
    requires WellFormed(ms)
    ensures ms != [] ==> !ms[0].role.Tool?
    ensures forall m :: m in ms ==> !m.role.System?
  {
    if ms != [] {
      FirstIsNoResult(ms[..|ms| - 1]);
      assert ms == ms[..|ms| - 1] + [ms[|ms| - 1]];
    }
  }

  lemma {:induction false} HeadExists(ms: seq<Message>, j: nat) returns (n: nat)
    requires 0 < j <= |ms| && !ms[0].role.Tool?
    ensures Heads(ms, n, j)
  {
    if !ms[j - 1].role.Tool? {
      n := j - 1;
    } else {
      n := HeadExists(ms, j - 1);
    }
  }

  /** In a grouped transcript the call a result answers is on the same side of every boundary. */
  lemma CallOnSameSide(ms: seq<Message>, k: nat, j: nat) returns (n: nat)
    requires Grouped(ms) && AtBoundary(ms, k) && k <= j < |ms| && ms[j].role.Tool?
    ensures ms[j].toolCallId.Some? && k <= n < j && Calls(ms[n], ms[j].toolCallId.value)
  {
    GroupedMeans(ms);
    LastTurnMeans(ms, j, ms[j].toolCallId.value);
    n :| Heads(ms, n, j) && Calls(ms[n], ms[j].toolCallId.value);
  }

  lemma ResultInSuffix(ms: seq<Message>, i: nat, id: string) returns (j: nat)
    requires Closed(ms) && i < |ms| && Calls(ms[i], id)
    ensures i < j < |ms| && Answers(ms[j], id)
  {
    ClosedMeans(ms);
    j :| i < j < |ms| && Answers(ms[j], id);
  }

  lemma GroupedSuffix(ms: seq<Message>, k: nat)
    requires Closed(ms) && Grouped(ms) && AtBoundary(ms, k)
    ensures Paired(ms[k..])
  {
    var tail := ms[k..];
    forall j: nat | j < |tail| && tail[j].role.Tool? ensures HasCall(tail, j) {
      var n := CallOnSameSide(ms, k, k + j);
      assert tail[n - k] == ms[n];
    }
    forall i: nat, id | i < |tail| && Calls(tail[i], id) ensures HasResult(tail, i, id) {
      var j := ResultInSuffix(ms, k + i, id);
      assert tail[j - k] == ms[j];
    }
  }

  /** A closed transcript may be cut before any message that is not a result, without separating a
      result from its call, if and only if it is grouped. */
  lemma CutsAreSafeIffGrouped(ms: seq<Message>)
    requires Closed(ms)
    ensures (forall k: nat :: AtBoundary(ms, k) ==> Paired(ms[k..])) <==> Grouped(ms)
  {
    if Grouped(ms) {
      forall k: nat | AtBoundary(ms, k) ensures Paired(ms[k..]) {
        GroupedSuffix(ms, k);
      }
    } else {
      GroupedMeans(ms);
      AnsweredOnce(ms);
      FirstIsNoResult(ms);
      var j :| 0 <= j < |ms| && ms[j].role.Tool? && ms[j].toolCallId.value !in LastTurn(ms[..j]);
      var n := HeadExists(ms, j);
      LastTurnMeans(ms, j, ms[j].toolCallId.value);
      var tail, id := ms[n..], ms[j].toolCallId.value;
      forall i | 0 <= i < j - n ensures !Calls(tail[i], id) {
        assert tail[i] == ms[n + i];
      }
      assert !HasCall(tail, j - n);
      assert AtBoundary(ms, n) && tail[j - n].role.Tool? && !Paired(tail);
    }
  }

  // ----- from the transcript to the request -----

  /** The boundary of what is folded never falls before a result, now or after the next message. */
  predicate Anchored(state: RunState) {
    && WellFormed(state.messages) && AtBoundary(state.messages, Already(state))
    && (Already(state) == |state.messages| ==> UnmatchedToolCalls(state.messages) == [])
  }

  /** A step the code takes: a message that may follow, an automatic cut, or the whole transcript
      folded with nothing pending. */
  predicate SourceStep(state: RunState, step: Step) {
    match step
    case Grow(m) => Follows(state.messages, m)
    case Fold(c) =>
      || CutPoint(state, c.throughIndex)
      || (Already(state) < c.throughIndex == |state.messages| && UnmatchedToolCalls(state.messages) == [])
  }

  predicate SourceSteps(state: RunState, steps: seq<Step>)
    decreases |steps|
  {
    steps == [] || (SourceStep(state, steps[0]) && SourceSteps(Next(state, steps[0]), steps[1..]))
  }

  /** Whatever the counter and the keep budget, the automatic cut is such a step. */
  lemma AutomaticCutIsSafe(counter: TokenCounter, state: RunState, keep: int, c: CompactionState)
    requires IsCut(counter, state, keep, c.throughIndex)
    ensures SourceStep(state, Fold(c))
  {
  }

  lemma {:induction false} FoldMessages(state: RunState, rs: seq<Resolved>)
    ensures |FoldResults(state, rs).messages| == |state.messages| + |rs|
    ensures state.messages <= FoldResults(state, rs).messages
    ensures forall i :: 0 <= i < |rs| ==>
              FoldResults(state, rs).messages[|state.messages| + i] == ToolMessage(rs[i].call.id, rs[i].result.content)
    ensures FoldResults(state, rs).compaction == state.compaction
  {
    if rs != [] {
      FoldMessages(state, rs[..|rs| - 1]);
    }
  }

  /** Folding the whole transcript is safe exactly when nothing is pending: otherwise the results
      that arrive later are sent without their calls. */
  lemma FullFoldIsSafeIffClosed(state: RunState, summary: string, rs: seq<Resolved>)
    requires CallsIn(rs) == UnmatchedToolCalls(state.messages)
    ensures var folded := state.(compaction := Some(CompactionState(summary, |state.messages|)));
      Paired(Body(FoldResults(folded, rs))) <==> UnmatchedToolCalls(state.messages) == []
  {
    var folded := state.(compaction := Some(CompactionState(summary, |state.messages|)));
    FoldMessages(folded, rs);
    var body := Body(FoldResults(folded, rs));
    assert |CallsIn(rs)| == |rs|;
    if rs == [] {
      PlainFirst(SummaryMessage(summary), []);
      assert body == [SummaryMessage(summary)] + [];
    } else {
      assert body[1] == ToolMessage(rs[0].call.id, rs[0].result.content);
      assert !Calls(body[0], rs[0].call.id);
      assert !HasCall(body, 1);
    }
  }

  lemma AnchoredGrow(state: RunState, m: Message)
    requires Anchored(state) && Follows(state.messages, m)
    ensures Anchored(Next(state, Grow(m)))
  {
    Snoc(state.messages, m);
  }

  lemma {:induction false} SourceStepsKeepAnchored(state: RunState, steps: seq<Step>)
    requires Anchored(state) && SourceSteps(state, steps)
    ensures Anchored(AfterSteps(state, steps)) && StepsOk(state, steps)
    decreases |steps|
  {
    if steps != [] {
      if steps[0].Grow? {
        AnchoredGrow(state, steps[0].message);
      }
      SourceStepsKeepAnchored(Next(state, steps[0]), steps[1..]);
    }
  }

  predicate Plain(m: Message) { !m.role.Tool? && m.toolCalls == [] }

  lemma PlainFirst(m: Message, tail: seq<Message>)
    requires Plain(m) && Paired(tail)
    ensures Paired([m] + tail)
  {
    var all := [m] + tail;
    forall j: nat | j < |all| && all[j].role.Tool? ensures HasCall(all, j) {
      assert HasCall(tail, j - 1);
      var i :| 0 <= i < j - 1 && Calls(tail[i], tail[j - 1].toolCallId.value);
      assert all[i + 1] == tail[i];
    }
    forall i: nat, id | i < |all| && Calls(all[i], id) ensures HasResult(all, i, id) {
      assert HasResult(tail, i - 1, id);
      var j :| i - 1 < j < |tail| && Answers(tail[j], id);
      assert all[j + 1] == tail[j];
    }
  }

  lemma {:induction false} NoSystems(ms: seq<Message>)
    requires forall m :: m in ms ==> !m.role.System?
    ensures Systems(ms) == [] && Rest(ms) == ms
  {
    if ms != [] {
      assert ms[0] in ms && forall m :: m in ms[1..] ==> m in ms;
      NoSystems(ms[1..]);
    }
  }

  lemma AssembledParts(state: RunState, prompt: string)
    requires WellFormed(state.messages)
    ensures Systems(Assemble(state, prompt)) == [SystemMessage(prompt)]
    ensures Rest(Assemble(state, prompt)) == Body(state)
  {
    FirstIsNoResult(state.messages);
    NoSystems(Body(state));
    assert Assemble(state, prompt)[1..] == Body(state);
  }

  lemma FoldedBody(state: RunState, k: nat)
    requires state.compaction.Some? && Already(state) <= |state.messages| && AtBoundary(Body(state), k)
    ensures Body(state)[0..] == [SummaryMessage(state.compaction.value.summary)] + state.messages[Already(state)..]
    ensures k > 0 ==> AtBoundary(state.messages, Already(state) + k - 1)
    ensures k > 0 ==> Body(state)[k..] == state.messages[Already(state) + k - 1..]
  {
  }

  lemma BodySuffix(state: RunState, k: nat)
    requires Anchored(state) && Closed(state.messages) && Grouped(state.messages) && AtBoundary(Body(state), k)
    ensures Paired(Body(state)[k..])
  {
    if state.compaction.None? {
      GroupedSuffix(state.messages, k);
    } else {
      FoldedBody(state, k);
      GroupedSuffix(state.messages, if k == 0 then Already(state) else Already(state) + k - 1);
      if k == 0 {
        PlainFirst(SummaryMessage(state.compaction.value.summary), state.messages[Already(state)..]);
      }
    }
  }

  /** A trimmed request is the system prompt and the body from some boundary on. */
  lemma TrimmedShape(state: RunState, prompt: string, tools: seq<string>, counter: TokenCounter, budget: int)
    returns (k: nat)
    requires Anchored(state)
    ensures AtBoundary(Body(state), k)
    ensures Trimmed(counter, ModelRequest(Assemble(state, prompt), tools), budget).messages ==
            [SystemMessage(prompt)] + Body(state)[k..]
  {
    var request := ModelRequest(Assemble(state, prompt), tools);
    if BaseTokens(counter, request) <= budget < RequestTokens(counter, request) {
      AssembledParts(state, prompt);
      k := TrimIsExact(counter, request, budget);
    } else {
      k := 0;
      WholeBody(state);
      assert Trimmed(counter, request, budget) == request;
    }
  }

  lemma WholeBody(state: RunState)
    requires Anchored(state)
    ensures AtBoundary(Body(state), 0) && Body(state)[0..] == Body(state)
  {
    FirstIsNoResult(state.messages);
  }

  /** Assembling and trimming a closed, grouped transcript keeps each result with its call and each
      call with its result, whatever the counter, the schemas and the budget. */
  lemma RequestIsPaired(state: RunState, prompt: string, tools: seq<string>, counter: TokenCounter, budget: int)
    requires Anchored(state) && Closed(state.messages) && Grouped(state.messages)
    ensures Paired(Trimmed(counter, ModelRequest(Assemble(state, prompt), tools), budget).messages)
  {
    var k := TrimmedShape(state, prompt, tools, counter, budget);
    BodySuffix(state, k);
    PlainFirst(SystemMessage(prompt), Body(state)[k..]);
  }

  /** The whole pipeline: after any run of appended messages, automatic cuts and full folds with
      nothing pending, assembling and trimming a closed, grouped transcript keeps pairs together. */
  lemma PipelineIsSafe(start: RunState, steps: seq<Step>, prompt: string, tools: seq<string>,
                       counter: TokenCounter, budget: int)
    requires WellFormed(start.messages) && start.compaction.None? && SourceSteps(start, steps)
    requires Closed(AfterSteps(start, steps).messages) && Grouped(AfterSteps(start, steps).messages)
    ensures Paired(Trimmed(counter, ModelRequest(Assemble(AfterSteps(start, steps), prompt), tools), budget).messages)
  {
    FirstIsNoResult(start.messages);
    SourceStepsKeepAnchored(start, steps);
    RequestIsPaired(AfterSteps(start, steps), prompt, tools, counter, budget);
  }

  // ----- over whole histories -----

  lemma AnchoredMessage(state: RunState, m: Message)
    requires Anchored(state) && Follows(state.messages, m)
    ensures Anchored(state.(messages := state.messages + [m]))
  {
    AnchoredGrow(state, m);
  }

  lemma {:induction false} AnchoredFold(state: RunState, rs: seq<Resolved>)
    requires Anchored(state) && Distinct(CallsIn(rs)) && Ids(CallsIn(rs)) <= PendingIds(state)
    ensures Anchored(FoldResults(state, rs))
  {
    if rs != [] {
      var init, last := rs[..|rs| - 1], rs[|rs| - 1];
      assert CallsIn(rs) == CallsIn(init) + [last.call];
      DistinctSnoc(CallsIn(init), last.call);
      AnchoredFold(state, init);
      FoldKeepsOthers(state, init);
      ExceptIds(UnmatchedToolCalls(state.messages), Ids(CallsIn(init)));
      AnchoredMessage(FoldResults(state, init), ToolMessage(last.call.id, last.result.content));
    }
  }

  lemma AnchoredSealed(state: RunState)
    requires Anchored(state)
    ensures Anchored(Sealed(state))
  {
    var pending := UnmatchedToolCalls(state.messages);
    assert CallsIn(Interrupted(pending)) == pending;
    SatisfiedWereCalled(state.messages);
    AnchoredFold(state, Interrupted(pending));
  }

  /** Tidy, with the folded boundary off the results. */
  predicate Neat(state: RunState) { Tidy(state.messages) && Anchored(state) }

  /** As long as the protocol's bit is up, everything stored, in memory or asked is neat. */
  ghost predicate NeatWorld(w: World) {
    w.tidy ==>
      && (w.rec.Some? ==> Neat(w.rec.value.state))
      && (w.live.Some? ==> Neat(w.live.value.state) && Neat(w.live.value.anchor))
      && forall state :: state in w.asked ==> Neat(state)
  }

  lemma NeatMessage(state: RunState, m: Message)
    requires Neat(state) && Follows(state.messages, m) && (m.role.Tool? || UnmatchedToolCalls(state.messages) == [])
    ensures Neat(state.(messages := state.messages + [m]))
  {
    TidySnoc(state.messages, m);
    AnchoredMessage(state, m);
  }

  lemma NeatCreate(w: World, prompt: string, skills: Skills, now: nat)
    requires CanCreate(w) && NeatWorld(w)
    ensures NeatWorld(Created(w, prompt, skills, now))
  {
    NeatMessage(WithRunSkills(EMPTY_STATE, skills), UserMessage(prompt));
    assert [] + [UserMessage(prompt)] == [UserMessage(prompt)];
  }

  lemma NeatSealed(state: RunState)
    requires Neat(state)
    ensures Neat(Sealed(state)) && UnmatchedToolCalls(Sealed(state).messages) == []
  {
    TidySealed(state);
    AnchoredSealed(state);
    SealCloses(state);
  }

  lemma NeatClaim(w: World, extra: Option<string>, skills: Option<Skills>)
    requires CanClaim(w, extra) && NeatWorld(w)
    ensures NeatWorld(Claimed(w, extra, skills))
  {
    if w.tidy {
      var state := Loaded(w, skills);
      NeatSealed(state);
      if extra.Some? {
        NeatMessage(Sealed(state), UserMessage(extra.value));
      }
    }
  }

  lemma NeatAppends(w: World, a: Action)
    requires Inv(w) && Enabled(w, a) && NeatWorld(w) && (a.Reply? || a.Finish? || a.Spawn?)
    ensures NeatWorld(Apply(w, a))
  {
    if Apply(w, a).tidy {
      var state := w.live.value.state;
      match a {
        case Reply(r) => NeatMessage(state, ReplyMessage(r));
        case Finish(c, result) => NeatMessage(state, ToolMessage(c.id, result.content));
        case Spawn(base, c) => SpawnedNeatly(w, base, c);
      }
    }
  }

  lemma SpawnedNeatly(w: World, base: string, c: ToolCall)
    requires Inv(w) && CanSpawn(w, base, c) && Neat(w.live.value.state)
    requires UnmatchedToolCalls(w.live.value.state.messages) == []
    ensures Neat(Spawned(w, base, c).live.value.state)
  {
    assert c.id !in Mentioned(w);
    NeatMessage(w.live.value.state, Message(Assistant, "", [c], None, ""));
  }

  lemma NeatStep(w: World, a: Action)
    requires Inv(w) && Enabled(w, a) && NeatWorld(w)
    ensures NeatWorld(Apply(w, a))
  {
    if a.Create? {
      NeatCreate(w, a.prompt, a.skills, a.now);
    } else if a.Claim? {
      NeatClaim(w, a.extra, a.reselected);
    } else if a.Reply? || a.Finish? || a.Spawn? {
      NeatAppends(w, a);
    } else if a.SealInterrupt? && w.tidy {
      NeatSealed(w.rec.value.state);
    }
  }

  /** In every history in which each follow-up was synthesised and each full fold made with nothing
      pending, everything stored, in memory or asked is grouped and folded off the results. */
  lemma {:induction false} HistoriesStayNeat(log: seq<Action>)
    requires Replay(log).Some?
    ensures NeatWorld(Replay(log).value)
  {
    if log != [] {
      var init, a := log[..|log| - 1], log[|log| - 1];
      assert log == init + [a];
      HistoriesStayNeat(init);
      HistoryKeeps(init);
      NeatStep(Replay(init).value, a);
    }
  }

  /** No follow-up and no full fold made while a call was pending. */
  predicate Calm(w: World, a: Action) {
    && (a.Spawn? && w.live.Some? ==> UnmatchedToolCalls(w.live.value.state.messages) == [])
    && (a.FoldWhole? && w.rec.Some? ==> UnmatchedToolCalls(w.rec.value.state.messages) == [])
  }

  predicate CalmAt(log: seq<Action>, i: nat)
    requires i < |log|
  {
    Replay(log[..i]).Some? ==> Calm(Replay(log[..i]).value, log[i])
  }

  lemma CalmStep(w: World, a: Action)
    requires Enabled(w, a)
    ensures Apply(w, a).tidy <==> w.tidy && Calm(w, a)
  {
  }

  lemma CalmPrefix(log: seq<Action>, a: Action, i: nat)
    requires i < |log|
    ensures CalmAt(log + [a], i) <==> CalmAt(log, i)
  {
    assert (log + [a])[..i] == log[..i];
  }

  lemma CalmSnoc(log: seq<Action>, a: Action)
    requires Replay(log + [a]).Some?
    ensures Replay(log).Some?
    ensures Replay(log + [a]).value.tidy <==> Replay(log).value.tidy && CalmAt(log + [a], |log|)
  {
    assert (log + [a])[..|log|] == log;
    CalmStep(Replay(log).value, a);
  }

  /** What the bit means: it is up exactly if every follow-up and every full fold of the history
      found nothing pending. */
  lemma {:induction false} TidyMeans(log: seq<Action>)
    requires Replay(log).Some?
    ensures Replay(log).value.tidy <==> forall i {:trigger CalmAt(log, i)} :: 0 <= i < |log| ==> CalmAt(log, i)
  {
    if log != [] {
      var init, a := log[..|log| - 1], log[|log| - 1];
      assert log == init + [a];
      CalmSnoc(init, a);
      TidyMeans(init);
      forall i | 0 <= i < |init| ensures CalmAt(log, i) <==> CalmAt(init, i) {
        CalmPrefix(init, a, i);
      }
    }
  }

  /** In such a history every transcript a request was issued from may be cut before any message that
      is not a result. */
  lemma RequestsMayBeCut(log: seq<Action>, state: RunState, k: nat)
    requires Replay(log).Some? && Replay(log).value.tidy
    requires state in Replay(log).value.asked && AtBoundary(state.messages, k)
    ensures Paired(state.messages[k..])
  {
    HistoriesStayNeat(log);
    HistoryKeeps(log);
    GroupedSuffix(state.messages, k);
  }

  lemma LimitedRequest(basis: Basis, state: RunState)
    requires Neat(state) && Closed(state.messages)
    ensures Paired(RequestOf(basis, state).messages)
  {
    var full := FullRequest(basis, state);
    if basis.limit.Some? {
      RequestIsPaired(state, basis.prompt, basis.schemas, basis.limit.value.counter, basis.limit.value.budget);
    } else {
      BodySuffix(state, 0);
      assert Body(state)[0..] == Body(state);
      PlainFirst(SystemMessage(basis.prompt), Body(state));
    }
  }

  /** End to end: whatever entry points were called and however the visits ended, as long as each
      follow-up and each full fold found nothing pending, every request that was really sent keeps
      each result with its call and each call with its result. */
  lemma EverySentRequestIsPaired(hub: EventHub)
    requires hub.Valid() && hub.tidy
    ensures forall i :: 0 <= i < |hub.sent| ==> Paired(hub.sent[i].messages)
  {
    HistoriesStayNeat(hub.log);
    HistoryKeeps(hub.log);
    forall i | 0 <= i < |hub.sent| ensures Paired(hub.sent[i].messages) {
      assert SentAt(hub.sent, hub.basis, hub.asked, i);
      assert hub.asked[i] in hub.asked;
      LimitedRequest(hub.basis[i], hub.asked[i]);
    }
  }

  /** The system prompt and the schemas alone. */
  function Unavoidable(basis: Basis): ModelRequest { ModelRequest([SystemMessage(basis.prompt)], basis.schemas) }

  lemma LimitedCost(basis: Basis, state: RunState)
    requires WellFormed(state.messages) && basis.limit.Some?
    ensures var l := basis.limit.value;
      RequestTokens(l.counter, RequestOf(basis, state)) <= l.budget <==>
      RequestTokens(l.counter, Unavoidable(basis)) <= l.budget
  {
    AssembledParts(state, basis.prompt);
    TrimIsWithinBudget(basis.limit.value.counter, FullRequest(basis, state), basis.limit.value.budget);
  }

  /** Every request that was sent under a limit is within it if and only if the system prompt and
      the schemas alone are. */
  lemma EverySentRequestFits(hub: EventHub)
    requires hub.Valid()
    ensures forall i :: 0 <= i < |hub.sent| && hub.basis[i].limit.Some? ==>
              var l := hub.basis[i].limit.value;
              RequestTokens(l.counter, hub.sent[i]) <= l.budget <==>
              RequestTokens(l.counter, Unavoidable(hub.basis[i])) <= l.budget
  {
    HistoryKeeps(hub.log);
    forall i | 0 <= i < |hub.sent| && hub.basis[i].limit.Some?
      ensures var l := hub.basis[i].limit.value;
        RequestTokens(l.counter, hub.sent[i]) <= l.budget <==> RequestTokens(l.counter, Unavoidable(hub.basis[i])) <= l.budget
    {
      assert SentAt(hub.sent, hub.basis, hub.asked, i);
      assert hub.asked[i] in hub.asked;
      LimitedCost(hub.basis[i], hub.asked[i]);
    }
  }
}
