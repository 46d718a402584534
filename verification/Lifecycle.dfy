/** Every action keeps the protocol's invariant, hence whole histories are safe. */
module Lifecycle {
  import opened Domain
  import opened Transcript
  import opened Protocol

  // ----- ids and traces -----

  lemma FollowUpIds(x: string, y: string)
    ensures IsFollowUp(FollowUpId(x))
    ensures FollowUpId(x) == FollowUpId(y) ==> x == y
    ensures FollowUpId(x) != x
    ensures IsFollowUp(x) ==> x == FollowUpId(x[..|x| - |FOLLOW_UP|])
  {
    assert FollowUpId(x)[|FollowUpId(x)| - |FOLLOW_UP|..] == FOLLOW_UP;
    if FollowUpId(x) == FollowUpId(y) {
      assert x == FollowUpId(x)[..|x|] == FollowUpId(y)[..|y|] == y;
    }
    assert |FollowUpId(x)| == |x| + |FOLLOW_UP|;
  }

  lemma TraceSnoc(trace: seq<Event>, e: Event)
    ensures Touched(trace + [e]) == Touched(trace) + {e.id}
    ensures forall id :: id != e.id ==> Progress(trace + [e], id) == Progress(trace, id)
    ensures Progress(trace + [e], e.id) ==
            match e
            case Before(_) => if Progress(trace, e.id).Idle? then Opened else Broken
            case Begin(_) => if Progress(trace, e.id).Opened? then Executing else Broken
            case After(_) => if Progress(trace, e.id).Opened? || Progress(trace, e.id).Executing? then Finished else Broken
  {
    assert (trace + [e])[..|trace|] == trace;
  }

  lemma {:induction false} UntouchedIsIdle(trace: seq<Event>, id: string)
    ensures id !in Touched(trace) <==> Progress(trace, id) == Idle
  {
    if trace != [] {
      var init, e := trace[..|trace| - 1], trace[|trace| - 1];
      assert trace == init + [e];
      TraceSnoc(init, e);
      UntouchedIsIdle(init, id);
    }
  }

  // ----- good states -----

  /** Folding results changes nothing but the transcript. */
  lemma {:induction false} FoldShape(state: RunState, rs: seq<Resolved>)
    ensures FoldResults(state, rs) == state.(messages := FoldResults(state, rs).messages)
  {
    if rs != [] {
      FoldShape(state, rs[..|rs| - 1]);
    }
  }

  lemma GoodFold(state: RunState, rs: seq<Resolved>)
    requires GoodState(state)
    requires Distinct(CallsIn(rs)) && Ids(CallsIn(rs)) <= PendingIds(state)
    ensures GoodState(FoldResults(state, rs))
  {
    FoldKeepsOthers(state, rs);
    FoldShape(state, rs);
  }

  lemma GoodSealed(state: RunState)
    requires GoodState(state)
    ensures GoodState(Sealed(state))
    ensures UnmatchedToolCalls(Sealed(state).messages) == []
    ensures CallsOf(Sealed(state).messages) == CallsOf(state.messages)
  {
    var pending := UnmatchedToolCalls(state.messages);
    assert CallsIn(Interrupted(pending)) == pending;
    SatisfiedWereCalled(state.messages);
    SealCloses(state);
    GoodFold(state, Interrupted(pending));
  }

  lemma GoodUser(state: RunState, content: string)
    requires GoodState(state)
    ensures GoodState(AppendUserMessage(state, content))
    ensures UnmatchedToolCalls(AppendUserMessage(state, content).messages) == UnmatchedToolCalls(state.messages)
    ensures CallsOf(AppendUserMessage(state, content).messages) == CallsOf(state.messages)
  {
    UnmatchedSnoc(state.messages, UserMessage(content));
    Snoc(state.messages, UserMessage(content));
  }

  lemma GoodReply(state: RunState, r: ModelResponse)
    requires GoodState(state) && Fresh(r.toolCalls, state)
    ensures GoodState(AppendModelResponse(state, r))
    ensures UnmatchedToolCalls(AppendModelResponse(state, r).messages) ==
            UnmatchedToolCalls(state.messages) + r.toolCalls
    ensures CallsOf(AppendModelResponse(state, r).messages) == CallsOf(state.messages) + r.toolCalls
  {
    UnmatchedSnoc(state.messages, ReplyMessage(r));
    Snoc(state.messages, ReplyMessage(r));
  }

  lemma GoodResult(state: RunState, c: ToolCall, result: ToolResult)
    requires GoodState(state) && c.id in PendingIds(state)
    ensures GoodState(AppendToolResult(state, c, result))
  {
    ResultSnoc(state, c, result);
  }

  lemma SyntheticSnoc(ms: seq<Message>, c: ToolCall)
    requires WellFormed(ms) && c.id !in Ids(CallsOf(ms))
    ensures var after := ms + [Message(Assistant, "", [c], None, "")];
            WellFormed(after) && UnmatchedToolCalls(after) == UnmatchedToolCalls(ms) + [c]
            && CallsOf(after) == CallsOf(ms) + [c]
  {
    var m := Message(Assistant, "", [c], None, "");
    assert Ids([c]) == {c.id};
    UnmatchedSnoc(ms, m);
    Snoc(ms, m);
  }

  lemma GoodSynthetic(state: RunState, c: ToolCall)
    requires GoodState(state) && IsFollowUp(c.id) && c.id !in Ids(CallsOf(state.messages))
    ensures GoodState(AppendSyntheticToolCall(state, c))
    ensures UnmatchedToolCalls(AppendSyntheticToolCall(state, c).messages) ==
            UnmatchedToolCalls(state.messages) + [c]
    ensures CallsOf(AppendSyntheticToolCall(state, c).messages) == CallsOf(state.messages) + [c]
  {
    SyntheticSnoc(state.messages, c);
  }

  lemma PendingWereCalled(state: RunState)
    ensures PendingIds(state) <= Ids(CallsOf(state.messages))
    ensures PendingIds(state) == {} <==> UnmatchedToolCalls(state.messages) == []
  {
    ExceptIds(CallsOf(state.messages), Satisfied(state.messages));
    if UnmatchedToolCalls(state.messages) != [] {
      assert UnmatchedToolCalls(state.messages)[0].id in PendingIds(state);
    }
  }

  lemma IdsConcat(a: seq<ToolCall>, b: seq<ToolCall>)
    ensures Ids(a + b) == Ids(a) + Ids(b)
  {
  }

  lemma StartIsGood(prompt: string, skills: Skills)
    ensures GoodState(EMPTY_STATE) && GoodState(StartRun(WithRunSkills(EMPTY_STATE, skills), prompt))
    ensures CallsOf(StartRun(WithRunSkills(EMPTY_STATE, skills), prompt).messages) == []
    ensures UnmatchedToolCalls(StartRun(WithRunSkills(EMPTY_STATE, skills), prompt).messages) == []
  {
    GoodUser(WithRunSkills(EMPTY_STATE, skills), prompt);
    assert [] + [UserMessage(prompt)] == [UserMessage(prompt)];
  }

  // ----- one action at a time -----

  lemma CreateKeeps(w: World, prompt: string, skills: Skills, now: nat)
    requires Inv(w) && CanCreate(w)
    ensures Inv(Created(w, prompt, skills, now))
  {
    StartIsGood(prompt, skills);
  }

  lemma LaunchKeeps(w: World, now: nat)
    requires Inv(w) && CanLaunch(w, now)
    ensures Inv(Launched(w, now))
  {
    assert Mentioned(Launched(w, now)) <= Mentioned(w);
  }

  lemma ClaimedState(w: World, extra: Option<string>, skills: Option<Skills>)
    requires w.rec.Some? && GoodState(w.rec.value.state)
    ensures var state := ClaimedLive(w, extra, skills).state;
      && GoodState(state) && CallsOf(state.messages) == CallsOf(w.rec.value.state.messages)
      && (if w.rec.value.status.WaitingForApproval? then state.messages == w.rec.value.state.messages
          else PendingIds(state) == {})
  {
    var state := Loaded(w, skills);
    GoodSealed(state);
    if extra.Some? {
      GoodUser(Sealed(state), extra.value);
    }
    PendingWereCalled(ClaimedLive(w, extra, skills).state);
  }

  /** A fresh claim holds the right to the calls a waiting record exposes, and to nothing else. */
  lemma ClaimTokens(w: World, extra: Option<string>, skills: Option<Skills>)
    requires Inv(w) && CanClaim(w, extra)
    ensures TokensOk(ClaimedLive(w, extra, skills), w.trace)
  {
    ClaimedState(w, extra, skills);
    var l := ClaimedLive(w, extra, skills);
    assert l.open == {} && l.executing == {} && l.spawn == {} && l.stale == Dangling(w.trace);
    assert l.ready <= PendingIds(l.state);
    assert Untouched(w.trace, l.ready);
  }

  lemma ClaimLive(w: World, extra: Option<string>, skills: Option<Skills>)
    requires Inv(w) && CanClaim(w, extra)
    ensures LiveOk(Claimed(w, extra, skills))
  {
    ClaimedState(w, extra, skills);
    ClaimTokens(w, extra, skills);
  }

  lemma ClaimTrace(w: World, extra: Option<string>, skills: Option<Skills>)
    requires Inv(w) && CanClaim(w, extra)
    ensures TraceOk(Claimed(w, extra, skills))
  {
    ClaimedState(w, extra, skills);
    var w' := Claimed(w, extra, skills);
    assert LiveIds(w') == RecordIds(w);
    assert Mentioned(w') == Mentioned(w);
  }

  lemma ClaimKeeps(w: World, extra: Option<string>, skills: Option<Skills>)
    requires Inv(w) && CanClaim(w, extra)
    ensures Inv(Claimed(w, extra, skills))
  {
    ClaimLive(w, extra, skills);
    ClaimTrace(w, extra, skills);
  }

  lemma SwapKeeps(w: World, now: nat)
    requires Inv(w) && CanSwap(w, now)
    ensures Inv(Swapped(w, now))
  {
  }

  lemma CompactKeeps(w: World, c: CompactionState)
    requires Inv(w) && CanCompact(w, c)
    ensures Inv(CompactedLive(w, c))
  {
  }

  lemma FoldWholeKeeps(w: World, c: CompactionState, now: nat)
    requires Inv(w) && CanFoldWhole(w, c, now)
    ensures Inv(FoldedWhole(w, c, now))
  {
    assert Mentioned(FoldedWhole(w, c, now)) == Mentioned(w);
  }

  lemma AskKeeps(w: World)
    requires Inv(w) && CanAsk(w)
    ensures Inv(Asked(w))
  {
    var w' := Asked(w);
    assert Closed(w.live.value.state.messages);
    assert AskedOk(w');
    assert Mentioned(w') == Mentioned(w);
    assert TraceOk(w');
    assert TokensOk(w'.live.value, w'.trace);
    assert LiveOk(w');
  }

  lemma ReplyKeeps(w: World, r: ModelResponse)
    requires Inv(w) && CanReply(w, r)
    ensures Inv(Replied(w, r))
  {
    var l := w.live.value;
    GoodReply(l.state, r);
    IdsConcat(CallsOf(l.state.messages), r.toolCalls);
    assert UnmatchedToolCalls(l.state.messages) + r.toolCalls == r.toolCalls;
    forall id | id in Ids(r.toolCalls) ensures Progress(w.trace, id) == Idle {
      UntouchedIsIdle(w.trace, id);
    }
    var w' := Replied(w, r);
    forall x | FollowUpId(x) in Mentioned(w') ensures Progress(w'.trace, x) == Finished {
      FollowUpIds(x, x);
      assert FollowUpId(x) !in Ids(r.toolCalls);
      assert FollowUpId(x) in Mentioned(w);
    }
  }

  /** An event on a mentioned call only moves that call's stage. */
  lemma EventKeepsTrace(w: World, w': World, e: Event)
    requires TraceOk(w) && w'.trace == w.trace + [e]
    requires RecordIds(w') == RecordIds(w) && LiveIds(w') == LiveIds(w) && w.live.Some? && w'.live.Some?
    requires e.id in LiveIds(w) && (IsFollowUp(e.id) || e.id in RecordIds(w))
    requires Progress(w'.trace, e.id) != Broken && Progress(w.trace, e.id) != Finished
    requires w'.live.value.spawn <= w.live.value.spawn + {e.id}
    ensures TraceOk(w')
  {
    TraceSnoc(w.trace, e);
    assert Mentioned(w') == Mentioned(w);
    forall id ensures Progress(w'.trace, id) != Broken {}
    forall x | FollowUpId(x) in Mentioned(w') ensures Progress(w'.trace, x) == Finished {
      assert Progress(w.trace, x) == Finished;
    }
  }

  lemma DanglingSnoc(trace: seq<Event>, e: Event)
    ensures Dangling(trace + [e]) ==
            if Progress(trace + [e], e.id).Opened? || Progress(trace + [e], e.id).Executing?
            then Dangling(trace) + {e.id} else Dangling(trace) - {e.id}
  {
    TraceSnoc(trace, e);
  }

  lemma OpenTokens(l: Live, trace: seq<Event>, id: string)
    requires TokensOk(l, trace) && id in l.ready
    ensures TokensOk(l.(ready := l.ready - {id}, open := l.open + {id}), trace + [Before(id)])
    ensures Progress(trace + [Before(id)], id) == Opened && Progress(trace, id) == Idle
  {
    TraceSnoc(trace, Before(id));
    DanglingSnoc(trace, Before(id));
  }

  lemma OpenKeeps(w: World, c: ToolCall)
    requires Inv(w) && CanOpen(w, c)
    ensures Inv(OpenedCall(w, c))
  {
    OpenTokens(w.live.value, w.trace, c.id);
    assert c.id in LiveIds(w);
    EventKeepsTrace(w, OpenedCall(w, c), Before(c.id));
  }

  lemma ExecuteTokens(l: Live, trace: seq<Event>, id: string)
    requires TokensOk(l, trace) && id in l.open
    ensures TokensOk(l.(open := l.open - {id}, executing := l.executing + {id}), trace + [Begin(id)])
    ensures Progress(trace + [Begin(id)], id) == Executing && Progress(trace, id) == Opened
  {
    TraceSnoc(trace, Begin(id));
    DanglingSnoc(trace, Begin(id));
  }

  lemma ExecuteKeeps(w: World, id: string)
    requires Inv(w) && CanExecute(w, id)
    ensures Inv(ExecutedCall(w, id))
  {
    ExecuteTokens(w.live.value, w.trace, id);
    PendingWereCalled(w.live.value.state);
    UntouchedIsIdle(w.trace, id);
    EventKeepsTrace(w, ExecutedCall(w, id), Begin(id));
  }

  lemma FinishTokens(l: Live, l': Live, trace: seq<Event>, id: string)
    requires TokensOk(l, trace) && id in l.open + l.executing
    requires Progress(trace + [After(id)], id) == Finished
    requires PendingIds(l'.state) == PendingIds(l.state) - {id}
    requires l'.ready == l.ready && l'.open == l.open - {id} && l'.executing == l.executing - {id}
    requires l'.spawn == (if IsFollowUp(id) then l.spawn else l.spawn + {id}) && l'.stale == l.stale
    requires id !in l.stale
    ensures TokensOk(l', trace + [After(id)])
  {
    TraceSnoc(trace, After(id));
    DanglingSnoc(trace, After(id));
  }

  lemma FinishStage(w: World, c: ToolCall)
    requires Inv(w) && w.live.Some? && c.id in w.live.value.open + w.live.value.executing
    ensures c.id in PendingIds(w.live.value.state) && c.id !in w.live.value.stale
    ensures c.id in LiveIds(w) && (IsFollowUp(c.id) || c.id in RecordIds(w))
    ensures Progress(w.trace + [After(c.id)], c.id) == Finished
  {
    TraceSnoc(w.trace, After(c.id));
    PendingWereCalled(w.live.value.state);
    UntouchedIsIdle(w.trace, c.id);
  }

  lemma FinishLive(w: World, c: ToolCall, result: ToolResult)
    requires Inv(w) && CanFinish(w, c)
    ensures LiveOk(FinishedCall(w, c, result)) && LiveIds(FinishedCall(w, c, result)) == LiveIds(w)
  {
    var l := w.live.value;
    FinishStage(w, c);
    ResultSnoc(l.state, c, result);
    GoodResult(l.state, c, result);
    FinishTokens(l, FinishedCall(w, c, result).live.value, w.trace, c.id);
  }

  lemma FinishKeeps(w: World, c: ToolCall, result: ToolResult)
    requires Inv(w) && CanFinish(w, c)
    ensures Inv(FinishedCall(w, c, result))
  {
    FinishStage(w, c);
    FinishLive(w, c, result);
    EventKeepsTrace(w, FinishedCall(w, c, result), After(c.id));
  }

  lemma CommitKeeps(w: World)
    requires Inv(w) && CanCommit(w)
    ensures Inv(Committed(w))
  {
  }

  lemma SpawnTokens(l: Live, l': Live, trace: seq<Event>, base: string, id: string)
    requires TokensOk(l, trace) && id !in PendingIds(l.state) && Progress(trace, id) == Idle
    requires PendingIds(l'.state) == PendingIds(l.state) + {id}
    requires l' == l.(state := l'.state, anchor := l'.anchor, ready := l.ready + {id}, spawn := l.spawn - {base})
    ensures TokensOk(l', trace)
  {
  }

  lemma SpawnTrace(w: World, w': World, base: string)
    requires TraceOk(w) && w.live.Some? && w'.live.Some? && w'.trace == w.trace && RecordIds(w') == RecordIds(w)
    requires Progress(w.trace, base) == Finished
    requires LiveIds(w') == LiveIds(w) + {FollowUpId(base)}
    requires w'.live.value.spawn == w.live.value.spawn - {base}
    ensures TraceOk(w')
  {
    assert Mentioned(w') == Mentioned(w) + {FollowUpId(base)};
    forall x | FollowUpId(x) in Mentioned(w') ensures Progress(w'.trace, x) == Finished {
      FollowUpIds(x, base);
    }
    forall x | x in w'.live.value.spawn ensures FollowUpId(x) !in Mentioned(w') {
      FollowUpIds(x, base);
    }
  }

  lemma SpawnLive(w: World, base: string, c: ToolCall)
    requires Inv(w) && CanSpawn(w, base, c)
    ensures LiveOk(Spawned(w, base, c)) && LiveIds(Spawned(w, base, c)) == LiveIds(w) + {c.id}
  {
    var l := w.live.value;
    FollowUpIds(base, base);
    assert c.id !in Mentioned(w);
    UntouchedIsIdle(w.trace, c.id);
    PendingWereCalled(l.state);
    GoodSynthetic(l.state, c);
    assert Ids([c]) == {c.id};
    IdsConcat(CallsOf(l.state.messages), [c]);
    IdsConcat(UnmatchedToolCalls(l.state.messages), [c]);
    SpawnTokens(l, Spawned(w, base, c).live.value, w.trace, base, c.id);
  }

  lemma SpawnKeeps(w: World, base: string, c: ToolCall)
    requires Inv(w) && CanSpawn(w, base, c)
    ensures Inv(Spawned(w, base, c))
  {
    SpawnLive(w, base, c);
    SpawnTrace(w, Spawned(w, base, c), base);
  }

  lemma SaveKeeps(w: World, now: nat)
    requires Inv(w) && CanSave(w, now)
    ensures Inv(Saved(w, now))
  {
    assert Mentioned(Saved(w, now)) <= Mentioned(w);
  }

  /** A completed, paused or waiting halt finds no call open. */
  lemma CleanHaltLeavesNoneOpen(w: World, status: RunStatus, late: bool, now: nat)
    requires LiveOk(w) && CanHalt(w, status, late, now) && Clean(status)
    ensures w.live.value.open == {} && w.live.value.executing == {}
    ensures Dangling(w.trace) == w.live.value.stale
  {
    PendingWereCalled(w.live.value.state);
  }

  lemma HaltKeepsLive(w: World, status: RunStatus, late: bool, now: nat)
    requires LiveOk(w) && w.rec.Some? && CanHalt(w, status, late, now)
    ensures LiveOk(Halted(w, status, late, now))
  {
    if Clean(status) {
      CleanHaltLeavesNoneOpen(w, status, late, now);
    }
  }

  lemma HaltKeeps(w: World, status: RunStatus, late: bool, now: nat)
    requires Inv(w) && CanHalt(w, status, late, now)
    ensures Inv(Halted(w, status, late, now))
  {
    var w' := Halted(w, status, late, now);
    HaltKeepsLive(w, status, late, now);
    PendingWereCalled(w.live.value.state);
    assert RecordIds(w') == LiveIds(w);
    assert Mentioned(w') <= Mentioned(w);
  }

  lemma SealInterruptKeeps(w: World, now: nat)
    requires Inv(w) && CanSealInterrupt(w, now)
    ensures Inv(SealInterrupted(w, now))
  {
    GoodSealed(w.rec.value.state);
    assert Mentioned(SealInterrupted(w, now)) == Mentioned(w);
  }

  lemma LeaveKeeps(w: World)
    requires Inv(w) && CanLeave(w)
    ensures Inv(Left(w))
  {
    assert Mentioned(Left(w)) <= Mentioned(w);
  }

  lemma ActionKeeps(w: World, a: Action)
    requires Inv(w) && Enabled(w, a)
    ensures Inv(Apply(w, a))
  {
    match a
    case Create(prompt, skills, now) => CreateKeeps(w, prompt, skills, now);
    case Launch(now) => LaunchKeeps(w, now);
    case Claim(extra, skills) => ClaimKeeps(w, extra, skills);
    case Swap(now) => SwapKeeps(w, now);
    case Compact(c) => CompactKeeps(w, c);
    case FoldWhole(c, now) => FoldWholeKeeps(w, c, now);
    case Ask => AskKeeps(w);
    case Reply(r) => ReplyKeeps(w, r);
    case Open(c) => OpenKeeps(w, c);
    case Execute(id) => ExecuteKeeps(w, id);
    case Finish(c, result) => FinishKeeps(w, c, result);
    case Commit => CommitKeeps(w);
    case Spawn(base, c) => SpawnKeeps(w, base, c);
    case Save(now) => SaveKeeps(w, now);
    case Halt(status, late, now) => HaltKeeps(w, status, late, now);
    case SealInterrupt(now) => SealInterruptKeeps(w, now);
    case Leave => LeaveKeeps(w);
  }

  /** Every world a history leads to satisfies the invariant. */
  lemma {:induction false} HistoryKeeps(log: seq<Action>)
    requires Replay(log).Some?
    ensures Inv(Replay(log).value)
  {
    if log == [] {
      assert Inv(INITIAL);
    } else {
      HistoryKeeps(log[..|log| - 1]);
      ActionKeeps(Replay(log[..|log| - 1]).value, log[|log| - 1]);
    }
  }
}
