/** The model -> tool -> model loop (`events/loop.py`): each stage does what `Outcomes` prescribes. */
module Loop {
  import opened Domain
  import opened Transcript
  import opened Protocol
  import opened Lifecycle
  import opened ToolStep
  import opened Turns
  import opened Hub
  import opened Batch
  import opened Compaction
  import opened Outcomes
  import opened Budget

  // ----- the loop's stations -----

  /** Ready to ask from `state`; the record may still lack the compaction applied to it. */
  predicate MayAsk(w: World, state: RunState) {
    Active(w) && !w.live.value.awaiting
    && w.live.value.state == state && w.live.value.anchor == state
    && UnmatchedToolCalls(state.messages) == []
  }

  predicate RecordHolds(w: World, stored: RunState) {
    w.rec.Some? && w.rec.value.status.Running? && w.rec.value.state == stored
  }

  /** Between two turns the record is RUNNING and holds the very state the loop goes on from. */
  predicate LoopHead(w: World, state: RunState) { MayAsk(w, state) && RecordHolds(w, state) }

  /** The model request is out: `state` is closed and the answer may come. */
  predicate Waiting(w: World, state: RunState) {
    Active(w) && w.live.value.awaiting && w.live.value.spawn == {}
    && w.live.value.state == state && w.live.value.anchor == state
    && UnmatchedToolCalls(state.messages) == []
  }

  /** The model has answered with `calls`, the answer is stored, and nothing of them has run. */
  predicate Answered(w: World, state: RunState, calls: seq<ToolCall>) {
    Active(w) && !w.live.value.awaiting
    && w.live.value.state == state && w.live.value.anchor == state && RecordHolds(w, state)
    && w.live.value.ready == Ids(calls) && w.live.value.open == {} && w.live.value.executing == {}
    && w.live.value.spawn == {}
    && UnmatchedToolCalls(state.messages) == calls
    && forall c :: c in calls ==> !IsFollowUp(c.id)
  }

  /** A batch is through: what is pending is exactly what may still be opened. */
  predicate Ran(w: World, state: RunState, pending: seq<ToolCall>) {
    Active(w) && !w.live.value.awaiting && w.rec.value.status.Running?
    && w.live.value.state == state && w.live.value.anchor == state
    && w.live.value.open == {} && w.live.value.executing == {}
    && UnmatchedToolCalls(state.messages) == pending && w.live.value.ready == Ids(pending)
  }

  predicate EndsWithReply(state: RunState, response: ModelResponse) {
    state.messages != [] && state.messages[|state.messages| - 1] == ReplyMessage(response)
  }

  /** A stage did what it must: it ended the Run as prescribed or goes on with the prescribed state. */
  ghost predicate Met(w: World, must: TurnResult, state: RunState, ended: bool, ending: Ending, shown: seq<ToolCall>) {
    && (ended <==> !must.GoesOn?)
    && (ended ==> Meets(w, must, ending, shown))
    && (!ended ==> must == GoesOn(state))
  }

  // ----- ending a Run -----

  lemma CleanHaltBalances(log: seq<Action>, w: World, status: RunStatus, now: nat)
    requires Replay(log) == Some(w) && CanHalt(w, status, false, now) && Clean(status)
    ensures Dangling(w.trace) == w.live.value.stale
  {
    HistoryKeeps(log);
    CleanHaltLeavesNoneOpen(w, status, false, now);
  }

  function InRecord(w: World): Stored
    requires w.rec.Some?
  {
    Stored(w.rec.value.status, w.rec.value.state)
  }

  /** The exception handlers: the loop's own variable is stored, with the reason. */
  method HandleFault(hub: EventHub, state: RunState, kind: Kind, again: bool) returns (ending: Ending, shown: seq<ToolCall>)
    requires hub.Valid() && hub.world.rec.Some? && hub.world.live.Some? && hub.world.live.value.owned
    requires hub.world.live.value.anchor == state
    modifies hub`log, hub`world, hub.store
    ensures hub.Valid() && old(hub.log) <= hub.log && hub.store.Others(hub.runId) == old(hub.store.Others(hub.runId))
    ensures Meets(hub.world, Handled(kind, state, again, old(InRecord(hub.world))), ending, shown)
    ensures kind.TaskCancel? ==> hub.world == old(hub.world) && ending.Died?
    ensures kind.Raises? ==> InRecord(hub.world) == Stored(Failed, state)
    ensures kind.TokenCancel? ==> InRecord(hub.world) == Stored(Cancelled, state)
    ensures !kind.TaskCancel? ==> (ending.Died? <==> again)
  {
    shown := [];
    if kind.TaskCancel? {
      return Died, shown;
    }
    var status := if kind.Raises? then Failed else Cancelled;
    var message := if kind.Raises? then "failed" else "cancelled";
    hub.Terminate(state, status, message, true);
    ending := if again then Died else Returned(RunResult(status, message, state.completedModelCalls, state.usage));
  }

  /** A terminal event; its observers may raise after it is stored. */
  method EndRun(hub: EventHub, state: RunState, status: RunStatus, message: string, exposed: seq<ToolCall>, parting: Parting)
    returns (ending: Ending, shown: seq<ToolCall>)
    requires hub.Valid() && Active(hub.world) && CanHalt(hub.world, status, !Clean(status), hub.store.clock)
    requires hub.world.live.value.anchor == state && (Clean(status) ==> hub.world.live.value.state == state)
    requires status.Completed? ==> EndsWithAnswer(state, message)
    requires status.WaitingForApproval? ==> exposed == UnmatchedToolCalls(state.messages)
    modifies hub`log, hub`world, hub.store
    ensures hub.Valid() && old(hub.log) <= hub.log && hub.store.Others(hub.runId) == old(hub.store.Others(hub.runId))
    ensures Meets(hub.world, Terminal(status, state, exposed, parting), ending, shown)
  {
    if Clean(status) {
      CleanHaltBalances(hub.log, hub.world, status, hub.store.clock);
    }
    hub.Terminate(state, status, message, !Clean(status));
    match parting.fault {
      case None =>
        ending, shown := Returned(RunResult(status, message, state.completedModelCalls, state.usage)), exposed;
      case Some(kind) =>
        ending, shown := HandleFault(hub, state, kind, parting.again);
    }
  }

  // ----- asking the model -----

  /** `_apply_control`: proposals are applied in order, so the last one stands. */
  method ApplyControl(start: RunState, proposals: seq<Compacted>) returns (state: RunState, applied: Option<Compacted>)
    ensures applied == if proposals == [] then None else Some(proposals[|proposals| - 1])
    ensures state == Shaped(start, applied)
  {
    state, applied := start, None;
    for i := 0 to |proposals|
      invariant applied == if i == 0 then None else Some(proposals[i - 1])
      invariant state == Shaped(start, applied)
    {
      state := state.(compaction := Some(proposals[i].compaction));
      applied := Some(proposals[i]);
    }
  }

  /** The `before_model` handlers' proposals, applied. */
  method Shape(hub: EventHub, frame: Frame, start: RunState, turn: Turn) returns (state: RunState, applied: bool)
    requires hub.Valid() && LoopHead(hub.world, start)
    modifies hub`log, hub`world
    ensures hub.Valid() && old(hub.log) <= hub.log
    ensures MayAsk(hub.world, state) && RecordHolds(hub.world, start) && state == ShapedState(frame, start, turn)
    ensures applied <==> Proposes(frame, start, turn).Some?
  {
    var proposals: seq<Compacted> := [];
    if frame.compactor != null {
      var proposal := frame.compactor.OnBeforeModel(PlainRequest(frame, start), start, turn.summarize);
      if proposal.Some? {
        proposals := [proposal.value];
      }
    }
    var last;
    state, last := ApplyControl(start, proposals);
    applied := last.Some?;
    if applied {
      hub.Note(Compact(last.value.compaction));
    }
  }

  /** Poll, announce the turn, let the handlers shape the state. */
  method Prepare(hub: EventHub, frame: Frame, start: RunState, turn: Turn)
    returns (state: RunState, ended: bool, ending: Ending, shown: seq<ToolCall>)
    requires hub.Valid() && LoopHead(hub.world, start)
    modifies hub`log, hub`world, hub.store
    ensures hub.Valid() && old(hub.log) <= hub.log && hub.store.Others(hub.runId) == old(hub.store.Others(hub.runId))
    ensures Met(hub.world, ShapeResult(frame, start, turn), state, ended, ending, shown)
    ensures !ended ==>
      MayAsk(hub.world, state) && RecordHolds(hub.world, start) && state == ShapedState(frame, start, turn)
  {
    state, ended, ending, shown := start, true, Died, [];
    if turn.cancelledAtHead {
      ending, shown := EndRun(hub, state, Cancelled, "cancelled", [], turn.parting);
      return;
    }
    if Hits(turn, AtTurnStarted) || Hits(turn, AtShaping) {
      ending, shown := HandleFault(hub, state, turn.fault.kind, turn.parting.again);
      return;
    }
    var applied;
    state, applied := Shape(hub, frame, start, turn);
    if applied && Hits(turn, AtCompaction) {
      ending, shown := HandleFault(hub, state, turn.fault.kind, turn.parting.again);
      return;
    }
    ended := false;
  }

  /** The limit requests are trimmed to, if there is one. */
  function LimitOf(frame: Frame): Option<Limit>
    reads if frame.budget == null then {} else {frame.budget}
  {
    if frame.budget == null then None else frame.budget.Enforced()
  }

  /** What the request for a state is made of. */
  function BasisOf(frame: Frame, limit: Option<Limit>, state: RunState): Basis {
    Basis(frame.prompt(state), frame.schemas, limit)
  }

  /** Each request since was made for its state with the frame's prompt, schemas and budget. */
  ghost predicate MadeSince(frame: Frame, limit: Option<Limit>, before: seq<Basis>, basis: seq<Basis>, asked: seq<RunState>) {
    && before <= basis && |basis| == |asked|
    && forall i {:trigger basis[i]} :: |before| <= i < |basis| ==> basis[i] == BasisOf(frame, limit, asked[i])
  }

  lemma MadeTogether(frame: Frame, limit: Option<Limit>, before: seq<Basis>, mid: seq<Basis>, after: seq<Basis>,
                     asked: seq<RunState>, later: seq<RunState>)
    requires MadeSince(frame, limit, before, mid, asked) && MadeSince(frame, limit, mid, after, later) && asked <= later
    ensures MadeSince(frame, limit, before, after, later)
  {
    forall i | |before| <= i < |after| ensures after[i] == BasisOf(frame, limit, later[i]) {
      if i < |mid| {
        assert after[i] == mid[i] && later[i] == asked[i];
      }
    }
  }

  /** The request is assembled, trimmed if there is a budget, and sent. */
  method SendRequest(hub: EventHub, frame: Frame, state: RunState)
    requires hub.Valid() && MayAsk(hub.world, state)
    modifies hub`asked, hub`sent, hub`basis, hub`log, hub`world
    ensures hub.Valid() && old(hub.log) <= hub.log && Waiting(hub.world, state) && hub.world.rec == old(hub.world).rec
    ensures hub.asked == old(hub.asked) + [state] && hub.sent == old(hub.sent) + [RequestOf(BasisOf(frame, LimitOf(frame), state), state)]
    ensures MadeSince(frame, LimitOf(frame), old(hub.basis), hub.basis, hub.asked)
  {
    var request := PlainRequest(frame, state);
    if frame.budget != null {
      request := frame.budget.Trim(request);
    }
    hub.Send(state, request, BasisOf(frame, LimitOf(frame), state));
  }

  lemma NothingOpenWhileWaiting(log: seq<Action>, w: World, state: RunState)
    requires Replay(log) == Some(w) && Waiting(w, state)
    ensures w.live.value.open == {} && w.live.value.executing == {}
  {
    HistoryKeeps(log);
  }

  /** The answer's calls are exactly what is pending, and exactly what may be opened. */
  lemma AnswerIsPending(log: seq<Action>, w: World, state: RunState, r: ModelResponse, now: nat)
    requires Replay(log) == Some(w) && Waiting(w, state) && Fresh(r.toolCalls, state)
    requires w.rec.value.updatedAt < now && w.rec.value.status.Running?
    ensures Answered(Saved(Replied(w, r), now), AppendModelResponse(state, r), r.toolCalls)
    ensures CallsOf(AppendModelResponse(state, r).messages) == CallsOf(state.messages) + r.toolCalls
  {
    NothingOpenWhileWaiting(log, w, state);
    assert GoodState(state) by { HistoryKeeps(log); }
    GoodReply(state, r);
    assert [] + r.toolCalls == r.toolCalls;
  }

  lemma FreshFromUsed(state: RunState, calls: seq<ToolCall>, used: set<string>)
    requires Distinct(calls) && (forall c :: c in calls ==> !IsFollowUp(c.id)) && Ids(calls) !! used
    requires ModelIssued(Ids(CallsOf(state.messages))) <= used
    ensures Fresh(calls, state)
  {
    forall id | id in Ids(calls) ensures id !in Ids(CallsOf(state.messages)) {
      assert !IsFollowUp(id);
    }
  }

  /** The answer joins the transcript and is announced. */
  method StoreAnswer(hub: EventHub, start: RunState, turn: Turn, ghost used: set<string>) returns (state: RunState)
    requires hub.Valid() && Waiting(hub.world, start) && FreshTurn(turn, used) && turn.reply.WorkFirst?
    requires hub.world.rec.value.status.Running?
    requires ModelIssued(Ids(CallsOf(start.messages))) <= used
    modifies hub`log, hub`world, hub.store
    ensures hub.Valid() && old(hub.log) <= hub.log && hub.store.Others(hub.runId) == old(hub.store.Others(hub.runId))
    ensures state == AppendModelResponse(start, turn.reply.result) && EndsWithReply(state, turn.reply.result)
    ensures Answered(hub.world, state, turn.reply.result.toolCalls)
    ensures ModelIssued(Ids(CallsOf(state.messages))) <= used + NewIds(turn)
  {
    var response := turn.reply.result;
    FreshFromUsed(start, response.toolCalls, used);
    AnswerIsPending(hub.log, hub.world, start, response, hub.store.clock);
    IdsConcat(CallsOf(start.messages), response.toolCalls);
    state := AppendModelResponse(start, response);
    hub.AfterModel(response, state);
  }

  /** From the request to the model's answer; a tie with cancellation goes to cancellation. */
  method TakeReply(hub: EventHub, start: RunState, ghost stored: RunState, turn: Turn, ghost used: set<string>)
    returns (state: RunState, response: ModelResponse, ended: bool, ending: Ending, shown: seq<ToolCall>)
    requires hub.Valid() && Waiting(hub.world, start) && RecordHolds(hub.world, stored) && FreshTurn(turn, used)
    requires ModelIssued(Ids(CallsOf(start.messages))) <= used
    modifies hub`log, hub`world, hub.store
    ensures hub.Valid() && old(hub.log) <= hub.log && hub.store.Others(hub.runId) == old(hub.store.Others(hub.runId))
    ensures Met(hub.world, ReplyResult(start, stored, turn), state, ended, ending, shown)
    ensures !ended ==>
      && turn.reply == WorkFirst(response)
      && EndsWithReply(state, response) && Answered(hub.world, state, response.toolCalls)
      && ModelIssued(Ids(CallsOf(state.messages))) <= used + NewIds(turn)
  {
    state, ended, ending, shown := start, true, Died, [];
    response := ModelResponse("", [], NO_USAGE, "");
    if Hits(turn, InModel) {
      ending, shown := HandleFault(hub, state, turn.fault.kind, turn.parting.again);
      return;
    }
    match RunCancellable(turn.reply, false) {
      case Stopped =>
        ending, shown := EndRun(hub, state, Cancelled, "cancelled", [], turn.parting);
        return;
      case Done(r) =>
        response := r;
    }
    state := StoreAnswer(hub, state, turn, used);
    if Hits(turn, AtAfterModel) {
      ending, shown := HandleFault(hub, state, turn.fault.kind, turn.parting.again);
      return;
    }
    ended := false;
  }

  /** An answer without tool calls completes the Run; otherwise cancellation is polled. */
  method AfterAnswer(hub: EventHub, state: RunState, response: ModelResponse, turn: Turn)
    returns (ended: bool, ending: Ending, shown: seq<ToolCall>)
    requires hub.Valid() && Answered(hub.world, state, response.toolCalls)
    requires EndsWithReply(state, response)
    modifies hub`log, hub`world, hub.store
    ensures hub.Valid() && old(hub.log) <= hub.log && hub.store.Others(hub.runId) == old(hub.store.Others(hub.runId))
    ensures Met(hub.world, AnswerResult(state, response.toolCalls, turn), state, ended, ending, shown)
    ensures ended && ending.Returned? && ending.result.status.Completed? ==>
      response.toolCalls == [] && ending.result.finalMessage == response.content
    ensures response.toolCalls == [] && !Hits(turn, AtTurnEnded) && turn.parting.fault.None? ==>
      ended && ending.Returned? && ending.result.status.Completed?
    ensures !ended ==> hub.world == old(hub.world) && hub.log == old(hub.log)
  {
    ended, ending, shown := true, Died, [];
    if response.toolCalls == [] {
      if Hits(turn, AtTurnEnded) {
        ending, shown := HandleFault(hub, state, turn.fault.kind, turn.parting.again);
      } else {
        ending, shown := EndRun(hub, state, Completed, response.content, [], turn.parting);
      }
    } else if turn.cancelledAfterReply {
      ending, shown := EndRun(hub, state, Cancelled, "cancelled", [], turn.parting);
    } else {
      ended := false;
    }
  }

  // ----- running the turn's tool calls -----

  /** Of the calls opened since, exactly the follow-ups were not stored. */
  predicate OpenedSince(before: seq<Opening>, after: seq<Opening>) {
    before <= after && OnlyFollowUpsUnstored(after[|before|..])
  }

  lemma OpenedNothing(os: seq<Opening>)
    ensures OpenedSince(os, os)
  {
  }

  lemma OpenedMore(before: seq<Opening>, mid: seq<Opening>, new_: seq<Opening>)
    requires OpenedSince(before, mid) && OnlyFollowUpsUnstored(new_)
    ensures OpenedSince(before, mid + new_)
  {
    assert (mid + new_)[|before|..] == mid[|before|..] + new_;
  }

  lemma OpenedTogether(before: seq<Opening>, mid: seq<Opening>, after: seq<Opening>)
    requires OpenedSince(before, mid) && OpenedSince(mid, after)
    ensures OpenedSince(before, after)
  {
    OpenedMore(before, mid, after[|mid|..]);
    assert mid + after[|mid|..] == after;
  }

  lemma PendingIsDistinct(log: seq<Action>, w: World)
    requires Replay(log) == Some(w) && w.live.Some?
    ensures WellFormed(w.live.value.state.messages)
    ensures Distinct(UnmatchedToolCalls(w.live.value.state.messages))
    ensures forall c :: c in UnmatchedToolCalls(w.live.value.state.messages) ==> c in CallsOf(w.live.value.state.messages)
  {
    HistoryKeeps(log);
    SatisfiedWereCalled(w.live.value.state.messages);
    ExceptIds(CallsOf(w.live.value.state.messages), Satisfied(w.live.value.state.messages));
  }

  lemma FirstBatchReady(log: seq<Action>, w: World, state: RunState, calls: seq<ToolCall>, policy: Policy)
    requires Replay(log) == Some(w) && Answered(w, state, calls)
    ensures BatchReady(w, state, Runnable(calls, policy))
    ensures WellFormed(state.messages) && Distinct(calls)
  {
    PendingIsDistinct(log, w);
    RunnableDistinct(calls, policy);
    SplitMembers(calls, policy);
  }

  /** A batch without stopped calls leaves exactly the calls that were not in it. */
  lemma BatchLeavesHeld(w0: World, w: World, kept: seq<ToolCall>, calls: seq<ToolCall>, policy: Policy, tools: Tools)
    requires Active(w0) && w0.live.value.ready == Ids(kept + calls)
    requires WellFormed(w0.live.value.state.messages)
    requires UnmatchedToolCalls(w0.live.value.state.messages) == kept + calls && Distinct(kept + calls)
    requires BatchDone(w0, w, Runnable(calls, policy), Settled(Runnable(calls, policy), tools))
    requires !AnyStopped(Runnable(calls, policy), tools)
    requires w0.rec.value.status.Running?
    ensures Ran(w, FoldResults(w0.live.value.state, Settled(Runnable(calls, policy), tools)), kept + Held(calls, policy))
  {
    var orders := Runnable(calls, policy);
    var settled, ran := Settled(orders, tools), Ids(CallsOfOrders(orders));
    NoneStopped(orders, tools);
    DistinctParts(kept, calls);
    RunnableDistinct(calls, policy);
    SplitIds(calls, policy);
    IdsConcat(kept, calls);
    FoldKeepsOthers(w0.live.value.state, settled);
    ExceptConcat(kept, calls, ran);
    ExceptNone(kept, ran);
    IdsConcat(kept, Held(calls, policy));
  }

  /** Follow-ups for the first `i` results are in the transcript; the rest may still be spawned. */
  predicate Spawning(w: World, base: RunState, held: seq<ToolCall>, settled: seq<Resolved>, i: nat) {
    i <= |settled|
    && Ran(w, AppendSynthetics(base, Synthesized(settled[..i])), held + Synthesized(settled[..i]))
    && forall j :: i <= j < |settled| ==> settled[j].call.id in w.live.value.spawn
  }

  lemma SpawnIsNew(log: seq<Action>, w: World, base: string, c: ToolCall)
    requires Replay(log) == Some(w) && CanSpawn(w, base, c)
    ensures WellFormed(w.live.value.state.messages) && c.id !in Ids(CallsOf(w.live.value.state.messages))
  {
    HistoryKeeps(log);
    assert c.id !in Mentioned(w);
  }

  lemma RanSpawn(w: World, state: RunState, pending: seq<ToolCall>, base: string, c: ToolCall)
    requires Ran(w, state, pending) && CanSpawn(w, base, c)
    requires WellFormed(state.messages) && c.id !in Ids(CallsOf(state.messages))
    ensures Ran(Spawned(w, base, c), AppendSyntheticToolCall(state, c), pending + [c])
  {
    SyntheticSnoc(state.messages, c);
    IdsConcat(pending, [c]);
    assert Ids([c]) == {c.id};
  }

  lemma OthersDiffer(settled: seq<Resolved>, i: nat)
    requires Distinct(CallsIn(settled)) && i < |settled|
    ensures forall j :: i + 1 <= j < |settled| ==> settled[j].call.id != settled[i].call.id
  {
    forall j | i + 1 <= j < |settled| ensures settled[j].call.id != settled[i].call.id {
      assert CallsIn(settled)[i].id != CallsIn(settled)[j].id;
    }
  }

  lemma SpawningStep(log: seq<Action>, w: World, base: RunState, held: seq<ToolCall>, settled: seq<Resolved>,
                     i: nat, c: ToolCall)
    requires Replay(log) == Some(w) && Spawning(w, base, held, settled, i) && i < |settled|
    requires Distinct(CallsIn(settled)) && Synthesize(settled[i]) == [c]
    ensures CanSpawn(w, settled[i].call.id, c)
    ensures Spawning(Spawned(w, settled[i].call.id, c), base, held, settled, i + 1)
  {
    var id, sofar := settled[i].call.id, Synthesized(settled[..i]);
    SynthesizedSnoc(settled, i);
    SyntheticsSnoc(base, sofar, c);
    SpawnIsNew(log, w, id, c);
    RanSpawn(w, w.live.value.state, held + sofar, id, c);
    ConcatAssoc(held, sofar, [c]);
    OthersDiffer(settled, i);
  }

  lemma NothingToSpawn(w: World, base: RunState, held: seq<ToolCall>, settled: seq<Resolved>, i: nat)
    requires Spawning(w, base, held, settled, i) && i < |settled| && Synthesize(settled[i]) == []
    ensures Spawning(w, base, held, settled, i + 1) && Synthesized(settled[..i + 1]) == Synthesized(settled[..i])
  {
    SynthesizedSnoc(settled, i);
    assert Synthesized(settled[..i]) + [] == Synthesized(settled[..i]);
  }

  /** One result: the follow-up it asks for, if any, joins the transcript. */
  method SpawnOne(hub: EventHub, start: RunState, settled: seq<Resolved>, ghost held: seq<ToolCall>, i: nat, before: RunState,
                  sofar: seq<ToolCall>)
    returns (state: RunState, synthesized: seq<ToolCall>)
    requires hub.Valid() && i < |settled| && Distinct(CallsIn(settled)) && Spawning(hub.world, start, held, settled, i)
    requires sofar == Synthesized(settled[..i]) && before == AppendSynthetics(start, sofar)
    modifies hub`log, hub`world, hub`tidy
    ensures hub.Valid() && old(hub.log) <= hub.log && hub.world.rec == old(hub.world).rec
    ensures synthesized == Synthesized(settled[..i + 1]) && state == AppendSynthetics(start, synthesized)
    ensures Spawning(hub.world, start, held, settled, i + 1)
    ensures if synthesized == sofar then hub.tidy == old(hub.tidy)
            else |synthesized| == |sofar| + 1 && hub.tidy == (old(hub.tidy) && held + sofar == [])
  {
    var r := settled[i];
    state, synthesized := before, sofar;
    if r.result.followUp.None? {
      NothingToSpawn(hub.world, start, held, settled, i);
      return;
    }
    var f := r.result.followUp.value;
    var synthetic := ToolCall(FollowUpId(r.call.id), f.toolName, f.arguments);
    SynthesizedSnoc(settled, i);
    SpawningStep(hub.log, hub.world, start, held, settled, i, synthetic);
    SyntheticsSnoc(start, synthesized, synthetic);
    state := AppendSyntheticToolCall(state, synthetic);
    hub.NoteSpawn(r.call.id, synthetic);
    synthesized := synthesized + [synthetic];
  }

  /** The loop over a batch's results that synthesises the requested follow-up calls. */
  method SpawnFollowUps(hub: EventHub, start: RunState, settled: seq<Resolved>, ghost held: seq<ToolCall>)
    returns (state: RunState, synthesized: seq<ToolCall>)
    requires hub.Valid() && Ran(hub.world, start, held) && Distinct(CallsIn(settled))
    requires Ids(CallsIn(settled)) <= hub.world.live.value.spawn
    modifies hub`log, hub`world, hub`tidy
    ensures hub.Valid() && old(hub.log) <= hub.log && hub.world.rec == old(hub.world).rec
    ensures synthesized == Synthesized(settled) && state == AppendSynthetics(start, synthesized)
    ensures Ran(hub.world, state, held + synthesized)
    ensures hub.tidy == (old(hub.tidy) && (synthesized == [] || (|synthesized| == 1 && held == [])))
  {
    state, synthesized := start, [];
    NothingSpawned(hub.world, start, held, settled);
    for i := 0 to |settled|
      invariant hub.Valid() && old(hub.log) <= hub.log && hub.world.rec == old(hub.world).rec
      invariant synthesized == Synthesized(settled[..i]) && state == AppendSynthetics(start, synthesized)
      invariant Spawning(hub.world, start, held, settled, i)
      invariant hub.tidy == (old(hub.tidy) && (synthesized == [] || (|synthesized| == 1 && held == [])))
    {
      state, synthesized := SpawnOne(hub, start, settled, held, i, state, synthesized);
    }
    assert settled[..|settled|] == settled;
  }

  lemma NothingSpawned(w: World, start: RunState, held: seq<ToolCall>, settled: seq<Resolved>)
    requires Ran(w, start, held) && Ids(CallsIn(settled)) <= w.live.value.spawn
    ensures Spawning(w, start, held, settled, 0)
  {
    assert held + [] == held && settled[..0] == [];
    forall j | 0 <= j < |settled| ensures settled[j].call.id in w.live.value.spawn {
      assert CallsIn(settled)[j] in CallsIn(settled);
    }
  }

  lemma SecondBatchReady(log: seq<Action>, w: World, state: RunState, held: seq<ToolCall>,
                         settled: seq<Resolved>, policy: Policy)
    requires Replay(log) == Some(w) && Ran(w, state, held + Synthesized(settled))
    ensures BatchReady(w, state, Runnable(Synthesized(settled), policy))
    ensures Distinct(held + Synthesized(settled)) && WellFormed(state.messages)
  {
    var synthetic := Synthesized(settled);
    PendingIsDistinct(log, w);
    DistinctParts(held, synthetic);
    RunnableDistinct(synthetic, policy);
    SplitMembers(synthetic, policy);
    FollowUpsAreFollowUps(settled);
  }

  /** After a batch: broken off, the Run ends with the state before it; cancelled, with everything
      the batch completed. */
  method ConcludeBatch(hub: EventHub, before: RunState, after: RunState, cancelled: bool, raised: bool, turn: Turn)
    returns (ended: bool, ending: Ending, shown: seq<ToolCall>)
    requires hub.Valid() && Active(hub.world)
    requires raised ==> turn.fault.Fault?
    requires hub.world.live.value.anchor == if raised then before else after
    modifies hub`log, hub`world, hub.store
    ensures hub.Valid() && old(hub.log) <= hub.log && hub.store.Others(hub.runId) == old(hub.store.Others(hub.runId))
    ensures ended <==> raised || cancelled
    ensures !ended ==> hub.world == old(hub.world) && hub.log == old(hub.log)
    ensures ended ==>
      Meets(hub.world, if raised then Handled(turn.fault.kind, before, turn.parting.again, old(InRecord(hub.world)))
                       else Terminal(Cancelled, after, [], turn.parting), ending, shown)
  {
    ended, ending, shown := raised || cancelled, Died, [];
    if raised {
      ending, shown := HandleFault(hub, before, turn.fault.kind, turn.parting.again);
    } else if cancelled {
      ending, shown := EndRun(hub, after, Cancelled, "cancelled", [], turn.parting);
    }
  }

  lemma ResolvedAreModelIssued(calls: seq<ToolCall>, policy: Policy, tools: Tools)
    requires Distinct(calls) && forall c :: c in calls ==> !IsFollowUp(c.id)
    ensures var ids := Ids(CallsIn(Settled(Runnable(calls, policy), tools))); ModelIssued(ids) == ids
    ensures Distinct(CallsIn(Settled(Runnable(calls, policy), tools)))
  {
    RunnableDistinct(calls, policy);
    SettledExactly(Runnable(calls, policy), tools);
    SplitIds(calls, policy);
  }

  lemma FirstBatchDone(w0: World, w: World, start: RunState, calls: seq<ToolCall>, policy: Policy, tools: Tools)
    requires Answered(w0, start, calls) && WellFormed(start.messages) && Distinct(calls) && !Stops(calls, policy, tools)
    requires BatchDone(w0, w, Runnable(calls, policy), Settled(Runnable(calls, policy), tools))
    ensures Ran(w, FirstBatch(start, calls, policy, tools), Held(calls, policy))
    ensures w.rec.value.state == FirstBatch(start, calls, policy, tools)
    ensures Distinct(CallsIn(Settled(Runnable(calls, policy), tools)))
    ensures Ids(CallsIn(Settled(Runnable(calls, policy), tools))) <= w.live.value.spawn
  {
    assert [] + calls == calls && [] + Held(calls, policy) == Held(calls, policy);
    BatchLeavesHeld(w0, w, [], calls, policy, tools);
    ResolvedAreModelIssued(calls, policy, tools);
  }

  lemma BatchStages(before: RunState, stored: RunState, calls: seq<ToolCall>, policy: Policy, tools: Tools, turn: Turn,
                    fault: Option<nat>)
    requires fault.Some? ==> turn.fault.Fault?
    ensures BatchResult(before, stored, calls, policy, tools, turn, fault) ==
      if Raised(Runnable(calls, policy), tools, fault) then
        Handled(turn.fault.kind, before, turn.parting.again,
                StillRunning(StoredBy(before, stored, Runnable(calls, policy), tools, fault.value)))
      else if AnyStopped(Runnable(calls, policy), tools) then
        Terminal(Cancelled, FoldResults(before, Settled(Runnable(calls, policy), tools)), [], turn.parting)
      else GoesOn(FoldResults(before, Settled(Runnable(calls, policy), tools)))
    ensures !Terminal(Cancelled, FoldResults(before, Settled(Runnable(calls, policy), tools)), [], turn.parting).GoesOn?
  {
  }

  /** One batch of decided calls, and what it means for the Run. */
  method RunDecided(hub: EventHub, before: RunState, calls: seq<ToolCall>, policy: Policy, tools: Tools, turn: Turn,
                    fault: Option<nat>)
    returns (state: RunState, resolved: seq<Resolved>, ended: bool, ending: Ending, shown: seq<ToolCall>)
    requires hub.Valid() && BatchReady(hub.world, before, Runnable(calls, policy))
    requires (fault.Some? ==> turn.fault.Fault?) && hub.world.rec.value.status.Running?
    modifies hub`trace, hub`log, hub`world, hub`openings, hub.store
    ensures hub.Valid() && old(hub.log) <= hub.log && hub.store.Others(hub.runId) == old(hub.store.Others(hub.runId))
    ensures hub.openings == old(hub.openings) + BatchOpenings(calls, policy, old(hub.world).rec.value.state, fault)
    ensures hub.trace == old(hub.trace) + EventsOf(Runnable(calls, policy), tools, fault)
    ensures Met(hub.world, BatchResult(before, old(hub.world).rec.value.state, calls, policy, tools, turn, fault), state,
                ended, ending, shown)
    ensures !ended ==>
      && !Stops(calls, policy, tools) && resolved == Settled(Runnable(calls, policy), tools)
      && BatchDone(old(hub.world), hub.world, Runnable(calls, policy), resolved)
  {
    ghost var w0, stored := hub.world, hub.world.rec.value.state;
    var cancelled, raised;
    state, cancelled, resolved, raised := RunBatch(hub, before, Runnable(calls, policy), tools, fault);
    BatchTrace(w0, hub.world, before, Runnable(calls, policy), tools, fault);
    BatchStages(before, stored, calls, policy, tools, turn, fault);
    ended, ending, shown := ConcludeBatch(hub, before, state, cancelled, raised, turn);
  }

  /** The model's batch. On return either the Run has ended or the batch is fully folded. */
  method RunFirstBatch(hub: EventHub, start: RunState, calls: seq<ToolCall>, policy: Policy, tools: Tools, turn: Turn)
    returns (state: RunState, resolved: seq<Resolved>, ended: bool, ending: Ending, shown: seq<ToolCall>)
    requires hub.Valid() && Answered(hub.world, start, calls)
    modifies hub`trace, hub`log, hub`world, hub`openings, hub.store
    ensures hub.Valid() && old(hub.log) <= hub.log && hub.store.Others(hub.runId) == old(hub.store.Others(hub.runId))
    ensures hub.openings == old(hub.openings) + BatchOpenings(calls, policy, start, BatchFault(turn))
    ensures hub.trace == old(hub.trace) + EventsOf(Runnable(calls, policy), tools, BatchFault(turn))
    ensures Met(hub.world, FirstResult(start, calls, policy, tools, turn), state, ended, ending, shown)
    ensures !ended ==>
      && resolved == Settled(Runnable(calls, policy), tools) && state == FirstBatch(start, calls, policy, tools)
      && Ran(hub.world, state, Held(calls, policy)) && hub.world.rec.value.state == state
      && Distinct(CallsIn(resolved)) && Ids(CallsIn(resolved)) <= hub.world.live.value.spawn
  {
    FirstBatchReady(hub.log, hub.world, start, calls, policy);
    ghost var w0 := hub.world;
    state, resolved, ended, ending, shown := RunDecided(hub, start, calls, policy, tools, turn, BatchFault(turn));
    if !ended {
      FirstBatchDone(w0, hub.world, start, calls, policy, tools);
    }
  }

  /** The follow-ups join the transcript; those the policy lets run at once are ready to. */
  method PrepareFollowUps(hub: EventHub, start: RunState, calls: seq<ToolCall>, policy: Policy, tools: Tools,
                          resolved: seq<Resolved>)
    returns (state: RunState, synthesized: seq<ToolCall>)
    requires hub.Valid() && Ran(hub.world, FirstBatch(start, calls, policy, tools), Held(calls, policy))
    requires resolved == Settled(Runnable(calls, policy), tools)
    requires Distinct(CallsIn(resolved)) && Ids(CallsIn(resolved)) <= hub.world.live.value.spawn
    modifies hub`log, hub`world, hub`tidy
    ensures hub.Valid() && old(hub.log) <= hub.log && hub.world.rec == old(hub.world).rec
    ensures synthesized == FollowUps(calls, policy, tools) && state == WithFollowUps(start, calls, policy, tools)
    ensures Ran(hub.world, state, Held(calls, policy) + synthesized)
    ensures BatchReady(hub.world, state, Runnable(synthesized, policy))
    ensures Distinct(Held(calls, policy) + synthesized) && WellFormed(state.messages)
    ensures synthesized == [] ==> state == FirstBatch(start, calls, policy, tools)
    ensures hub.tidy == (old(hub.tidy) && QuietTurn(calls, policy, tools))
  {
    state, synthesized := SpawnFollowUps(hub, FirstBatch(start, calls, policy, tools), resolved, Held(calls, policy));
    SecondBatchReady(hub.log, hub.world, state, Held(calls, policy), resolved, policy);
  }

  lemma FirstIsIn(calls: seq<ToolCall>)
    ensures calls == [] || calls[0] in calls
  {
  }

  /** With nothing held, the last result folded is the last thing stored. */
  lemma NothingHeldAllStored(before: RunState, calls: seq<ToolCall>, policy: Policy, tools: Tools)
    requires Held(calls, policy) == [] && !Stops(calls, policy, tools)
    ensures Settled(Runnable(calls, policy), tools) == [] ==> calls == [] && FirstBatch(before, calls, policy, tools) == before
  {
    SplitMembers(calls, policy);
    NoneStopped(Runnable(calls, policy), tools);
    FirstIsIn(calls);
  }

  lemma SecondBatchDone(w0: World, w: World, before: RunState, calls: seq<ToolCall>, policy: Policy, tools: Tools,
                        held: seq<ToolCall>)
    requires Ran(w0, before, held + calls) && Distinct(held + calls) && WellFormed(before.messages)
    requires calls == [] ==> RecordHolds(w0, before)
    requires BatchDone(w0, w, Runnable(calls, policy), Settled(Runnable(calls, policy), tools))
    requires !Stops(calls, policy, tools)
    ensures Ran(w, FirstBatch(before, calls, policy, tools), held + Held(calls, policy))
    ensures Held(calls, policy) == [] ==> RecordHolds(w, FirstBatch(before, calls, policy, tools))
  {
    BatchLeavesHeld(w0, w, held, calls, policy, tools);
    if Held(calls, policy) == [] {
      NothingHeldAllStored(before, calls, policy, tools);
    }
  }

  /** The synthesised batch. */
  method RunSecondBatch(hub: EventHub, before: RunState, synthesized: seq<ToolCall>, policy: Policy, tools: Tools,
                        turn: Turn, ghost held: seq<ToolCall>)
    returns (state: RunState, ended: bool, ending: Ending, shown: seq<ToolCall>)
    requires hub.Valid() && Ran(hub.world, before, held + synthesized)
    requires BatchReady(hub.world, before, Runnable(synthesized, policy))
    requires Distinct(held + synthesized) && WellFormed(before.messages)
    requires synthesized == [] ==> RecordHolds(hub.world, before)
    modifies hub`trace, hub`log, hub`world, hub`openings, hub.store
    ensures hub.Valid() && old(hub.log) <= hub.log && hub.store.Others(hub.runId) == old(hub.store.Others(hub.runId))
    ensures hub.openings == old(hub.openings) +
                            BatchOpenings(synthesized, policy, old(hub.world).rec.value.state, FollowUpFault(turn))
    ensures hub.trace == old(hub.trace) + EventsOf(Runnable(synthesized, policy), tools, FollowUpFault(turn))
    ensures Met(hub.world, BatchResult(before, old(hub.world).rec.value.state, synthesized, policy, tools, turn,
                                       FollowUpFault(turn)), state, ended, ending, shown)
    ensures !ended ==>
      && state == FirstBatch(before, synthesized, policy, tools)
      && Ran(hub.world, state, held + Held(synthesized, policy))
      && (Held(synthesized, policy) == [] ==> RecordHolds(hub.world, state))
  {
    ghost var w0 := hub.world;
    var ignored;
    state, ignored, ended, ending, shown := RunDecided(hub, before, synthesized, policy, tools, turn, FollowUpFault(turn));
    if !ended {
      SecondBatchDone(w0, hub.world, before, synthesized, policy, tools, held);
    }
  }

  /** Pauses for a human exactly when some call was held; otherwise the turn is over. */
  method CloseTurn(hub: EventHub, state: RunState, needsApproval: seq<ToolCall>, turn: Turn)
    returns (ended: bool, ending: Ending, shown: seq<ToolCall>)
    requires hub.Valid() && Ran(hub.world, state, needsApproval)
    requires needsApproval == [] ==> RecordHolds(hub.world, state)
    modifies hub`log, hub`world, hub.store
    ensures hub.Valid() && old(hub.log) <= hub.log && hub.store.Others(hub.runId) == old(hub.store.Others(hub.runId))
    ensures Met(hub.world, CloseResult(state, needsApproval, turn), state, ended, ending, shown)
    ensures !ended ==> LoopHead(hub.world, state)
  {
    ended, ending, shown := true, Died, [];
    if needsApproval != [] {
      ending, shown := EndRun(hub, state, WaitingForApproval, "approval needed", needsApproval, turn.parting);
    } else if Hits(turn, AtTurnEnded) {
      ending, shown := HandleFault(hub, state, turn.fault.kind, turn.parting.again);
    } else {
      ended := false;
    }
  }

  lemma FollowUpStages(start: RunState, calls: seq<ToolCall>, policy: Policy, tools: Tools, turn: Turn)
    ensures FollowUpResult(start, calls, policy, tools, turn) ==
            SecondThenClose(WithFollowUps(start, calls, policy, tools), FirstBatch(start, calls, policy, tools),
                            FollowUps(calls, policy, tools), Held(calls, policy), policy, tools, turn)
    ensures var r := SecondResult(start, calls, policy, tools, turn);
      FollowUpResult(start, calls, policy, tools, turn) ==
      if r.GoesOn? then CloseResult(r.state, Needs(calls, policy, tools), turn) else r
  {
  }

  /** The follow-ups' batch and the close of the turn, told from the states it finds. */
  function SecondThenClose(before: RunState, stored: RunState, synthesized: seq<ToolCall>, held: seq<ToolCall>, policy: Policy,
                           tools: Tools, turn: Turn): TurnResult {
    var r := BatchResult(before, stored, synthesized, policy, tools, turn, FollowUpFault(turn));
    if r.GoesOn? then CloseResult(r.state, held + Held(synthesized, policy), turn) else r
  }

  method FinishFollowUps(hub: EventHub, before: RunState, synthesized: seq<ToolCall>, held: seq<ToolCall>, policy: Policy,
                         tools: Tools, turn: Turn)
    returns (state: RunState, ended: bool, ending: Ending, shown: seq<ToolCall>)
    requires hub.Valid() && Ran(hub.world, before, held + synthesized)
    requires BatchReady(hub.world, before, Runnable(synthesized, policy))
    requires Distinct(held + synthesized) && WellFormed(before.messages)
    requires synthesized == [] ==> RecordHolds(hub.world, before)
    modifies hub`trace, hub`log, hub`world, hub`openings, hub.store
    ensures hub.Valid() && old(hub.log) <= hub.log && hub.store.Others(hub.runId) == old(hub.store.Others(hub.runId))
    ensures hub.openings == old(hub.openings) +
                            BatchOpenings(synthesized, policy, old(hub.world).rec.value.state, FollowUpFault(turn))
    ensures hub.trace == old(hub.trace) + EventsOf(Runnable(synthesized, policy), tools, FollowUpFault(turn))
    ensures Met(hub.world, SecondThenClose(before, old(hub.world).rec.value.state, synthesized, held, policy, tools, turn), state,
                ended, ending, shown)
    ensures !ended ==> LoopHead(hub.world, state)
  {
    state, ended, ending, shown := RunSecondBatch(hub, before, synthesized, policy, tools, turn, held);
    if !ended {
      ended, ending, shown := CloseTurn(hub, state, held + Held(synthesized, policy), turn);
    }
  }

  /** The follow-ups, then the close of the turn. */
  method RunFollowUps(hub: EventHub, start: RunState, calls: seq<ToolCall>, policy: Policy, tools: Tools, turn: Turn,
                      resolved: seq<Resolved>)
    returns (state: RunState, ended: bool, ending: Ending, shown: seq<ToolCall>)
    requires hub.Valid() && Ran(hub.world, FirstBatch(start, calls, policy, tools), Held(calls, policy))
    requires hub.world.rec.value.state == FirstBatch(start, calls, policy, tools)
    requires resolved == Settled(Runnable(calls, policy), tools)
    requires Distinct(CallsIn(resolved)) && Ids(CallsIn(resolved)) <= hub.world.live.value.spawn
    modifies hub`trace, hub`log, hub`world, hub`openings, hub`tidy, hub.store
    ensures hub.Valid() && old(hub.log) <= hub.log && hub.store.Others(hub.runId) == old(hub.store.Others(hub.runId))
    ensures hub.openings == old(hub.openings) +
      BatchOpenings(FollowUps(calls, policy, tools), policy, FirstBatch(start, calls, policy, tools), FollowUpFault(turn))
    ensures hub.trace == old(hub.trace) + EventsOf(Runnable(FollowUps(calls, policy, tools), policy), tools, FollowUpFault(turn))
    ensures hub.tidy == (old(hub.tidy) && QuietTurn(calls, policy, tools))
    ensures WellFormed(WithFollowUps(start, calls, policy, tools).messages)
    ensures Met(hub.world, FollowUpResult(start, calls, policy, tools, turn), state, ended, ending, shown)
    ensures !ended ==> LoopHead(hub.world, state)
  {
    var synthesized;
    state, synthesized := PrepareFollowUps(hub, start, calls, policy, tools, resolved);
    state, ended, ending, shown := FinishFollowUps(hub, state, synthesized, Held(calls, policy), policy, tools, turn);
    FollowUpStages(start, calls, policy, tools, turn);
  }

  lemma ToolStages(start: RunState, calls: seq<ToolCall>, policy: Policy, tools: Tools, turn: Turn)
    ensures var r := FirstResult(start, calls, policy, tools, turn);
      ToolsResult(start, calls, policy, tools, turn) ==
      if r.GoesOn? then FollowUpResult(start, calls, policy, tools, turn) else r
  {
  }

  lemma OpeningStages(start: RunState, calls: seq<ToolCall>, policy: Policy, tools: Tools, turn: Turn, before: seq<Opening>)
    ensures var first := BatchOpenings(calls, policy, start, BatchFault(turn));
      before + ToolOpenings(start, calls, policy, tools, turn) ==
      if FirstResult(start, calls, policy, tools, turn).GoesOn? then
        before + first + BatchOpenings(FollowUps(calls, policy, tools), policy, FirstBatch(start, calls, policy, tools),
                                       FollowUpFault(turn))
      else before + first
  {
    var first := BatchOpenings(calls, policy, start, BatchFault(turn));
    var second := BatchOpenings(FollowUps(calls, policy, tools), policy, FirstBatch(start, calls, policy, tools),
                                FollowUpFault(turn));
    OpeningsAssoc(before, first, second);
  }

  lemma EventStages(start: RunState, calls: seq<ToolCall>, policy: Policy, tools: Tools, turn: Turn, before: seq<Event>)
    ensures var first := EventsOf(Runnable(calls, policy), tools, BatchFault(turn));
      before + ToolEvents(start, calls, policy, tools, turn) ==
      if FirstResult(start, calls, policy, tools, turn).GoesOn? then
        before + first + EventsOf(Runnable(FollowUps(calls, policy, tools), policy), tools, FollowUpFault(turn))
      else before + first
  {
    EventsJoin(before, EventsOf(Runnable(calls, policy), tools, BatchFault(turn)),
               EventsOf(Runnable(FollowUps(calls, policy, tools), policy), tools, FollowUpFault(turn)));
  }

  lemma EventsJoin(a: seq<Event>, b: seq<Event>, c: seq<Event>)
    ensures a + (b + c) == a + b + c && a + (b + []) == a + b
  {
  }

  lemma OpeningsAssoc(a: seq<Opening>, b: seq<Opening>, c: seq<Opening>)
    ensures a + (b + c) == a + b + c && a + (b + []) == a + b
  {
  }

  /** All of a turn's tool calls: the model's batch, the follow-ups, the halt for approval. */
  method RunTools(hub: EventHub, start: RunState, calls: seq<ToolCall>, policy: Policy, tools: Tools, turn: Turn)
    returns (state: RunState, ended: bool, ending: Ending, shown: seq<ToolCall>)
    requires hub.Valid() && Answered(hub.world, start, calls)
    modifies hub`trace, hub`log, hub`world, hub`openings, hub`tidy, hub.store
    ensures hub.Valid() && old(hub.log) <= hub.log && hub.store.Others(hub.runId) == old(hub.store.Others(hub.runId))
    ensures hub.openings == old(hub.openings) + ToolOpenings(start, calls, policy, tools, turn)
    ensures hub.trace == old(hub.trace) + ToolEvents(start, calls, policy, tools, turn)
    ensures OpenedSince(old(hub.openings), hub.openings)
    ensures hub.tidy == (old(hub.tidy) && (FirstResult(start, calls, policy, tools, turn).GoesOn? ==>
                                             QuietTurn(calls, policy, tools)))
    ensures Met(hub.world, ToolsResult(start, calls, policy, tools, turn), state, ended, ending, shown)
    ensures !ended ==> LoopHead(hub.world, state)
  {
    PendingIsDistinct(hub.log, hub.world);
    var resolved;
    OpenedNothing(hub.openings);
    ToolStages(start, calls, policy, tools, turn);
    OpeningStages(start, calls, policy, tools, turn, hub.openings);
    EventStages(start, calls, policy, tools, turn, hub.trace);
    state, resolved, ended, ending, shown := RunFirstBatch(hub, start, calls, policy, tools, turn);
    if !ended {
      state, ended, ending, shown := RunFollowUps(hub, start, calls, policy, tools, turn, resolved);
      FollowUpsAreNew(start, calls, policy, tools);
    }
    OpenedInTurn(start, calls, policy, tools, turn);
    OpenedMore(old(hub.openings), old(hub.openings), ToolOpenings(start, calls, policy, tools, turn));
  }

  // ----- the loop -----

  /** At most one follow-up a turn, and none beside a held call. */
  predicate Quiet(turn: Turn, policy: Policy, tools: Tools) {
    turn.reply.CancelFirst? || QuietTurn(turn.reply.result.toolCalls, policy, tools)
  }

  predicate AllQuiet(turns: seq<Turn>, policy: Policy, tools: Tools) {
    forall i :: 0 <= i < |turns| ==> Quiet(turns[i], policy, tools)
  }

  lemma FreshHead(turns: seq<Turn>, i: nat, used: set<string>)
    requires i < |turns| && FreshTurns(turns[i..], used)
    ensures FreshTurn(turns[i], used) && FreshTurns(turns[i + 1..], used + NewIds(turns[i]))
  {
    assert turns[i..][1..] == turns[i + 1..];
  }

  lemma FollowUpsGoOn(start: RunState, calls: seq<ToolCall>, policy: Policy, tools: Tools, turn: Turn)
    ensures var r := FollowUpResult(start, calls, policy, tools, turn);
      r.GoesOn? ==> r.state == SecondBatch(start, calls, policy, tools)
  {
    FollowUpStages(start, calls, policy, tools, turn);
  }

  lemma ToolsGoOn(start: RunState, calls: seq<ToolCall>, policy: Policy, tools: Tools, turn: Turn)
    ensures var r := ToolsResult(start, calls, policy, tools, turn);
      r.GoesOn? ==> ModelIssued(Ids(CallsOf(r.state.messages))) == ModelIssued(Ids(CallsOf(start.messages)))
  {
    FollowUpsGoOn(start, calls, policy, tools, turn);
    SecondBatchCalls(start, calls, policy, tools);
  }

  /** The stages of a turn after its request. */
  lemma ReplyStages(shaped: RunState, stored: RunState, policy: Policy, tools: Tools, turn: Turn)
    ensures var reply, must := ReplyResult(shaped, stored, turn), AfterReply(shaped, stored, policy, tools, turn);
      if !reply.GoesOn? then must == reply
      else
        && turn.reply.WorkFirst?
        && var calls := turn.reply.result.toolCalls; var answer := AnswerResult(reply.state, calls, turn);
           must == if answer.GoesOn? then ToolsResult(reply.state, calls, policy, tools, turn) else answer
  {
  }

  /** Since then only follow-ups were opened unstored, only what the policy allows was started, and each
      request was made with the frame's prompt, schemas and budget. */
  ghost predicate Lawful(frame: Frame, limit: Option<Limit>, policy: Policy, before: Seen, after: Seen) {
    && before.asked <= after.asked
    && OpenedSince(before.openings, after.openings)
    && StartedSince(policy, {}, before.openings, after.openings, before.trace, after.trace)
    && MadeSince(frame, limit, before.basis, after.basis, after.asked)
  }

  lemma LawfulSoFar(frame: Frame, limit: Option<Limit>, policy: Policy, seen: Seen)
    requires |seen.basis| == |seen.asked|
    ensures Lawful(frame, limit, policy, seen, seen)
  {
    OpenedNothing(seen.openings);
    NothingStarted(policy, {}, seen.openings, seen.trace);
  }

  lemma LawfulTogether(frame: Frame, limit: Option<Limit>, policy: Policy, before: Seen, mid: Seen, after: Seen)
    requires Lawful(frame, limit, policy, before, mid) && Lawful(frame, limit, policy, mid, after)
    ensures Lawful(frame, limit, policy, before, after)
  {
    OpenedTogether(before.openings, mid.openings, after.openings);
    StartedTogether(policy, {}, before.openings, mid.openings, after.openings, before.trace, mid.trace, after.trace);
    MadeTogether(frame, limit, before.basis, mid.basis, after.basis, mid.asked, after.asked);
  }

  /** A run of turns that began at `start` stands at turn `t`, in `state`. */
  ghost predicate Midway(frame: Frame, policy: Policy, tools: Tools, start: RunState, turns: seq<Turn>, maxCalls: int,
                         pausing: Parting, before: seq<RunState>, w: World, state: RunState, t: nat, known: set<string>,
                         asked: seq<RunState>) {
    && t <= |turns| && LoopHead(w, state)
    && FreshTurns(turns[t..], known) && ModelIssued(Ids(CallsOf(state.messages))) <= known
    && SameRest(frame, start, turns, maxCalls, policy, tools, pausing, before, state, turns[t..], asked)
  }

  lemma MidwayAtStart(frame: Frame, policy: Policy, tools: Tools, start: RunState, turns: seq<Turn>, maxCalls: int,
                      pausing: Parting, w: World, used: set<string>, asked: seq<RunState>)
    requires LoopHead(w, start) && FreshTurns(turns, used) && ModelIssued(Ids(CallsOf(start.messages))) <= used
    ensures Midway(frame, policy, tools, start, turns, maxCalls, pausing, asked, w, start, 0, used, asked)
  {
    assert turns[0..] == turns;
  }

  class AgentLoop {
    const hub: EventHub
    const policy: Policy
    const tools: Tools
    const frame: Frame

    constructor (hub: EventHub, policy: Policy, tools: Tools, frame: Frame)
      ensures this.hub == hub && this.policy == policy && this.tools == tools && this.frame == frame
    {
      this.hub, this.policy, this.tools, this.frame := hub, policy, tools, frame;
    }

    /** Prepare the turn and send its request. */
    method AskModel(start: RunState, turn: Turn) returns (state: RunState, ended: bool, ending: Ending, shown: seq<ToolCall>)
      requires hub.Valid() && LoopHead(hub.world, start)
      modifies hub`asked, hub`sent, hub`basis, hub`log, hub`world, hub.store
      ensures hub.Valid() && old(hub.log) <= hub.log && hub.store.Others(hub.runId) == old(hub.store.Others(hub.runId))
      ensures hub.asked == old(hub.asked) + AskedBy(frame, start, turn)
      ensures MadeSince(frame, LimitOf(frame), old(hub.basis), hub.basis, hub.asked)
      ensures Met(hub.world, ShapeResult(frame, start, turn), state, ended, ending, shown)
      ensures !ended ==> Waiting(hub.world, state) && RecordHolds(hub.world, start) && state.messages == start.messages
    {
      state, ended, ending, shown := Prepare(hub, frame, start, turn);
      assert hub.asked + [] == hub.asked;
      if !ended {
        SendRequest(hub, frame, state);
      }
    }

    /** What becomes of the answer. */
    method UseReply(start: RunState, ghost stored: RunState, turn: Turn, ghost used: set<string>)
      returns (state: RunState, ended: bool, ending: Ending, shown: seq<ToolCall>)
      requires hub.Valid() && Waiting(hub.world, start) && RecordHolds(hub.world, stored) && FreshTurn(turn, used)
      requires ModelIssued(Ids(CallsOf(start.messages))) <= used
      modifies hub`trace, hub`log, hub`world, hub`openings, hub`tidy, hub.store
      ensures hub.Valid() && old(hub.log) <= hub.log && hub.store.Others(hub.runId) == old(hub.store.Others(hub.runId))
      ensures Met(hub.world, AfterReply(start, stored, policy, tools, turn), state, ended, ending, shown)
      ensures OpenedSince(old(hub.openings), hub.openings)
      ensures StartedSince(policy, {}, old(hub.openings), hub.openings, old(hub.trace), hub.trace)
      ensures old(hub.tidy) && Quiet(turn, policy, tools) ==> hub.tidy
      ensures !ended ==> LoopHead(hub.world, state) && ModelIssued(Ids(CallsOf(state.messages))) <= used + NewIds(turn)
    {
      var response;
      OpenedNothing(hub.openings);
      NothingStarted(policy, {}, hub.openings, hub.trace);
      ReplyStages(start, stored, policy, tools, turn);
      state, response, ended, ending, shown := TakeReply(hub, start, stored, turn, used);
      if ended {
        return;
      }
      ended, ending, shown := AfterAnswer(hub, state, response, turn);
      if ended {
        return;
      }
      ToolsGoOn(state, response.toolCalls, policy, tools, turn);
      ToolsStart(state, response.toolCalls, policy, tools, turn, hub.openings, hub.trace);
      state, ended, ending, shown := RunTools(hub, state, response.toolCalls, policy, tools, turn);
    }

    /** One iteration of the loop. */
    method TakeTurn(start: RunState, turn: Turn, ghost used: set<string>)
      returns (state: RunState, ended: bool, ending: Ending, shown: seq<ToolCall>)
      requires hub.Valid() && LoopHead(hub.world, start) && FreshTurn(turn, used)
      requires ModelIssued(Ids(CallsOf(start.messages))) <= used
      modifies hub`asked, hub`sent, hub`basis, hub`trace, hub`log, hub`world, hub`openings, hub`tidy, hub.store
      ensures hub.Valid() && old(hub.log) <= hub.log && hub.store.Others(hub.runId) == old(hub.store.Others(hub.runId))
      ensures hub.asked == old(hub.asked) + AskedBy(frame, start, turn)
      ensures Met(hub.world, TurnOf(frame, start, policy, tools, turn), state, ended, ending, shown)
      ensures Lawful(frame, LimitOf(frame), policy, old(hub.SoFar()), hub.SoFar())
      ensures old(hub.tidy) && Quiet(turn, policy, tools) ==> hub.tidy
      ensures !ended ==> LoopHead(hub.world, state) && ModelIssued(Ids(CallsOf(state.messages))) <= used + NewIds(turn)
    {
      OpenedNothing(hub.openings);
      NothingStarted(policy, {}, hub.openings, hub.trace);
      state, ended, ending, shown := AskModel(start, turn);
      if !ended {
        state, ended, ending, shown := UseReply(state, start, turn, used);
      }
    }

    /** Past the loop: paused at the limit, unless the script ran out first. */
    method PauseOrDie(state: RunState, maxCalls: int, pausing: Parting) returns (ending: Ending, shown: seq<ToolCall>)
      requires hub.Valid() && LoopHead(hub.world, state)
      modifies hub`log, hub`world, hub.store
      ensures hub.Valid() && old(hub.log) <= hub.log && hub.store.Others(hub.runId) == old(hub.store.Others(hub.runId))
      ensures Meets(hub.world, Play(frame, state, [], maxCalls, policy, tools, pausing), ending, shown)
    {
      if maxCalls > 0 && state.completedModelCalls >= maxCalls {
        ending, shown := EndRun(hub, state, PausedLimit, "model call limit reached", [], pausing);
      } else {
        ending, shown := Died, [];
      }
    }

    /** The next iteration of a run of turns that began at `start`, when the hub had seen `before`. */
    method Iterate(ghost start: RunState, turns: seq<Turn>, ghost maxCalls: int, ghost pausing: Parting, from: RunState, t: nat,
                   ghost known: set<string>, ghost before: Seen)
      returns (state: RunState, ended: bool, ending: Ending, shown: seq<ToolCall>)
      requires hub.Valid() && t < |turns| && !AtLimit(from, maxCalls)
      requires Midway(frame, policy, tools, start, turns, maxCalls, pausing, before.asked, hub.world, from, t, known, hub.asked)
      requires Lawful(frame, LimitOf(frame), policy, before, hub.SoFar())
      modifies hub`asked, hub`sent, hub`basis, hub`trace, hub`log, hub`world, hub`openings, hub`tidy, hub.store
      ensures hub.Valid() && old(hub.log) <= hub.log && hub.store.Others(hub.runId) == old(hub.store.Others(hub.runId))
      ensures Lawful(frame, LimitOf(frame), policy, before, hub.SoFar())
      ensures old(hub.tidy) && AllQuiet(turns, policy, tools) ==> hub.tidy
      ensures ended ==>
        && Meets(hub.world, Play(frame, start, turns, maxCalls, policy, tools, pausing), ending, shown)
        && hub.asked == before.asked + Asks(frame, start, turns, maxCalls, policy, tools)
      ensures !ended ==>
        Midway(frame, policy, tools, start, turns, maxCalls, pausing, before.asked, hub.world, state, t + 1,
               known + NewIds(turns[t]), hub.asked)
    {
      ghost var asked, sofar := hub.asked, hub.SoFar();
      FreshHead(turns, t, known);
      state, ended, ending, shown := TakeTurn(from, turns[t], known);
      LawfulTogether(frame, LimitOf(frame), policy, before, sofar, hub.SoFar());
      RestStep(frame, start, turns, maxCalls, policy, tools, pausing, before.asked, from, t, asked);
    }

    /** The end of a run of turns that no turn ended. */
    method WindUp(ghost start: RunState, ghost turns: seq<Turn>, maxCalls: int, pausing: Parting, state: RunState, ghost t: nat,
                  ghost known: set<string>, ghost before: seq<RunState>)
      returns (ending: Ending, shown: seq<ToolCall>)
      requires hub.Valid() && (AtLimit(state, maxCalls) || t == |turns|)
      requires Midway(frame, policy, tools, start, turns, maxCalls, pausing, before, hub.world, state, t, known, hub.asked)
      modifies hub`log, hub`world, hub.store
      ensures hub.Valid() && old(hub.log) <= hub.log && hub.store.Others(hub.runId) == old(hub.store.Others(hub.runId))
      ensures Meets(hub.world, Play(frame, start, turns, maxCalls, policy, tools, pausing), ending, shown)
      ensures hub.asked == before + Asks(frame, start, turns, maxCalls, policy, tools)
    {
      RestOver(frame, start, turns, maxCalls, policy, tools, pausing, before, state, t, hub.asked);
      ending, shown := PauseOrDie(state, maxCalls, pausing);
    }

    /** The loop of `advance`: turns until one ends the Run, the limit is reached or the script runs out. */
    method TakeTurns(ghost start: RunState, turns: seq<Turn>, maxCalls: int, ghost pausing: Parting, from: RunState,
                     ghost used: set<string>, ghost before: Seen)
      returns (state: RunState, t: nat, ended: bool, ending: Ending, shown: seq<ToolCall>, ghost known: set<string>)
      requires hub.Valid()
      requires Midway(frame, policy, tools, start, turns, maxCalls, pausing, before.asked, hub.world, from, 0, used, hub.asked)
      requires Lawful(frame, LimitOf(frame), policy, before, hub.SoFar())
      modifies hub`asked, hub`sent, hub`basis, hub`trace, hub`log, hub`world, hub`openings, hub`tidy, hub.store
      ensures hub.Valid() && old(hub.log) <= hub.log && hub.store.Others(hub.runId) == old(hub.store.Others(hub.runId))
      ensures Lawful(frame, LimitOf(frame), policy, before, hub.SoFar())
      ensures old(hub.tidy) && AllQuiet(turns, policy, tools) ==> hub.tidy
      ensures ended ==>
        && Meets(hub.world, Play(frame, start, turns, maxCalls, policy, tools, pausing), ending, shown)
        && hub.asked == before.asked + Asks(frame, start, turns, maxCalls, policy, tools)
      ensures !ended ==>
        && (AtLimit(state, maxCalls) || t == |turns|)
        && Midway(frame, policy, tools, start, turns, maxCalls, pausing, before.asked, hub.world, state, t, known, hub.asked)
    {
      ghost var quiet := hub.tidy && AllQuiet(turns, policy, tools);
      state, t, ended, ending, shown, known := from, 0, false, Died, [], used;
      while (maxCalls <= 0 || state.completedModelCalls < maxCalls) && t < |turns|
        invariant t <= |turns| && hub.Valid() && old(hub.log) <= hub.log && !ended
        invariant hub.store.Others(hub.runId) == old(hub.store.Others(hub.runId))
        invariant Midway(frame, policy, tools, start, turns, maxCalls, pausing, before.asked, hub.world, state, t, known, hub.asked)
        invariant Lawful(frame, LimitOf(frame), policy, before, hub.SoFar())
        invariant quiet ==> hub.tidy
        decreases |turns| - t
      {
        state, ended, ending, shown := Iterate(start, turns, maxCalls, pausing, state, t, known, before);
        if ended {
          return;
        }
        known := known + NewIds(turns[t]);
        t := t + 1;
      }
    }

    /** `advance`: the turns of the script, at most `maxCalls` of them when that is positive. */
    method Advance(start: RunState, turns: seq<Turn>, maxCalls: int, pausing: Parting, ghost used: set<string>)
      returns (ending: Ending, shown: seq<ToolCall>)
      requires hub.Valid() && LoopHead(hub.world, start)
      requires FreshTurns(turns, used) && ModelIssued(Ids(CallsOf(start.messages))) <= used
      modifies hub`asked, hub`sent, hub`basis, hub`trace, hub`log, hub`world, hub`openings, hub`tidy, hub.store
      ensures hub.Valid() && old(hub.log) <= hub.log && hub.store.Others(hub.runId) == old(hub.store.Others(hub.runId))
      ensures Meets(hub.world, Play(frame, start, turns, maxCalls, policy, tools, pausing), ending, shown)
      ensures hub.asked == old(hub.asked) + Asks(frame, start, turns, maxCalls, policy, tools)
      ensures Lawful(frame, LimitOf(frame), policy, old(hub.SoFar()), hub.SoFar())
      ensures old(hub.tidy) && AllQuiet(turns, policy, tools) ==> hub.tidy
    {
      ghost var before, known := hub.SoFar(), used;
      MidwayAtStart(frame, policy, tools, start, turns, maxCalls, pausing, hub.world, used, hub.asked);
      LawfulSoFar(frame, LimitOf(frame), policy, before);
      var state, t, ended;
      state, t, ended, ending, shown, known := TakeTurns(start, turns, maxCalls, pausing, start, used, before);
      if !ended {
        ending, shown := WindUp(start, turns, maxCalls, pausing, state, t, known, before.asked);
      }
    }
  }

  /** What is still to come from `state` completes what had to come from `start`. */
  ghost predicate SameRest(frame: Frame, start: RunState, turns: seq<Turn>, maxCalls: int, policy: Policy, tools: Tools,
                           pausing: Parting, before: seq<RunState>, state: RunState, rest: seq<Turn>, asked: seq<RunState>) {
    && Play(frame, start, turns, maxCalls, policy, tools, pausing) == Play(frame, state, rest, maxCalls, policy, tools, pausing)
    && before + Asks(frame, start, turns, maxCalls, policy, tools) ==
       asked + Asks(frame, state, rest, maxCalls, policy, tools)
  }

  lemma RestStep(frame: Frame, start: RunState, turns: seq<Turn>, maxCalls: int, policy: Policy, tools: Tools,
                 pausing: Parting, before: seq<RunState>, state: RunState, t: nat, asked: seq<RunState>)
    requires t < |turns| && !AtLimit(state, maxCalls)
    requires SameRest(frame, start, turns, maxCalls, policy, tools, pausing, before, state, turns[t..], asked)
    ensures var r, more := TurnOf(frame, state, policy, tools, turns[t]), asked + AskedBy(frame, state, turns[t]);
      if r.GoesOn? then
        SameRest(frame, start, turns, maxCalls, policy, tools, pausing, before, r.state, turns[t + 1..], more)
      else
        && Play(frame, start, turns, maxCalls, policy, tools, pausing) == r
        && before + Asks(frame, start, turns, maxCalls, policy, tools) == more
  {
    assert turns[t..][0] == turns[t] && turns[t..][1..] == turns[t + 1..];
    var r, one := TurnOf(frame, state, policy, tools, turns[t]), AskedBy(frame, state, turns[t]);
    if r.GoesOn? {
      StatesAssoc(asked, one, Asks(frame, r.state, turns[t + 1..], maxCalls, policy, tools));
    } else {
      assert one + [] == one;
    }
  }

  lemma RestOver(frame: Frame, start: RunState, turns: seq<Turn>, maxCalls: int, policy: Policy, tools: Tools,
                 pausing: Parting, before: seq<RunState>, state: RunState, t: nat, asked: seq<RunState>)
    requires t <= |turns| && (AtLimit(state, maxCalls) || t == |turns|)
    requires SameRest(frame, start, turns, maxCalls, policy, tools, pausing, before, state, turns[t..], asked)
    ensures Play(frame, start, turns, maxCalls, policy, tools, pausing) == Play(frame, state, [], maxCalls, policy, tools, pausing)
    ensures before + Asks(frame, start, turns, maxCalls, policy, tools) == asked
  {
    assert asked + [] == asked;
  }

  lemma StatesAssoc(a: seq<RunState>, b: seq<RunState>, c: seq<RunState>)
    ensures a + b + c == a + (b + c)
  {
  }
}
