/** The entry points (`harness/harness.py`): start a Run, resume it, answer its pending calls. */
module Harness {
  import opened Domain
  import opened Transcript
  import opened Protocol
  import opened Lifecycle
  import opened ToolStep
  import opened Compaction
  import opened Hub
  import opened Batch
  import opened Outcomes
  import opened Loop
  import opened Approvals
  import opened Tokens
  import opened Turns
  import opened Budget
  import Accounts
  import Safety

  datatype ResumeError = SkillsApart | UnknownRun | WaitsForApproval | NotWaiting | Changed

  datatype Response = Advanced(ending: Ending) | Rejected(error: ResumeError)

  /** Where the announcement of a fresh Run may break off: before its state is stored or after. */
  datatype StartFault = NoFault | BeforeStart | OnStarted

  /** What the environment does during one visit: an interrupt by someone without the claim before
      the swap, an observer raising before it, cancellation on entry, where the approvals break off,
      whether the observers of a terminal event there raise, then the loop. */
  datatype Visit = Visit(
    interrupted: bool, hookFails: bool, cancelled: bool, fault: Option<nat>, raises: bool,
    turns: seq<Turn>, pausing: Parting)

  // ----- what a visit must come to -----

  /** Nothing catches what is raised while approvals are resolved; a terminal event is stored before
      its other observers raise. */
  function Finish(status: RunStatus, state: RunState, exposed: seq<ToolCall>, raises: bool): TurnResult {
    if raises then Dies(Stored(status, state)) else Ends(status, state, exposed)
  }

  function DecidedNow(start: RunState, verdicts: Verdicts): seq<Order> {
    DecidedOrders(UnmatchedToolCalls(start.messages), verdicts)
  }

  /** The verdicts' batch breaks off. */
  predicate BreaksOff(start: RunState, verdicts: Verdicts, tools: Tools, visit: Visit) {
    && UnmatchedToolCalls(start.messages) != [] && !visit.cancelled
    && Raised(DecidedNow(start, verdicts), tools, visit.fault)
  }

  /** What it leaves then: RUNNING, with the results that were stored by then. */
  function BrokenRecord(start: RunState, verdicts: Verdicts, tools: Tools, visit: Visit): Stored {
    StillRunning(if visit.fault.None? then start
                 else StoredBy(start, start, DecidedNow(start, verdicts), tools, visit.fault.value))
  }

  /** Resolving approvals: the verdicts' batch, then another pause if calls are left. */
  function ApprovalsResult(start: RunState, verdicts: Verdicts, tools: Tools, visit: Visit): TurnResult {
    var pending := UnmatchedToolCalls(start.messages);
    if pending == [] then GoesOn(start)
    else if visit.cancelled then Finish(Cancelled, start, [], visit.raises)
    else if Raised(DecidedNow(start, verdicts), tools, visit.fault) then Dies(BrokenRecord(start, verdicts, tools, visit))
    else if AnyStopped(DecidedNow(start, verdicts), tools) then
      Finish(Cancelled, ResolveWith(start, verdicts, tools), [], visit.raises)
    else if StillPending(pending, verdicts) != [] then
      Finish(WaitingForApproval, ResolveWith(start, verdicts, tools), StillPending(pending, verdicts), visit.raises)
    else GoesOn(ResolveWith(start, verdicts, tools))
  }

  function ApprovalOpenings(start: RunState, verdicts: Verdicts, visit: Visit): seq<Opening> {
    var orders := DecidedNow(start, verdicts);
    if visit.cancelled then [] else OpeningsOf(orders[..OpenedBefore(orders, visit.fault)], start)
  }

  /** What resolving approvals is seen to do: rejected calls are opened and closed but never start. */
  function ApprovalEvents(start: RunState, verdicts: Verdicts, tools: Tools, visit: Visit): seq<Event> {
    if visit.cancelled then [] else EventsOf(DecidedNow(start, verdicts), tools, visit.fault)
  }

  /** Approvals, then the loop. */
  ghost function VisitResult(frame: Frame, start: RunState, verdicts: Verdicts, policy: Policy, tools: Tools,
                             visit: Visit, maxCalls: int): TurnResult {
    match ApprovalsResult(start, verdicts, tools, visit)
    case GoesOn(state) => Play(frame, state, visit.turns, maxCalls, policy, tools, visit.pausing)
    case r => r
  }

  ghost function VisitAsks(frame: Frame, start: RunState, verdicts: Verdicts, policy: Policy, tools: Tools,
                           visit: Visit, maxCalls: int): seq<RunState> {
    match ApprovalsResult(start, verdicts, tools, visit)
    case GoesOn(state) => Asks(frame, state, visit.turns, maxCalls, policy, tools)
    case _ => []
  }

  /** The visit is over as prescribed: the claim is free, the record and the result agree, and after
      a clean end only the calls of `entry` are open. */
  ghost predicate HandedBack(w: World, must: TurnResult, ending: Ending, shown: seq<ToolCall>, entry: set<string>) {
    && w.live.None? && w.rec.Some?
    && match must
       case GoesOn(_) => false
       case Dies(left) => ending.Died? && InRecord(w) == left
       case Ends(status, final, exposed) =>
         && ending.Returned? && ending.result.status == status && shown == exposed
         && w.rec.value.state == final && Reports(ending.result, w.rec.value, shown)
         && (Clean(status) ==> Dangling(w.trace) == entry)
  }

  lemma MetThenLeft(w: World, must: TurnResult, ending: Ending, shown: seq<ToolCall>)
    requires Meets(w, must, ending, shown)
    ensures HandedBack(Left(w), must, ending, shown, w.live.value.stale)
  {
  }

  // ----- resolving approvals -----

  /** The process owns the Run, has run nothing yet, and its state is the stored one. */
  predicate Prepared(w: World, state: RunState) {
    Ran(w, state, UnmatchedToolCalls(state.messages)) && w.rec.value == Record(RunStatus.Running, state, w.rec.value.updatedAt)
  }

  /** The verdicts are in: exactly the calls without one are pending, and if none is, all is stored. */
  predicate Decided(w: World, start: RunState, state: RunState, verdicts: Verdicts) {
    var left := StillPending(UnmatchedToolCalls(start.messages), verdicts);
    Ran(w, state, left) && (left == [] ==> RecordHolds(w, state))
  }

  lemma DecidedReady(log: seq<Action>, w: World, state: RunState, verdicts: Verdicts)
    requires Replay(log) == Some(w) && Prepared(w, state)
    ensures BatchReady(w, state, DecidedNow(state, verdicts)) && WellFormed(state.messages)
  {
    var pending := UnmatchedToolCalls(state.messages);
    PendingIsDistinct(log, w);
    DecidedMembers(pending, verdicts);
    DecidedDistinct(pending, verdicts);
  }

  /** A batch of verdicts nobody stopped leaves exactly the undecided calls. */
  lemma VerdictsLeaveOthers(w0: World, w: World, state: RunState, verdicts: Verdicts, tools: Tools)
    requires Prepared(w0, state) && WellFormed(state.messages)
    requires var orders := DecidedNow(state, verdicts);
      BatchDone(w0, w, orders, Settled(orders, tools)) && !AnyStopped(orders, tools)
    ensures Decided(w, state, ResolveWith(state, verdicts, tools), verdicts)
  {
    var pending := UnmatchedToolCalls(state.messages);
    var orders := DecidedNow(state, verdicts);
    SatisfiedWereCalled(state.messages);
    DecidedDistinct(pending, verdicts);
    DecidedIds(pending, verdicts);
    NoneStopped(orders, tools);
    FoldKeepsOthers(state, Settled(orders, tools));
    ExceptIds(pending, Ids(CallsOfOrders(orders)));
    if Settled(orders, tools) == [] {
      NobodyDecided(state, verdicts, tools);
    }
  }

  /** Without a verdict for a pending call nothing changes. */
  lemma NobodyDecided(state: RunState, verdicts: Verdicts, tools: Tools)
    requires CallsOfOrders(DecidedNow(state, verdicts)) == [] && Settled(DecidedNow(state, verdicts), tools) == []
    ensures ResolveWith(state, verdicts, tools) == state
    ensures StillPending(UnmatchedToolCalls(state.messages), verdicts) == UnmatchedToolCalls(state.messages)
  {
    DecidedIds(UnmatchedToolCalls(state.messages), verdicts);
    assert Ids([]) == {};
    ExceptNone(UnmatchedToolCalls(state.messages), {});
  }

  /** Every call opened for a verdict is in the stored transcript at that moment. */
  lemma ApprovalsAreStored(start: RunState, verdicts: Verdicts, visit: Visit)
    ensures forall o :: o in ApprovalOpenings(start, verdicts, visit) ==>
              o.durable && o.call in UnmatchedToolCalls(start.messages) && o.call.id in verdicts
  {
    var pending, orders := UnmatchedToolCalls(start.messages), DecidedNow(start, verdicts);
    DecidedMembers(pending, verdicts);
    ExceptIds(CallsOf(start.messages), Satisfied(start.messages));
    forall o | o in ApprovalOpenings(start, verdicts, visit)
      ensures o.durable && o.call in pending && o.call.id in verdicts
    {
      var os := ApprovalOpenings(start, verdicts, visit);
      var k :| 0 <= k < |os| && os[k] == o;
      assert CallsOfOrders(orders)[k] == o.call;
    }
  }

  /** The verdicts' batch. */
  method RunVerdicts(hub: EventHub, start: RunState, verdicts: Verdicts, tools: Tools, fault: Option<nat>)
    returns (state: RunState, cancelled: bool, raised: bool)
    requires hub.Valid() && Prepared(hub.world, start)
    modifies hub`trace, hub`log, hub`world, hub`openings, hub.store
    ensures hub.Valid() && old(hub.log) <= hub.log && hub.store.Others(hub.runId) == old(hub.store.Others(hub.runId))
    ensures hub.openings == old(hub.openings) +
      OpeningsOf(DecidedNow(start, verdicts)[..OpenedBefore(DecidedNow(start, verdicts), fault)], start)
    ensures raised <==> Raised(DecidedNow(start, verdicts), tools, fault)
    ensures Active(hub.world)
    ensures hub.trace == old(hub.trace) + EventsOf(DecidedNow(start, verdicts), tools, fault)
    ensures raised ==>
      InRecord(hub.world) == StillRunning(StoredBy(start, start, DecidedNow(start, verdicts), tools, fault.value))
    ensures !raised ==>
      && state == ResolveWith(start, verdicts, tools)
      && (cancelled <==> AnyStopped(DecidedNow(start, verdicts), tools))
      && hub.world.live.value.anchor == state
      && (!cancelled ==> Decided(hub.world, start, state, verdicts))
  {
    ghost var w0 := hub.world;
    var orders, resolved := DecidedNow(start, verdicts), [];
    DecidedReady(hub.log, hub.world, start, verdicts);
    state, cancelled, resolved, raised := RunBatch(hub, start, orders, tools, fault);
    BatchTrace(w0, hub.world, start, orders, tools, fault);
    if !raised && !cancelled {
      VerdictsLeaveOthers(w0, hub.world, start, verdicts, tools);
    }
  }

  /** A terminal event outside the loop: what its observers raise is not caught. */
  method EndVisit(hub: EventHub, state: RunState, status: RunStatus, exposed: seq<ToolCall>, raises: bool)
    returns (ending: Ending, shown: seq<ToolCall>)
    requires hub.Valid() && Active(hub.world) && CanHalt(hub.world, status, !Clean(status), hub.store.clock)
    requires hub.world.live.value.anchor == state && (Clean(status) ==> hub.world.live.value.state == state)
    requires status.WaitingForApproval? ==> exposed == UnmatchedToolCalls(state.messages)
    requires !status.Completed?
    modifies hub`log, hub`world, hub.store
    ensures hub.Valid() && old(hub.log) <= hub.log && hub.store.Others(hub.runId) == old(hub.store.Others(hub.runId))
    ensures Meets(hub.world, Finish(status, state, exposed, raises), ending, shown)
  {
    ending, shown := EndRun(hub, state, status, "", exposed, QUIET);
    if raises {
      ending := Died;
    }
  }

  /** Cancelled, paused again on the calls without a verdict, or on to the loop. */
  method AfterVerdicts(hub: EventHub, start: RunState, state: RunState, verdicts: Verdicts, tools: Tools, cancelled: bool,
                       visit: Visit)
    returns (ended: bool, ending: Ending, shown: seq<ToolCall>)
    requires hub.Valid() && Active(hub.world) && hub.world.live.value.anchor == state
    requires UnmatchedToolCalls(start.messages) != [] && !visit.cancelled
    requires !Raised(DecidedNow(start, verdicts), tools, visit.fault) && state == ResolveWith(start, verdicts, tools)
    requires cancelled <==> AnyStopped(DecidedNow(start, verdicts), tools)
    requires !cancelled ==> Decided(hub.world, start, state, verdicts)
    modifies hub`log, hub`world, hub.store
    ensures hub.Valid() && old(hub.log) <= hub.log && hub.store.Others(hub.runId) == old(hub.store.Others(hub.runId))
    ensures Met(hub.world, ApprovalsResult(start, verdicts, tools, visit), state, ended, ending, shown)
    ensures !ended ==> LoopHead(hub.world, state)
  {
    ended, ending, shown := true, Died, [];
    var left := StillPending(UnmatchedToolCalls(start.messages), verdicts);
    if cancelled {
      ending, shown := EndVisit(hub, state, Cancelled, [], visit.raises);
    } else if left != [] {
      ending, shown := EndVisit(hub, state, WaitingForApproval, left, visit.raises);
    } else {
      ended := false;
    }
  }

  /** `_apply_approvals`. */
  method ApplyApprovals(hub: EventHub, start: RunState, verdicts: Verdicts, tools: Tools, visit: Visit)
    returns (state: RunState, ended: bool, ending: Ending, shown: seq<ToolCall>)
    requires hub.Valid() && Prepared(hub.world, start)
    modifies hub`trace, hub`log, hub`world, hub`openings, hub.store
    ensures hub.Valid() && old(hub.log) <= hub.log && hub.store.Others(hub.runId) == old(hub.store.Others(hub.runId))
    ensures hub.openings == old(hub.openings) + ApprovalOpenings(start, verdicts, visit)
    ensures Met(hub.world, ApprovalsResult(start, verdicts, tools, visit), state, ended, ending, shown)
    ensures BreaksOff(start, verdicts, tools, visit) ==>
      && InRecord(hub.world) == BrokenRecord(start, verdicts, tools, visit) && hub.world.rec.value.status.Running?
    ensures hub.trace == old(hub.trace) + ApprovalEvents(start, verdicts, tools, visit)
    ensures !ended ==> LoopHead(hub.world, state)
  {
    state, ended, ending, shown := start, true, Died, [];
    var pending := UnmatchedToolCalls(state.messages);
    NothingDecidedYet(hub.trace, hub.openings, start, verdicts, tools, visit);
    if pending == [] {
      ended := false;
      return;
    }
    if visit.cancelled {
      ending, shown := EndVisit(hub, state, Cancelled, [], visit.raises);
      return;
    }
    var cancelled, raised;
    state, cancelled, raised := RunVerdicts(hub, start, verdicts, tools, visit.fault);
    if !raised {
      ended, ending, shown := AfterVerdicts(hub, start, state, verdicts, tools, cancelled, visit);
    }
  }

  /** With nothing pending, or cancelled on entry, nothing is opened. */
  lemma NothingDecidedYet(trace: seq<Event>, openings: seq<Opening>, start: RunState, verdicts: Verdicts, tools: Tools,
                          visit: Visit)
    ensures UnmatchedToolCalls(start.messages) == [] || visit.cancelled ==>
      && openings + ApprovalOpenings(start, verdicts, visit) == openings
      && trace + ApprovalEvents(start, verdicts, tools, visit) == trace
  {
  }

  /** Resolving approvals adds no call: a follow-up requested there is dropped. */
  lemma ResolvedCalls(state: RunState, verdicts: Verdicts, tools: Tools)
    ensures CallsOf(ResolveWith(state, verdicts, tools).messages) == CallsOf(state.messages)
  {
    FoldCalls(state, Settled(DecidedNow(state, verdicts), tools));
  }

  lemma VisitStages(frame: Frame, start: RunState, verdicts: Verdicts, policy: Policy, tools: Tools, visit: Visit, maxCalls: int)
    ensures var r := ApprovalsResult(start, verdicts, tools, visit);
      && CallsOf(ResolveWith(start, verdicts, tools).messages) == CallsOf(start.messages)
      && if r.GoesOn? then
           && (r.state == start || r.state == ResolveWith(start, verdicts, tools))
           && VisitResult(frame, start, verdicts, policy, tools, visit, maxCalls) ==
              Play(frame, r.state, visit.turns, maxCalls, policy, tools, visit.pausing)
           && VisitAsks(frame, start, verdicts, policy, tools, visit, maxCalls) ==
              Asks(frame, r.state, visit.turns, maxCalls, policy, tools)
         else
           && VisitResult(frame, start, verdicts, policy, tools, visit, maxCalls) == r
           && VisitAsks(frame, start, verdicts, policy, tools, visit, maxCalls) == []
  {
    ResolvedCalls(start, verdicts, tools);
  }

  /** Resolving approvals leaves the record RUNNING without going on if and only if the verdicts' batch
      breaks off; any other death there comes after the terminal status and state were stored. */
  lemma RunningIffBrokenOff(start: RunState, verdicts: Verdicts, tools: Tools, visit: Visit)
    ensures var r, quiet := ApprovalsResult(start, verdicts, tools, visit),
                            ApprovalsResult(start, verdicts, tools, visit.(raises := false));
      && (r.Dies? && r.left.status.Running? <==> BreaksOff(start, verdicts, tools, visit))
      && (BreaksOff(start, verdicts, tools, visit) ==> r == Dies(BrokenRecord(start, verdicts, tools, visit)))
      && (r.Dies? && !r.left.status.Running? ==>
            && visit.raises && quiet.Ends? && r.left == Stored(quiet.status, quiet.final)
            && (quiet.status.Cancelled? || quiet.status.WaitingForApproval?))
      && (r.Ends? ==> r == quiet && !r.status.Running?)
  {
  }

  /** The calls such a record leaves pending: all but those whose results were stored by then. */
  lemma BrokenPending(start: RunState, verdicts: Verdicts, tools: Tools, visit: Visit)
    requires WellFormed(start.messages) && BreaksOff(start, verdicts, tools, visit)
    ensures var orders := DecidedNow(start, verdicts); var n := visit.fault.value;
      var done := Settled(orders, tools)[..if n <= |orders| then 0 else n - |orders|];
      var left := BrokenRecord(start, verdicts, tools, visit).state;
      && WellFormed(left.messages) && start.messages <= left.messages
      && UnmatchedToolCalls(left.messages) == Except(UnmatchedToolCalls(start.messages), Ids(CallsIn(done)))
  {
    var pending, orders, n := UnmatchedToolCalls(start.messages), DecidedNow(start, verdicts), visit.fault.value;
    SettledArePending(start, verdicts, tools);
    FoldSomeKeeps(start, Settled(orders, tools), if n <= |orders| then 0 else n - |orders|);
  }

  lemma SettledArePending(start: RunState, verdicts: Verdicts, tools: Tools)
    requires WellFormed(start.messages)
    ensures var rs := Settled(DecidedNow(start, verdicts), tools);
      Distinct(CallsIn(rs)) && Ids(CallsIn(rs)) <= PendingIds(start)
  {
    var pending := UnmatchedToolCalls(start.messages);
    SatisfiedWereCalled(start.messages);
    DecidedDistinct(pending, verdicts);
    DecidedIds(pending, verdicts);
    SettledExactly(DecidedNow(start, verdicts), tools);
  }

  /** The first `k` results of a batch. */
  lemma FoldSomeKeeps(start: RunState, rs: seq<Resolved>, k: nat)
    requires WellFormed(start.messages) && k <= |rs|
    requires Distinct(CallsIn(rs)) && Ids(CallsIn(rs)) <= PendingIds(start)
    ensures var after := FoldResults(start, rs[..k]).messages;
      && WellFormed(after) && start.messages <= after
      && UnmatchedToolCalls(after) == Except(UnmatchedToolCalls(start.messages), Ids(CallsIn(rs[..k])))
  {
    var calls, some := CallsIn(rs), CallsIn(rs[..k]);
    assert some == calls[..k];
    forall id | id in Ids(some) ensures id in Ids(calls) {
      var c :| c in some && c.id == id;
      assert c in calls;
    }
    FoldKeepsOthers(start, rs[..k]);
  }

  /** Whoever takes a RUNNING record next seals it: each call it left pending gets its interruption.
      A waiting one is taken as it is. */
  lemma NextClaimSeals(w: World, extra: Option<string>, skills: Option<Skills>)
    requires w.rec.Some? && GoodState(w.rec.value.state)
    ensures var stored, after := w.rec.value.state.messages, ClaimedLive(w, extra, skills).state.messages;
      && (w.rec.value.status.Running? ==>
            && stored <= after && UnmatchedToolCalls(after) == []
            && forall c :: c in UnmatchedToolCalls(stored) ==> ToolMessage(c.id, INTERRUPTED_TOOL_RESULT) in after)
      && (w.rec.value.status.WaitingForApproval? ==> after == stored)
  {
    if w.rec.value.status.Running? {
      var loaded := Loaded(w, skills);
      var pending := UnmatchedToolCalls(loaded.messages);
      ClaimedState(w, extra, skills);
      PendingWereCalled(ClaimedLive(w, extra, skills).state);
      SealCloses(loaded);
      FoldHolds(loaded, Interrupted(pending));
      forall c | c in pending ensures ToolMessage(c.id, INTERRUPTED_TOOL_RESULT) in Sealed(loaded).messages {
        var k :| 0 <= k < |pending| && pending[k] == c;
        assert Interrupted(pending)[k] in Interrupted(pending);
      }
    }
  }

  // ----- claiming and swapping -----

  lemma StoredIsGood(log: seq<Action>, w: World)
    requires Replay(log) == Some(w) && w.rec.Some?
    ensures GoodState(w.rec.value.state)
  {
    HistoryKeeps(log);
  }

  lemma ClaimPrepares(start: World, extra: Option<string>, skills: Option<Skills>, now: nat)
    requires CanClaim(start, extra) && start.rec.value.updatedAt < now && GoodState(start.rec.value.state)
    ensures var state := ClaimedLive(start, extra, skills).state;
      && CanSwap(Claimed(start, extra, skills), now) && Prepared(Swapped(Claimed(start, extra, skills), now), state)
      && CallsOf(state.messages) == CallsOf(start.rec.value.state.messages)
  {
    ClaimedState(start, extra, skills);
    PendingWereCalled(ClaimedLive(start, extra, skills).state);
  }

  /** The claimed world as the swap finds it: an interrupt that hit a RUNNING record sealed it. */
  predicate Found(start: World, w: World, extra: Option<string>, skills: Option<Skills>, interrupted: bool)
    requires CanClaim(start, extra)
  {
    && w.rec.Some?
    && w == Claimed(start, extra, skills).(rec := w.rec)
    && (if interrupted && start.rec.value.status.Running? then
          w.rec.value.(updatedAt := 0) == Record(Cancelled, Sealed(start.rec.value.state), 0)
          && w.rec.value.updatedAt != start.rec.value.updatedAt
        else w.rec == start.rec)
  }

  lemma FoundThenLeft(start: World, w: World, extra: Option<string>, skills: Option<Skills>, interrupted: bool)
    requires CanClaim(start, extra) && Found(start, w, extra, skills, interrupted)
    ensures KeptOut(start, Left(w), interrupted)
  {
  }

  lemma NoCallsNoIds(state: RunState)
    requires CallsOf(state.messages) == []
    ensures ModelIssued(Ids(CallsOf(state.messages))) == {}
  {
  }

  function SeededState(prompt: string, skills: Skills): RunState { StartRun(WithRunSkills(EMPTY_STATE, skills), prompt) }

  lemma StartedRun(w: World, prompt: string, skills: Skills, now: nat)
    requires CanCreate(w)
    ensures MayAsk(Created(w, prompt, skills, now), SeededState(prompt, skills))
    ensures CallsOf(SeededState(prompt, skills).messages) == []
  {
    StartIsGood(prompt, skills);
  }

  /** The provider never reuses an id the stored transcript knows. */
  predicate FreshVisit(w: World, visit: Visit) { FreshTurns(visit.turns, ModelIssued(RecordIds(w))) }

  /** What an interrupt by someone without the claim leaves of the record. */
  function AfterInterrupt(start: World, interrupted: bool): (RunStatus, RunState)
    requires start.rec.Some?
  {
    var r := start.rec.value;
    if interrupted && r.status.Running? then (Cancelled, Sealed(r.state)) else (r.status, r.state)
  }

  /** Nobody but the interrupter wrote, and nothing was announced or asked. */
  predicate KeptOut(start: World, w: World, interrupted: bool)
    requires start.rec.Some?
  {
    && w.live.None? && w.rec.Some? && w.trace == start.trace && w.asked == start.asked
    && (w.rec.value.status, w.rec.value.state) == AfterInterrupt(start, interrupted)
  }

  /** An observer that raises before the swap, or an interrupt that hit a Run stored as RUNNING,
      keeps the visit out: nothing runs. Otherwise it goes ahead from the claimed state. */
  ghost predicate LetIn(start: World, w: World, extra: Option<string>, skills: Option<Skills>, verdicts: Verdicts,
                        loop: AgentLoop, visit: Visit, maxCalls: int, response: Response, shown: seq<ToolCall>)
    requires start.rec.Some?
  {
    if visit.hookFails then response == Advanced(Died) && KeptOut(start, w, visit.interrupted)
    else if visit.interrupted && start.rec.value.status.Running? then
      response == Rejected(Changed) && KeptOut(start, w, visit.interrupted)
    else
      var state := ClaimedLive(start, extra, skills).state;
      && response.Advanced?
      && HandedBack(w, VisitResult(loop.frame, state, verdicts, loop.policy, loop.tools, visit, maxCalls), response.ending,
                    shown, Dangling(start.trace))
      && w.asked == start.asked + VisitAsks(loop.frame, state, verdicts, loop.policy, loop.tools, visit, maxCalls)
  }

  /** Once let in, a visit that does not reach the loop leaves the record RUNNING if and only if its
      verdicts' batch broke off, and then with exactly the results stored by then. Otherwise the record
      holds the terminal status and state, whether or not an observer raised there. */
  ghost predicate LeavesRunningIff(start: World, w: World, extra: Option<string>, skills: Option<Skills>,
                                   verdicts: Verdicts, loop: AgentLoop, visit: Visit, response: Response)
    requires start.rec.Some?
  {
    !visit.hookFails && !(visit.interrupted && start.rec.value.status.Running?) ==>
      var state := ClaimedLive(start, extra, skills).state;
      var brokenOff := BreaksOff(state, verdicts, loop.tools, visit);
      && w.rec.Some?
      && (brokenOff <==> !ApprovalsResult(state, verdicts, loop.tools, visit).GoesOn? && w.rec.value.status.Running?)
      && (brokenOff ==>
            && response == Advanced(Died) && w.asked == start.asked
            && InRecord(w) == BrokenRecord(state, verdicts, loop.tools, visit))
      && (!brokenOff && !ApprovalsResult(state, verdicts, loop.tools, visit).GoesOn? ==>
            var quiet := ApprovalsResult(state, verdicts, loop.tools, visit.(raises := false));
            && quiet.Ends? && InRecord(w) == Stored(quiet.status, quiet.final)
            && response.Advanced? && (response.ending.Died? <==> visit.raises))
  }

  lemma LetInLeaves(start: World, w: World, extra: Option<string>, skills: Option<Skills>, verdicts: Verdicts,
                    loop: AgentLoop, visit: Visit, maxCalls: int, response: Response, shown: seq<ToolCall>)
    requires start.rec.Some? && LetIn(start, w, extra, skills, verdicts, loop, visit, maxCalls, response, shown)
    ensures LeavesRunningIff(start, w, extra, skills, verdicts, loop, visit, response)
  {
    if !visit.hookFails && !(visit.interrupted && start.rec.value.status.Running?) {
      var state := ClaimedLive(start, extra, skills).state;
      RunningIffBrokenOff(state, verdicts, loop.tools, visit);
      VisitStages(loop.frame, state, verdicts, loop.policy, loop.tools, visit, maxCalls);
      assert start.asked + [] == start.asked;
    }
  }

  /** A refused request changes nothing; any other is let in. */
  ghost predicate Answer(start: World, w: World, extra: Option<string>, skills: Option<Skills>, verdicts: Verdicts,
                         loop: AgentLoop, visit: Visit, maxCalls: int, response: Response, shown: seq<ToolCall>,
                         refusal: Option<ResumeError>)
    requires refusal.None? ==> start.rec.Some?
  {
    if refusal.Some? then response == Rejected(refusal.value) && w == start
    else LetIn(start, w, extra, skills, verdicts, loop, visit, maxCalls, response, shown)
  }

  /** What `resume` refuses, in the order it looks. */
  function ResumeRefusal(w: World, prompt: Option<string>, runExtra: Option<seq<string>>,
                         selectedSkills: Option<seq<string>>): Option<ResumeError> {
    if runExtra.Some? != selectedSkills.Some? then Some(SkillsApart)
    else if w.rec.None? then Some(UnknownRun)
    else if w.rec.value.status.WaitingForApproval? && prompt.Some? then Some(WaitsForApproval)
    else None
  }

  function ApprovalRefusal(w: World): Option<ResumeError> {
    if w.rec.None? then Some(UnknownRun)
    else if !w.rec.value.status.WaitingForApproval? then Some(NotWaiting)
    else None
  }

  function Reselected(runExtra: Option<seq<string>>, selectedSkills: Option<seq<string>>): Option<Skills> {
    if runExtra.Some? && selectedSkills.Some? then Some(Skills(runExtra.value, selectedSkills.value)) else None
  }

  function FirstInLine(w: World, verdict: Verdict): Verdicts {
    if w.rec.None? || UnmatchedToolCalls(w.rec.value.state.messages) == [] then map[]
    else map[UnmatchedToolCalls(w.rec.value.state.messages)[0].id := verdict]
  }

  /** Of the calls opened since, only follow-ups were not stored. */
  predicate UnstoredAreFollowUps(before: seq<Opening>, after: seq<Opening>) {
    && before <= after
    && forall i :: |before| <= i < |after| && !after[i].durable ==> IsFollowUp(after[i].call.id)
  }

  lemma OpenedInLoop(before: seq<Opening>, after: seq<Opening>)
    requires OpenedSince(before, after)
    ensures UnstoredAreFollowUps(before, after)
  {
    forall i | |before| <= i < |after| && !after[i].durable ensures IsFollowUp(after[i].call.id) {
      assert after[i] == after[|before|..][i - |before|];
    }
  }

  lemma OpenedInVisit(before: seq<Opening>, start: RunState, verdicts: Verdicts, visit: Visit, after: seq<Opening>)
    requires OpenedSince(before + ApprovalOpenings(start, verdicts, visit), after)
    ensures UnstoredAreFollowUps(before, after)
  {
    var approvals := ApprovalOpenings(start, verdicts, visit);
    ApprovalsAreStored(start, verdicts, visit);
    OpenedInLoop(before + approvals, after);
    forall i | |before| <= i < |before + approvals| ensures after[i].durable {
      assert after[i] == approvals[i - |before|] && approvals[i - |before|] in approvals;
    }
  }

  /** Resolving approvals starts only what a human approved. */
  lemma VerdictsStart(start: RunState, verdicts: Verdicts, policy: Policy, tools: Tools, visit: Visit, openings: seq<Opening>,
                      trace: seq<Event>)
    ensures StartedSince(policy, Approved(verdicts), openings, openings + ApprovalOpenings(start, verdicts, visit), trace,
                         trace + ApprovalEvents(start, verdicts, tools, visit))
  {
    var orders, os := DecidedNow(start, verdicts), ApprovalOpenings(start, verdicts, visit);
    forall id | Begin(id) in ApprovalEvents(start, verdicts, tools, visit) ensures MayStart(policy, Approved(verdicts), os, id) {
      StartsAreOrders(orders, tools, visit.fault, id);
      VerdictDecides(UnmatchedToolCalls(start.messages), verdicts);
      var k :| 0 <= k < |orders| && orders[k].plan.Execute? && orders[k].call.id == id;
      assert orders[k] in orders && os[k] in os;
    }
    NothingStarted(policy, Approved(verdicts), openings, trace);
    StartedMore(policy, Approved(verdicts), openings, openings, trace, trace, os,
                ApprovalEvents(start, verdicts, tools, visit));
  }

  /** Since then every tool that started was either allowed by the policy or approved by a human, only
      follow-ups were opened unstored, and each request was made with the frame's prompt, schemas and
      budget. */
  ghost predicate LawfulVisit(frame: Frame, limit: Option<Limit>, policy: Policy, approved: set<string>, before: Seen, after: Seen) {
    && before.asked <= after.asked
    && UnstoredAreFollowUps(before.openings, after.openings)
    && StartedSince(policy, approved, before.openings, after.openings, before.trace, after.trace)
    && MadeSince(frame, limit, before.basis, after.basis, after.asked)
  }

  lemma NothingSeen(frame: Frame, limit: Option<Limit>, policy: Policy, approved: set<string>, seen: Seen)
    requires |seen.basis| == |seen.asked|
    ensures LawfulVisit(frame, limit, policy, approved, seen, seen)
  {
    NothingStarted(policy, approved, seen.openings, seen.trace);
  }

  /** Approvals, then the loop. */
  lemma SeenInVisit(frame: Frame, limit: Option<Limit>, policy: Policy, tools: Tools, before: Seen, after: Seen, start: RunState,
                    verdicts: Verdicts, visit: Visit)
    requires Lawful(frame, limit, policy,
                    before.(openings := before.openings + ApprovalOpenings(start, verdicts, visit),
                            trace := before.trace + ApprovalEvents(start, verdicts, tools, visit)), after)
    ensures LawfulVisit(frame, limit, policy, Approved(verdicts), before, after)
  {
    var openings, trace := before.openings + ApprovalOpenings(start, verdicts, visit),
                           before.trace + ApprovalEvents(start, verdicts, tools, visit);
    OpenedInVisit(before.openings, start, verdicts, visit, after.openings);
    VerdictsStart(start, verdicts, policy, tools, visit, before.openings, before.trace);
    StartedApproved(policy, Approved(verdicts), openings, after.openings, trace, after.trace);
    StartedTogether(policy, Approved(verdicts), before.openings, openings, after.openings, before.trace, trace, after.trace);
  }

  lemma SeenInLoop(frame: Frame, limit: Option<Limit>, policy: Policy, before: Seen, after: Seen)
    requires Lawful(frame, limit, policy, before, after)
    ensures LawfulVisit(frame, limit, policy, {}, before, after)
  {
    OpenedInLoop(before.openings, after.openings);
  }

  /** The proposal to fold everything, if anything is left to fold. */
  function WholeProposal(state: RunState, summarize: Summarizer): Option<Compacted> {
    if Already(state) < |state.messages| then Proposal(state, |state.messages|, summarize) else None
  }

  // ----- the harness -----

  class AgentHarness {
    const hub: EventHub
    const loop: AgentLoop

    ghost predicate Valid()
      reads this, hub, hub.store
    {
      loop.hub == hub && hub.Valid()
    }

    constructor (hub: EventHub, loop: AgentLoop)
      requires loop.hub == hub && hub.Valid()
      ensures Valid() && this.hub == hub && this.loop == loop
    {
      this.hub, this.loop := hub, loop;
    }

    /** Somebody without the claim interrupts the Run. */
    method Interrupt()
      requires Valid() && hub.world.rec.Some?
      modifies hub`log, hub`world, hub.store
      ensures Valid() && old(hub.log) <= hub.log
      ensures hub.store.Others(hub.runId) == old(hub.store.Others(hub.runId))
      ensures !old(hub.world).rec.value.status.Running? ==> hub.world == old(hub.world)
      ensures old(hub.world).rec.value.status.Running? ==>
        && CanSealInterrupt(old(hub.world), old(hub.store.clock))
        && hub.world == SealInterrupted(old(hub.world), old(hub.store.clock))
    {
      ghost var at := hub.store.clock;
      var sealed := hub.store.SealInterrupt(hub.runId, "interrupted");
      if sealed {
        hub.Note(SealInterrupt(at));
      }
    }

    /** Whatever somebody without the claim does between the load and the swap. */
    method Disturb(interrupted: bool, ghost start: World, ghost extra: Option<string>, ghost skills: Option<Skills>)
      requires Valid() && CanClaim(start, extra) && hub.world == Claimed(start, extra, skills)
      modifies hub`log, hub`world, hub.store
      ensures Valid() && old(hub.log) <= hub.log
      ensures hub.store.Others(hub.runId) == old(hub.store.Others(hub.runId))
      ensures Found(start, hub.world, extra, skills, interrupted)
    {
      if interrupted {
        Interrupt();
      }
    }

    /** `prepare_resume`. */
    method SwapIn(expected: nat, state: RunState, interrupted: bool, ghost start: World, ghost extra: Option<string>,
                  ghost skills: Option<Skills>)
      returns (swapped: bool)
      requires Valid() && CanClaim(start, extra) && Found(start, hub.world, extra, skills, interrupted)
      requires GoodState(start.rec.value.state)
      requires expected == start.rec.value.updatedAt && state == hub.world.live.value.state
      modifies hub`log, hub`world, hub.store
      ensures Valid() && old(hub.log) <= hub.log
      ensures hub.store.Others(hub.runId) == old(hub.store.Others(hub.runId))
      ensures swapped <==> !(interrupted && start.rec.value.status.Running?)
      ensures swapped ==>
        && Prepared(hub.world, state) && CallsOf(state.messages) == CallsOf(start.rec.value.state.messages)
        && hub.world.asked == start.asked
      ensures !swapped ==> KeptOut(start, hub.world, interrupted)
    {
      ghost var now := hub.store.clock;
      swapped := hub.PrepareResume(expected, state);
      if swapped {
        ClaimPrepares(start, extra, skills, now);
      } else {
        FoundThenLeft(start, hub.world, extra, skills, interrupted);
        hub.Note(Action.Leave);
      }
    }

    /** From the load to the swap. */
    method TakeOver(expected: nat, state: RunState, visit: Visit, ghost start: World, ghost extra: Option<string>,
                    ghost skills: Option<Skills>)
      returns (swapped: bool)
      requires Valid() && CanClaim(start, extra) && hub.world == Claimed(start, extra, skills)
      requires expected == start.rec.value.updatedAt && state == hub.world.live.value.state
      modifies hub`log, hub`world, hub.store
      ensures Valid() && old(hub.log) <= hub.log
      ensures hub.store.Others(hub.runId) == old(hub.store.Others(hub.runId))
      ensures swapped <==> !visit.hookFails && !(visit.interrupted && start.rec.value.status.Running?)
      ensures swapped ==>
        && Prepared(hub.world, state) && CallsOf(state.messages) == CallsOf(start.rec.value.state.messages)
        && hub.world.asked == start.asked
      ensures !swapped ==> KeptOut(start, hub.world, visit.interrupted)
    {
      StoredIsGood(hub.log, hub.world);
      Disturb(visit.interrupted, start, extra, skills);
      if visit.hookFails {
        FoundThenLeft(start, hub.world, extra, skills, visit.interrupted);
        hub.Note(Action.Leave);
        return false;
      }
      swapped := SwapIn(expected, state, visit.interrupted, start, extra, skills);
    }

    /** The process returns or dies; the claim is free. */
    ghost method Depart(must: TurnResult, ending: Ending, shown: seq<ToolCall>)
      requires Valid() && Meets(hub.world, must, ending, shown)
      modifies hub`log, hub`world
      ensures Valid() && old(hub.log) <= hub.log
      ensures HandedBack(hub.world, must, ending, shown, hub.entry)
      ensures hub.world.rec == old(hub.world).rec
    {
      MetThenLeft(hub.world, must, ending, shown);
      hub.Note(Action.Leave);
    }

    /** Approvals, then the loop. */
    method Proceed(state: RunState, maxCalls: int, verdicts: Verdicts, visit: Visit)
      returns (ending: Ending, shown: seq<ToolCall>)
      requires Valid() && Prepared(hub.world, state)
      requires FreshTurns(visit.turns, ModelIssued(Ids(CallsOf(state.messages))))
      modifies hub`asked, hub`sent, hub`basis, hub`trace, hub`log, hub`world, hub`openings, hub`tidy, hub.store
      ensures Valid() && old(hub.log) <= hub.log
      ensures hub.store.Others(hub.runId) == old(hub.store.Others(hub.runId))
      ensures HandedBack(hub.world, VisitResult(loop.frame, state, verdicts, loop.policy, loop.tools, visit, maxCalls), ending,
                         shown, hub.entry)
      ensures hub.asked == old(hub.asked) + VisitAsks(loop.frame, state, verdicts, loop.policy, loop.tools, visit, maxCalls)
      ensures LawfulVisit(loop.frame, LimitOf(loop.frame), loop.policy, Approved(verdicts), old(hub.SoFar()), hub.SoFar())
      ensures old(hub.tidy) && AllQuiet(visit.turns, loop.policy, loop.tools) ==> hub.tidy
    {
      ghost var used, before := ModelIssued(Ids(CallsOf(state.messages))), hub.SoFar();
      var next, ended;
      next, ended, ending, shown := ApplyApprovals(hub, state, verdicts, loop.tools, visit);
      LawfulSoFar(loop.frame, LimitOf(loop.frame), loop.policy, hub.SoFar());
      assert hub.asked + [] == hub.asked;
      VisitStages(loop.frame, state, verdicts, loop.policy, loop.tools, visit, maxCalls);
      if ended {
        Depart(ApprovalsResult(state, verdicts, loop.tools, visit), ending, shown);
      } else {
        ending, shown := Continue(next, maxCalls, visit.turns, visit.pausing, used);
      }
      SeenInVisit(loop.frame, LimitOf(loop.frame), loop.policy, loop.tools, before, hub.SoFar(), state, verdicts, visit);
    }

    /** The loop from a prepared state, then the return. */
    method Continue(state: RunState, maxCalls: int, turns: seq<Turn>, pausing: Parting, ghost used: set<string>)
      returns (ending: Ending, shown: seq<ToolCall>)
      requires Valid() && LoopHead(hub.world, state)
      requires FreshTurns(turns, used) && ModelIssued(Ids(CallsOf(state.messages))) <= used
      modifies hub`asked, hub`sent, hub`basis, hub`trace, hub`log, hub`world, hub`openings, hub`tidy, hub.store
      ensures Valid() && old(hub.log) <= hub.log
      ensures hub.store.Others(hub.runId) == old(hub.store.Others(hub.runId))
      ensures HandedBack(hub.world, Play(loop.frame, state, turns, maxCalls, loop.policy, loop.tools, pausing), ending, shown,
                         hub.entry)
      ensures hub.asked == old(hub.asked) + Asks(loop.frame, state, turns, maxCalls, loop.policy, loop.tools)
      ensures Lawful(loop.frame, LimitOf(loop.frame), loop.policy, old(hub.SoFar()), hub.SoFar())
      ensures old(hub.tidy) && AllQuiet(turns, loop.policy, loop.tools) ==> hub.tidy
    {
      ending, shown := loop.Advance(state, turns, maxCalls, pausing, used);
      Depart(Play(loop.frame, state, turns, maxCalls, loop.policy, loop.tools, pausing), ending, shown);
    }

    /** `_advance_prepared`: back to RUNNING unless someone wrote since the load, then the
        approvals, then the loop. */
    method AdvancePrepared(expected: nat, state: RunState, maxCalls: int, verdicts: Verdicts, visit: Visit,
                           ghost start: World, ghost extra: Option<string>, ghost skills: Option<Skills>)
      returns (response: Response, shown: seq<ToolCall>)
      requires Valid() && CanClaim(start, extra) && hub.world == Claimed(start, extra, skills)
      requires expected == start.rec.value.updatedAt && state == hub.world.live.value.state
      requires FreshVisit(start, visit)
      modifies hub`asked, hub`sent, hub`basis, hub`trace, hub`log, hub`world, hub`openings, hub`tidy, hub.store
      ensures Valid() && old(hub.log) <= hub.log
      ensures hub.store.Others(hub.runId) == old(hub.store.Others(hub.runId))
      ensures LetIn(start, hub.world, extra, skills, verdicts, loop, visit, maxCalls, response, shown)
      ensures LeavesRunningIff(start, hub.world, extra, skills, verdicts, loop, visit, response)
      ensures LawfulVisit(loop.frame, LimitOf(loop.frame), loop.policy, Approved(verdicts), old(hub.SoFar()), hub.SoFar())
      ensures old(hub.tidy) && AllQuiet(visit.turns, loop.policy, loop.tools) ==> hub.tidy
    {
      shown := [];
      NothingSeen(loop.frame, LimitOf(loop.frame), loop.policy, Approved(verdicts), hub.SoFar());
      var swapped := TakeOver(expected, state, visit, start, extra, skills);
      if !swapped {
        return if visit.hookFails then Advanced(Died) else Rejected(Changed), shown;
      }
      var ending;
      ending, shown := Proceed(state, maxCalls, verdicts, visit);
      response := Advanced(ending);
      LetInLeaves(start, hub.world, extra, skills, verdicts, loop, visit, maxCalls, response, shown);
    }

    /** The record is created; the seeded transcript is stored when the Run is announced. */
    method Seed(prompt: string, workspace: string, skills: Skills, fault: StartFault) returns (state: RunState, begun: bool)
      requires Valid() && CanCreate(hub.world)
      modifies hub`log, hub`world, hub`entry, hub.store
      ensures Valid() && old(hub.log) <= hub.log
      ensures hub.store.Others(hub.runId) == old(hub.store.Others(hub.runId))
      ensures hub.entry == Dangling(old(hub.trace)) && hub.world.asked == old(hub.world).asked
      ensures begun <==> fault.NoFault?
      ensures state == SeededState(prompt, skills) && CallsOf(state.messages) == []
      ensures MayAsk(hub.world, state) && RecordHolds(hub.world, if fault.BeforeStart? then EMPTY_STATE else state)
    {
      ghost var now := hub.store.clock;
      var created := hub.store.CreateRun(hub.runId, workspace);
      hub.NoteTaken(Create(prompt, skills, now));
      StartedRun(old(hub.world), prompt, skills, now);
      state, begun := StartRun(WithRunSkills(EMPTY_STATE, skills), prompt), fault.NoFault?;
      if !fault.BeforeStart? {
        hub.RunStarted(state);
      }
    }

    /** `run`: a fresh Run. */
    method Run(prompt: string, workspace: string, skills: Skills, fault: StartFault, turns: seq<Turn>, maxCalls: int,
               pausing: Parting)
      returns (ending: Ending, shown: seq<ToolCall>)
      requires Valid() && CanCreate(hub.world) && FreshTurns(turns, {})
      modifies hub`asked, hub`sent, hub`basis, hub`trace, hub`log, hub`world, hub`openings, hub`tidy, hub`entry, hub.store
      ensures Valid() && old(hub.log) <= hub.log
      ensures hub.store.Others(hub.runId) == old(hub.store.Others(hub.runId))
      ensures HandedBack(hub.world,
                         if fault.NoFault? then
                           Play(loop.frame, SeededState(prompt, skills), turns, maxCalls, loop.policy, loop.tools, pausing)
                         else Dies(StillRunning(if fault.BeforeStart? then EMPTY_STATE else SeededState(prompt, skills))),
                         ending, shown, Dangling(old(hub.trace)))
      ensures fault.NoFault? ==>
        hub.asked == old(hub.asked) +
          Asks(loop.frame, SeededState(prompt, skills), turns, maxCalls, loop.policy, loop.tools)
      ensures LawfulVisit(loop.frame, LimitOf(loop.frame), loop.policy, {}, old(hub.SoFar()), hub.SoFar())
      ensures old(hub.tidy) && AllQuiet(turns, loop.policy, loop.tools) ==> hub.tidy
    {
      ghost var before := hub.SoFar();
      NothingSeen(loop.frame, LimitOf(loop.frame), loop.policy, {}, before);
      var state, begun := Seed(prompt, workspace, skills, fault);
      if !begun {
        ending, shown := Died, [];
        Depart(Dies(InRecord(hub.world)), ending, shown);
        return;
      }
      NoCallsNoIds(state);
      ending, shown := Continue(state, maxCalls, turns, pausing, {});
      SeenInLoop(loop.frame, LimitOf(loop.frame), loop.policy, before, hub.SoFar());
    }

    /** The state a resume goes on from: the stored one with the skills given now, sealed and extended
        by the prompt unless it waits for approval. */
    method Load(stored: Record, prompt: Option<string>, skills: Option<Skills>) returns (state: RunState)
      requires Valid() && CanClaim(hub.world, prompt) && stored == hub.world.rec.value
      modifies hub`log, hub`world, hub`entry
      ensures Valid() && old(hub.log) <= hub.log
      ensures hub.world == Claimed(old(hub.world), prompt, skills) && state == hub.world.live.value.state
    {
      hub.NoteTaken(Claim(prompt, skills));
      state := stored.state;
      if skills.Some? {
        state := WithRunSkills(state, skills.value);
      }
      if !stored.status.WaitingForApproval? {
        var repaired;
        state, repaired := Seal(state);
        if prompt.Some? {
          state := AppendUserMessage(state, prompt.value);
        }
      }
    }

    /** A resume that is not refused. */
    method TakeUp(stored: Record, prompt: Option<string>, skills: Option<Skills>, maxCalls: int, visit: Visit)
      returns (response: Response, shown: seq<ToolCall>)
      requires Valid() && CanClaim(hub.world, prompt) && FreshVisit(hub.world, visit) && stored == hub.world.rec.value
      modifies hub`asked, hub`sent, hub`basis, hub`trace, hub`log, hub`world, hub`openings, hub`tidy, hub`entry, hub.store
      ensures Valid() && old(hub.log) <= hub.log
      ensures hub.store.Others(hub.runId) == old(hub.store.Others(hub.runId))
      ensures LetIn(old(hub.world), hub.world, prompt, skills, map[], loop, visit, maxCalls, response, shown)
      ensures LeavesRunningIff(old(hub.world), hub.world, prompt, skills, map[], loop, visit, response)
      ensures LawfulVisit(loop.frame, LimitOf(loop.frame), loop.policy, {}, old(hub.SoFar()), hub.SoFar())
      ensures old(hub.tidy) && AllQuiet(visit.turns, loop.policy, loop.tools) ==> hub.tidy
    {
      ghost var start := hub.world;
      assert Approved(map[]) == {};
      var state := Load(stored, prompt, skills);
      response, shown := AdvancePrepared(stored.updatedAt, state, maxCalls, map[], visit, start, prompt, skills);
    }

    /** `resume`: seals what an interrupted Run left open, or takes a waiting Run as it is. */
    method Resume(prompt: Option<string>, runExtra: Option<seq<string>>, selectedSkills: Option<seq<string>>, maxCalls: int,
                  visit: Visit)
      returns (response: Response, shown: seq<ToolCall>)
      requires Valid() && hub.world.live.None? && FreshVisit(hub.world, visit)
      modifies hub`asked, hub`sent, hub`basis, hub`trace, hub`log, hub`world, hub`openings, hub`tidy, hub`entry, hub.store
      ensures Valid() && old(hub.log) <= hub.log
      ensures hub.store.Others(hub.runId) == old(hub.store.Others(hub.runId))
      ensures Answer(old(hub.world), hub.world, prompt, Reselected(runExtra, selectedSkills), map[], loop, visit, maxCalls,
                     response, shown, ResumeRefusal(old(hub.world), prompt, runExtra, selectedSkills))
      ensures ResumeRefusal(old(hub.world), prompt, runExtra, selectedSkills).None? ==>
        LeavesRunningIff(old(hub.world), hub.world, prompt, Reselected(runExtra, selectedSkills), map[], loop, visit, response)
      ensures LawfulVisit(loop.frame, LimitOf(loop.frame), loop.policy, {}, old(hub.SoFar()), hub.SoFar())
      ensures old(hub.tidy) && AllQuiet(visit.turns, loop.policy, loop.tools) ==> hub.tidy
    {
      shown := [];
      NothingSeen(loop.frame, LimitOf(loop.frame), loop.policy, {}, hub.SoFar());
      if runExtra.Some? != selectedSkills.Some? {
        return Rejected(SkillsApart), shown;
      }
      var stored := hub.store.Find(hub.runId);
      if stored.None? {
        return Rejected(UnknownRun), shown;
      }
      var waiting := stored.value.status.WaitingForApproval?;
      if waiting && prompt.Some? {
        return Rejected(WaitsForApproval), shown;
      }
      response, shown := TakeUp(stored.value, prompt, Reselected(runExtra, selectedSkills), maxCalls, visit);
    }

    /** Takes a waiting Run as it is and resolves calls of it. */
    method Respond(stored: Record, verdicts: Verdicts, maxCalls: int, visit: Visit)
      returns (response: Response, shown: seq<ToolCall>)
      requires Valid() && CanClaim(hub.world, None) && FreshVisit(hub.world, visit)
      requires stored == hub.world.rec.value && stored.status.WaitingForApproval?
      modifies hub`asked, hub`sent, hub`basis, hub`trace, hub`log, hub`world, hub`openings, hub`tidy, hub`entry, hub.store
      ensures Valid() && old(hub.log) <= hub.log
      ensures hub.store.Others(hub.runId) == old(hub.store.Others(hub.runId))
      ensures LetIn(old(hub.world), hub.world, None, None, verdicts, loop, visit, maxCalls, response, shown)
      ensures LeavesRunningIff(old(hub.world), hub.world, None, None, verdicts, loop, visit, response)
      ensures LawfulVisit(loop.frame, LimitOf(loop.frame), loop.policy, Approved(verdicts), old(hub.SoFar()), hub.SoFar())
      ensures old(hub.tidy) && AllQuiet(visit.turns, loop.policy, loop.tools) ==> hub.tidy
    {
      ghost var start := hub.world;
      hub.NoteTaken(Claim(None, None));
      response, shown := AdvancePrepared(stored.updatedAt, stored.state, maxCalls, verdicts, visit, start, None, None);
    }

    /** `respond_approvals`: a verdict per call; calls without one stay pending. */
    method RespondApprovals(verdicts: Verdicts, maxCalls: int, visit: Visit)
      returns (response: Response, shown: seq<ToolCall>)
      requires Valid() && hub.world.live.None? && FreshVisit(hub.world, visit)
      modifies hub`asked, hub`sent, hub`basis, hub`trace, hub`log, hub`world, hub`openings, hub`tidy, hub`entry, hub.store
      ensures Valid() && old(hub.log) <= hub.log
      ensures hub.store.Others(hub.runId) == old(hub.store.Others(hub.runId))
      ensures Answer(old(hub.world), hub.world, None, None, verdicts, loop, visit, maxCalls, response, shown,
                     ApprovalRefusal(old(hub.world)))
      ensures ApprovalRefusal(old(hub.world)).None? ==>
        LeavesRunningIff(old(hub.world), hub.world, None, None, verdicts, loop, visit, response)
      ensures LawfulVisit(loop.frame, LimitOf(loop.frame), loop.policy, Approved(verdicts), old(hub.SoFar()), hub.SoFar())
      ensures old(hub.tidy) && AllQuiet(visit.turns, loop.policy, loop.tools) ==> hub.tidy
    {
      shown := [];
      NothingSeen(loop.frame, LimitOf(loop.frame), loop.policy, Approved(verdicts), hub.SoFar());
      var stored := hub.store.Find(hub.runId);
      if stored.None? {
        return Rejected(UnknownRun), shown;
      }
      if !stored.value.status.WaitingForApproval? {
        return Rejected(NotWaiting), shown;
      }
      response, shown := Respond(stored.value, verdicts, maxCalls, visit);
    }

    /** `respond_approval`: one verdict, for the call that is first in line. */
    method RespondApproval(verdict: Verdict, maxCalls: int, visit: Visit)
      returns (response: Response, shown: seq<ToolCall>)
      requires Valid() && hub.world.live.None? && FreshVisit(hub.world, visit)
      modifies hub`asked, hub`sent, hub`basis, hub`trace, hub`log, hub`world, hub`openings, hub`tidy, hub`entry, hub.store
      ensures Valid() && old(hub.log) <= hub.log
      ensures hub.store.Others(hub.runId) == old(hub.store.Others(hub.runId))
      ensures Answer(old(hub.world), hub.world, None, None, FirstInLine(old(hub.world), verdict), loop, visit, maxCalls,
                     response, shown, ApprovalRefusal(old(hub.world)))
      ensures ApprovalRefusal(old(hub.world)).None? ==>
        LeavesRunningIff(old(hub.world), hub.world, None, None, FirstInLine(old(hub.world), verdict), loop, visit, response)
      ensures LawfulVisit(loop.frame, LimitOf(loop.frame), loop.policy, Approved(FirstInLine(old(hub.world), verdict)), old(hub.SoFar()), hub.SoFar())
      ensures old(hub.tidy) && AllQuiet(visit.turns, loop.policy, loop.tools) ==> hub.tidy
    {
      shown := [];
      NothingSeen(loop.frame, LimitOf(loop.frame), loop.policy, Approved(FirstInLine(hub.world, verdict)), hub.SoFar());
      var stored := hub.store.Find(hub.runId);
      if stored.None? {
        return Rejected(UnknownRun), shown;
      }
      if !stored.value.status.WaitingForApproval? {
        return Rejected(NotWaiting), shown;
      }
      Safety.WaitingIsUntouched(hub.log);
      var pending := UnmatchedToolCalls(stored.value.state.messages);
      response, shown := Respond(stored.value, map[pending[0].id := verdict], maxCalls, visit);
    }

    /** Compaction on demand: the whole stored transcript is folded and the status kept
        (`app/session.py`). Nothing there takes the claim or looks at what is pending. */
    method CompactOnDemand(counter: TokenCounter, summarize: Summarizer) returns (summary: Option<string>)
      requires Valid()
      modifies hub`log, hub`world, hub`tidy, hub.store
      ensures Valid() && old(hub.log) <= hub.log
      ensures hub.store.Others(hub.runId) == old(hub.store.Others(hub.runId))
      ensures old(hub.world).rec.None? ==> summary.None? && hub.world == old(hub.world)
      ensures old(hub.world).rec.Some? ==>
        var state := old(hub.world).rec.value.state;
        var p := WholeProposal(state, summarize);
        if p.Some? then
          && CanFoldWhole(old(hub.world), p.value.compaction, old(hub.store.clock))
          && hub.world == FoldedWhole(old(hub.world), p.value.compaction, old(hub.store.clock))
          && summary == Some(p.value.compaction.summary) && ReportsFold(state, summarize, p.value)
        else
          hub.world == old(hub.world) && summary == Some(if EarlierSummary(state).Some? then EarlierSummary(state).value else "")
    {
      var stored := hub.store.Find(hub.runId);
      if stored.None? {
        return None;
      }
      var state := stored.value.state;
      var compacted := ForceCompact(counter, state, 0, summarize);
      if compacted.None? {
        return Some(if state.compaction.Some? then state.compaction.value.summary else "");
      }
      ghost var now := hub.store.clock;
      StoredIsGood(hub.log, hub.world);
      hub.store.SaveState(hub.runId, state.(compaction := Some(compacted.value.compaction)), Some(stored.value.status), None);
      hub.NoteFoldWhole(compacted.value.compaction, now);
      summary := Some(compacted.value.compaction.summary);
    }
  }

  /** What every entry point keeps, whatever happened during any visit: no call is announced, started
      or finished twice or out of order, each request was issued from a transcript in which every
      call has its one result, and the stored state bills every answer the Run ever received. */
  lemma EveryVisitIsSafe(hub: EventHub)
    requires hub.Valid()
    ensures forall i, j :: 0 <= i < j < |hub.trace| ==> hub.trace[i] != hub.trace[j]
    ensures forall j :: 0 <= j < |hub.trace| && !hub.trace[j].Before? ==> Before(hub.trace[j].id) in hub.trace[..j]
    ensures forall i, j :: 0 <= i < j < |hub.trace| && hub.trace[i].After? ==> hub.trace[j].id != hub.trace[i].id
    ensures forall state :: state in hub.asked ==> Safety.Requestable(state.messages)
    ensures hub.store.Find(hub.runId).Some? ==>
      var state, all := hub.store.Find(hub.runId).value.state, Accounts.AllAnswers(hub.log);
      && Accounts.AreAnswers(hub.log, all)
      && state.completedModelCalls == |all| && Accounts.IsBillFor(state.usage, Accounts.Responses(hub.log, all))
  {
    Safety.AtMostOnce(hub.log);
    forall state | state in hub.asked ensures Safety.Requestable(state.messages) {
      Safety.RequestsAreClosed(hub.log, state);
    }
    if hub.world.rec.Some? {
      Accounts.EveryAnswerIsBilled(hub.log);
    }
  }
}
