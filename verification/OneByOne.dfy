/** Answering a waiting Run one call at a time, visit after visit, and answering it at once: the entry
    points agree (`harness/harness.py`). */
module OneByOne {
  import opened Domain
  import opened Transcript
  import opened Protocol
  import opened ToolStep
  import opened Outcomes
  import opened Loop
  import opened Approvals
  import opened Harness

  /** Nobody interferes with the visit before it reaches the loop. */
  predicate Calm(visit: Visit) {
    !visit.interrupted && !visit.hookFails && !visit.cancelled && visit.fault.None? && !visit.raises
  }

  /** What one visit was given and how it ended. */
  datatype Answered = Answered(visit: Visit, response: Response, shown: seq<ToolCall>)

  /** A visit of `respond_approval` with the verdict for the call that was first in line. */
  ghost predicate AnswersFirst(start: World, w: World, verdicts: Verdicts, loop: AgentLoop, maxCalls: int, a: Answered) {
    && start.rec.Some?
    && var pending := UnmatchedToolCalls(start.rec.value.state.messages);
    && pending != [] && pending[0].id in verdicts
    && Answer(start, w, None, None, FirstInLine(start, verdicts[pending[0].id]), loop, a.visit, maxCalls, a.response, a.shown,
              ApprovalRefusal(start))
  }

  /** Such visits in a row, from `ws[0]` to the last of `ws`. */
  ghost predicate AnswersInTurn(ws: seq<World>, verdicts: Verdicts, loop: AgentLoop, maxCalls: int, done: seq<Answered>)
    decreases |done|
  {
    && |ws| == |done| + 1
    && (done != [] ==>
          && Calm(done[0].visit) && AnswersFirst(ws[0], ws[1], verdicts, loop, maxCalls, done[0])
          && AnswersInTurn(ws[1..], verdicts, loop, maxCalls, done[1..]))
  }

  predicate Waits(w: World, state: RunState) {
    w.rec.Some? && w.rec.value.status.WaitingForApproval? && w.rec.value.state == state
  }

  /** Every pending call has a verdict and no tool loses to cancellation. */
  predicate Decidable(state: RunState, verdicts: Verdicts, tools: Tools) {
    && WellFormed(state.messages) && PendingIds(state) <= verdicts.Keys
    && NeverCancelled(tools, UnmatchedToolCalls(state.messages))
  }

  lemma NoneStops(pending: seq<ToolCall>, verdicts: Verdicts, tools: Tools)
    requires NeverCancelled(tools, pending)
    ensures !AnyStopped(DecidedOrders(pending, verdicts), tools)
  {
    DecidedMembers(pending, verdicts);
    NoneStoppedWhenNeverCancelled(DecidedOrders(pending, verdicts), tools);
  }

  /** With a verdict for each pending call the visit goes on to the loop. */
  lemma AllDecided(state: RunState, verdicts: Verdicts, tools: Tools, visit: Visit)
    requires Calm(visit) && Decidable(state, verdicts, tools)
    requires UnmatchedToolCalls(state.messages) != []
    ensures ApprovalsResult(state, verdicts, tools, visit) == GoesOn(ResolveWith(state, verdicts, tools))
  {
    NoneStops(UnmatchedToolCalls(state.messages), verdicts, tools);
    ExceptAll(UnmatchedToolCalls(state.messages), verdicts.Keys);
  }

  /** Only the first is decided: it is resolved, and the Run halts again on the others, if any. */
  lemma OnlyFirstDecided(state: RunState, verdicts: Verdicts, tools: Tools, visit: Visit)
    requires Calm(visit) && Decidable(state, verdicts, tools) && UnmatchedToolCalls(state.messages) != []
    ensures var pending := UnmatchedToolCalls(state.messages);
      && pending[0].id in verdicts
      && var one := map[pending[0].id := verdicts[pending[0].id]];
         var next := Resolve(state, pending[..1], verdicts, tools);
      && ResolveWith(state, one, tools) == next
      && Decidable(next, verdicts, tools) && UnmatchedToolCalls(next.messages) == pending[1..]
      && ApprovalsResult(state, one, tools, visit) ==
         if |pending| == 1 then GoesOn(next) else Ends(WaitingForApproval, next, pending[1..])
  {
    var pending := UnmatchedToolCalls(state.messages);
    assert pending[0] in pending;
    var one := map[pending[0].id := verdicts[pending[0].id]];
    SatisfiedWereCalled(state.messages);
    AnswerFirst(state, verdicts, tools);
    FirstDecided(pending, verdicts);
    NoneStops(pending, one, tools);
    RestOfLine(pending, verdicts, tools);
  }

  /** Resolving the rest afterwards is resolving everything. */
  lemma RestIsAll(state: RunState, verdicts: Verdicts, tools: Tools)
    requires Decidable(state, verdicts, tools) && UnmatchedToolCalls(state.messages) != []
    requires var pending := UnmatchedToolCalls(state.messages);
      UnmatchedToolCalls(Resolve(state, pending[..1], verdicts, tools).messages) == pending[1..]
    ensures ResolveWith(Resolve(state, UnmatchedToolCalls(state.messages)[..1], verdicts, tools), verdicts, tools)
            == ResolveWith(state, verdicts, tools)
  {
    var pending := UnmatchedToolCalls(state.messages);
    ResolveConcat(state, pending[..1], pending[1..], verdicts, tools);
    assert pending[..1] + pending[1..] == pending;
  }

  lemma WaitingIsTakenAsItIs(w: World, state: RunState)
    requires Waits(w, state)
    ensures ApprovalRefusal(w).None? && ClaimedLive(w, None, None).state == state
  {
  }

  /** What a visit that goes on from a waiting Run is held to depends only on the resolved state. */
  lemma SameVisit(start: World, mid: World, state: RunState, next: RunState, w: World, verdicts: Verdicts, loop: AgentLoop,
                  maxCalls: int, a: Answered)
    requires Waits(start, state) && Waits(mid, next) && Calm(a.visit)
    requires Decidable(state, verdicts, loop.tools) && UnmatchedToolCalls(state.messages) != []
    requires Decidable(next, verdicts, loop.tools) && UnmatchedToolCalls(next.messages) != []
    requires ResolveWith(next, verdicts, loop.tools) == ResolveWith(state, verdicts, loop.tools)
    requires mid.asked == start.asked && Dangling(mid.trace) == Dangling(start.trace)
    requires LetIn(mid, w, None, None, verdicts, loop, a.visit, maxCalls, a.response, a.shown)
    ensures LetIn(start, w, None, None, verdicts, loop, a.visit, maxCalls, a.response, a.shown)
  {
    AllDecided(state, verdicts, loop.tools, a.visit);
    AllDecided(next, verdicts, loop.tools, a.visit);
    VisitStages(loop.frame, state, verdicts, loop.policy, loop.tools, a.visit, maxCalls);
    VisitStages(loop.frame, next, verdicts, loop.policy, loop.tools, a.visit, maxCalls);
  }

  /** One answer that is not the last: the Run waits for exactly the others, and nothing was asked. */
  lemma OneAnswer(start: World, w: World, state: RunState, verdicts: Verdicts, loop: AgentLoop, maxCalls: int, a: Answered)
    requires Waits(start, state) && Calm(a.visit) && Decidable(state, verdicts, loop.tools)
    requires |UnmatchedToolCalls(state.messages)| > 1 && AnswersFirst(start, w, verdicts, loop, maxCalls, a)
    ensures Waits(w, Resolve(state, UnmatchedToolCalls(state.messages)[..1], verdicts, loop.tools))
    ensures w.asked == start.asked && Dangling(w.trace) == Dangling(start.trace)
  {
    var pending := UnmatchedToolCalls(state.messages);
    var one := map[pending[0].id := verdicts[pending[0].id]];
    WaitingIsTakenAsItIs(start, state);
    OnlyFirstDecided(state, verdicts, loop.tools, a.visit);
    VisitStages(loop.frame, state, one, loop.policy, loop.tools, a.visit, maxCalls);
    assert start.asked + [] == start.asked;
  }

  /** The last answer. */
  lemma LastAnswer(start: World, w: World, state: RunState, verdicts: Verdicts, loop: AgentLoop, maxCalls: int, a: Answered)
    requires Waits(start, state) && Calm(a.visit) && Decidable(state, verdicts, loop.tools)
    requires |UnmatchedToolCalls(state.messages)| == 1 && AnswersFirst(start, w, verdicts, loop, maxCalls, a)
    ensures LetIn(start, w, None, None, verdicts, loop, a.visit, maxCalls, a.response, a.shown)
  {
    var pending := UnmatchedToolCalls(state.messages);
    var one := map[pending[0].id := verdicts[pending[0].id]];
    WaitingIsTakenAsItIs(start, state);
    OnlyFirstDecided(state, verdicts, loop.tools, a.visit);
    AllDecided(state, verdicts, loop.tools, a.visit);
    assert pending[..1] == pending;
    VisitStages(loop.frame, state, one, loop.policy, loop.tools, a.visit, maxCalls);
    VisitStages(loop.frame, state, verdicts, loop.policy, loop.tools, a.visit, maxCalls);
  }

  /** Visits of `respond_approval`, one for each pending call and each undisturbed up to the loop, end
      in exactly what one visit of `respond_approvals` with all the verdicts is held to: the same
      record, the same requests, the same result. */
  lemma {:induction false} VisitsEqualOneVisit(ws: seq<World>, state: RunState, verdicts: Verdicts, loop: AgentLoop,
                                               maxCalls: int, done: seq<Answered>)
    requires |done| == |UnmatchedToolCalls(state.messages)| > 0 && AnswersInTurn(ws, verdicts, loop, maxCalls, done)
    requires Waits(ws[0], state) && Decidable(state, verdicts, loop.tools)
    ensures var last := done[|done| - 1];
      LetIn(ws[0], ws[|ws| - 1], None, None, verdicts, loop, last.visit, maxCalls, last.response, last.shown)
    decreases |done|
  {
    if |done| == 1 {
      LastAnswer(ws[0], ws[1], state, verdicts, loop, maxCalls, done[0]);
    } else {
      var next := Resolve(state, UnmatchedToolCalls(state.messages)[..1], verdicts, loop.tools);
      OneAnswer(ws[0], ws[1], state, verdicts, loop, maxCalls, done[0]);
      OnlyFirstDecided(state, verdicts, loop.tools, done[0].visit);
      VisitsEqualOneVisit(ws[1..], next, verdicts, loop, maxCalls, done[1..]);
      RestIsAll(state, verdicts, loop.tools);
      LastIsCalm(ws, verdicts, loop, maxCalls, done);
      SameVisit(ws[0], ws[1], state, next, ws[|ws| - 1], verdicts, loop, maxCalls, done[|done| - 1]);
    }
  }

  lemma {:induction false} LastIsCalm(ws: seq<World>, verdicts: Verdicts, loop: AgentLoop, maxCalls: int, done: seq<Answered>)
    requires done != [] && AnswersInTurn(ws, verdicts, loop, maxCalls, done)
    ensures Calm(done[|done| - 1].visit)
    decreases |done|
  {
    if |done| > 1 {
      LastIsCalm(ws[1..], verdicts, loop, maxCalls, done[1..]);
    }
  }
}
