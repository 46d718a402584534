/** How a Run ends, told from what happened to it: the answer it got, what the policy said about its
    calls, what its tools did, and what broke it off (`events/loop.py`). */
module Endings {
  import opened Domain
  import opened Transcript
  import opened Protocol
  import opened ToolStep
  import opened Turns
  import opened Batch
  import opened Compaction
  import opened Outcomes
  import opened Decisions

  // ----- one turn -----

  /** The model's answer as it joins the transcript; reasoning is kept only beside tool calls. */
  function Spoke(r: ModelResponse): Message {
    Message(Assistant, r.content, r.toolCalls, None, if r.toolCalls == [] then "" else r.reasoning)
  }

  /** The model answered in time, and without asking for a tool. */
  predicate FinalAnswer(turn: Turn) {
    !turn.cancelledAtHead && turn.reply.WorkFirst? && turn.reply.result.toolCalls == []
  }

  predicate EndsAs(r: TurnResult, status: RunStatus, ms: seq<Message>, completed: nat, exposed: seq<ToolCall>) {
    r.Ends? && r.status == status && r.final.messages == ms && r.final.completedModelCalls == completed && r.exposed == exposed
  }

  /** Asking changes nothing of the transcript and the count; a compaction is all it may add. */
  lemma Shaping(frame: Frame, start: RunState, turn: Turn)
    ensures var shaped := ShapedState(frame, start, turn);
      shaped == start.(compaction := shaped.compaction)
  {
  }

  /** What the stages of a turn nobody disturbed come to. */
  lemma CalmStages(frame: Frame, start: RunState, policy: Policy, tools: Tools, turn: Turn)
    requires Undisturbed(turn)
    ensures var shaped := ShapedState(frame, start, turn);
      TurnOf(frame, start, policy, tools, turn) ==
      if turn.cancelledAtHead then Ends(Cancelled, start, [])
      else if !turn.reply.WorkFirst? then Ends(Cancelled, shaped, [])
      else
        var answered, calls := AppendModelResponse(shaped, turn.reply.result), turn.reply.result.toolCalls;
        if calls == [] then Ends(Completed, answered, [])
        else if turn.cancelledAfterReply then Ends(Cancelled, answered, [])
        else ToolsResult(answered, calls, policy, tools, turn)
  {
  }

  /** How a turn nobody disturbed ends, for every answer, policy and behaviour of the tools. */
  lemma UndisturbedTurn(frame: Frame, start: RunState, policy: Policy, tools: Tools, turn: Turn)
    requires Undisturbed(turn)
    ensures var r, ms, n := TurnOf(frame, start, policy, tools, turn), start.messages, start.completedModelCalls;
      if turn.cancelledAtHead || !turn.reply.WorkFirst? then EndsAs(r, Cancelled, ms, n, [])
      else
        var answer := turn.reply.result;
        var calls, said := answer.toolCalls, ms + [Spoke(answer)];
        if calls == [] then EndsAs(r, Completed, said, n + 1, [])
        else if turn.cancelledAfterReply then EndsAs(r, Cancelled, said, n + 1, [])
        else
          var rule, spun := PolicyRule(policy), Wanted(calls, policy, tools);
          var ran := said + Told(calls, rule, tools);
          if LosesOne(calls, policy, tools) then EndsAs(r, Cancelled, ran, n + 1, [])
          else
            var all := ran + Spoken(spun) + Told(spun, rule, tools);
            if LosesOne(spun, policy, tools) then EndsAs(r, Cancelled, all, n + 1, [])
            else if HoldsOne(calls, policy) || HoldsOne(spun, policy) then
              EndsAs(r, WaitingForApproval, all, n + 1, Held(calls, policy) + Held(spun, policy))
            else r.GoesOn? && r.state.messages == all && r.state.completedModelCalls == n + 1
  {
    CalmStages(frame, start, policy, tools, turn);
    Shaping(frame, start, turn);
    if turn.reply.WorkFirst? {
      var answered, calls := AppendModelResponse(ShapedState(frame, start, turn), turn.reply.result), turn.reply.result.toolCalls;
      ToolsSettle(answered, calls, policy, tools, turn);
      TurnTranscript(answered, calls, policy, tools);
      ToolsCount(answered, calls, policy, tools);
      StopsIffOneLoses(calls, policy, tools);
      StopsIffOneLoses(Wanted(calls, policy, tools), policy, tools);
    }
  }

  /** A fault strikes on the way to a final answer's end. */
  ghost predicate Struck(frame: Frame, start: RunState, turn: Turn) {
    turn.fault.Fault? &&
    match turn.fault.site
    case AtCompaction => Proposes(frame, start, turn).Some?
    case InBatch(_) => false
    case InFollowUps(_) => false
    case _ => true
  }

  /** The turn gives a final answer that nothing breaks off. */
  ghost predicate Finishes(frame: Frame, start: RunState, turn: Turn) {
    FinalAnswer(turn) && turn.parting.fault.None? && !Struck(frame, start, turn)
  }

  predicate IsCompleted(r: TurnResult) { r.Ends? && r.status.Completed? }

  lemma TerminalCompletes(status: RunStatus, state: RunState, exposed: seq<ToolCall>, parting: Parting)
    ensures IsCompleted(Terminal(status, state, exposed, parting)) <==> status.Completed? && parting.fault.None?
    ensures parting.fault.None? ==> Terminal(status, state, exposed, parting) == Ends(status, state, exposed)
  {
  }

  lemma HandledNeverCompletes(kind: Kind, state: RunState, again: bool, left: Stored)
    ensures !IsCompleted(Handled(kind, state, again, left)) && !Handled(kind, state, again, left).GoesOn?
  {
  }

  lemma BatchNeverCompletes(before: RunState, stored: RunState, calls: seq<ToolCall>, policy: Policy, tools: Tools, turn: Turn,
                            fault: Option<nat>)
    ensures !IsCompleted(BatchResult(before, stored, calls, policy, tools, turn, fault))
  {
    TerminalCompletes(Cancelled, FirstBatch(before, calls, policy, tools), [], turn.parting);
    if turn.fault.Fault? && fault.Some? {
      HandledNeverCompletes(turn.fault.kind, before, turn.parting.again,
                            StillRunning(StoredBy(before, stored, Runnable(calls, policy), tools, fault.value)));
    }
  }

  lemma CloseNeverCompletes(state: RunState, needs: seq<ToolCall>, turn: Turn)
    ensures !IsCompleted(CloseResult(state, needs, turn))
  {
    TerminalCompletes(WaitingForApproval, state, needs, turn.parting);
  }

  lemma ToolsNeverComplete(start: RunState, calls: seq<ToolCall>, policy: Policy, tools: Tools, turn: Turn)
    ensures !IsCompleted(ToolsResult(start, calls, policy, tools, turn))
  {
    BatchNeverCompletes(start, start, calls, policy, tools, turn, BatchFault(turn));
    BatchNeverCompletes(WithFollowUps(start, calls, policy, tools), FirstBatch(start, calls, policy, tools),
                        FollowUps(calls, policy, tools), policy, tools, turn, FollowUpFault(turn));
    var second := SecondResult(start, calls, policy, tools, turn);
    if second.GoesOn? {
      CloseNeverCompletes(second.state, Needs(calls, policy, tools), turn);
    }
  }

  lemma AnswerCompletes(answered: RunState, calls: seq<ToolCall>, turn: Turn)
    ensures var r := AnswerResult(answered, calls, turn);
      && (IsCompleted(r) <==> calls == [] && !Hits(turn, AtTurnEnded) && turn.parting.fault.None?)
      && (IsCompleted(r) ==> r == Ends(Completed, answered, []))
      && (calls == [] ==> !r.GoesOn?)
  {
    TerminalCompletes(Completed, answered, [], turn.parting);
    TerminalCompletes(Cancelled, answered, [], turn.parting);
  }

  lemma ReplyCompletes(shaped: RunState, stored: RunState, policy: Policy, tools: Tools, turn: Turn)
    ensures var r := AfterReply(shaped, stored, policy, tools, turn);
      && (IsCompleted(r) <==>
            && turn.reply.WorkFirst? && turn.reply.result.toolCalls == [] && turn.parting.fault.None?
            && !Hits(turn, InModel) && !Hits(turn, AtAfterModel) && !Hits(turn, AtTurnEnded))
      && (IsCompleted(r) ==> r == Ends(Completed, AppendModelResponse(shaped, turn.reply.result), []))
  {
    TerminalCompletes(Cancelled, shaped, [], turn.parting);
    if turn.reply.WorkFirst? {
      var answered, calls := AppendModelResponse(shaped, turn.reply.result), turn.reply.result.toolCalls;
      AnswerCompletes(answered, calls, turn);
      ToolsNeverComplete(answered, calls, policy, tools, turn);
    }
  }

  lemma ShapeNeverCompletes(frame: Frame, start: RunState, turn: Turn)
    ensures !IsCompleted(ShapeResult(frame, start, turn))
    ensures ShapeResult(frame, start, turn).GoesOn? <==>
            && !turn.cancelledAtHead && !Hits(turn, AtTurnStarted) && !Hits(turn, AtShaping)
            && !(Hits(turn, AtCompaction) && Proposes(frame, start, turn).Some?)
    ensures ShapeResult(frame, start, turn).GoesOn? ==> ShapeResult(frame, start, turn).state == ShapedState(frame, start, turn)
  {
    TerminalCompletes(Cancelled, start, [], turn.parting);
    if turn.fault.Fault? {
      HandledNeverCompletes(turn.fault.kind, start, turn.parting.again, StillRunning(start));
      HandledNeverCompletes(turn.fault.kind, ShapedState(frame, start, turn), turn.parting.again, StillRunning(start));
    }
  }

  /** A turn completes the Run if and only if it gives a final answer that nothing breaks off; the last
      message is that answer. */
  lemma CompletesIff(frame: Frame, start: RunState, policy: Policy, tools: Tools, turn: Turn)
    ensures var r := TurnOf(frame, start, policy, tools, turn);
      && (IsCompleted(r) <==> Finishes(frame, start, turn))
      && (Finishes(frame, start, turn) ==>
            EndsAs(r, Completed, start.messages + [Spoke(turn.reply.result)], start.completedModelCalls + 1, []))
  {
    Shaping(frame, start, turn);
    ShapeNeverCompletes(frame, start, turn);
    ReplyCompletes(ShapedState(frame, start, turn), start, policy, tools, turn);
  }

  // ----- a run of turns -----

  /** The state the next turn begins with, if the turn goes on. */
  type Step = (RunState, Turn) -> Option<RunState>

  ghost function StepOf(frame: Frame, policy: Policy, tools: Tools): Step {
    (state: RunState, turn: Turn) =>
      match TurnOf(frame, state, policy, tools, turn)
      case GoesOn(next) => Some(next)
      case _ => None
  }

  /** The state turn `k` begins with, if all the turns before it go on. */
  function HeadOf(step: Step, start: RunState, turns: seq<Turn>, k: nat): Option<RunState>
    requires k <= |turns|
    decreases k
  {
    if k == 0 then Some(start)
    else match HeadOf(step, start, turns, k - 1)
      case None => None
      case Some(head) => step(head, turns[k - 1])
  }

  /** The limit lets turn `k` begin. */
  predicate Allowed(start: RunState, maxCalls: int, k: nat) { maxCalls <= 0 || start.completedModelCalls + k < maxCalls }

  /** Turn `k` is reached: those before it went on, and the limit let them. */
  predicate Reaches(step: Step, start: RunState, turns: seq<Turn>, maxCalls: int, k: nat) {
    k <= |turns| && HeadOf(step, start, turns, k).Some? && (k == 0 || Allowed(start, maxCalls, k - 1))
  }

  /** Turn `k` is the last one reached: it does not go on, the limit is reached, or the script runs out. */
  predicate StopsAt(step: Step, start: RunState, turns: seq<Turn>, maxCalls: int, k: nat) {
    && Reaches(step, start, turns, maxCalls, k)
    && (Allowed(start, maxCalls, k) && k < |turns| ==> step(HeadOf(step, start, turns, k).value, turns[k]).None?)
  }

  lemma {:induction false} LastReached(step: Step, start: RunState, turns: seq<Turn>, maxCalls: int, from: nat) returns (k: nat)
    requires Reaches(step, start, turns, maxCalls, from)
    ensures StopsAt(step, start, turns, maxCalls, k)
    decreases |turns| - from
  {
    if Allowed(start, maxCalls, from) && from < |turns| && HeadOf(step, start, turns, from + 1).Some? {
      k := LastReached(step, start, turns, maxCalls, from + 1);
    } else {
      k := from;
    }
  }

  /** One turn that goes on. */
  lemma OneTurn(frame: Frame, head: RunState, rest: seq<Turn>, maxCalls: int, policy: Policy, tools: Tools, pausing: Parting,
                next: RunState)
    requires rest != [] && StepOf(frame, policy, tools)(head, rest[0]) == Some(next) && Allowed(head, maxCalls, 0)
    ensures next.completedModelCalls == head.completedModelCalls + 1
    ensures Play(frame, head, rest, maxCalls, policy, tools, pausing) == Play(frame, next, rest[1..], maxCalls, policy, tools, pausing)
    ensures |Asks(frame, head, rest, maxCalls, policy, tools)| == 1 + |Asks(frame, next, rest[1..], maxCalls, policy, tools)|
  {
    TurnGrows(frame, head, policy, tools, rest[0]);
  }

  /** From a turn that is reached on, the run is that of the remaining turns. */
  lemma {:induction false} RunFrom(frame: Frame, start: RunState, turns: seq<Turn>, maxCalls: int, policy: Policy, tools: Tools,
                                   pausing: Parting, k: nat)
    requires Reaches(StepOf(frame, policy, tools), start, turns, maxCalls, k)
    ensures var head := HeadOf(StepOf(frame, policy, tools), start, turns, k).value;
      && head.completedModelCalls == start.completedModelCalls + k
      && Play(frame, start, turns, maxCalls, policy, tools, pausing) ==
         Play(frame, head, turns[k..], maxCalls, policy, tools, pausing)
      && |Asks(frame, start, turns, maxCalls, policy, tools)| == k + |Asks(frame, head, turns[k..], maxCalls, policy, tools)|
    decreases k
  {
    if k == 0 {
      assert turns[0..] == turns;
    } else {
      var step := StepOf(frame, policy, tools);
      RunFrom(frame, start, turns, maxCalls, policy, tools, pausing, k - 1);
      assert turns[k - 1..][0] == turns[k - 1] && turns[k - 1..][1..] == turns[k..];
      OneTurn(frame, HeadOf(step, start, turns, k - 1).value, turns[k - 1..], maxCalls, policy, tools, pausing,
              HeadOf(step, start, turns, k).value);
    }
  }

  /** Turn `k` completes the run: it is reached, the limit lets it begin, and it finishes. */
  ghost predicate CompletesAt(frame: Frame, start: RunState, turns: seq<Turn>, maxCalls: int, policy: Policy, tools: Tools, k: nat) {
    && k < |turns| && Reaches(StepOf(frame, policy, tools), start, turns, maxCalls, k) && Allowed(start, maxCalls, k)
    && Finishes(frame, HeadOf(StepOf(frame, policy, tools), start, turns, k).value, turns[k])
  }

  lemma CompletedThere(frame: Frame, start: RunState, turns: seq<Turn>, maxCalls: int, policy: Policy, tools: Tools,
                       pausing: Parting, k: nat)
    requires CompletesAt(frame, start, turns, maxCalls, policy, tools, k)
    ensures EndsAs(Play(frame, start, turns, maxCalls, policy, tools, pausing), Completed,
                   HeadOf(StepOf(frame, policy, tools), start, turns, k).value.messages + [Spoke(turns[k].reply.result)],
                   start.completedModelCalls + k + 1, [])
    ensures |Asks(frame, start, turns, maxCalls, policy, tools)| == k + 1
  {
    var head := HeadOf(StepOf(frame, policy, tools), start, turns, k).value;
    RunFrom(frame, start, turns, maxCalls, policy, tools, pausing, k);
    CompletesIff(frame, head, policy, tools, turns[k]);
    TurnGrows(frame, head, policy, tools, turns[k]);
  }

  lemma CompletesHere(frame: Frame, head: RunState, rest: seq<Turn>, maxCalls: int, policy: Policy, tools: Tools,
                      pausing: Parting)
    requires AtLimit(head, maxCalls) || rest == [] || StepOf(frame, policy, tools)(head, rest[0]).None?
    ensures IsCompleted(Play(frame, head, rest, maxCalls, policy, tools, pausing)) ==>
              !AtLimit(head, maxCalls) && rest != [] && Finishes(frame, head, rest[0])
  {
    TerminalCompletes(PausedLimit, head, [], pausing);
    if rest != [] {
      CompletesIff(frame, head, policy, tools, rest[0]);
    }
  }

  /** A run of turns completes the Run if and only if one of them, reached before the limit, gives a final
      answer that nothing breaks off. That answer is the last message, and it took one request a turn. */
  lemma RunCompletesIff(frame: Frame, start: RunState, turns: seq<Turn>, maxCalls: int, policy: Policy, tools: Tools,
                        pausing: Parting)
    ensures IsCompleted(Play(frame, start, turns, maxCalls, policy, tools, pausing)) <==>
            exists k: nat :: CompletesAt(frame, start, turns, maxCalls, policy, tools, k)
  {
    forall k: nat | CompletesAt(frame, start, turns, maxCalls, policy, tools, k)
      ensures IsCompleted(Play(frame, start, turns, maxCalls, policy, tools, pausing))
    {
      CompletedThere(frame, start, turns, maxCalls, policy, tools, pausing, k);
    }
    if IsCompleted(Play(frame, start, turns, maxCalls, policy, tools, pausing)) {
      var k := LastReached(StepOf(frame, policy, tools), start, turns, maxCalls, 0);
      RunFrom(frame, start, turns, maxCalls, policy, tools, pausing, k);
      CompletesHere(frame, HeadOf(StepOf(frame, policy, tools), start, turns, k).value, turns[k..], maxCalls, policy, tools, pausing);
      assert CompletesAt(frame, start, turns, maxCalls, policy, tools, k);
    }
  }

  lemma PausesHere(frame: Frame, head: RunState, rest: seq<Turn>, maxCalls: int, policy: Policy, tools: Tools)
    requires AtLimit(head, maxCalls) || rest == [] || StepOf(frame, policy, tools)(head, rest[0]).None?
    ensures var r := Play(frame, head, rest, maxCalls, policy, tools, QUIET);
      && (r.Ends? && r.status.PausedLimit? <==> AtLimit(head, maxCalls))
      && (AtLimit(head, maxCalls) ==> r == Ends(PausedLimit, head, []))
  {
    if rest != [] {
      TurnGrows(frame, head, policy, tools, rest[0]);
    }
  }

  /** If nobody disturbs the pause, a run of turns pauses at the limit if and only if all the turns the
      limit allows went on; it has then made exactly as many calls as allowed. */
  lemma RunPausesIff(frame: Frame, start: RunState, turns: seq<Turn>, maxCalls: int, policy: Policy, tools: Tools)
    ensures var r, left := Play(frame, start, turns, maxCalls, policy, tools, QUIET), CallsLeft(start, maxCalls);
      var all := left <= |turns| && HeadOf(StepOf(frame, policy, tools), start, turns, left).Some?;
      && (r.Ends? && r.status.PausedLimit? <==> maxCalls > 0 && all)
      && (maxCalls > 0 && all ==>
            EndsAs(r, PausedLimit, HeadOf(StepOf(frame, policy, tools), start, turns, left).value.messages,
                   start.completedModelCalls + left, []))
  {
    var left := CallsLeft(start, maxCalls);
    if maxCalls > 0 && left <= |turns| && HeadOf(StepOf(frame, policy, tools), start, turns, left).Some? {
      RunFrom(frame, start, turns, maxCalls, policy, tools, QUIET, left);
    } else {
      var k := LastReached(StepOf(frame, policy, tools), start, turns, maxCalls, 0);
      RunFrom(frame, start, turns, maxCalls, policy, tools, QUIET, k);
      PausesHere(frame, HeadOf(StepOf(frame, policy, tools), start, turns, k).value, turns[k..], maxCalls, policy, tools);
    }
  }

  // ----- what breaks a turn off -----

  /** The same turn, but for what goes wrong in it. */
  function With(turn: Turn, fault: Fault): Turn { turn.(fault := fault) }

  /** What an exception, a cancelled task whose Run is being cancelled, and a cancelled task whose Run is
      not make of the same turn: the first fails the Run and the second cancels it, both with the loop's
      own variable and nothing exposed; the third leaves the record RUNNING; and if one of them does not
      strike, none does. */
  predicate HandledAlike(raised: TurnResult, cancelled: TurnResult, killed: TurnResult, calm: TurnResult) {
    if killed.Dies? then
      && raised.Ends? && raised.status.Failed? && raised.exposed == []
      && cancelled.Ends? && cancelled.status.Cancelled? && cancelled.exposed == []
      && raised.final == cancelled.final && killed.left.status.Running?
    else raised == calm && cancelled == calm && killed == calm
  }

  function At(turn: Turn, site: Site, kind: Kind): Turn { With(turn, Fault(site, kind)) }

  lemma HandledThree(state: RunState, left: RunState, calm: TurnResult)
    ensures HandledAlike(Handled(Raises, state, false, StillRunning(left)), Handled(TokenCancel, state, false, StillRunning(left)),
                         Handled(TaskCancel, state, false, StillRunning(left)), calm)
  {
  }

  lemma ShapeStage(frame: Frame, start: RunState, turn: Turn, fault: Fault)
    ensures ShapeResult(frame, start, With(turn, fault)) ==
            ShapeOn(start, ShapedState(frame, start, turn), Proposes(frame, start, turn).Some?, With(turn, fault))
  {
    var other := With(turn, fault);
    ShapeParts(frame, start, other);
    assert Proposes(frame, start, other) == Proposes(frame, start, turn);
  }

  lemma ShapeHandled(start: RunState, shaped: RunState, proposed: bool, turn: Turn, site: Site)
    requires turn.parting == QUIET
    ensures HandledAlike(ShapeOn(start, shaped, proposed, At(turn, site, Raises)),
                         ShapeOn(start, shaped, proposed, At(turn, site, TokenCancel)),
                         ShapeOn(start, shaped, proposed, At(turn, site, TaskCancel)),
                         ShapeOn(start, shaped, proposed, With(turn, Never)))
    ensures !ShapeOn(start, shaped, proposed, With(turn, Never)).Dies?
  {
    HandledThree(start, start, GoesOn(shaped));
    HandledThree(shaped, start, GoesOn(shaped));
  }

  lemma ReplyHandled(state: RunState, stored: RunState, turn: Turn, site: Site)
    requires turn.parting == QUIET
    ensures HandledAlike(ReplyResult(state, stored, At(turn, site, Raises)), ReplyResult(state, stored, At(turn, site, TokenCancel)),
                         ReplyResult(state, stored, At(turn, site, TaskCancel)), ReplyResult(state, stored, With(turn, Never)))
    ensures !ReplyResult(state, stored, With(turn, Never)).Dies?
  {
    HandledThree(state, stored, ReplyResult(state, stored, With(turn, Never)));
    if turn.reply.WorkFirst? {
      var answered := AppendModelResponse(state, turn.reply.result);
      HandledThree(answered, answered, ReplyResult(state, stored, With(turn, Never)));
    }
  }

  lemma AnswerHandled(answered: RunState, calls: seq<ToolCall>, turn: Turn, site: Site)
    requires turn.parting == QUIET
    ensures HandledAlike(AnswerResult(answered, calls, At(turn, site, Raises)),
                         AnswerResult(answered, calls, At(turn, site, TokenCancel)),
                         AnswerResult(answered, calls, At(turn, site, TaskCancel)), AnswerResult(answered, calls, With(turn, Never)))
    ensures !AnswerResult(answered, calls, With(turn, Never)).Dies?
  {
    HandledThree(answered, answered, AnswerResult(answered, calls, With(turn, Never)));
  }

  lemma BatchHandled(before: RunState, stored: RunState, calls: seq<ToolCall>, policy: Policy, tools: Tools, turn: Turn, site: Site,
                     fault: Option<nat>)
    requires turn.parting == QUIET
    ensures HandledAlike(BatchResult(before, stored, calls, policy, tools, At(turn, site, Raises), fault),
                         BatchResult(before, stored, calls, policy, tools, At(turn, site, TokenCancel), fault),
                         BatchResult(before, stored, calls, policy, tools, At(turn, site, TaskCancel), fault),
                         BatchResult(before, stored, calls, policy, tools, With(turn, Never), None))
    ensures !BatchResult(before, stored, calls, policy, tools, With(turn, Never), None).Dies?
  {
    if fault.Some? {
      HandledThree(before, StoredBy(before, stored, Runnable(calls, policy), tools, fault.value),
                   BatchResult(before, stored, calls, policy, tools, With(turn, Never), None));
    }
  }

  lemma CloseHandled(state: RunState, needs: seq<ToolCall>, turn: Turn, site: Site)
    requires turn.parting == QUIET
    ensures HandledAlike(CloseResult(state, needs, At(turn, site, Raises)), CloseResult(state, needs, At(turn, site, TokenCancel)),
                         CloseResult(state, needs, At(turn, site, TaskCancel)), CloseResult(state, needs, With(turn, Never)))
    ensures !CloseResult(state, needs, With(turn, Never)).Dies?
  {
    HandledThree(state, state, CloseResult(state, needs, With(turn, Never)));
  }

  lemma FollowUpsHandled(start: RunState, calls: seq<ToolCall>, policy: Policy, tools: Tools, turn: Turn, site: Site)
    requires turn.parting == QUIET
    ensures HandledAlike(FollowUpResult(start, calls, policy, tools, At(turn, site, Raises)),
                         FollowUpResult(start, calls, policy, tools, At(turn, site, TokenCancel)),
                         FollowUpResult(start, calls, policy, tools, At(turn, site, TaskCancel)),
                         FollowUpResult(start, calls, policy, tools, With(turn, Never)))
    ensures !FollowUpResult(start, calls, policy, tools, With(turn, Never)).Dies?
  {
    var before, stored := WithFollowUps(start, calls, policy, tools), FirstBatch(start, calls, policy, tools);
    var synthetic, needs := FollowUps(calls, policy, tools), Needs(calls, policy, tools);
    BatchHandled(before, stored, synthetic, policy, tools, turn, site, FollowUpFault(At(turn, site, Raises)));
    CloseHandled(FirstBatch(before, synthetic, policy, tools), needs, turn, site);
  }

  lemma ToolsHandled(start: RunState, calls: seq<ToolCall>, policy: Policy, tools: Tools, turn: Turn, site: Site)
    requires turn.parting == QUIET
    ensures HandledAlike(ToolsResult(start, calls, policy, tools, At(turn, site, Raises)),
                         ToolsResult(start, calls, policy, tools, At(turn, site, TokenCancel)),
                         ToolsResult(start, calls, policy, tools, At(turn, site, TaskCancel)),
                         ToolsResult(start, calls, policy, tools, With(turn, Never)))
    ensures !ToolsResult(start, calls, policy, tools, With(turn, Never)).Dies?
  {
    BatchHandled(start, start, calls, policy, tools, turn, site, BatchFault(At(turn, site, Raises)));
    FollowUpsHandled(start, calls, policy, tools, turn, site);
  }

  lemma AfterReplyHandled(shaped: RunState, stored: RunState, policy: Policy, tools: Tools, turn: Turn, site: Site)
    requires turn.parting == QUIET
    ensures HandledAlike(AfterReply(shaped, stored, policy, tools, At(turn, site, Raises)),
                         AfterReply(shaped, stored, policy, tools, At(turn, site, TokenCancel)),
                         AfterReply(shaped, stored, policy, tools, At(turn, site, TaskCancel)),
                         AfterReply(shaped, stored, policy, tools, With(turn, Never)))
    ensures !AfterReply(shaped, stored, policy, tools, With(turn, Never)).Dies?
  {
    ReplyHandled(shaped, stored, turn, site);
    if turn.reply.WorkFirst? {
      var answered, calls := AppendModelResponse(shaped, turn.reply.result), turn.reply.result.toolCalls;
      AnswerHandled(answered, calls, turn, site);
      ToolsHandled(answered, calls, policy, tools, turn, site);
    }
  }

  /** Whatever breaks a turn off, and wherever: an exception fails the Run, a cancellation cancels it, both
      with the same state; only a task that is cancelled while its Run is not leaves it RUNNING. */
  lemma FaultsAreHandled(frame: Frame, start: RunState, policy: Policy, tools: Tools, turn: Turn, site: Site)
    requires turn.parting == QUIET
    ensures HandledAlike(TurnOf(frame, start, policy, tools, At(turn, site, Raises)),
                         TurnOf(frame, start, policy, tools, At(turn, site, TokenCancel)),
                         TurnOf(frame, start, policy, tools, At(turn, site, TaskCancel)),
                         TurnOf(frame, start, policy, tools, With(turn, Never)))
    ensures !TurnOf(frame, start, policy, tools, With(turn, Never)).Dies?
  {
    var shaped, proposed := ShapedState(frame, start, turn), Proposes(frame, start, turn).Some?;
    ShapeStage(frame, start, turn, Fault(site, Raises));
    ShapeStage(frame, start, turn, Fault(site, TokenCancel));
    ShapeStage(frame, start, turn, Fault(site, TaskCancel));
    ShapeStage(frame, start, turn, Never);
    ShapeHandled(start, shaped, proposed, turn, site);
    AfterReplyHandled(shaped, start, policy, tools, turn, site);
  }

  /** What the record holds after a fault: at its site the loop's own variable, whatever was stored since.
      `ms` is the transcript the turn began with. */
  predicate LeftAt(r: TurnResult, ms: seq<Message>, status: RunStatus) {
    r.Ends? && r.status == status && r.final.messages == ms
  }

  lemma FailsAsking(start: RunState, shaped: RunState, proposed: bool, turn: Turn)
    requires turn.parting == QUIET && turn.fault.Fault? && turn.fault.kind.Raises? && !turn.cancelledAtHead
    requires shaped.messages == start.messages
    ensures var r, site := ShapeOn(start, shaped, proposed, turn), turn.fault.site;
      if site.AtTurnStarted? || site.AtShaping? || (site.AtCompaction? && proposed) then LeftAt(r, start.messages, Failed)
      else r == GoesOn(shaped)
  {
  }

  lemma FailsAnswering(shaped: RunState, stored: RunState, policy: Policy, tools: Tools, turn: Turn)
    requires turn.parting == QUIET && turn.fault.Fault? && turn.fault.kind.Raises?
    ensures var r, site := AfterReply(shaped, stored, policy, tools, turn), turn.fault.site;
      && (site.InModel? ==> LeftAt(r, shaped.messages, Failed))
      && (turn.reply.WorkFirst? ==>
            var answer, said := turn.reply.result, shaped.messages + [Spoke(turn.reply.result)];
            && (site.AtAfterModel? ==> LeftAt(r, said, Failed))
            && (site.AtTurnEnded? && answer.toolCalls == [] ==> LeftAt(r, said, Failed)))
  {
  }

  /** The fault strikes while the model's calls are run. */
  predicate BreaksTheBatch(turn: Turn, policy: Policy, tools: Tools) {
    && turn.fault.Fault? && turn.fault.site.InBatch?
    && turn.reply.WorkFirst? && turn.reply.result.toolCalls != [] && !turn.cancelledAfterReply
    && Raised(Runnable(turn.reply.result.toolCalls, policy), tools, Some(turn.fault.site.n))
  }

  lemma FailsInBatch(shaped: RunState, stored: RunState, policy: Policy, tools: Tools, turn: Turn)
    requires turn.parting == QUIET && BreaksTheBatch(turn, policy, tools) && turn.fault.kind.Raises?
    ensures LeftAt(AfterReply(shaped, stored, policy, tools, turn), shaped.messages + [Spoke(turn.reply.result)], Failed)
  {
    var answered := AppendModelResponse(shaped, turn.reply.result);
    assert ReplyResult(shaped, stored, turn) == GoesOn(answered);
    assert AnswerResult(answered, turn.reply.result.toolCalls, turn) == GoesOn(answered);
    assert LeftAt(FirstResult(answered, turn.reply.result.toolCalls, policy, tools, turn), answered.messages, Failed);
  }

  /** A model call that fails ends the Run FAILED with the transcript it was asked from, and so does an
      observer that raises before it; one that raises at the answer leaves the answer, and so does a batch
      that breaks off, whatever results of it were stored. */
  lemma WhereItFails(frame: Frame, start: RunState, policy: Policy, tools: Tools, turn: Turn)
    requires turn.parting == QUIET && turn.fault.Fault? && turn.fault.kind.Raises? && !turn.cancelledAtHead
    ensures var r, site := TurnOf(frame, start, policy, tools, turn), turn.fault.site;
      && (site.AtTurnStarted? || site.AtShaping? || site.InModel? ==> LeftAt(r, start.messages, Failed))
      && (site.AtCompaction? && Proposes(frame, start, turn).Some? ==> LeftAt(r, start.messages, Failed))
      && (turn.reply.WorkFirst? ==>
            var answer := turn.reply.result; var said := start.messages + [Spoke(answer)];
            && (site.AtAfterModel? ==> LeftAt(r, said, Failed))
            && (site.AtTurnEnded? && answer.toolCalls == [] ==> LeftAt(r, said, Failed))
            && (BreaksTheBatch(turn, policy, tools) ==> LeftAt(r, said, Failed)))
  {
    var shaped, proposed := ShapedState(frame, start, turn), Proposes(frame, start, turn).Some?;
    Shaping(frame, start, turn);
    ShapeStage(frame, start, turn, turn.fault);
    assert With(turn, turn.fault) == turn;
    FailsAsking(start, shaped, proposed, turn);
    FailsAnswering(shaped, start, policy, tools, turn);
    if BreaksTheBatch(turn, policy, tools) {
      FailsInBatch(shaped, start, policy, tools, turn);
    }
  }

  // ----- what breaks an ending off -----

  /** What becomes of an ending whose observers raise: the status just stored turns into FAILED or CANCELLED,
      with the same state; if the observers of that raise too, the visit dies with it stored. */
  predicate Parted(r: TurnResult, calm: TurnResult, kind: Kind, again: bool) {
    if !calm.Ends? then r == calm
    else match kind
      case Raises => r == if again then Dies(Stored(Failed, calm.final)) else Ends(Failed, calm.final, [])
      case TokenCancel => r == if again then Dies(Stored(Cancelled, calm.final)) else Ends(Cancelled, calm.final, [])
      case TaskCancel => r == Dies(Stored(calm.status, calm.final))
  }

  function Until(turn: Turn, kind: Kind, again: bool): Turn { turn.(parting := Parting(Some(kind), again)) }

  predicate Calm(turn: Turn) { turn.fault.Never? && turn.parting == QUIET }

  lemma TerminalParted(status: RunStatus, state: RunState, exposed: seq<ToolCall>, kind: Kind, again: bool)
    ensures Parted(Terminal(status, state, exposed, Parting(Some(kind), again)), Terminal(status, state, exposed, QUIET), kind, again)
    ensures Terminal(status, state, exposed, QUIET).Ends?
  {
  }

  lemma ShapeParted(start: RunState, shaped: RunState, proposed: bool, turn: Turn, kind: Kind, again: bool)
    requires Calm(turn)
    ensures Parted(ShapeOn(start, shaped, proposed, Until(turn, kind, again)), ShapeOn(start, shaped, proposed, turn), kind, again)
  {
    TerminalParted(Cancelled, start, [], kind, again);
  }

  lemma BatchParted(before: RunState, stored: RunState, calls: seq<ToolCall>, policy: Policy, tools: Tools, turn: Turn, kind: Kind,
                    again: bool)
    requires Calm(turn)
    ensures Parted(BatchResult(before, stored, calls, policy, tools, Until(turn, kind, again), None),
                   BatchResult(before, stored, calls, policy, tools, turn, None), kind, again)
  {
    TerminalParted(Cancelled, FirstBatch(before, calls, policy, tools), [], kind, again);
  }

  lemma CloseParted(state: RunState, needs: seq<ToolCall>, turn: Turn, kind: Kind, again: bool)
    requires Calm(turn)
    ensures Parted(CloseResult(state, needs, Until(turn, kind, again)), CloseResult(state, needs, turn), kind, again)
  {
    TerminalParted(WaitingForApproval, state, needs, kind, again);
  }

  lemma ToolsParted(start: RunState, calls: seq<ToolCall>, policy: Policy, tools: Tools, turn: Turn, kind: Kind, again: bool)
    requires Calm(turn)
    ensures Parted(ToolsResult(start, calls, policy, tools, Until(turn, kind, again)),
                   ToolsResult(start, calls, policy, tools, turn), kind, again)
  {
    var before, stored := WithFollowUps(start, calls, policy, tools), FirstBatch(start, calls, policy, tools);
    var synthetic, needs := FollowUps(calls, policy, tools), Needs(calls, policy, tools);
    BatchParted(start, start, calls, policy, tools, turn, kind, again);
    BatchParted(before, stored, synthetic, policy, tools, turn, kind, again);
    CloseParted(FirstBatch(before, synthetic, policy, tools), needs, turn, kind, again);
  }

  lemma AfterReplyParted(shaped: RunState, stored: RunState, policy: Policy, tools: Tools, turn: Turn, kind: Kind, again: bool)
    requires Calm(turn)
    ensures Parted(AfterReply(shaped, stored, policy, tools, Until(turn, kind, again)),
                   AfterReply(shaped, stored, policy, tools, turn), kind, again)
  {
    TerminalParted(Cancelled, shaped, [], kind, again);
    if turn.reply.WorkFirst? {
      var answered := AppendModelResponse(shaped, turn.reply.result);
      TerminalParted(Completed, answered, [], kind, again);
      TerminalParted(Cancelled, answered, [], kind, again);
      ToolsParted(answered, turn.reply.result.toolCalls, policy, tools, turn, kind, again);
    }
  }

  lemma ShapeStageParted(frame: Frame, start: RunState, turn: Turn, kind: Kind, again: bool)
    ensures ShapeResult(frame, start, Until(turn, kind, again)) ==
            ShapeOn(start, ShapedState(frame, start, turn), Proposes(frame, start, turn).Some?, Until(turn, kind, again))
  {
    var other := Until(turn, kind, again);
    ShapeParts(frame, start, other);
    assert Proposes(frame, start, other) == Proposes(frame, start, turn);
  }

  /** An observer that raises at the terminal event of a turn. */
  lemma PartingIsHandled(frame: Frame, start: RunState, policy: Policy, tools: Tools, turn: Turn, kind: Kind, again: bool)
    requires Calm(turn)
    ensures Parted(TurnOf(frame, start, policy, tools, Until(turn, kind, again)), TurnOf(frame, start, policy, tools, turn), kind,
                   again)
  {
    var shaped, proposed := ShapedState(frame, start, turn), Proposes(frame, start, turn).Some?;
    ShapeStageParted(frame, start, turn, kind, again);
    ShapeStage(frame, start, turn, turn.fault);
    assert With(turn, turn.fault) == turn;
    ShapeParted(start, shaped, proposed, turn, kind, again);
    AfterReplyParted(shaped, start, policy, tools, turn, kind, again);
  }
}
