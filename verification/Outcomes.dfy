/** What a turn of the loop, and a run of turns, must come to: a function of the state at its head
    and of everything the environment does meanwhile (`events/loop.py`). */
module Outcomes {
  import opened Domain
  import opened Transcript
  import opened Protocol
  import opened ToolStep
  import opened Turns
  import opened Hub
  import opened Batch
  import opened Tokens
  import opened Budget
  import opened Compaction

  // ----- the environment -----

  /** What breaks a turn off: an exception, a cancelled task whose Run is being cancelled, and a
      cancelled task whose Run is not. */
  datatype Kind = Raises | TokenCancel | TaskCancel

  /** Where: at an event's delivery, in the model call, or within a batch (see `Batch.OpenedBefore`). */
  datatype Site =
    | AtTurnStarted | AtShaping | AtCompaction | InModel | AtAfterModel
    | InBatch(n: nat) | InFollowUps(n: nat) | AtTurnEnded

  datatype Fault = Never | Fault(site: Site, kind: Kind)

  /** What the observers of a terminal event do, and whether those of the failure or cancellation
      that follows raise again. */
  datatype Parting = Parting(fault: Option<Kind>, again: bool)

  const QUIET := Parting(None, false)

  /** Everything the environment does during one iteration. */
  datatype Turn = Turn(
    cancelledAtHead: bool,
    summarize: Summarizer,
    reply: Race<ModelResponse>,
    cancelledAfterReply: bool,
    fault: Fault,
    parting: Parting)

  predicate Hits(turn: Turn, site: Site) { turn.fault.Fault? && turn.fault.site == site }

  function BatchFault(turn: Turn): Option<nat> {
    if turn.fault.Fault? && turn.fault.site.InBatch? then Some(turn.fault.site.n) else None
  }

  function FollowUpFault(turn: Turn): Option<nat> {
    if turn.fault.Fault? && turn.fault.site.InFollowUps? then Some(turn.fault.site.n) else None
  }

  /** What every request is made of besides the transcript, and who may compact it. */
  datatype Frame = Frame(
    prompt: RunState -> string, schemas: seq<string>, budget: TokenBudget?, compactor: CompactionHandler?)

  function NewIds(turn: Turn): set<string> {
    if turn.reply.CancelFirst? then {} else Ids(turn.reply.result.toolCalls)
  }

  predicate FreshTurn(turn: Turn, used: set<string>) {
    turn.reply.CancelFirst?
    || var calls := turn.reply.result.toolCalls;
       Distinct(calls) && (forall c :: c in calls ==> !IsFollowUp(c.id)) && Ids(calls) !! used
  }

  /** What the provider is relied on for: across the script no call id repeats, none looks like a
      follow-up, none is in `used`. */
  predicate FreshTurns(turns: seq<Turn>, used: set<string>) {
    turns == [] || (FreshTurn(turns[0], used) && FreshTurns(turns[1..], used + NewIds(turns[0])))
  }

  // ----- how things may end -----

  datatype TurnResult =
    | GoesOn(state: RunState)
    | Ends(status: RunStatus, final: RunState, exposed: seq<ToolCall>)
    | Dies(left: Stored)

  /** What a process that is gone left in the record. */
  datatype Stored = Stored(status: RunStatus, state: RunState)

  function StillRunning(state: RunState): Stored { Stored(RunStatus.Running, state) }

  /** The loop's exception handlers: they store the loop's own variable, whatever was stored since.
      Only a cancelled task whose Run is not being cancelled leaves the record as it was. */
  function Handled(kind: Kind, state: RunState, again: bool, left: Stored): TurnResult {
    if kind.TaskCancel? then Dies(left)
    else
      var status := if kind.Raises? then Failed else Cancelled;
      if again then Dies(Stored(status, state)) else Ends(status, state, [])
  }

  /** A terminal event; an observer that raises there turns it into a failure or a cancellation. */
  function Terminal(status: RunStatus, state: RunState, exposed: seq<ToolCall>, parting: Parting): TurnResult {
    match parting.fault
    case None => Ends(status, state, exposed)
    case Some(kind) => Handled(kind, state, parting.again, Stored(status, state))
  }

  // ----- asking and answering -----

  function PlainRequest(frame: Frame, state: RunState): ModelRequest {
    ModelRequest(Assemble(state, frame.prompt(state)), frame.schemas)
  }

  ghost function Proposes(frame: Frame, start: RunState, turn: Turn): Option<Compacted> {
    if frame.compactor == null then None
    else frame.compactor.Proposed(PlainRequest(frame, start), start, turn.summarize)
  }

  function Shaped(state: RunState, applied: Option<Compacted>): RunState {
    if applied.Some? then state.(compaction := Some(applied.value.compaction)) else state
  }

  /** The state a turn's request is issued from. */
  ghost function ShapedState(frame: Frame, start: RunState, turn: Turn): RunState {
    Shaped(start, Proposes(frame, start, turn))
  }

  /** The compaction of a turn, if there is one, is a fold of the transcript at its head with the turn's
      summariser. */
  lemma ShapingIsAMove(frame: Frame, start: RunState, turn: Turn)
    ensures match Proposes(frame, start, turn)
            case None => ShapedState(frame, start, turn) == start
            case Some(p) =>
              var move := Folds(p.compaction.throughIndex, turn.summarize);
              && MoveOk(start, move) && ProposalOf(start, move) == Some(p)
              && ShapedState(frame, start, turn) == AfterMove(start, move) && ReportsFold(start, turn.summarize, p)
  {
    if Proposes(frame, start, turn).Some? {
      ProposalReports(start, Proposes(frame, start, turn).value.compaction.throughIndex, turn.summarize);
    }
  }

  /** Up to the request. */
  ghost function ShapeResult(frame: Frame, start: RunState, turn: Turn): TurnResult {
    if turn.cancelledAtHead then Terminal(Cancelled, start, [], turn.parting)
    else if Hits(turn, AtTurnStarted) || Hits(turn, AtShaping) then
      Handled(turn.fault.kind, start, turn.parting.again, StillRunning(start))
    else if Hits(turn, AtCompaction) && Proposes(frame, start, turn).Some? then
      Handled(turn.fault.kind, ShapedState(frame, start, turn), turn.parting.again, StillRunning(start))
    else GoesOn(ShapedState(frame, start, turn))
  }

  /** The same, told from the shaped state and whether there was a proposal. */
  function ShapeOn(start: RunState, shaped: RunState, proposed: bool, turn: Turn): TurnResult {
    if turn.cancelledAtHead then Terminal(Cancelled, start, [], turn.parting)
    else if Hits(turn, AtTurnStarted) || Hits(turn, AtShaping) then
      Handled(turn.fault.kind, start, turn.parting.again, StillRunning(start))
    else if Hits(turn, AtCompaction) && proposed then
      Handled(turn.fault.kind, shaped, turn.parting.again, StillRunning(start))
    else GoesOn(shaped)
  }

  lemma ShapeParts(frame: Frame, start: RunState, turn: Turn)
    ensures ShapeResult(frame, start, turn) ==
            ShapeOn(start, ShapedState(frame, start, turn), Proposes(frame, start, turn).Some?, turn)
    ensures var shaped := ShapedState(frame, start, turn); shaped == start.(compaction := shaped.compaction)
  {
  }

  /** The states a turn issues a request from: none or one. */
  ghost function AskedBy(frame: Frame, start: RunState, turn: Turn): seq<RunState> {
    match ShapeResult(frame, start, turn)
    case GoesOn(state) => [state]
    case _ => []
  }

  /** From the request to the answer; a tie with cancellation goes to cancellation. The record still
      holds `stored`, which the answer's event replaces. */
  function ReplyResult(state: RunState, stored: RunState, turn: Turn): TurnResult {
    if Hits(turn, InModel) then Handled(turn.fault.kind, state, turn.parting.again, StillRunning(stored))
    else if !turn.reply.WorkFirst? then Terminal(Cancelled, state, [], turn.parting)
    else
      var answered := AppendModelResponse(state, turn.reply.result);
      if Hits(turn, AtAfterModel) then Handled(turn.fault.kind, answered, turn.parting.again, StillRunning(answered))
      else GoesOn(answered)
  }

  /** An answer without tool calls completes the Run; otherwise cancellation is polled. */
  function AnswerResult(answered: RunState, calls: seq<ToolCall>, turn: Turn): TurnResult {
    if calls == [] then
      if Hits(turn, AtTurnEnded) then Handled(turn.fault.kind, answered, turn.parting.again, StillRunning(answered))
      else Terminal(Completed, answered, [], turn.parting)
    else if turn.cancelledAfterReply then Terminal(Cancelled, answered, [], turn.parting)
    else GoesOn(answered)
  }

  // ----- the tools -----

  /** A batch broken off falls back to the state before it, unless the process goes at once and leaves
      what was stored by then; a cancelled batch keeps all that completed. */
  function BatchResult(before: RunState, stored: RunState, calls: seq<ToolCall>, policy: Policy, tools: Tools, turn: Turn,
                       fault: Option<nat>): TurnResult {
    if Raised(Runnable(calls, policy), tools, fault) && turn.fault.Fault? then
      Handled(turn.fault.kind, before, turn.parting.again,
              StillRunning(StoredBy(before, stored, Runnable(calls, policy), tools, fault.value)))
    else if Stops(calls, policy, tools) then
      Terminal(Cancelled, FirstBatch(before, calls, policy, tools), [], turn.parting)
    else GoesOn(FirstBatch(before, calls, policy, tools))
  }

  /** The pause for a human if some call was held, else the end of the turn. */
  function CloseResult(state: RunState, needs: seq<ToolCall>, turn: Turn): TurnResult {
    if needs != [] then Terminal(WaitingForApproval, state, needs, turn.parting)
    else if Hits(turn, AtTurnEnded) then Handled(turn.fault.kind, state, turn.parting.again, StillRunning(state))
    else GoesOn(state)
  }

  function FirstResult(start: RunState, calls: seq<ToolCall>, policy: Policy, tools: Tools, turn: Turn): TurnResult {
    BatchResult(start, start, calls, policy, tools, turn, BatchFault(turn))
  }

  /** The follow-ups are in the transcript but not yet in the record when their batch begins. */
  function SecondResult(start: RunState, calls: seq<ToolCall>, policy: Policy, tools: Tools, turn: Turn): TurnResult {
    BatchResult(WithFollowUps(start, calls, policy, tools), FirstBatch(start, calls, policy, tools),
                FollowUps(calls, policy, tools), policy, tools, turn, FollowUpFault(turn))
  }

  /** The follow-ups' batch and the close of the turn. */
  function FollowUpResult(start: RunState, calls: seq<ToolCall>, policy: Policy, tools: Tools, turn: Turn): TurnResult {
    match SecondResult(start, calls, policy, tools, turn)
    case GoesOn(state) => CloseResult(state, Needs(calls, policy, tools), turn)
    case r => r
  }

  /** A turn's tool calls: the model's batch, then the follow-ups it asked for. */
  function ToolsResult(start: RunState, calls: seq<ToolCall>, policy: Policy, tools: Tools, turn: Turn): TurnResult {
    match FirstResult(start, calls, policy, tools, turn)
    case GoesOn(_) => FollowUpResult(start, calls, policy, tools, turn)
    case r => r
  }

  /** What opening the calls that can run at once shows of the stored transcript. */
  function BatchOpenings(calls: seq<ToolCall>, policy: Policy, stored: RunState, fault: Option<nat>): seq<Opening> {
    OpeningsOf(Runnable(calls, policy)[..OpenedBefore(Runnable(calls, policy), fault)], stored)
  }

  /** Nothing is written between synthesising the follow-ups and opening them. */
  function ToolOpenings(start: RunState, calls: seq<ToolCall>, policy: Policy, tools: Tools, turn: Turn): seq<Opening> {
    BatchOpenings(calls, policy, start, BatchFault(turn)) +
    if FirstResult(start, calls, policy, tools, turn).GoesOn?
    then BatchOpenings(FollowUps(calls, policy, tools), policy, FirstBatch(start, calls, policy, tools), FollowUpFault(turn))
    else []
  }

  /** What a turn's tools are seen to do. */
  function ToolEvents(start: RunState, calls: seq<ToolCall>, policy: Policy, tools: Tools, turn: Turn): seq<Event> {
    EventsOf(Runnable(calls, policy), tools, BatchFault(turn)) +
    if FirstResult(start, calls, policy, tools, turn).GoesOn?
    then EventsOf(Runnable(FollowUps(calls, policy, tools), policy), tools, FollowUpFault(turn))
    else []
  }

  // ----- a turn, and a run of turns -----

  /** What becomes of an answer. */
  function AfterReply(shaped: RunState, stored: RunState, policy: Policy, tools: Tools, turn: Turn): TurnResult {
    match ReplyResult(shaped, stored, turn)
    case GoesOn(answered) =>
      (match AnswerResult(answered, turn.reply.result.toolCalls, turn)
       case GoesOn(_) => ToolsResult(answered, turn.reply.result.toolCalls, policy, tools, turn)
       case r => r)
    case r => r
  }

  ghost function TurnOf(frame: Frame, start: RunState, policy: Policy, tools: Tools, turn: Turn): TurnResult {
    match ShapeResult(frame, start, turn)
    case GoesOn(shaped) => AfterReply(shaped, start, policy, tools, turn)
    case r => r
  }

  predicate AtLimit(state: RunState, maxCalls: int) { maxCalls > 0 && state.completedModelCalls >= maxCalls }

  /** `advance`: turns until one ends the Run or the limit is reached; a script that runs out is a
      process that dies there. */
  ghost function Play(frame: Frame, start: RunState, turns: seq<Turn>, maxCalls: int, policy: Policy, tools: Tools,
                      pausing: Parting): TurnResult
    decreases |turns|
  {
    if AtLimit(start, maxCalls) then Terminal(PausedLimit, start, [], pausing)
    else if turns == [] then Dies(StillRunning(start))
    else match TurnOf(frame, start, policy, tools, turns[0])
         case GoesOn(next) => Play(frame, next, turns[1..], maxCalls, policy, tools, pausing)
         case r => r
  }

  /** The states requests are issued from meanwhile, in order. */
  ghost function Asks(frame: Frame, start: RunState, turns: seq<Turn>, maxCalls: int, policy: Policy, tools: Tools):
    seq<RunState>
    decreases |turns|
  {
    if AtLimit(start, maxCalls) || turns == [] then []
    else AskedBy(frame, start, turns[0]) +
         match TurnOf(frame, start, policy, tools, turns[0])
         case GoesOn(next) => Asks(frame, next, turns[1..], maxCalls, policy, tools)
         case _ => []
  }

  // ----- meeting it -----

  datatype RunResult = RunResult(status: RunStatus, finalMessage: string, modelCalls: nat, usage: RunUsage)

  /** How a run of the loop ends: with a result, or because the process went. */
  datatype Ending = Returned(result: RunResult) | Died

  predicate EndsWithAnswer(state: RunState, content: string) {
    state.messages != []
    && var m := state.messages[|state.messages| - 1];
       m.role.Assistant? && m.toolCalls == [] && m.content == content
  }

  /** What a result says agrees with the record it leaves. */
  predicate Reports(result: RunResult, rec: Record, exposed: seq<ToolCall>) {
    && rec.status == result.status
    && result.modelCalls == rec.state.completedModelCalls && result.usage == rec.state.usage
    && (result.status.Completed? ==> EndsWithAnswer(rec.state, result.finalMessage))
    && (result.status.WaitingForApproval? ==> exposed == UnmatchedToolCalls(rec.state.messages) != [])
    && (result.status.Completed? || result.status.PausedLimit? ==> UnmatchedToolCalls(rec.state.messages) == [])
  }

  /** The Run ended as prescribed, and a clean end left no call of this visit open. */
  ghost predicate Meets(w: World, must: TurnResult, ending: Ending, exposed: seq<ToolCall>) {
    && w.live.Some? && w.rec.Some?
    && match must
       case GoesOn(_) => false
       case Dies(left) =>
         ending.Died? && w.rec.value.status == left.status && w.rec.value.state == left.state
       case Ends(status, final, shown) =>
         && ending.Returned? && ending.result.status == status && exposed == shown
         && w.rec.value.state == final && Reports(ending.result, w.rec.value, exposed)
         && (Clean(status) ==> Dangling(w.trace) == w.live.value.stale)
  }

  // ----- what it comes to -----

  /** Nothing of the transcript is lost and no model call is forgotten. */
  predicate Beyond(base: RunState, state: RunState) {
    base.messages <= state.messages && base.completedModelCalls <= state.completedModelCalls
  }

  predicate Between(base: RunState, state: RunState, high: nat) {
    Beyond(base, state) && state.completedModelCalls <= high
  }

  /** Every state the result may leave, a death's included, is beyond `base` and counts at most `high`
      completed model calls, exactly `high` if the loop goes on; and it is no pause at the limit. */
  predicate Grown(r: TurnResult, base: RunState, high: nat) {
    match r
    case GoesOn(state) => Beyond(base, state) && state.completedModelCalls == high
    case Ends(status, final, _) => Between(base, final, high) && !status.PausedLimit?
    case Dies(left) => Between(base, left.state, high)
  }

  lemma GrownFrom(r: TurnResult, base: RunState, mid: RunState, high: nat)
    requires Grown(r, mid, high) && Beyond(base, mid)
    ensures Grown(r, base, high)
  {
  }

  lemma TerminalGrows(status: RunStatus, state: RunState, exposed: seq<ToolCall>, parting: Parting, base: RunState)
    requires Beyond(base, state) && !status.PausedLimit?
    ensures Grown(Terminal(status, state, exposed, parting), base, state.completedModelCalls)
    ensures !Terminal(status, state, exposed, parting).GoesOn?
  {
  }

  lemma HandledGrows(kind: Kind, state: RunState, again: bool, left: Stored, base: RunState, high: nat)
    requires Between(base, state, high) && Between(base, left.state, high)
    ensures Grown(Handled(kind, state, again, left), base, high) && !Handled(kind, state, again, left).GoesOn?
  {
  }

  /** Folded results only extend, and cost nothing. */
  lemma FoldBetween(base: RunState, before: RunState, rs: seq<Resolved>)
    requires Between(base, before, base.completedModelCalls)
    ensures Between(base, FoldResults(before, rs), base.completedModelCalls)
  {
    FoldCounts(before, rs);
    FoldExtends(before, rs);
    PrefixChain(base.messages, before.messages, FoldResults(before, rs).messages);
  }

  lemma BatchGrows(base: RunState, before: RunState, stored: RunState, calls: seq<ToolCall>, policy: Policy, tools: Tools,
                   turn: Turn, fault: Option<nat>)
    requires Between(base, before, base.completedModelCalls) && Between(base, stored, base.completedModelCalls)
    ensures Grown(BatchResult(before, stored, calls, policy, tools, turn, fault), base, base.completedModelCalls)
  {
    var orders := Runnable(calls, policy);
    var after := FirstBatch(before, calls, policy, tools);
    FoldBetween(base, before, Settled(orders, tools));
    TerminalGrows(Cancelled, after, [], turn.parting, base);
    if Raised(orders, tools, fault) && turn.fault.Fault? {
      FoldBetween(base, before, Settled(orders, tools)[..if fault.value <= |orders| then 0 else fault.value - |orders|]);
      var left := StillRunning(StoredBy(before, stored, orders, tools, fault.value));
      HandledGrows(turn.fault.kind, before, turn.parting.again, left, base, base.completedModelCalls);
    }
  }

  lemma CloseGrows(state: RunState, needs: seq<ToolCall>, turn: Turn)
    ensures Grown(CloseResult(state, needs, turn), state, state.completedModelCalls)
  {
    TerminalGrows(WaitingForApproval, state, needs, turn.parting, state);
  }

  lemma FollowUpGrows(start: RunState, calls: seq<ToolCall>, policy: Policy, tools: Tools, turn: Turn)
    ensures Grown(FollowUpResult(start, calls, policy, tools, turn), start, start.completedModelCalls)
  {
    ToolsCount(start, calls, policy, tools);
    FollowUpsExtend(start, calls, policy, tools);
    BatchGrows(start, WithFollowUps(start, calls, policy, tools), FirstBatch(start, calls, policy, tools),
               FollowUps(calls, policy, tools), policy, tools, turn, FollowUpFault(turn));
    var r := SecondResult(start, calls, policy, tools, turn);
    if r.GoesOn? {
      CloseGrows(r.state, Needs(calls, policy, tools), turn);
      GrownFrom(CloseResult(r.state, Needs(calls, policy, tools), turn), start, r.state, start.completedModelCalls);
    }
  }

  lemma ToolsResultGrows(start: RunState, calls: seq<ToolCall>, policy: Policy, tools: Tools, turn: Turn)
    ensures Grown(ToolsResult(start, calls, policy, tools, turn), start, start.completedModelCalls)
  {
    BatchGrows(start, start, start, calls, policy, tools, turn, BatchFault(turn));
    FollowUpGrows(start, calls, policy, tools, turn);
  }

  lemma ReplyGrows(state: RunState, stored: RunState, turn: Turn)
    requires Between(state, stored, state.completedModelCalls)
    ensures Grown(ReplyResult(state, stored, turn), state, state.completedModelCalls + 1)
  {
    TerminalGrows(Cancelled, state, [], turn.parting, state);
  }

  lemma AnswerGrows(answered: RunState, calls: seq<ToolCall>, turn: Turn)
    ensures Grown(AnswerResult(answered, calls, turn), answered, answered.completedModelCalls)
    ensures AnswerResult(answered, calls, turn).GoesOn? ==> AnswerResult(answered, calls, turn).state == answered
  {
    TerminalGrows(Completed, answered, [], turn.parting, answered);
    TerminalGrows(Cancelled, answered, [], turn.parting, answered);
  }

  lemma AfterReplyGrows(shaped: RunState, stored: RunState, policy: Policy, tools: Tools, turn: Turn)
    requires Between(shaped, stored, shaped.completedModelCalls)
    ensures Grown(AfterReply(shaped, stored, policy, tools, turn), shaped, shaped.completedModelCalls + 1)
  {
    ReplyGrows(shaped, stored, turn);
    var reply := ReplyResult(shaped, stored, turn);
    if reply.GoesOn? {
      var calls := turn.reply.result.toolCalls;
      AnswerGrows(reply.state, calls, turn);
      ToolsResultGrows(reply.state, calls, policy, tools, turn);
      GrownFrom(AnswerResult(reply.state, calls, turn), shaped, reply.state, shaped.completedModelCalls + 1);
      GrownFrom(ToolsResult(reply.state, calls, policy, tools, turn), shaped, reply.state, shaped.completedModelCalls + 1);
    }
  }

  lemma ShapeOnGrows(start: RunState, shaped: RunState, proposed: bool, turn: Turn)
    requires Between(start, shaped, start.completedModelCalls)
    ensures Grown(ShapeOn(start, shaped, proposed, turn), start, start.completedModelCalls)
  {
    TerminalGrows(Cancelled, start, [], turn.parting, start);
    if turn.fault.Fault? {
      HandledGrows(turn.fault.kind, start, turn.parting.again, StillRunning(start), start, start.completedModelCalls);
      HandledGrows(turn.fault.kind, shaped, turn.parting.again, StillRunning(start), start, start.completedModelCalls);
    }
  }

  lemma ShapeGrows(frame: Frame, start: RunState, turn: Turn)
    ensures Grown(ShapeResult(frame, start, turn), start, start.completedModelCalls)
    ensures |AskedBy(frame, start, turn)| == if ShapeResult(frame, start, turn).GoesOn? then 1 else 0
  {
    ShapeParts(frame, start, turn);
    ShapeOnGrows(start, ShapedState(frame, start, turn), Proposes(frame, start, turn).Some?, turn);
  }

  lemma ShapeKeepsMessages(frame: Frame, start: RunState, turn: Turn)
    ensures ShapeResult(frame, start, turn).GoesOn? ==>
      var shaped := ShapeResult(frame, start, turn).state;
      shaped.messages == start.messages && shaped.completedModelCalls == start.completedModelCalls
  {
  }

  /** Whatever happens in a turn, what it leaves extends the transcript it began with, even if the
      process dies in it. One that goes on completed one model call and issued one request; any other
      completed no more than it asked for. */
  lemma TurnGrows(frame: Frame, start: RunState, policy: Policy, tools: Tools, turn: Turn)
    ensures Grown(TurnOf(frame, start, policy, tools, turn), start,
                  start.completedModelCalls + |AskedBy(frame, start, turn)|)
    ensures |AskedBy(frame, start, turn)| <= 1
    ensures TurnOf(frame, start, policy, tools, turn).GoesOn? ==> |AskedBy(frame, start, turn)| == 1
  {
    ShapeGrows(frame, start, turn);
    ShapeKeepsMessages(frame, start, turn);
    var shape := ShapeResult(frame, start, turn);
    if shape.GoesOn? {
      AfterReplyGrows(shape.state, start, policy, tools, turn);
      GrownFrom(AfterReply(shape.state, start, policy, tools, turn), start, shape.state, start.completedModelCalls + 1);
    }
  }

  /** How many calls a positive limit still allows. */
  function CallsLeft(start: RunState, maxCalls: int): nat {
    if start.completedModelCalls < maxCalls then maxCalls - start.completedModelCalls else 0
  }

  /** With a positive limit no more requests are issued than it allows. */
  lemma {:induction false} LimitIsKept(frame: Frame, start: RunState, turns: seq<Turn>, maxCalls: int, policy: Policy,
                                       tools: Tools)
    requires maxCalls > 0
    ensures |Asks(frame, start, turns, maxCalls, policy, tools)| <= CallsLeft(start, maxCalls)
    decreases |turns|
  {
    if !AtLimit(start, maxCalls) && turns != [] {
      TurnGrows(frame, start, policy, tools, turns[0]);
      var first := TurnOf(frame, start, policy, tools, turns[0]);
      if first.GoesOn? {
        LimitIsKept(frame, first.state, turns[1..], maxCalls, policy, tools);
      }
    }
  }

  /** A run of the loop always ends, with a transcript that extends the one it began with, and is
      paused only at a positive limit that is reached. */
  lemma {:induction false} PausedOnlyAtLimit(frame: Frame, start: RunState, turns: seq<Turn>, maxCalls: int,
                                             policy: Policy, tools: Tools, pausing: Parting)
    ensures match Play(frame, start, turns, maxCalls, policy, tools, pausing)
            case Ends(status, final, _) =>
              && Beyond(start, final) && (status.PausedLimit? ==> AtLimit(final, maxCalls))
              && (maxCalls > 0 ==> final.completedModelCalls <= start.completedModelCalls + CallsLeft(start, maxCalls))
            case GoesOn(_) => false
            case Dies(left) => Beyond(start, left.state)
    decreases |turns|
  {
    if !AtLimit(start, maxCalls) && turns != [] {
      TurnGrows(frame, start, policy, tools, turns[0]);
      var first := TurnOf(frame, start, policy, tools, turns[0]);
      if first.GoesOn? {
        PausedOnlyAtLimit(frame, first.state, turns[1..], maxCalls, policy, tools, pausing);
      }
    }
  }

  predicate Undisturbed(turn: Turn) { turn.fault.Never? && turn.parting == QUIET }

  predicate AllUndisturbed(turns: seq<Turn>, pausing: Parting) {
    pausing == QUIET && forall i :: 0 <= i < |turns| ==> Undisturbed(turns[i])
  }

  /** Without faults a limited loop given enough turns always hands the Run back, and never failed. */
  lemma {:induction false} LimitedLoopReturns(frame: Frame, start: RunState, turns: seq<Turn>, maxCalls: int,
                                              policy: Policy, tools: Tools, pausing: Parting)
    requires maxCalls > 0 && CallsLeft(start, maxCalls) <= |turns| && AllUndisturbed(turns, pausing)
    ensures var r := Play(frame, start, turns, maxCalls, policy, tools, pausing); r.Ends? && !r.status.Failed?
    decreases |turns|
  {
    if !AtLimit(start, maxCalls) {
      assert Undisturbed(turns[0]);
      TurnGrows(frame, start, policy, tools, turns[0]);
      match TurnOf(frame, start, policy, tools, turns[0]) {
        case GoesOn(next) =>
          LimitedLoopReturns(frame, next, turns[1..], maxCalls, policy, tools, pausing);
        case _ =>
      }
    }
  }

  // ----- what opening a call shows of the stored transcript -----

  predicate OnlyFollowUpsUnstored(os: seq<Opening>) {
    forall i :: 0 <= i < |os| ==> (os[i].durable <==> !IsFollowUp(os[i].call.id))
  }

  lemma OpeningsMeans(calls: seq<ToolCall>, policy: Policy, stored: RunState, fault: Option<nat>)
    ensures forall o :: o in BatchOpenings(calls, policy, stored, fault) ==>
              o.call in calls && !policy(o.call).NeedsApproval? && o == OpeningOf(o.call, stored)
  {
    var orders := Runnable(calls, policy);
    SplitMembers(calls, policy);
    forall o | o in BatchOpenings(calls, policy, stored, fault)
      ensures o.call in calls && !policy(o.call).NeedsApproval? && o == OpeningOf(o.call, stored)
    {
      var k :| 0 <= k < |BatchOpenings(calls, policy, stored, fault)| && BatchOpenings(calls, policy, stored, fault)[k] == o;
      assert CallsOfOrders(orders)[k] == o.call;
    }
  }

  /** Within a turn a call is stored when it is opened if and only if the model issued it: the
      follow-ups the policy lets run at once are opened before anything is written. */
  lemma OpenedInTurn(start: RunState, calls: seq<ToolCall>, policy: Policy, tools: Tools, turn: Turn)
    requires forall c :: c in calls ==> c in CallsOf(start.messages) && !IsFollowUp(c.id)
    requires FirstResult(start, calls, policy, tools, turn).GoesOn? ==>
               Ids(FollowUps(calls, policy, tools)) !! Ids(CallsOf(FirstBatch(start, calls, policy, tools).messages))
    ensures OnlyFollowUpsUnstored(ToolOpenings(start, calls, policy, tools, turn))
    ensures forall o :: o in ToolOpenings(start, calls, policy, tools, turn) && IsFollowUp(o.call.id) ==>
              o.call in FollowUps(calls, policy, tools) && !policy(o.call).NeedsApproval? && !o.durable
  {
    var synthetic, first := FollowUps(calls, policy, tools), FirstBatch(start, calls, policy, tools);
    OpeningsMeans(calls, policy, start, BatchFault(turn));
    OpeningsMeans(synthetic, policy, first, FollowUpFault(turn));
    FollowUpsAreFollowUps(Settled(Runnable(calls, policy), tools));
    var os := ToolOpenings(start, calls, policy, tools, turn);
    forall i | 0 <= i < |os| ensures os[i].durable <==> !IsFollowUp(os[i].call.id) {
      assert os[i] in os;
      if os[i] in BatchOpenings(calls, policy, start, BatchFault(turn)) {
      } else {
        assert os[i].call in synthetic && os[i].call.id in Ids(synthetic);
      }
    }
  }

  // ----- what may start -----

  /** What has started since is what was opened since and what the policy allows, or, if a human was
      asked about it, the human. */
  ghost predicate StartedSince(policy: Policy, approved: set<string>, openings0: seq<Opening>, openings: seq<Opening>,
                               trace0: seq<Event>, trace: seq<Event>) {
    && openings0 <= openings && trace0 <= trace
    && forall id {:trigger Begin(id)} :: Begin(id) in trace[|trace0|..] ==> MayStart(policy, approved, openings[|openings0|..], id)
  }

  predicate MayStart(policy: Policy, approved: set<string>, openings: seq<Opening>, id: string) {
    exists o :: o in openings && o.call.id == id && (policy(o.call).Allow? || id in approved)
  }

  lemma NothingStarted(policy: Policy, approved: set<string>, openings: seq<Opening>, trace: seq<Event>)
    ensures StartedSince(policy, approved, openings, openings, trace, trace)
  {
  }

  lemma StartedMore(policy: Policy, approved: set<string>, openings0: seq<Opening>, openings: seq<Opening>, trace0: seq<Event>,
                    trace: seq<Event>, moreOpenings: seq<Opening>, more: seq<Event>)
    requires StartedSince(policy, approved, openings0, openings, trace0, trace)
    requires forall id {:trigger Begin(id)} :: Begin(id) in more ==> MayStart(policy, approved, moreOpenings, id)
    ensures StartedSince(policy, approved, openings0, openings + moreOpenings, trace0, trace + more)
  {
    var now, all := openings[|openings0|..], (openings + moreOpenings)[|openings0|..];
    assert all == now + moreOpenings;
    assert (trace + more)[|trace0|..] == trace[|trace0|..] + more;
    forall id | Begin(id) in trace[|trace0|..] + more ensures MayStart(policy, approved, all, id) {
      if Begin(id) in more {
        var o :| o in moreOpenings && o.call.id == id && (policy(o.call).Allow? || id in approved);
        assert o in all;
      } else {
        var o :| o in now && o.call.id == id && (policy(o.call).Allow? || id in approved);
        assert o in all;
      }
    }
  }

  lemma StartedTogether(policy: Policy, approved: set<string>, openings0: seq<Opening>, openings1: seq<Opening>,
                        openings2: seq<Opening>, trace0: seq<Event>, trace1: seq<Event>, trace2: seq<Event>)
    requires StartedSince(policy, approved, openings0, openings1, trace0, trace1)
    requires StartedSince(policy, approved, openings1, openings2, trace1, trace2)
    ensures StartedSince(policy, approved, openings0, openings2, trace0, trace2)
  {
    assert openings1 + openings2[|openings1|..] == openings2 && trace1 + trace2[|trace1|..] == trace2;
    StartedMore(policy, approved, openings0, openings1, trace0, trace1, openings2[|openings1|..], trace2[|trace1|..]);
  }

  lemma StartedApproved(policy: Policy, approved: set<string>, openings0: seq<Opening>, openings: seq<Opening>,
                        trace0: seq<Event>, trace: seq<Event>)
    requires StartedSince(policy, {}, openings0, openings, trace0, trace)
    ensures StartedSince(policy, approved, openings0, openings, trace0, trace)
  {
    forall id | Begin(id) in trace[|trace0|..] ensures MayStart(policy, approved, openings[|openings0|..], id) {
      assert MayStart(policy, {}, openings[|openings0|..], id);
    }
  }

  /** A batch of decided calls starts only what the policy allows. */
  lemma BatchStarts(calls: seq<ToolCall>, policy: Policy, tools: Tools, stored: RunState, fault: Option<nat>, id: string)
    requires Begin(id) in EventsOf(Runnable(calls, policy), tools, fault)
    ensures MayStart(policy, {}, BatchOpenings(calls, policy, stored, fault), id)
  {
    var orders := Runnable(calls, policy);
    StartsAreOrders(orders, tools, fault, id);
    PolicyDecides(calls, policy);
    var k :| 0 <= k < |orders| && orders[k].plan.Execute? && orders[k].call.id == id;
    assert orders[..|orders|] == orders && orders[k] in orders;
    assert BatchOpenings(calls, policy, stored, fault)[k] in BatchOpenings(calls, policy, stored, fault);
  }

  /** A turn's tools are started only if the policy allows them. */
  lemma ToolsStart(start: RunState, calls: seq<ToolCall>, policy: Policy, tools: Tools, turn: Turn, openings: seq<Opening>,
                   trace: seq<Event>)
    ensures StartedSince(policy, {}, openings, openings + ToolOpenings(start, calls, policy, tools, turn), trace,
                         trace + ToolEvents(start, calls, policy, tools, turn))
  {
    var os := ToolOpenings(start, calls, policy, tools, turn);
    NothingStarted(policy, {}, openings, trace);
    forall id | Begin(id) in ToolEvents(start, calls, policy, tools, turn) ensures MayStart(policy, {}, os, id) {
      if Begin(id) in EventsOf(Runnable(calls, policy), tools, BatchFault(turn)) {
        BatchStarts(calls, policy, tools, start, BatchFault(turn), id);
        var first := BatchOpenings(calls, policy, start, BatchFault(turn));
        var o :| o in first && o.call.id == id && policy(o.call).Allow?;
        assert o in os;
      } else {
        var synthetic, stored := FollowUps(calls, policy, tools), FirstBatch(start, calls, policy, tools);
        BatchStarts(synthetic, policy, tools, stored, FollowUpFault(turn), id);
        var second := BatchOpenings(synthetic, policy, stored, FollowUpFault(turn));
        var o :| o in second && o.call.id == id && policy(o.call).Allow?;
        assert o in os;
      }
    }
    StartedMore(policy, {}, openings, openings, trace, trace, os, ToolEvents(start, calls, policy, tools, turn));
  }

  // ----- cancellation -----

  /** A turn cancelled among its tools keeps all completed work: the results of every call that
      finished are in what it stores, of the follow-ups too if it got that far; if it did not, no
      follow-up was added. */
  lemma CancelledTurnKeepsWork(start: RunState, calls: seq<ToolCall>, policy: Policy, tools: Tools, turn: Turn)
    requires turn.fault.Never? && turn.parting == QUIET
    requires Distinct(calls)
    ensures var r := ToolsResult(start, calls, policy, tools, turn);
      r.Ends? && r.status.Cancelled? ==>
        && Holds(r.final.messages, Runnable(calls, policy), tools)
        && if Stops(calls, policy, tools) then CallsOf(r.final.messages) == CallsOf(start.messages)
           else Holds(r.final.messages, Runnable(FollowUps(calls, policy, tools), policy), tools)
  {
    var r, synthetic := ToolsResult(start, calls, policy, tools, turn), FollowUps(calls, policy, tools);
    var first, second := FirstBatch(start, calls, policy, tools), SecondBatch(start, calls, policy, tools);
    RunnableDistinct(calls, policy);
    FollowUpsDistinct(calls, policy, tools);
    RunnableDistinct(synthetic, policy);
    FollowUpsExtend(start, calls, policy, tools);
    FoldCalls(start, Settled(Runnable(calls, policy), tools));
    BatchHolds(start, Runnable(calls, policy), tools, first.messages);
    BatchHolds(start, Runnable(calls, policy), tools, second.messages);
    BatchHolds(WithFollowUps(start, calls, policy, tools), Runnable(synthetic, policy), tools, second.messages);
    QuietStages(start, calls, policy, tools, turn);
  }

  lemma QuietStages(start: RunState, calls: seq<ToolCall>, policy: Policy, tools: Tools, turn: Turn)
    requires turn.fault.Never? && turn.parting == QUIET
    ensures var r := ToolsResult(start, calls, policy, tools, turn);
      r.Ends? && r.status.Cancelled? ==>
        r.final == if Stops(calls, policy, tools) then FirstBatch(start, calls, policy, tools)
                   else SecondBatch(start, calls, policy, tools)
  {
    FollowUpQuiet(start, calls, policy, tools, turn);
  }

  lemma FollowUpQuiet(start: RunState, calls: seq<ToolCall>, policy: Policy, tools: Tools, turn: Turn)
    requires turn.fault.Never? && turn.parting == QUIET
    ensures var r := FollowUpResult(start, calls, policy, tools, turn);
      r.Ends? && r.status.Cancelled? ==> r.final == SecondBatch(start, calls, policy, tools)
  {
  }
}
