/** The Run lifecycle as a transition system: one durable record, at most one live process,
    the tool events its subscribers saw and the transcripts its model requests were issued from.

    `Enabled` holds only facts the code has at hand at that point (its own tokens, its own
    transcript, the record it read); that no call ever runs twice is a theorem, not a guard. */
module Protocol {
  import opened Domain
  import opened Transcript
  import opened Compaction

  datatype Record = Record(status: RunStatus, state: RunState, updatedAt: nat)

  /** `Before` and `After` are the hub's events; `Begin` is the tool starting to execute. */
  datatype Event = Before(id: string) | Begin(id: string) | After(id: string)

  /** A process holding the Run's claim.
      `state` is the transcript as folded so far, `anchor` the value the loop would hand to its
      exception handlers: it lags behind `state` while a batch is being folded. The sets are the
      calls this process may open (`ready`), has opened, is executing, and has finished in this
      turn (`spawn`). `stale` remembers the calls that were already left open at the claim. */
  datatype Live = Live(
    state: RunState, anchor: RunState, seen: nat, owned: bool,
    ready: set<string>, open: set<string>, executing: set<string>, spawn: set<string>,
    stale: set<string>, awaiting: bool, halted: bool)

  /** `asked` are the states requests were issued from. `tidy` remembers that no follow-up was
      synthesised and nothing was folded as a whole while a call was pending. */
  datatype World = World(
    rec: Option<Record>, live: Option<Live>, trace: seq<Event>, asked: seq<RunState>, tidy: bool)

  const INITIAL := World(None, None, [], [], true)

  datatype Action =
    | Create(prompt: string, skills: Skills, now: nat)
    | Launch(now: nat)
    | Claim(extra: Option<string>, reselected: Option<Skills>)
    | Swap(now: nat)
    | Compact(compaction: CompactionState)
    | FoldWhole(compaction: CompactionState, now: nat)
    | Ask
    | Reply(response: ModelResponse)
    | Open(call: ToolCall)
    | Execute(id: string)
    | Finish(call: ToolCall, result: ToolResult)
    | Commit
    | Spawn(base: string, synthetic: ToolCall)
    | Save(now: nat)
    | Halt(status: RunStatus, late: bool, now: nat)
    | SealInterrupt(now: nat)
    | Leave

  // ----- ids -----

  const FOLLOW_UP := ":follow-up"

  function FollowUpId(id: string): string { id + FOLLOW_UP }

  predicate IsFollowUp(id: string) {
    |id| >= |FOLLOW_UP| && id[|id| - |FOLLOW_UP|..] == FOLLOW_UP
  }

  /** What the protocol relies on the model provider for: new calls carry new ids. */
  predicate Fresh(calls: seq<ToolCall>, state: RunState) {
    && Distinct(calls)
    && (forall c :: c in calls ==> !IsFollowUp(c.id))
    && Ids(calls) !! Ids(CallsOf(state.messages))
  }

  // ----- what a trace says about one call -----

  datatype Stage = Idle | Opened | Executing | Finished | Broken

  /** Idle -> Opened -> (Executing ->) Finished; anything else is Broken for ever. */
  function Progress(trace: seq<Event>, id: string): Stage {
    if trace == [] then Idle
    else
      var before, e := Progress(trace[..|trace| - 1], id), trace[|trace| - 1];
      if e.id != id then before
      else match e
        case Before(_) => if before.Idle? then Opened else Broken
        case Begin(_) => if before.Opened? then Executing else Broken
        case After(_) => if before.Opened? || before.Executing? then Finished else Broken
  }

  function Touched(trace: seq<Event>): set<string> { set e | e in trace :: e.id }

  function Dangling(trace: seq<Event>): set<string> {
    set id | id in Touched(trace) && (Progress(trace, id).Opened? || Progress(trace, id).Executing?)
  }

  // ----- the transitions -----

  predicate Active(w: World) {
    w.rec.Some? && w.live.Some? && w.live.value.owned && !w.live.value.halted
  }

  /** A fresh Run: the record is created empty, the prompt is in memory. */
  predicate CanCreate(w: World) { w.rec.None? && w.live.None? }

  function Created(w: World, prompt: string, skills: Skills, now: nat): World {
    var state := StartRun(WithRunSkills(EMPTY_STATE, skills), prompt);
    w.(rec := Some(Record(Running, EMPTY_STATE, now)),
       live := Some(Live(state, state, now, true, {}, {}, {}, {}, Dangling(w.trace), false, false)))
  }

  /** Taking the claim and loading the record: sealed, unless it waits for approval. */
  predicate CanClaim(w: World, extra: Option<string>) {
    w.rec.Some? && w.live.None? && (w.rec.value.status.WaitingForApproval? ==> extra.None?)
  }

  /** The stored state, with the skills given on this occasion if any. */
  function Loaded(w: World, skills: Option<Skills>): RunState
    requires w.rec.Some?
  {
    if skills.Some? then WithRunSkills(w.rec.value.state, skills.value) else w.rec.value.state
  }

  function ClaimedLive(w: World, extra: Option<string>, skills: Option<Skills>): Live
    requires w.rec.Some?
  {
    var r, loaded := w.rec.value, Loaded(w, skills);
    var state :=
      if r.status.WaitingForApproval? then loaded
      else if extra.Some? then AppendUserMessage(Sealed(loaded), extra.value)
      else Sealed(loaded);
    Live(state, state, r.updatedAt, false,
         if r.status.WaitingForApproval? then PendingIds(r.state) else {}, {}, {}, {},
         Dangling(w.trace), false, false)
  }

  function Claimed(w: World, extra: Option<string>, skills: Option<Skills>): World
    requires CanClaim(w, extra)
  {
    w.(live := Some(ClaimedLive(w, extra, skills)))
  }

  /** The compare-and-swap back to RUNNING: nobody wrote since the claim read the record. */
  predicate CanSwap(w: World, now: nat) {
    w.rec.Some? && w.live.Some? && !w.live.value.owned
    && w.rec.value.updatedAt == w.live.value.seen < now
  }

  function Swapped(w: World, now: nat): World
    requires CanSwap(w, now)
  {
    w.(rec := Some(Record(Running, w.live.value.state, now)), live := Some(w.live.value.(owned := true)))
  }

  /** The automatic cut, between turns. */
  predicate CanCompact(w: World, c: CompactionState) {
    Active(w) && !w.live.value.awaiting && w.live.value.anchor == w.live.value.state
    && CutPoint(w.live.value.state, c.throughIndex)
  }

  function CompactedLive(w: World, c: CompactionState): World
    requires CanCompact(w, c)
  {
    var l := w.live.value;
    w.(live := Some(l.(state := l.state.(compaction := Some(c)),
                       anchor := l.anchor.(compaction := Some(c)))))
  }

  /** Folding the whole stored transcript on demand, which takes no claim and keeps the status. */
  predicate CanFoldWhole(w: World, c: CompactionState, now: nat) {
    w.rec.Some? && w.rec.value.updatedAt < now
    && Already(w.rec.value.state) < c.throughIndex == |w.rec.value.state.messages|
  }

  function FoldedWhole(w: World, c: CompactionState, now: nat): World
    requires CanFoldWhole(w, c, now)
  {
    var r := w.rec.value;
    w.(rec := Some(r.(state := r.state.(compaction := Some(c)), updatedAt := now)),
       tidy := w.tidy && UnmatchedToolCalls(r.state.messages) == [])
  }

  /** A model request is only ever issued from a transcript with nothing pending. */
  predicate CanAsk(w: World) { Active(w) && UnmatchedToolCalls(w.live.value.state.messages) == [] }

  function Asked(w: World): World
    requires CanAsk(w)
  {
    w.(live := Some(w.live.value.(awaiting := true, spawn := {})),
       asked := w.asked + [w.live.value.state])
  }

  predicate CanReply(w: World, r: ModelResponse) {
    Active(w) && w.live.value.awaiting && Fresh(r.toolCalls, w.live.value.state)
  }

  function Replied(w: World, r: ModelResponse): World
    requires CanReply(w, r)
  {
    var state := AppendModelResponse(w.live.value.state, r);
    w.(live := Some(w.live.value.(state := state, anchor := state,
                                  ready := Ids(r.toolCalls), awaiting := false)))
  }

  /** `before_tool`: the process holds the right to this call and a model-issued call is durable. */
  predicate CanOpen(w: World, c: ToolCall) {
    Active(w) && c.id in w.live.value.ready && c in CallsOf(w.live.value.state.messages)
    && (IsFollowUp(c.id) || c in CallsOf(w.rec.value.state.messages))
  }

  function OpenedCall(w: World, c: ToolCall): World
    requires CanOpen(w, c)
  {
    var l := w.live.value;
    w.(live := Some(l.(ready := l.ready - {c.id}, open := l.open + {c.id})),
       trace := w.trace + [Before(c.id)])
  }

  predicate CanExecute(w: World, id: string) { Active(w) && id in w.live.value.open }

  function ExecutedCall(w: World, id: string): World
    requires CanExecute(w, id)
  {
    var l := w.live.value;
    w.(live := Some(l.(open := l.open - {id}, executing := l.executing + {id})),
       trace := w.trace + [Begin(id)])
  }

  /** Folding one result and announcing it with `after_tool`. */
  predicate CanFinish(w: World, c: ToolCall) {
    Active(w) && c.id in w.live.value.open + w.live.value.executing
  }

  function FinishedCall(w: World, c: ToolCall, result: ToolResult): World
    requires CanFinish(w, c)
  {
    var l := w.live.value;
    w.(live := Some(l.(state := AppendToolResult(l.state, c, result),
                       open := l.open - {c.id}, executing := l.executing - {c.id},
                       spawn := if IsFollowUp(c.id) then l.spawn else l.spawn + {c.id})),
       trace := w.trace + [After(c.id)])
  }

  /** The batch returned: the loop's own variable catches up. */
  predicate CanCommit(w: World) { Active(w) }

  function Committed(w: World): World
    requires CanCommit(w)
  {
    w.(live := Some(w.live.value.(anchor := w.live.value.state)))
  }

  /** A finished call's outcome asked for a follow-up call. */
  predicate CanSpawn(w: World, base: string, c: ToolCall) {
    Active(w) && !w.live.value.awaiting && base in w.live.value.spawn && c.id == FollowUpId(base)
  }

  function Spawned(w: World, base: string, c: ToolCall): World
    requires CanSpawn(w, base, c)
  {
    var l := w.live.value;
    var state := AppendSyntheticToolCall(l.state, c);
    w.(live := Some(l.(state := state, anchor := state,
                       ready := l.ready + {c.id}, spawn := l.spawn - {base})),
       tidy := w.tidy && UnmatchedToolCalls(l.state.messages) == [])
  }

  predicate CanSave(w: World, now: nat) { Active(w) && w.rec.value.updatedAt < now }

  function Saved(w: World, now: nat): World
    requires CanSave(w, now)
  {
    w.(rec := Some(w.rec.value.(state := w.live.value.state, updatedAt := now)))
  }

  /** Announcing a fresh Run stores its seeded state and says once more that it is running. */
  predicate CanLaunch(w: World, now: nat) { CanSave(w, now) }

  function Launched(w: World, now: nat): World
    requires CanLaunch(w, now)
  {
    w.(rec := Some(Record(Running, w.live.value.state, now)))
  }

  predicate Clean(status: RunStatus) {
    status.Completed? || status.PausedLimit? || status.WaitingForApproval?
  }

  /** The terminal events. Failure and cancellation may strike anywhere, even after another
      terminal event was written; then they may carry the lagging state (`late`). */
  predicate CanHalt(w: World, status: RunStatus, late: bool, now: nat) {
    && w.rec.Some? && w.live.Some? && w.live.value.owned && w.rec.value.updatedAt < now
    && var pending := UnmatchedToolCalls(w.live.value.state.messages);
       if status.Failed? || status.Cancelled? then true
       else if status.WaitingForApproval? then
         !late && !w.live.value.halted && pending != [] && Ids(pending) <= w.live.value.ready
       else (status.Completed? || status.PausedLimit?) && !late && !w.live.value.halted && pending == []
  }

  function Halted(w: World, status: RunStatus, late: bool, now: nat): World
    requires CanHalt(w, status, late, now)
  {
    var l := w.live.value;
    w.(rec := Some(Record(status, if late then l.anchor else l.state, now)),
       live := Some(l.(halted := true)))
  }

  /** `seal_interrupt` does not take the claim: it may strike beside a live process. */
  predicate CanSealInterrupt(w: World, now: nat) {
    w.rec.Some? && w.rec.value.status.Running? && w.rec.value.updatedAt < now
  }

  function SealInterrupted(w: World, now: nat): World
    requires CanSealInterrupt(w, now)
  {
    w.(rec := Some(Record(Cancelled, Sealed(w.rec.value.state), now)))
  }

  /** The process returns or dies; either way its memory is gone and the claim is free. */
  predicate CanLeave(w: World) { w.live.Some? }

  function Left(w: World): World { w.(live := None) }

  predicate Enabled(w: World, a: Action) {
    match a
    case Create(_, _, _) => CanCreate(w)
    case Launch(now) => CanLaunch(w, now)
    case Claim(extra, _) => CanClaim(w, extra)
    case Swap(now) => CanSwap(w, now)
    case Compact(c) => CanCompact(w, c)
    case FoldWhole(c, now) => CanFoldWhole(w, c, now)
    case Ask => CanAsk(w)
    case Reply(r) => CanReply(w, r)
    case Open(c) => CanOpen(w, c)
    case Execute(id) => CanExecute(w, id)
    case Finish(c, _) => CanFinish(w, c)
    case Commit => CanCommit(w)
    case Spawn(base, c) => CanSpawn(w, base, c)
    case Save(now) => CanSave(w, now)
    case Halt(status, late, now) => CanHalt(w, status, late, now)
    case SealInterrupt(now) => CanSealInterrupt(w, now)
    case Leave => CanLeave(w)
  }

  function Apply(w: World, a: Action): World
    requires Enabled(w, a)
  {
    match a
    case Create(prompt, skills, now) => Created(w, prompt, skills, now)
    case Launch(now) => Launched(w, now)
    case Claim(extra, skills) => Claimed(w, extra, skills)
    case Swap(now) => Swapped(w, now)
    case Compact(c) => CompactedLive(w, c)
    case FoldWhole(c, now) => FoldedWhole(w, c, now)
    case Ask => Asked(w)
    case Reply(r) => Replied(w, r)
    case Open(c) => OpenedCall(w, c)
    case Execute(id) => ExecutedCall(w, id)
    case Finish(c, result) => FinishedCall(w, c, result)
    case Commit => Committed(w)
    case Spawn(base, c) => Spawned(w, base, c)
    case Save(now) => Saved(w, now)
    case Halt(status, late, now) => Halted(w, status, late, now)
    case SealInterrupt(now) => SealInterrupted(w, now)
    case Leave => Left(w)
  }

  /** The world a list of actions leads to, or `None` when one of them was not enabled. */
  function Replay(log: seq<Action>): Option<World> {
    if log == [] then Some(INITIAL)
    else
      var w := Replay(log[..|log| - 1]);
      if w.Some? && Enabled(w.value, log[|log| - 1]) then Some(Apply(w.value, log[|log| - 1])) else None
  }

  // ----- the invariant -----

  predicate GoodState(state: RunState) { WellFormed(state.messages) && Already(state) <= |state.messages| }

  ghost predicate Untouched(trace: seq<Event>, ids: set<string>) {
    forall id :: id in ids ==> Progress(trace, id) == Idle
  }

  /** The record is a repairable transcript, and while it waits for approval nothing it
      exposes as pending was ever opened. */
  ghost predicate RecordOk(w: World) {
    && (w.rec.None? ==> w.live.None? && w.trace == [])
    && (w.rec.Some? ==> GoodState(w.rec.value.state))
    && (w.rec.Some? && w.rec.value.status.WaitingForApproval? ==>
          PendingIds(w.rec.value.state) != {} && Untouched(w.trace, PendingIds(w.rec.value.state)))
  }

  /** The tokens of the live process agree with the trace and with its own transcript. */
  ghost predicate TokensOk(l: Live, trace: seq<Event>) {
    && l.ready !! l.open && l.ready !! l.executing && l.open !! l.executing
    && l.ready + l.open + l.executing <= PendingIds(l.state)
    && Untouched(trace, l.ready)
    && (forall id :: id in l.open ==> Progress(trace, id) == Opened)
    && (forall id :: id in l.executing ==> Progress(trace, id) == Executing)
    && (forall id :: id in l.spawn ==> Progress(trace, id) == Finished && !IsFollowUp(id))
    && Dangling(trace) == l.open + l.executing + l.stale
    && l.stale !! l.open + l.executing
  }

  ghost predicate LiveOk(w: World) {
    w.live.Some? ==>
      var l := w.live.value;
      && GoodState(l.state) && GoodState(l.anchor)
      && CallsOf(l.anchor.messages) == CallsOf(l.state.messages)
      && l.anchor.messages <= l.state.messages
      && TokensOk(l, w.trace)
      && (l.awaiting ==> UnmatchedToolCalls(l.state.messages) == [] && l.spawn == {})
      && (l.owned && !l.halted ==> w.rec.Some? && !w.rec.value.status.WaitingForApproval?)
      && (l.halted && w.rec.Some? && Clean(w.rec.value.status) ==> l.open == {} && l.executing == {})
      && (!l.owned ==> l.open == {} && l.executing == {} && l.spawn == {} && !l.awaiting && !l.halted)
  }

  function RecordIds(w: World): set<string> {
    if w.rec.Some? then Ids(CallsOf(w.rec.value.state.messages)) else {}
  }

  function LiveIds(w: World): set<string> {
    if w.live.Some? then Ids(CallsOf(w.live.value.state.messages)) else {}
  }

  function Mentioned(w: World): set<string> { RecordIds(w) + LiveIds(w) + Touched(w.trace) }

  /** Each call goes through its stages in order, is known to every transcript if the model
      issued it, and has a follow-up only once it is finished. */
  ghost predicate TraceOk(w: World) {
    && (forall id :: Progress(w.trace, id) != Broken)
    && (forall id :: id in Touched(w.trace) && !IsFollowUp(id) ==>
          id in RecordIds(w) && (w.live.Some? ==> id in LiveIds(w)))
    && (forall x :: FollowUpId(x) in Mentioned(w) ==> Progress(w.trace, x) == Finished)
    && (w.live.Some? ==> forall x :: x in w.live.value.spawn ==> FollowUpId(x) !in Mentioned(w))
  }

  predicate AskedOk(w: World) { forall state :: state in w.asked ==> Closed(state.messages) }

  ghost predicate Inv(w: World) { RecordOk(w) && LiveOk(w) && TraceOk(w) && AskedOk(w) }
}
