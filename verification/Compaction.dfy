/** What a request shows of the transcript and how its oldest part is folded into a summary
    (`harness/compaction.py`, `harness/context.py`). */
module Compaction {
  import opened Domain
  import opened Transcript
  import opened Tokens

  // ----- assembling a request -----

  function SystemMessage(prompt: string): Message { Message(System, prompt, [], None, "") }

  function SummaryMessage(summary: string): Message {
    Message(User, "Summary of the earlier conversation (older messages omitted):\n\n" + summary, [], None, "")
  }

  /** The part of the transcript that is sent word for word; a slice past the end is empty. */
  function Verbatim(state: RunState): seq<Message> {
    if Already(state) <= |state.messages| then state.messages[Already(state)..] else []
  }

  function Body(state: RunState): seq<Message> {
    match state.compaction
    case None => state.messages
    case Some(c) => [SummaryMessage(c.summary)] + Verbatim(state)
  }

  function Assemble(state: RunState, prompt: string): seq<Message> {
    [SystemMessage(prompt)] + Body(state)
  }

  // ----- where to cut -----

  /** Content tokens of the messages from `i` on. */
  function TailTokens(counter: TokenCounter, ms: seq<Message>, i: nat): nat
    decreases |ms| - i
  {
    if i >= |ms| then 0 else counter.countText(CountedContent(counter, ms[i])) + TailTokens(counter, ms, i + 1)
  }

  /** `s` starts the shortest tail that exceeds `keep`, looking back no further than `from`. */
  predicate ShortestOverflow(counter: TokenCounter, ms: seq<Message>, keep: int, from: nat, s: nat) {
    && from <= s < |ms| && TailTokens(counter, ms, s) > keep
    && forall k :: s < k <= |ms| ==> TailTokens(counter, ms, k) <= keep
  }

  /** `cut` is the first message at or after `s` that is not a tool result. */
  predicate SnapsTo(ms: seq<Message>, s: nat, cut: nat) {
    && s <= cut <= |ms|
    && (forall k :: s <= k < cut ==> ms[k].role.Tool?)
    && (cut < |ms| ==> !ms[cut].role.Tool?)
  }

  ghost predicate IsCut(counter: TokenCounter, state: RunState, keep: int, cut: nat) {
    && Already(state) < cut < |state.messages|
    && exists s :: ShortestOverflow(counter, state.messages, keep, Already(state), s) && SnapsTo(state.messages, s, cut)
  }

  /** What every automatic cut satisfies, whatever the counter and the keep budget. */
  predicate CutPoint(state: RunState, cut: nat) {
    Already(state) < cut < |state.messages| && !state.messages[cut].role.Tool?
  }

  lemma {:induction false} TailGrows(counter: TokenCounter, ms: seq<Message>, i: nat, j: nat)
    requires i <= j
    ensures TailTokens(counter, ms, j) <= TailTokens(counter, ms, i)
    decreases j - i
  {
    if i < j {
      TailGrows(counter, ms, i + 1, j);
    }
  }

  /** There is at most one place to cut, and what stays beyond its first message fits. */
  lemma CutIsUnique(counter: TokenCounter, state: RunState, keep: int, a: nat, b: nat)
    requires IsCut(counter, state, keep, a) && IsCut(counter, state, keep, b)
    ensures a == b && TailTokens(counter, state.messages, a + 1) <= keep
  {
    var ms := state.messages;
    var s :| ShortestOverflow(counter, ms, keep, Already(state), s) && SnapsTo(ms, s, a);
    var t :| ShortestOverflow(counter, ms, keep, Already(state), t) && SnapsTo(ms, t, b);
    assert s == t;
  }

  /** The backward scan shared by the automatic and the manual path. */
  method Cutoff(counter: TokenCounter, state: RunState, keep: int) returns (r: Option<nat>)
    requires keep >= 0
    ensures r.Some? ==> IsCut(counter, state, keep, r.value)
    ensures r.None? ==> forall cut :: !IsCut(counter, state, keep, cut)
  {
    var ms, already := state.messages, Already(state);
    var kept, i := 0, |ms|;
    while i > already && kept <= keep
      invariant 0 <= i <= |ms| && (i < |ms| ==> already <= i)
      invariant kept == TailTokens(counter, ms, i)
      invariant forall k :: i < k <= |ms| ==> TailTokens(counter, ms, k) <= keep
    {
      i := i - 1;
      kept := kept + counter.countText(CountedContent(counter, ms[i]));
    }
    if kept <= keep {
      forall s | already <= s < |ms| ensures !ShortestOverflow(counter, ms, keep, already, s) {
        TailGrows(counter, ms, i, s);
      }
      return None;
    }
    assert ShortestOverflow(counter, ms, keep, already, i);
    var cut := i;
    while cut < |ms| && ms[cut].role.Tool?
      invariant i <= cut <= |ms| && forall k :: i <= k < cut ==> ms[k].role.Tool?
    {
      cut := cut + 1;
    }
    assert SnapsTo(ms, i, cut);
    OnlyCut(counter, state, keep, i, cut);
    r := if already < cut < |ms| then Some(cut) else None;
  }

  lemma OnlyCut(counter: TokenCounter, state: RunState, keep: int, s: nat, cut: nat)
    requires ShortestOverflow(counter, state.messages, keep, Already(state), s) && SnapsTo(state.messages, s, cut)
    ensures forall other :: IsCut(counter, state, keep, other) ==> other == cut
  {
    var ms := state.messages;
    forall other | IsCut(counter, state, keep, other) ensures other == cut {
      var t :| ShortestOverflow(counter, ms, keep, Already(state), t) && SnapsTo(ms, t, other);
      assert s == t;
    }
  }

  // ----- the handler -----

  datatype Compacted = Compacted(compaction: CompactionState, messagesFolded: int, usage: TokenUsage)

  /** One summarisation call: shown the earlier summary and the messages newly dropped. */
  type Summarizer = (Option<string>, seq<Message>) -> Option<ModelResponse>

  function EarlierSummary(state: RunState): Option<string> {
    if state.compaction.Some? then Some(state.compaction.value.summary) else None
  }

  /** The proposal for folding up to `cut`; an empty summary proposes nothing. */
  function Proposal(state: RunState, cut: nat, summarize: Summarizer): Option<Compacted>
    requires Already(state) <= cut <= |state.messages|
  {
    var response := summarize(EarlierSummary(state), state.messages[Already(state)..cut]);
    if response.None? || response.value.content == "" then None
    else Some(Compacted(CompactionState(response.value.content, cut), cut - Already(state), response.value.usage))
  }

  predicate Mute(answer: Option<ModelResponse>) { answer.None? || answer.value.content == "" }

  /** `p` reports one summarisation: shown the summary so far and exactly the messages between what it
      stands for and the cut, the summariser answered with the new summary, and that many were folded. */
  predicate ReportsFold(state: RunState, summarize: Summarizer, p: Compacted) {
    var previous := if state.compaction.Some? then Some(state.compaction.value.summary) else None;
    var from, cut := if state.compaction.Some? then state.compaction.value.throughIndex else 0, p.compaction.throughIndex;
    && from <= cut <= |state.messages| && p.messagesFolded == cut - from
    && var answer := summarize(previous, state.messages[from..cut]);
       !Mute(answer) && p.compaction.summary == answer.value.content && p.usage == answer.value.usage
  }

  lemma ProposalReports(state: RunState, cut: nat, summarize: Summarizer)
    requires Already(state) <= cut <= |state.messages|
    ensures match Proposal(state, cut, summarize)
            case Some(p) => p.compaction.throughIndex == cut && ReportsFold(state, summarize, p)
            case None =>
              && (state.compaction.None? ==> Mute(summarize(None, state.messages[..cut])))
              && (state.compaction.Some? ==>
                    Mute(summarize(Some(state.compaction.value.summary),
                                   state.messages[state.compaction.value.throughIndex..cut])))
  {
    assert state.messages[0..cut] == state.messages[..cut];
  }

  class CompactionHandler {
    const counter: TokenCounter
    const triggerTokens: int
    const keepRecentTokens: nat

    constructor (counter: TokenCounter, triggerTokens: int, keepRecentTokens: int)
      ensures this.counter == counter && this.triggerTokens == triggerTokens
      ensures this.keepRecentTokens >= 1 && this.keepRecentTokens >= keepRecentTokens
      ensures this.keepRecentTokens == 1 || this.keepRecentTokens == keepRecentTokens
    {
      this.counter, this.triggerTokens := counter, triggerTokens;
      this.keepRecentTokens := if keepRecentTokens > 1 then keepRecentTokens else 1;
    }

    /** What the handler must answer: the proposal at the one cut there is, over the trigger only. */
    ghost function Proposed(request: ModelRequest, state: RunState, summarize: Summarizer): (r: Option<Compacted>)
      ensures r.Some? ==> CutPoint(state, r.value.compaction.throughIndex)
    {
      if RequestTokens(counter, request) > triggerTokens && exists cut: nat :: IsCut(counter, state, keepRecentTokens, cut) then
        var cut: nat :| IsCut(counter, state, keepRecentTokens, cut);
        Proposal(state, cut, summarize)
      else None
    }

    /** `_on_before_model`: a proposal only for a request over the trigger that has a cut. */
    method OnBeforeModel(request: ModelRequest, state: RunState, summarize: Summarizer) returns (r: Option<Compacted>)
      ensures r == Proposed(request, state, summarize)
      ensures r.Some? ==>
        && RequestTokens(counter, request) > triggerTokens
        && IsCut(counter, state, keepRecentTokens, r.value.compaction.throughIndex)
        && r == Proposal(state, r.value.compaction.throughIndex, summarize) && ReportsFold(state, summarize, r.value)
      ensures r.None? && RequestTokens(counter, request) > triggerTokens ==>
        forall cut :: IsCut(counter, state, keepRecentTokens, cut) ==> Proposal(state, cut, summarize).None?
    {
      var tokens := CountRequestTokens(counter, request);
      if tokens <= triggerTokens {
        return None;
      }
      var cutoff := Cutoff(counter, state, keepRecentTokens);
      if cutoff.None? {
        return None;
      }
      r := Proposal(state, cutoff.value, summarize);
      ProposalReports(state, cutoff.value, summarize);
      forall cut | IsCut(counter, state, keepRecentTokens, cut) ensures cut == cutoff.value {
        CutIsUnique(counter, state, keepRecentTokens, cut, cutoff.value);
      }
    }
  }

  /** `force_compact`: with no keep window everything is folded. */
  method ForceCompact(counter: TokenCounter, state: RunState, keepRecentTokens: int, summarize: Summarizer)
    returns (r: Option<Compacted>)
    ensures r.Some? ==>
      var cut := r.value.compaction.throughIndex;
      && Already(state) < cut <= |state.messages| && r == Proposal(state, cut, summarize)
      && ReportsFold(state, summarize, r.value)
      && (if keepRecentTokens > 0 then IsCut(counter, state, keepRecentTokens, cut) else cut == |state.messages|)
    ensures r.None? && keepRecentTokens <= 0 && Already(state) < |state.messages| ==>
      Proposal(state, |state.messages|, summarize).None?
    ensures r.None? && keepRecentTokens > 0 ==>
      forall cut :: IsCut(counter, state, keepRecentTokens, cut) ==> Proposal(state, cut, summarize).None?
  {
    if Already(state) >= |state.messages| {
      return None;
    }
    var cut := |state.messages|;
    if keepRecentTokens > 0 {
      var cutoff := Cutoff(counter, state, keepRecentTokens);
      if cutoff.None? {
        return None;
      }
      cut := cutoff.value;
      forall other | IsCut(counter, state, keepRecentTokens, other) ensures other == cut {
        CutIsUnique(counter, state, keepRecentTokens, other, cut);
      }
    }
    r := Proposal(state, cut, summarize);
    ProposalReports(state, cut, summarize);
  }

  // ----- runs of appends and compactions -----

  datatype Step = Grow(message: Message) | Fold(compaction: CompactionState)

  /** Both paths cut strictly beyond what is already folded. */
  predicate StepOk(state: RunState, step: Step) {
    step.Fold? ==> Already(state) < step.compaction.throughIndex <= |state.messages|
  }

  function Next(state: RunState, step: Step): RunState {
    match step
    case Grow(m) => state.(messages := state.messages + [m])
    case Fold(c) => state.(compaction := Some(c))
  }

  predicate StepsOk(state: RunState, steps: seq<Step>)
    decreases |steps|
  {
    steps == [] || (StepOk(state, steps[0]) && StepsOk(Next(state, steps[0]), steps[1..]))
  }

  function AfterSteps(state: RunState, steps: seq<Step>): RunState
    decreases |steps|
  {
    if steps == [] then state else AfterSteps(Next(state, steps[0]), steps[1..])
  }

  /** Everything shown to the summariser as newly dropped, in order. */
  function Summarised(state: RunState, steps: seq<Step>): seq<Message>
    requires StepsOk(state, steps)
    decreases |steps|
  {
    if steps == [] then []
    else (match steps[0]
          case Grow(_) => []
          case Fold(c) => state.messages[Already(state)..c.throughIndex])
         + Summarised(Next(state, steps[0]), steps[1..])
  }

  /** The sum of the reported `messages_folded`. */
  function MessagesFolded(state: RunState, steps: seq<Step>): int
    decreases |steps|
  {
    if steps == [] then 0
    else (match steps[0]
          case Grow(_) => 0
          case Fold(c) => c.throughIndex - Already(state))
         + MessagesFolded(Next(state, steps[0]), steps[1..])
  }

  lemma {:induction false} RunFoldsOnce(state: RunState, steps: seq<Step>)
    requires StepsOk(state, steps) && Already(state) <= |state.messages|
    ensures var end := AfterSteps(state, steps);
      && state.messages <= end.messages && Already(state) <= Already(end) <= |end.messages|
      && Summarised(state, steps) == end.messages[Already(state)..Already(end)]
      && MessagesFolded(state, steps) == Already(end) - Already(state)
    decreases |steps|
  {
    if steps != [] {
      var next := Next(state, steps[0]);
      RunFoldsOnce(next, steps[1..]);
      var end := AfterSteps(next, steps[1..]);
      if steps[0].Fold? {
        var from, to := Already(state), steps[0].compaction.throughIndex;
        assert state.messages[from..to] == end.messages[from..to];
        assert end.messages[from..to] + end.messages[to..Already(end)] == end.messages[from..Already(end)];
      }
    }
  }

  /** Over any run of appends and compactions from a fresh state, every message was handed to the
      summariser exactly once, in order, or is still sent word for word; and the reported counts
      add up to the boundary. */
  lemma FoldedOnceOrVerbatim(state: RunState, steps: seq<Step>)
    requires StepsOk(state, steps) && state.compaction.None?
    ensures Summarised(state, steps) + Verbatim(AfterSteps(state, steps)) == AfterSteps(state, steps).messages
    ensures MessagesFolded(state, steps) == Already(AfterSteps(state, steps))
  {
    RunFoldsOnce(state, steps);
  }

  // ----- runs of appends and proposals -----

  /** A message is appended, or an operation folds up to `cut` with some summariser. */
  datatype Move = Said(message: Message) | Folds(cut: nat, summarize: Summarizer)

  predicate MoveOk(state: RunState, move: Move) { move.Folds? ==> Already(state) < move.cut <= |state.messages| }

  /** What the operation proposes. */
  function ProposalOf(state: RunState, move: Move): Option<Compacted>
    requires MoveOk(state, move)
  {
    match move
    case Said(_) => None
    case Folds(cut, summarize) => Proposal(state, cut, summarize)
  }

  function AfterMove(state: RunState, move: Move): RunState
    requires MoveOk(state, move)
  {
    match move
    case Said(m) => state.(messages := state.messages + [m])
    case Folds(_, _) =>
      var p := ProposalOf(state, move);
      if p.Some? then state.(compaction := Some(p.value.compaction)) else state
  }

  predicate MovesOk(state: RunState, moves: seq<Move>)
    decreases |moves|
  {
    moves == [] || (MoveOk(state, moves[0]) && MovesOk(AfterMove(state, moves[0]), moves[1..]))
  }

  function AfterMoves(state: RunState, moves: seq<Move>): RunState
    requires MovesOk(state, moves)
    decreases |moves|
  {
    if moves == [] then state else AfterMoves(AfterMove(state, moves[0]), moves[1..])
  }

  /** What was reported, in order. */
  function Reported(state: RunState, moves: seq<Move>): seq<Compacted>
    requires MovesOk(state, moves)
    decreases |moves|
  {
    if moves == [] then []
    else (var p := ProposalOf(state, moves[0]); if p.Some? then [p.value] else [])
         + Reported(AfterMove(state, moves[0]), moves[1..])
  }

  /** The sum of the reported counts. */
  function CountFolded(reports: seq<Compacted>): int {
    if reports == [] then 0 else reports[0].messagesFolded + CountFolded(reports[1..])
  }

  /** One summarisation: what the summariser was shown and what it answered. */
  datatype Showing = Showing(previous: Option<string>, dropped: seq<Message>, answer: ModelResponse)

  function AllDropped(showings: seq<Showing>): seq<Message> {
    if showings == [] then [] else showings[0].dropped + AllDropped(showings[1..])
  }

  /** Some summariser of the run was really shown this and answered that. */
  predicate Happened(moves: seq<Move>, s: Showing) {
    exists i :: 0 <= i < |moves| && moves[i].Folds? && moves[i].summarize(s.previous, s.dropped) == Some(s.answer)
  }

  /** The report agrees with what the summariser answered. */
  predicate Agrees(s: Showing, p: Compacted) {
    s.answer.content == p.compaction.summary != "" && s.answer.usage == p.usage
  }

  /** Each summarisation is shown what the one before it answered; the first is shown `first`. */
  predicate Chained(showings: seq<Showing>, first: Option<string>) {
    showings == [] || (showings[0].previous == first && Chained(showings[1..], Some(showings[0].answer.content)))
  }

  /** The summarisations of a run account for its reports. */
  predicate Account(moves: seq<Move>, reports: seq<Compacted>, showings: seq<Showing>) {
    && |showings| == |reports|
    && forall i :: 0 <= i < |reports| ==> Happened(moves, showings[i]) && Agrees(showings[i], reports[i])
  }

  /** The showing behind a proposal. */
  function ShownFor(state: RunState, move: Move): (s: Showing)
    requires MoveOk(state, move) && ProposalOf(state, move).Some?
    ensures var p := ProposalOf(state, move).value;
      && Happened([move], s) && Agrees(s, p)
      && p.messagesFolded == |s.dropped| && p.compaction.throughIndex == Already(state) + |s.dropped|
  {
    ProposalReports(state, move.cut, move.summarize);
    var dropped := state.messages[Already(state)..move.cut];
    var answer := move.summarize(EarlierSummary(state), dropped).value;
    assert [move][0].summarize(EarlierSummary(state), dropped) == Some(answer);
    Showing(EarlierSummary(state), dropped, answer)
  }

  function Showings(state: RunState, moves: seq<Move>): seq<Showing>
    requires MovesOk(state, moves)
    decreases |moves|
  {
    if moves == [] then []
    else (if ProposalOf(state, moves[0]).Some? then [ShownFor(state, moves[0])] else [])
         + Showings(AfterMove(state, moves[0]), moves[1..])
  }

  lemma HappenedLater(move: Move, rest: seq<Move>, s: Showing)
    ensures Happened(rest, s) || Happened([move], s) ==> Happened([move] + rest, s)
  {
    var all := [move] + rest;
    assert all[0] == move;
    if Happened(rest, s) {
      var i :| 0 <= i < |rest| && rest[i].Folds? && rest[i].summarize(s.previous, s.dropped) == Some(s.answer);
      assert all[i + 1] == rest[i];
    }
  }

  lemma AccountGrows(move: Move, rest: seq<Move>, reports: seq<Compacted>, showings: seq<Showing>, p: Compacted, s: Showing)
    requires Account(rest, reports, showings)
    ensures Account([move] + rest, reports, showings)
    ensures Happened([move], s) && Agrees(s, p) ==> Account([move] + rest, [p] + reports, [s] + showings)
  {
    forall i | 0 <= i < |showings| ensures Happened([move] + rest, showings[i]) {
      HappenedLater(move, rest, showings[i]);
    }
    HappenedLater(move, rest, s);
  }

  /** Behind each report of a run is a summariser that was really shown what it accounts for, the summary
      returned before it included. */
  lemma {:induction false} ReportsHappened(state: RunState, moves: seq<Move>)
    requires MovesOk(state, moves)
    ensures Account(moves, Reported(state, moves), Showings(state, moves))
    ensures Chained(Showings(state, moves), EarlierSummary(state))
    decreases |moves|
  {
    if moves != [] {
      var next, rest := AfterMove(state, moves[0]), moves[1..];
      assert moves == [moves[0]] + rest;
      ReportsHappened(next, rest);
      var reports, showings := Reported(next, rest), Showings(next, rest);
      if ProposalOf(state, moves[0]).Some? {
        var p, s := ProposalOf(state, moves[0]).value, ShownFor(state, moves[0]);
        AccountGrows(moves[0], rest, reports, showings, p, s);
        assert Showings(state, moves) == [s] + showings;
        assert ([s] + showings)[1..] == showings;
      } else {
        AccountGrows(moves[0], rest, reports, showings, NO_REPORT, NO_SHOWING);
        assert [] + reports == reports && [] + showings == showings;
      }
    }
  }

  const NO_REPORT := Compacted(CompactionState("", 0), 0, NO_USAGE)

  const NO_SHOWING := Showing(None, [], ModelResponse("", [], NO_USAGE, ""))

  lemma OneMove(state: RunState, move: Move)
    requires MoveOk(state, move) && Already(state) <= |state.messages|
    ensures var next, p := AfterMove(state, move), ProposalOf(state, move);
      && Already(state) <= Already(next) <= |next.messages| && state.messages <= next.messages
      && (p.None? ==> Already(next) == Already(state))
      && (p.Some? ==>
            && p.value.messagesFolded == Already(next) - Already(state)
            && next.messages == state.messages
            && ShownFor(state, move).dropped == state.messages[Already(state)..Already(next)])
  {
  }

  lemma Slices(a: seq<Message>, b: seq<Message>, i: nat, j: nat, k: nat)
    requires a <= b && i <= j <= |a| && j <= k <= |b|
    ensures a[i..j] + b[j..k] == b[i..k]
  {
  }

  lemma FirstReport(p: Compacted, reports: seq<Compacted>, s: Showing, showings: seq<Showing>)
    ensures CountFolded([p] + reports) == p.messagesFolded + CountFolded(reports)
    ensures AllDropped([s] + showings) == s.dropped + AllDropped(showings)
    ensures [] + reports == reports && [] + showings == showings
  {
  }

  /** In any run in which each fold is what the operation proposes, the reported counts add up to how far
      the boundary moved, and the messages shown as newly dropped are, in order, exactly those it moved
      over. */
  lemma {:induction false} RunReportsWhatItFolds(state: RunState, moves: seq<Move>)
    requires MovesOk(state, moves) && Already(state) <= |state.messages|
    ensures var end := AfterMoves(state, moves);
      && Already(state) <= Already(end) <= |end.messages| && state.messages <= end.messages
      && CountFolded(Reported(state, moves)) == Already(end) - Already(state)
      && AllDropped(Showings(state, moves)) == end.messages[Already(state)..Already(end)]
    decreases |moves|
  {
    if moves != [] {
      var next, end, p := AfterMove(state, moves[0]), AfterMoves(state, moves), ProposalOf(state, moves[0]);
      var reports, showings := Reported(next, moves[1..]), Showings(next, moves[1..]);
      OneMove(state, moves[0]);
      RunReportsWhatItFolds(next, moves[1..]);
      FirstReport(if p.Some? then p.value else NO_REPORT, reports, if p.Some? then ShownFor(state, moves[0]) else NO_SHOWING,
                  showings);
      if p.Some? {
        Slices(state.messages, end.messages, Already(state), Already(next), Already(end));
      }
    }
  }

  /** From a fresh state: the counts reported add up to the final boundary, everything before it was shown
      to a summariser once, in order, and the rest is still sent word for word. */
  lemma EveryFoldIsReported(state: RunState, moves: seq<Move>)
    requires MovesOk(state, moves) && state.compaction.None?
    ensures var end := AfterMoves(state, moves);
      && CountFolded(Reported(state, moves)) == Already(end) <= |end.messages|
      && AllDropped(Showings(state, moves)) == end.messages[..Already(end)]
      && AllDropped(Showings(state, moves)) + Verbatim(end) == end.messages
      && Account(moves, Reported(state, moves), Showings(state, moves)) && Chained(Showings(state, moves), None)
  {
    RunReportsWhatItFolds(state, moves);
    ReportsHappened(state, moves);
  }

  /** Only the previous summary and the newly dropped messages matter: summarisers that agree on them
      propose the same. */
  lemma SameShownSameProposal(state: RunState, cut: nat, a: Summarizer, b: Summarizer)
    requires Already(state) <= cut <= |state.messages|
    requires state.compaction.None? ==> a(None, state.messages[..cut]) == b(None, state.messages[..cut])
    requires state.compaction.Some? ==>
      var c := state.compaction.value;
      a(Some(c.summary), state.messages[c.throughIndex..cut]) == b(Some(c.summary), state.messages[c.throughIndex..cut])
    ensures Proposal(state, cut, a) == Proposal(state, cut, b)
  {
    assert state.messages[0..cut] == state.messages[..cut];
  }
}
