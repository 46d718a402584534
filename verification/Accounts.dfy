/** What a stored Run holds and costs, told from its history: which of the model's responses are in
    it, and that its bill is theirs (`harness/state.py`, `domain/usage.py`). */
module Accounts {
  import opened Domain
  import opened Transcript
  import opened Protocol
  import opened Lifecycle

  // ----- bookkeeping of the run state -----

  predicate Synthetic(m: Message) {
    m.role.Assistant? && |m.toolCalls| == 1 && IsFollowUp(m.toolCalls[0].id)
  }

  /** The assistant messages that came from a model call. */
  function ModelMessages(ms: seq<Message>): seq<Message> {
    if ms == [] then []
    else
      var m := ms[|ms| - 1];
      ModelMessages(ms[..|ms| - 1]) + (if m.role.Assistant? && !Synthetic(m) then [m] else [])
  }

  function SyntheticCount(ms: seq<Message>): nat {
    if ms == [] then 0
    else SyntheticCount(ms[..|ms| - 1]) + (if Synthetic(ms[|ms| - 1]) then 1 else 0)
  }

  function AssistantCount(ms: seq<Message>): nat {
    if ms == [] then 0
    else AssistantCount(ms[..|ms| - 1]) + (if ms[|ms| - 1].role.Assistant? then 1 else 0)
  }

  /** Billed usage of a list of model responses. */
  function Billed(replies: seq<ModelResponse>): RunUsage {
    if replies == [] then RunUsage(NO_USAGE, 0)
    else Billed(replies[..|replies| - 1]).Record(replies[|replies| - 1].usage)
  }

  datatype Part = InputPart | OutputPart | CachedPart | ReasoningPart

  function PartOf(usage: TokenUsage, part: Part): nat {
    match part
    case InputPart => usage.input
    case OutputPart => usage.output
    case CachedPart => usage.cached
    case ReasoningPart => usage.reasoning
  }

  /** One part of the usage of every response, added up. */
  function Sum(replies: seq<ModelResponse>, part: Part): nat {
    if replies == [] then 0 else PartOf(replies[0].usage, part) + Sum(replies[1..], part)
  }

  /** A response that came with a usage. */
  predicate Metered(r: ModelResponse) { r.usage.input + r.usage.output > 0 }

  /** `n` is the prompt size of the last response that came with a usage, or 0 if none did. */
  predicate IsLatestPrompt(replies: seq<ModelResponse>, n: nat) {
    if forall k :: 0 <= k < |replies| ==> !Metered(replies[k]) then n == 0
    else exists k :: 0 <= k < |replies| && Metered(replies[k]) && n == replies[k].usage.input
                     && forall l :: k < l < |replies| ==> !Metered(replies[l])
  }

  /** Each part of the bill is that part of all the responses, and the context is the latest prompt. */
  predicate IsBillFor(usage: RunUsage, replies: seq<ModelResponse>) {
    && usage.cumulative.input == Sum(replies, InputPart)
    && usage.cumulative.output == Sum(replies, OutputPart)
    && usage.cumulative.cached == Sum(replies, CachedPart)
    && usage.cumulative.reasoning == Sum(replies, ReasoningPart)
    && IsLatestPrompt(replies, usage.contextTokens)
  }

  lemma {:induction false} SumSnoc(replies: seq<ModelResponse>, r: ModelResponse, part: Part)
    ensures Sum(replies + [r], part) == Sum(replies, part) + PartOf(r.usage, part)
  {
    if replies != [] {
      SumSnoc(replies[1..], r, part);
      assert (replies + [r])[1..] == replies[1..] + [r];
    }
  }

  lemma LatestPromptSnoc(replies: seq<ModelResponse>, r: ModelResponse, n: nat)
    requires IsLatestPrompt(replies, n)
    ensures IsLatestPrompt(replies + [r], if Metered(r) then r.usage.input else n)
  {
    var all := replies + [r];
    if Metered(r) {
      assert all[|replies|] == r;
    } else if exists k :: 0 <= k < |replies| && Metered(replies[k]) {
      var k :| 0 <= k < |replies| && Metered(replies[k]) && n == replies[k].usage.input
               && forall l :: k < l < |replies| ==> !Metered(replies[l]);
      assert all[k] == replies[k] && forall l :: k < l < |all| ==> !Metered(all[l]);
    } else {
      assert forall k :: 0 <= k < |all| ==> !Metered(all[k]);
    }
  }

  /** Recording the responses one after the other makes that bill. */
  lemma {:induction false} BillIsTheSum(replies: seq<ModelResponse>)
    ensures IsBillFor(Billed(replies), replies)
  {
    if replies != [] {
      var init, last := replies[..|replies| - 1], replies[|replies| - 1];
      assert replies == init + [last];
      BillIsTheSum(init);
      SumSnoc(init, last, InputPart);
      SumSnoc(init, last, OutputPart);
      SumSnoc(init, last, CachedPart);
      SumSnoc(init, last, ReasoningPart);
      LatestPromptSnoc(init, last, Billed(init).contextTokens);
    }
  }

  /** `state` holds exactly the model turns `replies`: their messages, their number, their cost. */
  predicate Books(state: RunState, replies: seq<ModelResponse>) {
    && ModelMessages(state.messages) == seq(|replies|, i requires 0 <= i < |replies| => ReplyMessage(replies[i]))
    && state.completedModelCalls == |replies|
    && state.usage == Billed(replies)
  }

  // ----- which responses reached which state -----

  /** Positions in a history: the answers in the stored state and those in the live one. */
  datatype Heard = Heard(stored: seq<nat>, live: seq<nat>)

  /** An answer reaches the live state when it arrives, the stored one with the next write. */
  function HeardIn(log: seq<Action>): Heard {
    if log == [] then Heard([], [])
    else
      var h := HeardIn(log[..|log| - 1]);
      match log[|log| - 1]
      case Create(_, _, _) => Heard([], [])
      case Claim(_, _) => Heard(h.stored, h.stored)
      case Reply(_) => Heard(h.stored, h.live + [|log| - 1])
      case Swap(_) => Heard(h.live, h.live)
      case Launch(_) => Heard(h.live, h.live)
      case Save(_) => Heard(h.live, h.live)
      case Halt(_, _, _) => Heard(h.live, h.live)
      case _ => h
  }

  /** Positions of answers, in order. */
  predicate AreAnswers(log: seq<Action>, at: seq<nat>) {
    && (forall k :: 0 <= k < |at| ==> at[k] < |log| && log[at[k]].Reply?)
    && forall k, l :: 0 <= k < l < |at| ==> at[k] < at[l]
  }

  function Responses(log: seq<Action>, at: seq<nat>): seq<ModelResponse>
    requires AreAnswers(log, at)
  {
    seq(|at|, k requires 0 <= k < |at| => log[at[k]].response)
  }

  /** Every answer of a history. */
  function AllAnswers(log: seq<Action>): seq<nat> {
    if log == [] then []
    else AllAnswers(log[..|log| - 1]) + (if log[|log| - 1].Reply? then [|log| - 1] else [])
  }

  lemma AnswersLater(log: seq<Action>, a: Action, at: seq<nat>)
    requires AreAnswers(log, at)
    ensures AreAnswers(log + [a], at) && Responses(log + [a], at) == Responses(log, at)
    ensures a.Reply? ==>
      && AreAnswers(log + [a], at + [|log|])
      && Responses(log + [a], at + [|log|]) == Responses(log, at) + [a.response]
  {
  }

  lemma {:induction false} HeardAreAnswers(log: seq<Action>)
    ensures AreAnswers(log, HeardIn(log).stored) && AreAnswers(log, HeardIn(log).live)
  {
    if log != [] {
      var init, a := log[..|log| - 1], log[|log| - 1];
      assert log == init + [a];
      HeardAreAnswers(init);
      AnswersLater(init, a, HeardIn(init).stored);
      AnswersLater(init, a, HeardIn(init).live);
    }
  }

  // ----- single messages -----

  lemma CountSnoc(ms: seq<Message>, m: Message)
    ensures ModelMessages(ms + [m]) == if m.role.Assistant? && !Synthetic(m) then ModelMessages(ms) + [m] else ModelMessages(ms)
    ensures SyntheticCount(ms + [m]) == SyntheticCount(ms) + (if Synthetic(m) then 1 else 0)
    ensures AssistantCount(ms + [m]) == AssistantCount(ms) + (if m.role.Assistant? then 1 else 0)
  {
    assert (ms + [m])[..|ms|] == ms;
  }

  lemma BooksReply(state: RunState, replies: seq<ModelResponse>, r: ModelResponse)
    requires Books(state, replies) && forall c :: c in r.toolCalls ==> !IsFollowUp(c.id)
    ensures Books(AppendModelResponse(state, r), replies + [r])
  {
    CountSnoc(state.messages, ReplyMessage(r));
    assert (replies + [r])[..|replies|] == replies;
  }

  lemma BooksOther(state: RunState, replies: seq<ModelResponse>, m: Message)
    requires Books(state, replies) && (!m.role.Assistant? || Synthetic(m))
    ensures Books(state.(messages := state.messages + [m]), replies)
  {
    CountSnoc(state.messages, m);
  }

  lemma {:induction false} BooksFold(state: RunState, replies: seq<ModelResponse>, rs: seq<Resolved>)
    requires Books(state, replies)
    ensures Books(FoldResults(state, rs), replies)
  {
    if rs != [] {
      var last := rs[|rs| - 1];
      BooksFold(state, replies, rs[..|rs| - 1]);
      BooksOther(FoldResults(state, rs[..|rs| - 1]), replies, ToolMessage(last.call.id, last.result.content));
    }
  }

  /** Assistant messages are the completed model calls plus the synthesised ones. */
  lemma {:induction false} AssistantsCounted(ms: seq<Message>)
    ensures AssistantCount(ms) == |ModelMessages(ms)| + SyntheticCount(ms)
  {
    if ms != [] {
      AssistantsCounted(ms[..|ms| - 1]);
    }
  }

  // ----- histories -----

  /** The stored and the live state hold exactly these responses. */
  predicate HoldsBooks(w: World, stored: seq<ModelResponse>, live: seq<ModelResponse>) {
    && (w.rec.Some? ==> Books(w.rec.value.state, stored))
    && (w.live.Some? ==> Books(w.live.value.state, live) && Books(w.live.value.anchor, live))
  }

  lemma BooksCreate(w: World, prompt: string, skills: Skills, now: nat)
    requires CanCreate(w)
    ensures HoldsBooks(Created(w, prompt, skills, now), [], [])
  {
    var empty := WithRunSkills(EMPTY_STATE, skills);
    BooksOther(empty, [], UserMessage(prompt));
    assert [] + [UserMessage(prompt)] == [UserMessage(prompt)];
  }

  lemma BooksClaim(w: World, extra: Option<string>, skills: Option<Skills>, stored: seq<ModelResponse>, live: seq<ModelResponse>)
    requires CanClaim(w, extra) && HoldsBooks(w, stored, live)
    ensures HoldsBooks(Claimed(w, extra, skills), stored, stored)
  {
    var loaded := Loaded(w, skills);
    BooksFold(loaded, stored, Interrupted(UnmatchedToolCalls(loaded.messages)));
    if extra.Some? {
      BooksOther(Sealed(loaded), stored, UserMessage(extra.value));
    }
  }

  /** Actions that neither bring an answer nor write the live state. */
  predicate Silent(a: Action) {
    a.Compact? || a.FoldWhole? || a.Ask? || a.Open? || a.Execute? || a.Finish? || a.Commit? || a.Spawn?
    || a.SealInterrupt? || a.Leave?
  }

  lemma BooksSilent(w: World, a: Action, stored: seq<ModelResponse>, live: seq<ModelResponse>)
    requires Enabled(w, a) && Silent(a) && HoldsBooks(w, stored, live)
    ensures HoldsBooks(Apply(w, a), stored, live)
  {
    if a.Finish? {
      BooksOther(w.live.value.state, live, ToolMessage(a.call.id, a.result.content));
    } else if a.Spawn? {
      FollowUpIds(a.base, a.base);
      BooksOther(w.live.value.state, live, Message(Assistant, "", [a.synthetic], None, ""));
    } else if a.SealInterrupt? {
      var state := w.rec.value.state;
      BooksFold(state, stored, Interrupted(UnmatchedToolCalls(state.messages)));
    }
  }

  lemma BooksStep(w: World, a: Action, stored: seq<ModelResponse>, live: seq<ModelResponse>)
    requires Enabled(w, a) && HoldsBooks(w, stored, live)
    ensures match a
            case Create(_, _, _) => HoldsBooks(Apply(w, a), [], [])
            case Claim(_, _) => HoldsBooks(Apply(w, a), stored, stored)
            case Reply(r) => HoldsBooks(Apply(w, a), stored, live + [r])
            case Swap(_) => HoldsBooks(Apply(w, a), live, live)
            case Launch(_) => HoldsBooks(Apply(w, a), live, live)
            case Save(_) => HoldsBooks(Apply(w, a), live, live)
            case Halt(_, _, _) => HoldsBooks(Apply(w, a), live, live)
            case _ => HoldsBooks(Apply(w, a), stored, live)
  {
    if a.Create? {
      BooksCreate(w, a.prompt, a.skills, a.now);
    } else if a.Claim? {
      BooksClaim(w, a.extra, a.reselected, stored, live);
    } else if a.Reply? {
      BooksReply(w.live.value.state, live, a.response);
    } else if Silent(a) {
      BooksSilent(w, a, stored, live);
    }
  }

  lemma {:induction false} HistoryBooks(log: seq<Action>)
    requires Replay(log).Some?
    ensures AreAnswers(log, HeardIn(log).stored) && AreAnswers(log, HeardIn(log).live)
    ensures HoldsBooks(Replay(log).value, Responses(log, HeardIn(log).stored), Responses(log, HeardIn(log).live))
  {
    HeardAreAnswers(log);
    if log != [] {
      var init, a := log[..|log| - 1], log[|log| - 1];
      assert log == init + [a];
      HistoryBooks(init);
      var h := HeardIn(init);
      AnswersLater(init, a, h.stored);
      AnswersLater(init, a, h.live);
      BooksStep(Replay(init).value, a, Responses(init, h.stored), Responses(init, h.live));
    }
  }

  /** Across all resumes: the model messages of the stored state are those of certain answers of the
      history, in order; it counts exactly them, each part of its usage is the sum of theirs, its context
      is the latest prompt among them, and its assistant messages are theirs plus the synthesised ones. */
  lemma AccountsBalance(log: seq<Action>)
    requires Replay(log).Some? && Replay(log).value.rec.Some?
    ensures var state, at := Replay(log).value.rec.value.state, HeardIn(log).stored;
      && AreAnswers(log, at)
      && ModelMessages(state.messages) == seq(|at|, k requires 0 <= k < |at| => ReplyMessage(log[at[k]].response))
      && state.completedModelCalls == |at|
      && state.usage == Billed(Responses(log, at)) && IsBillFor(state.usage, Responses(log, at))
      && AssistantCount(state.messages) == state.completedModelCalls + SyntheticCount(state.messages)
  {
    HistoryBooks(log);
    BillIsTheSum(Responses(log, HeardIn(log).stored));
    AssistantsCounted(Replay(log).value.rec.value.state.messages);
  }

  // ----- nothing is lost -----

  predicate SavedAfter(log: seq<Action>, i: nat) {
    i < |log| && log[i].Reply? ==> i + 1 < |log| && log[i + 1].Save?
  }

  /** Every answer is written at once, as the checkpoint handler does. */
  ghost predicate AnswersSaved(log: seq<Action>) { forall i: nat {:trigger SavedAfter(log, i)} :: SavedAfter(log, i) }

  predicate SavedSoFar(log: seq<Action>) {
    forall i :: 0 <= i < |log| - 1 && log[i].Reply? ==> log[i + 1].Save?
  }

  /** Where the answers of such a history are, also between an answer and its write. */
  predicate AllHeard(log: seq<Action>, w: World) {
    var h, all, waits := HeardIn(log), AllAnswers(log), log != [] && log[|log| - 1].Reply?;
    && (w.live.Some? ==> h.live == all)
    && (waits ==> all != [] && w.live.Some?)
    && h.stored == (if waits then all[..|all| - 1] else all)
    && (w.rec.None? ==> all == [])
  }

  lemma {:induction false} SavedAreHeard(log: seq<Action>)
    requires Replay(log).Some? && SavedSoFar(log)
    ensures AllHeard(log, Replay(log).value)
  {
    if log != [] {
      var init, a := log[..|log| - 1], log[|log| - 1];
      assert log == init + [a];
      assert SavedSoFar(init);
      SavedAreHeard(init);
      HistoryKeeps(init);
      if init != [] && init[|init| - 1].Reply? {
        assert log[|init| - 1].Reply? && log[|init|].Save?;
      }
      HeardStep(init, Replay(init).value, a);
    }
  }

  lemma HeardStep(init: seq<Action>, w: World, a: Action)
    requires Enabled(w, a) && AllHeard(init, w) && RecordOk(w)
    requires init != [] && init[|init| - 1].Reply? ==> a.Save?
    ensures AllHeard(init + [a], Apply(w, a))
  {
    assert (init + [a])[..|init|] == init;
  }

  /** If every answer is written at once, the stored state holds every answer the Run ever received and
      bills each of their parts in full. */
  lemma EveryAnswerIsBilled(log: seq<Action>)
    requires Replay(log).Some? && Replay(log).value.rec.Some? && AnswersSaved(log)
    ensures HeardIn(log).stored == AllAnswers(log) && AreAnswers(log, AllAnswers(log))
    ensures Replay(log).value.rec.value.state.usage == Billed(Responses(log, AllAnswers(log)))
    ensures IsBillFor(Replay(log).value.rec.value.state.usage, Responses(log, AllAnswers(log)))
    ensures Replay(log).value.rec.value.state.completedModelCalls == |AllAnswers(log)|
  {
    forall i | 0 <= i < |log| && log[i].Reply? ensures i + 1 < |log| && log[i + 1].Save? {
      assert SavedAfter(log, i);
    }
    SavedAreHeard(log);
    AccountsBalance(log);
  }
}
