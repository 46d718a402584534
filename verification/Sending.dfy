/** What really leaves for the model: what a request shows, and that it keeps to the budget
    (`harness/context.py`, `harness/budget.py`, `events/loop.py`). */
module Sending {
  import opened Domain
  import opened Transcript
  import opened Protocol
  import opened Lifecycle
  import opened Tokens
  import opened Budget
  import opened Compaction
  import opened Hub
  import opened Pipeline
  import opened Outcomes
  import opened Loop

  predicate EndsWith(text: string, end: string) { |end| <= |text| && text[|text| - |end|..] == end }

  /** A request opens with the system prompt; a summary, if there is one, follows as the user's words; the
      messages it does not stand for come last, word for word. */
  lemma RequestShows(state: RunState, prompt: string)
    requires GoodState(state)
    ensures var ms, folded := Assemble(state, prompt), if state.compaction.Some? then state.compaction.value.throughIndex else 0;
      && ms != [] && ms[0] == Message(System, prompt, [], None, "")
      && (state.compaction.None? ==> ms[1..] == state.messages)
      && (state.compaction.Some? ==>
            && |ms| >= 2 && ms[1].role.User? && EndsWith(ms[1].content, state.compaction.value.summary)
            && ms[1].toolCalls == [] && ms[1].toolCallId.None?
            && state.messages[..folded] + ms[2..] == state.messages)
  {
    if state.compaction.Some? {
      assert Assemble(state, prompt)[2..] == Verbatim(state);
    } else {
      assert Assemble(state, prompt)[1..] == state.messages;
    }
  }

  /** The system prompt and the schemas of a frame, alone. */
  function Base(frame: Frame, state: RunState): ModelRequest {
    ModelRequest([Message(System, frame.prompt(state), [], None, "")], frame.schemas)
  }

  /** A budget that knows its workspace. */
  predicate InForce(budget: TokenBudget?)
    reads if budget == null then {} else {budget}
  {
    budget != null && budget.counter.Some? && budget.config.Some?
  }

  /** Whatever a visit sent: once the budget knows its workspace, a request is within the input budget if
      and only if the system prompt and the schemas alone are; before that it leaves untrimmed. */
  lemma SentWithinBudget(hub: EventHub, frame: Frame, before: seq<Basis>)
    requires hub.Valid() && MadeSince(frame, LimitOf(frame), before, hub.basis, hub.asked)
    ensures |hub.sent| == |hub.asked|
    ensures InForce(frame.budget) ==>
      var counter, budget := frame.budget.counter.value, frame.budget.inputBudget;
      forall i :: |before| <= i < |hub.sent| ==>
        (RequestTokens(counter, hub.sent[i]) <= budget <==> RequestTokens(counter, Base(frame, hub.asked[i])) <= budget)
    ensures !InForce(frame.budget) ==>
      forall i :: |before| <= i < |hub.sent| ==>
        hub.sent[i] == ModelRequest(Assemble(hub.asked[i], frame.prompt(hub.asked[i])), frame.schemas)
  {
    EverySentRequestFits(hub);
    forall i | |before| <= i < |hub.sent| ensures hub.sent[i] == RequestOf(BasisOf(frame, LimitOf(frame), hub.asked[i]), hub.asked[i]) {
      assert SentAt(hub.sent, hub.basis, hub.asked, i);
    }
  }

  /** A turn compacts if and only if there is a handler, the request that would leave untrimmed exceeds its
      trigger, there is a place to cut, and the summariser, shown the summary so far and what the cut newly
      drops, answers with something. */
  lemma CompactsIff(frame: Frame, start: RunState, turn: Turn)
    ensures Proposes(frame, start, turn).Some? <==>
            && frame.compactor != null
            && RequestTokens(frame.compactor.counter, ModelRequest(Assemble(start, frame.prompt(start)), frame.schemas))
               > frame.compactor.triggerTokens
            && exists cut: nat :: IsCut(frame.compactor.counter, start, frame.compactor.keepRecentTokens, cut)
                 && !Mute(turn.summarize(if start.compaction.Some? then Some(start.compaction.value.summary) else None,
                                         start.messages[Already(start)..cut]))
  {
    if frame.compactor != null {
      var counter, keep := frame.compactor.counter, frame.compactor.keepRecentTokens;
      forall a: nat, b: nat | IsCut(counter, start, keep, a) && IsCut(counter, start, keep, b) ensures a == b {
        CutIsUnique(counter, start, keep, a, b);
      }
    }
  }
}
