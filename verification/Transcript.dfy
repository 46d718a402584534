/** The transcript operations of `harness/state.py` and the shape every transcript keeps. */
module Transcript {
  import opened Domain

  const INTERRUPTED_TOOL_RESULT :=
    "Tool execution was interrupted before it completed; its effect is unknown."

  // ----- the operations -----

  function UserMessage(content: string): Message { Message(User, content, [], None, "") }

  function ToolMessage(id: string, content: string): Message {
    Message(Tool, content, [], Some(id), "")
  }

  /** Reasoning is kept only beside tool calls. */
  function ReplyMessage(r: ModelResponse): Message {
    Message(Assistant, r.content, r.toolCalls, None, if r.toolCalls != [] then r.reasoning else "")
  }

  function StartRun(state: RunState, prompt: string): RunState {
    state.(messages := [UserMessage(prompt)])
  }

  function AppendUserMessage(state: RunState, content: string): RunState {
    state.(messages := state.messages + [UserMessage(content)])
  }

  function WithRunSkills(state: RunState, skills: Skills): RunState { state.(skills := skills) }

  function AppendModelResponse(state: RunState, r: ModelResponse): RunState {
    state.(messages := state.messages + [ReplyMessage(r)],
           completedModelCalls := state.completedModelCalls + 1,
           usage := state.usage.Record(r.usage))
  }

  function AppendSyntheticToolCall(state: RunState, call: ToolCall): RunState {
    state.(messages := state.messages + [Message(Assistant, "", [call], None, "")])
  }

  function AppendToolResult(state: RunState, call: ToolCall, result: ToolResult): RunState {
    state.(messages := state.messages + [ToolMessage(call.id, result.content)])
  }

  /** How many messages the summary stands for. */
  function Already(state: RunState): nat {
    if state.compaction.Some? then state.compaction.value.throughIndex else 0
  }

  // ----- pending calls -----

  function Ids(calls: seq<ToolCall>): set<string> { set c | c in calls :: c.id }

  /** Every tool call of an assistant message, in transcript order. */
  function CallsOf(ms: seq<Message>): seq<ToolCall> {
    if ms == [] then []
    else CallsOf(ms[..|ms| - 1]) + (if ms[|ms| - 1].role.Assistant? then ms[|ms| - 1].toolCalls else [])
  }

  function Satisfied(ms: seq<Message>): set<string> {
    set m | m in ms && m.role.Tool? && m.toolCallId.Some? :: m.toolCallId.value
  }

  function Except(calls: seq<ToolCall>, ids: set<string>): seq<ToolCall> {
    if calls == [] then []
    else (if calls[0].id in ids then [] else [calls[0]]) + Except(calls[1..], ids)
  }

  function UnmatchedToolCalls(ms: seq<Message>): seq<ToolCall> {
    Except(CallsOf(ms), Satisfied(ms))
  }

  function PendingIds(state: RunState): set<string> { Ids(UnmatchedToolCalls(state.messages)) }

  /** One finished call with its result. */
  datatype Resolved = Resolved(call: ToolCall, result: ToolResult)

  function CallsIn(rs: seq<Resolved>): seq<ToolCall> {
    seq(|rs|, i requires 0 <= i < |rs| => rs[i].call)
  }

  /** The results of a batch, appended in order. */
  function FoldResults(state: RunState, rs: seq<Resolved>): RunState {
    if rs == [] then state
    else AppendToolResult(FoldResults(state, rs[..|rs| - 1]), rs[|rs| - 1].call, rs[|rs| - 1].result)
  }

  function Interrupted(calls: seq<ToolCall>): seq<Resolved> {
    seq(|calls|, i requires 0 <= i < |calls| =>
      Resolved(calls[i], ToolResult(INTERRUPTED_TOOL_RESULT, true, None)))
  }

  /** What sealing must produce: an interruption for every pending call. */
  function Sealed(state: RunState): RunState {
    FoldResults(state, Interrupted(UnmatchedToolCalls(state.messages)))
  }

  /** `seal`: repairs a transcript that ends mid-turn. */
  method Seal(start: RunState) returns (state: RunState, repaired: bool)
    ensures state == Sealed(start)
    ensures repaired <==> UnmatchedToolCalls(start.messages) != []
  {
    state, repaired := start, false;
    var pending := UnmatchedToolCalls(state.messages);
    for i := 0 to |pending|
      invariant state == FoldResults(start, Interrupted(pending)[..i])
      invariant repaired <==> i > 0
    {
      FoldSnoc(start, Interrupted(pending), i);
      state := AppendToolResult(state, pending[i], ToolResult(INTERRUPTED_TOOL_RESULT, true, None));
      repaired := true;
    }
    assert Interrupted(pending)[..|pending|] == Interrupted(pending);
  }

  // ----- the shape of a transcript -----

  predicate Distinct(calls: seq<ToolCall>) {
    forall i, j :: 0 <= i < j < |calls| ==> calls[i].id != calls[j].id
  }

  /** May `m` be the message after `ms`: results answer a pending call, call ids never repeat. */
  predicate Follows(ms: seq<Message>, m: Message) {
    match m.role
    case System => false
    case User => m.toolCalls == [] && m.toolCallId.None?
    case Assistant => m.toolCallId.None? && Distinct(m.toolCalls) && Ids(m.toolCalls) !! Ids(CallsOf(ms))
    case Tool => m.toolCalls == [] && m.toolCallId.Some?
                 && m.toolCallId.value in Ids(UnmatchedToolCalls(ms))
  }

  predicate WellFormed(ms: seq<Message>) {
    ms == [] || (WellFormed(ms[..|ms| - 1]) && Follows(ms[..|ms| - 1], ms[|ms| - 1]))
  }

  /** Nothing pending: the transcript a provider accepts. */
  predicate Closed(ms: seq<Message>) { WellFormed(ms) && UnmatchedToolCalls(ms) == [] }

  // ----- lemmas -----

  lemma {:induction false} ExceptIds(calls: seq<ToolCall>, ids: set<string>)
    ensures Ids(Except(calls, ids)) == Ids(calls) - ids
    ensures forall c :: c in Except(calls, ids) <==> c in calls && c.id !in ids
  {
    if calls != [] {
      ExceptIds(calls[1..], ids);
      assert calls == [calls[0]] + calls[1..];
    }
  }

  lemma {:induction false} ExceptConcat(a: seq<ToolCall>, b: seq<ToolCall>, ids: set<string>)
    ensures Except(a + b, ids) == Except(a, ids) + Except(b, ids)
  {
    if a == [] {
      assert a + b == b;
    } else {
      ExceptConcat(a[1..], b, ids);
      assert (a + b)[0] == a[0] && (a + b)[1..] == a[1..] + b;
      var head := if a[0].id in ids then [] else [a[0]];
      assert head + (Except(a[1..], ids) + Except(b, ids)) == (head + Except(a[1..], ids)) + Except(b, ids);
    }
  }

  lemma {:induction false} ExceptTwice(calls: seq<ToolCall>, s: set<string>, t: set<string>)
    ensures Except(Except(calls, s), t) == Except(calls, s + t)
  {
    if calls != [] {
      ExceptTwice(calls[1..], s, t);
      ExceptConcat(if calls[0].id in s then [] else [calls[0]], Except(calls[1..], s), t);
    }
  }

  lemma {:induction false} ExceptNone(calls: seq<ToolCall>, ids: set<string>)
    requires Ids(calls) !! ids
    ensures Except(calls, ids) == calls
  {
    if calls != [] {
      assert calls[0] in calls;
      assert forall c :: c in calls[1..] ==> c in calls;
      ExceptNone(calls[1..], ids);
    }
  }

  lemma {:induction false} ExceptAll(calls: seq<ToolCall>, ids: set<string>)
    requires Ids(calls) <= ids
    ensures Except(calls, ids) == []
  {
    if calls != [] {
      assert calls[0] in calls;
      assert forall c :: c in calls[1..] ==> c in calls;
      ExceptAll(calls[1..], ids);
    }
  }

  lemma {:induction false} ExceptDistinct(calls: seq<ToolCall>, ids: set<string>)
    requires Distinct(calls)
    ensures Distinct(Except(calls, ids))
  {
    if calls != [] {
      ExceptDistinct(calls[1..], ids);
      ExceptIds(calls[1..], ids);
    }
  }

  lemma Snoc(ms: seq<Message>, m: Message)
    ensures (ms + [m])[..|ms + [m]| - 1] == ms
    ensures CallsOf(ms + [m]) == CallsOf(ms) + (if m.role.Assistant? then m.toolCalls else [])
    ensures Satisfied(ms + [m]) ==
            Satisfied(ms) + (if m.role.Tool? && m.toolCallId.Some? then {m.toolCallId.value} else {})
    ensures WellFormed(ms + [m]) <==> WellFormed(ms) && Follows(ms, m)
  {
    assert (ms + [m])[..|ms|] == ms;
  }

  lemma {:induction false} SatisfiedWereCalled(ms: seq<Message>)
    requires WellFormed(ms)
    ensures Satisfied(ms) <= Ids(CallsOf(ms))
    ensures Distinct(CallsOf(ms))
    ensures Distinct(UnmatchedToolCalls(ms))
  {
    if ms != [] {
      var init, last := ms[..|ms| - 1], ms[|ms| - 1];
      assert ms == init + [last];
      SatisfiedWereCalled(init);
      Snoc(init, last);
      ExceptIds(CallsOf(init), Satisfied(init));
      forall i, j | 0 <= i < j < |CallsOf(ms)| ensures CallsOf(ms)[i].id != CallsOf(ms)[j].id {
        if i < |CallsOf(init)| <= j {
          assert CallsOf(init)[i].id in Ids(CallsOf(init));
          assert CallsOf(ms)[j] in last.toolCalls;
        }
      }
    }
    ExceptDistinct(CallsOf(ms), Satisfied(ms));
  }

  /** How each kind of message changes what is pending. */
  lemma UnmatchedSnoc(ms: seq<Message>, m: Message)
    requires WellFormed(ms) && Follows(ms, m)
    ensures WellFormed(ms + [m])
    ensures UnmatchedToolCalls(ms + [m]) ==
            match m.role
            case Tool => Except(UnmatchedToolCalls(ms), {m.toolCallId.value})
            case _ => UnmatchedToolCalls(ms) + m.toolCalls
  {
    Snoc(ms, m);
    SatisfiedWereCalled(ms);
    if m.role.Tool? {
      assert CallsOf(ms + [m]) == CallsOf(ms);
      ExceptTwice(CallsOf(ms), Satisfied(ms), {m.toolCallId.value});
    } else {
      assert Satisfied(ms + [m]) == Satisfied(ms);
      assert CallsOf(ms + [m]) == CallsOf(ms) + m.toolCalls;
      ExceptConcat(CallsOf(ms), m.toolCalls, Satisfied(ms));
      ExceptNone(m.toolCalls, Satisfied(ms));
    }
  }

  lemma FoldSnoc(state: RunState, rs: seq<Resolved>, i: nat)
    requires i < |rs|
    ensures FoldResults(state, rs[..i + 1]) ==
            AppendToolResult(FoldResults(state, rs[..i]), rs[i].call, rs[i].result)
  {
    assert rs[..i + 1][..i] == rs[..i];
  }

  lemma ResultSnoc(state: RunState, c: ToolCall, result: ToolResult)
    requires WellFormed(state.messages) && c.id in PendingIds(state)
    ensures WellFormed(AppendToolResult(state, c, result).messages)
    ensures UnmatchedToolCalls(AppendToolResult(state, c, result).messages) ==
            Except(UnmatchedToolCalls(state.messages), {c.id})
    ensures PendingIds(AppendToolResult(state, c, result)) == PendingIds(state) - {c.id}
    ensures CallsOf(AppendToolResult(state, c, result).messages) == CallsOf(state.messages)
  {
    UnmatchedSnoc(state.messages, ToolMessage(c.id, result.content));
    Snoc(state.messages, ToolMessage(c.id, result.content));
    ExceptIds(UnmatchedToolCalls(state.messages), {c.id});
  }

  lemma DistinctSnoc(calls: seq<ToolCall>, c: ToolCall)
    ensures Ids(calls + [c]) == Ids(calls) + {c.id}
    ensures Distinct(calls + [c]) <==> Distinct(calls) && c.id !in Ids(calls)
  {
    var all := calls + [c];
    assert forall i :: 0 <= i < |calls| ==> all[i] == calls[i];
    assert all[|calls|] == c;
    if Distinct(all) {
      forall i | 0 <= i < |calls| ensures calls[i].id != c.id {
        assert all[i].id != all[|calls|].id;
      }
    }
    if Distinct(calls) && c.id !in Ids(calls) {
      assert forall i :: 0 <= i < |calls| ==> calls[i].id in Ids(calls);
    }
  }

  /** Folding results for some pending calls leaves exactly the others pending, in order. */
  lemma {:induction false} FoldKeepsOthers(state: RunState, rs: seq<Resolved>)
    requires WellFormed(state.messages)
    requires Distinct(CallsIn(rs)) && Ids(CallsIn(rs)) <= PendingIds(state)
    ensures WellFormed(FoldResults(state, rs).messages)
    ensures UnmatchedToolCalls(FoldResults(state, rs).messages) ==
            Except(UnmatchedToolCalls(state.messages), Ids(CallsIn(rs)))
    ensures CallsOf(FoldResults(state, rs).messages) == CallsOf(state.messages)
    ensures state.messages <= FoldResults(state, rs).messages
  {
    var pending := UnmatchedToolCalls(state.messages);
    if rs == [] {
      assert Ids(CallsIn(rs)) == {};
      ExceptNone(pending, {});
    } else {
      var init, last := rs[..|rs| - 1], rs[|rs| - 1];
      assert CallsIn(rs) == CallsIn(init) + [last.call];
      DistinctSnoc(CallsIn(init), last.call);
      FoldKeepsOthers(state, init);
      ExceptIds(pending, Ids(CallsIn(init)));
      ResultSnoc(FoldResults(state, init), last.call, last.result);
      ExceptTwice(pending, Ids(CallsIn(init)), {last.call.id});
    }
  }

  /** Sealing closes every transcript, keeps what was there, and is idempotent. */
  lemma SealCloses(state: RunState)
    requires WellFormed(state.messages)
    ensures Closed(Sealed(state).messages)
    ensures state.messages <= Sealed(state).messages
    ensures CallsOf(Sealed(state).messages) == CallsOf(state.messages)
    ensures Sealed(Sealed(state)) == Sealed(state)
  {
    var pending := UnmatchedToolCalls(state.messages);
    assert CallsIn(Interrupted(pending)) == pending;
    SatisfiedWereCalled(state.messages);
    FoldKeepsOthers(state, Interrupted(pending));
    ExceptAll(pending, Ids(pending));
    assert Interrupted(UnmatchedToolCalls(Sealed(state).messages)) == [];
  }

  // ----- what a transcript with nothing pending means -----

  predicate Calls(m: Message, id: string) { m.role.Assistant? && id in Ids(m.toolCalls) }

  predicate Answers(m: Message, id: string) { m.role.Tool? && m.toolCallId == Some(id) }

  lemma {:induction false} CalledSomewhere(ms: seq<Message>, id: string)
    ensures id in Ids(CallsOf(ms)) <==> exists i :: 0 <= i < |ms| && Calls(ms[i], id)
  {
    if ms != [] {
      var init, last := ms[..|ms| - 1], ms[|ms| - 1];
      assert ms == init + [last];
      Snoc(init, last);
      CalledSomewhere(init, id);
      if Calls(last, id) {
        assert Calls(ms[|init|], id);
        var c :| c in last.toolCalls && c.id == id;
        assert c in CallsOf(ms);
      }
      if id in Ids(CallsOf(init)) {
        var i :| 0 <= i < |init| && Calls(init[i], id);
        assert Calls(ms[i], id);
        var c :| c in CallsOf(init) && c.id == id;
        assert c in CallsOf(ms);
      }
    }
  }

  /** In every transcript no call id is issued twice. */
  lemma {:induction false} CalledOnce(ms: seq<Message>)
    requires WellFormed(ms)
    ensures forall i, k, id :: 0 <= i < k < |ms| && Calls(ms[i], id) ==> !Calls(ms[k], id)
  {
    if ms != [] {
      var init, last := ms[..|ms| - 1], ms[|ms| - 1];
      CalledOnce(init);
      assert forall j :: 0 <= j < |init| ==> ms[j] == init[j];
      forall i, id | 0 <= i < |init| && Calls(init[i], id) ensures !Calls(last, id) {
        CalledSomewhere(init, id);
      }
    }
  }

  /** In every transcript a result answers a call of a strictly earlier message, and no call is
      answered twice. */
  lemma {:induction false} AnsweredOnce(ms: seq<Message>)
    requires WellFormed(ms)
    ensures forall j :: 0 <= j < |ms| && ms[j].role.Tool? ==>
              ms[j].toolCallId.Some? && exists i :: 0 <= i < j && Calls(ms[i], ms[j].toolCallId.value)
    ensures forall j, k, id :: 0 <= j < k < |ms| && Answers(ms[j], id) ==> !Answers(ms[k], id)
  {
    if ms != [] {
      var init, last := ms[..|ms| - 1], ms[|ms| - 1];
      AnsweredOnce(init);
      assert forall j :: 0 <= j < |init| ==> ms[j] == init[j];
      if last.role.Tool? {
        ExceptIds(CallsOf(init), Satisfied(init));
        CalledSomewhere(init, last.toolCallId.value);
        assert forall j :: 0 <= j < |init| ==> !Answers(init[j], last.toolCallId.value);
      }
    }
  }

  /** With nothing pending, every call has exactly one result, after it. */
  lemma ClosedMeans(ms: seq<Message>)
    requires Closed(ms)
    ensures forall i, id :: 0 <= i < |ms| && Calls(ms[i], id) ==>
              exists j :: i < j < |ms| && Answers(ms[j], id)
  {
    CalledOnce(ms);
    AnsweredOnce(ms);
    forall i, id | 0 <= i < |ms| && Calls(ms[i], id)
      ensures exists j :: i < j < |ms| && Answers(ms[j], id)
    {
      CalledSomewhere(ms, id);
      ExceptIds(CallsOf(ms), Satisfied(ms));
      assert id in Satisfied(ms) by {
        var c :| c in CallsOf(ms) && c.id == id;
        assert c !in UnmatchedToolCalls(ms);
      }
      var m :| m in ms && m.role.Tool? && m.toolCallId.Some? && m.toolCallId.value == id;
      var j :| 0 <= j < |ms| && ms[j] == m;
      var k :| 0 <= k < j && Calls(ms[k], ms[j].toolCallId.value);
      assert k == i;
    }
  }
}
