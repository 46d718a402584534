/** Token estimates (`tokens/base.py`, `tokens/request.py`). Rational weights are exact here. */
module Tokens {
  import opened Domain

  const PER_MESSAGE_OVERHEAD := 3
  const REQUEST_OVERHEAD := 3

  /** `countText` is what providers differ in; `dumpCalls` renders tool calls as JSON text. */
  datatype TokenCounter = TokenCounter(countText: string -> nat, dumpCalls: seq<ToolCall> -> string)

  /** `tools` are the JSON texts of the tool schemas. */
  datatype ModelRequest = ModelRequest(messages: seq<Message>, tools: seq<string>)

  function RoleText(role: Role): string {
    match role
    case System => "system"
    case User => "user"
    case Assistant => "assistant"
    case Tool => "tool"
  }

  /** Tool-call arguments live outside `content`, so they are folded in for counting. */
  function CountedContent(counter: TokenCounter, m: Message): string {
    if m.toolCalls != [] then m.content + counter.dumpCalls(m.toolCalls) else m.content
  }

  function MessageCountDict(counter: TokenCounter, m: Message): seq<string> {
    [RoleText(m.role), CountedContent(counter, m)]
  }

  function TextTokens(counter: TokenCounter, texts: seq<string>): nat {
    if texts == [] then 0 else TextTokens(counter, texts[..|texts| - 1]) + counter.countText(texts[|texts| - 1])
  }

  /** The affine framing: one overhead per request, one per message. */
  function DictTokens(counter: TokenCounter, dicts: seq<seq<string>>): nat {
    if dicts == [] then REQUEST_OVERHEAD
    else DictTokens(counter, dicts[..|dicts| - 1]) + PER_MESSAGE_OVERHEAD + TextTokens(counter, dicts[|dicts| - 1])
  }

  /** `count_messages`. */
  method CountMessages(counter: TokenCounter, dicts: seq<seq<string>>) returns (total: nat)
    ensures total == DictTokens(counter, dicts)
  {
    total := REQUEST_OVERHEAD;
    for i := 0 to |dicts|
      invariant total == DictTokens(counter, dicts[..i])
    {
      total := total + PER_MESSAGE_OVERHEAD;
      ghost var before := total;
      for j := 0 to |dicts[i]|
        invariant total == before + TextTokens(counter, dicts[i][..j])
      {
        total := total + counter.countText(dicts[i][j]);
        assert dicts[i][..j + 1][..j] == dicts[i][..j];
      }
      assert dicts[i][..|dicts[i]|] == dicts[i];
      assert dicts[..i + 1][..i] == dicts[..i];
    }
    assert dicts[..|dicts|] == dicts;
  }

  function Dicts(counter: TokenCounter, ms: seq<Message>): seq<seq<string>> {
    seq(|ms|, i requires 0 <= i < |ms| => MessageCountDict(counter, ms[i]))
  }

  /** `count_request_tokens`. */
  function RequestTokens(counter: TokenCounter, request: ModelRequest): nat {
    DictTokens(counter, Dicts(counter, request.messages)) + TextTokens(counter, request.tools)
  }

  method CountRequestTokens(counter: TokenCounter, request: ModelRequest) returns (total: nat)
    ensures total == RequestTokens(counter, request)
  {
    total := CountMessages(counter, Dicts(counter, request.messages));
    total := total + TextTokens(counter, request.tools);
  }

  // ----- a request's cost is additive over its messages -----

  function MessageTokens(counter: TokenCounter, m: Message): nat {
    PER_MESSAGE_OVERHEAD + counter.countText(RoleText(m.role)) + counter.countText(CountedContent(counter, m))
  }

  function Cost(counter: TokenCounter, ms: seq<Message>): nat {
    if ms == [] then 0 else Cost(counter, ms[..|ms| - 1]) + MessageTokens(counter, ms[|ms| - 1])
  }

  lemma {:induction false} RequestIsAffine(counter: TokenCounter, ms: seq<Message>, tools: seq<string>)
    ensures RequestTokens(counter, ModelRequest(ms, tools)) ==
            REQUEST_OVERHEAD + TextTokens(counter, tools) + Cost(counter, ms)
  {
    if ms != [] {
      var init, last := ms[..|ms| - 1], ms[|ms| - 1];
      RequestIsAffine(counter, init, tools);
      assert Dicts(counter, ms)[..|ms| - 1] == Dicts(counter, init);
      var dict := MessageCountDict(counter, last);
      assert dict[..1] == [dict[0]] && dict[..1][..0] == [];
      assert TextTokens(counter, dict) == TextTokens(counter, dict[..1]) + counter.countText(dict[1]);
      assert TextTokens(counter, dict[..1]) == counter.countText(dict[0]);
    }
  }

  lemma {:induction false} CostConcat(counter: TokenCounter, a: seq<Message>, b: seq<Message>)
    ensures Cost(counter, a + b) == Cost(counter, a) + Cost(counter, b)
  {
    if b == [] {
      assert a + b == a;
    } else {
      CostConcat(counter, a, b[..|b| - 1]);
      assert (a + b)[..|a + b| - 1] == a + b[..|b| - 1];
    }
  }

  // ----- the approximate counter -----

  predicate IsCjk(ch: char) {
    var cp := ch as int;
    || 0x3000 <= cp <= 0x303F
    || 0x3040 <= cp <= 0x30FF
    || 0x3400 <= cp <= 0x4DBF
    || 0x4E00 <= cp <= 0x9FFF
    || 0xAC00 <= cp <= 0xD7A3
    || 0xF900 <= cp <= 0xFAFF
    || 0xFF00 <= cp <= 0xFFEF
  }

  function CjkCount(text: string): nat {
    if text == "" then 0 else (if IsCjk(text[0]) then 1 else 0) + CjkCount(text[1..])
  }

  /** The weighted length in tenths of a token: 0.6 per CJK character, 0.3 per other. */
  function Tenths(text: string): int {
    6 * CjkCount(text) + 3 * (|text| - CjkCount(text))
  }

  /** `round(t / 10)`: to the nearest integer, ties to even. */
  function RoundTenths(t: int): (r: int)
    ensures -5 <= t - 10 * r <= 5
    ensures (t - 10 * r == 5 || t - 10 * r == -5) ==> r % 2 == 0
  {
    var q, rest := t / 10, t % 10;
    if rest < 5 then q
    else if rest > 5 then q + 1
    else if q % 2 == 0 then q else q + 1
  }

  function ApproxCount(text: string): nat {
    if text == "" then 0
    else
      var rounded := RoundTenths(Tenths(text));
      if rounded > 1 then rounded else 1
  }

  lemma {:induction false} CjkConcat(a: string, b: string)
    ensures CjkCount(a + b) == CjkCount(a) + CjkCount(b)
  {
    if a == "" {
      assert a + b == b;
    } else {
      CjkConcat(a[1..], b);
      assert (a + b)[0] == a[0] && (a + b)[1..] == a[1..] + b;
    }
  }

  lemma {:induction false} CjkBounds(text: string)
    ensures CjkCount(text) <= |text|
    ensures 3 * |text| <= Tenths(text) <= 6 * |text|
  {
    if text != "" {
      CjkBounds(text[1..]);
    }
  }

  /** The count never goes down when text is added on either side. */
  lemma CountIsMonotone(a: string, b: string, c: string)
    ensures ApproxCount(b) <= ApproxCount(a + b + c)
  {
    CjkConcat(a, b);
    CjkConcat(a + b, c);
    CjkBounds(a);
    CjkBounds(b);
    CjkBounds(c);
    RoundMonotone(Tenths(b), Tenths(a + b + c));
  }

  lemma RoundMonotone(s: int, t: int)
    requires s <= t
    ensures RoundTenths(s) <= RoundTenths(t)
  {
  }

  /** Cutting a text in two changes the total by at most one token. */
  lemma CutInTwo(a: string, b: string)
    requires a != "" && b != ""
    ensures -1 <= ApproxCount(a) + ApproxCount(b) - ApproxCount(a + b) <= 1
  {
    CjkConcat(a, b);
    CjkBounds(a);
    CjkBounds(b);
  }

  function Joined(pieces: seq<string>): string {
    if pieces == [] then "" else Joined(pieces[..|pieces| - 1]) + pieces[|pieces| - 1]
  }

  function PieceTokens(pieces: seq<string>): nat {
    if pieces == [] then 0 else PieceTokens(pieces[..|pieces| - 1]) + ApproxCount(pieces[|pieces| - 1])
  }

  /** Splitting a text into k non-empty pieces changes the total by at most k - 1. */
  lemma {:induction false} CountIsNearlyAdditive(pieces: seq<string>)
    requires pieces != [] && forall p :: p in pieces ==> p != ""
    ensures Joined(pieces) != ""
    ensures -(|pieces| - 1) <= PieceTokens(pieces) - ApproxCount(Joined(pieces)) <= |pieces| - 1
  {
    var init, last := pieces[..|pieces| - 1], pieces[|pieces| - 1];
    assert last in pieces;
    if init == [] {
      assert Joined(pieces) == last;
    } else {
      assert forall p :: p in init ==> p in pieces;
      CountIsNearlyAdditive(init);
      CutInTwo(Joined(init), last);
    }
  }

  /** Both bounds are reached, already by texts without CJK characters. */
  lemma BoundsAreTight(a: string, b: string)
    requires CjkCount(a) == 0 && CjkCount(b) == 0
    ensures |a| == 1 && |b| == 1 ==> ApproxCount(a) + ApproxCount(b) == ApproxCount(a + b) + 1
    ensures |a| == 8 && |b| == 4 ==> ApproxCount(a) + ApproxCount(b) == ApproxCount(a + b) - 1
  {
    CjkConcat(a, b);
  }
}
