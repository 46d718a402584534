/** Assembling a streamed model response (`models/openai.py`). */
module Streaming {
  import opened Domain

  /** One tool-call fragment; an empty string stands for a missing part. */
  datatype CallDelta = CallDelta(index: int, id: string, name: string, arguments: string)

  datatype Delta = Delta(reasoning: string, content: string, calls: seq<CallDelta>)

  datatype Chunk = Chunk(usage: Option<TokenUsage>, delta: Option<Delta>)

  datatype Fragment = Fragment(id: string, name: string, arguments: string)

  datatype Yielded = ReasoningDelta(text: string) | TextDelta(text: string) | StreamDone(response: ModelResponse)

  // ----- what the response must be, index by index -----

  /** The fragments of one index, in arrival order. */
  function Pieces(calls: seq<CallDelta>, index: int): seq<CallDelta> {
    if calls == [] then []
    else Pieces(calls[..|calls| - 1], index) +
         (if calls[|calls| - 1].index == index then [calls[|calls| - 1]] else [])
  }

  const EMPTY_FRAGMENT := Fragment("", "", "")

  function Extended(before: Fragment, c: CallDelta): Fragment {
    Fragment(if c.id != "" then c.id else before.id,
             if c.name != "" then c.name else before.name,
             before.arguments + c.arguments)
  }

  /** The last id and name that are not empty, and all arguments joined. */
  function Assembled(pieces: seq<CallDelta>): Fragment {
    if pieces == [] then EMPTY_FRAGMENT
    else Extended(Assembled(pieces[..|pieces| - 1]), pieces[|pieces| - 1])
  }

  function IdsOf(pieces: seq<CallDelta>): seq<string> { seq(|pieces|, i requires 0 <= i < |pieces| => pieces[i].id) }

  function NamesOf(pieces: seq<CallDelta>): seq<string> { seq(|pieces|, i requires 0 <= i < |pieces| => pieces[i].name) }

  predicate EmptyFrom(texts: seq<string>, i: nat) { forall k :: i <= k < |texts| ==> texts[k] == "" }

  /** `text` is the last of `texts` that is not empty, or empty if there is none. */
  predicate LastGiven(texts: seq<string>, text: string) {
    if text == "" then EmptyFrom(texts, 0)
    else exists i :: 0 <= i < |texts| && texts[i] == text && EmptyFrom(texts, i + 1)
  }

  lemma LastGivenSnoc(texts: seq<string>, text: string, t: string)
    requires LastGiven(texts, text)
    ensures LastGiven(texts + [t], if t != "" then t else text)
  {
    var all := texts + [t];
    if t != "" {
      assert all[|texts|] == t && EmptyFrom(all, |texts| + 1);
    } else if text != "" {
      var i :| 0 <= i < |texts| && texts[i] == text && EmptyFrom(texts, i + 1);
      assert all[i] == text && EmptyFrom(all, i + 1);
    }
  }

  function ArgumentsOf(pieces: seq<CallDelta>): seq<string> {
    seq(|pieces|, i requires 0 <= i < |pieces| => pieces[i].arguments)
  }

  /** The concatenation of `texts`, first to last. */
  function Joined(texts: seq<string>): string {
    if texts == [] then "" else texts[0] + Joined(texts[1..])
  }

  lemma {:induction false} JoinedSnoc(texts: seq<string>, t: string)
    ensures Joined(texts + [t]) == Joined(texts) + t
  {
    if texts == [] {
      assert Joined([t]) == t + Joined([]) == t;
    } else {
      assert (texts + [t])[0] == texts[0] && (texts + [t])[1..] == texts[1..] + [t];
      JoinedSnoc(texts[1..], t);
      TextAssoc(texts[0], Joined(texts[1..]), t);
    }
  }

  lemma TextAssoc(a: string, b: string, c: string)
    ensures a + b + c == a + (b + c)
  {
  }

  /** What a call is assembled to: the last id and the last name its index was given, and the
      concatenation of its index's arguments. */
  lemma {:induction false} AssembledMeans(pieces: seq<CallDelta>)
    ensures LastGiven(IdsOf(pieces), Assembled(pieces).id)
    ensures LastGiven(NamesOf(pieces), Assembled(pieces).name)
    ensures Assembled(pieces).arguments == Joined(ArgumentsOf(pieces))
  {
    if pieces != [] {
      var init, last := pieces[..|pieces| - 1], pieces[|pieces| - 1];
      var before := Assembled(init);
      AssembledMeans(init);
      LastGivenSnoc(IdsOf(init), before.id, last.id);
      LastGivenSnoc(NamesOf(init), before.name, last.name);
      JoinedSnoc(ArgumentsOf(init), last.arguments);
      assert IdsOf(pieces) == IdsOf(init) + [last.id] && NamesOf(pieces) == NamesOf(init) + [last.name];
      assert ArgumentsOf(pieces) == ArgumentsOf(init) + [last.arguments];
    }
  }

  function Indices(calls: seq<CallDelta>): set<int> { set c | c in calls :: c.index }

  predicate IsLeast(s: set<int>, m: int) { m in s && forall x :: x in s ==> m <= x }

  lemma Member<T>(s: set<T>) returns (x: T)
    requires s != {}
    ensures x in s
  {
    x :| x in s;
  }

  lemma {:induction false} LeastExists(s: set<int>)
    requires s != {}
    ensures exists m :: IsLeast(s, m)
  {
    var m := Member(s);
    if s == {m} {
      assert IsLeast(s, m);
    } else {
      LeastExists(s - {m});
      var rest :| IsLeast(s - {m}, rest);
      assert forall x :: x in s ==> x == m || x in s - {m};
      assert IsLeast(s, if m < rest then m else rest);
    }
  }

  function Least(s: set<int>): (m: int)
    requires s != {}
    ensures IsLeast(s, m)
  {
    LeastExists(s);
    var m :| m in s && IsLeast(s, m);
    m
  }

  function Sorted(s: set<int>): (r: seq<int>)
    ensures forall k :: k in r <==> k in s
    ensures forall i, j :: 0 <= i < j < |r| ==> r[i] < r[j]
  {
    if s == {} then [] else [Least(s)] + Sorted(s - {Least(s)})
  }

  function CallsAt(calls: seq<CallDelta>, indices: seq<int>, parse: string -> string): seq<ToolCall> {
    seq(|indices|, i requires 0 <= i < |indices| =>
      var f := Assembled(Pieces(calls, indices[i]));
      ToolCall(f.id, f.name, parse(f.arguments)))
  }

  /** One call per index, ordered by index. */
  function ToolCallsOf(calls: seq<CallDelta>, parse: string -> string): seq<ToolCall> {
    CallsAt(calls, Sorted(Indices(calls)), parse)
  }

  function ChunkCalls(chunk: Chunk): seq<CallDelta> {
    if chunk.delta.Some? then chunk.delta.value.calls else []
  }

  function ChunkContent(chunk: Chunk): string { if chunk.delta.Some? then chunk.delta.value.content else "" }

  function ChunkReasoning(chunk: Chunk): string { if chunk.delta.Some? then chunk.delta.value.reasoning else "" }

  function AllCalls(chunks: seq<Chunk>): seq<CallDelta> {
    if chunks == [] then [] else AllCalls(chunks[..|chunks| - 1]) + ChunkCalls(chunks[|chunks| - 1])
  }

  function AllContent(chunks: seq<Chunk>): string {
    if chunks == [] then "" else AllContent(chunks[..|chunks| - 1]) + ChunkContent(chunks[|chunks| - 1])
  }

  function AllReasoning(chunks: seq<Chunk>): string {
    if chunks == [] then "" else AllReasoning(chunks[..|chunks| - 1]) + ChunkReasoning(chunks[|chunks| - 1])
  }

  function LastUsage(chunks: seq<Chunk>): TokenUsage {
    if chunks == [] then NO_USAGE
    else match chunks[|chunks| - 1].usage case None => LastUsage(chunks[..|chunks| - 1]) case Some(u) => u
  }

  function ResponseOf(chunks: seq<Chunk>, parse: string -> string): ModelResponse {
    ModelResponse(AllContent(chunks), ToolCallsOf(AllCalls(chunks), parse), LastUsage(chunks), AllReasoning(chunks))
  }

  // ----- what that means call by call -----

  /** `indices` are those seen, each once and in ascending order. */
  ghost predicate InOrder(indices: seq<int>, calls: seq<CallDelta>) {
    && (forall k :: k in indices <==> exists c :: c in calls && c.index == k)
    && forall i, j :: 0 <= i < j < |indices| ==> indices[i] < indices[j]
  }

  /** A call is put together from the fragments of one index: the last id and the last name they gave, and
      their arguments joined and parsed. */
  predicate PutTogether(call: ToolCall, pieces: seq<CallDelta>, parse: string -> string) {
    && LastGiven(IdsOf(pieces), call.id) && LastGiven(NamesOf(pieces), call.name)
    && call.arguments == parse(Joined(ArgumentsOf(pieces)))
  }

  /** The calls of a response, one per index seen, in the order of the indices. */
  lemma CallsMean(calls: seq<CallDelta>, parse: string -> string)
    ensures exists indices :: InOrder(indices, calls) && |indices| == |ToolCallsOf(calls, parse)|
              && forall i :: 0 <= i < |indices| ==>
                   PutTogether(ToolCallsOf(calls, parse)[i], Pieces(calls, indices[i]), parse)
  {
    var indices := Sorted(Indices(calls));
    assert InOrder(indices, calls);
    forall i | 0 <= i < |indices| ensures PutTogether(ToolCallsOf(calls, parse)[i], Pieces(calls, indices[i]), parse) {
      AssembledMeans(Pieces(calls, indices[i]));
    }
  }

  /** `at` are the places of all fragments of an index, in arrival order. */
  predicate PlacesOf(calls: seq<CallDelta>, index: int, at: seq<nat>) {
    && (forall i, j :: 0 <= i < j < |at| ==> at[i] < at[j])
    && (forall i :: 0 <= i < |at| ==> at[i] < |calls|)
    && forall n :: 0 <= n < |calls| ==> (calls[n].index == index <==> n in at)
  }

  lemma PlacesSnoc(calls: seq<CallDelta>, c: CallDelta, index: int, at: seq<nat>)
    requires PlacesOf(calls, index, at)
    ensures PlacesOf(calls + [c], index, if c.index == index then at + [|calls|] else at)
  {
    var all, after := calls + [c], if c.index == index then at + [|calls|] else at;
    assert forall n :: n in after <==> n in at || (n == |calls| && c.index == index);
    assert forall n :: 0 <= n < |calls| ==> all[n] == calls[n];
  }

  /** The pieces a call is put together from are all the fragments of its index, in arrival order, and no
      others. */
  lemma {:induction false} PiecesMean(calls: seq<CallDelta>, index: int) returns (at: seq<nat>)
    ensures PlacesOf(calls, index, at) && |at| == |Pieces(calls, index)|
    ensures forall i :: 0 <= i < |at| ==> Pieces(calls, index)[i] == calls[at[i]]
  {
    at := [];
    if calls != [] {
      var init, last := calls[..|calls| - 1], calls[|calls| - 1];
      assert calls == init + [last];
      at := PiecesMean(init, index);
      PlacesSnoc(init, last, index, at);
      if last.index == index {
        at := at + [|init|];
      }
    }
  }

  /** The usage of a response is the last one any chunk came with. */
  lemma {:induction false} LastUsageMeans(chunks: seq<Chunk>)
    ensures if forall i :: 0 <= i < |chunks| ==> chunks[i].usage.None? then LastUsage(chunks) == NO_USAGE
            else exists i :: 0 <= i < |chunks| && chunks[i].usage == Some(LastUsage(chunks))
                   && forall k :: i < k < |chunks| ==> chunks[k].usage.None?
  {
    if chunks != [] && chunks[|chunks| - 1].usage.None? {
      var init := chunks[..|chunks| - 1];
      LastUsageMeans(init);
      assert forall i :: 0 <= i < |init| ==> chunks[i] == init[i];
    } else if chunks != [] {
      assert chunks[|chunks| - 1].usage == Some(LastUsage(chunks));
    }
  }

  // ----- the one-pass fold -----

  function Lookup(fragments: map<int, Fragment>, k: int): Fragment {
    if k in fragments then fragments[k] else EMPTY_FRAGMENT
  }

  /** The dictionary holds exactly the indices seen, each with its pieces put together. */
  ghost predicate Holds(fragments: map<int, Fragment>, calls: seq<CallDelta>) {
    && (forall k :: k in fragments <==> Pieces(calls, k) != [])
    && forall k :: Lookup(fragments, k) == Assembled(Pieces(calls, k))
  }

  lemma PiecesSnoc(calls: seq<CallDelta>, c: CallDelta, k: int)
    ensures Pieces(calls + [c], k) == if c.index == k then Pieces(calls, k) + [c] else Pieces(calls, k)
  {
    assert (calls + [c])[..|calls|] == calls;
  }

  lemma AssembledSnoc(pieces: seq<CallDelta>, c: CallDelta)
    ensures Assembled(pieces + [c]) == Extended(Assembled(pieces), c)
  {
    assert (pieces + [c])[..|pieces|] == pieces;
  }

  lemma HoldsSnocAt(fragments: map<int, Fragment>, calls: seq<CallDelta>, c: CallDelta, k: int)
    requires Holds(fragments, calls)
    ensures var after := fragments[c.index := Extended(Lookup(fragments, c.index), c)];
      && (k in after <==> Pieces(calls + [c], k) != [])
      && Lookup(after, k) == Assembled(Pieces(calls + [c], k))
  {
    PiecesSnoc(calls, c, k);
    if k == c.index {
      AssembledSnoc(Pieces(calls, k), c);
    }
  }

  lemma HoldsSnoc(fragments: map<int, Fragment>, calls: seq<CallDelta>, c: CallDelta)
    requires Holds(fragments, calls)
    ensures Holds(fragments[c.index := Extended(Lookup(fragments, c.index), c)], calls + [c])
  {
    forall k
      ensures var after := fragments[c.index := Extended(Lookup(fragments, c.index), c)];
        && (k in after <==> Pieces(calls + [c], k) != [])
        && Lookup(after, k) == Assembled(Pieces(calls + [c], k))
    {
      HoldsSnocAt(fragments, calls, c, k);
    }
  }

  /** One fragment: the entry is created when its index is new, then only its given parts change. */
  method AddFragment(start: map<int, Fragment>, call: CallDelta) returns (fragments: map<int, Fragment>)
    ensures fragments == start[call.index := Extended(Lookup(start, call.index), call)]
  {
    var fragment := if call.index in start then start[call.index] else EMPTY_FRAGMENT;
    if call.id != "" {
      fragment := fragment.(id := call.id);
    }
    if call.name != "" {
      fragment := fragment.(name := call.name);
    }
    if call.arguments != "" {
      fragment := fragment.(arguments := fragment.arguments + call.arguments);
    } else {
      assert fragment.arguments + call.arguments == fragment.arguments;
    }
    fragments := start[call.index := fragment];
  }

  lemma TakeOneMore(seen: seq<CallDelta>, calls: seq<CallDelta>, i: nat)
    requires i <= |calls|
    ensures seen + calls[..0] == seen && seen + calls[..|calls|] == seen + calls
    ensures i < |calls| ==> seen + calls[..i + 1] == seen + calls[..i] + [calls[i]]
  {
    assert calls[..|calls|] == calls;
  }

  /** The inner loop: one chunk's fragments. */
  method AddFragments(start: map<int, Fragment>, calls: seq<CallDelta>, ghost seen: seq<CallDelta>)
    returns (fragments: map<int, Fragment>)
    requires Holds(start, seen)
    ensures Holds(fragments, seen + calls)
  {
    fragments := start;
    TakeOneMore(seen, calls, 0);
    for i := 0 to |calls|
      invariant Holds(fragments, seen + calls[..i])
    {
      TakeOneMore(seen, calls, i);
      HoldsSnoc(fragments, seen + calls[..i], calls[i]);
      fragments := AddFragment(fragments, calls[i]);
    }
  }

  function TextOf(yielded: seq<Yielded>): string {
    if yielded == [] then ""
    else TextOf(yielded[..|yielded| - 1]) +
         if yielded[|yielded| - 1].TextDelta? then yielded[|yielded| - 1].text else ""
  }

  function ReasoningOf(yielded: seq<Yielded>): string {
    if yielded == [] then ""
    else ReasoningOf(yielded[..|yielded| - 1]) +
         if yielded[|yielded| - 1].ReasoningDelta? then yielded[|yielded| - 1].text else ""
  }

  lemma YieldedSnoc(yielded: seq<Yielded>, y: Yielded)
    ensures TextOf(yielded + [y]) == TextOf(yielded) + (if y.TextDelta? then y.text else "")
    ensures ReasoningOf(yielded + [y]) == ReasoningOf(yielded) + (if y.ReasoningDelta? then y.text else "")
  {
    assert (yielded + [y])[..|yielded|] == yielded;
  }

  predicate NoneDone(yielded: seq<Yielded>) { forall y :: y in yielded ==> !y.StreamDone? }

  /** What one chunk yields. */
  method YieldDeltas(start: seq<Yielded>, delta: Delta) returns (yielded: seq<Yielded>)
    ensures TextOf(yielded) == TextOf(start) + delta.content
    ensures ReasoningOf(yielded) == ReasoningOf(start) + delta.reasoning
    ensures NoneDone(start) ==> NoneDone(yielded)
  {
    yielded := start;
    if delta.reasoning != "" {
      YieldedSnoc(yielded, ReasoningDelta(delta.reasoning));
      yielded := yielded + [ReasoningDelta(delta.reasoning)];
    }
    if delta.content != "" {
      YieldedSnoc(yielded, TextDelta(delta.content));
      yielded := yielded + [TextDelta(delta.content)];
    }
  }

  lemma {:induction false} UnseenHasNoPieces(calls: seq<CallDelta>, k: int)
    requires k !in Indices(calls)
    ensures Pieces(calls, k) == []
  {
    if calls != [] {
      var init, last := calls[..|calls| - 1], calls[|calls| - 1];
      assert calls == init + [last] && last in calls;
      assert forall c :: c in init ==> c in calls;
      UnseenHasNoPieces(init, k);
    }
  }

  lemma {:induction false} SeenHasPieces(calls: seq<CallDelta>, k: int)
    ensures k in Indices(calls) <==> Pieces(calls, k) != []
  {
    if k !in Indices(calls) {
      UnseenHasNoPieces(calls, k);
    } else {
      var init, last := calls[..|calls| - 1], calls[|calls| - 1];
      assert calls == init + [last];
      if last.index != k {
        var c :| c in calls && c.index == k;
        assert c in init;
        SeenHasPieces(init, k);
      }
    }
  }

  function FragmentCalls(fragments: map<int, Fragment>, indices: seq<int>, parse: string -> string): seq<ToolCall> {
    seq(|indices|, i requires 0 <= i < |indices| =>
      var f := Lookup(fragments, indices[i]);
      ToolCall(f.id, f.name, parse(f.arguments)))
  }

  lemma CallsAtIndices(fragments: map<int, Fragment>, calls: seq<CallDelta>, indices: seq<int>, parse: string -> string)
    requires Holds(fragments, calls)
    ensures FragmentCalls(fragments, indices, parse) == CallsAt(calls, indices, parse)
  {
  }

  lemma CallsFromFragments(fragments: map<int, Fragment>, calls: seq<CallDelta>, parse: string -> string)
    requires Holds(fragments, calls)
    ensures FragmentCalls(fragments, Sorted(fragments.Keys), parse) == ToolCallsOf(calls, parse)
  {
    forall k ensures k in fragments.Keys <==> k in Indices(calls) {
      SeenHasPieces(calls, k);
    }
    assert fragments.Keys == Indices(calls);
    CallsAtIndices(fragments, calls, Sorted(fragments.Keys), parse);
  }

  /** Where the loop stands after some chunks. */
  ghost predicate Streamed(chunks: seq<Chunk>, content: string, reasoning: string, usage: TokenUsage,
                           fragments: map<int, Fragment>) {
    && content == AllContent(chunks) && reasoning == AllReasoning(chunks) && usage == LastUsage(chunks)
    && Holds(fragments, AllCalls(chunks))
  }

  lemma StreamedSnoc(chunks: seq<Chunk>, i: nat, content: string, reasoning: string, usage: TokenUsage,
                     fragments: map<int, Fragment>, after: map<int, Fragment>)
    requires i < |chunks| && Streamed(chunks[..i], content, reasoning, usage, fragments)
    requires Holds(after, AllCalls(chunks[..i]) + ChunkCalls(chunks[i]))
    ensures Streamed(chunks[..i + 1], content + ChunkContent(chunks[i]), reasoning + ChunkReasoning(chunks[i]),
                     if chunks[i].usage.Some? then chunks[i].usage.value else usage, after)
  {
    assert chunks[..i + 1][..i] == chunks[..i];
  }

  lemma NoDelta(fragments: map<int, Fragment>, calls: seq<CallDelta>, content: string, reasoning: string)
    requires Holds(fragments, calls)
    ensures Holds(fragments, calls + []) && content + "" == content && reasoning + "" == reasoning
  {
    assert calls + [] == calls;
  }

  /** The loop over the chunks of a stream that ends. */
  method Consume(chunks: seq<Chunk>)
    returns (yielded: seq<Yielded>, content: string, reasoning: string, usage: TokenUsage, fragments: map<int, Fragment>)
    ensures Streamed(chunks, content, reasoning, usage, fragments)
    ensures TextOf(yielded) == content && ReasoningOf(yielded) == reasoning && NoneDone(yielded)
  {
    yielded, content, reasoning, usage, fragments := [], "", "", NO_USAGE, map[];
    for i := 0 to |chunks|
      invariant Streamed(chunks[..i], content, reasoning, usage, fragments)
      invariant TextOf(yielded) == content && ReasoningOf(yielded) == reasoning && NoneDone(yielded)
    {
      var chunk := chunks[i];
      ghost var before, text, thought, billed := fragments, content, reasoning, usage;
      if chunk.usage.Some? {
        usage := chunk.usage.value;
      }
      if chunk.delta.Some? {
        var delta := chunk.delta.value;
        reasoning, content := reasoning + delta.reasoning, content + delta.content;
        yielded := YieldDeltas(yielded, delta);
        fragments := AddFragments(fragments, delta.calls, AllCalls(chunks[..i]));
      } else {
        NoDelta(fragments, AllCalls(chunks[..i]), content, reasoning);
      }
      StreamedSnoc(chunks, i, text, thought, billed, before, fragments);
    }
    assert chunks[..|chunks|] == chunks;
  }

  /** `stream`: the deltas in arrival order, then the whole response. */
  method Stream(chunks: seq<Chunk>, parse: string -> string) returns (yielded: seq<Yielded>, response: ModelResponse)
    ensures response == ResponseOf(chunks, parse)
    ensures yielded != [] && yielded[|yielded| - 1] == StreamDone(response) && NoneDone(yielded[..|yielded| - 1])
    ensures TextOf(yielded) == response.content && ReasoningOf(yielded) == response.reasoning
  {
    var content, reasoning, usage, fragments;
    yielded, content, reasoning, usage, fragments := Consume(chunks);
    CallsFromFragments(fragments, AllCalls(chunks), parse);
    response := ModelResponse(content, FragmentCalls(fragments, Sorted(fragments.Keys), parse), usage, reasoning);
    YieldedSnoc(yielded, StreamDone(response));
    assert (yielded + [StreamDone(response)])[..|yielded|] == yielded;
    yielded := yielded + [StreamDone(response)];
  }

  // ----- interleaving does not matter -----

  /** Two arrival orders that agree on every single index give the same calls. */
  lemma InterleavingDoesNotMatter(a: seq<CallDelta>, b: seq<CallDelta>, parse: string -> string)
    requires forall k :: Pieces(a, k) == Pieces(b, k)
    ensures ToolCallsOf(a, parse) == ToolCallsOf(b, parse)
  {
    forall k ensures k in Indices(a) <==> k in Indices(b) {
      SeenHasPieces(a, k);
      SeenHasPieces(b, k);
    }
    assert Indices(a) == Indices(b);
  }

  lemma {:induction false} PiecesConcat(a: seq<CallDelta>, b: seq<CallDelta>, k: int)
    ensures Pieces(a + b, k) == Pieces(a, k) + Pieces(b, k)
  {
    if b == [] {
      assert a + b == a;
    } else {
      var init, last := b[..|b| - 1], b[|b| - 1];
      PiecesConcat(a, init, k);
      assert (a + b)[..|a + b| - 1] == a + init;
      var lastPiece := if last.index == k then [last] else [];
      assert Pieces(a, k) + Pieces(init, k) + lastPiece == Pieces(a, k) + (Pieces(init, k) + lastPiece);
    }
  }

  lemma PairSwaps(x: CallDelta, y: CallDelta, k: int)
    requires x.index != y.index
    ensures Pieces([x, y], k) == Pieces([y, x], k)
  {
    assert [x, y][..1] == [x] && [y, x][..1] == [y] && [x][..0] == [] && [y][..0] == [];
  }

  /** In particular two neighbouring fragments of different indices may arrive in either order. */
  lemma NeighboursMaySwap(before: seq<CallDelta>, x: CallDelta, y: CallDelta, after: seq<CallDelta>, parse: string -> string)
    requires x.index != y.index
    ensures ToolCallsOf(before + [x, y] + after, parse) == ToolCallsOf(before + [y, x] + after, parse)
  {
    forall k ensures Pieces(before + [x, y] + after, k) == Pieces(before + [y, x] + after, k) {
      PiecesConcat(before + [x, y], after, k);
      PiecesConcat(before + [y, x], after, k);
      PiecesConcat(before, [x, y], k);
      PiecesConcat(before, [y, x], k);
      PairSwaps(x, y, k);
    }
    InterleavingDoesNotMatter(before + [x, y] + after, before + [y, x] + after, parse);
  }
}
