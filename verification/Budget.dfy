/** Trimming a request to the input budget (`harness/budget.py`). */
module Budget {
  import opened Domain
  import opened Tokens

  datatype BudgetConfig = BudgetConfig(contextWindow: int, outputReserve: int, safetyMargin: int)

  function Systems(ms: seq<Message>): seq<Message> {
    if ms == [] then []
    else (if ms[0].role.System? then [ms[0]] else []) + Systems(ms[1..])
  }

  function Rest(ms: seq<Message>): seq<Message> {
    if ms == [] then []
    else (if ms[0].role.System? then [] else [ms[0]]) + Rest(ms[1..])
  }

  function DropTools(ms: seq<Message>): seq<Message> {
    if ms != [] && ms[0].role.Tool? then DropTools(ms[1..]) else ms
  }

  /** Does the request with the messages from `i` on fit? */
  predicate Fits(counter: TokenCounter, request: ModelRequest, budget: int, i: nat)
    requires i <= |Rest(request.messages)|
  {
    RequestTokens(counter, ModelRequest(Systems(request.messages) + Rest(request.messages)[i..], request.tools)) <= budget
  }

  /** Every boundary tested, oldest first: where the longest tail that fits begins. */
  function LongestTail(counter: TokenCounter, request: ModelRequest, budget: int, i: nat): (start: nat)
    requires i <= |Rest(request.messages)|
    ensures i <= start <= |Rest(request.messages)|
    ensures forall k :: i <= k < start ==> !Fits(counter, request, budget, k)
    ensures start < |Rest(request.messages)| ==> Fits(counter, request, budget, start)
    decreases |Rest(request.messages)| - i
  {
    if i == |Rest(request.messages)| || Fits(counter, request, budget, i) then i
    else LongestTail(counter, request, budget, i + 1)
  }

  function BaseTokens(counter: TokenCounter, request: ModelRequest): nat {
    RequestTokens(counter, ModelRequest(Systems(request.messages), request.tools))
  }

  /** The longest contiguous tail that fits, less its leading results. */
  function KeptTail(counter: TokenCounter, request: ModelRequest, budget: int): seq<Message> {
    DropTools(Rest(request.messages)[LongestTail(counter, request, budget, 0)..])
  }

  /** The system messages and what is kept of the rest. */
  function Trimmed(counter: TokenCounter, request: ModelRequest, budget: int): ModelRequest {
    if RequestTokens(counter, request) <= budget || BaseTokens(counter, request) > budget then request
    else ModelRequest(Systems(request.messages) + KeptTail(counter, request, budget), request.tools)
  }

  datatype Limit = Limit(counter: TokenCounter, budget: int)

  /** A request as it leaves under a limit, if there is one. */
  function Within(limit: Option<Limit>, request: ModelRequest): ModelRequest {
    if limit.None? then request else Trimmed(limit.value.counter, request, limit.value.budget)
  }

  class TokenBudget {
    var counter: Option<TokenCounter>
    var config: Option<BudgetConfig>
    var inputBudget: int
    const fallback: TokenCounter

    constructor (counter: Option<TokenCounter>, dumpCalls: seq<ToolCall> -> string)
      ensures this.counter == counter && config.None? && inputBudget == 0
      ensures fallback == TokenCounter(ApproxCount, dumpCalls)
    {
      this.counter, config, inputBudget := counter, None, 0;
      fallback := TokenCounter(ApproxCount, dumpCalls);
    }

    /** `init_for_workspace`: an exact counter given earlier is kept. */
    method InitForWorkspace(project: BudgetConfig)
      modifies this
      ensures counter == Some(if old(counter).Some? then old(counter).value else fallback)
      ensures config == Some(project)
      ensures inputBudget == project.contextWindow - project.outputReserve - project.safetyMargin
    {
      if counter.None? {
        counter := Some(fallback);
      }
      config := Some(project);
      inputBudget := project.contextWindow - project.outputReserve - project.safetyMargin;
    }

    /** What is enforced: nothing before the workspace is known. */
    function Enforced(): Option<Limit>
      reads this
    {
      if counter.None? || config.None? then None else Some(Limit(counter.value, inputBudget))
    }

    /** `trim`: a limit is in force as soon as there are a counter and a workspace. */
    method Trim(request: ModelRequest) returns (r: ModelRequest)
      ensures r == Within(Enforced(), request)
      ensures counter.None? || config.None? ==> r == request
      ensures counter.Some? && config.Some? && BaseTokens(counter.value, request) <= inputBudget ==>
        RequestTokens(counter.value, r) <= inputBudget
      ensures r == request <==>
              || counter.None? || config.None?
              || RequestTokens(counter.value, request) <= inputBudget
              || BaseTokens(counter.value, request) > inputBudget
      ensures r != request ==>
        exists k: nat :: TrimsAt(counter.value, request, inputBudget, k)
                         && r == ModelRequest(Systems(request.messages) + Rest(request.messages)[k..], request.tools)
    {
      if counter.None? || config.None? {
        return request;
      }
      var tokens := CountRequestTokens(counter.value, request);
      if tokens <= inputBudget {
        return request;
      }
      r := TrimRequest(counter.value, request);
      TrimIsWithinBudget(counter.value, request, inputBudget);
      if r != request {
        var k := TrimIsExact(counter.value, request, inputBudget);
      }
    }

    /** The boundary walks from the newest message to the oldest and stops at the first overflow. */
    method GrowTail(counter: TokenCounter, request: ModelRequest) returns (start: nat)
      requires BaseTokens(counter, request) <= inputBudget
      ensures start == LongestTail(counter, request, inputBudget, 0)
    {
      var systems, rest := Systems(request.messages), Rest(request.messages);
      start := |rest|;
      TailCost(counter, request, |rest|);
      var i := |rest|;
      while i > 0
        invariant 0 <= i <= |rest| && start == i
        invariant Fits(counter, request, inputBudget, start)
      {
        var candidate := ModelRequest(systems + rest[i - 1..], request.tools);
        var tokens := CountRequestTokens(counter, candidate);
        if tokens > inputBudget {
          break;
        }
        i := i - 1;
        start := i;
      }
      StopIsLongest(counter, request, inputBudget, start);
    }

    /** The loop that drops the results orphaned at the boundary. */
    static method DropLeadingTools(tail: seq<Message>) returns (kept: seq<Message>)
      ensures kept == DropTools(tail)
    {
      kept := tail;
      while kept != [] && kept[0].role.Tool?
        invariant DropTools(kept) == DropTools(tail)
        decreases |kept|
      {
        kept := kept[1..];
      }
    }

    /** `_trim_request`. */
    method TrimRequest(counter: TokenCounter, request: ModelRequest) returns (r: ModelRequest)
      requires RequestTokens(counter, request) > inputBudget
      ensures r == Trimmed(counter, request, inputBudget)
    {
      if request.messages == [] {
        assert request == ModelRequest(Systems(request.messages), request.tools);
        return request;
      }
      var base := CountRequestTokens(counter, ModelRequest(Systems(request.messages), request.tools));
      if base > inputBudget {
        return request;
      }
      var start := GrowTail(counter, request);
      var kept := DropLeadingTools(Rest(request.messages)[start..]);
      r := ModelRequest(Systems(request.messages) + kept, request.tools);
    }
  }

  // ----- lemmas -----

  lemma TailCost(counter: TokenCounter, request: ModelRequest, i: nat)
    requires i <= |Rest(request.messages)|
    ensures RequestTokens(counter, ModelRequest(Systems(request.messages) + Rest(request.messages)[i..], request.tools))
            == BaseTokens(counter, request) + Cost(counter, Rest(request.messages)[i..])
  {
    var systems, tail := Systems(request.messages), Rest(request.messages)[i..];
    RequestIsAffine(counter, systems + tail, request.tools);
    RequestIsAffine(counter, systems, request.tools);
    CostConcat(counter, systems, tail);
  }

  /** Once a boundary overflows, every older boundary overflows too. */
  lemma OverflowIsMonotone(counter: TokenCounter, request: ModelRequest, budget: int, i: nat, j: nat)
    requires i <= j <= |Rest(request.messages)| && Fits(counter, request, budget, i)
    ensures Fits(counter, request, budget, j)
  {
    var rest := Rest(request.messages);
    TailCost(counter, request, i);
    TailCost(counter, request, j);
    assert rest[i..] == rest[i..j] + rest[j..];
    CostConcat(counter, rest[i..j], rest[j..]);
  }

  /** Stopping at the first overflow finds the same boundary as testing every one. */
  lemma StopIsLongest(counter: TokenCounter, request: ModelRequest, budget: int, start: nat)
    requires start <= |Rest(request.messages)| && Fits(counter, request, budget, start)
    requires start == 0 || !Fits(counter, request, budget, start - 1)
    ensures start == LongestTail(counter, request, budget, 0)
  {
    var first := LongestTail(counter, request, budget, 0);
    if first < start {
      OverflowIsMonotone(counter, request, budget, first, start - 1);
    }
  }

  lemma {:induction false} DropToolsIsSuffix(ms: seq<Message>)
    ensures |DropTools(ms)| <= |ms| && DropTools(ms) == ms[|ms| - |DropTools(ms)|..]
    ensures forall i :: 0 <= i < |ms| - |DropTools(ms)| ==> ms[i].role.Tool?
    ensures DropTools(ms) != [] ==> !DropTools(ms)[0].role.Tool?
  {
    if ms != [] && ms[0].role.Tool? {
      DropToolsIsSuffix(ms[1..]);
      assert forall i :: 1 <= i < |ms| ==> ms[i] == ms[1..][i - 1];
    }
  }

  /** `k` is where a trimmed request's tail begins: it fits, does not start with a result, and any
      longer tail overflows or starts with a result. */
  predicate TrimsAt(counter: TokenCounter, request: ModelRequest, budget: int, k: nat) {
    var rest := Rest(request.messages);
    && k <= |rest| && Fits(counter, request, budget, k)
    && (k < |rest| ==> !rest[k].role.Tool?)
    && forall i: nat :: i < k ==> !Fits(counter, request, budget, i) || rest[i].role.Tool?
  }

  lemma TailAfterTools(rest: seq<Message>, start: nat)
    requires start <= |rest|
    ensures var k := |rest| - |DropTools(rest[start..])|;
      && start <= k <= |rest| && DropTools(rest[start..]) == rest[k..]
      && (k < |rest| ==> !rest[k].role.Tool?)
      && forall i :: start <= i < k ==> rest[i].role.Tool?
  {
    var tail := rest[start..];
    DropToolsIsSuffix(tail);
    assert forall i :: start <= i < |rest| ==> rest[i] == tail[i - start];
  }

  lemma WhereTrimmed(counter: TokenCounter, request: ModelRequest, budget: int) returns (k: nat)
    requires BaseTokens(counter, request) <= budget
    ensures TrimsAt(counter, request, budget, k)
    ensures KeptTail(counter, request, budget) == Rest(request.messages)[k..]
  {
    var rest, start := Rest(request.messages), LongestTail(counter, request, budget, 0);
    TailAfterTools(rest, start);
    TailCost(counter, request, |rest|);
    k := |rest| - |DropTools(rest[start..])|;
    OverflowIsMonotone(counter, request, budget, start, k);
  }

  /** What trimming promises when the system prompt and the schemas fit: every system message is
      kept, followed by the longest contiguous tail that fits, less its leading results. */
  lemma TrimIsExact(counter: TokenCounter, request: ModelRequest, budget: int) returns (k: nat)
    requires BaseTokens(counter, request) <= budget < RequestTokens(counter, request)
    ensures TrimsAt(counter, request, budget, k)
    ensures Trimmed(counter, request, budget) ==
            ModelRequest(Systems(request.messages) + Rest(request.messages)[k..], request.tools)
  {
    k := WhereTrimmed(counter, request, budget);
  }

  lemma TrimIsWithinBudget(counter: TokenCounter, request: ModelRequest, budget: int)
    ensures RequestTokens(counter, Trimmed(counter, request, budget)) <= budget <==> BaseTokens(counter, request) <= budget
    ensures Trimmed(counter, request, budget) == request <==>
            RequestTokens(counter, request) <= budget || BaseTokens(counter, request) > budget
  {
    WholeCost(counter, request);
    if BaseTokens(counter, request) <= budget < RequestTokens(counter, request) {
      var k := TrimIsExact(counter, request, budget);
    }
  }

  lemma {:induction false} SplitCost(counter: TokenCounter, ms: seq<Message>)
    ensures Cost(counter, ms) == Cost(counter, Systems(ms)) + Cost(counter, Rest(ms))
  {
    if ms != [] {
      SplitCost(counter, ms[1..]);
      assert ms == [ms[0]] + ms[1..];
      CostConcat(counter, [ms[0]], ms[1..]);
      if ms[0].role.System? {
        CostConcat(counter, [ms[0]], Systems(ms[1..]));
        assert Rest(ms) == Rest(ms[1..]);
      } else {
        CostConcat(counter, [ms[0]], Rest(ms[1..]));
        assert Systems(ms) == Systems(ms[1..]);
      }
    }
  }

  /** Splitting a request into its system messages and the rest loses nothing and mixes nothing up. */
  lemma {:induction false} SplitMeans(ms: seq<Message>)
    ensures forall m :: m in Systems(ms) <==> m in ms && m.role.System?
    ensures forall m :: m in Rest(ms) <==> m in ms && !m.role.System?
    ensures multiset(Systems(ms)) + multiset(Rest(ms)) == multiset(ms)
  {
    if ms != [] {
      SplitMeans(ms[1..]);
      assert ms == [ms[0]] + ms[1..];
    }
  }

  lemma WholeCost(counter: TokenCounter, request: ModelRequest)
    ensures RequestTokens(counter, request) == BaseTokens(counter, request) + Cost(counter, Rest(request.messages))
  {
    RequestIsAffine(counter, request.messages, request.tools);
    RequestIsAffine(counter, Systems(request.messages), request.tools);
    SplitCost(counter, request.messages);
  }

  /** A second trim changes nothing. */
  lemma TrimTwice(counter: TokenCounter, request: ModelRequest, budget: int)
    ensures Trimmed(counter, Trimmed(counter, request, budget), budget) == Trimmed(counter, request, budget)
  {
    TrimIsWithinBudget(counter, request, budget);
  }
}
