/** What the invariant means to an observer of whole Run histories: histories are arbitrary lists
    of actions, so they include crashes, failures, cancellations and resumes at any point. */
module Safety {
  import opened Domain
  import opened Transcript
  import opened Protocol
  import opened Lifecycle

  // ----- at most once, in order -----

  lemma {:induction false} StageContents(trace: seq<Event>, id: string)
    ensures match Progress(trace, id)
            case Idle => Before(id) !in trace && Begin(id) !in trace && After(id) !in trace
            case Opened => Before(id) in trace && Begin(id) !in trace && After(id) !in trace
            case Executing => Before(id) in trace && Begin(id) in trace && After(id) !in trace
            case Finished => Before(id) in trace && After(id) in trace
            case Broken => true
  {
    if trace != [] {
      StageContents(trace[..|trace| - 1], id);
      assert trace == trace[..|trace| - 1] + [trace[|trace| - 1]];
    }
  }

  predicate StagesOk(trace: seq<Event>) {
    forall e :: e in trace ==> Progress(trace, e.id) != Broken
  }

  lemma StagesOkPrefix(trace: seq<Event>, e: Event)
    requires StagesOk(trace + [e])
    ensures StagesOk(trace)
  {
    TraceSnoc(trace, e);
    forall d | d in trace ensures Progress(trace, d.id) != Broken {
      assert d in trace + [e];
    }
  }

  /** No event repeats. */
  lemma {:induction false} EventsAreDistinct(trace: seq<Event>)
    requires StagesOk(trace)
    ensures forall i, j :: 0 <= i < j < |trace| ==> trace[i] != trace[j]
  {
    if trace != [] {
      var init, e := trace[..|trace| - 1], trace[|trace| - 1];
      assert trace == init + [e];
      StagesOkPrefix(init, e);
      EventsAreDistinct(init);
      StageContents(init, e.id);
      TraceSnoc(init, e);
      assert e in trace;
      assert forall i :: 0 <= i < |init| ==> trace[i] == init[i] && init[i] in init;
    }
  }

  /** Everything about a call is preceded by its `Before`. */
  lemma {:induction false} BeforeComesFirst(trace: seq<Event>)
    requires StagesOk(trace)
    ensures forall j :: 0 <= j < |trace| && !trace[j].Before? ==> Before(trace[j].id) in trace[..j]
  {
    if trace != [] {
      var init, e := trace[..|trace| - 1], trace[|trace| - 1];
      assert trace == init + [e];
      StagesOkPrefix(init, e);
      BeforeComesFirst(init);
      StageContents(init, e.id);
      TraceSnoc(init, e);
      assert e in trace;
      forall j | 0 <= j < |trace| && !trace[j].Before? ensures Before(trace[j].id) in trace[..j] {
        assert j < |init| ==> trace[..j] == init[..j];
      }
    }
  }

  /** Nothing about a call follows its `After`. */
  lemma {:induction false} AfterComesLast(trace: seq<Event>)
    requires StagesOk(trace)
    ensures forall i, j :: 0 <= i < j < |trace| && trace[i].After? ==> trace[j].id != trace[i].id
  {
    if trace != [] {
      var init, e := trace[..|trace| - 1], trace[|trace| - 1];
      assert trace == init + [e];
      StagesOkPrefix(init, e);
      AfterComesLast(init);
      StageContents(init, e.id);
      TraceSnoc(init, e);
      assert e in trace;
      assert forall i :: 0 <= i < |init| ==> trace[i] == init[i] && init[i] in init;
    }
  }

  /** Over every history no tool call starts executing twice, none is announced twice, each
      starts only after its `before_tool`, and nothing follows its `after_tool`. */
  lemma AtMostOnce(log: seq<Action>)
    requires Replay(log).Some?
    ensures var trace := Replay(log).value.trace;
      && (forall i, j :: 0 <= i < j < |trace| ==> trace[i] != trace[j])
      && (forall j :: 0 <= j < |trace| && !trace[j].Before? ==> Before(trace[j].id) in trace[..j])
      && (forall i, j :: 0 <= i < j < |trace| && trace[i].After? ==> trace[j].id != trace[i].id)
  {
    HistoryKeeps(log);
    EventsAreDistinct(Replay(log).value.trace);
    BeforeComesFirst(Replay(log).value.trace);
    AfterComesLast(Replay(log).value.trace);
  }

  /** A Run stored as waiting for approval has something to approve, and nothing it exposes was
      ever announced or started. */
  lemma WaitingIsUntouched(log: seq<Action>)
    requires Replay(log).Some? && Replay(log).value.rec.Some?
    requires Replay(log).value.rec.value.status.WaitingForApproval?
    ensures var w := Replay(log).value; var pending := UnmatchedToolCalls(w.rec.value.state.messages);
      && pending != []
      && forall c, e :: c in pending && e in w.trace ==> e.id != c.id
  {
    HistoryKeeps(log);
    var w := Replay(log).value;
    PendingWereCalled(w.rec.value.state);
    forall c, e | c in UnmatchedToolCalls(w.rec.value.state.messages) && e in w.trace ensures e.id != c.id {
      UntouchedIsIdle(w.trace, c.id);
    }
  }

  // ----- requests -----

  /** Each call has exactly one result, later than the call, and each result answers an earlier call. */
  ghost predicate Requestable(ms: seq<Message>) {
    && UnmatchedToolCalls(ms) == []
    && (forall i, id :: 0 <= i < |ms| && Calls(ms[i], id) ==> exists j :: i < j < |ms| && Answers(ms[j], id))
    && (forall j, k, id :: 0 <= j < k < |ms| && Answers(ms[j], id) ==> !Answers(ms[k], id))
    && forall j :: 0 <= j < |ms| && ms[j].role.Tool? ==>
         ms[j].toolCallId.Some? && exists i :: 0 <= i < j && Calls(ms[i], ms[j].toolCallId.value)
  }

  /** Whatever path led to it, every model request was issued from such a transcript. */
  lemma RequestsAreClosed(log: seq<Action>, state: RunState)
    requires Replay(log).Some? && state in Replay(log).value.asked
    ensures Requestable(state.messages)
  {
    HistoryKeeps(log);
    ClosedMeans(state.messages);
    AnsweredOnce(state.messages);
  }

  lemma ReplayThree(log: seq<Action>, w: World, a: Action, b: Action, c: Action)
    requires Replay(log) == Some(w) && Enabled(w, a)
    requires Enabled(Apply(w, a), b) && Enabled(Apply(Apply(w, a), b), c)
    ensures Replay(log + [a, b, c]).Some?
  {
    ReplaySnoc(log, a);
    ReplaySnoc(log + [a], b);
    ReplaySnoc(log + [a] + [b], c);
    assert log + [a, b, c] == log + [a] + [b] + [c];
  }

  lemma ClaimThenAsk(w: World, extra: Option<string>, skills: Option<Skills>, now: nat)
    requires Inv(w) && CanClaim(w, extra)
    requires !w.rec.value.status.WaitingForApproval? && w.rec.value.updatedAt < now
    ensures Closed(ClaimedLive(w, extra, skills).state.messages)
    ensures CanSwap(Claimed(w, extra, skills), now) && CanAsk(Swapped(Claimed(w, extra, skills), now))
  {
    ClaimedState(w, extra, skills);
    PendingWereCalled(ClaimedLive(w, extra, skills).state);
  }

  /** Any interrupted Run can be taken up again, and its next request is closed. */
  lemma RecoveryIsPossible(log: seq<Action>, extra: Option<string>, skills: Option<Skills>, now: nat)
    requires Replay(log).Some?
    requires var w := Replay(log).value;
      w.rec.Some? && w.live.None? && !w.rec.value.status.WaitingForApproval? && w.rec.value.updatedAt < now
    ensures Replay(log + [Claim(extra, skills), Swap(now), Ask]).Some?
    ensures Closed(ClaimedLive(Replay(log).value, extra, skills).state.messages)
  {
    HistoryKeeps(log);
    var w := Replay(log).value;
    ClaimThenAsk(w, extra, skills, now);
    ReplayThree(log, w, Claim(extra, skills), Swap(now), Ask);
  }

  lemma ReplaySnoc(log: seq<Action>, a: Action)
    ensures Replay(log + [a]) ==
            if Replay(log).Some? && Enabled(Replay(log).value, a) then Some(Apply(Replay(log).value, a)) else None
  {
    assert (log + [a])[..|log|] == log;
  }

  // ----- brackets -----

  predicate Taken(a: Action) { a.Create? || a.Claim? || a.Leave? }

  lemma StaleStep(w: World, a: Action)
    requires w.live.Some? && Enabled(w, a) && !Taken(a)
    ensures Apply(w, a).live.Some? && Apply(w, a).live.value.stale == w.live.value.stale
  {
  }

  lemma {:induction false} StaleKept(pre: seq<Action>, take: Action, mid: seq<Action>)
    requires Replay(pre + [take] + mid).Some? && (take.Create? || take.Claim?)
    requires forall a :: a in mid ==> !Taken(a)
    ensures Replay(pre).Some?
    ensures var w := Replay(pre + [take] + mid).value;
      w.live.Some? && w.live.value.stale == Dangling(Replay(pre).value.trace)
  {
    if mid == [] {
      assert pre + [take] + mid == pre + [take];
      ReplaySnoc(pre, take);
    } else {
      var init, a := mid[..|mid| - 1], mid[|mid| - 1];
      assert pre + [take] + mid == pre + [take] + init + [a];
      ReplaySnoc(pre + [take] + init, a);
      assert mid == init + [a] && a in mid && forall b :: b in init ==> b in mid;
      StaleKept(pre, take, init);
      StaleStep(Replay(pre + [take] + init).value, a);
    }
  }

  /** From taking the Run up to a return that is neither failed nor cancelled, every
      `before_tool` got its `after_tool`: only brackets left open earlier are still open. */
  lemma BracketsBalance(pre: seq<Action>, take: Action, mid: seq<Action>, status: RunStatus, now: nat)
    requires take.Create? || take.Claim?
    requires forall a :: a in mid ==> !Taken(a)
    requires Clean(status)
    requires Replay(pre + [take] + mid + [Halt(status, false, now)]).Some?
    ensures Replay(pre).Some?
    ensures Dangling(Replay(pre + [take] + mid + [Halt(status, false, now)]).value.trace)
            == Dangling(Replay(pre).value.trace)
  {
    var log := pre + [take] + mid;
    ReplaySnoc(log, Halt(status, false, now));
    StaleKept(pre, take, mid);
    HistoryKeeps(log);
    CleanHaltLeavesNoneOpen(Replay(log).value, status, false, now);
  }

  // ----- what a crash can lose -----

  /** A call the model issued is in the durable transcript from before it is announced, for ever. */
  lemma AnnouncedIsDurable(log: seq<Action>, id: string)
    requires Replay(log).Some? && id in Touched(Replay(log).value.trace) && !IsFollowUp(id)
    ensures var w := Replay(log).value; w.rec.Some? && id in Ids(CallsOf(w.rec.value.state.messages))
  {
    HistoryKeeps(log);
  }
}
