/** What a visit to a Run begins with and what resolving approvals comes to, told from the record, the
    request and the human's verdicts (`harness/harness.py`, `harness/state.py`). */
module Visits {
  import opened Domain
  import opened Transcript
  import opened Protocol
  import opened Lifecycle
  import opened ToolStep
  import opened Turns
  import opened Approvals
  import opened Outcomes
  import opened Decisions
  import opened Endings
  import opened Harness

  // ----- what a visit begins with -----

  /** A fresh Run begins with the prompt and nothing else. */
  lemma FreshStart(prompt: string, skills: Skills)
    ensures SeededState(prompt, skills) ==
            RunState([Message(User, prompt, [], None, "")], 0, RunUsage(TokenUsage(0, 0, 0, 0), 0), None, skills)
  {
  }

  /** The interruption each pending call of a record gets. */
  function Interruptions(calls: seq<ToolCall>): seq<Message> {
    seq(|calls|, i requires 0 <= i < |calls| =>
      ResultMessage(calls[i], "Tool execution was interrupted before it completed; its effect is unknown."))
  }

  /** A waiting Run is taken as it is; any other gets an interruption for each pending call, in order, and
      then the prompt, if there is one. Skills are replaced if new ones are given; nothing else changes. */
  lemma ResumesWith(w: World, extra: Option<string>, skills: Option<Skills>)
    requires w.rec.Some?
    ensures var state, stored := ClaimedLive(w, extra, skills).state, w.rec.value.state;
      && state == stored.(messages := state.messages, skills := if skills.Some? then skills.value else stored.skills)
      && state.messages ==
         if w.rec.value.status.WaitingForApproval? then stored.messages
         else stored.messages + Interruptions(UnmatchedToolCalls(stored.messages)) +
              if extra.Some? then [Message(User, extra.value, [], None, "")] else []
  {
    var loaded := Loaded(w, skills);
    var rs := Interrupted(UnmatchedToolCalls(loaded.messages));
    FoldAdds(loaded, rs);
    FoldShape(loaded, rs);
    assert Folded(rs) == Interruptions(UnmatchedToolCalls(loaded.messages));
  }

  /** Skills given at a resume replace the stored ones, each list by its own. */
  lemma ResumesWithSkills(w: World, prompt: Option<string>, runExtra: Option<seq<string>>, selectedSkills: Option<seq<string>>)
    requires w.rec.Some? && (runExtra.Some? <==> selectedSkills.Some?)
    ensures var skills, stored := ClaimedLive(w, prompt, Reselected(runExtra, selectedSkills)).state.skills,
                                  w.rec.value.state.skills;
      && skills.runExtra == (if runExtra.Some? then runExtra.value else stored.runExtra)
      && skills.selectedSkills == (if selectedSkills.Some? then selectedSkills.value else stored.selectedSkills)
  {
    ResumesWith(w, prompt, Reselected(runExtra, selectedSkills));
  }

  /** A resume is refused, before anything changes, in exactly three cases. */
  lemma RefusedIff(w: World, prompt: Option<string>, runExtra: Option<seq<string>>, selectedSkills: Option<seq<string>>)
    ensures var refusal := ResumeRefusal(w, prompt, runExtra, selectedSkills);
      && (refusal == Some(SkillsApart) <==> runExtra.Some? != selectedSkills.Some?)
      && (refusal == Some(UnknownRun) <==> (runExtra.Some? <==> selectedSkills.Some?) && w.rec.None?)
      && (refusal == Some(WaitsForApproval) <==>
            (runExtra.Some? <==> selectedSkills.Some?) && w.rec.Some? && w.rec.value.status.WaitingForApproval? && prompt.Some?)
      && (refusal.None? ==> CanClaim(w.(live := None), prompt))
  {
  }

  // ----- resolving approvals -----

  /** Some approved call loses to the cancellation. */
  predicate LosesApproved(calls: seq<ToolCall>, verdicts: Verdicts, tools: Tools) {
    exists c :: c in calls && c.id in verdicts && verdicts[c.id].Approve? && tools(c).CancelFirst?
  }

  predicate LeavesOne(calls: seq<ToolCall>, verdicts: Verdicts) { exists c :: c in calls && c.id !in verdicts }

  lemma StopsIffApprovedLoses(pending: seq<ToolCall>, verdicts: Verdicts, tools: Tools)
    ensures AnyStopped(DecidedOrders(pending, verdicts), tools) <==> LosesApproved(pending, verdicts, tools)
    ensures StillPending(pending, verdicts) != [] <==> LeavesOne(pending, verdicts)
  {
    var orders := DecidedOrders(pending, verdicts);
    DecidedMembers(pending, verdicts);
    VerdictDecides(pending, verdicts);
    ExceptIds(pending, verdicts.Keys);
    if LosesApproved(pending, verdicts, tools) {
      var c :| c in pending && c.id in verdicts && verdicts[c.id].Approve? && tools(c).CancelFirst?;
      var k :| 0 <= k < |CallsOfOrders(orders)| && CallsOfOrders(orders)[k] == c;
      assert orders[k] in orders && Outcome(orders[k], tools).Stopped?;
    }
    if AnyStopped(orders, tools) {
      var k :| 0 <= k < |orders| && Outcome(orders[k], tools).Stopped?;
      assert orders[k] in orders;
    }
    if StillPending(pending, verdicts) != [] {
      assert StillPending(pending, verdicts)[0] in StillPending(pending, verdicts);
    }
  }

  /** How resolving approvals ends if nobody disturbs it: cancelled, paused again on exactly the calls
      without a verdict, or on to the loop; each call with a verdict has its result by then. */
  lemma ApprovalsEnd(start: RunState, verdicts: Verdicts, tools: Tools, visit: Visit)
    requires visit.fault.None? && !visit.raises
    ensures var r, pending, n := ApprovalsResult(start, verdicts, tools, visit), UnmatchedToolCalls(start.messages),
                                 start.completedModelCalls;
      var resolved := start.messages + Told(pending, VerdictRule(verdicts), tools);
      if pending == [] then r == GoesOn(start)
      else if visit.cancelled then EndsAs(r, Cancelled, start.messages, n, [])
      else if LosesApproved(pending, verdicts, tools) then EndsAs(r, Cancelled, resolved, n, [])
      else if LeavesOne(pending, verdicts) then
        EndsAs(r, WaitingForApproval, resolved, n, Except(pending, verdicts.Keys))
      else r.GoesOn? && r.state.messages == resolved && r.state.completedModelCalls == n
  {
    var pending := UnmatchedToolCalls(start.messages);
    var orders := DecidedOrders(pending, verdicts);
    DecidedCarries(pending, verdicts);
    BatchResults(orders, pending, VerdictRule(verdicts), tools);
    FoldAdds(start, Settled(orders, tools));
    FoldCounts(start, Settled(orders, tools));
    StopsIffApprovedLoses(pending, verdicts, tools);
  }
}
