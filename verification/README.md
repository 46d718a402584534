# Milky Frog: a verified model

Milky Frog is a coding agent. A *Run* is a transcript plus a durable record; a loop asks a model,
runs the tool calls it answers with, halts when a human must approve a call, and can be cancelled,
crash and be resumed at any point. This project models that lifecycle in Dafny, with the code that
shapes each model request and with several self-contained algorithms, and proves what they promise.

`dafny verify dfyconfig.toml` checks everything.

## How it is built

**The Run lifecycle.** `Protocol` describes it as a transition system: one record, at most one live
process, the tool events subscribers saw, the transcripts requests were issued from. An action is
enabled by facts the code has at hand at that point; that no call runs twice is a theorem, not a
guard. `Lifecycle` proves an invariant preserved by every action, `Safety` and `Accounts` draw the
consequences over arbitrary histories: crashes, failures, cancellations, resumes and interrupts
anywhere. `Checkpoints`, `Hub`, `Batch`, `Loop` and `Harness` are the imperative code, as classes and
methods with the source's branches. The hub carries a ghost log; every announcement, write and
request a method makes must be a legal protocol action, so the theorems hold of every sequence of
entry-point calls (`Harness.EveryVisitIsSafe`). `Outcomes` says, as a function of the script, what a
turn and a run of turns must come to, faults at every event included; the methods of `Loop` and
`Harness` are proved to do exactly that. `Transcript`, `ToolStep`, `Turns` and `Approvals` hold the
pure parts and what they mean; `OneByOne` compares ways of answering a paused Run. Because the methods
are held to functions, `Decisions`, `Endings` and `Visits` say once more what those come to, without
them: which calls start and what the transcript says about each, told from the policy and the verdicts;
how a turn, a run of turns and the resolving of approvals end, told from the answers and the faults.

**Request shaping.** `Tokens`, `Compaction` and `Budget` prove the counter, the cut and the trim
against exact specifications. `Pipeline` composes them with the lifecycle: which transcripts may be
cut where, which turns make them so, and that the requests sent keep results with their calls;
`Sending` says what a request shows, when a turn compacts, and that what leaves fits the budget.
`FollowUps` shows what breaks it, on input a Run can reach.

**Self-contained algorithms.** `Truncation`, `Grep`, `Streaming`, `Sampler`, `Containers`, `Score`.

## What the environment is

Everything outside the modelled code is a parameter: model answers, tool outcomes, policy decisions,
cancellation polls, exceptions and cancelled tasks at any event, what the summariser returns, what
`docker run` does. Policy and tools are functions of the call, which is no restriction because each
call is decided once and runs at most once. The loop's turns come as a script; a script that runs out
is a process that dies there. What is assumed:

- the claim lock gives one process at a time, and each write carries a strictly later time;
- ids of the model's calls are new across the Run and do not end in `:follow-up`;
- stored states load as they were dumped (transcripts hold no system message);
- container names and ids are unique.

## What came out

- **A follow-up call that policy lets run at once starts before it is stored**
  (src/milky_frog/events/loop.py:197-216). A crash while it runs forgets it, unlike every call the
  model issued (`Safety.AnnouncedIsDurable`). A follow-up is stored when it is opened if and only if
  the policy holds it for approval (`FollowUps.FollowUpStoredIffHeld`). In the other case a process
  that goes before the first result of the follow-ups is stored loses it, and only then
  (`FollowUps.DyingTurnForgets`); `FollowUps.ExampleForgets` is a Run on which it does.
- **Follow-ups can separate results from their calls.** The comments at
  src/milky_frog/harness/budget.py:35-39 and src/milky_frog/harness/compaction.py:92-96 promise that
  trimming and compaction never leave an orphaned result. That holds exactly for transcripts in which
  each result answers the nearest preceding non-result (`Pipeline.CutsAreSafeIffGrouped`), that is,
  in which each turn began with nothing pending (`Pipeline.GroupedIffOrderly`). A turn keeps this if
  and only if it synthesises no follow-up, or one with nothing held beside it
  (`Pipeline.TurnIsTidyIffQuiet`): two follow-ups of one batch break it as a held call does. The
  automatic cut can then drop a call and send its result, with the default counter too and on a Run
  that can be reached (`FollowUps.UnpairedRequestIsSent`, `FollowUps.MixedTurnIsReachable`). As long
  as turns keep the condition, every request really sent is safe (`Pipeline.EverySentRequestIsPaired`).
- **Folding the whole transcript while calls are pending** sends their results without the calls;
  `Pipeline.FullFoldIsSafeIffClosed` gives the exact condition. The command that does it on demand
  does not check it, so it can hit a Run that waits for approval (`Harness.AgentHarness.CompactOnDemand`).
- **A follow-up requested by a tool that ran after approval is dropped**, as is one requested by a
  follow-up (`Harness.ResolvedCalls`, `Turns.SecondBatchCalls`).
- **Nothing catches an exception while approvals are resolved.** If the verdicts' batch breaks off, the
  record stays RUNNING with the results stored by then, and whoever takes the Run next seals the rest;
  it is left RUNNING there in no other case. An observer that raises at the terminal event comes too
  late for that: the record already says CANCELLED, or WAITING_FOR_APPROVAL, which the next resume does
  not seal (`Harness.LetInLeaves`, `Harness.BrokenPending`, `Harness.NextClaimSeals`).
- **For a single long line the notice's offset is 1**, so reading on from it returns the whole text
  and not the omitted middle; for several lines the offset is exact
  (`Truncation.SingleLineReadsItAll`, `Truncation.ReadContinuesTheHead`). The branch for overlapping
  head and tail cannot be reached.

## Model

Source paths are relative to the repository's root.

| member | source | states |
|---|---|---|
| Transcript.Seal | src/milky_frog/harness/state.py:94-110 | repairing appends one interruption result per pending call, in transcript order, and reports whether anything was pending |
| Transcript.SealCloses | src/milky_frog/harness/state.py:94-110 | a sealed transcript has nothing pending, extends the original, issues no new call, and sealing it again changes nothing |
| Transcript.UnmatchedSnoc | src/milky_frog/harness/state.py:113-137 | how each kind of next message changes the pending calls: a result removes exactly its call, a reply adds exactly its calls, whatever stood between |
| Transcript.FoldKeepsOthers | src/milky_frog/harness/state.py:84-91 | folding results for some pending calls leaves exactly the others pending, in order, and only extends the transcript |
| Transcript.AnsweredOnce | src/milky_frog/harness/state.py:113-137 | in every transcript the operations build, a result answers a call of a strictly earlier message and no call is answered twice |
| Transcript.ClosedMeans | src/milky_frog/harness/state.py:113-137 | with nothing pending every call has a result after it |
| Lifecycle.HistoryKeeps | src/milky_frog/harness/harness.py:72-321 | every world reachable by any list of starts, claims, swaps, turns, batches, halts, failures, cancellations, interrupts and deaths satisfies the protocol's invariant |
| Lifecycle.ClaimedState | src/milky_frog/harness/harness.py:125-139 | the state taken up on resume is well formed, knows the stored calls, and has nothing pending unless the Run waits for approval |
| Safety.AtMostOnce | src/milky_frog/harness/harness.py:231-321 | over every history no call is announced, started or finished twice; its `before_tool` comes first and nothing about it follows its `after_tool` |
| Safety.WaitingIsUntouched | src/milky_frog/harness/harness.py:280-321 | a Run stored as waiting for approval has something pending, and no event of any history concerns a pending call |
| Safety.RequestsAreClosed | src/milky_frog/events/loop.py:107-141 | whichever path led to it, a model request is issued from a transcript in which each call has exactly one result, later than the call, and each result an earlier call |
| Safety.RecoveryIsPossible | src/milky_frog/harness/harness.py:123-149 | from every interrupted Run a claim, a swap and a request are possible, and that request's transcript is closed |
| Safety.BracketsBalance | src/milky_frog/events/loop.py:220-226 | from taking a Run to a completed, paused or waiting return, every opened tool bracket was closed: only those left open before are still open |
| Accounts.AccountsBalance | src/milky_frog/harness/state.py:49-81 | across all resumes: the answers of the history that reached the stored state are named by position, in order; its model messages are theirs, it counts exactly them, each of the four parts of its cumulative usage is the sum of that part over them, its context size is the prompt of the last one that came with a usage, and its assistant messages number completed calls plus synthesised calls |
| Accounts.BillIsTheSum | src/milky_frog/domain/usage.py:31-62 | recording usages one after the other adds each part up and keeps the last prompt that came with a usage |
| Accounts.EveryAnswerIsBilled | src/milky_frog/handlers/checkpoint.py:46-47 | when each answer is stored on its event, the stored state holds every answer the Run ever received and bills each of their four parts in full, whatever crashed later; its context size is the latest prompt |
| Safety.AnnouncedIsDurable | src/milky_frog/handlers/checkpoint.py:46-50 | a call the model issued is in the stored transcript from before it is announced, for ever |
| Outcomes.OpenedInTurn | src/milky_frog/events/loop.py:189-216 | within a turn a call is in the stored transcript when it is opened if and only if the model issued it; the others are the follow-ups the policy lets run at once |
| FollowUps.FollowUpStoredIffHeld | src/milky_frog/events/loop.py:189-226 | wherever a follow-up is opened, in its own turn or for a verdict after the pause, it is in the stored transcript at that moment if and only if the policy held it for approval |
| FollowUps.EveryFollowUpIsOpened | src/milky_frog/events/loop.py:200-226 | undisturbed, each follow-up is opened: at once and unstored, or stored and for its verdict |
| FollowUps.DyingTurnForgets | src/milky_frog/events/loop.py:189-218 | for every turn whose process goes in the follow-ups' batch: a follow-up opened by then was opened unstored, and is missing from the record left if and only if no result of that batch was stored yet |
| FollowUps.ResumeForgets | src/milky_frog/harness/harness.py:133-139 | a call the record does not know is not known to the next claim either |
| FollowUps.CrashForgetsFollowUp | src/milky_frog/events/loop.py:197-216 | as a history: when the one call that may run asks for a follow-up the policy allows, that can have started when the process dies, and neither the stored nor the resumed transcript knows it |
| FollowUps.ExampleForgets | src/milky_frog/events/loop.py:197-216 | the same for one concrete policy that allows the follow-up and one concrete answer |
| Checkpoints.CheckpointStore.CreateRun | src/milky_frog/checkpoint/sqlite.py:27-38 | inserts an empty RUNNING row, leaves an existing row and all others alone |
| Checkpoints.CheckpointStore.SaveState | src/milky_frog/checkpoint/sqlite.py:40-60 | replaces the state, keeps status and final message when none is given, never creates a row, touches no other row |
| Checkpoints.CheckpointStore.PrepareResume | src/milky_frog/checkpoint/sqlite.py:72-97 | swaps to RUNNING if and only if the row still carries the expected time, otherwise changes nothing |
| Checkpoints.CheckpointStore.SealInterrupt | src/milky_frog/core/runtime/checkpoint.py:60-72 | exactly a RUNNING row is sealed and stored as CANCELLED |
| Checkpoints.CheckpointStore.Prune | src/milky_frog/checkpoint/sqlite.py:116-135 | removes exactly the stale rows, of one workspace or of all, that are not active or waiting, none on a dry run, and counts them either way |
| Hub.EventHub.BeforeTool | src/milky_frog/events/hub.py:159-160 | announcing a call is a legal protocol action and writes nothing |
| Hub.EventHub.AfterTool | src/milky_frog/handlers/checkpoint.py:49-50 | folding and announcing a result, then storing the folded state, are two legal protocol actions and the whole effect |
| Hub.EventHub.AfterModel | src/milky_frog/handlers/checkpoint.py:46-47 | the answer is stored before anything of it can be announced |
| Hub.EventHub.RunStarted | src/milky_frog/handlers/checkpoint.py:43-44 | announcing a fresh Run stores its seeded state and that it is RUNNING, which is a legal protocol action |
| Hub.EventHub.PrepareResume | src/milky_frog/harness/harness.py:246-246 | the swap succeeds if and only if nobody wrote since the load, and is then the protocol's swap; otherwise nothing changes |
| Hub.EventHub.Terminate | src/milky_frog/handlers/checkpoint.py:52-58 | a terminal event stores its status with the state the handler was given, current or lagging |
| ToolStep.ResolveBatch | src/milky_frog/events/tool_step.py:112-140 | the results of exactly the calls that completed, in request order, and whether any was stopped |
| ToolStep.SettledExactly | src/milky_frog/events/tool_step.py:112-140 | a call of the batch is settled if and only if it was not stopped, with its own result, once |
| Batch.AnnounceAll | src/milky_frog/events/loop.py:260-261 | every call is announced in order, or an observer's exception stops it there; what each announcement showed of the stored transcript |
| Batch.StartAll | src/milky_frog/events/loop.py:263-272 | exactly the calls that were not refused start to execute |
| Batch.FoldBatch | src/milky_frog/events/loop.py:274-278 | results are folded, announced and stored one by one in request order, or the batch breaks off with exactly those before the fault |
| Batch.RunBatch | src/milky_frog/events/loop.py:241-278 | the batch's whole effect on state, record, open calls and event trace; every result that completed is folded before a cancellation is reported; it breaks off if and only if a fault falls within it, and then leaves exactly the events and the stored results up to the fault |
| Turns.SplitIds | src/milky_frog/events/loop.py:159-169 | the runnable and the held calls split the response, and the held ones keep their order |
| Turns.CompletedWorkIsKept | src/milky_frog/core/runtime/execute_tool.py:73-106 | whatever part of a batch is cancelled, each tool that finished is in the folded transcript with its result, even if the cancellation came in the same instant; each refusal is; a tool that lost stays pending; no call is added |
| Turns.PolicyDecides | src/milky_frog/events/tool_step.py:53-78 | of the calls that wait for nobody exactly those the policy allows are to be executed |
| Decisions.PolicyIsObeyed | src/milky_frog/events/tool_step.py:53-78 | a batch opens a call if and only if it waits for nobody, starts it if and only if the policy allows it, closes it if and only if it is denied or its tool finished; a denied call's result is the refusal, one that ran has its tool's; the results stand in the order of the calls and nothing else is added |
| Decisions.VerdictsAreObeyed | src/milky_frog/events/tool_step.py:80-110 | a batch of verdicts opens every pending call that has one and starts it if and only if it was approved; a rejected call's result is the rejection, with the reason if there is one; the results stand in the order of the calls and nothing else is added |
| Decisions.BatchOpens | src/milky_frog/events/loop.py:260-272 | a batch that carries any ruling out opens the calls that do not wait, in order, and starts those that may run, in order |
| Decisions.BatchResults | src/milky_frog/events/loop.py:274-278 | and its events, results and requested follow-ups are those of the refused calls and of the calls that ran, in order |
| Decisions.TurnTranscript | src/milky_frog/events/loop.py:153-218 | a turn's tools add, in order: the results of the model's calls, the follow-ups those ask for, and their results; a refused call asks for none |
| Decisions.TurnObeysPolicy | src/milky_frog/events/loop.py:153-218 | throughout an undisturbed turn, follow-ups included, a call is opened if and only if it waits for nobody, started if and only if the policy allows it, closed if and only if it is denied or its tool finished |
| Decisions.TurnTells | src/milky_frog/events/loop.py:153-229 | whether such a turn goes on, pauses or is cancelled, what it leaves has the refusal of every denied call and the result of every tool that finished |
| Outcomes.ToolsStart | src/milky_frog/events/loop.py:159-218 | disturbed or not, whatever a turn's tools start was opened in it and is allowed by the policy |
| Turns.SecondBatchCalls | src/milky_frog/events/loop.py:189-218 | a turn's tools add follow-up calls to the transcript and no others |
| Turns.FollowUpsAreNew | src/milky_frog/events/loop.py:189-198 | no transcript holds a follow-up before it is synthesised |
| Outcomes.CancelledTurnKeepsWork | src/milky_frog/events/loop.py:171-218 | a turn cancelled among its tools stores the results of every call that completed, of the follow-ups too if it got that far; if it did not, no follow-up was added |
| Outcomes.TurnGrows | src/milky_frog/events/loop.py:107-239 | whatever happens in a turn, faults and deaths included, the record it leaves extends the transcript it began with; one that goes on completed one model call and issued one request, any other completed no more than it asked for |
| Outcomes.LimitIsKept | src/milky_frog/events/loop.py:107-107 | with a positive limit no more requests are issued than it allows |
| Outcomes.PausedOnlyAtLimit | src/milky_frog/events/loop.py:231-232 | a run of the loop always ends, leaves a transcript that extends the one it began with, and is paused only at a positive limit that is reached |
| Outcomes.LimitedLoopReturns | src/milky_frog/events/loop.py:107-232 | without faults a limited loop given enough turns hands the Run back and never as FAILED |
| Endings.UndisturbedTurn | src/milky_frog/events/loop.py:107-229 | how an undisturbed turn ends, for every answer, policy and behaviour of the tools: cancelled, COMPLETED with the answer as last message, waiting on exactly the held calls, or going on, with the exact transcript and call count of each case |
| Endings.CompletesIff | src/milky_frog/events/loop.py:144-148 | a turn, disturbed or not, completes the Run if and only if the model answers in time and without tool calls and nothing breaks that off; the answer is then the last message |
| Endings.RunCompletesIff | src/milky_frog/events/loop.py:107-148 | a run of turns completes the Run if and only if one that is reached before the limit does |
| Endings.CompletedThere | src/milky_frog/events/loop.py:107-148 | the first such turn ends it COMPLETED, with its answer as last message, after one request a turn |
| Endings.RunPausesIff | src/milky_frog/events/loop.py:107-232 | a run of turns pauses at the limit if and only if all the turns the limit allows went on, having made exactly that many calls |
| Endings.FaultsAreHandled | src/milky_frog/events/loop.py:234-239 | at every site of a turn: an exception fails the Run, a cancellation cancels it, both with the same state and nothing exposed, and a task cancelled while its Run is not leaves it RUNNING; if one of them does not strike there, none does and the turn ends as without it |
| Endings.WhereItFails | src/milky_frog/events/loop.py:130-142 | a failing model call, or an observer that raises before it, ends the Run FAILED with the transcript it was asked from; one that raises at the answer leaves the answer, and so does a batch that breaks off |
| Endings.PartingIsHandled | src/milky_frog/events/loop.py:234-239 | an observer that raises at a terminal event turns the status just stored into FAILED or CANCELLED with the same state |
| Loop.ApplyControl | src/milky_frog/events/loop.py:44-61 | proposals are applied in order: the last one stands, none leaves the state alone |
| Loop.Shape | src/milky_frog/events/loop.py:115-123 | the state a request is issued from is the head state with the compaction handler's proposal, if it makes one |
| Loop.SendRequest | src/milky_frog/events/loop.py:124-128 | what is sent is the assembled state, trimmed to the budget in force if there is one, and that is what it is recorded to be made of |
| Loop.TakeReply | src/milky_frog/events/loop.py:130-142 | only an answer that beats cancellation is taken; then exactly its calls are pending and may be opened; how each fault ends the Run |
| Loop.AfterAnswer | src/milky_frog/events/loop.py:144-151 | the Run completes, with the answer's text as its result, if and only if the answer has no calls and nothing breaks off its end; otherwise cancellation is honoured, otherwise nothing changes |
| Loop.SpawnFollowUps | src/milky_frog/events/loop.py:189-198 | one follow-up per result that asks for one, in result order, each pending behind what was held, nothing written |
| Loop.RunFirstBatch | src/milky_frog/events/loop.py:171-187 | broken off it ends the Run as FAILED, cancelled or dead with the state before it, exactly when the fault falls within it; cancelled, with all completed results and no follow-up; otherwise exactly the held calls stay pending and the record is the folded state |
| Loop.RunSecondBatch | src/milky_frog/events/loop.py:200-218 | the same for the follow-ups' batch, whose calls are opened while the record still lacks them |
| Loop.CloseTurn | src/milky_frog/events/loop.py:220-229 | the Run halts if and only if something is held, exposing exactly that; otherwise the turn is over |
| Loop.RunTools | src/milky_frog/events/loop.py:153-229 | which status and which transcript each way of ending a turn's tools stores, when each happens, and what a turn that goes on leaves; exactly which events its two batches add; which calls were opened unstored |
| Loop.HandleFault | src/milky_frog/events/loop.py:234-239 | an exception stores FAILED and a cancelled task of a cancelled Run CANCELLED, both with the loop's own lagging state, also if their observers raise again; any other cancelled task leaves the record as it was and the process dies |
| Loop.EndRun | src/milky_frog/events/emitter.py:168-231 | the result reports the stored status, call count and usage, and a clean end leaves no call of this visit open; an observer that raises there turns it into a failure or cancellation |
| Loop.AgentLoop.TakeTurn | src/milky_frog/events/loop.py:107-239 | an iteration asks at most once, from exactly the shaped state, and ends the Run as its case prescribes, leaves exactly the record prescribed if the process goes, or returns to the loop's head with exactly the state the turn must come to, stored |
| Loop.AgentLoop.Advance | src/milky_frog/events/loop.py:84-239 | the requests are issued from exactly the states the turns must come to, and the Run ends exactly as they prescribe: paused at the limit, ended by a turn, or dead with exactly that record; of the calls opened exactly the follow-ups were unstored; every tool that started was opened and allowed by the policy; every request was made with the prompt, the schemas and the budget in force |
| Loop.AgentLoop.PauseOrDie | src/milky_frog/events/loop.py:231-232 | past the loop the Run is paused exactly when the limit was reached |
| Approvals.ResolvesExactly | src/milky_frog/harness/harness.py:280-321 | a map of verdicts resolves exactly the pending calls it names and leaves exactly the others, in transcript order |
| Approvals.AnswerFirst | src/milky_frog/harness/harness.py:153-189 | a single verdict resolves the oldest pending call and the rest moves up |
| Approvals.BatchEqualsOneAtATime | src/milky_frog/harness/harness.py:153-223 | the same verdicts given in one batch or one call at a time give the same transcript, with nothing pending |
| Approvals.PortionsLeaveTheSame | src/milky_frog/harness/harness.py:191-223 | in whatever portions verdicts arrive, the same calls stay pending |
| Harness.ApplyApprovals | src/milky_frog/harness/harness.py:264-321 | every decided call is opened and closed, rejections included; exactly which events that adds; the visit ends cancelled with all completed results, or halted on exactly the undecided calls, or goes on with the record holding the resolved state; if the batch breaks off the record stays RUNNING with the results stored by then |
| Harness.LetInLeaves | src/milky_frog/harness/harness.py:231-321 | for every visit of the resume and approval entry points that is let in and stops short of the loop: the record is left RUNNING if and only if the verdicts' batch broke off, with exactly the results stored by then; otherwise it holds the terminal status and state, whether or not an observer raised there |
| Harness.BrokenPending | src/milky_frog/harness/harness.py:289-314 | a batch broken off leaves exactly the calls pending whose results were not stored by then |
| Harness.NextClaimSeals | src/milky_frog/harness/harness.py:123-139 | whoever takes a RUNNING record next closes it, with an interruption for each call it left pending; a waiting one is taken as it is |
| Visits.FreshStart | src/milky_frog/harness/harness.py:76-91 | a fresh Run begins with the prompt, no usage, no compaction and its skills |
| Visits.ResumesWith | src/milky_frog/harness/harness.py:123-139 | a waiting Run is taken as it is; any other gets an interruption for each pending call, in order, and then the prompt as the user's words; nothing else changes but the skills, if new ones are given |
| Visits.ResumesWithSkills | src/milky_frog/harness/harness.py:115-135 | skills given at a resume replace the stored ones, each list by its own |
| Visits.ApprovalsEnd | src/milky_frog/harness/harness.py:264-321 | resolving approvals undisturbed ends cancelled if and only if it was cancelled on entry or an approved call lost to a cancellation, waits again if and only if a call has no verdict, exposing exactly those, and otherwise goes on; with the exact transcript of each case |
| Harness.ApprovalsAreStored | src/milky_frog/harness/harness.py:280-297 | every call opened for a verdict was pending in the stored transcript |
| Harness.ResolvedCalls | src/milky_frog/harness/harness.py:309-314 | resolving approvals adds no call: a follow-up requested there is dropped |
| Harness.VerdictsStart | src/milky_frog/harness/harness.py:297-321 | resolving approvals starts a tool only if it was opened there and a human approved it |
| Harness.AgentHarness.Seed | src/milky_frog/harness/harness.py:76-91 | the record is created empty and the seeded transcript stored when the Run is announced; what an observer that raises before or there leaves |
| Harness.AgentHarness.Run | src/milky_frog/harness/harness.py:72-101 | a fresh Run asks exactly the requests its turns must come to from the seeded transcript and is handed back exactly as they prescribe; a clean end leaves exactly the brackets open that were open before |
| Harness.AgentHarness.Load | src/milky_frog/harness/harness.py:133-139 | the state gone on from is the stored one with the skills given now, sealed and extended by the prompt unless it waits |
| Harness.AgentHarness.Resume | src/milky_frog/harness/harness.py:103-151 | skills given apart, unknown Runs and prompts to waiting Runs are refused, in that order, without any change; a waiting Run re-halts on everything pending; any other loops from its sealed transcript, asking and ending exactly as its turns prescribe; a clean end balances the brackets; what record a death leaves |
| Harness.AgentHarness.RespondApproval | src/milky_frog/harness/harness.py:153-189 | the verdict goes to the oldest pending call, which exists; everything else as for a map with one entry |
| OneByOne.VisitsEqualOneVisit | src/milky_frog/harness/harness.py:153-223 | visits of `respond_approval`, one per pending call and undisturbed up to the loop, end in exactly what one visit of `respond_approvals` with all the verdicts is held to: the same record, requests and result |
| Harness.AgentHarness.RespondApprovals | src/milky_frog/harness/harness.py:191-223 | refused unless the Run waits; resolves the pending calls with a verdict and re-halts on exactly the others, with the transcript that resolving them gives; with none left the loop goes on from that transcript; once let in and short of the loop, the record is left RUNNING if and only if the batch broke off |
| Harness.AgentHarness.TakeOver | src/milky_frog/harness/harness.py:243-246 | the visit is kept out if and only if an observer raised before the swap or somebody interrupted a RUNNING record since the load; then nothing ran |
| Harness.AgentHarness.Continue | src/milky_frog/harness/harness.py:252-258 | from a prepared state the loop runs and the record handed back is the one it left |
| Harness.AgentHarness.CompactOnDemand | src/milky_frog/app/session.py:487-516 | with or without a live process, the whole stored transcript is folded into a non-empty summary and the status kept, or nothing changes; the summariser is shown the summary so far and exactly the messages it does not stand for; nothing there looks at what is pending |
| Harness.AgentHarness.AdvancePrepared | src/milky_frog/harness/harness.py:231-258 | a lost swap runs nothing; otherwise approvals, then the loop, with the outcome and the record each case prescribes, a death after the swap included; whatever happens, every tool that started was opened, and allowed by the policy or approved by the verdicts |
| Harness.EveryVisitIsSafe | src/milky_frog/harness/harness.py:72-321 | after any sequence of entry points the event trace announces, starts and finishes each call at most once and in order, in every transcript a request was issued from each call has its one result, and the stored state counts every answer ever received and bills each of their parts |
| Tokens.CountMessages | src/milky_frog/tokens/base.py:73-81 | the two accumulating loops compute the affine framing over every text |
| Tokens.CountRequestTokens | src/milky_frog/tokens/request.py:23-26 | messages plus tool schemas |
| Tokens.RequestIsAffine | src/milky_frog/tokens/base.py:1-16 | a request costs a constant plus its schemas plus a sum over its messages |
| Tokens.RoundTenths | src/milky_frog/tokens/base.py:100-100 | the nearest integer, ties to even |
| Tokens.CountIsMonotone | src/milky_frog/tokens/base.py:88-100 | adding text on either side never lowers the count |
| Tokens.CutInTwo | src/milky_frog/tokens/base.py:88-100 | cutting a text into two non-empty parts changes the total by at most one |
| Tokens.CountIsNearlyAdditive | src/milky_frog/tokens/base.py:88-100 | splitting a text into k non-empty pieces changes the total by at most k - 1 |
| Tokens.BoundsAreTight | src/milky_frog/tokens/base.py:88-100 | both bounds are reached |
| Budget.TokenBudget.InitForWorkspace | src/milky_frog/harness/budget.py:51-65 | an exact counter given earlier is kept; the input budget is the window less reserve and margin |
| Budget.TokenBudget.Trim | src/milky_frog/harness/budget.py:67-73 | with a counter and a workspace the result is within the input budget whenever the system prompt and the schemas alone are; it is the request itself if and only if the counter or the workspace is unknown, the request fits, or those alone do not; otherwise it is the system messages and the exact kept tail |
| Budget.TokenBudget.TrimRequest | src/milky_frog/harness/budget.py:81-120 | the trimmed request, or the request itself when the system prompt and schemas alone are over the budget |
| Budget.SplitMeans | src/milky_frog/harness/budget.py:94-95 | setting the system messages apart loses nothing and mixes nothing up |
| Budget.TokenBudget.GrowTail | src/milky_frog/harness/budget.py:107-114 | the scan that stops at the first overflow ends at the boundary of the longest tail that fits |
| Budget.OverflowIsMonotone | src/milky_frog/harness/budget.py:107-114 | a boundary that fits stays fitting when messages are dropped |
| Budget.StopIsLongest | src/milky_frog/harness/budget.py:107-114 | the first overflow met from the newest end is the boundary of the longest tail that fits |
| Budget.TrimIsExact | src/milky_frog/harness/budget.py:81-120 | a trimmed request is the system messages plus a contiguous tail that fits and starts with no result, and every longer tail overflows or starts with a result |
| Budget.TrimIsWithinBudget | src/milky_frog/harness/budget.py:97-105 | the outcome is within the budget if and only if the system prompt and schemas are; it is unmodified exactly when it already fits or cannot be made to |
| Budget.TrimTwice | src/milky_frog/harness/budget.py:67-120 | a second trim changes nothing |
| Compaction.Cutoff | src/milky_frog/harness/compaction.py:89-113 | returns the cut if there is one, none otherwise: the first non-result at or after the shortest overflowing tail, strictly between what is folded and the end |
| Compaction.CutIsUnique | src/milky_frog/harness/compaction.py:89-113 | there is at most one cut, and what stays beyond its first message fits the keep budget |
| Compaction.CompactionHandler.OnBeforeModel | src/milky_frog/harness/compaction.py:68-87 | a proposal is made only over the trigger and at the cut; the summariser was shown the summary so far and exactly the messages between what it stands for and the cut, its non-empty answer is the new summary, and the number of those messages is reported; over the trigger none is withheld otherwise |
| Compaction.ForceCompact | src/milky_frog/harness/compaction.py:135-193 | folds everything without a keep window and at the cut with one, with the same account of what was shown, answered and counted; nothing new to fold or an empty summary proposes nothing |
| Compaction.RunFoldsOnce | src/milky_frog/harness/compaction.py:115-133 | over any run of appends and folds the slices handed to the summariser are consecutive and never overlap |
| Compaction.FoldedOnceOrVerbatim | src/milky_frog/harness/context.py:22-40 | over any run of appends and folds the messages the boundary moved over and those still sent word for word are the transcript, each once and in order, and the distances it moved add up to where it is |
| Compaction.EveryFoldIsReported | src/milky_frog/harness/compaction.py:68-133 | in any run in which each fold is what the operation proposes: the reported `messages_folded` add up to the final boundary; what the summarisers were shown as newly dropped is, in order, everything before it, and the rest is still sent; behind each report is a summariser that was really shown this and answered that, and each but the first was shown the summary returned before it |
| Compaction.SameShownSameProposal | src/milky_frog/harness/compaction.py:115-133 | two summarisers that agree on the summary so far and the newly dropped messages lead to the same proposal |
| Outcomes.ShapingIsAMove | src/milky_frog/events/loop.py:115-123 | a turn's compaction is such a fold, of the transcript at its head and with its summariser |
| Pipeline.TidyIffOrderly | src/milky_frog/harness/state.py:70-91 | a transcript keeps each result behind its own turn if and only if every message that is not a result was appended with nothing pending |
| Pipeline.GroupedIffOrderly | src/milky_frog/harness/state.py:70-91 | for a closed transcript: each result answers the nearest preceding non-result if and only if every non-result was appended with nothing pending |
| Pipeline.UntidyForEver | src/milky_frog/harness/state.py:70-91 | no later message repairs the grouping |
| Pipeline.TurnIsTidyIffQuiet | src/milky_frog/events/loop.py:189-218 | the exact condition on a turn: its transcript stays grouped if and only if it synthesised no follow-up, or exactly one with none of the model's calls held |
| Pipeline.TidyMeans | src/milky_frog/events/loop.py:189-198 | the protocol's bit is up exactly if every follow-up and every full fold of the history found nothing pending |
| Pipeline.HistoriesStayNeat | src/milky_frog/harness/compaction.py:92-113 | in every history with the bit up, everything stored, in memory or asked is grouped and its folded boundary falls before no result, whatever the automatic cuts were |
| Pipeline.CutsAreSafeIffGrouped | src/milky_frog/harness/compaction.py:92-96 | a closed transcript may be cut before any non-result without separating a result from its call if and only if it is grouped |
| Pipeline.RequestsMayBeCut | src/milky_frog/harness/budget.py:35-39 | in every such history any boundary of any requested transcript separates no result from its call |
| Pipeline.RequestIsPaired | src/milky_frog/harness/context.py:22-40 | assembling and trimming a closed grouped transcript keeps each result with its call and each call with its result, for every counter, schema set and budget |
| Pipeline.PipelineIsSafe | src/milky_frog/events/loop.py:111-128 | the same after any run of appends, automatic cuts and full folds with nothing pending, with no further assumption on the folds |
| Pipeline.AutomaticCutIsSafe | src/milky_frog/harness/compaction.py:109-113 | every automatic cut is such a fold: it falls before no result |
| Pipeline.EverySentRequestIsPaired | src/milky_frog/events/loop.py:107-133 | end to end: whatever entry points were called and however the visits ended, as long as each follow-up and each full fold found nothing pending, every request that was really sent keeps results and calls together |
| Pipeline.EverySentRequestFits | src/milky_frog/harness/budget.py:67-120 | every request sent under a limit is within it if and only if the system prompt and the schemas alone are |
| Sending.SentWithinBudget | src/milky_frog/harness/budget.py:67-120 | whatever a visit sent: with a budget that has a counter and a workspace each request is within the input budget if and only if its system prompt and the schemas alone are; without, it left untrimmed |
| Sending.RequestShows | src/milky_frog/harness/context.py:22-40 | a request opens with the system prompt; a summary follows as the user's words; what it does not stand for comes last, and with what it stands for is the transcript |
| Sending.CompactsIff | src/milky_frog/harness/compaction.py:68-87 | a turn compacts if and only if there is a handler, the request that would leave untrimmed exceeds its trigger, there is a cut, and the summariser answers with something |
| Pipeline.FullFoldIsSafeIffClosed | src/milky_frog/harness/compaction.py:169-170 | folding everything keeps results with their calls if and only if nothing is pending |
| FollowUps.Paused | src/milky_frog/events/loop.py:171-226 | the transcript a turn with a follow-up and a held call pauses with |
| FollowUps.MixedTurnIsReachable | src/milky_frog/events/loop.py:153-226 | a fresh Run whose first answer has a call that asks for a follow-up and a call that is held has such a turn |
| FollowUps.FollowUpsBreakGrouping | src/milky_frog/harness/budget.py:35-39 | after approving the held call of such a turn the transcript is closed but not grouped; for every counter that finds a token in the follow-up there is a keep budget with which the automatic cut falls before it, and the next request then carries a result without its call |
| FollowUps.CutLandsBeforeFollowUp | src/milky_frog/harness/compaction.py:89-113 | that keep budget is the cost of the two results behind the follow-up |
| FollowUps.DefaultCounterCutsThere | src/milky_frog/tokens/base.py:88-100 | the default counter finds such a token, and two results that are not empty make a keep budget the handler accepts |
| FollowUps.MixedTurnPauses | src/milky_frog/events/loop.py:153-226 | such a turn, undisturbed, pauses on the held call with exactly that transcript |
| FollowUps.UnpairedRequestIsSent | src/milky_frog/harness/compaction.py:68-113 | joined: the held call approved, the handler over its trigger with that keep budget, and the request `respond_approval` really sends first carries a result without its call |
| FollowUps.ExampleIsCut | src/milky_frog/harness/compaction.py:68-113 | the concrete turn with the default counter is an instance |
| Truncation.SplitLines | src/milky_frog/harness/tools/truncate.py:30-30 | non-empty lines that concatenate to the text |
| Truncation.LinesEndAtBreaks | src/milky_frog/harness/tools/truncate.py:30-30 | each line ends with its only break, a CR LF pair counting as one; only the last may lack it; no pair is torn apart |
| Truncation.TakeHead | src/milky_frog/harness/tools/truncate.py:37-45 | the longest run of leading lines within its budget, at least one, never all |
| Truncation.TakeTail | src/milky_frog/harness/tools/truncate.py:46-53 | the longest run of trailing lines within its budget that does not reach into the head, at least one |
| Truncation.CutOnChars | src/milky_frog/harness/tools/truncate.py:62-67 | the character fallback reports line 1 for a single line |
| Truncation.TruncateToolOutput | src/milky_frog/harness/tools/truncate.py:27-88 | short texts are untouched; texts of several lines are cut on lines, the overlap fallback being unreachable; single lines are cut on characters |
| Truncation.ReadContinuesTheHead | src/milky_frog/harness/tools/builtins/read.py:112-131 | head plus the window read at the reported offset is the whole text, and a window of as many lines as were dropped is exactly the omitted characters |
| Truncation.WindowMeans | src/milky_frog/harness/tools/builtins/read.py:112-131 | a window is a run of whole lines from the offset on, as many as asked for and there are; past the end there is none; the header stands exactly over a window that is not the whole text |
| Truncation.SingleLineReadsItAll | src/milky_frog/harness/tools/truncate.py:62-67 | for a single line the reported offset leads to the whole text again; head and window join to the text only if the head is empty |
| Truncation.NoOffsetNothingOmitted | src/milky_frog/harness/tools/truncate.py:56-69 | no offset is reported if and only if nothing was omitted; head and tail are never empty |
| Grep.MergeWindows | src/milky_frog/harness/tools/builtins/grep.py:112-121 | disjoint intervals, at least one line apart, covering exactly the lines near a match |
| Grep.RenderMatches | src/milky_frog/harness/tools/builtins/grep.py:103-130 | merging and emitting gives the same output as deciding line by line |
| Grep.ShowsExactlyTheNearLines | src/milky_frog/harness/tools/builtins/grep.py:103-130 | the numbers shown are ascending and exactly those within the context of a match |
| Grep.RowsAreTheirLines | src/milky_frog/harness/tools/builtins/grep.py:127-129 | each row shows its own line, with `:` exactly on matches and `-` elsewhere |
| Grep.DividersMarkGaps | src/milky_frog/harness/tools/builtins/grep.py:124-126 | one divider between two groups exactly where a line is skipped, none at the ends, none without context |
| Streaming.AddFragments | src/milky_frog/models/openai.py:174-181 | after any fragments the dictionary holds exactly the indices seen, each assembled from its own pieces |
| Streaming.Stream | src/milky_frog/models/openai.py:131-199 | the response is the per-index assembly ordered by index, with the last usage; the yielded deltas concatenate to its content and reasoning; the response comes last and once |
| Streaming.AssembledMeans | src/milky_frog/models/openai.py:174-181 | an assembled call has the last id and the last name its index was given, and the concatenation of its index's arguments |
| Streaming.CallsMean | src/milky_frog/models/openai.py:183-190 | one call per index seen, in ascending order, each with the last id and the last name its fragments gave and their arguments joined and parsed |
| Streaming.PiecesMean | src/milky_frog/models/openai.py:174-181 | those fragments are all that carry the index, in arrival order, and no others |
| Streaming.LastUsageMeans | src/milky_frog/models/openai.py:161-162 | the usage is the last one any chunk came with, or none |
| Streaming.InterleavingDoesNotMatter | src/milky_frog/models/openai.py:183-190 | arrival orders that agree on every index give equal calls |
| Streaming.NeighboursMaySwap | src/milky_frog/models/openai.py:174-190 | neighbouring fragments of different indices may arrive in either order |
| Sampler.Turn | evals/read_noise/sample.py:115-121 | a repository's last task is drawn unless it is capped or exhausted |
| Sampler.Pass | evals/read_noise/sample.py:112-121 | one round, stopped early when the sample is full, reporting whether it drew anything |
| Sampler.Stratify | evals/read_noise/sample.py:97-122 | terminates with the sample of some number of rounds, as long as the size and the sum of the limits allow |
| Sampler.SampleIsFair | evals/read_noise/sample.py:104-122 | no cap is exceeded, and a repository more than one task behind another has given all it has or its cap |
| Sampler.DrawnAtMostOnce | evals/read_noise/sample.py:104-122 | no task is drawn more often than it was offered |
| Containers.ContainerRegistry.Acquire | src/milky_frog/adapters/docker/sandbox.py:149-158 | refused when closed, reused when tracked, otherwise started, and usable if and only if it exits cleanly and prints something, under the last line printed; the books after each outcome |
| Containers.ContainerId | src/milky_frog/adapters/docker/sandbox.py:208-210 | the id is the last line printed |
| Containers.ContainerRegistry.StartContainer | src/milky_frog/adapters/docker/sandbox.py:160-220 | an exception, a bad exit and a missing id each lead to one removal by name and no id; anything else to the last line printed |
| Containers.ContainerRegistry.RemoveAll | src/milky_frog/adapters/docker/sandbox.py:232-242 | every container is removed once; failing removals are reported and stop nothing |
| Containers.ContainerRegistry.Close | src/milky_frog/adapters/docker/sandbox.py:225-242 | closed for good, nothing tracked, nothing started, every tracked container removed once; closing twice does nothing |
| Containers.LostIsSound | src/milky_frog/adapters/docker/sandbox.py:184-219 | a start that fails keeps the books sound |
| Containers.KeptIsSound | src/milky_frog/adapters/docker/sandbox.py:153-158 | a start that succeeds keeps the books sound |
| Containers.EveryStartIsAccountedFor | src/milky_frog/adapters/docker/sandbox.py:149-242 | every started name is tracked by its id or was removed by name, never both, and after closing was removed exactly once |
| Score.AttributeRereads | evals/read_noise/score.py:71-97 | counts successful reads by the last successful touch of their path; no answer without events |
| Score.RereadsMean | evals/read_noise/score.py:71-97 | each count is the number of successful reads of a path whose last successful touch before was an edit, or a read |
| Score.RereadLaw | evals/read_noise/score.py:71-118 | both counts add up to the duplicate reads plus the paths edited first and read later |
| Score.PartsSumToDuplicatesIff | evals/read_noise/score.py:42-47 | the parts sum to the duplicate reads if and only if no path was edited before its first read |

## Left out

- Loop.EndRun: the wording of final messages (approval prompt, failure text, limit) is abstracted.
- Loop.Shape: the compaction handler is the only subscriber of its event that proposes anything, as in the repository; other subscribers may raise.
- Harness.AgentHarness.Run: setting up the budget for the workspace is left to `Budget.TokenBudget.InitForWorkspace`; the loop takes the budget as it finds it. Run kinds, parent Runs and creation times are not part of the record.
- Harness.AgentHarness.RespondApproval: a claim that is refused because another process holds it is not an outcome of the methods, here and in `Harness.AgentHarness.Resume`.
- Harness.AgentHarness.CompactOnDemand: loading and saving are one step; a write in between, which the save would undo, is left out.
- Compaction.CompactionHandler.OnBeforeModel: the text of the summarisation request is abstracted to the earlier summary and the dropped messages; an exception of the summariser is a fault at that event.
- Tokens.CountMessages: JSON rendering of tool calls and schemas is a parameter.
- Tokens.CountIsNearlyAdditive: uses the exact weights 6/10 and 3/10, not their binary approximations; the head budget of `Truncation.TruncateToolOutput` is likewise an integer division by 5.
- Truncation.TruncateToolOutput: negative limits, spilling to a file and the notice's wording besides offset and count.
- Streaming.Stream: idle timeouts, the request payload and the parsing of argument text (a parameter).
- Sampler.Stratify: the shuffle itself (the buckets arrive shuffled) and the choice of eligible tasks.
- Containers.ContainerRegistry.Acquire: `docker` flags and what a container does; lock-protected sections are atomic.
- Grep.RenderMatches: searching, and the divider between files.
- SQL, SQLite and file locks: the store is a map of records, the claim is exclusive.
- Interrupts beside a live process are part of `Protocol` and, before the swap, of `Harness.AgentHarness.TakeOver`.
- Scheduling of asynchronous tasks: a batch is any split into completed and stopped calls, announced, then started, then folded.
- Exact tokenizers: any function from text to a natural number.
- Scores other than the attribution of repeated reads.
- Terminal interface, command line, rendering, tracing, configuration, skills, prompts, network fetching and worktrees.
