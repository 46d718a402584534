/** The event hub with the checkpoint handler attached (`events/hub.py`, `handlers/checkpoint.py`):
    what is announced, what is written, and which protocol actions that amounts to. */
module Hub {
  import opened Domain
  import opened Transcript
  import opened Protocol
  import opened Accounts
  import opened Budget
  import opened Checkpoints
  import opened Compaction
  import opened Tokens

  /** What a request is made of besides the state: prompt, schemas, and the limit it is trimmed to. */
  datatype Basis = Basis(prompt: string, schemas: seq<string>, limit: Option<Limit>)

  function FullRequest(basis: Basis, state: RunState): ModelRequest {
    ModelRequest(Assemble(state, basis.prompt), basis.schemas)
  }

  function RequestOf(basis: Basis, state: RunState): ModelRequest {
    Within(basis.limit, FullRequest(basis, state))
  }

  /** A call being announced, and whether the stored transcript knew it at that moment. */
  datatype Opening = Opening(call: ToolCall, durable: bool)

  function OpeningOf(call: ToolCall, stored: RunState): Opening {
    Opening(call, call in CallsOf(stored.messages))
  }

  /** What a hub has seen so far: calls opened, events, and requests with what they were made of. */
  datatype Seen = Seen(openings: seq<Opening>, trace: seq<Event>, basis: seq<Basis>, asked: seq<RunState>)

  /** The hub as one Run sees it. `log` and `world` record the Run's whole history so far; every
      announcement and write below is a legal action of the protocol. `entry` are the calls left
      open before the current visit, `tidy` is the protocol's bit of that name. */
  class EventHub {
    const runId: string
    const store: CheckpointStore
    var trace: seq<Event>
    var asked: seq<RunState>
    var sent: seq<ModelRequest>
    ghost var world: World
    ghost var log: seq<Action>
    ghost var basis: seq<Basis>
    ghost var openings: seq<Opening>
    ghost var entry: set<string>
    ghost var tidy: bool

    ghost predicate Valid()
      reads this, store
    {
      && store.Valid()
      && Replay(log) == Some(world) && AnswersSaved(log)
      && world.rec == store.Find(runId)
      && world.trace == trace && world.asked == asked && world.tidy == tidy
      && (world.live.Some? ==> world.live.value.stale == entry)
      && SentFrom(sent, basis, asked)
    }

    ghost function SoFar(): Seen
      reads this
    {
      Seen(openings, trace, basis, asked)
    }

    constructor (runId: string, store: CheckpointStore)
      requires store.Valid() && runId !in store.runs
      ensures Valid() && world == INITIAL && log == []
      ensures this.runId == runId && this.store == store
    {
      this.runId, this.store := runId, store;
      trace, asked, sent := [], [], [];
      world, log, basis, openings, entry, tidy := INITIAL, [], [], [], {}, true;
    }

    /** Extends the history by one legal action. */
    ghost method Note(a: Action)
      requires Replay(log) == Some(world) && Enabled(world, a)
      modifies this`log, this`world
      ensures log == old(log) + [a] && world == Apply(old(world), a)
      ensures Replay(log) == Some(world)
      ensures !a.Reply? && old(AnswersSaved(log)) ==> AnswersSaved(log)
    {
      assert (log + [a])[..|log|] == log;
      if !a.Reply? && AnswersSaved(log) {
        NothingToSave(log, a);
      }
      log, world := log + [a], Apply(world, a);
    }

    /** Takes the Run: from here on the calls left open so far are the entry's. */
    ghost method NoteTaken(a: Action)
      requires Replay(log) == Some(world) && Enabled(world, a) && (a.Create? || a.Claim?)
      modifies this`log, this`world, this`entry
      ensures log == old(log) + [a] && world == Apply(old(world), a)
      ensures Replay(log) == Some(world) && entry == Dangling(old(world).trace)
      ensures old(AnswersSaved(log)) ==> AnswersSaved(log)
    {
      Note(a);
      entry := Dangling(world.trace);
    }

    /** A follow-up call is synthesised, which nobody is told. */
    ghost method NoteSpawn(base: string, c: ToolCall)
      requires Valid() && CanSpawn(world, base, c)
      modifies this`log, this`world, this`tidy
      ensures Valid() && log == old(log) + [Spawn(base, c)] && world == Spawned(old(world), base, c)
      ensures tidy == (old(tidy) && UnmatchedToolCalls(old(world).live.value.state.messages) == [])
    {
      tidy := tidy && UnmatchedToolCalls(world.live.value.state.messages) == [];
      Note(Spawn(base, c));
    }

    /** The whole stored transcript was folded. */
    ghost method NoteFoldWhole(c: CompactionState, now: nat)
      requires store.Valid() && Replay(log) == Some(world) && AnswersSaved(log) && SentFrom(sent, basis, asked)
      requires world.trace == trace && world.asked == asked && world.tidy == tidy
      requires world.live.Some? ==> world.live.value.stale == entry
      requires CanFoldWhole(world, c, now) && FoldedWhole(world, c, now).rec == store.Find(runId)
      modifies this`log, this`world, this`tidy
      ensures Valid() && log == old(log) + [FoldWhole(c, now)] && world == FoldedWhole(old(world), c, now)
    {
      tidy := tidy && UnmatchedToolCalls(world.rec.value.state.messages) == [];
      Note(FoldWhole(c, now));
    }

    method BeforeTool(c: ToolCall)
      requires Valid() && CanOpen(world, c)
      modifies this`trace, this`log, this`world, this`openings
      ensures Valid() && log == old(log) + [Open(c)] && world == OpenedCall(old(world), c)
      ensures openings == old(openings) + [OpeningOf(c, old(world).rec.value.state)]
    {
      trace := trace + [Before(c.id)];
      openings := openings + [OpeningOf(c, world.rec.value.state)];
      Note(Open(c));
    }

    /** The tool itself starts to run. */
    method StartTool(c: ToolCall)
      requires Valid() && CanExecute(world, c.id)
      modifies this`trace, this`log, this`world
      ensures Valid() && log == old(log) + [Action.Execute(c.id)] && world == ExecutedCall(old(world), c.id)
    {
      trace := trace + [Begin(c.id)];
      Note(Action.Execute(c.id));
    }

    /** A result is announced and, before any other observer sees it, written. */
    method AfterTool(c: ToolCall, result: ToolResult, state: RunState)
      requires Valid() && CanFinish(world, c)
      requires state == AppendToolResult(world.live.value.state, c, result)
      modifies this`trace, this`log, this`world, store
      ensures Valid() && store.Others(runId) == old(store.Others(runId))
      ensures CanSave(FinishedCall(old(world), c, result), old(store.clock))
      ensures world == Saved(FinishedCall(old(world), c, result), old(store.clock))
      ensures log == old(log) + [Finish(c, result), Save(old(store.clock))]
    {
      trace := trace + [After(c.id)];
      Note(Finish(c, result));
      Persist(state);
    }

    /** An answer is written before anybody else hears of it. */
    method AfterModel(response: ModelResponse, state: RunState)
      requires Valid() && CanReply(world, response)
      requires state == AppendModelResponse(world.live.value.state, response)
      modifies this`log, this`world, store
      ensures Valid() && store.Others(runId) == old(store.Others(runId))
      ensures CanSave(Replied(old(world), response), old(store.clock))
      ensures world == Saved(Replied(old(world), response), old(store.clock))
      ensures log == old(log) + [Reply(response), Save(old(store.clock))]
    {
      ghost var now, before := store.clock, log;
      Note(Reply(response));
      store.SaveState(runId, state, None, None);
      Note(Save(now));
      AnswerThenSave(before, response, now);
      assert before + [Reply(response)] + [Save(now)] == before + [Reply(response), Save(now)];
    }

    /** The swap back to RUNNING, refused if anyone wrote since the load. */
    method PrepareResume(expected: nat, state: RunState) returns (swapped: bool)
      requires Valid() && world.rec.Some? && world.live.Some? && !world.live.value.owned
      requires world.live.value.seen == expected && world.live.value.state == state
      modifies this`log, this`world, store
      ensures Valid() && old(log) <= log && store.Others(runId) == old(store.Others(runId))
      ensures swapped <==> old(world).rec.value.updatedAt == expected
      ensures swapped ==> CanSwap(old(world), old(store.clock)) && world == Swapped(old(world), old(store.clock))
      ensures !swapped ==> world == old(world)
    {
      ghost var now := store.clock;
      swapped := store.PrepareResume(runId, expected, state);
      if swapped {
        Note(Swap(now));
      }
    }

    method Persist(state: RunState)
      requires Valid() && Active(world) && world.live.value.state == state
      modifies this`log, this`world, store
      ensures Valid() && store.Others(runId) == old(store.Others(runId))
      ensures CanSave(old(world), old(store.clock)) && world == Saved(old(world), old(store.clock))
      ensures log == old(log) + [Save(old(store.clock))]
    {
      ghost var now := store.clock;
      store.SaveState(runId, state, None, None);
      Note(Save(now));
    }

    /** A fresh Run is announced: its seeded state is written, and that it is running. */
    method RunStarted(state: RunState)
      requires Valid() && Active(world) && world.live.value.state == state
      modifies this`log, this`world, store
      ensures Valid() && store.Others(runId) == old(store.Others(runId))
      ensures CanLaunch(old(world), old(store.clock)) && world == Launched(old(world), old(store.clock))
      ensures log == old(log) + [Launch(old(store.clock))]
    {
      ghost var now := store.clock;
      store.SaveState(runId, state, Some(Running), None);
      Note(Launch(now));
    }

    /** A model request leaves, made from `state`. */
    method Send(state: RunState, request: ModelRequest, ghost made: Basis)
      requires Valid() && CanAsk(world) && world.live.value.state == state
      requires request == RequestOf(made, state)
      modifies this`asked, this`sent, this`basis, this`log, this`world
      ensures Valid() && log == old(log) + [Ask] && world == Asked(old(world))
      ensures asked == old(asked) + [state] && sent == old(sent) + [request] && basis == old(basis) + [made]
    {
      SentSnoc(sent, basis, asked, made, state);
      asked := asked + [state];
      sent := sent + [request];
      basis := basis + [made];
      Note(Ask);
    }

    /** A terminal event, written before any other observer sees it. */
    method Terminate(state: RunState, status: RunStatus, message: string, ghost late: bool)
      requires Valid() && CanHalt(world, status, late, store.clock)
      requires state == if late then world.live.value.anchor else world.live.value.state
      modifies this`log, this`world, store
      ensures Valid() && store.Others(runId) == old(store.Others(runId))
      ensures world == Halted(old(world), status, late, old(store.clock))
      ensures log == old(log) + [Halt(status, late, old(store.clock))]
    {
      ghost var now := store.clock;
      store.SaveState(runId, state, Some(status), Some(message));
      Note(Halt(status, late, now));
    }
  }

  predicate SentAt(sent: seq<ModelRequest>, basis: seq<Basis>, asked: seq<RunState>, i: nat)
    requires |sent| == |basis| == |asked|
  {
    i < |sent| ==> sent[i] == RequestOf(basis[i], asked[i])
  }

  /** Each request was made from the state it is listed with. */
  ghost predicate SentFrom(sent: seq<ModelRequest>, basis: seq<Basis>, asked: seq<RunState>) {
    |sent| == |basis| == |asked| && forall i: nat {:trigger SentAt(sent, basis, asked, i)} :: SentAt(sent, basis, asked, i)
  }

  lemma SentSnoc(sent: seq<ModelRequest>, basis: seq<Basis>, asked: seq<RunState>, b: Basis, state: RunState)
    requires SentFrom(sent, basis, asked)
    ensures SentFrom(sent + [RequestOf(b, state)], basis + [b], asked + [state])
  {
    forall i: nat ensures SentAt(sent + [RequestOf(b, state)], basis + [b], asked + [state], i) {
      assert SentAt(sent, basis, asked, i);
    }
  }

  lemma NothingToSave(log: seq<Action>, a: Action)
    requires AnswersSaved(log) && !a.Reply?
    ensures AnswersSaved(log + [a])
  {
    forall i: nat ensures SavedAfter(log + [a], i) {
      assert SavedAfter(log, i);
    }
  }

  lemma AnswerThenSave(log: seq<Action>, response: ModelResponse, now: nat)
    requires AnswersSaved(log)
    ensures AnswersSaved(log + [Reply(response)] + [Save(now)])
  {
    forall i: nat ensures SavedAfter(log + [Reply(response)] + [Save(now)], i) {
      assert SavedAfter(log, i);
    }
  }
}
