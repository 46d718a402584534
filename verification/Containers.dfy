/** The container registry's bookkeeping (`adapters/docker/sandbox.py`): nothing it starts is lost,
    nothing is removed twice. Sections under its lock are atomic here. */
module Containers {

  datatype Command = Start(name: string, workspace: string) | RemoveByName(name: string) | RemoveById(id: string)

  /** What `docker run` did; `lines` are the non-blank lines it printed. */
  datatype RunOutcome = Exited(code: int, lines: seq<string>) | Raised

  datatype Acquisition = Acquired(id: string) | Unavailable | Failed

  /** Only a clean exit that prints an id gives a usable container. */
  predicate Usable(outcome: RunOutcome) { outcome.Exited? && outcome.code == 0 && outcome.lines != [] }

  /** The id is the last line printed. */
  function ContainerId(outcome: RunOutcome): (id: string)
    requires Usable(outcome)
    ensures exists before :: outcome.lines == before + [id]
  {
    assert outcome.lines == outcome.lines[..|outcome.lines| - 1] + [outcome.lines[|outcome.lines| - 1]];
    outcome.lines[|outcome.lines| - 1]
  }

  // ----- the books -----

  /** The registry's fields, the commands issued so far, the names they started (`names`) and the
      ids of those that came up (`born`). */
  datatype Ledger = Ledger(
    containers: map<string, string>, closed: bool, commands: seq<Command>,
    names: set<string>, born: map<string, string>)

  function Count(commands: seq<Command>, c: Command): nat {
    if commands == [] then 0
    else Count(commands[..|commands| - 1], c) + (if commands[|commands| - 1] == c then 1 else 0)
  }

  ghost predicate Injective(m: map<string, string>) {
    forall x, y :: x in m && y in m && m[x] == m[y] ==> x == y
  }

  ghost predicate Known(l: Ledger) {
    && l.born.Keys <= l.names && Injective(l.born)
    && forall n, w :: Count(l.commands, Start(n, w)) > 0 ==> n in l.names
  }

  /** While open exactly the containers that came up are tracked, no id for two workspaces. */
  ghost predicate Tracked(l: Ledger) {
    && (if l.closed then l.containers == map[] else l.containers.Values == l.born.Values)
    && Injective(l.containers)
  }

  /** A name is removed exactly once if its container never came up, an id exactly once after
      closing, and nothing else ever. */
  ghost predicate Removed(l: Ledger) {
    && (forall n :: Count(l.commands, RemoveByName(n)) == if n in l.names && n !in l.born then 1 else 0)
    && forall id :: Count(l.commands, RemoveById(id)) == if l.closed && id in l.born.Values then 1 else 0
  }

  ghost predicate Sound(l: Ledger) { Known(l) && Tracked(l) && Removed(l) }

  lemma CountSnoc(commands: seq<Command>, d: Command, c: Command)
    ensures Count(commands + [d], c) == Count(commands, c) + (if d == c then 1 else 0)
  {
    assert (commands + [d])[..|commands|] == commands;
  }

  lemma AddedInjective(m: map<string, string>, k: string, v: string)
    requires Injective(m) && k !in m && v !in m.Values
    ensures Injective(m[k := v])
  {
  }

  lemma AddedValue(m: map<string, string>, k: string, v: string)
    requires k !in m
    ensures m[k := v].Values == m.Values + {v}
  {
    var after := m[k := v];
    assert forall x :: x in m ==> x in after && after[x] == m[x];
    assert k in after && after[k] == v;
  }

  /** A start whose container never came up and was removed by name. */
  function Lost(l: Ledger, name: string, workspace: string): Ledger {
    l.(commands := l.commands + [Start(name, workspace)] + [RemoveByName(name)], names := l.names + {name})
  }

  /** A start whose container came up. */
  function Kept(l: Ledger, name: string, workspace: string, id: string): Ledger {
    l.(commands := l.commands + [Start(name, workspace)], names := l.names + {name},
       born := l.born[name := id], containers := l.containers[workspace := id])
  }

  lemma LostIsSound(l: Ledger, name: string, workspace: string)
    requires Sound(l) && !l.closed && name !in l.names
    ensures Sound(Lost(l, name, workspace))
  {
    var started := l.commands + [Start(name, workspace)];
    forall c ensures Count(Lost(l, name, workspace).commands, c)
      == Count(l.commands, c) + (if c == Start(name, workspace) then 1 else 0) + (if c == RemoveByName(name) then 1 else 0)
    {
      CountSnoc(l.commands, Start(name, workspace), c);
      CountSnoc(started, RemoveByName(name), c);
    }
  }

  lemma KeptIsTracked(l: Ledger, name: string, workspace: string, id: string)
    requires Sound(l) && !l.closed && name !in l.names
    requires workspace !in l.containers && id !in l.born.Values
    ensures Tracked(Kept(l, name, workspace, id)) && Injective(l.born[name := id])
    ensures l.born[name := id].Values == l.born.Values + {id}
  {
    AddedValue(l.born, name, id);
    AddedValue(l.containers, workspace, id);
    AddedInjective(l.born, name, id);
    AddedInjective(l.containers, workspace, id);
  }

  lemma KeptCounts(l: Ledger, name: string, workspace: string, id: string, c: Command)
    ensures Count(Kept(l, name, workspace, id).commands, c)
            == Count(l.commands, c) + (if c == Start(name, workspace) then 1 else 0)
  {
    CountSnoc(l.commands, Start(name, workspace), c);
  }

  lemma KeptIsKnown(l: Ledger, name: string, workspace: string, id: string)
    requires Known(l) && name !in l.names && Injective(l.born[name := id])
    ensures Known(Kept(l, name, workspace, id))
  {
    forall n, w | Count(Kept(l, name, workspace, id).commands, Start(n, w)) > 0 ensures n in l.names + {name} {
      KeptCounts(l, name, workspace, id, Start(n, w));
    }
  }

  lemma KeptIsRemoved(l: Ledger, name: string, workspace: string, id: string)
    requires Removed(l) && !l.closed && name !in l.names
    ensures Removed(Kept(l, name, workspace, id))
  {
    var after := Kept(l, name, workspace, id);
    forall n ensures Count(after.commands, RemoveByName(n)) == if n in after.names && n !in after.born then 1 else 0 {
      KeptCounts(l, name, workspace, id, RemoveByName(n));
    }
    forall x ensures Count(after.commands, RemoveById(x)) == 0 {
      KeptCounts(l, name, workspace, id, RemoveById(x));
    }
  }

  lemma KeptIsSound(l: Ledger, name: string, workspace: string, id: string)
    requires Sound(l) && !l.closed && name !in l.names
    requires workspace !in l.containers && id !in l.born.Values
    ensures Sound(Kept(l, name, workspace, id))
  {
    KeptIsTracked(l, name, workspace, id);
    KeptIsKnown(l, name, workspace, id);
    KeptIsRemoved(l, name, workspace, id);
  }

  /** Closing under way: the ids of `left` are still to be removed. */
  ghost predicate Closing(before: Ledger, commands: seq<Command>, left: set<string>) {
    && left <= before.born.Values
    && (forall id :: Count(commands, RemoveById(id)) == if id in before.born.Values - left then 1 else 0)
    && (forall n :: Count(commands, RemoveByName(n)) == Count(before.commands, RemoveByName(n)))
    && forall n, w :: Count(commands, Start(n, w)) == Count(before.commands, Start(n, w))
  }

  lemma ClosingStep(before: Ledger, commands: seq<Command>, left: set<string>, id: string)
    requires Closing(before, commands, left) && id in left
    ensures Closing(before, commands + [RemoveById(id)], left - {id})
  {
    forall c ensures Count(commands + [RemoveById(id)], c) == Count(commands, c) + (if c == RemoveById(id) then 1 else 0) {
      CountSnoc(commands, RemoveById(id), c);
    }
  }

  lemma ClosingStarts(before: Ledger)
    requires Sound(before) && !before.closed
    ensures Closing(before, before.commands, before.containers.Values)
  {
  }

  function Failing(ids: set<string>, fails: string -> bool): set<string> { set id | id in ids && fails(id) }

  lemma FailingStep(all: set<string>, ids: set<string>, fails: string -> bool, id: string)
    requires id in ids && ids <= all
    ensures Failing(all - (ids - {id}), fails) == Failing(all - ids, fails) + (if fails(id) then {id} else {})
  {
  }

  lemma AllFailing(all: set<string>, fails: string -> bool)
    ensures Failing(all - all, fails) == {} && Failing(all - {}, fails) == Failing(all, fails)
  {
    assert all - {} == all;
  }

  lemma ClosedIsSound(before: Ledger, commands: seq<Command>)
    requires Sound(before) && !before.closed && Closing(before, commands, {})
    ensures Sound(before.(closed := true, containers := map[], commands := commands))
  {
  }

  /** Every container ever started is accounted for: while the registry is open it is either
      tracked or was removed by name, never both; once it is closed it was removed exactly once,
      by name or by id. */
  lemma EveryStartIsAccountedFor(l: Ledger, name: string)
    requires Sound(l) && name in l.names
    ensures var byName := Count(l.commands, RemoveByName(name));
      if l.closed then
        byName + (if name in l.born then Count(l.commands, RemoveById(l.born[name])) else 0) == 1
      else
        byName == (if name in l.born && l.born[name] in l.containers.Values then 0 else 1)
        && (name in l.born ==> Count(l.commands, RemoveById(l.born[name])) == 0)
  {
  }

  // ----- the registry -----

  class ContainerRegistry {
    var containers: map<string, string>
    var closed: bool
    var commands: seq<Command>
    ghost var names: set<string>
    ghost var born: map<string, string>

    ghost function Books(): Ledger
      reads this
    {
      Ledger(containers, closed, commands, names, born)
    }

    ghost predicate Valid()
      reads this
    {
      Sound(Books())
    }

    constructor ()
      ensures Valid() && Books() == Ledger(map[], false, [], {}, map[])
    {
      containers, closed, commands := map[], false, [];
      names, born := {}, map[];
    }

    /** `acquire`: reused if the workspace has a container, otherwise started under a fresh name. */
    method Acquire(workspace: string, name: string, outcome: RunOutcome) returns (r: Acquisition)
      requires Valid() && name !in names
      requires Usable(outcome) ==> ContainerId(outcome) !in born.Values
      modifies this
      ensures Valid()
      ensures Books() == if old(closed) || workspace in old(containers) then old(Books())
                         else if Usable(outcome) then Kept(old(Books()), name, workspace, ContainerId(outcome))
                         else Lost(old(Books()), name, workspace)
      ensures r == if old(closed) then Unavailable
                   else if workspace in old(containers) then Acquired(old(containers)[workspace])
                   else if Usable(outcome) then Acquired(ContainerId(outcome))
                   else if outcome.Raised? then Failed else Unavailable
      ensures !old(closed) && workspace !in old(containers) ==>
        && (r.Acquired? <==> outcome.Exited? && outcome.code == 0 && outcome.lines != [])
        && (r.Acquired? ==> r.id == outcome.lines[|outcome.lines| - 1] == containers[workspace])
    {
      if closed {
        return Unavailable;
      }
      if workspace in containers {
        return Acquired(containers[workspace]);
      }
      if Usable(outcome) {
        KeptIsSound(Books(), name, workspace, ContainerId(outcome));
      } else {
        LostIsSound(Books(), name, workspace);
      }
      r := StartContainer(workspace, name, outcome);
      if r.Acquired? {
        containers := containers[workspace := r.id];
      }
    }

    /** `_start`: whatever goes wrong, the container is removed by its unique name. */
    method StartContainer(workspace: string, name: string, outcome: RunOutcome) returns (r: Acquisition)
      modifies this`commands, this`names, this`born
      ensures names == old(names) + {name}
      ensures r == if Usable(outcome) then Acquired(ContainerId(outcome))
                   else if outcome.Raised? then Failed else Unavailable
      ensures r.Acquired? <==> outcome.Exited? && outcome.code == 0 && outcome.lines != []
      ensures r.Acquired? ==> r.id == outcome.lines[|outcome.lines| - 1]
      ensures born == if Usable(outcome) then old(born)[name := ContainerId(outcome)] else old(born)
      ensures commands == if Usable(outcome) then old(commands) + [Start(name, workspace)]
                          else old(commands) + [Start(name, workspace)] + [RemoveByName(name)]
    {
      commands, names := commands + [Start(name, workspace)], names + {name};
      if outcome.Raised? {
        commands := commands + [RemoveByName(name)];
        return Failed;
      }
      if outcome.code != 0 {
        commands := commands + [RemoveByName(name)];
        return Unavailable;
      }
      if outcome.lines == [] {
        commands := commands + [RemoveByName(name)];
        return Unavailable;
      }
      born := born[name := ContainerId(outcome)];
      return Acquired(ContainerId(outcome));
    }

    /** The loop over the containers; a removal that fails is reported and stops nothing. */
    method RemoveAll(all: set<string>, fails: string -> bool, ghost before: Ledger) returns (reported: set<string>)
      requires Closing(before, commands, all)
      modifies this`commands
      ensures Closing(before, commands, {})
      ensures reported == Failing(all, fails)
    {
      reported := {};
      AllFailing(all, fails);
      var ids := all;
      while ids != {}
        invariant ids <= all && Closing(before, commands, ids)
        invariant reported == Failing(all - ids, fails)
        decreases |ids|
      {
        var id :| id in ids;
        ClosingStep(before, commands, ids, id);
        FailingStep(all, ids, fails, id);
        commands := commands + [RemoveById(id)];
        if fails(id) {
          reported := reported + {id};
        }
        ids := ids - {id};
      }
    }

    /** `_close_all`: closed for good, nothing tracked, every tracked container removed once. */
    method Close(fails: string -> bool) returns (reported: set<string>)
      requires Valid()
      modifies this`containers, this`closed, this`commands
      ensures Valid() && closed && containers == map[]
      ensures old(closed) ==> commands == old(commands) && reported == {}
      ensures !old(closed) ==> reported == Failing(old(containers).Values, fails)
      ensures forall n, w :: Count(commands, Start(n, w)) == Count(old(commands), Start(n, w))
    {
      reported := {};
      if closed {
        return;
      }
      ghost var before := Books();
      var ids := containers.Values;
      closed, containers := true, map[];
      ClosingStarts(before);
      reported := RemoveAll(ids, fails, before);
      ClosedIsSound(before, commands);
    }
  }
}
