/** Attributing repeated reads to what happened before them (`evals/read_noise/score.py`). */
module Score {
  import opened Domain

  datatype Kind = Read | Edit

  datatype Event = Event(kind: Kind, path: string, isError: bool)

  datatype ReadRecord = ReadRecord(path: string, isError: bool)

  // ----- reference definitions -----

  /** The last successful touch of a path. */
  function LastTouch(events: seq<Event>, path: string): Option<Kind> {
    if events == [] then None
    else
      var e := events[|events| - 1];
      if !e.isError && e.path == path then Some(e.kind) else LastTouch(events[..|events| - 1], path)
  }

  function FirstTouch(events: seq<Event>, path: string): Option<Kind> {
    if events == [] then None
    else
      var before, e := FirstTouch(events[..|events| - 1], path), events[|events| - 1];
      if before.Some? then before else if !e.isError && e.path == path then Some(e.kind) else None
  }

  /** Successful reads whose previous successful touch of the same path was `kind`. */
  function Rereads(events: seq<Event>, kind: Kind): nat {
    if events == [] then 0
    else
      var init, e := events[..|events| - 1], events[|events| - 1];
      Rereads(init, kind) + (if !e.isError && e.kind.Read? && LastTouch(init, e.path) == Some(kind) then 1 else 0)
  }

  /** `run.reads`, when the artifact carries events. */
  function ReadsOf(events: seq<Event>): seq<ReadRecord> {
    if events == [] then []
    else
      var e := events[|events| - 1];
      ReadsOf(events[..|events| - 1]) + (if e.kind.Read? then [ReadRecord(e.path, e.isError)] else [])
  }

  function OkPaths(records: seq<ReadRecord>): seq<string> {
    if records == [] then []
    else OkPaths(records[..|records| - 1]) + (if records[|records| - 1].isError then [] else [records[|records| - 1].path])
  }

  function Paths(paths: seq<string>): set<string> { set p | p in paths }

  /** `len(ok_paths) - len(distinct)`. */
  function DuplicateReads(records: seq<ReadRecord>): int { |OkPaths(records)| - |Paths(OkPaths(records))| }

  /** Paths first touched by an edit and read afterwards. */
  function EditedFirst(events: seq<Event>): set<string> {
    set p | p in OkPaths(ReadsOf(events)) && FirstTouch(events, p) == Some(Edit)
  }

  // ----- the loop -----

  lemma TouchSnoc(events: seq<Event>, e: Event, path: string)
    ensures LastTouch(events + [e], path) == if !e.isError && e.path == path then Some(e.kind) else LastTouch(events, path)
    ensures FirstTouch(events + [e], path) ==
            if FirstTouch(events, path).Some? then FirstTouch(events, path)
            else if !e.isError && e.path == path then Some(e.kind) else None
  {
    assert (events + [e])[..|events|] == events;
  }

  lemma RereadsSnoc(events: seq<Event>, e: Event, kind: Kind)
    ensures Rereads(events + [e], kind) == Rereads(events, kind) +
            (if !e.isError && e.kind.Read? && LastTouch(events, e.path) == Some(kind) then 1 else 0)
  {
    assert (events + [e])[..|events|] == events;
  }

  ghost predicate Remembers(lastTouch: map<string, Kind>, events: seq<Event>) {
    forall p :: LastTouch(events, p) == if p in lastTouch then Some(lastTouch[p]) else None
  }

  lemma RemembersSnoc(lastTouch: map<string, Kind>, events: seq<Event>, e: Event)
    requires Remembers(lastTouch, events)
    ensures Remembers(if e.isError then lastTouch else lastTouch[e.path := e.kind], events + [e])
  {
    forall p ensures LastTouch(events + [e], p) == if !e.isError && e.path == p then Some(e.kind) else LastTouch(events, p) {
      TouchSnoc(events, e, p);
    }
  }

  /** `attribute_rereads`: no answer for an artifact without events. */
  method AttributeRereads(events: seq<Event>) returns (r: Option<(nat, nat)>)
    ensures r == if events == [] then None else Some((Rereads(events, Edit), Rereads(events, Read)))
  {
    if events == [] {
      return None;
    }
    var afterEdit, afterRead := 0, 0;
    var lastTouch: map<string, Kind> := map[];
    for i := 0 to |events|
      invariant Remembers(lastTouch, events[..i])
      invariant afterEdit == Rereads(events[..i], Edit) && afterRead == Rereads(events[..i], Read)
    {
      var e := events[i];
      assert events[..i + 1] == events[..i] + [e];
      RemembersSnoc(lastTouch, events[..i], e);
      RereadsSnoc(events[..i], e, Edit);
      RereadsSnoc(events[..i], e, Read);
      if e.isError {
        continue;
      }
      if e.kind.Read? {
        if e.path in lastTouch {
          match lastTouch[e.path] {
            case Edit => afterEdit := afterEdit + 1;
            case Read => afterRead := afterRead + 1;
          }
        }
      }
      lastTouch := lastTouch[e.path := e.kind];
    }
    assert events[..|events|] == events;
    r := Some((afterEdit, afterRead));
  }

  // ----- what is counted -----

  predicate Touches(e: Event, path: string) { !e.isError && e.path == path }

  /** Event `j` is the last successful touch of `path` before `i`. */
  predicate TouchedLastAt(events: seq<Event>, path: string, i: nat, j: nat)
    requires i <= |events|
  {
    j < i && Touches(events[j], path) && forall k :: j < k < i ==> !Touches(events[k], path)
  }

  lemma {:induction false} LastTouchMeans(events: seq<Event>, path: string)
    ensures match LastTouch(events, path)
            case None => forall j :: 0 <= j < |events| ==> !Touches(events[j], path)
            case Some(kind) => exists j: nat :: TouchedLastAt(events, path, |events|, j) && events[j].kind == kind
  {
    if events != [] {
      var init, e := events[..|events| - 1], events[|events| - 1];
      LastTouchMeans(init, path);
      if Touches(e, path) {
        assert TouchedLastAt(events, path, |events|, |init|);
      } else if LastTouch(init, path).Some? {
        var j: nat :| TouchedLastAt(init, path, |init|, j) && init[j].kind == LastTouch(init, path).value;
        assert TouchedLastAt(events, path, |events|, j);
      } else {
        assert forall j :: 0 <= j < |init| ==> events[j] == init[j];
      }
    }
  }

  /** Event `i` is a successful read of a path whose last successful touch before it was `kind`. */
  ghost predicate RereadAt(events: seq<Event>, kind: Kind, i: nat)
    requires i < |events|
  {
    && !events[i].isError && events[i].kind.Read?
    && exists j: nat :: TouchedLastAt(events, events[i].path, i, j) && events[j].kind == kind
  }

  lemma PrefixKeepsRereads(events: seq<Event>, kind: Kind, i: nat)
    requires i < |events| - 1
    ensures RereadAt(events, kind, i) <==> RereadAt(events[..|events| - 1], kind, i)
  {
    var init := events[..|events| - 1];
    assert forall j :: 0 <= j < |init| ==> init[j] == events[j];
    assert forall j: nat :: TouchedLastAt(events, events[i].path, i, j) <==> TouchedLastAt(init, events[i].path, i, j);
  }

  lemma LastIsReread(events: seq<Event>, kind: Kind)
    requires events != []
    ensures var init, e := events[..|events| - 1], events[|events| - 1];
      RereadAt(events, kind, |events| - 1) <==> !e.isError && e.kind.Read? && LastTouch(init, e.path) == Some(kind)
  {
    var init, e := events[..|events| - 1], events[|events| - 1];
    LastTouchMeans(init, e.path);
    assert forall j :: 0 <= j < |init| ==> init[j] == events[j];
    assert forall j: nat :: TouchedLastAt(events, e.path, |init|, j) <==> TouchedLastAt(init, e.path, |init|, j);
  }

  /** The places where a path is read again. */
  ghost function RereadPlaces(events: seq<Event>, kind: Kind): set<nat> {
    set i: nat | i < |events| && RereadAt(events, kind, i)
  }

  lemma PlacesSnoc(events: seq<Event>, kind: Kind)
    requires events != []
    ensures var init := events[..|events| - 1];
      && |init| !in RereadPlaces(init, kind)
      && RereadPlaces(events, kind) == RereadPlaces(init, kind) + (if RereadAt(events, kind, |init|) then {|init|} else {})
  {
    var init := events[..|events| - 1];
    forall i: nat ensures i in RereadPlaces(events, kind) <==>
                          i in RereadPlaces(init, kind) || (i == |init| && RereadAt(events, kind, |init|))
    {
      if i < |init| {
        PrefixKeepsRereads(events, kind, i);
      }
    }
  }

  /** The loop counts exactly the successful reads whose path was last touched by a `kind`. */
  lemma {:induction false} RereadsMean(events: seq<Event>, kind: Kind)
    ensures Rereads(events, kind) == |RereadPlaces(events, kind)|
  {
    if events == [] {
      assert RereadPlaces(events, kind) == {};
    } else {
      RereadsMean(events[..|events| - 1], kind);
      LastIsReread(events, kind);
      PlacesSnoc(events, kind);
    }
  }

  // ----- the law -----

  lemma ReadsSnoc(events: seq<Event>, e: Event)
    ensures OkPaths(ReadsOf(events + [e])) ==
            OkPaths(ReadsOf(events)) + (if e.kind.Read? && !e.isError then [e.path] else [])
  {
    assert (events + [e])[..|events|] == events;
    if e.kind.Read? {
      var record := ReadRecord(e.path, e.isError);
      assert ReadsOf(events + [e]) == ReadsOf(events) + [record];
      assert (ReadsOf(events) + [record])[..|ReadsOf(events)|] == ReadsOf(events);
    } else {
      assert ReadsOf(events + [e]) == ReadsOf(events);
    }
  }

  /** Something is remembered about a path that was read; an unread path was touched by edits only. */
  lemma {:induction false} TouchedPaths(events: seq<Event>, path: string)
    ensures LastTouch(events, path).Some? <==> FirstTouch(events, path).Some?
    ensures path in OkPaths(ReadsOf(events)) ==> FirstTouch(events, path).Some?
    ensures path !in OkPaths(ReadsOf(events)) && FirstTouch(events, path).Some? ==> FirstTouch(events, path) == Some(Edit)
  {
    if events != [] {
      var init, e := events[..|events| - 1], events[|events| - 1];
      assert events == init + [e];
      TouchedPaths(init, path);
      TouchSnoc(init, e, path);
      ReadsSnoc(init, e);
    }
  }

  /** A successful read after an edit puts its path there; nothing else changes. */
  lemma EditedFirstSnoc(events: seq<Event>, e: Event)
    ensures EditedFirst(events + [e]) ==
            if e.kind.Read? && !e.isError && FirstTouch(events, e.path) == Some(Edit) then EditedFirst(events) + {e.path}
            else EditedFirst(events)
  {
    ReadsSnoc(events, e);
    var all, before := OkPaths(ReadsOf(events + [e])), OkPaths(ReadsOf(events));
    var joins := e.kind.Read? && !e.isError && FirstTouch(events, e.path) == Some(Edit);
    forall p ensures p in EditedFirst(events + [e]) <==> p in EditedFirst(events) || (joins && p == e.path) {
      TouchSnoc(events, e, p);
      TouchedPaths(events, p);
      assert p in all <==> p in before || (e.kind.Read? && !e.isError && p == e.path);
    }
  }

  lemma Grow(s: set<string>, p: string)
    ensures |s + {p}| == |s| + (if p in s then 0 else 1)
  {
    if p in s {
      assert s + {p} == s;
    }
  }

  lemma DuplicatesSnoc(events: seq<Event>, e: Event)
    ensures var paths := OkPaths(ReadsOf(events));
      DuplicateReads(ReadsOf(events + [e])) ==
      DuplicateReads(ReadsOf(events)) + (if e.kind.Read? && !e.isError && e.path in paths then 1 else 0)
  {
    var paths := OkPaths(ReadsOf(events));
    ReadsSnoc(events, e);
    if e.kind.Read? && !e.isError {
      assert Paths(paths + [e.path]) == Paths(paths) + {e.path};
      Grow(Paths(paths), e.path);
    } else {
      assert paths + [] == paths;
    }
  }

  /** Both counts together are the duplicate reads plus the paths edited first and read later. */
  lemma {:induction false} RereadLaw(events: seq<Event>)
    ensures Rereads(events, Edit) + Rereads(events, Read) == DuplicateReads(ReadsOf(events)) + |EditedFirst(events)|
  {
    if events == [] {
      assert Paths([]) == {} && EditedFirst([]) == {};
    } else {
      var init, e := events[..|events| - 1], events[|events| - 1];
      assert events == init + [e];
      RereadLaw(init);
      RereadsSnoc(init, e, Edit);
      RereadsSnoc(init, e, Read);
      EditedFirstSnoc(init, e);
      DuplicatesSnoc(init, e);
      TouchedPaths(init, e.path);
      Grow(EditedFirst(init), e.path);
      assert e.path in EditedFirst(init) <==>
        e.path in OkPaths(ReadsOf(init)) && FirstTouch(init, e.path) == Some(Edit);
      assert LastTouch(init, e.path).Some? ==> LastTouch(init, e.path).value.Read? || LastTouch(init, e.path).value.Edit?;
    }
  }

  predicate NoneEditedFirst(events: seq<Event>) {
    forall p :: p in OkPaths(ReadsOf(events)) ==> FirstTouch(events, p) != Some(Edit)
  }

  /** So the two parts sum to the duplicate reads exactly when no path was edited before its first
      read. */
  lemma PartsSumToDuplicatesIff(events: seq<Event>)
    ensures Rereads(events, Edit) + Rereads(events, Read) == DuplicateReads(ReadsOf(events)) <==> NoneEditedFirst(events)
  {
    RereadLaw(events);
    var edited := EditedFirst(events);
    if NoneEditedFirst(events) {
      assert edited == {};
    } else {
      var p :| p in OkPaths(ReadsOf(events)) && FirstTouch(events, p) == Some(Edit);
      assert p in edited;
      assert |edited| > 0;
    }
  }
}
