/** The checkpoint store: one row per Run, every write at a strictly later time. */
module Checkpoints {
  import opened Domain
  import opened Transcript
  import opened Protocol

  datatype StoredRun = StoredRun(record: Record, finalMessage: Option<string>, workspace: string)

  class CheckpointStore {
    var runs: map<string, StoredRun>
    var clock: nat

    ghost predicate Valid()
      reads this
    {
      forall id :: id in runs ==> runs[id].record.updatedAt < clock
    }

    function Find(runId: string): Option<Record>
      reads this
    {
      if runId in runs then Some(runs[runId].record) else None
    }

    /** Every row but one. */
    function Others(runId: string): map<string, StoredRun>
      reads this
    {
      runs - {runId}
    }

    constructor ()
      ensures Valid() && runs == map[] && clock == 0
    {
      runs, clock := map[], 0;
    }

    /** `create_run`: an INSERT, so a row that exists is left alone and reported. */
    method CreateRun(runId: string, workspace: string) returns (created: bool)
      requires Valid()
      modifies this
      ensures Valid() && clock == old(clock) + 1 && Others(runId) == old(Others(runId))
      ensures created <==> runId !in old(runs)
      ensures Find(runId) == if created then Some(Record(Running, EMPTY_STATE, old(clock))) else old(Find(runId))
      ensures created ==> runs[runId].workspace == workspace && runs[runId].finalMessage.None?
    {
      var now := clock;
      clock := clock + 1;
      created := runId !in runs;
      if created {
        runs := runs[runId := StoredRun(Record(Running, EMPTY_STATE, now), None, workspace)];
      }
    }

    /** `save_state`: status and final message keep their value when not given; a missing row
        stays missing. */
    method SaveState(runId: string, state: RunState, status: Option<RunStatus>, finalMessage: Option<string>)
      requires Valid()
      modifies this
      ensures Valid() && clock == old(clock) + 1 && Others(runId) == old(Others(runId))
      ensures runId in runs <==> runId in old(runs)
      ensures runId in runs ==>
        var was := old(runs)[runId];
        runs[runId] == StoredRun(
          Record(if status.Some? then status.value else was.record.status, state, old(clock)),
          if finalMessage.Some? then finalMessage else was.finalMessage,
          was.workspace)
    {
      var now := clock;
      clock := clock + 1;
      if runId in runs {
        var row := runs[runId];
        var newStatus := if status.Some? then status.value else row.record.status;
        runs := runs[runId := StoredRun(Record(newStatus, state, now),
                                        if finalMessage.Some? then finalMessage else row.finalMessage,
                                        row.workspace)];
      }
    }

    /** `prepare_resume`: compare-and-swap back to RUNNING; refused if anyone wrote since `expected`. */
    method PrepareResume(runId: string, expected: nat, state: RunState) returns (swapped: bool)
      requires Valid()
      modifies this
      ensures Valid() && clock == old(clock) + 1 && Others(runId) == old(Others(runId))
      ensures swapped <==> runId in old(runs) && old(runs)[runId].record.updatedAt == expected
      ensures Find(runId) == if swapped then Some(Record(Running, state, old(clock))) else old(Find(runId))
    {
      var now := clock;
      clock := clock + 1;
      swapped := runId in runs && runs[runId].record.updatedAt == expected;
      if swapped {
        runs := runs[runId := runs[runId].(record := Record(Running, state, now))];
      }
    }

    /** `seal_interrupt`: a Run stored as RUNNING is repaired and stored as CANCELLED. */
    method SealInterrupt(runId: string, reason: string) returns (sealed: bool)
      requires Valid()
      modifies this
      ensures Valid() && Others(runId) == old(Others(runId))
      ensures sealed <==> runId in old(runs) && old(runs)[runId].record.status.Running?
      ensures sealed ==> clock == old(clock) + 1
      ensures sealed ==> Find(runId) == Some(Record(Cancelled, Sealed(old(runs)[runId].record.state), old(clock)))
      ensures !sealed ==> runs == old(runs) && clock == old(clock)
    {
      sealed := runId in runs && runs[runId].record.status.Running?;
      if sealed {
        var state, _ := Seal(runs[runId].record.state);
        SaveState(runId, state, Some(Cancelled), Some(reason));
      }
    }

    /** `prune`: stale rows go, of one workspace or of all; active and waiting Runs stay. */
    method Prune(before: nat, workspace: Option<string>, dryRun: bool) returns (count: nat)
      requires Valid()
      modifies this
      ensures Valid() && clock == old(clock)
      ensures count == |Stale(old(runs), before, workspace)|
      ensures runs == if dryRun then old(runs) else old(runs) - Stale(old(runs), before, workspace)
      ensures forall id :: id in old(runs) && Active(old(runs)[id].record.status) ==>
                id in runs && runs[id] == old(runs)[id]
    {
      count := |Stale(runs, before, workspace)|;
      if !dryRun && count > 0 {
        runs := runs - Stale(runs, before, workspace);
      }
      if count == 0 {
        assert Stale(runs, before, workspace) == {};
      }
    }

    static predicate Active(status: RunStatus) {
      status.Running? || status.WaitingForInput? || status.WaitingForApproval?
    }

    static function Stale(runs: map<string, StoredRun>, before: nat, workspace: Option<string>): set<string> {
      set id | id in runs && runs[id].record.updatedAt < before && !Active(runs[id].record.status)
               && (workspace.Some? ==> runs[id].workspace == workspace.value)
    }
  }
}
