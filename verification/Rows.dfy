/**
 Run and tool-call rows and their guarded transitions (packages/db/src/repositories/run-repo.ts and
 tool-call-repo.ts). Every terminal write carries `WHERE status = 'running'` (or `'started'`).
 */
module Rows {
  datatype RunStatus = Running | Completed | Failed | Cancelled | TimedOut

  datatype ToolStatus = ToolStarted | ToolCompleted | ToolFailed

  /** A guarded terminal write to a run row. */
  function Finish(s: RunStatus, to: RunStatus): RunStatus { if s.Running? then to else s }

  /** A guarded terminal write to a tool-call row. */
  function FinishTool(s: ToolStatus, to: ToolStatus): ToolStatus { if s.ToolStarted? then to else s }

  class RunRepo {
    var runs: map<string, RunStatus>

    constructor ()
      ensures runs == map[]
    {
      runs := map[];
    }

    /** The insert; a second row under the same primary key is refused. */
    method Create(runId: string) returns (created: bool)
      modifies this`runs
      ensures created <==> runId !in old(runs)
      ensures runs == if created then old(runs)[runId := Running] else old(runs)
    {
      created := runId !in runs;
      if created { runs := runs[runId := Running]; }
    }

    /** `complete`, `fail`, `cancel` and `timeout`, which differ in `to` alone. */
    method Transition(runId: string, to: RunStatus) returns (applied: bool)
      modifies this`runs
      ensures applied <==> runId in old(runs) && old(runs)[runId].Running?
      ensures runs == WriteRun(old(runs), runId, to)
    {
      applied := runId in runs && runs[runId].Running?;
      if applied { runs := runs[runId := to]; }
    }
  }

  function WriteRun(runs: map<string, RunStatus>, runId: string, to: RunStatus): map<string, RunStatus> {
    if runId in runs && runs[runId].Running? then runs[runId := to] else runs
  }

  datatype Write = Write(runId: string, to: RunStatus)

  function WriteAll(runs: map<string, RunStatus>, writes: seq<Write>): map<string, RunStatus> {
    if writes == [] then runs
    else WriteAll(WriteRun(runs, writes[0].runId, writes[0].to), writes[1..])
  }

  /** The first write aimed at a run. */
  function FirstWrite(runId: string, writes: seq<Write>, otherwise: RunStatus): RunStatus {
    if writes == [] then otherwise
    else if writes[0].runId == runId then writes[0].to
    else FirstWrite(runId, writes[1..], otherwise)
  }

  /**
   Whichever cause fires first wins: after any interleaving of terminal writes to any runs, a run
   that was running has the status of the first write aimed at it, and every other row is as before.
   */
  lemma {:induction false} FirstTerminalWriteWins(runs: map<string, RunStatus>, writes: seq<Write>, runId: string)
    requires runId in runs
    requires forall i :: 0 <= i < |writes| ==> !writes[i].to.Running?
    ensures WriteAll(runs, writes).Keys == runs.Keys
    ensures WriteAll(runs, writes)[runId]
         == if runs[runId].Running? then FirstWrite(runId, writes, Running) else runs[runId]
  {
    if writes != [] {
      FirstTerminalWriteWins(WriteRun(runs, writes[0].runId, writes[0].to), writes[1..], runId);
    }
  }
}
