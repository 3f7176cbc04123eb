/**
 What a resume finds if the process dies between any two checkpoint writes of a run: the rows written so far, replayed
 through the checkpoint manager, and read back.
 */
module ResumePoints {
  import opened Outcomes
  import opened Executions
  import opened Persistence
  import opened TurnLoop
  import Runners
  import M = CheckpointManagers

  /** A row as the manager is asked to write it; `encode` is the serialisation of all fields but the status. */
  function AsCall(id: string, encode: Exec -> string, w: Saved): M.Call {
    M.Write(id, StateDoc(w.exec.status, encode(w.exec), 0, 0), w.graph, w.reason, None, true)
  }

  function AsCalls(id: string, encode: Exec -> string, rows: seq<Saved>): (calls: seq<M.Call>)
    ensures |calls| == |rows|
  {
    seq(|rows|, i requires 0 <= i < |rows| => AsCall(id, encode, rows[i]))
  }

  /** What resume reports when exactly these rows have become durable. */
  function ResumeAfter(id: string, encode: Exec -> string, rows: seq<Saved>): Result<M.ResumeContext, M.ResumeError> {
    M.Resume(M.Run(M.New(true), AsCalls(id, encode, rows)).db, id)
  }

  /** Only the last durable row counts: a finished one stops the resume, any other is where it goes on. */
  lemma ResumeReadsLastRow(id: string, encode: Exec -> string, rows: seq<Saved>)
    ensures match ResumeAfter(id, encode, rows)
            case Err(NothingPersisted) => rows == []
            case Err(AlreadyFinished(status)) =>
              rows != [] && rows[|rows| - 1].exec.status == status && IsTerminal(status)
            case Ok(ctx) =>
              && rows != [] && !IsTerminal(rows[|rows| - 1].exec.status)
              && ctx.state.status == rows[|rows| - 1].exec.status
              && ctx.state.body == encode(rows[|rows| - 1].exec) && ctx.workflow == rows[|rows| - 1].graph
  {
    hide M.Run, M.Resume;
    M.ResumeSeesLastWrite(true, AsCalls(id, encode, rows), id);
  }

  ghost predicate LooksFinished(id: string, encode: Exec -> string, rows: seq<Saved>) {
    ResumeAfter(id, encode, rows).Err? && ResumeAfter(id, encode, rows).error.AlreadyFinished?
  }

  lemma LooksFinishedIff(id: string, encode: Exec -> string, rows: seq<Saved>)
    ensures LooksFinished(id, encode, rows) <==> rows != [] && IsTerminal(rows[|rows| - 1].exec.status)
  {
    hide ResumeAfter;
    ResumeReadsLastRow(id, encode, rows);
  }

  /** A round the executor drained, saving its verdict, of all its rows, last. */
  ghost predicate DrainedRound(s: Sys, run: ExecutorRun) {
    && AfterMoves(s.exec, run.moves).Ok? && !run.raises && run.saved != []
    && WithEffects(AfterMoves(s.exec, run.moves).value, run).status in {Succeeded, Failed}
    && run.saved[|run.saved| - 1].exec == WithEffects(AfterMoves(s.exec, run.moves).value, run)
    && forall i :: 0 <= i < |run.saved| - 1 ==> !IsTerminal(run.saved[i].exec.status)
  }

  lemma DrainedRows(s: Sys, run: ExecutorRun)
    requires AtBoundary(s) && DrainedRound(s, run)
    ensures var o := RoundRun(s, run);
            && o.sys.exec.status == Running
            && IsTerminal(run.saved[|run.saved| - 1].exec.status)
            && o.sys.written == s.written + run.saved
                                + if NextFate(s) == RaisesBefore then []
                                    else [Saved(RoundCompleted, o.sys.exec, s.graph)]
  {
    assert s.written + run.saved + [] == s.written + run.saved;
  }

  /**
   The process may die anywhere in a drained round, after which the execution is running. What it has made durable
   looks finished to a resume exactly between the executor's verdict and its correction.
   */
  lemma CrashWindow(id: string, encode: Exec -> string, s: Sys, run: ExecutorRun, k: nat)
    requires AtBoundary(s) && DrainedRound(s, run)
    requires s.written != [] && !IsTerminal(s.written[|s.written| - 1].exec.status)
    requires |s.written| <= k <= |RoundRun(s, run).sys.written|
    ensures LooksFinished(id, encode, RoundRun(s, run).sys.written[..k]) <==> k == |s.written| + |run.saved|
  {
    hide RoundRun, LooksFinished;
    DrainedRows(s, run);
    var rows := RoundRun(s, run).sys.written;
    LooksFinishedIff(id, encode, rows[..k]);
    if k <= |s.written| + |run.saved| && k > |s.written| {
      assert rows[k - 1] == run.saved[k - 1 - |s.written|];
    }
  }

  /**
   Over a whole run, wherever the process dies: what is durable looks finished only right after a row of the executor
   or one from before the run, or when it ends with the run's own ending.
   */
  lemma LooksFinishedOnlyWhere(id: string, encode: Exec -> string, s: Sys, turns: seq<Turn>, now: int, k: nat)
    requires Consistent(s.exec) && !IsTerminal(s.exec.status)
    requires 0 < k <= |TurnLoop.Run(s, turns, now).sys.written|
    requires LooksFinished(id, encode, TurnLoop.Run(s, turns, now).sys.written[..k])
    ensures var r := TurnLoop.Run(s, turns, now);
            || Runners.InPool(s.written, turns, r.sys.written[k - 1])
            || (k == |r.sys.written| && r.sys.written[k - 1].exec == r.sys.exec)
  {
    hide TurnLoop.Run, LooksFinished, Runners.InPool, Runners.EndedByExecutor;
    var r := TurnLoop.Run(s, turns, now);
    var row := r.sys.written[k - 1];
    LooksFinishedIff(id, encode, r.sys.written[..k]);
    Runners.WholeRunTraced(s, turns, now);
    if k < |r.sys.written| {
      assert row == r.sys.written[..|r.sys.written| - 1][k - 1];
    }
  }
}
