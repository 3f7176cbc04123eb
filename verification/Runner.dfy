/**
 The background runner around the turn loop: what an execution is left as in memory, and when that is durable. Any
 checkpoint write of the loop or the runner may raise, before or after its row is stored.
 */
module Runners {
  import opened Outcomes
  import opened Workflows
  import opened DelegationRounds
  import opened Executions
  import opened Persistence
  import opened TurnLoop

  /** The runner's own verdict. A write that raises leaves the move made: the exception ends in the task's log. */
  function Fallen(s: Sys, reason: string, now: int): Sys {
    Ended(s, Failed, Some(reason), now, ExecutionFinalized).sys
  }

  const NO_SLOT := "deployment concurrency limit reached; retry later"

  /** A refused slot or an escaped exception fails the execution unless it is already over. */
  function Driven(s: Sys, slotAcquired: bool, turns: seq<Turn>, now: int): Sys {
    if !slotAcquired then Fallen(s, NO_SLOT, now)
    else
      var r := Run(s, turns, now);
      if r.raised.None? || IsTerminal(r.sys.exec.status) then r.sys else Fallen(r.sys, "crashed", now)
  }

  /** In memory a driven execution is never left running, whichever writes raise: it is over, or waits for approval. */
  lemma DrivenIsOverInMemory(s: Sys, slotAcquired: bool, turns: seq<Turn>, now: int)
    requires Consistent(s.exec) && !IsTerminal(s.exec.status)
    ensures var e := Driven(s, slotAcquired, turns, now).exec;
            Consistent(e) && (IsTerminal(e.status) || e.status == WaitingForApproval)
  {
    RunSound(s, turns, now);
  }

  /** Without a slot the execution fails with that reason, unstarted as it is and with one row if its write lands. */
  lemma NoSlotEnding(s: Sys, turns: seq<Turn>, now: int)
    requires Consistent(s.exec) && !IsTerminal(s.exec.status)
    ensures EndsAs(s, Ended(s, Failed, Some(NO_SLOT), now, ExecutionFinalized),
                   s.exec.(status := Failed, completedAt := Some(now),
                           failureReason := Some("deployment concurrency limit reached; retry later")),
                   ExecutionFinalized)
    ensures Driven(s, false, turns, now) == Ended(s, Failed, Some(NO_SLOT), now, ExecutionFinalized).sys
  {
    EndedRecords(s, Failed, Some(NO_SLOT), now, ExecutionFinalized);
    hide Ended, EndsAs;
  }

  // ---------------------------------------------------------------- rows that are no ending

  /** The row was there before the run, or is one of the executor's own. */
  ghost predicate InPool(start: seq<Saved>, turns: seq<Turn>, w: Saved) {
    w in start || exists t :: t in turns && w in t.executor.saved
  }

  /** Every durable row is one of those, or describes an execution that is not over. */
  ghost predicate NoEndingIn(start: seq<Saved>, turns: seq<Turn>, written: seq<Saved>) {
    forall w :: w in written ==> InPool(start, turns, w) || !IsTerminal(w.exec.status)
  }

  lemma CheckpointAddsNoEnding(start: seq<Saved>, turns: seq<Turn>, s: Sys, reason: CheckpointReason)
    requires NoEndingIn(start, turns, s.written) && !IsTerminal(s.exec.status)
    ensures var o := Checkpointed(s, reason);
            && NoEndingIn(start, turns, o.sys.written)
            && !o.Returned? && o.sys.exec == s.exec && (o.Raised? ==> o.error == CheckpointRaised)
  {
    hide InPool;
  }

  /** The ending is the last row, and no ending of the loop comes before it. */
  ghost predicate SavedLast(start: seq<Saved>, turns: seq<Turn>, s: Sys) {
    EndingSaved(s) && NoEndingIn(start, turns, s.written[..|s.written| - 1])
  }

  /** What an ending's own write makes of the durable rows: lost, or stored as the last of them. */
  ghost predicate LostOrSaved(start: seq<Saved>, turns: seq<Turn>, s: Sys) {
    if s.last == RaisesBefore then NoEndingIn(start, turns, s.written) else SavedLast(start, turns, s)
  }

  /** How a turn or a run that the executor did not end leaves the durable rows. */
  ghost predicate Traced(start: seq<Saved>, turns: seq<Turn>, s: Sys, goesOn: bool, returned: bool) {
    if goesOn then NoEndingIn(start, turns, s.written)
    else if returned then SavedLast(start, turns, s) && s.last == Works
    else if IsTerminal(s.exec.status) then LostOrSaved(start, turns, s)
    else NoEndingIn(start, turns, s.written)
  }

  ghost predicate TurnTraced(start: seq<Saved>, turns: seq<Turn>, t: Turn, o: TurnOutcome) {
    || (o.Raised? && o.error == ExecutorRaised && NoEndingIn(start, turns, o.sys.written))
    || (o.Returned? && ExecutorReached(t, o.sys.exec.status) && NoEndingIn(start, turns, o.sys.written))
    || Traced(start, turns, o.sys, o.Next?, o.Returned?)
  }

  lemma EndingTraced(
    start: seq<Saved>, turns: seq<Turn>, s: Sys, target: Status, reason: Option<string>, now: int,
        why: CheckpointReason)
    requires NoEndingIn(start, turns, s.written) && CanTransition(s.exec.status, target)
    ensures var o := Ended(s, target, reason, now, why);
            !o.Next? && Traced(start, turns, o.sys, false, o.Returned?)
  {
    hide Ended, CanTransition, NoEndingIn;
    EveryEnding();
    var o := Ended(s, target, reason, now, why);
    if o.sys.last != RaisesBefore {
      assert o.sys.written[..|o.sys.written| - 1] == s.written;
      if !IsTerminal(target) {
        RowAddsNoEnding(start, turns, s.written, Saved(why, o.sys.exec, s.graph));
      }
    }
  }

  lemma RowAddsNoEnding(start: seq<Saved>, turns: seq<Turn>, written: seq<Saved>, row: Saved)
    requires NoEndingIn(start, turns, written) && !IsTerminal(row.exec.status)
    ensures NoEndingIn(start, turns, written + [row])
  {
    hide InPool;
  }

  lemma ExecutorRowsInPool(start: seq<Saved>, turns: seq<Turn>, written: seq<Saved>, t: Turn)
    requires NoEndingIn(start, turns, written) && t in turns
    ensures NoEndingIn(start, turns, written + t.executor.saved)
  {
  }

  /** A round that goes on has added the executor's rows and, if it was drained, the correction of its verdict. */
  lemma RoundRows(s: Sys, run: ExecutorRun) returns (back: Sys)
    ensures back.exec.status == Running && back.written == s.written + run.saved
    ensures var o := RoundRun(s, run);
            || (o.Raised? && o.error == ExecutorRaised && o.sys.written == back.written)
            || (o.Returned? && o.sys.written == back.written)
            || (o.Next? && o.sys.written == back.written)
            || o == Checkpointed(back, RoundCompleted)
  {
    hide Checkpointed;
    var moved := AfterMoves(s.exec, run.moves);
    var exec := WithEffects(if moved.Ok? then moved.value else moved.error, run);
    back := s.(exec := exec.(status := Running, completedAt := None, failureReason := None),
               written := s.written + run.saved);
  }

  lemma RoundTraced(start: seq<Saved>, turns: seq<Turn>, s: Sys, t: Turn)
    requires AtBoundary(s) && NoEndingIn(start, turns, s.written) && t in turns
    requires t.cancelled == None && t.reply.Some? && RunsRound(t.reply.value)
    ensures TurnTraced(start, turns, t, RoundRun(s, t.executor))
  {
    hide Checkpointed, RoundRun, NoEndingIn, SavedLast, LostOrSaved;
    RoundSafe(s, t.executor);
    ExecutorRowsInPool(start, turns, s.written, t);
    var back := RoundRows(s, t.executor);
    CheckpointAddsNoEnding(start, turns, back, RoundCompleted);
  }

  lemma PreparedTraced(start: seq<Saved>, turns: seq<Turn>, s: Sys, d: Decision, plan: Option<Workflow>)
    requires AtBoundary(s) && NoEndingIn(start, turns, s.written) && RunsRound(d)
    ensures NoEndingIn(start, turns, Prepared(s, d, plan).sys.written)
  {
    hide Checkpointed, NoEndingIn;
    if d.Replan? && plan.Some? {
      var replanned := s.(graph := plan.value, exec := s.exec.(replanCount := s.exec.replanCount + 1));
      CheckpointAddsNoEnding(start, turns, replanned, AfterReplan);
    }
  }

  lemma RequestTraced(start: seq<Saved>, turns: seq<Turn>, s: Sys, t: Turn)
    requires AtBoundary(s) && NoEndingIn(start, turns, s.written)
    ensures TurnTraced(start, turns, t, ApprovalRequested(s, t.gate, t.now))
  {
    hide Checkpointed, Ended, NoEndingIn, SavedLast;
    match t.gate
    case Rejected(message) => EndingTraced(start, turns, s, Failed, Some(message), t.now, ExecutionFinalized);
    case Undecided(id) =>
      var noted := s.(exec := s.exec.(
        pendingApprovalId := Some(id),
        approvals := if id in s.exec.approvals then s.exec.approvals else s.exec.approvals + [id]));
      EveryCheckpoint();
      CheckpointAddsNoEnding(start, turns, noted, BeforeApproval);
      var o := Checkpointed(noted, BeforeApproval);
      if o.Next? {
        PauseTraced(start, turns, o.sys, t.now);
      }
    case _ =>
  }

  lemma PauseTraced(start: seq<Saved>, turns: seq<Turn>, s: Sys, now: int)
    requires AtBoundary(s) && NoEndingIn(start, turns, s.written)
    ensures var o := Ended(s, WaitingForApproval, None, now, BeforeApproval);
            !o.Next? && Traced(start, turns, o.sys, false, o.Returned?)
  {
    EndingTraced(start, turns, s, WaitingForApproval, None, now, BeforeApproval);
  }

  lemma OneTurnTraced(start: seq<Saved>, turns: seq<Turn>, s: Sys, t: Turn)
    requires AtBoundary(s) && NoEndingIn(start, turns, s.written) && t in turns
    ensures TurnTraced(start, turns, t, TurnStep(s, t))
  {
    hide Checkpointed, Ended, RoundRun, Prepared, ApprovalRequested, NoEndingIn;
    if t.cancelled.Some? {
      EndingTraced(start, turns, s, Cancelled, t.cancelled, t.now, OnCancellation);
    } else if t.reply.Some? {
      match t.reply.value
      case RequestApproval => RequestTraced(start, turns, s, t);
      case RespondDirectly(answer) => AnswerTraced(start, turns, s, answer, t.now);
      case Finalize(answer) => AnswerTraced(start, turns, s, answer, t.now);
      case Fail(reason) =>
        EndingTraced(start, turns, s.(exec := s.exec.(pendingApprovalId := None)), Failed, Some(reason), t.now,
                     ExecutionFinalized);
      case d =>
        PreparedAtBoundary(s, d, t.plan);
        PreparedTraced(start, turns, s, d, t.plan);
        if Prepared(s, d, t.plan).Next? {
          RoundTraced(start, turns, Prepared(s, d, t.plan).sys, t);
        }
    }
  }

  lemma AnswerTraced(start: seq<Saved>, turns: seq<Turn>, s: Sys, answer: string, now: int)
    requires AtBoundary(s) && NoEndingIn(start, turns, s.written)
    ensures var o := Concluded(s, answer, now); !o.Next? && Traced(start, turns, o.sys, false, o.Returned?)
  {
    EndingTraced(start, turns, s.(exec := s.exec.(finalOutput := Some(answer), pendingApprovalId := None)), Succeeded,
                 None, now, ExecutionFinalized);
  }

  // ---------------------------------------------------------------- whole runs

  /**
   The executor ended the execution, and writes its own checkpoints. An executor that raises while the execution is
   still running has not ended it: that is left to the runner.
   */
  ghost predicate EndedByExecutor(r: RunResult, turns: seq<Turn>) {
    || (r.raised == Some(ExecutorRaised) && IsTerminal(r.sys.exec.status))
    || (0 < r.turns <= |turns| && r.raised == None && ExecutorReached(turns[r.turns - 1], r.sys.exec.status))
  }

  ghost predicate RunTraced(start: seq<Saved>, turns: seq<Turn>, r: RunResult) {
    || (EndedByExecutor(r, turns) && NoEndingIn(start, turns, r.sys.written))
    || Traced(start, turns, r.sys, false, r.raised.None?)
  }

  lemma {:induction false} RunFromTraced(start: seq<Saved>, s: Sys, turns: seq<Turn>, taken: nat, now: int)
    requires taken <= |turns| && AtBoundary(s) && NoEndingIn(start, turns, s.written)
    ensures RunTraced(start, turns, RunFrom(s, turns, taken, now))
    decreases |turns| - taken
  {
    hide TurnStep, Ended, ExecutorReached, NoEndingIn, SavedLast;
    if taken == |turns| {
      EndingTraced(start, turns, s.(exec := s.exec.(pendingApprovalId := None)), Failed,
                   Some(LimitReason(|turns|)), now, ExecutionFinalized);
    } else {
      assert turns[taken] in turns;
      TurnSafe(s, turns[taken]);
      OneTurnTraced(start, turns, s, turns[taken]);
      var o := TurnStep(s, turns[taken]);
      if o.Next? {
        RunFromTraced(start, o.sys, turns, taken + 1, now);
      }
    }
  }

  lemma EnteredAddsNoEnding(s: Sys, turns: seq<Turn>, now: int)
    requires !IsTerminal(s.exec.status)
    ensures NoEndingIn(s.written, turns, Entered(s, now).sys.written)
  {
    hide Checkpointed, NoEndingIn;
    StartTraced(s.written, turns);
    if s.exec.status == Pending {
      CheckpointAddsNoEnding(s.written, turns, s.(exec := Moved(s.exec, Running, None, now).value), ExecutionStarted);
    }
  }

  lemma WholeRunTraced(s: Sys, turns: seq<Turn>, now: int)
    requires Consistent(s.exec) && !IsTerminal(s.exec.status)
    ensures RunTraced(s.written, turns, Run(s, turns, now))
  {
    hide RunFrom, Checkpointed, Entered, NoEndingIn, EndedByExecutor;
    EnteredAtBoundary(s, now);
    EnteredAddsNoEnding(s, turns, now);
    if Entered(s, now).Next? {
      RunFromTraced(s.written, Entered(s, now).sys, turns, 0, now);
    }
  }

  lemma FallenTraced(start: seq<Saved>, turns: seq<Turn>, s: Sys, reason: string, now: int)
    requires NoEndingIn(start, turns, s.written) && !IsTerminal(s.exec.status)
    ensures var d := Fallen(s, reason, now); IsTerminal(d.exec.status) && LostOrSaved(start, turns, d)
  {
    hide Ended, NoEndingIn;
    EveryEnding();
    EndingTraced(start, turns, s, Failed, Some(reason), now, ExecutionFinalized);
    assert CanTransition(s.exec.status, Failed);
  }

  /**
   Unless the executor ended the run, a driven execution's last write decides: lost, or the ending is the last row.
   */
  lemma DrivenTraced(s: Sys, slotAcquired: bool, turns: seq<Turn>, now: int)
    requires Consistent(s.exec) && !IsTerminal(s.exec.status)
    ensures var d := Driven(s, slotAcquired, turns, now);
            || (slotAcquired && EndedByExecutor(Run(s, turns, now), turns))
            || (EndingSaved(d) && d.last != RaisesBefore)
            || (d.last == RaisesBefore && NoEndingIn(s.written, turns, d.written) && IsTerminal(d.exec.status))
  {
    hide Run, Fallen, NoEndingIn, EndedByExecutor;
    if slotAcquired {
      WholeRunTraced(s, turns, now);
      var r := Run(s, turns, now);
      if r.raised.Some? && !IsTerminal(r.sys.exec.status) {
        FallenTraced(s.written, turns, r.sys, "crashed", now);
      }
    } else {
      StartTraced(s.written, turns);
      FallenTraced(s.written, turns, s, NO_SLOT, now);
    }
  }

  lemma StartTraced(start: seq<Saved>, turns: seq<Turn>)
    ensures NoEndingIn(start, turns, start)
  {
  }

  /**
   Whatever the fates of the writes, an ending the executor did not impose is durable exactly when the last write
   attempted was not lost, provided it is not, field for field, what an earlier or an executor's row already said.
   */
  lemma EndingDurableIff(s: Sys, slotAcquired: bool, turns: seq<Turn>, now: int)
    requires Consistent(s.exec) && !IsTerminal(s.exec.status)
    requires slotAcquired ==> !EndedByExecutor(Run(s, turns, now), turns)
    requires forall w :: InPool(s.written, turns, w) ==> w.exec != Driven(s, slotAcquired, turns, now).exec
    ensures EndingSaved(Driven(s, slotAcquired, turns, now))
        <==> Driven(s, slotAcquired, turns, now).last != RaisesBefore
  {
    hide Run, Driven, InPool, EndedByExecutor;
    DrivenTraced(s, slotAcquired, turns, now);
  }

  /** The half that needs no proviso: a last write that was not lost saved the ending. */
  lemma EndingIsSaved(s: Sys, slotAcquired: bool, turns: seq<Turn>, now: int)
    requires Consistent(s.exec) && !IsTerminal(s.exec.status)
    requires Driven(s, slotAcquired, turns, now).last != RaisesBefore
    ensures || EndingSaved(Driven(s, slotAcquired, turns, now))
            || (slotAcquired && EndedByExecutor(Run(s, turns, now), turns))
  {
    hide Run, Driven, NoEndingIn, EndedByExecutor, EndingSaved;
    DrivenTraced(s, slotAcquired, turns, now);
  }

  const NEW_EXECUTION := Exec(Pending, None, None, None, None, None, [], 0, map[], map[], 0)

  /**
   A new execution answered at once, whose second write raises: it has succeeded, and all that is durable says running.
   */
  lemma LostEndingExample(answer: string, now: int)
    ensures var s := Sys(NEW_EXECUTION, SEED, [], [Works, RaisesBefore], Works);
            var d := Driven(s, true, [Turn(None, Some(Finalize(answer)), GateRaised, None, NO_EXECUTOR, now)], now);
            && d.exec.status == Succeeded
            && |d.written| == 1 && d.written[0].exec.status == Running
  {
    var s := Sys(NEW_EXECUTION, SEED, [], [Works, RaisesBefore], Works);
    var t := Turn(None, Some(Finalize(answer)), GateRaised, None, NO_EXECUTOR, now);
    var entered := Entered(s, now);
    assert entered.Next? && entered.sys.fates == [RaisesBefore];
    assert |entered.sys.written| == 1 && entered.sys.written[0].exec.status == Running;
    var o := TurnStep(entered.sys, t);
    assert o.Raised? && o.sys.exec.status == Succeeded && o.sys.written == entered.sys.written;
    assert RunFrom(entered.sys, [t], 0, now) == RunResult(o.sys, 1, Some(CheckpointRaised));
  }
}
