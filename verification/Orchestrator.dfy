/** The orchestrator as it runs: one mutable execution state, one graph, one turn loop. */
module Orchestrators {
  import opened Outcomes
  import opened Workflows
  import opened Delegation
  import opened Executions
  import opened Persistence
  import opened TurnLoop

  class Orchestrator {
    const state: ExecutionState
    var graph: Workflow
    var written: seq<Saved>
    var fates: seq<WriteFate>
    var last: WriteFate

    constructor (state: ExecutionState, graph: Workflow, fates: seq<WriteFate>)
      ensures this.state == state && System() == Sys(state.Value(), graph, [], fates, Works)
    {
      this.state := state;
      this.graph := graph;
      this.written := [];
      this.fates, this.last := fates, Works;
    }

    function System(): Sys
      reads this, state
    {
      Sys(state.Value(), graph, written, fates, last)
    }

    /** One checkpoint write: it works, or it raises before or after its row is durable. */
    method Checkpoint(reason: CheckpointReason) returns (error: Option<RunError>)
      modifies this
      ensures match Checkpointed(old(System()), reason)
              case Next(s) => error == None && System() == s
              case Raised(s, e) => error == Some(e) && System() == s
              case Returned(_) => false
    {
      var fate := if fates == [] then Works else fates[0];
      fates := if fates == [] then [] else fates[1..];
      last := fate;
      if fate == RaisesBefore {
        return Some(CheckpointRaised);
      }
      written := written + [Saved(reason, state.Value(), graph)];
      error := if fate == RaisesAfter then Some(CheckpointRaised) else None;
    }

    /** Move, checkpoint, stop; an illegal move or a write that raises is reported instead. */
    method End(target: Status, reason: Option<string>, now: int, why: CheckpointReason)
        returns (error: Option<RunError>)
      modifies this, state
      ensures match Ended(old(System()), target, reason, now, why)
              case Returned(s) => error == None && System() == s
              case Raised(s, e) => error == Some(e) && System() == s
              case Next(_) => false
    {
      var refused := state.TransitionTo(target, reason, now);
      if refused.Some? {
        return Some(IllegalTransition(refused.value));
      }
      error := Checkpoint(why);
    }

    /** Attempt the executor's moves on the state until one is refused; report whether all were made. */
    method RunMoves(moves: seq<Move>) returns (completed: bool)
      modifies state
      ensures match AfterMoves(old(state.Value()), moves)
              case Ok(e) => completed && state.Value() == e
              case Err(e) => !completed && state.Value() == e
    {
      var i := 0;
      while i < |moves|
        invariant 0 <= i <= |moves|
        invariant AfterMoves(state.Value(), moves[i..]) == AfterMoves(old(state.Value()), moves)
      {
        assert moves[i..][0] == moves[i] && moves[i..][1..] == moves[i + 1..];
        var refused := state.TransitionTo(moves[i].target, moves[i].reason, moves[i].now);
        if refused.Some? {
          return false;
        }
        i := i + 1;
      }
      completed := true;
    }

    method RecoverFromRoundDrain() returns (error: Option<RunError>)
      modifies this, state
      ensures Reported(Recovered(old(System())), error.Some?, error)
    {
      state.status := Running;
      state.completedAt := None;
      state.failureReason := None;
      error := Checkpoint(RoundCompleted);
    }

    /** One executor call and the loop's reading of its verdict. `stop` with no error means the run returns. */
    method RunExecutor(run: ExecutorRun) returns (stop: bool, error: Option<RunError>)
      modifies this, state
      ensures Reported(RoundRun(old(System()), run), stop, error)
    {
      hide Checkpointed, AfterMoves;
      var completed := RunMoves(run.moves);
      written := written + run.saved;
      if !completed {
        return true, Some(ExecutorRaised);
      }
      state.finalOutput, state.pendingApprovalId, state.approvals := run.finalOutput, run.pendingApprovalId,
          run.approvals;
      state.nodeStatus, state.retries, state.usageRetries := run.nodeStatus, run.retries, run.usageRetries;
      if run.raises {
        return true, Some(ExecutorRaised);
      }
      if state.status == WaitingForApproval {
        return true, None;
      }
      if state.status in {Succeeded, Failed} {
        error := RecoverFromRoundDrain();
        return error.Some?, error;
      } else if IsTerminal(state.status) {
        return true, None;
      }
      stop, error := false, None;
    }

    /** How a method's two results and the new system spell out the outcome of a turn. */
    ghost predicate Reported(o: TurnOutcome, stop: bool, error: Option<RunError>)
      reads this, state
    {
      && System() == o.sys
      && match o
         case Next(_) => !stop && error == None
         case Returned(_) => stop && error == None
         case Raised(_, e) => stop && error == Some(e)
    }

    method Request(gate: GateAnswer, now: int) returns (stop: bool, error: Option<RunError>)
      modifies this, state
      ensures Reported(ApprovalRequested(old(System()), gate, now), stop, error)
    {
      match gate
      case GateRaised =>
        stop, error := true, Some(ApprovalsRaised);
      case Granted =>
        state.pendingApprovalId := None;
        stop, error := false, None;
      case Rejected(message) =>
        error := End(Failed, Some(message), now, ExecutionFinalized);
        stop := true;
      case Undecided(id) =>
        state.pendingApprovalId := Some(id);
        if id !in state.approvals {
          state.approvals := state.approvals + [id];
        }
        error := Checkpoint(BeforeApproval);
        if error.Some? {
          return true, error;
        }
        error := End(WaitingForApproval, None, now, BeforeApproval);
        stop := true;
    }

    method Conclude(answer: string, now: int) returns (stop: bool, error: Option<RunError>)
      modifies this, state
      ensures Reported(Concluded(old(System()), answer, now), stop, error)
    {
      state.finalOutput := Some(answer);
      state.pendingApprovalId := None;
      error := End(Succeeded, None, now, ExecutionFinalized);
      stop := true;
    }

    method Prepare(d: Decision, plan: Option<Workflow>) returns (error: Option<RunError>)
      requires RunsRound(d)
      modifies this, state
      ensures match Prepared(old(System()), d, plan)
              case Next(s) => error == None && System() == s
              case Raised(s, e) => error == Some(e) && System() == s
              case Returned(_) => false
      ensures d.Replan? && plan.Some? ==> graph == plan.value
      ensures d.Delegate? && error == None ==> GrownByTargets(old(graph), d.targets, graph)
      ensures d.RetryNode? ==> graph == old(graph) && error == None
    {
      error := None;
      match d
      case RetryNode(nodeId) =>
        state.ReopenNode(nodeId);
      case Delegate(targets) =>
        var grown := CompileDelegation(graph, targets);
        match grown {
          case Err(e) => error := Some(RoundRefused(e));
          case Ok(w) => graph := w;
        }
      case Replan =>
        if plan.None? {
          return Some(PlanRaised);
        }
        graph := plan.value;
        state.replanCount := state.replanCount + 1;
        error := Checkpoint(AfterReplan);
    }

    method TakeTurn(t: Turn) returns (stop: bool, error: Option<RunError>)
      modifies this, state
      ensures Reported(TurnStep(old(System()), t), stop, error)
      ensures t.cancelled == None && t.reply == Some(Replan) && t.plan.Some? ==> graph == t.plan.value
    {
      TurnGraph(System(), t);
      hide Ended, RoundRun, Prepared, ApprovalRequested, Concluded;
      if t.cancelled.Some? {
        error := End(Cancelled, t.cancelled, t.now, OnCancellation);
        return true, error;
      }
      if t.reply.None? {
        return true, Some(RunError.SupervisorRaised);
      }
      match t.reply.value
      case RequestApproval =>
        stop, error := Request(t.gate, t.now);
      case RespondDirectly(answer) =>
        stop, error := Conclude(answer, t.now);
      case Finalize(answer) =>
        stop, error := Conclude(answer, t.now);
      case Fail(reason) =>
        state.pendingApprovalId := None;
        error := End(Failed, Some(reason), t.now, ExecutionFinalized);
        stop := true;
      case d =>
        error := Prepare(d, t.plan);
        if error.Some? {
          return true, error;
        }
        stop, error := RunExecutor(t.executor);
    }

    /** Run to completion, a pause, an escaping error, or the turn limit. */
    method Run(turns: seq<Turn>, now: int) returns (taken: nat, raised: Option<RunError>)
      modifies this, state
      ensures TurnLoop.Run(old(System()), turns, now) == RunResult(System(), taken, raised)
      ensures LeftBy(old(graph), GraphHistory(old(System()), turns, now), graph)
    {
      RunLeavesLastPlanGrown(System(), turns, now);
      hide TurnStep, Ended, Checkpointed, LeftBy, GraphHistory, GrownByTargets, LastPlan, GrownSince;
      if state.status == Pending {
        var _ := state.TransitionTo(Running, None, now);
        var failed := Checkpoint(ExecutionStarted);
        if failed.Some? {
          return 0, failed;
        }
      } else if state.status == WaitingForApproval {
        var _ := state.TransitionTo(Running, None, now);
      }
      taken := 0;
      while taken < |turns|
        invariant taken <= |turns|
        invariant RunFrom(System(), turns, taken, now) == TurnLoop.Run(old(System()), turns, now)
      {
        var stop, error := TakeTurn(turns[taken]);
        taken := taken + 1;
        if stop {
          return taken, error;
        }
      }
      state.pendingApprovalId := None;
      raised := End(Failed, Some(LimitReason(|turns|)), now, ExecutionFinalized);
    }
  }
}
