/**
 The supervisor turn loop on values. A run is driven by a list of turns, one per supervisor turn allowed, and each
 turn carries everything the environment decides: the cancel token, the supervisor's reply, the approval gate's
 answer, the compiled replan, and a complete executor run. Statements over all lists are statements over every
 supervisor and every executor that changes the status only through the transition table.
 */
module TurnLoop {
  import opened Outcomes
  import opened Sequences
  import opened Decimals
  import opened Workflows
  import opened Delegation
  import opened DelegationRounds
  import opened Executions
  import opened Persistence

  datatype Decision =
    | RetryNode(nodeId: string)
    | Delegate(targets: seq<Target>)
    | Replan
    | RequestApproval
    | RespondDirectly(answer: string)
    | Finalize(answer: string)
    | Fail(reason: string)

  /** What the decision's own validators guarantee before the engine sees it. */
  ghost predicate ValidDecision(d: Decision) {
    match d
    case Delegate(targets) => ValidTargets(targets)
    case RespondDirectly(answer) => answer != ""
    case Finalize(answer) => answer != ""
    case Fail(reason) => reason != ""
    case _ => true
  }

  datatype GateAnswer = Granted | Undecided(approvalId: string) | Rejected(message: string) | GateRaised

  datatype Move = Move(target: Status, reason: Option<string>, now: int)

  /**
   One executor call: the status moves it attempts, then whatever it leaves in the other fields, the checkpoints it
   writes itself, then perhaps an error.
   */
  datatype ExecutorRun = ExecutorRun(
    moves: seq<Move>,
    finalOutput: Option<string>,
    pendingApprovalId: Option<string>,
    approvals: seq<string>,
    nodeStatus: map<string, NodeStatus>,
    retries: map<string, nat>,
    usageRetries: nat,
    saved: seq<Saved>,
    raises: bool)

  datatype Turn = Turn(
    cancelled: Option<string>,
    reply: Option<Decision>,  // None: the supervisor call itself raised
    gate: GateAnswer,
    plan: Option<Workflow>,  // None: compiling the plan raised
    executor: ExecutorRun,
    now: int)

  datatype Saved = Saved(reason: CheckpointReason, exec: Exec, graph: Workflow)

  /** What becomes of a checkpoint write of the loop: it works, or it raises before or after its row is durable. */
  datatype WriteFate = Works | RaisesBefore | RaisesAfter

  /**
   State, the graph as it stands, the checkpoints written, the fates of the writes to come (past their end all work),
   and the fate of the last write attempted.
   */
  datatype Sys = Sys(exec: Exec, graph: Workflow, written: seq<Saved>, fates: seq<WriteFate>, last: WriteFate)

  datatype RunError =
    | IllegalTransition(move: IllegalMove)
    | RoundRefused(error: WorkflowError)
    | SupervisorRaised
    | PlanRaised
    | ApprovalsRaised
    | ExecutorRaised
    | CheckpointRaised

  datatype TurnOutcome = Next(sys: Sys) | Returned(sys: Sys) | Raised(sys: Sys, error: RunError)

  function NextFate(s: Sys): WriteFate {
    if s.fates == [] then Works else s.fates[0]
  }

  function Checkpointed(s: Sys, reason: CheckpointReason): TurnOutcome {
    var fate := NextFate(s);
    var tried := s.(fates := if s.fates == [] then [] else s.fates[1..], last := fate);
    var saved := s.written + [Saved(reason, s.exec, s.graph)];
    match fate
    case Works => Next(tried.(written := saved))
    case RaisesAfter => Raised(tried.(written := saved), CheckpointRaised)
    case RaisesBefore => Raised(tried, CheckpointRaised)
  }

  /** Move the status, write a checkpoint, and end the run: the shape of every deliberate ending. */
  function Ended(s: Sys, target: Status, reason: Option<string>, now: int, why: CheckpointReason)
    : TurnOutcome
  {
    match Moved(s.exec, target, reason, now)
    case Err(e) => Raised(s, IllegalTransition(e))
    case Ok(exec) =>
      match Checkpointed(s.(exec := exec), why)
      case Next(saved) => Returned(saved)
      case other => other
  }

  /** The executor's moves in order, up to the first the table refuses. */
  function AfterMoves(exec: Exec, moves: seq<Move>): Result<Exec, Exec>
    decreases |moves|
  {
    if moves == [] then Ok(exec)
    else
      match Moved(exec, moves[0].target, moves[0].reason, moves[0].now)
      case Err(_) => Err(exec)
      case Ok(next) => AfterMoves(next, moves[1..])
  }

  /** A drained round is not a finished run: the verdict the executor imposed is taken back and that is made durable. */
  function Recovered(s: Sys): TurnOutcome {
    Checkpointed(s.(exec := s.exec.(status := Running, completedAt := None, failureReason := None)), RoundCompleted)
  }

  function WithEffects(exec: Exec, run: ExecutorRun): Exec {
    exec.(finalOutput := run.finalOutput, pendingApprovalId := run.pendingApprovalId, approvals := run.approvals,
          nodeStatus := run.nodeStatus, retries := run.retries, usageRetries := run.usageRetries)
  }

  function RoundRun(s: Sys, run: ExecutorRun): TurnOutcome {
    match AfterMoves(s.exec, run.moves)
    case Err(exec) => Raised(s.(exec := exec, written := s.written + run.saved), ExecutorRaised)
    case Ok(exec) =>
      var after := s.(exec := WithEffects(exec, run), written := s.written + run.saved);
      if run.raises then Raised(after, ExecutorRaised)
      else if after.exec.status == WaitingForApproval then Returned(after)
      else if after.exec.status in {Succeeded, Failed} then Recovered(after)
      else if IsTerminal(after.exec.status) then Returned(after)
      else Next(after)
  }

  function ApprovalRequested(s: Sys, gate: GateAnswer, now: int): TurnOutcome {
    match gate
    case GateRaised => Raised(s, ApprovalsRaised)
    case Granted => Next(s.(exec := s.exec.(pendingApprovalId := None)))
    case Rejected(message) => Ended(s, Failed, Some(message), now, ExecutionFinalized)
    case Undecided(id) =>
      var noted := s.exec.(pendingApprovalId := Some(id),
                           approvals := if id in s.exec.approvals then s.exec.approvals else s.exec.approvals + [id]);
      match Checkpointed(s.(exec := noted), BeforeApproval)
      case Next(saved) => Ended(saved, WaitingForApproval, None, now, BeforeApproval)
      case other => other
  }

  predicate RunsRound(d: Decision) {
    d.RetryNode? || d.Delegate? || d.Replan?
  }

  /** What a retry, delegation or replan does before the executor is called on the graph. */
  function Prepared(s: Sys, d: Decision, plan: Option<Workflow>): TurnOutcome
    requires RunsRound(d)
  {
    match d
    case RetryNode(nodeId) => Next(s.(exec := Reopened(s.exec, nodeId)))
    case Delegate(targets) =>
      (match Compiled(s.graph, targets)
       case Err(e) => Raised(s, RoundRefused(e))
       case Ok(graph) => Next(s.(graph := graph)))
    case Replan =>
      if plan.None? then Raised(s, PlanRaised)
      else
        var replanned := s.(graph := plan.value, exec := s.exec.(replanCount := s.exec.replanCount + 1));
        Checkpointed(replanned, AfterReplan)
  }

  function Decided(s: Sys, d: Decision, t: Turn): TurnOutcome {
    match d
    case RequestApproval => ApprovalRequested(s, t.gate, t.now)
    case RespondDirectly(answer) => Concluded(s, answer, t.now)
    case Finalize(answer) => Concluded(s, answer, t.now)
    case Fail(reason) =>
      Ended(s.(exec := s.exec.(pendingApprovalId := None)), Failed, Some(reason), t.now, ExecutionFinalized)
    case _ =>
      match Prepared(s, d, t.plan)
      case Next(ready) => RoundRun(ready, t.executor)
      case other => other
  }

  function Concluded(s: Sys, answer: string, now: int): TurnOutcome {
    var exec := s.exec.(finalOutput := Some(answer), pendingApprovalId := None);
    Ended(s.(exec := exec), Succeeded, None, now, ExecutionFinalized)
  }

  function TurnStep(s: Sys, t: Turn): TurnOutcome {
    if t.cancelled.Some? then Ended(s, Cancelled, t.cancelled, t.now, OnCancellation)
    else if t.reply.None? then Raised(s, SupervisorRaised)
    else Decided(s, t.reply.value, t)
  }

  /** Entry: a pending execution starts and is checkpointed, a paused one resumes, anything else is left alone. */
  function Entered(s: Sys, now: int): TurnOutcome {
    if s.exec.status == Pending then
      Checkpointed(s.(exec := Moved(s.exec, Running, None, now).value), ExecutionStarted)
    else if s.exec.status == WaitingForApproval then Next(s.(exec := Moved(s.exec, Running, None, now).value))
    else Next(s)
  }

  function LimitReason(maxTurns: nat): string {
    "exceeded the maximum of " + Decimal(maxTurns) + " supervisor turns"
  }

  /** Where a run stopped, how many turns it took, and the exception it propagated if it did not return. */
  datatype RunResult = RunResult(sys: Sys, turns: nat, raised: Option<RunError>)

  function RunFrom(s: Sys, turns: seq<Turn>, taken: nat, now: int): RunResult
    requires taken <= |turns|
    decreases |turns| - taken
  {
    if taken == |turns| then
      match Ended(s.(exec := s.exec.(pendingApprovalId := None)), Failed, Some(LimitReason(|turns|)), now,
          ExecutionFinalized)
      case Raised(s', e) => RunResult(s', taken, Some(e))
      case other => RunResult(other.sys, taken, None)
    else
      match TurnStep(s, turns[taken])
      case Returned(s') => RunResult(s', taken + 1, None)
      case Raised(s', e) => RunResult(s', taken + 1, Some(e))
      case Next(s') => RunFrom(s', turns, taken + 1, now)
  }

  /** A whole run: the number of turns in the list is the turn limit. */
  function Run(s: Sys, turns: seq<Turn>, now: int): RunResult {
    match Entered(s, now)
    case Next(entered) => RunFrom(entered, turns, 0, now)
    case Raised(s', e) => RunResult(s', 0, Some(e))
    case Returned(s') => RunResult(s', 0, None)
  }

  // ---------------------------------------------------------------- what every checkpoint and ending does

  /** An ending the loop decided is the last checkpoint it wrote, complete with state and graph. */
  ghost predicate EndingSaved(s: Sys) {
    s.written != [] && var last := s.written[|s.written| - 1]; last.exec == s.exec && last.graph == s.graph
  }

  lemma EveryCheckpoint()
    ensures forall s, reason :: var o := Checkpointed(s, reason);
              && !o.Returned?
              && o.sys.exec == s.exec && o.sys.graph == s.graph && s.written <= o.sys.written
              && (o.Next? ==> EndingSaved(o.sys) && o.sys.written[|o.sys.written| - 1].reason == reason)
              && (o.Raised? ==> o.error == CheckpointRaised)
              && o.sys.last == NextFate(s) && (o.Next? <==> o.sys.last == Works)
              && (o.sys.last == RaisesBefore ==> o.sys.written == s.written)
              && (o.sys.last != RaisesBefore ==> o.sys.written == s.written + [Saved(reason, s.exec, s.graph)])
              && (o.sys.last != RaisesBefore ==> EndingSaved(o.sys))
  {
  }

  lemma EveryEnding()
    ensures forall s, target, reason, now, why :: var o := Ended(s, target, reason, now, why);
              && !o.Next?
              && o.sys.graph == s.graph && s.written <= o.sys.written
              && (s.exec.startedAt.Some? ==> o.sys.exec.startedAt == s.exec.startedAt)
              && o.sys.exec.pendingApprovalId == s.exec.pendingApprovalId
              && (o.Returned? ==> EndingSaved(o.sys) && o.sys.last == Works)
              && (CanTransition(s.exec.status, target) ==>
                    && o.sys.exec.status == target
                    && (o.sys.last == RaisesBefore ==> o.sys.written == s.written)
                    && (o.sys.last != RaisesBefore ==>
                          EndingSaved(o.sys) && o.sys.written == s.written + [Saved(why, o.sys.exec, s.graph)]))
  {
    hide Checkpointed, CanTransition;
    EveryCheckpoint();
  }

  // ---------------------------------------------------------------- one turn

  /** The state the loop is in between turns. */
  ghost predicate AtBoundary(s: Sys) {
    s.exec.status == Running && s.exec.completedAt == None
  }

  ghost predicate Answered(t: Turn, answer: string) {
    t.cancelled == None && (t.reply == Some(RespondDirectly(answer)) || t.reply == Some(Finalize(answer)))
  }

  ghost predicate OrderedFailure(t: Turn, reason: string) {
    t.cancelled == None
    && (t.reply == Some(Fail(reason)) || (t.reply == Some(RequestApproval) && t.gate == Rejected(reason)))
  }

  /** A list of moves that takes a running execution to `target` through the table. */
  ghost predicate ExecutorReached(t: Turn, target: Status) {
    && t.cancelled == None && t.reply.Some? && RunsRound(t.reply.value)
    && t.executor.moves != []
    && t.executor.moves[|t.executor.moves| - 1].target == target
  }

  /** Why a run may have returned with the status it has, in terms of the turn that ended it. */
  ghost predicate Justified(s: Sys, t: Turn) {
    match s.exec.status
    case Succeeded => exists answer :: Answered(t, answer) && s.exec.finalOutput == Some(answer)
    case Failed => exists reason :: OrderedFailure(t, reason) && (reason != "" ==> s.exec.failureReason == Some(reason))
    case Cancelled => t.cancelled.Some? || ExecutorReached(t, Cancelled)
    case BudgetExceeded => ExecutorReached(t, BudgetExceeded)
    case TimedOut => ExecutorReached(t, TimedOut)
    case WaitingForApproval =>
      || ExecutorReached(t, WaitingForApproval)
      || (exists id :: t.reply == Some(RequestApproval) && t.gate == Undecided(id)
                       && s.exec.pendingApprovalId == Some(id) && id in s.exec.approvals)
    case _ => false
  }

  lemma {:induction false} MovesKeepConsistent(exec: Exec, moves: seq<Move>)
    requires Consistent(exec)
    ensures Consistent(match AfterMoves(exec, moves) case Ok(e) => e case Err(e) => e)
    ensures AfterMoves(exec, moves).Ok? ==>
              AfterMoves(exec, moves).value.status == if moves == [] then exec.status else moves[|moves| - 1].target
    decreases |moves|
  {
    if moves != [] && Moved(exec, moves[0].target, moves[0].reason, moves[0].now).Ok? {
      MovedKeepsConsistent(exec, moves[0].target, moves[0].reason, moves[0].now);
      MovesKeepConsistent(Moved(exec, moves[0].target, moves[0].reason, moves[0].now).value, moves[1..]);
    }
  }

  lemma {:induction false} NoMoveEntersPending(exec: Exec, moves: seq<Move>)
    requires exec.status != Pending && AfterMoves(exec, moves).Ok?
    ensures AfterMoves(exec, moves).value.status != Pending
    decreases |moves|
  {
    if moves != [] {
      NoMoveEntersPending(Moved(exec, moves[0].target, moves[0].reason, moves[0].now).value, moves[1..]);
    }
  }

  lemma RoundSafe(s: Sys, run: ExecutorRun)
    requires AtBoundary(s)
    ensures var o := RoundRun(s, run);
            && (o.Next? ==> AtBoundary(o.sys))
            && Consistent(o.sys.exec)
            && (o.Returned? ==> run.moves != [] && run.moves[|run.moves| - 1].target == o.sys.exec.status
                                && o.sys.exec.status in {WaitingForApproval, Cancelled, BudgetExceeded, TimedOut})
            && (o.Raised? ==> o.error in {ExecutorRaised, CheckpointRaised})
  {
    MovesKeepConsistent(s.exec, run.moves);
    if AfterMoves(s.exec, run.moves).Ok? {
      NoMoveEntersPending(s.exec, run.moves);
    }
  }

  lemma PreparedAtBoundary(s: Sys, d: Decision, plan: Option<Workflow>)
    requires AtBoundary(s) && RunsRound(d)
    ensures var o := Prepared(s, d, plan);
            && !o.Returned? && AtBoundary(o.sys) && s.written <= o.sys.written
            && (o.Raised? ==> !o.error.IllegalTransition?)
  {
  }

  /** What a turn from a boundary may come to. */
  ghost predicate Orderly(o: TurnOutcome, t: Turn) {
    && Consistent(o.sys.exec)
    && (o.Next? ==> AtBoundary(o.sys))
    && (o.Returned? ==> Justified(o.sys, t))
    && (o.Raised? ==> !o.error.IllegalTransition?)
  }

  lemma AnswerSafe(s: Sys, t: Turn, answer: string)
    requires AtBoundary(s) && Answered(t, answer)
    ensures Orderly(Concluded(s, answer, t.now), t)
  {
  }

  lemma RequestSafe(s: Sys, t: Turn)
    requires AtBoundary(s) && t.cancelled == None && t.reply == Some(RequestApproval)
    ensures Orderly(ApprovalRequested(s, t.gate, t.now), t)
  {
    if t.gate.Rejected? {
      assert OrderedFailure(t, t.gate.message);
    }
  }

  lemma RoundTurnSafe(s: Sys, t: Turn)
    requires AtBoundary(s) && t.cancelled == None && t.reply.Some? && RunsRound(t.reply.value)
    ensures Orderly(TurnStep(s, t), t)
  {
    PreparedAtBoundary(s, t.reply.value, t.plan);
    var ready := Prepared(s, t.reply.value, t.plan);
    if ready.Next? {
      RoundSafe(ready.sys, t.executor);
    }
  }

  lemma FailureSafe(s: Sys, t: Turn, reason: string)
    requires AtBoundary(s) && t.cancelled == None && t.reply == Some(Fail(reason))
    ensures Orderly(TurnStep(s, t), t)
  {
    assert OrderedFailure(t, reason);
  }

  /**
   From a boundary, a turn leads to a boundary, returns for cause, or propagates an error that is not its own move.
   */
  lemma TurnSafe(s: Sys, t: Turn)
    requires AtBoundary(s)
    ensures Orderly(TurnStep(s, t), t)
  {
    if t.cancelled == None && t.reply.Some? {
      match t.reply.value
      case RequestApproval => RequestSafe(s, t);
      case RespondDirectly(answer) => AnswerSafe(s, t, answer);
      case Finalize(answer) => AnswerSafe(s, t, answer);
      case Fail(reason) => FailureSafe(s, t, reason);
      case _ => RoundTurnSafe(s, t);
    }
  }

  // ---------------------------------------------------------------- whole runs

  /** What a run's result says: bounded turns, no illegal move of its own, and a return only for cause. */
  ghost predicate Sound(r: RunResult, turns: seq<Turn>) {
    && r.turns <= |turns|
    && Consistent(r.sys.exec)
    && (r.raised.Some? ==> !r.raised.value.IllegalTransition?)
    && (r.raised.None? ==>
          || (r.turns > 0 && Justified(r.sys, turns[r.turns - 1]))
          || (r.turns == |turns| && r.sys.exec.status == Failed
              && r.sys.exec.failureReason
                 == Some("exceeded the maximum of " + Decimal(|turns|) + " supervisor turns")))
  }

  lemma {:induction false} RunFromSound(s: Sys, turns: seq<Turn>, taken: nat, now: int)
    requires taken <= |turns| && AtBoundary(s)
    ensures Sound(RunFrom(s, turns, taken, now), turns)
    decreases |turns| - taken
  {
    if taken < |turns| {
      TurnSafe(s, turns[taken]);
      var o := TurnStep(s, turns[taken]);
      if o.Next? {
        RunFromSound(o.sys, turns, taken + 1, now);
      }
    }
  }

  lemma EnteredAtBoundary(s: Sys, now: int)
    requires Consistent(s.exec) && !IsTerminal(s.exec.status)
    ensures var o := Entered(s, now); !o.Returned? && AtBoundary(o.sys) && (o.Raised? ==> o.error == CheckpointRaised)
  {
  }

  /** Every run from a non-terminal status is sound, whatever the supervisor, gate and executor do. */
  lemma RunSound(s: Sys, turns: seq<Turn>, now: int)
    requires Consistent(s.exec) && !IsTerminal(s.exec.status)
    ensures Sound(Run(s, turns, now), turns)
  {
    EnteredAtBoundary(s, now);
    if Entered(s, now).Next? {
      RunFromSound(Entered(s, now).sys, turns, 0, now);
    }
  }

  /**
   A run that returns is over or waiting; it succeeds only with an answer the supervisor gave, as the final output.
   */
  lemma ReturnedStatus(s: Sys, turns: seq<Turn>, now: int)
    requires Consistent(s.exec) && !IsTerminal(s.exec.status)
    ensures var r := Run(s, turns, now);
            && r.turns <= |turns|
            && (r.sys.exec.completedAt.Some? <==> IsTerminal(r.sys.exec.status))
            && (r.raised.None? ==> IsTerminal(r.sys.exec.status) || r.sys.exec.status == WaitingForApproval)
            && (r.raised.None? && r.sys.exec.status == Succeeded ==>
                  && r.turns > 0
                  && exists answer :: Answered(turns[r.turns - 1], answer) && r.sys.exec.finalOutput == Some(answer))
  {
    RunSound(s, turns, now);
  }

  /**
   Under any turn limit, the loop never attempts an illegal move exactly when it is entered from a non-terminal status.
   */
  lemma IllegalMoveOnlyFromTerminal(s: Sys, limit: nat, now: int)
    requires Consistent(s.exec)
    ensures (forall turns :: |turns| == limit ==> !MovesIllegally(s, turns, now)) <==> !IsTerminal(s.exec.status)
  {
    if IsTerminal(s.exec.status) {
      var turns := seq(limit, _ => CancelledTurn(now));
      assert MovesIllegally(s, turns, now);
    } else {
      forall turns | |turns| == limit ensures !MovesIllegally(s, turns, now) {
        RunSound(s, turns, now);
      }
    }
  }

  ghost predicate MovesIllegally(s: Sys, turns: seq<Turn>, now: int) {
    var raised := Run(s, turns, now).raised;
    raised.Some? && raised.value.IllegalTransition?
  }

  const NO_EXECUTOR := ExecutorRun([], None, None, [], map[], map[], 0, [], false)

  function CancelledTurn(now: int): Turn {
    Turn(Some("cancelled"), None, GateRaised, None, NO_EXECUTOR, now)
  }

  lemma {:induction false} MovesKeepStart(exec: Exec, moves: seq<Move>)
    requires exec.startedAt.Some?
    ensures (match AfterMoves(exec, moves) case Ok(e) => e case Err(e) => e).startedAt == exec.startedAt
    decreases |moves|
  {
    if moves != [] && Moved(exec, moves[0].target, moves[0].reason, moves[0].now).Ok? {
      MovesKeepStart(Moved(exec, moves[0].target, moves[0].reason, moves[0].now).value, moves[1..]);
    }
  }

  lemma RoundKeepsStart(s: Sys, run: ExecutorRun)
    requires s.exec.startedAt.Some?
    ensures RoundRun(s, run).sys.exec.startedAt == s.exec.startedAt
  {
    hide Checkpointed;
    EveryCheckpoint();
    MovesKeepStart(s.exec, run.moves);
  }

  lemma TurnKeepsStart(s: Sys, t: Turn)
    requires s.exec.startedAt.Some?
    ensures TurnStep(s, t).sys.exec.startedAt == s.exec.startedAt
  {
    hide Checkpointed, Ended, RoundRun;
    EveryCheckpoint();
    EveryEnding();
    if t.cancelled == None && t.reply.Some? && RunsRound(t.reply.value) && Prepared(s, t.reply.value, t.plan).Next? {
      RoundKeepsStart(Prepared(s, t.reply.value, t.plan).sys, t.executor);
    }
  }

  lemma {:induction false} RunFromKeepsStart(s: Sys, turns: seq<Turn>, taken: nat, now: int)
    requires taken <= |turns| && s.exec.startedAt.Some?
    ensures RunFrom(s, turns, taken, now).sys.exec.startedAt == s.exec.startedAt
    decreases |turns| - taken
  {
    hide TurnStep, Ended;
    EveryEnding();
    if taken < |turns| {
      TurnKeepsStart(s, turns[taken]);
      var o := TurnStep(s, turns[taken]);
      if o.Next? {
        RunFromKeepsStart(o.sys, turns, taken + 1, now);
      }
    }
  }

  /** The start time is recorded when an execution first runs, and pauses, resumes and drained rounds never move it. */
  lemma StartRecordedOnce(s: Sys, turns: seq<Turn>, now: int)
    requires s.exec.startedAt.Some? || s.exec.status in {Pending, WaitingForApproval}
    ensures Run(s, turns, now).sys.exec.startedAt
         == if s.exec.startedAt.Some? then s.exec.startedAt else Some(now)
  {
    if Entered(s, now).Next? {
      RunFromKeepsStart(Entered(s, now).sys, turns, 0, now);
    }
  }

  lemma RoundLeavesPending(s: Sys, run: ExecutorRun)
    ensures RoundRun(s, run).Returned? ==> RoundRun(s, run).sys.exec.pendingApprovalId == run.pendingApprovalId
  {
    hide Checkpointed, AfterMoves;
    EveryCheckpoint();
  }

  /**
   Which endings clear the pending approval: answering or failing does, cancelling or a rejection leaves it standing.
   */
  lemma PendingApprovalAtEnding(s: Sys, t: Turn)
    requires AtBoundary(s) && TurnStep(s, t).Returned?
    ensures var pending := TurnStep(s, t).sys.exec.pendingApprovalId;
            && (t.cancelled.Some? ==> pending == s.exec.pendingApprovalId)
            && (t.cancelled == None && t.reply == Some(RequestApproval) ==>
                  pending == if t.gate.Undecided? then Some(t.gate.approvalId) else s.exec.pendingApprovalId)
            && (t.cancelled == None && t.reply.Some? && RunsRound(t.reply.value) ==>
                  pending == t.executor.pendingApprovalId)
            && (t.cancelled == None && t.reply.Some? && t.reply.value != RequestApproval
                && !RunsRound(t.reply.value) ==>
                  pending == None)
  {
    hide Ended, Checkpointed, RoundRun, Prepared;
    EveryEnding();
    EveryCheckpoint();
    if t.cancelled == None && t.reply.Some? && RunsRound(t.reply.value) {
      PreparedAtBoundary(s, t.reply.value, t.plan);
      RoundLeavesPending(Prepared(s, t.reply.value, t.plan).sys, t.executor);
    }
  }

  // ---------------------------------------------------------------- durability of the ending

  lemma RoundSaves(s: Sys, run: ExecutorRun)
    requires AtBoundary(s)
    ensures var o := RoundRun(s, run);
            && s.written <= o.sys.written
            && (o.Returned? ==> run.moves != [] && run.moves[|run.moves| - 1].target == o.sys.exec.status)
            && (o.Next? && run.moves != [] && run.moves[|run.moves| - 1].target in {Succeeded, Failed} ==>
                  EndingSaved(o.sys) && o.sys.written[|o.sys.written| - 1].reason == RoundCompleted
                  && o.sys.exec.failureReason == None)
  {
    MovesKeepConsistent(s.exec, run.moves);
    RoundSafe(s, run);
  }

  ghost predicate Saves(s: Sys, o: TurnOutcome, t: Turn) {
    && s.written <= o.sys.written
    && (o.Returned? ==> EndingSaved(o.sys) || ExecutorReached(t, o.sys.exec.status))
    && (o.Next? && (ExecutorReached(t, Succeeded) || ExecutorReached(t, Failed)) ==>
          EndingSaved(o.sys) && o.sys.written[|o.sys.written| - 1].reason == RoundCompleted
          && o.sys.exec.status == Running && o.sys.exec.failureReason == None)
  }

  lemma RoundTurnSaves(s: Sys, t: Turn)
    requires AtBoundary(s) && t.cancelled == None && t.reply.Some? && RunsRound(t.reply.value)
    ensures Saves(s, TurnStep(s, t), t)
  {
    hide Checkpointed, RoundRun, Prepared;
    PreparedAtBoundary(s, t.reply.value, t.plan);
    var ready := Prepared(s, t.reply.value, t.plan);
    if ready.Next? {
      RoundSaves(ready.sys, t.executor);
      RoundSafe(ready.sys, t.executor);
    }
  }

  lemma EndingSaves(s: Sys, target: Status, reason: Option<string>, now: int, why: CheckpointReason, t: Turn)
    ensures Saves(s, Ended(s, target, reason, now, why), t)
  {
    hide Ended;
    EveryEnding();
  }

  lemma RequestSaves(s: Sys, t: Turn)
    requires t.reply == Some(RequestApproval)
    ensures Saves(s, ApprovalRequested(s, t.gate, t.now), t)
  {
    hide Checkpointed, Ended;
    EveryCheckpoint();
    EveryEnding();
  }

  /** A verdict taken back after a drained round is overwritten by a resumable checkpoint before the next turn. */
  lemma TurnSaves(s: Sys, t: Turn)
    requires AtBoundary(s)
    ensures Saves(s, TurnStep(s, t), t)
  {
    hide Ended, RoundRun, Prepared, ApprovalRequested, EndingSaved;
    if t.cancelled.Some? {
      EndingSaves(s, Cancelled, t.cancelled, t.now, OnCancellation, t);
    } else if t.reply.Some? {
      match t.reply.value
      case RequestApproval => RequestSaves(s, t);
      case RespondDirectly(answer) => AnswerSaves(s, answer, t);
      case Finalize(answer) => AnswerSaves(s, answer, t);
      case Fail(reason) =>
        var cleared := s.(exec := s.exec.(pendingApprovalId := None));
        EndingSaves(cleared, Failed, Some(reason), t.now, ExecutionFinalized, t);
      case _ => RoundTurnSaves(s, t);
    }
  }

  lemma AnswerSaves(s: Sys, answer: string, t: Turn)
    ensures Saves(s, Concluded(s, answer, t.now), t)
  {
    EndingSaves(s.(exec := s.exec.(finalOutput := Some(answer), pendingApprovalId := None)), Succeeded, None, t.now,
                ExecutionFinalized, t);
  }

  lemma {:induction false} RunFromSaves(s: Sys, turns: seq<Turn>, taken: nat, now: int)
    requires taken <= |turns| && AtBoundary(s)
    ensures var r := RunFrom(s, turns, taken, now);
            && s.written <= r.sys.written
            && r.turns <= |turns|
            && (r.raised.None? ==>
                  EndingSaved(r.sys) || (r.turns > 0 && ExecutorReached(turns[r.turns - 1], r.sys.exec.status)))
    decreases |turns| - taken
  {
    hide TurnStep, ExecutorReached, Ended;
    EveryEnding();
    if taken < |turns| {
      TurnSafe(s, turns[taken]);
      TurnSaves(s, turns[taken]);
      var o := TurnStep(s, turns[taken]);
      if o.Next? {
        RunFromSaves(o.sys, turns, taken + 1, now);
      }
    }
  }

  // ---------------------------------------------------------------- what each ending records

  /** The turn ends the run with this execution, saved with it unless its write is lost. */
  ghost predicate EndsAs(s: Sys, o: TurnOutcome, exec: Exec, why: CheckpointReason) {
    && o.sys.exec == exec && o.sys.graph == s.graph && !o.Next?
    && (o.Returned? <==> NextFate(s) == Works) && (o.Raised? ==> o.error == CheckpointRaised)
    && o.sys.written == s.written + (if NextFate(s) == RaisesBefore then [] else [Saved(why, exec, s.graph)])
  }

  lemma EndedRecords(s: Sys, target: Status, reason: Option<string>, now: int, why: CheckpointReason)
    requires CanTransition(s.exec.status, target) && IsTerminal(target)
    ensures EndsAs(s, Ended(s, target, reason, now, why),
                   s.exec.(status := target, completedAt := Some(now),
                           failureReason := if reason in {None, Some("")} then s.exec.failureReason else reason), why)
  {
  }

  /**
   What the four deliberate endings leave: status, time, reason or answer, and the pending approval; every other field
   as it was.
   */
  lemma DeliberateEnding(s: Sys, t: Turn)
    requires AtBoundary(s)
    ensures t.cancelled.Some? ==>
              EndsAs(s, TurnStep(s, t),
                     s.exec.(status := Cancelled, completedAt := Some(t.now),
                             failureReason := if t.cancelled == Some("") then s.exec.failureReason else t.cancelled),
                     OnCancellation)
    ensures forall answer :: Answered(t, answer) ==>
              EndsAs(s, TurnStep(s, t),
                     s.exec.(status := Succeeded, completedAt := Some(t.now), finalOutput := Some(answer),
                             pendingApprovalId := None), ExecutionFinalized)
    ensures forall reason :: t.cancelled == None && t.reply == Some(Fail(reason)) && reason != "" ==>
              EndsAs(s, TurnStep(s, t),
                     s.exec.(status := Failed, completedAt := Some(t.now), failureReason := Some(reason),
                             pendingApprovalId := None), ExecutionFinalized)
    ensures forall reason :: t.cancelled == None && t.reply == Some(RequestApproval) && t.gate == Rejected(reason)
                             && reason != "" ==>
              EndsAs(s, TurnStep(s, t),
                     s.exec.(status := Failed, completedAt := Some(t.now), failureReason := Some(reason)),
                     ExecutionFinalized)
  {
    hide Ended, Checkpointed;
    if t.cancelled.Some? {
      EndedRecords(s, Cancelled, t.cancelled, t.now, OnCancellation);
    } else {
      match t.reply
      case Some(RespondDirectly(answer)) =>
        EndedRecords(s.(exec := s.exec.(finalOutput := Some(answer), pendingApprovalId := None)), Succeeded, None,
                     t.now, ExecutionFinalized);
      case Some(Finalize(answer)) =>
        EndedRecords(s.(exec := s.exec.(finalOutput := Some(answer), pendingApprovalId := None)), Succeeded, None,
                     t.now, ExecutionFinalized);
      case Some(Fail(reason)) =>
        EndedRecords(s.(exec := s.exec.(pendingApprovalId := None)), Failed, Some(reason), t.now, ExecutionFinalized);
      case Some(RequestApproval) =>
        if t.gate.Rejected? {
          EndedRecords(s, Failed, Some(t.gate.message), t.now, ExecutionFinalized);
        }
      case _ =>
    }
  }

  /** Out of turns, a run fails with the limit in its reason and no approval pending. */
  lemma LimitEnding(s: Sys, turns: seq<Turn>, now: int)
    requires AtBoundary(s)
    ensures var r := RunFrom(s, turns, |turns|, now);
            && r.turns == |turns|
            && r.sys.exec == s.exec.(
                 status := Failed, completedAt := Some(now), pendingApprovalId := None,
                 failureReason := Some("exceeded the maximum of " + Decimal(|turns|) + " supervisor turns"))
            && r.sys.written ==
               s.written + (if NextFate(s) == RaisesBefore then []
                            else [Saved(ExecutionFinalized, r.sys.exec, s.graph)])
  {
    hide Ended;
    EndedRecords(s.(exec := s.exec.(pendingApprovalId := None)), Failed, Some(LimitReason(|turns|)), now,
                 ExecutionFinalized);
  }

  /** Asking for approval: granted, the run goes on with nothing pending; undecided, it pauses, the request noted. */
  lemma ApprovalTurn(s: Sys, t: Turn)
    requires AtBoundary(s) && t.cancelled == None && t.reply == Some(RequestApproval)
    ensures t.gate == Granted ==> TurnStep(s, t) == Next(s.(exec := s.exec.(pendingApprovalId := None)))
    ensures t.gate == GateRaised ==> TurnStep(s, t) == Raised(s, ApprovalsRaised)
    ensures t.gate.Undecided? ==>
              var o, noted := TurnStep(s, t), NotedApproval(s.exec, t.gate.approvalId);
              && o.sys.exec.approvals == noted.approvals && o.sys.exec.pendingApprovalId == Some(t.gate.approvalId)
              && (s.fates == [] ==>
                    && o.Returned? && o.sys.exec == noted.(status := WaitingForApproval)
                    && o.sys.written ==
                       s.written + [Saved(BeforeApproval, noted, s.graph), Saved(BeforeApproval, o.sys.exec, s.graph)])
  {
  }

  /** The request is listed once, however often it is asked. */
  ghost function NotedApproval(e: Exec, id: string): (noted: Exec)
    ensures id in noted.approvals && e.approvals <= noted.approvals
    ensures forall x :: x in noted.approvals ==> x in e.approvals || x == id
    ensures NoDup(e.approvals) ==> NoDup(noted.approvals)
  {
    e.(pendingApprovalId := Some(id),
       approvals := if id in e.approvals then e.approvals else e.approvals + [id])
  }

  /** Entry starts a pending execution with one row, resumes a paused one without any, and leaves every other alone. */
  lemma EntryRecorded(s: Sys, now: int)
    ensures var o := Entered(s, now);
            var started := s.exec.(status := Running,
                                   startedAt := if s.exec.startedAt.Some? then s.exec.startedAt else Some(now));
            match s.exec.status
            case Pending =>
              && o.sys.exec == started && o.sys.graph == s.graph && (o.Next? <==> NextFate(s) == Works)
              && o.sys.written == s.written + (if NextFate(s) == RaisesBefore then []
                                               else [Saved(ExecutionStarted, started, s.graph)])
            case WaitingForApproval => o == Next(s.(exec := started))
            case _ => o == Next(s)
  {
  }

  /** The reason that stands after some moves: the last one given that is not empty, else the one before. */
  function LastReason(before: Option<string>, moves: seq<Move>): Option<string> {
    if moves == [] then before
    else if moves[|moves| - 1].reason in {None, Some("")} then LastReason(before, moves[..|moves| - 1])
    else moves[|moves| - 1].reason
  }

  lemma {:induction false} LastReasonFirst(before: Option<string>, moves: seq<Move>)
    requires moves != []
    ensures LastReason(before, moves)
         == LastReason(if moves[0].reason in {None, Some("")} then before else moves[0].reason, moves[1..])
  {
    if |moves| > 1 {
      LastReasonFirst(before, moves[..|moves| - 1]);
      assert moves[..|moves| - 1][1..] == moves[1..][..|moves| - 2];
    }
  }

  lemma {:induction false} MovesKeepReason(exec: Exec, moves: seq<Move>)
    requires AfterMoves(exec, moves).Ok?
    ensures AfterMoves(exec, moves).value.failureReason == LastReason(exec.failureReason, moves)
    decreases |moves|
  {
    if moves != [] {
      LastReasonFirst(exec.failureReason, moves);
      MovesKeepReason(Moved(exec, moves[0].target, moves[0].reason, moves[0].now).value, moves[1..]);
    }
  }

  /**
   A round that does not raise leaves what the executor wrote into the state, with its last reason for failing, or with
   none if its verdict was taken back.
   */
  lemma RoundLeavesEffects(s: Sys, run: ExecutorRun)
    requires !RoundRun(s, run).Raised?
    ensures var o := RoundRun(s, run);
            var e := o.sys.exec;
            && e.finalOutput == run.finalOutput && e.pendingApprovalId == run.pendingApprovalId
            && e.approvals == run.approvals && e.nodeStatus == run.nodeStatus && e.retries == run.retries
            && e.usageRetries == run.usageRetries
            && e.failureReason in {None, LastReason(s.exec.failureReason, run.moves)}
            && (run.moves == [] || run.moves[|run.moves| - 1].target !in {Succeeded, Failed} ==>
                  s.exec.status !in {Succeeded, Failed} ==>
                    e.failureReason == LastReason(s.exec.failureReason, run.moves))
  {
    MovesKeepReason(s.exec, run.moves);
    MovesEndAt(s.exec, run.moves);
    hide AfterMoves, LastReason;
  }

  /**
   How the loop reads the status the executor leaves: a pause, a cancellation, a spent budget or a timeout ends the
   run, a finished or failed round does not, and neither does one that is still running.
   */
  lemma RoundVerdict(s: Sys, run: ExecutorRun)
    requires AtBoundary(s) && AfterMoves(s.exec, run.moves).Ok? && !run.raises
    ensures var o, left := RoundRun(s, run), if run.moves == [] then Running else run.moves[|run.moves| - 1].target;
            && (left in {WaitingForApproval, Cancelled, BudgetExceeded, TimedOut} ==>
                  o.Returned? && o.sys.exec.status == left && o.sys.written == s.written + run.saved)
            && (left in {Succeeded, Failed} ==>
                  && o.sys.exec.status == Running && !o.Returned? && (o.Next? <==> NextFate(s) == Works)
                  && (NextFate(s) != RaisesBefore ==>
                        o.sys.written == s.written + run.saved + [Saved(RoundCompleted, o.sys.exec, s.graph)]))
            && (left == Running ==> o.Next? && o.sys.exec.status == Running && o.sys.written == s.written + run.saved)
  {
    MovesEndAt(s.exec, run.moves);
    NoMoveEntersPending(s.exec, run.moves);
    hide AfterMoves;
  }

  lemma {:induction false} MovesEndAt(exec: Exec, moves: seq<Move>)
    requires AfterMoves(exec, moves).Ok?
    ensures AfterMoves(exec, moves).value.status == if moves == [] then exec.status else moves[|moves| - 1].target
    decreases |moves|
  {
    if moves != [] {
      MovesEndAt(Moved(exec, moves[0].target, moves[0].reason, moves[0].now).value, moves[1..]);
    }
  }

  // ---------------------------------------------------------------- the graph a run leaves

  /** The turn's decision was validated and is not a replan. */
  ghost predicate NoReplan(t: Turn) {
    t.reply.Some? ==> !t.reply.value.Replan? && ValidDecision(t.reply.value)
  }

  /** A compiled replan puts its plan in the graph's place, an accepted delegation grows it, nothing else touches it. */
  lemma TurnGraph(s: Sys, t: Turn)
    ensures var graph := TurnStep(s, t).sys.graph;
            if t.cancelled == None && t.reply == Some(Replan) && t.plan.Some? then graph == t.plan.value
            else if t.cancelled == None && t.reply.Some? && t.reply.value.Delegate?
                    && Compiled(s.graph, t.reply.value.targets).Ok?
            then graph == Compiled(s.graph, t.reply.value.targets).value
            else graph == s.graph
  {
    hide Checkpointed, Ended, Compiled, RoundRun, Prepared;
    EveryCheckpoint();
    EveryEnding();
    if t.cancelled == None && t.reply.Some? && RunsRound(t.reply.value) {
      PreparedGraph(s, t.reply.value, t.plan);
      RoundKeeps(Prepared(s, t.reply.value, t.plan).sys, t.executor);
    }
  }

  lemma PreparedGraph(s: Sys, d: Decision, plan: Option<Workflow>)
    requires RunsRound(d)
    ensures !Prepared(s, d, plan).Returned?
    ensures var graph := Prepared(s, d, plan).sys.graph;
            match d
            case Replan => graph == if plan.Some? then plan.value else s.graph
            case Delegate(targets) =>
              graph == if Compiled(s.graph, targets).Ok? then Compiled(s.graph, targets).value else s.graph
            case _ => graph == s.graph
  {
    hide Checkpointed, Compiled;
    EveryCheckpoint();
  }

  // ---------------------------------------------------------------- what a round starts from

  /**
   A replan replaces the graph by the plan compiled, and saves that graph before anything else unless the write is
   lost. A plan that does not compile leaves graph and rows as they were.
   */
  lemma ReplanTurn(s: Sys, t: Turn)
    requires t.cancelled == None && t.reply == Some(Replan)
    ensures t.plan == None ==> TurnStep(s, t) == Raised(s, PlanRaised)
    ensures t.plan.Some? ==>
              var o := TurnStep(s, t);
              && o.sys.graph == t.plan.value
              && o.sys.exec.replanCount == s.exec.replanCount + 1
              && (NextFate(s) == RaisesBefore ==>
                    o.Raised? && o.error == CheckpointRaised && o.sys.written == s.written)
              && (NextFate(s) != RaisesBefore ==>
                    s.written + [Saved(AfterReplan, s.exec.(replanCount := s.exec.replanCount + 1), t.plan.value)]
                    <= o.sys.written)
  {
    hide RoundRun, Prepared;
    PreparedReplan(s, t.plan);
    if Prepared(s, Replan, t.plan).Next? {
      RoundKeeps(Prepared(s, Replan, t.plan).sys, t.executor);
    }
  }

  lemma PreparedReplan(s: Sys, plan: Option<Workflow>)
    ensures var o := Prepared(s, Replan, plan);
            && !o.Returned?
            && (plan == None ==> o == Raised(s, PlanRaised))
            && (plan.Some? ==>
                  && o.sys.graph == plan.value && o.sys.exec == s.exec.(replanCount := s.exec.replanCount + 1)
                  && (o.Next? <==> NextFate(s) == Works) && (o.Raised? ==> o.error == CheckpointRaised)
                  && o.sys.written ==
                     if NextFate(s) == RaisesBefore then s.written
                     else s.written + [Saved(AfterReplan, o.sys.exec, plan.value)])
  {
  }

  /** A round leaves the graph, the replan count and the rows before it alone. */
  lemma RoundKeeps(s: Sys, run: ExecutorRun)
    ensures var o := RoundRun(s, run);
            && o.sys.graph == s.graph && o.sys.exec.replanCount == s.exec.replanCount
            && s.written + run.saved <= o.sys.written
  {
    MovesKeepReplans(s.exec, run.moves);
    hide AfterMoves;
  }

  lemma {:induction false} MovesKeepReplans(exec: Exec, moves: seq<Move>)
    ensures (match AfterMoves(exec, moves) case Ok(e) => e case Err(e) => e).replanCount == exec.replanCount
    decreases |moves|
  {
    if moves != [] && Moved(exec, moves[0].target, moves[0].reason, moves[0].now).Ok? {
      MovesKeepReplans(Moved(exec, moves[0].target, moves[0].reason, moves[0].now).value, moves[1..]);
    }
  }

  /** A retry hands the executor the same graph with one node pending again, tried once more than before. */
  lemma RetryTurn(s: Sys, t: Turn, nodeId: string) returns (ready: Exec)
    requires t.cancelled == None && t.reply == Some(RetryNode(nodeId))
    ensures TurnStep(s, t) == RoundRun(s.(exec := ready), t.executor)
    ensures ready.nodeStatus.Keys == s.exec.nodeStatus.Keys + {nodeId} && ready.nodeStatus[nodeId] == NodePending
    ensures forall n :: n in s.exec.nodeStatus && n != nodeId ==> ready.nodeStatus[n] == s.exec.nodeStatus[n]
    ensures forall n :: RetryCount(ready, n) == RetryCount(s.exec, n) + if n == nodeId then 1 else 0
    ensures ready == s.exec.(nodeStatus := ready.nodeStatus, retries := ready.retries,
                             usageRetries := s.exec.usageRetries + 2)
  {
    ready := Reopened(s.exec, nodeId);
  }

  /** A refused delegation raises with the graph as it was; an accepted one is run on the grown graph. */
  lemma DelegateTurn(s: Sys, t: Turn, targets: seq<Target>)
    requires t.cancelled == None && t.reply == Some(Delegate(targets))
    ensures TurnStep(s, t) ==
            match Compiled(s.graph, targets)
            case Err(e) => Raised(s, RoundRefused(e))
            case Ok(graph) => RoundRun(s.(graph := graph), t.executor)
  {
  }

  // ---------------------------------------------------------------- the graph over whole runs, replans included

  /** What a turn does to the graph: put a compiled plan in its place, or grow it by an accepted delegation. */
  datatype GraphChange = Planned(graph: Workflow) | Grew(targets: seq<Target>)

  function TurnChanges(s: Sys, t: Turn): seq<GraphChange> {
    if t.cancelled.Some? then []
    else
      match t.reply
      case Some(Replan) => if t.plan.Some? then [Planned(t.plan.value)] else []
      case Some(Delegate(targets)) => if Compiled(s.graph, targets).Ok? then [Grew(targets)] else []
      case _ => []
  }

  function RunChanges(s: Sys, turns: seq<Turn>, taken: nat): seq<GraphChange>
    requires taken <= |turns|
    decreases |turns| - taken
  {
    if taken == |turns| then []
    else
      var o := TurnStep(s, turns[taken]);
      TurnChanges(s, turns[taken]) + if o.Next? then RunChanges(o.sys, turns, taken + 1) else []
  }

  /** The last plan compiled, or the graph the run was entered with. */
  function LastPlan(entry: Workflow, changes: seq<GraphChange>): Workflow {
    if changes == [] then entry
    else if changes[|changes| - 1].Planned? then changes[|changes| - 1].graph
    else LastPlan(entry, changes[..|changes| - 1])
  }

  /** The delegations accepted after that plan. */
  function GrownSince(changes: seq<GraphChange>): seq<seq<Target>> {
    if changes == [] || changes[|changes| - 1].Planned? then []
    else GrownSince(changes[..|changes| - 1]) + [changes[|changes| - 1].targets]
  }

  /** The graph that a history of changes to `entry` leaves. */
  ghost predicate LeftBy(entry: Workflow, changes: seq<GraphChange>, graph: Workflow) {
    GrownBy(LastPlan(entry, changes), GrownSince(changes)) == Ok(graph)
  }

  lemma ChangeLeaves(entry: Workflow, past: seq<GraphChange>, graph: Workflow, c: GraphChange)
    requires LeftBy(entry, past, graph)
    ensures c.Planned? ==> LeftBy(entry, past + [c], c.graph)
    ensures c.Grew? && Compiled(graph, c.targets).Ok? ==>
              LeftBy(entry, past + [c], Compiled(graph, c.targets).value)
  {
    hide Compiled;
    assert (past + [c])[..|past|] == past;
    if c.Grew? {
      var grown := GrownSince(past);
      assert (grown + [c.targets])[..|grown|] == grown;
    }
  }

  lemma TurnLeaves(entry: Workflow, past: seq<GraphChange>, s: Sys, t: Turn)
    requires LeftBy(entry, past, s.graph)
    ensures LeftBy(entry, past + TurnChanges(s, t), TurnStep(s, t).sys.graph)
  {
    hide Compiled, TurnStep, LeftBy;
    TurnGraph(s, t);
    assert past + [] == past;
    if TurnChanges(s, t) != [] {
      ChangeLeaves(entry, past, s.graph, TurnChanges(s, t)[0]);
    }
  }

  lemma {:induction false} RunFromLeaves(entry: Workflow, past: seq<GraphChange>, s: Sys, turns: seq<Turn>,
      taken: nat, now: int)
    requires taken <= |turns| && LeftBy(entry, past, s.graph)
    ensures LeftBy(entry, past + RunChanges(s, turns, taken), RunFrom(s, turns, taken, now).sys.graph)
    decreases |turns| - taken
  {
    hide RunFrom, TurnStep, LeftBy, TurnChanges;
    LoopGraph(s, turns, taken, now);
    if taken == |turns| {
      assert past + [] == past;
    } else {
      var o, added := TurnStep(s, turns[taken]), TurnChanges(s, turns[taken]);
      TurnLeaves(entry, past, s, turns[taken]);
      if o.Next? {
        RunFromLeaves(entry, past + added, o.sys, turns, taken + 1, now);
        ConcatAssoc(past, added, RunChanges(o.sys, turns, taken + 1));
      } else {
        assert added + [] == added;
      }
    }
  }

  /** The changes of a whole run. */
  function GraphHistory(s: Sys, turns: seq<Turn>, now: int): seq<GraphChange> {
    if Entered(s, now).Next? then RunChanges(Entered(s, now).sys, turns, 0) else []
  }

  /**
   However a run ends, it leaves the last plan compiled, or the graph it was entered with if there was none, grown by
   the delegations accepted after it; and every node added since then runs one target of one of those.
   */
  lemma RunLeavesLastPlanGrown(s: Sys, turns: seq<Turn>, now: int)
    ensures var changes, graph := GraphHistory(s, turns, now), Run(s, turns, now).sys.graph;
            && LeftBy(s.graph, changes, graph)
            && GrownByTargets(LastPlan(s.graph, changes), Flatten(GrownSince(changes)), graph)
  {
    hide RunFrom, GrownByTargets, Compiled;
    var changes := GraphHistory(s, turns, now);
    assert LeftBy(s.graph, [], s.graph);
    if Entered(s, now).Next? {
      RunFromLeaves(s.graph, [], Entered(s, now).sys, turns, 0, now);
      assert [] + changes == changes;
    }
    NodesRunTargets(LastPlan(s.graph, changes), GrownSince(changes));
  }

  /** The layer a turn adds: the nodes of its delegation, if that was accepted. */
  function TurnRounds(s: Sys, t: Turn): seq<seq<string>> {
    if t.cancelled == None && t.reply.Some? && t.reply.value.Delegate? && Compiled(s.graph, t.reply.value.targets).Ok?
    then [Ids(NewNodes(s.graph, t.reply.value.targets))] else []
  }

  /** The layers of the delegations a run accepted, in order. */
  function RunRounds(s: Sys, turns: seq<Turn>, taken: nat): seq<seq<string>>
    requires taken <= |turns|
    decreases |turns| - taken
  {
    if taken == |turns| then []
    else
      var o := TurnStep(s, turns[taken]);
      TurnRounds(s, turns[taken]) + if o.Next? then RunRounds(o.sys, turns, taken + 1) else []
  }

  /** A turn that is no replan adds its round to the layers, or leaves them as they were. */
  lemma TurnAddsRound(s: Sys, t: Turn, rounds: seq<seq<string>>)
    requires Layered(s.graph, rounds) && NoReplan(t)
    ensures Layered(TurnStep(s, t).sys.graph, rounds + TurnRounds(s, t))
  {
    hide TurnStep, Layered, Compiled;
    TurnGraph(s, t);
    assert rounds + [] == rounds;
    if TurnRounds(s, t) != [] {
      RoundAddsLayer(s.graph, rounds, t.reply.value.targets);
    }
  }

  ghost predicate NeverReplans(turns: seq<Turn>) {
    forall t :: t in turns ==> NoReplan(t)
  }

  /** A loop that has ended, for whatever reason, has the graph it ended with. */
  lemma LoopGraph(s: Sys, turns: seq<Turn>, taken: nat, now: int)
    requires taken <= |turns|
    ensures taken == |turns| ==> RunFrom(s, turns, taken, now).sys.graph == s.graph
    ensures taken < |turns| ==>
              var o := TurnStep(s, turns[taken]);
              RunFrom(s, turns, taken, now).sys.graph
              == if o.Next? then RunFrom(o.sys, turns, taken + 1, now).sys.graph else o.sys.graph
  {
  }

  /** Without a replan, a run adds to a layered graph exactly the layers of the delegations it accepted, in order. */
  lemma {:induction false} RunKeepsLayers(s: Sys, rounds: seq<seq<string>>, turns: seq<Turn>, taken: nat, now: int)
    requires taken <= |turns| && Layered(s.graph, rounds) && NeverReplans(turns)
    ensures Layered(RunFrom(s, turns, taken, now).sys.graph, rounds + RunRounds(s, turns, taken))
    decreases |turns| - taken
  {
    hide RunFrom, TurnStep, Layered, TurnRounds;
    LoopGraph(s, turns, taken, now);
    if taken == |turns| {
      assert rounds + [] == rounds;
    } else {
      var o, added := TurnStep(s, turns[taken]), TurnRounds(s, turns[taken]);
      assert turns[taken] in turns;
      TurnAddsRound(s, turns[taken], rounds);
      if o.Next? {
        RunKeepsLayers(o.sys, rounds + added, turns, taken + 1, now);
        ConcatAssoc(rounds, added, RunRounds(o.sys, turns, taken + 1));
      } else {
        assert added + [] == added;
      }
    }
  }

  /** The layers a whole run adds. */
  function AcceptedRounds(s: Sys, turns: seq<Turn>, now: int): seq<seq<string>> {
    if Entered(s, now).Next? then RunRounds(Entered(s, now).sys, turns, 0) else []
  }

  lemma RunIsLayered(s: Sys, turns: seq<Turn>, now: int)
    requires s.graph == SEED && NeverReplans(turns)
    ensures Layered(Run(s, turns, now).sys.graph, AcceptedRounds(s, turns, now))
  {
    SeedIsLayered();
    if Entered(s, now).Next? {
      RunKeepsLayers(Entered(s, now).sys, [], turns, 0, now);
      assert [] + AcceptedRounds(s, turns, now) == AcceptedRounds(s, turns, now);
    }
  }

  /**
   A fresh dynamic run that never replans, however it ends, leaves the seed grown by the delegations it accepted, one
   layer each in order, with everything that shape entails.
   */
  lemma RunGraphShape(s: Sys, turns: seq<Turn>, now: int)
    requires s.graph == SEED && NeverReplans(turns)
    ensures var w, rounds := Run(s, turns, now).sys.graph, AcceptedRounds(s, turns, now);
            && ValidWorkflow(w) && Ids(w.nodes) == [FINAL] + Flatten(rounds)
            && Acyclic(w)
            && (forall e :: e in w.edges ==> e.source != FINAL)
            && (forall x :: x in Ids(w.nodes) && x != FINAL ==> WorkflowEdge(x, FINAL) in w.edges)
            && Frontier(w) == LastRound(rounds)
            && (forall i, j, x, y :: 0 <= i < j < |rounds| && x in rounds[i] && y in rounds[j] ==> Descends(w, x, y))
            && ResolvedEntryNodes(w) == (if rounds == [] then [FINAL] else rounds[0])
  {
    hide Run, AcceptedRounds;
    RunIsLayered(s, turns, now);
    LayeredIsValid(Run(s, turns, now).sys.graph, AcceptedRounds(s, turns, now));
    LayeredShape(Run(s, turns, now).sys.graph, AcceptedRounds(s, turns, now));
  }
}
