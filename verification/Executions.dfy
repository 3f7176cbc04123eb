/** Execution status, its transition table, and the mutable execution state that enforces it. */
module Executions {
  import opened Outcomes

  datatype Status =
    | Pending | Running | WaitingForApproval
    | Succeeded | Failed | Cancelled | BudgetExceeded | TimedOut

  datatype NodeStatus =
    | NodePending | NodeReady | NodeRunning | NodeSucceeded | NodeFailed | NodeSkipped | NodeCancelled | NodeWaiting

  predicate IsTerminal(s: Status) {
    s in {Succeeded, Failed, Cancelled, BudgetExceeded, TimedOut}
  }

  function Transitions(source: Status): set<Status> {
    match source
    case Pending => {Running, Cancelled, Failed}
    case Running => {Running, WaitingForApproval, Succeeded, Failed, Cancelled, BudgetExceeded, TimedOut}
    case WaitingForApproval => {Running, Failed, Cancelled, TimedOut}
    case _ => {}
  }

  predicate CanTransition(source: Status, target: Status) {
    target in Transitions(source)
  }

  /** Terminal statuses are exactly those with no way out. */
  lemma TerminalMeansStuck(s: Status)
    ensures IsTerminal(s) <==> forall t :: !CanTransition(s, t)
  {
    assert !IsTerminal(s) ==> CanTransition(s, Failed);
  }

  /** The table read by target: from where each status can be entered. */
  lemma EnteredFrom(s: Status, t: Status)
    ensures CanTransition(s, t) <==>
            match t
            case Pending => false
            case Running => !IsTerminal(s)
            case WaitingForApproval => s == Running
            case Succeeded => s == Running
            case BudgetExceeded => s == Running
            case TimedOut => s == Running || s == WaitingForApproval
            case Failed => !IsTerminal(s)
            case Cancelled => !IsTerminal(s)
  {
  }

  /** The part of an execution's state that the turn loop reads or writes. */
  datatype Exec = Exec(
    status: Status,
    startedAt: Option<int>,
    completedAt: Option<int>,
    failureReason: Option<string>,
    finalOutput: Option<string>,
    pendingApprovalId: Option<string>,
    approvals: seq<string>,
    replanCount: nat,
    nodeStatus: map<string, NodeStatus>,
    retries: map<string, nat>,
    usageRetries: nat)  // the retry counter of the budget usage record shared with the meter

  datatype IllegalMove = IllegalMove(source: Status, target: Status)

  /** `transition_to` on values: refused outside the table; an absent or empty reason leaves the old one standing. */
  function Moved(s: Exec, target: Status, reason: Option<string>, now: int): Result<Exec, IllegalMove> {
    if !CanTransition(s.status, target) then Err(IllegalMove(s.status, target))
    else
      Ok(s.(status := target,
            startedAt := if target == Running && s.startedAt.None? then Some(now) else s.startedAt,
            completedAt := if IsTerminal(target) then Some(now) else s.completedAt,
            failureReason := if reason.Some? && reason.value != "" then reason else s.failureReason))
  }

  /** A completion time is recorded exactly on terminal executions. */
  predicate Consistent(s: Exec) {
    s.completedAt.Some? <==> IsTerminal(s.status)
  }

  /** Every legal move keeps the completion time tied to the status, and no legal move leaves a terminal status. */
  lemma MovedKeepsConsistent(s: Exec, target: Status, reason: Option<string>, now: int)
    requires Consistent(s) && Moved(s, target, reason, now).Ok?
    ensures !IsTerminal(s.status)
    ensures Consistent(Moved(s, target, reason, now).value)
  {
  }

  function RetryCount(s: Exec, nodeId: string): nat {
    if nodeId in s.retries then s.retries[nodeId] else 0
  }

  /**
   Reopening a failed node for a supervisor-ordered retry. The state and the meter each count the retry,
   and both write the one shared usage record, so it grows by two.
   */
  function Reopened(s: Exec, nodeId: string): Exec {
    s.(nodeStatus := s.nodeStatus[nodeId := NodePending],
       retries := s.retries[nodeId := RetryCount(s, nodeId) + 1],
       usageRetries := s.usageRetries + 2)
  }

  class ExecutionState {
    var status: Status
    var startedAt: Option<int>
    var completedAt: Option<int>
    var failureReason: Option<string>
    var finalOutput: Option<string>
    var pendingApprovalId: Option<string>
    var approvals: seq<string>
    var replanCount: nat
    var nodeStatus: map<string, NodeStatus>
    var retries: map<string, nat>
    var usageRetries: nat

    /** A new execution: pending, nothing recorded. */
    constructor ()
      ensures Value() == Exec(Pending, None, None, None, None, None, [], 0, map[], map[], 0)
      ensures Consistent(Value())
    {
      status, startedAt, completedAt := Pending, None, None;
      failureReason, finalOutput, pendingApprovalId := None, None, None;
      approvals, replanCount, nodeStatus, retries, usageRetries := [], 0, map[], map[], 0;
    }

    function Value(): Exec
      reads this
    {
      Exec(status, startedAt, completedAt, failureReason, finalOutput, pendingApprovalId, approvals, replanCount,
           nodeStatus, retries, usageRetries)
    }

    method TransitionTo(target: Status, reason: Option<string>, now: int) returns (refused: Option<IllegalMove>)
      modifies this
      ensures var r := Moved(old(Value()), target, reason, now);
              match r
              case Ok(s) => refused == None && Value() == s
              case Err(e) => refused == Some(e) && Value() == old(Value())
    {
      if !CanTransition(status, target) {
        return Some(IllegalMove(status, target));
      }
      status := target;
      if target == Running && startedAt.None? {
        startedAt := Some(now);
      }
      if IsTerminal(target) {
        completedAt := Some(now);
      }
      if reason.Some? && reason.value != "" {
        failureReason := reason;
      }
      refused := None;
    }

    /** The state's own half of counting a retry. */
    method RecordRetry(nodeId: string)
      modifies this
      ensures Value() == old(Value()).(retries := old(retries)[nodeId := RetryCount(old(Value()), nodeId) + 1],
                                       usageRetries := old(usageRetries) + 1)
    {
      retries := retries[nodeId := (if nodeId in retries then retries[nodeId] else 0) + 1];
      usageRetries := usageRetries + 1;
    }

    method ReopenNode(nodeId: string)
      modifies this
      ensures Value() == Reopened(old(Value()), nodeId)
    {
      nodeStatus := nodeStatus[nodeId := NodePending];
      RecordRetry(nodeId);
      usageRetries := usageRetries + 1;  // the meter's half, on the same usage record
    }
  }
}
