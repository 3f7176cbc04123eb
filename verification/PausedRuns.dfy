/**
 Runs that pause for an approval and are resumed: how many turns they take in total, and what a rejection leaves in
 the state.
 */
module PausedRuns {
  import opened Outcomes
  import opened Executions
  import opened TurnLoop

  /** A turn whose decision asks for an approval, with the answer its gate gives. */
  function AskTurn(gate: GateAnswer, now: int): Turn {
    Turn(None, Some(RequestApproval), gate, None, NO_EXECUTOR, now)
  }

  /** Runs one after another, each on what the one before left; a run that is over ends the list. */
  function TotalTurns(s: Sys, runs: seq<seq<Turn>>, now: int): nat
    decreases |runs|
  {
    if runs == [] || IsTerminal(s.exec.status) then 0
    else
      var r := Run(s, runs[0], now);
      r.turns + TotalTurns(r.sys, runs[1..], now)
  }

  lemma OneRun(s: Sys, turns: seq<Turn>, now: int)
    requires Consistent(s.exec) && !IsTerminal(s.exec.status)
    ensures Run(s, turns, now).turns <= |turns| && Consistent(Run(s, turns, now).sys.exec)
  {
    RunSound(s, turns, now);
  }

  lemma OneMore(n: nat, limit: nat)
    ensures (n + 1) * limit == n * limit + limit
  {
  }

  function Limits(runs: seq<seq<Turn>>): nat {
    if runs == [] then 0 else |runs[0]| + Limits(runs[1..])
  }

  /** Each call keeps to its own limit, so any number of calls keep to the sum of their limits. */
  lemma {:induction false} TotalTurnsBounded(s: Sys, runs: seq<seq<Turn>>, now: int)
    requires Consistent(s.exec)
    ensures TotalTurns(s, runs, now) <= Limits(runs)
    decreases |runs|
  {
    if runs != [] && !IsTerminal(s.exec.status) {
      hide Run, Consistent;
      OneRun(s, runs[0], now);
      TotalTurnsBounded(Run(s, runs[0], now).sys, runs[1..], now);
    }
  }

  /** As many turns as the limit allows: approvals already granted, then one that is still undecided. */
  function Pausing(limit: nat, id: string, now: int): seq<Turn>
    requires limit >= 1
  {
    seq(limit - 1, _ => AskTurn(Granted, now)) + [AskTurn(Undecided(id), now)]
  }

  lemma {:induction false} PausesAtLast(s: Sys, limit: nat, id: string, taken: nat, now: int)
    requires taken < limit && s.exec.status == Running && s.fates == []
    ensures var r := RunFrom(s, Pausing(limit, id, now), taken, now);
            r.turns == limit && r.raised == None && r.sys.exec.status == WaitingForApproval && r.sys.fates == []
    decreases limit - taken
  {
    var turns := Pausing(limit, id, now);
    if taken < limit - 1 {
      assert turns[taken] == AskTurn(Granted, now);
      PausesAtLast(TurnStep(s, turns[taken]).sys, limit, id, taken + 1, now);
    } else {
      assert turns[taken] == AskTurn(Undecided(id), now);
    }
  }

  lemma PausingRun(s: Sys, limit: nat, id: string, now: int)
    requires limit >= 1 && s.exec.status in {Pending, Running, WaitingForApproval} && s.fates == []
    ensures var r := Run(s, Pausing(limit, id, now), now);
            r.turns == limit && r.raised == None && r.sys.exec.status == WaitingForApproval && r.sys.fates == []
  {
    PausesAtLast(Entered(s, now).sys, limit, id, 0, now);
  }

  /** And the sum is reached: paused and resumed `k` times, an execution takes `k` times the limit. */
  lemma {:induction false} TurnLimitIsPerCall(s: Sys, limit: nat, k: nat, id: string, now: int)
    requires limit >= 1 && s.exec.status in {Pending, Running, WaitingForApproval} && s.fates == []
    ensures TotalTurns(s, seq(k, _ => Pausing(limit, id, now)), now) == k * limit
    decreases k
  {
    if k > 0 {
      hide Run;
      var runs := seq(k, _ => Pausing(limit, id, now));
      PausingRun(s, limit, id, now);
      assert runs[1..] == seq(k - 1, _ => Pausing(limit, id, now));
      TurnLimitIsPerCall(Run(s, runs[0], now).sys, limit, k - 1, id, now);
      OneMore(k - 1, limit);
    }
  }

  /**
   Paused on a request, resumed, and rejected on asking again: the execution has failed and still names the request.
   */
  lemma RejectionLeavesPendingApproval(s: Sys, id: string, message: string, now: int)
    requires s.exec.status in {Pending, Running, WaitingForApproval} && s.fates == []
    ensures var paused := Run(s, [AskTurn(Undecided(id), now)], now);
            var over := Run(paused.sys, [AskTurn(GateAnswer.Rejected(message), now)], now);
            && paused.sys.exec.status == WaitingForApproval
            && over.raised == None && over.sys.exec.status == Failed
            && over.sys.exec.pendingApprovalId == Some(id)
  {
    var ask, refusal := AskTurn(Undecided(id), now), AskTurn(GateAnswer.Rejected(message), now);
    var paused := Run(s, [ask], now);
    AskOnce(Entered(s, now).sys, id, now);
    assert Entered(paused.sys, now).Next?;
    assert RunFrom(Entered(paused.sys, now).sys, [refusal], 0, now).sys
        == TurnStep(Entered(paused.sys, now).sys, refusal).sys;
  }

  lemma AskOnce(s: Sys, id: string, now: int)
    requires s.exec.status == Running && s.fates == []
    ensures var r := RunFrom(s, [AskTurn(Undecided(id), now)], 0, now);
            && r.raised == None && r.sys.exec.status == WaitingForApproval
            && r.sys.exec.pendingApprovalId == Some(id) && r.sys.fates == []
  {
  }
}
