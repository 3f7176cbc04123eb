/**
 Structured generation: a repair loop for replies that fail the schema, around a retry loop for calls that fail.
 Extraction and schema validation are one function from reply text to a value or a list of problems.
 */
module StructuredGeneration {
  import opened Outcomes
  import opened Rounding
  import opened Retries
  import opened JsonText

  type Problems = seq<string>

  datatype Ending = Valid(value: Json) | Exhausted(problems: Problems) | Propagated(fault: Fault) | NoAttempts

  /** Everything a run did: the replies received in order, how it ended, the number of the next call, and the pauses. */
  datatype Run = Run(replies: seq<Reply>, ending: Ending, next: nat, waits: seq<Wait>)

  datatype Report = Report(
    attempts: nat, repaired: bool, rawOutputs: seq<string>, errors: Problems,
    inputTokens: nat, outputTokens: nat, cost: real)

  /**
   With `left` attempts to go, from provider call number `k`; `done` and `waits` are the replies and pauses so far.
   */
  function Generated(p: RetryPolicy, env: Environment, judge: string -> Result<Json, Problems>, left: nat, k: nat,
                     done: seq<Reply>, waits: seq<Wait>): Run
  {
    if left == 0 then Run(done, NoAttempts, k, waits)
    else
      var chain := Retried(p, env, k, 1, []);
      var paused := waits + chain.waits;
      match chain.result
      case Faulted(f) => Run(done, Propagated(f), chain.next, paused)
      case Replied(reply) =>
        match judge(reply.content)
        case Ok(v) => Run(done + [reply], Valid(v), chain.next, paused)
        case Err(problems) =>
          if left == 1 then Run(done + [reply], Exhausted(problems), chain.next, paused)
          else Generated(p, env, judge, left - 1, chain.next, done + [reply], paused)
  }

  /** One attempt: what it settles, or what is left to do after it. */
  lemma GeneratedStep(p: RetryPolicy, env: Environment, judge: string -> Result<Json, Problems>, left: nat, k: nat,
                      done: seq<Reply>, waits: seq<Wait>)
    requires left > 0
    ensures var chain := Retried(p, env, k, 1, []);
            var paused := waits + chain.waits;
            Generated(p, env, judge, left, k, done, waits) ==
            match chain.result
            case Faulted(f) => Run(done, Propagated(f), chain.next, paused)
            case Replied(reply) =>
              if judge(reply.content).Ok?
                  then Run(done + [reply], Valid(judge(reply.content).value), chain.next, paused)
              else if left == 1 then Run(done + [reply], Exhausted(judge(reply.content).error), chain.next, paused)
              else Generated(p, env, judge, left - 1, chain.next, done + [reply], paused)
  {
  }

  lemma GeneratedNothing(p: RetryPolicy, env: Environment, judge: string -> Result<Json, Problems>, k: nat,
                         done: seq<Reply>, waits: seq<Wait>)
    ensures Generated(p, env, judge, 0, k, done, waits) == Run(done, NoAttempts, k, waits)
  {
  }

  function Attempts(maxRepairs: int): nat {
    if maxRepairs < 0 then 0 else maxRepairs + 1
  }

  function SumInput(rs: seq<Reply>): nat {
    if rs == [] then 0 else SumInput(rs[..|rs| - 1]) + rs[|rs| - 1].inputTokens
  }

  function SumOutput(rs: seq<Reply>): nat {
    if rs == [] then 0 else SumOutput(rs[..|rs| - 1]) + rs[|rs| - 1].outputTokens
  }

  function SumCost(rs: seq<Reply>): real {
    if rs == [] then 0.0 else SumCost(rs[..|rs| - 1]) + rs[|rs| - 1].cost
  }

  function Contents(rs: seq<Reply>): seq<string> {
    seq(|rs|, i requires 0 <= i < |rs| => rs[i].content)
  }

  function ProblemsOf(rs: seq<Reply>, judge: string -> Result<Json, Problems>): Problems {
    if rs == [] then []
    else
      var verdict := judge(rs[|rs| - 1].content);
      ProblemsOf(rs[..|rs| - 1], judge) + (if verdict.Err? then verdict.error else [])
  }

  /**
   Repairs and retries composed: at most (repairs + 1) * maxAttempts provider calls whatever faults occur; every reply
   but the last failed the schema; and a value is returned only when the last reply is one the schema accepts.
   */
  lemma {:induction false} GeneratedBounds(
    p: RetryPolicy, env: Environment, judge: string -> Result<Json, Problems>, left: nat, k: nat, done: seq<Reply>,
    waits: seq<Wait>)
    requires p.maxAttempts >= 1
    ensures var r := Generated(p, env, judge, left, k, done, waits);
            && k <= r.next <= k + left * p.maxAttempts
            && done <= r.replies && |r.replies| <= |done| + left && |r.replies| <= |done| + r.next - k
            && (forall i :: |done| <= i < |r.replies| - 1 ==> judge(r.replies[i].content).Err?)
            && (r.ending.Valid? ==>
                  |r.replies| > |done| && judge(r.replies[|r.replies| - 1].content) == Ok(r.ending.value))
            && (r.ending.Exhausted? ==>
                  |r.replies| == |done| + left && left > 0
                  && judge(r.replies[|r.replies| - 1].content) == Err(r.ending.problems))
            && (r.ending.NoAttempts? <==> left == 0)
  {
    if left > 0 {
      var chain := Retried(p, env, k, 1, []);
      ChainCalls(p, env, k, 1, []);
      assert left * p.maxAttempts == (left - 1) * p.maxAttempts + p.maxAttempts;
      assert 0 <= (left - 1) * p.maxAttempts;
      if chain.result.Replied? && judge(chain.result.reply.content).Err? && left > 1 {
        GeneratedBounds(p, env, judge, left - 1, chain.next, done + [chain.result.reply], waits + chain.waits);
      }
    }
  }

  /** What ended the run is what the last provider call came back with. */
  lemma {:induction false} GeneratedEnds(
    p: RetryPolicy, env: Environment, judge: string -> Result<Json, Problems>, left: nat, k: nat, done: seq<Reply>,
    waits: seq<Wait>)
    requires p.maxAttempts >= 1 && left > 0
    ensures var r := Generated(p, env, judge, left, k, done, waits);
            && r.next > k
            && match env.Call(r.next - 1)
               case Faulted(f) => r.ending == Propagated(f)
               case Replied(reply) =>
                 !r.ending.Propagated? && r.replies != [] && r.replies[|r.replies| - 1] == reply
  {
    var chain := Retried(p, env, k, 1, []);
    ChainCalls(p, env, k, 1, []);
    if chain.result.Replied? && judge(chain.result.reply.content).Err? && left > 1 {
      GeneratedEnds(p, env, judge, left - 1, chain.next, done + [chain.result.reply], waits + chain.waits);
    }
  }

  /**
   A run that may repair so often makes at most one attempt more than that, and exactly so many when it gives up. When
   it succeeds the report counts the replies, says repaired exactly when the first reply was not accepted, and rounds
   their cost at the eighth decimal.
   */
  lemma RepairsBounded(p: RetryPolicy, env: Environment, judge: string -> Result<Json, Problems>, maxRepairs: int,
                       k: nat)
    requires p.maxAttempts >= 1
    ensures var r := Generated(p, env, judge, Attempts(maxRepairs), k, [], []);
            && (r.ending.NoAttempts? <==> maxRepairs < 0)
            && (maxRepairs >= 0 ==>
                  |r.replies| <= maxRepairs + 1 && k < r.next <= k + (maxRepairs + 1) * p.maxAttempts)
            && (r.ending.Exhausted? ==> |r.replies| == maxRepairs + 1)
            && (r.ending.Valid? ==>
                  var report := ReportOf(r.replies, judge);
                  && report.attempts == |r.replies| == |report.rawOutputs| >= 1
                  && (report.repaired <==> judge(r.replies[0].content).Err?)
                  && OnCostGrid(report.cost)
                  && -0.000000005 <= report.cost - SumCost(r.replies) <= 0.000000005
                  && forall i :: 0 <= i < |r.replies| ==> report.rawOutputs[i] == r.replies[i].content)
  {
    hide Generated, ProblemsOf, SumInput, SumOutput, SumCost, Round8;
    GeneratedBounds(p, env, judge, Attempts(maxRepairs), k, [], []);
    if maxRepairs >= 0 {
      GeneratedEnds(p, env, judge, Attempts(maxRepairs), k, [], []);
      Round8OnGrid(SumCost(Generated(p, env, judge, Attempts(maxRepairs), k, [], []).replies));
    }
  }

  /** What a report adds up over replies: each reply's own problems, tokens and cost, and nothing else. */
  lemma ReportOfOne(r: Reply, judge: string -> Result<Json, Problems>)
    ensures ProblemsOf([r], judge) == if judge(r.content).Err? then judge(r.content).error else []
    ensures SumInput([r]) == r.inputTokens && SumOutput([r]) == r.outputTokens && SumCost([r]) == r.cost
  {
    assert [r][..0] == [];
  }

  lemma {:induction false} ReportAddsUp(a: seq<Reply>, b: seq<Reply>, judge: string -> Result<Json, Problems>)
    ensures ProblemsOf(a + b, judge) == ProblemsOf(a, judge) + ProblemsOf(b, judge)
    ensures SumInput(a + b) == SumInput(a) + SumInput(b) && SumOutput(a + b) == SumOutput(a) + SumOutput(b)
    ensures SumCost(a + b) == SumCost(a) + SumCost(b)
  {
    if b == [] {
      assert a + b == a;
    } else {
      assert (a + b)[..|a + b| - 1] == a + b[..|b| - 1];
      ReportAddsUp(a, b[..|b| - 1], judge);
    }
  }

  /** The longest one retry chain can pause: the ceiling once per retry. */
  function ChainCeiling(p: RetryPolicy): real
    requires p.maxAttempts >= 1
  {
    Times(p.maxAttempts - 1, Round4(p.maxBackoff))
  }

  /** The longest it can pause when no hint is given. */
  function ChainWorstCase(p: RetryPolicy): real {
    TotalWorstCaseDelay(p) + p.maxAttempts as real * 0.00005
  }

  lemma ChainCeilingNonnegative(p: RetryPolicy)
    requires ValidPolicy(p)
    ensures ChainCeiling(p) >= 0.0
  {
    CeilingNonnegative(p);
    TimesNonnegative(p.maxAttempts - 1, Round4(p.maxBackoff));
  }

  /** A whole structured run pauses at most one chain's ceiling per attempt at a valid reply. */
  lemma {:induction false} GeneratedSleeps(
    p: RetryPolicy, env: Environment, judge: string -> Result<Json, Problems>, left: nat, k: nat, done: seq<Reply>,
    waits: seq<Wait>)
    requires ValidPolicy(p) && ValidEnvironment(env) && InRange(waits)
    ensures var r := Generated(p, env, judge, left, k, done, waits);
            InRange(r.waits) && Slept(p, r.waits) <= Slept(p, waits) + Times(left, ChainCeiling(p))
  {
    hide Retried, ChainCeiling, Sleeps;
    if left > 0 {
      var chain := Retried(p, env, k, 1, []);
      ChainPauses(p, env, k);
      ChainCeilingNonnegative(p);
      TimesNonnegative(left - 1, ChainCeiling(p));
      SleepsConcat(p, waits, chain.waits);
      if chain.result.Replied? && judge(chain.result.reply.content).Err? && left > 1 {
        GeneratedSleeps(p, env, judge, left - 1, chain.next, done + [chain.result.reply], waits + chain.waits);
      }
    }
  }

  lemma ChainPauses(p: RetryPolicy, env: Environment, k: nat)
    requires ValidPolicy(p) && ValidEnvironment(env)
    ensures var c := Retried(p, env, k, 1, []); InRange(c.waits) && Slept(p, c.waits) <= ChainCeiling(p)
  {
    ChainDrawsInRange(p, env, k, 1, []);
    ChainSleepsAtMostCeiling(p, env, k, 1, []);
  }

  lemma WorstCaseNonnegative(p: RetryPolicy)
    requires ValidPolicy(p)
    ensures ChainWorstCase(p) >= 0.0
  {
    WindowsNonnegative(p, 1);
    RoundMonotone(0.0, WindowsFrom(p, 1));
    NearestOfWhole(0);
  }

  /** Without hints, at most the published worst case per attempt, up to the rounding of each delay. */
  lemma {:induction false} GeneratedSleepsNoHint(
    p: RetryPolicy, env: Environment, judge: string -> Result<Json, Problems>, left: nat, k: nat, done: seq<Reply>,
    waits: seq<Wait>)
    requires ValidPolicy(p) && ValidEnvironment(env)
    requires forall j: nat :: env.Call(j).Faulted? ==> !Hinted(p, env.Call(j).fault)
    ensures var r := Generated(p, env, judge, left, k, done, waits);
            Slept(p, r.waits) <= Slept(p, waits) + Times(left, ChainWorstCase(p))
  {
    hide Retried, Sleeps, Slept, ChainWorstCase, ValidPolicy, ValidEnvironment;
    if left > 0 {
      var chain := Retried(p, env, k, 1, []);
      ChainFits(p, env, k);
      WorstCaseNonnegative(p);
      TimesNonnegative(left - 1, ChainWorstCase(p));
      SleepsConcat(p, waits, chain.waits);
      if chain.result.Replied? && judge(chain.result.reply.content).Err? && left > 1 {
        GeneratedSleepsNoHint(p, env, judge, left - 1, chain.next, done + [chain.result.reply], waits + chain.waits);
      }
    }
  }

  lemma ChainFits(p: RetryPolicy, env: Environment, k: nat)
    requires ValidPolicy(p) && ValidEnvironment(env)
    requires NoHints(p, env, k, p.maxAttempts)
    ensures Slept(p, Retried(p, env, k, 1, []).waits) <= ChainWorstCase(p)
  {
    hide ValidPolicy, ValidEnvironment, Retried;
    SleepsWithinWorstCase(p, env, k);
  }

  /** The running totals of the loop, as functions of the replies so far. */
  ghost predicate Accumulated(rs: seq<Reply>, judge: string -> Result<Json, Problems>, raw: seq<string>,
                                 errors: Problems, inputTokens: nat, outputTokens: nat, cost: real)
  {
    && raw == Contents(rs) && errors == ProblemsOf(rs, judge)
    && inputTokens == SumInput(rs) && outputTokens == SumOutput(rs) && cost == SumCost(rs)
  }

  lemma AccumulateOne(rs: seq<Reply>, judge: string -> Result<Json, Problems>, raw: seq<string>,
                         errors: Problems, inputTokens: nat, outputTokens: nat, cost: real, r: Reply)
    requires Accumulated(rs, judge, raw, errors, inputTokens, outputTokens, cost)
    ensures Accumulated(rs + [r], judge, raw + [r.content],
                        errors + (if judge(r.content).Err? then judge(r.content).error else []),
                        inputTokens + r.inputTokens, outputTokens + r.outputTokens, cost + r.cost)
  {
  }

  lemma AccumulateNothing(judge: string -> Result<Json, Problems>)
    ensures Accumulated([], judge, [], [], 0, 0, 0.0)
  {
  }

  /** The audit record of a run that produced a value. */
  function ReportOf(rs: seq<Reply>, judge: string -> Result<Json, Problems>): Report {
    Report(|rs|, |rs| > 1, Contents(rs), ProblemsOf(rs, judge), SumInput(rs), SumOutput(rs), Round8(SumCost(rs)))
  }

  lemma ReportAccumulated(rs: seq<Reply>, judge: string -> Result<Json, Problems>, raw: seq<string>,
                          errors: Problems, inputTokens: nat, outputTokens: nat, cost: real)
    requires Accumulated(rs, judge, raw, errors, inputTokens, outputTokens, cost)
    ensures ReportOf(rs, judge) == Report(|rs|, |rs| > 1, raw, errors, inputTokens, outputTokens, Round8(cost))
  {
  }

  /** The structured completion as the client runs it, on a provider that counts its calls. */
  method CompleteStructured(provider: RetryingProvider, judge: string -> Result<Json, Problems>, maxRepairs: int)
    returns (ending: Ending, report: Option<Report>)
    requires ValidPolicy(provider.policy)
    modifies provider
    ensures var run := Generated(provider.policy, provider.env, judge, Attempts(maxRepairs), old(provider.calls),
        [], []);
            && ending == run.ending
            && provider.calls == run.next
            && provider.slept == old(provider.slept) + Sleeps(provider.policy, run.waits)
            && report == if ending.Valid? then Some(ReportOf(run.replies, judge)) else None
  {
    hide Generated, Retried, Sleeps, Accumulated, ReportOf, ValidPolicy, Round8;
    ghost var whole := Generated(provider.policy, provider.env, judge, Attempts(maxRepairs), provider.calls, [], []);
    ghost var replies: seq<Reply> := [];
    ghost var waits: seq<Wait> := [];
    var rawOutputs: seq<string>, allErrors: Problems := [], [];
    var inputTokens: nat, outputTokens: nat, cost := 0, 0, 0.0;
    AccumulateNothing(judge);
    SleepsConcat(provider.policy, [], []);
    var attempt: nat := 0;
    while attempt < Attempts(maxRepairs)
      invariant attempt == |replies|
      invariant attempt > 0 ==> attempt < Attempts(maxRepairs)
      invariant Accumulated(replies, judge, rawOutputs, allErrors, inputTokens, outputTokens, cost)
      invariant Generated(provider.policy, provider.env, judge, Attempts(maxRepairs) - attempt, provider.calls,
          replies, waits)
             == whole
      invariant provider.slept == old(provider.slept) + Sleeps(provider.policy, waits)
    {
      ghost var chain := Retried(provider.policy, provider.env, provider.calls, 1, []);
      GeneratedStep(provider.policy, provider.env, judge, Attempts(maxRepairs) - attempt, provider.calls, replies,
          waits);
      attempt := attempt + 1;
      var result := provider.Complete();
      SleepsConcat(provider.policy, waits, chain.waits);
      waits := waits + chain.waits;
      if result.Faulted? {
        return Propagated(result.fault), None;
      }
      var reply := result.reply;
      AccumulateOne(replies, judge, rawOutputs, allErrors, inputTokens, outputTokens, cost, reply);
      replies := replies + [reply];
      rawOutputs := rawOutputs + [reply.content];
      inputTokens, outputTokens, cost := inputTokens + reply.inputTokens, outputTokens + reply.outputTokens, cost
          + reply.cost;
      var verdict := judge(reply.content);
      if verdict.Ok? {
        assert allErrors + [] == allErrors;
        ReportAccumulated(replies, judge, rawOutputs, allErrors, inputTokens, outputTokens, cost);
        report := Some(Report(attempt, attempt > 1, rawOutputs, allErrors, inputTokens, outputTokens, Round8(cost)));
        return Valid(verdict.value), report;
      }
      allErrors := allErrors + verdict.error;
      if attempt > maxRepairs {
        return Exhausted(verdict.error), None;
      }
    }
    GeneratedNothing(provider.policy, provider.env, judge, provider.calls, replies, waits);
    ending, report := NoAttempts, None;
  }
}
