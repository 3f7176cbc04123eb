/** Budget limits, the usage tally, and the meter that reserves and records against them. */
module Budgets {
  import opened Outcomes
  import opened Rounding

  datatype Dimension = CostUsd | Tokens | DurationSeconds | AgentSteps | ToolCalls | RetryCount

  /** Every limit is optional; an absent one means unmetered. */
  datatype Budget = Budget(
    maxCost: Option<real>, maxTokens: Option<int>, maxDuration: Option<real>,
    maxAgentSteps: Option<int>, maxToolCalls: Option<int>, maxRetries: Option<int>)

  datatype Usage = Usage(
    cost: real, inputTokens: int, outputTokens: int, agentSteps: int, toolCalls: int, retries: int, llmCalls: int)

  const FRESH_USAGE := Usage(0.0, 0, 0, 0, 0, 0, 0)

  function AsReal(limit: Option<int>): Option<real> {
    if limit.Some? then Some(limit.value as real) else None
  }

  function LimitFor(b: Budget, d: Dimension): Option<real> {
    match d
    case CostUsd => b.maxCost
    case Tokens => AsReal(b.maxTokens)
    case DurationSeconds => b.maxDuration
    case AgentSteps => AsReal(b.maxAgentSteps)
    case ToolCalls => AsReal(b.maxToolCalls)
    case RetryCount => AsReal(b.maxRetries)
  }

  function ValueFor(u: Usage, d: Dimension, elapsed: real): real {
    match d
    case CostUsd => u.cost
    case Tokens => (u.inputTokens + u.outputTokens) as real
    case DurationSeconds => elapsed
    case AgentSteps => u.agentSteps as real
    case ToolCalls => u.toolCalls as real
    case RetryCount => u.retries as real
  }

  /** One LLM call recorded: token totals exactly, cost to eight decimals. */
  function WithLlm(u: Usage, inputTokens: int, outputTokens: int, cost: real): Usage {
    u.(inputTokens := u.inputTokens + inputTokens, outputTokens := u.outputTokens + outputTokens,
       cost := Round8(u.cost + cost), llmCalls := u.llmCalls + 1)
  }

  // ---------------------------------------------------------------- reservations

  datatype Amounts = Amounts(agentSteps: int, toolCalls: int, tokens: int, cost: real)

  function AmountOf(a: Amounts, d: Dimension): real {
    match d
    case AgentSteps => a.agentSteps as real
    case ToolCalls => a.toolCalls as real
    case Tokens => a.tokens as real
    case CostUsd => a.cost
    case _ => 0.0
  }

  predicate Nonnegative(a: Amounts) {
    a.agentSteps >= 0 && a.toolCalls >= 0 && a.tokens >= 0 && a.cost >= 0.0
  }

  datatype Reservation = Reservation(id: string, size: Amounts)

  /** The meter; `holds` is the dictionary of reservations in insertion order. */
  datatype Meter = Meter(budget: Budget, usage: Usage, holds: seq<Reservation>)

  function Reserved(holds: seq<Reservation>, d: Dimension): real {
    if holds == [] then 0.0 else Reserved(holds[..|holds| - 1], d) + AmountOf(holds[|holds| - 1].size, d)
  }

  function Used(m: Meter, d: Dimension, elapsed: real): real {
    ValueFor(m.usage, d, elapsed) + Reserved(m.holds, d)
  }

  predicate Exceeded(m: Meter, d: Dimension, elapsed: real) {
    var limit := LimitFor(m.budget, d);
    limit.Some? && Used(m, d, elapsed) > limit.value
  }

  const ALL_DIMENSIONS := [CostUsd, Tokens, DurationSeconds, AgentSteps, ToolCalls, RetryCount]
  const RESERVABLE := [AgentSteps, ToolCalls, Tokens, CostUsd]

  predicate Breaches(m: Meter, size: Amounts, d: Dimension) {
    var limit := LimitFor(m.budget, d);
    AmountOf(size, d) > 0.0 && limit.Some? && Used(m, d, 0.0) + AmountOf(size, d) > limit.value
  }

  predicate Holds(holds: seq<Reservation>, id: string) {
    exists i :: 0 <= i < |holds| && holds[i].id == id
  }

  /** Dictionary assignment: an id already held keeps its place, a new one goes last. */
  function Put(holds: seq<Reservation>, r: Reservation): seq<Reservation> {
    if Holds(holds, r.id) then
      seq(|holds|, i requires 0 <= i < |holds| => if holds[i].id == r.id then r else holds[i])
    else holds + [r]
  }

  /** Dictionary removal. */
  function Without(holds: seq<Reservation>, id: string): seq<Reservation> {
    if holds == [] then []
    else Without(holds[..|holds| - 1], id) + (if holds[|holds| - 1].id == id then [] else [holds[|holds| - 1]])
  }

  predicate Refused(m: Meter, size: Amounts) {
    exists d :: d in RESERVABLE && Breaches(m, size, d)
  }

  /** A reservation that fits is held; one that does not leaves the meter as it was. */
  function Reserve(m: Meter, id: string, size: Amounts): Meter {
    if Refused(m, size) then m else m.(holds := Put(m.holds, Reservation(id, size)))
  }

  // ---------------------------------------------------------------- the same, dimension by dimension

  function HeldTokens(holds: seq<Reservation>): int {
    if holds == [] then 0 else HeldTokens(holds[..|holds| - 1]) + holds[|holds| - 1].size.tokens
  }

  function HeldCalls(holds: seq<Reservation>): int {
    if holds == [] then 0 else HeldCalls(holds[..|holds| - 1]) + holds[|holds| - 1].size.toolCalls
  }

  function HeldCost(holds: seq<Reservation>): real {
    if holds == [] then 0.0 else HeldCost(holds[..|holds| - 1]) + holds[|holds| - 1].size.cost
  }

  lemma {:induction false} ReservedIsHeld(holds: seq<Reservation>)
    ensures Reserved(holds, Tokens) == HeldTokens(holds) as real && Reserved(holds, CostUsd) == HeldCost(holds)
    ensures Reserved(holds, ToolCalls) == HeldCalls(holds) as real
    ensures Reserved(holds, AgentSteps) == ReservedSteps(holds) as real
    ensures Reserved(holds, DurationSeconds) == Reserved(holds, RetryCount) == 0.0
  {
    if holds != [] {
      ReservedIsHeld(holds[..|holds| - 1]);
    }
  }

  ghost predicate AtMostInt(x: int, limit: Option<int>) {
    limit.Some? ==> x <= limit.value
  }

  ghost predicate AtMostReal(x: real, limit: Option<real>) {
    limit.Some? ==> x <= limit.value
  }

  /** What is recorded, what is held and what more is asked for, in one dimension, keep to the limit if there is one. */
  ghost predicate Keeps(m: Meter, more: Amounts, d: Dimension, elapsed: real) {
    match d
    case CostUsd => AtMostReal(m.usage.cost + HeldCost(m.holds) + more.cost, m.budget.maxCost)
    case Tokens =>
      AtMostInt(m.usage.inputTokens + m.usage.outputTokens + HeldTokens(m.holds) + more.tokens, m.budget.maxTokens)
    case DurationSeconds => AtMostReal(elapsed, m.budget.maxDuration)
    case AgentSteps => AtMostInt(m.usage.agentSteps + ReservedSteps(m.holds) + more.agentSteps, m.budget.maxAgentSteps)
    case ToolCalls => AtMostInt(m.usage.toolCalls + HeldCalls(m.holds) + more.toolCalls, m.budget.maxToolCalls)
    case RetryCount => AtMostInt(m.usage.retries, m.budget.maxRetries)
  }

  const NOTHING := Amounts(0, 0, 0, 0.0)

  lemma ExceededIff(m: Meter, d: Dimension, elapsed: real)
    ensures Exceeded(m, d, elapsed) <==> !Keeps(m, NOTHING, d, elapsed)
  {
    ReservedIsHeld(m.holds);
  }

  ghost predicate AsksFor(size: Amounts, d: Dimension) {
    || (d == AgentSteps && size.agentSteps > 0) || (d == ToolCalls && size.toolCalls > 0)
    || (d == Tokens && size.tokens > 0) || (d == CostUsd && size.cost > 0.0)
  }

  /** A spend is refused exactly when it asks for something of a dimension that it would carry past its limit. */
  lemma RefusedIff(m: Meter, size: Amounts)
    ensures forall d :: d in RESERVABLE && Breaches(m, size, d) <==> AsksFor(size, d) && !Keeps(m, size, d, 0.0)
    ensures Refused(m, size) <==> exists d :: AsksFor(size, d) && !Keeps(m, size, d, 0.0)
  {
    ReservedIsHeld(m.holds);
    forall d ensures d in RESERVABLE && Breaches(m, size, d) <==> AsksFor(size, d) && !Keeps(m, size, d, 0.0) {
      assert RESERVABLE[0] == AgentSteps && RESERVABLE[1] == ToolCalls && RESERVABLE[2] == Tokens;
      assert RESERVABLE[3] == CostUsd;
    }
  }

  /** A hold put under an id takes the place of the one held under it, if any, and leaves the others as they are. */
  lemma PutReplaces(holds: seq<Reservation>, r: Reservation)
    ensures forall h :: h in Put(holds, r) <==> h == r || (h in holds && h.id != r.id)
    ensures |Put(holds, r)| == |holds| + if Holds(holds, r.id) then 0 else 1
  {
    var after := Put(holds, r);
    if Holds(holds, r.id) {
      forall h | h == r || (h in holds && h.id != r.id) ensures h in after {
        var i :| 0 <= i < |holds| && if h == r then holds[i].id == r.id else holds[i] == h;
        assert after[i] == h;
      }
    }
  }

  // ---------------------------------------------------------------- sizing a fan-out

  function ReservedSteps(holds: seq<Reservation>): int {
    if holds == [] then 0 else ReservedSteps(holds[..|holds| - 1]) + holds[|holds| - 1].size.agentSteps
  }

  function UsedSteps(m: Meter): int {
    m.usage.agentSteps + ReservedSteps(m.holds)
  }

  function Smaller(a: int, b: int): int {
    if a <= b then a else b
  }

  function Larger(a: int, b: int): int {
    if a >= b then a else b
  }

  /** How many branches of the given cost the remaining step allowance permits, at most as many as asked for. */
  function Fit(m: Meter, requested: int, costPerBranch: int): int {
    match m.budget.maxAgentSteps
    case None => requested
    case Some(limit) =>
      var remaining := Larger(0, limit - UsedSteps(m));
      Larger(0, Smaller(requested, remaining / Larger(1, costPerBranch)))
  }

  function Branch(cost: int): Amounts {
    Amounts(cost, 0, 0, 0.0)
  }

  /** How many of the reservations succeed when one branch per id is attempted in turn. */
  function Admitted(m: Meter, ids: seq<string>, cost: int): nat
    decreases |ids|
  {
    if ids == [] then 0
    else
      var next := Reserve(m, ids[0], Branch(cost));
      (if Refused(m, Branch(cost)) then 0 else 1) + Admitted(next, ids[1..], cost)
  }

  /** Ids never held so far, and all different. */
  ghost predicate FreshIds(holds: seq<Reservation>, ids: seq<string>) {
    && (forall i :: 0 <= i < |ids| ==> !Holds(holds, ids[i]))
    && (forall i, j :: 0 <= i < j < |ids| ==> ids[i] != ids[j])
  }

  lemma BranchRefused(m: Meter, cost: int)
    requires cost >= 1
    ensures Refused(m, Branch(cost)) <==>
            m.budget.maxAgentSteps.Some? && UsedSteps(m) + cost > m.budget.maxAgentSteps.value
  {
    ReservedIsHeld(m.holds);
    assert AgentSteps in RESERVABLE;
    assert forall d :: d in RESERVABLE && d != AgentSteps ==> !Breaches(m, Branch(cost), d);
  }

  lemma AdmittedUsesSteps(m: Meter, id: string, cost: int)
    requires !Holds(m.holds, id) && !Refused(m, Branch(cost))
    ensures UsedSteps(Reserve(m, id, Branch(cost))) == UsedSteps(m) + cost
  {
  }

  lemma FreshAfterReserve(m: Meter, ids: seq<string>, size: Amounts)
    requires ids != [] && FreshIds(m.holds, ids)
    ensures FreshIds(Reserve(m, ids[0], size).holds, ids[1..])
  {
  }

  lemma MultiplesGrow(d: int, m: int)
    requires m >= 1
    ensures d >= 1 ==> d * m >= m
    ensures d <= -1 ==> d * m <= -m
  {
  }

  /** One branch more or less: the quotient that bounds a fan-out steps with the allowance. */
  lemma QuotientStep(room: int, cost: int)
    requires 1 <= cost <= room
    ensures room / cost == (room - cost) / cost + 1
  {
    var d := room / cost - (room - cost) / cost - 1;
    assert room == (room / cost) * cost + room % cost;
    assert room - cost == ((room - cost) / cost) * cost + (room - cost) % cost;
    assert d * cost == (room / cost) * cost - ((room - cost) / cost) * cost - cost;
    MultiplesGrow(d, cost);
  }

  lemma QuotientSmall(room: int, cost: int)
    requires 0 <= room < cost
    ensures room / cost == 0
  {
  }

  /** How often `cost` can be taken out of `room`. */
  function Takes(room: int, cost: int): nat
    decreases room
  {
    if cost < 1 || room < cost then 0 else 1 + Takes(room - cost, cost)
  }

  lemma {:induction false} TakesIsQuotient(room: int, cost: int)
    requires room >= 0 && cost >= 1
    ensures Takes(room, cost) == room / cost
    decreases room
  {
    if room < cost {
      QuotientSmall(room, cost);
    } else {
      TakesIsQuotient(room - cost, cost);
      QuotientStep(room, cost);
    }
  }

  /** Reservations succeed one by one until the room is used up, and fail from then on. */
  lemma {:induction false} AdmittedCounts(m: Meter, ids: seq<string>, cost: int)
    requires cost >= 1 && FreshIds(m.holds, ids)
    ensures Admitted(m, ids, cost) ==
            match m.budget.maxAgentSteps
            case None => |ids|
            case Some(limit) => Smaller(|ids|, Takes(Larger(0, limit - UsedSteps(m)), cost))
    decreases |ids|
  {
    if ids != [] {
      BranchRefused(m, cost);
      FreshAfterReserve(m, ids, Branch(cost));
      AdmittedCounts(Reserve(m, ids[0], Branch(cost)), ids[1..], cost);
      if !Refused(m, Branch(cost)) {
        AdmittedUsesSteps(m, ids[0], cost);
      }
    }
  }

  /** The count computed in advance is exactly how many reservations would succeed one after another. */
  lemma FitIsAdmitted(m: Meter, ids: seq<string>, cost: int)
    requires cost >= 1 && FreshIds(m.holds, ids)
    ensures Admitted(m, ids, cost) == Fit(m, |ids|, cost)
  {
    AdmittedCounts(m, ids, cost);
    if m.budget.maxAgentSteps.Some? {
      TakesIsQuotient(Larger(0, m.budget.maxAgentSteps.value - UsedSteps(m)), cost);
    }
  }

  // ---------------------------------------------------------------- the meter as mutable state

  /** The running tally, shared with the execution state it is checkpointed with. */
  class BudgetUsage {
    var cost: real
    var inputTokens: int
    var outputTokens: int
    var agentSteps: int
    var toolCalls: int
    var retries: int
    var llmCalls: int

    constructor ()
      ensures Value() == FRESH_USAGE
    {
      cost, inputTokens, outputTokens := 0.0, 0, 0;
      agentSteps, toolCalls, retries, llmCalls := 0, 0, 0, 0;
    }

    function Value(): Usage
      reads this
    {
      Usage(cost, inputTokens, outputTokens, agentSteps, toolCalls, retries, llmCalls)
    }

    method AddLlmUsage(newInput: int, newOutput: int, newCost: real)
      modifies this
      ensures Value() == WithLlm(old(Value()), newInput, newOutput, newCost)
    {
      inputTokens := inputTokens + newInput;
      outputTokens := outputTokens + newOutput;
      cost := Round8(cost + newCost);
      llmCalls := llmCalls + 1;
    }
  }

  class BudgetMeter {
    const budget: Budget
    const usage: BudgetUsage
    var holds: seq<Reservation>

    constructor (budget: Budget, usage: BudgetUsage)
      ensures this.budget == budget && this.usage == usage && holds == []
    {
      this.budget, this.usage, this.holds := budget, usage, [];
    }

    function Value(): Meter
      reads this, usage
    {
      Meter(budget, usage.Value(), holds)
    }

    /** The first exceeded dimension, or nothing when work may proceed. */
    method Check(elapsed: real) returns (first: Option<Dimension>)
      ensures first.None? <==> forall d :: Keeps(Value(), NOTHING, d, elapsed)
      ensures first.Some? ==>
                exists i :: 0 <= i < |ALL_DIMENSIONS| && first.value == ALL_DIMENSIONS[i]
                  && !Keeps(Value(), NOTHING, ALL_DIMENSIONS[i], elapsed)
                  && forall j :: 0 <= j < i ==> Keeps(Value(), NOTHING, ALL_DIMENSIONS[j], elapsed)
    {
      forall d ensures Exceeded(Value(), d, elapsed) <==> !Keeps(Value(), NOTHING, d, elapsed) {
        ExceededIff(Value(), d, elapsed);
      }
      hide Keeps, Exceeded;
      for i := 0 to |ALL_DIMENSIONS|
        invariant forall j :: 0 <= j < i ==> !Exceeded(Value(), ALL_DIMENSIONS[j], elapsed)
      {
        if Exceeded(Value(), ALL_DIMENSIONS[i], elapsed) {
          return Some(ALL_DIMENSIONS[i]);
        }
      }
      forall d ensures !Exceeded(Value(), d, elapsed) {
        assert ALL_DIMENSIONS == [CostUsd, Tokens, DurationSeconds, AgentSteps, ToolCalls, RetryCount];
        var i := match d case CostUsd => 0 case Tokens => 1 case DurationSeconds => 2
                         case AgentSteps => 3 case ToolCalls => 4 case RetryCount => 5;
        assert ALL_DIMENSIONS[i] == d;
      }
      first := None;
    }

    /** The first reservable dimension the spend would breach. */
    method WouldExceed(size: Amounts) returns (breach: Option<Dimension>)
      ensures breach.Some? <==> Refused(Value(), size)
      ensures breach.None? <==> forall d :: AsksFor(size, d) ==> Keeps(Value(), size, d, 0.0)
      ensures breach.Some? ==> AsksFor(size, breach.value) && !Keeps(Value(), size, breach.value, 0.0)
    {
      RefusedIff(Value(), size);
      hide Keeps, AsksFor, Breaches;
      for i := 0 to |RESERVABLE|
        invariant forall j :: 0 <= j < i ==> !Breaches(Value(), size, RESERVABLE[j])
      {
        if Breaches(Value(), size, RESERVABLE[i]) {
          return Some(RESERVABLE[i]);
        }
      }
      breach := None;
    }

    method TryReserve(id: string, size: Amounts) returns (breach: Option<Dimension>)
      modifies this
      ensures Value() == Reserve(old(Value()), id, size)
      ensures breach.Some? <==> Refused(old(Value()), size)
      ensures breach.None? <==> forall d :: AsksFor(size, d) ==> Keeps(old(Value()), size, d, 0.0)
    {
      breach := WouldExceed(size);
      if breach.None? {
        holds := Put(holds, Reservation(id, size));
      }
    }

    /** Commit and release both just drop the hold; real usage is recorded as it happens. */
    method Drop(id: string)
      modifies this
      ensures Value() == old(Value()).(holds := Without(old(holds), id))
    {
      holds := Without(holds, id);
    }

    method FitParallelBranches(requested: int, costPerBranch: int) returns (n: int)
      ensures n == Fit(Value(), requested, costPerBranch)
    {
      if budget.maxAgentSteps.None? {
        return requested;
      }
      var remaining := Larger(0, budget.maxAgentSteps.value - UsedSteps(Value()));
      n := Larger(0, Smaller(requested, remaining / Larger(1, costPerBranch)));
    }

    method RecordAgentStep(count: int)
      modifies usage
      ensures usage.Value() == old(usage.Value()).(agentSteps := old(usage.agentSteps) + count)
    {
      usage.agentSteps := usage.agentSteps + count;
    }

    method RecordToolCall(count: int)
      modifies usage
      ensures usage.Value() == old(usage.Value()).(toolCalls := old(usage.toolCalls) + count)
    {
      usage.toolCalls := usage.toolCalls + count;
    }

    method RecordLlmUsage(newInput: int, newOutput: int, newCost: real)
      modifies usage
      ensures usage.Value() == WithLlm(old(usage.Value()), newInput, newOutput, newCost)
    {
      usage.AddLlmUsage(newInput, newOutput, newCost);
    }

    method RecordRetry(count: int)
      modifies usage
      ensures usage.Value() == old(usage.Value()).(retries := old(usage.retries) + count)
    {
      usage.retries := usage.retries + count;
    }
  }
}
