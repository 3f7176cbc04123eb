/**
 The meter over whole runs: spends charged to open reservations never carry recorded usage past a limit, and usage
 that has gone past a limit stays past it.
 */
module BudgetRuns {
  import opened Outcomes
  import opened Rounding
  import opened Budgets

  datatype Spend = Steps(steps: nat) | Tools(calls: nat) | Llm(inputTokens: nat, outputTokens: nat, cost: real)

  function SpendAmounts(s: Spend): Amounts {
    match s
    case Steps(n) => Amounts(n, 0, 0, 0.0)
    case Tools(n) => Amounts(0, n, 0, 0.0)
    case Llm(i, o, c) => Amounts(0, 0, i + o, c)
  }

  function Recorded(u: Usage, s: Spend): Usage {
    match s
    case Steps(n) => u.(agentSteps := u.agentSteps + n)
    case Tools(n) => u.(toolCalls := u.toolCalls + n)
    case Llm(i, o, c) => WithLlm(u, i, o, c)
  }

  /** An open reservation and what has been charged to it so far. */
  datatype Open = Open(hold: Reservation, charged: Amounts)

  datatype Event =
    | Take(id: string, size: Amounts)
    | Charge(id: string, spend: Spend)
    | Close(id: string)  // commit or release

  datatype System = System(budget: Budget, usage: Usage, open: seq<Open>, llmCharges: nat)

  function HoldsOf(open: seq<Open>): seq<Reservation> {
    seq(|open|, i requires 0 <= i < |open| => open[i].hold)
  }

  function MeterOf(s: System): Meter {
    Meter(s.budget, s.usage, HoldsOf(s.open))
  }

  function Plus(a: Amounts, b: Amounts): Amounts {
    Amounts(a.agentSteps + b.agentSteps, a.toolCalls + b.toolCalls, a.tokens + b.tokens, a.cost + b.cost)
  }

  predicate Within(a: Amounts, b: Amounts) {
    a.agentSteps <= b.agentSteps && a.toolCalls <= b.toolCalls && a.tokens <= b.tokens && a.cost <= b.cost
  }

  function IndexOf(open: seq<Open>, id: string): (i: int)
    ensures -1 <= i < |open|
    ensures i >= 0 ==> open[i].hold.id == id
    ensures i < 0 ==> forall j :: 0 <= j < |open| ==> open[j].hold.id != id
  {
    if open == [] then -1
    else if open[|open| - 1].hold.id == id then |open| - 1
    else IndexOf(open[..|open| - 1], id)
  }

  function Remove(open: seq<Open>, i: nat): seq<Open>
    requires i < |open|
  {
    open[..i] + open[i + 1..]
  }

  function NewHold(id: string, size: Amounts): Open {
    Open(Reservation(id, size), Amounts(0, 0, 0, 0.0))
  }

  /** The discipline: fresh ids, sizes and spends not negative, and a spend charged to an open hold with room for it. */
  function Step(s: System, e: Event): System {
    match e
    case Take(id, size) =>
      if IndexOf(s.open, id) >= 0 || !Nonnegative(size) || Refused(MeterOf(s), size) then s
      else s.(open := s.open + [NewHold(id, size)])
    case Charge(id, spend) =>
      var i := IndexOf(s.open, id);
      if i < 0 || !Nonnegative(SpendAmounts(spend)) then s
      else
        var charged := Plus(s.open[i].charged, SpendAmounts(spend));
        if !Within(charged, s.open[i].hold.size) then s
        else
          s.(usage := Recorded(s.usage, spend), open := s.open[i := s.open[i].(charged := charged)],
             llmCharges := s.llmCharges + (if spend.Llm? then 1 else 0))
    case Close(id) =>
      var i := IndexOf(s.open, id);
      if i < 0 then s else s.(open := Remove(s.open, i))
  }

  function Run(s: System, events: seq<Event>): System {
    if events == [] then s else Step(Run(s, events[..|events| - 1]), events[|events| - 1])
  }

  // ---------------------------------------------------------------- the events are the meter's own operations

  ghost predicate DistinctIds(open: seq<Open>) {
    forall i, j :: 0 <= i < j < |open| ==> open[i].hold.id != open[j].hold.id
  }

  lemma {:induction false} WithoutConcat(a: seq<Reservation>, b: seq<Reservation>, id: string)
    ensures Without(a + b, id) == Without(a, id) + Without(b, id)
  {
    if b == [] {
      assert a + b == a;
    } else {
      var n := |b| - 1;
      assert (a + b)[..|a| + n] == a + b[..n];
      WithoutConcat(a, b[..n], id);
    }
  }

  lemma {:induction false} WithoutAbsent(holds: seq<Reservation>, id: string)
    requires !Holds(holds, id)
    ensures Without(holds, id) == holds
  {
    if holds != [] {
      var before, last := holds[..|holds| - 1], holds[|holds| - 1];
      assert forall i :: 0 <= i < |before| ==> before[i] == holds[i];
      assert last.id != id && !Holds(before, id);
      WithoutAbsent(before, id);
      assert before + [last] == holds;
    }
  }

  lemma WithoutMiddle(before: seq<Reservation>, hold: Reservation, after: seq<Reservation>)
    requires !Holds(before, hold.id) && !Holds(after, hold.id)
    ensures Without(before + ([hold] + after), hold.id) == before + after
  {
    WithoutAbsent(before, hold.id);
    WithoutAbsent(after, hold.id);
    WithoutConcat([hold], after, hold.id);
    WithoutConcat(before, [hold] + after, hold.id);
    assert Without([hold], hold.id) == [] by {
      assert [hold][..0] == [];
    }
    assert [] + after == after;
  }

  lemma HoldsConcat(a: seq<Open>, b: seq<Open>)
    ensures HoldsOf(a + b) == HoldsOf(a) + HoldsOf(b)
  {
  }

  lemma RemovedFromDictionary(open: seq<Open>, i: nat)
    requires DistinctIds(open) && i < |open|
    ensures HoldsOf(Remove(open, i)) == Without(HoldsOf(open), open[i].hold.id)
  {
    var before, o, after := open[..i], open[i], open[i + 1..];
    assert open == before + ([o] + after);
    HoldsConcat([o], after);
    HoldsConcat(before, [o] + after);
    HoldsConcat(before, after);
    assert HoldsOf([o]) == [o.hold];
    assert !Holds(HoldsOf(before), o.hold.id) && !Holds(HoldsOf(after), o.hold.id);
    WithoutMiddle(HoldsOf(before), o.hold, HoldsOf(after));
  }

  /** What callers do with a meter, reservation or none: the engine itself records without reserving. */
  datatype MeterOp =
    | Reserving(id: string, size: Amounts)
    | Recording(spend: Spend)
    | Retrying(count: nat)
    | Dropping(id: string)

  ghost predicate ValidOp(op: MeterOp) {
    match op
    case Reserving(_, size) => Nonnegative(size)
    case Recording(spend) => Nonnegative(SpendAmounts(spend))
    case _ => true
  }

  function Operated(m: Meter, op: MeterOp): Meter {
    match op
    case Reserving(id, size) => Reserve(m, id, size)
    case Recording(spend) => m.(usage := Recorded(m.usage, spend))
    case Retrying(count) => m.(usage := m.usage.(retries := m.usage.retries + count))
    case Dropping(id) => m.(holds := Without(m.holds, id))
  }

  function OpOf(e: Event): MeterOp {
    match e
    case Take(id, size) => Reserving(id, size)
    case Charge(_, spend) => Recording(spend)
    case Close(id) => Dropping(id)
  }

  /** Every event of the run is the meter's own operation, or one the discipline keeps from it. */
  lemma StepIsMeterStep(s: System, e: Event)
    requires DistinctIds(s.open)
    ensures DistinctIds(Step(s, e).open)
    ensures MeterOf(Step(s, e)) == MeterOf(s) || MeterOf(Step(s, e)) == Operated(MeterOf(s), OpOf(e))
    ensures e.Close? ==> MeterOf(Step(s, e)) == Operated(MeterOf(s), OpOf(e))
    ensures e.Take? && Nonnegative(e.size) && IndexOf(s.open, e.id) < 0 ==>
              MeterOf(Step(s, e)) == Operated(MeterOf(s), OpOf(e))
  {
    hide Refused, Without, Within, Plus, Recorded, Nonnegative, SpendAmounts;
    match e
    case Take(id, size) =>
      assert HoldsOf(s.open + [Open(Reservation(id, size), Amounts(0, 0, 0, 0.0))])
          == HoldsOf(s.open) + [Reservation(id, size)];
    case Charge(id, spend) =>
      var i := IndexOf(s.open, id);
      if Step(s, e) != s {
        assert HoldsOf(Step(s, e).open) == HoldsOf(s.open);
      }
    case Close(id) =>
      var i := IndexOf(s.open, id);
      if i >= 0 {
        RemovedFromDictionary(s.open, i);
      } else {
        WithoutAbsent(HoldsOf(s.open), id);
      }
  }

  // ---------------------------------------------------------------- what is still chargeable

  function Room(o: Open, d: Dimension): real {
    AmountOf(o.hold.size, d) - AmountOf(o.charged, d)
  }

  /** What the open reservations may still be charged. */
  function Outstanding(open: seq<Open>, d: Dimension): real {
    if open == [] then 0.0 else Outstanding(open[..|open| - 1], d) + Room(open[|open| - 1], d)
  }

  ghost predicate OpenOk(o: Open) {
    Nonnegative(o.charged) && Within(o.charged, o.hold.size)
  }

  lemma {:induction false} OutstandingConcat(a: seq<Open>, b: seq<Open>, d: Dimension)
    ensures Outstanding(a + b, d) == Outstanding(a, d) + Outstanding(b, d)
  {
    if b == [] {
      assert a + b == a;
    } else {
      var n := |b| - 1;
      assert (a + b)[..|a| + n] == a + b[..n];
      OutstandingConcat(a, b[..n], d);
    }
  }

  lemma OutstandingOne(o: Open, d: Dimension)
    ensures Outstanding([o], d) == Room(o, d)
  {
  }

  lemma OutstandingUpdate(open: seq<Open>, i: nat, o: Open, d: Dimension)
    requires i < |open|
    ensures Outstanding(open[i := o], d) == Outstanding(open, d) - Room(open[i], d) + Room(o, d)
    ensures Outstanding(Remove(open, i), d) == Outstanding(open, d) - Room(open[i], d)
  {
    assert open == open[..i] + ([open[i]] + open[i + 1..]);
    assert open[i := o] == open[..i] + ([o] + open[i + 1..]);
    OutstandingConcat(open[..i], [open[i]] + open[i + 1..], d);
    OutstandingConcat(open[..i], [o] + open[i + 1..], d);
    OutstandingConcat([open[i]], open[i + 1..], d);
    OutstandingConcat([o], open[i + 1..], d);
    OutstandingConcat(open[..i], open[i + 1..], d);
    OutstandingOne(open[i], d);
    OutstandingOne(o, d);
  }

  /** Holds cover at least what may still be charged to them, so checking against holds is the stricter test. */
  lemma {:induction false} HoldsCoverOutstanding(open: seq<Open>, d: Dimension)
    requires forall o :: o in open ==> OpenOk(o)
    ensures 0.0 <= Outstanding(open, d) <= Reserved(HoldsOf(open), d)
  {
    if open != [] {
      var n := |open| - 1;
      assert HoldsOf(open)[..n] == HoldsOf(open[..n]);
      assert open[n] in open;
      HoldsCoverOutstanding(open[..n], d);
    }
  }

  function Max(x: real, y: real): real {
    if x >= y then x else y
  }

  /** How far rounding may have carried the recorded cost: half a unit of the eighth decimal per LLM charge. */
  function Slack(s: System, d: Dimension): real {
    if d == CostUsd then s.llmCharges as real * 0.000000005 else 0.0
  }

  /** Recorded usage plus everything still chargeable fits the limit, or what had been used already. */
  ghost predicate Bounded(s: System, d: Dimension, start: real) {
    var limit := LimitFor(s.budget, d);
    && (forall o :: o in s.open ==> OpenOk(o))
    && (limit.Some? ==> ValueFor(s.usage, d, 0.0) + Outstanding(s.open, d) <= Max(limit.value, start) + Slack(s, d))
  }

  /** A size that is not refused asks for nothing in a dimension or fits beside everything recorded and chargeable. */
  lemma AdmittedFits(s: System, size: Amounts, d: Dimension)
    requires d in RESERVABLE && forall o :: o in s.open ==> OpenOk(o)
    requires Nonnegative(size) && !Refused(MeterOf(s), size)
    ensures LimitFor(s.budget, d).None? || AmountOf(size, d) == 0.0
            || ValueFor(s.usage, d, 0.0) + Outstanding(s.open, d) + AmountOf(size, d) <= LimitFor(s.budget, d).value
  {
    HoldsCoverOutstanding(s.open, d);
    assert !Breaches(MeterOf(s), size, d);
  }

  lemma NewHoldOpens(open: seq<Open>, id: string, size: Amounts, d: Dimension)
    requires (forall o :: o in open ==> OpenOk(o)) && Nonnegative(size)
    ensures forall o :: o in open + [NewHold(id, size)] ==> OpenOk(o)
    ensures Outstanding(open + [NewHold(id, size)], d) == Outstanding(open, d) + Room(NewHold(id, size), d)
  {
    OutstandingConcat(open, [NewHold(id, size)], d);
    OutstandingOne(NewHold(id, size), d);
  }

  /** An accepted reservation adds its whole size to what may be charged, and it fits. */
  lemma TakeFits(s: System, id: string, size: Amounts, d: Dimension)
    requires d in RESERVABLE && forall o :: o in s.open ==> OpenOk(o)
    requires Step(s, Take(id, size)) != s
    ensures var t := Step(s, Take(id, size));
            && t == s.(open := t.open)
            && (forall o :: o in t.open ==> OpenOk(o))
            && Outstanding(t.open, d) == Outstanding(s.open, d) + AmountOf(size, d)
            && (LimitFor(s.budget, d).None? || AmountOf(size, d) == 0.0
                || ValueFor(s.usage, d, 0.0) + Outstanding(t.open, d) <= LimitFor(s.budget, d).value)
  {
    NewHoldOpens(s.open, id, size, d);
    AdmittedFits(s, size, d);
  }

  lemma TakeKeepsBounded(s: System, id: string, size: Amounts, d: Dimension, start: real)
    requires d in RESERVABLE && Bounded(s, d, start)
    ensures Bounded(Step(s, Take(id, size)), d, start)
  {
    hide Step, Outstanding, LimitFor, ValueFor, OpenOk, AmountOf;
    if Step(s, Take(id, size)) != s {
      TakeFits(s, id, size, d);
    }
  }

  lemma ChargeKeepsBounded(s: System, id: string, spend: Spend, d: Dimension, start: real)
    requires d in RESERVABLE && Bounded(s, d, start)
    ensures Bounded(Step(s, Charge(id, spend)), d, start)
  {
    var t := Step(s, Charge(id, spend));
    if t != s {
      var i := IndexOf(s.open, id);
      var o := s.open[i].(charged := Plus(s.open[i].charged, SpendAmounts(spend)));
      assert s.open[i] in s.open;
      assert t.open == s.open[i := o];
      forall x | x in t.open ensures OpenOk(x) {
        assert x == o || x in s.open;
      }
      OutstandingUpdate(s.open, i, o, d);
    }
  }

  lemma RemoveIsPart(open: seq<Open>, i: nat)
    requires i < |open|
    ensures forall o :: o in Remove(open, i) ==> o in open
  {
  }

  lemma CloseKeepsBounded(s: System, id: string, d: Dimension, start: real)
    requires d in RESERVABLE && Bounded(s, d, start)
    ensures Bounded(Step(s, Close(id)), d, start)
  {
    hide Remove, Outstanding, IndexOf, LimitFor, ValueFor;
    var i := IndexOf(s.open, id);
    if i >= 0 {
      assert s.open[i] in s.open;
      RemoveIsPart(s.open, i);
      OutstandingUpdate(s.open, i, s.open[i], d);
      RoomNonnegative(s.open[i], d);
    }
  }

  lemma RoomNonnegative(o: Open, d: Dimension)
    requires OpenOk(o)
    ensures Room(o, d) >= 0.0
  {
  }

  lemma {:induction false} RunKeepsBounded(s: System, events: seq<Event>, d: Dimension, start: real)
    requires d in RESERVABLE && Bounded(s, d, start)
    ensures Bounded(Run(s, events), d, start)
    ensures Run(s, events).budget == s.budget
  {
    if events != [] {
      var n := |events| - 1;
      RunKeepsBounded(s, events[..n], d, start);
      var t := Run(s, events[..n]);
      match events[n]
      case Take(id, size) => TakeKeepsBounded(t, id, size, d, start);
      case Charge(id, spend) => ChargeKeepsBounded(t, id, spend, d, start);
      case Close(id) => CloseKeepsBounded(t, id, d, start);
    }
  }

  function Start(budget: Budget, usage: Usage): System {
    System(budget, usage, [], 0)
  }

  // ---------------------------------------------------------------- cost without slack

  ghost predicate RoundsDownSpends(events: seq<Event>) {
    forall e :: e in events && e.Charge? && e.spend.Llm? ==> RoundsDown(e.spend.cost)
  }

  ghost predicate CostBounded(s: System, start: real) {
    && (forall o :: o in s.open ==> OpenOk(o))
    && OnCostGrid(s.usage.cost)
    && (s.budget.maxCost.Some? ==>
          s.usage.cost + Outstanding(s.open, CostUsd) <= Max(s.budget.maxCost.value, start))
  }

  lemma StepKeepsCostBounded(s: System, e: Event, start: real)
    requires CostBounded(s, start)
    requires e.Charge? && e.spend.Llm? ==> RoundsDown(e.spend.cost)
    ensures CostBounded(Step(s, e), start)
  {
    var t := Step(s, e);
    if t != s {
      match e
      case Take(id, size) =>
        TakeFits(s, id, size, CostUsd);
      case Charge(id, spend) => ChargeKeepsCostBounded(s, id, spend, start);
      case Close(id) =>
        var i := IndexOf(s.open, id);
        assert s.open[i] in s.open;
        OutstandingUpdate(s.open, i, s.open[i], CostUsd);
    }
  }

  lemma ChargeKeepsCostBounded(s: System, id: string, spend: Spend, start: real)
    requires CostBounded(s, start) && (spend.Llm? ==> RoundsDown(spend.cost))
    ensures CostBounded(Step(s, Charge(id, spend)), start)
  {
    var t := Step(s, Charge(id, spend));
    if t != s {
      var i := IndexOf(s.open, id);
      var o := s.open[i].(charged := Plus(s.open[i].charged, SpendAmounts(spend)));
      assert s.open[i] in s.open && t.open == s.open[i := o];
      OutstandingUpdate(s.open, i, o, CostUsd);
      if spend.Llm? {
        RoundsDownNeverGains(s.usage.cost, spend.cost);
        Round8OnGrid(s.usage.cost + spend.cost);
      }
    }
  }

  lemma {:induction false} RunKeepsCostBounded(s: System, events: seq<Event>, start: real)
    requires CostBounded(s, start) && RoundsDownSpends(events)
    ensures CostBounded(Run(s, events), start) && Run(s, events).budget == s.budget
  {
    if events != [] {
      var n := |events| - 1;
      RunKeepsCostBounded(s, events[..n], start);
      assert events[n] in events;
      StepKeepsCostBounded(Run(s, events[..n]), events[n], start);
    }
  }

  /** The recorded cost after a run is within the limit, or where it was before. */
  ghost predicate CostWithin(budget: Budget, usage: Usage, events: seq<Event>) {
    budget.maxCost.Some? ==> Run(Start(budget, usage), events).usage.cost <= Max(budget.maxCost.value, usage.cost)
  }

  /** When no charge rounds up, the cost limit holds without any slack. */
  lemma RecordedCostStaysWithinLimit(budget: Budget, usage: Usage, events: seq<Event>)
    requires OnCostGrid(usage.cost) && RoundsDownSpends(events)
    ensures CostWithin(budget, usage, events)
  {
    RunKeepsCostBounded(Start(budget, usage), events, usage.cost);
    HoldsCoverOutstanding(Run(Start(budget, usage), events).open, CostUsd);
  }

  ghost predicate OnGridSpends(events: seq<Event>) {
    forall e :: e in events && e.Charge? && e.spend.Llm? ==> OnCostGrid(e.spend.cost)
  }

  /**
   Over every interleaving of disciplined reservations, charges, commits and releases, recorded usage stays within the
   limit (or where it already was) in each reservable dimension. For costs already rounded to eight decimals, as every
   part of the engine passes them, that holds of cost too; any other cost may add the rounding of its charge.
   */
  lemma RecordedUsageStaysWithinLimit(budget: Budget, usage: Usage, events: seq<Event>, d: Dimension)
    requires d in RESERVABLE && LimitFor(budget, d).Some?
    ensures var s := Run(Start(budget, usage), events);
            var bound := Max(LimitFor(budget, d).value, ValueFor(usage, d, 0.0));
            && (d != CostUsd ==> ValueFor(s.usage, d, 0.0) <= bound)
            && (OnCostGrid(usage.cost) && OnGridSpends(events) ==> ValueFor(s.usage, d, 0.0) <= bound)
            && ValueFor(s.usage, d, 0.0) <= bound + Slack(s, d)
  {
    var s := Run(Start(budget, usage), events);
    RunKeepsBounded(Start(budget, usage), events, d, ValueFor(usage, d, 0.0));
    HoldsCoverOutstanding(s.open, d);
    if OnCostGrid(usage.cost) && OnGridSpends(events) {
      forall e | e in events && e.Charge? && e.spend.Llm? ensures RoundsDown(e.spend.cost) {
        GridRoundsDown(e.spend.cost);
      }
      RecordedCostStaysWithinLimit(budget, usage, events);
    }
  }

  ghost predicate PricedFrom(events: seq<Event>, prices: set<real>) {
    forall e :: e in events && e.Charge? && e.spend.Llm? ==> e.spend.cost in prices
  }

  /** One hold of exactly one charge. */
  function HoldAndCharge(c: real): seq<Event> {
    [Take("r", Amounts(0, 0, 0, c)), Charge("r", Llm(0, 0, c))]
  }

  function CostLimit(limit: real): Budget {
    Budget(Some(limit), None, None, None, None, None)
  }

  lemma HoldTaken(usage: Usage, c: real)
    requires c > 0.0
    ensures Step(Start(CostLimit(usage.cost + c), usage), HoldAndCharge(c)[0])
         == System(CostLimit(usage.cost + c), usage,
                   [Open(Reservation("r", Amounts(0, 0, 0, c)), Amounts(0, 0, 0, 0.0))], 0)
  {
  }

  lemma RunOfTwo(s: System, events: seq<Event>)
    requires |events| == 2
    ensures Run(s, events) == Step(Step(s, events[0]), events[1])
  {
    assert events[..1] == [events[0]] && events[..1][..0] == [];
    assert Run(s, events[..1]) == Step(s, events[0]);
  }

  lemma HoldAndChargeRecords(usage: Usage, c: real)
    requires c > 0.0
    ensures Run(Start(CostLimit(usage.cost + c), usage), HoldAndCharge(c)).usage.cost == Round8(usage.cost + c)
  {
    RunOfTwo(Start(CostLimit(usage.cost + c), usage), HoldAndCharge(c));
    HoldTaken(usage, c);
    ChargeRecords(CostLimit(usage.cost + c), usage, c);
  }

  lemma ChargeRecords(budget: Budget, usage: Usage, c: real)
    requires c > 0.0
    ensures var s := System(budget, usage, [Open(Reservation("r", Amounts(0, 0, 0, c)), Amounts(0, 0, 0, 0.0))], 0);
            Step(s, Charge("r", Llm(0, 0, c))).usage.cost == Round8(usage.cost + c)
  {
  }

  /**
   Calls at given prices keep every disciplined run within every cost limit exactly when no price rounds up at the
   eighth decimal: one that does already records more than its limit in one held and charged call.
   */
  lemma CostLimitHoldsIffPricesRoundDown(prices: set<real>)
    requires forall c :: c in prices ==> c >= 0.0
    ensures (forall c :: c in prices ==> RoundsDown(c)) <==>
            forall budget, usage: Usage, events :: OnCostGrid(usage.cost) && PricedFrom(events, prices) ==>
              CostWithin(budget, usage, events)
  {
    if forall c :: c in prices ==> RoundsDown(c) {
      forall budget, usage: Usage, events | OnCostGrid(usage.cost) && PricedFrom(events, prices)
        ensures CostWithin(budget, usage, events)
      {
        RecordedCostStaysWithinLimit(budget, usage, events);
      }
    } else {
      var c :| c in prices && !RoundsDown(c);
      var stored := RoundsUpSomewhere(c);
      var usage := FRESH_USAGE.(cost := stored);
      HoldAndChargeRecords(usage, c);
      assert PricedFrom(HoldAndCharge(c), prices);
      assert !CostWithin(CostLimit(stored + c), usage, HoldAndCharge(c));
    }
  }

  /** What the model registry quotes for a call, from its rates per million tokens. */
  function EstimatedCost(inputTokens: nat, outputTokens: nat, inputRate: real, outputRate: real): real {
    Round8(inputTokens as real / 1000000.0 * inputRate + outputTokens as real / 1000000.0 * outputRate)
  }

  /** A quoted cost never rounds up again when it is recorded, and neither does a rounded total of quotes. */
  lemma QuotedCostRoundsDown(inputTokens: nat, outputTokens: nat, inputRate: real, outputRate: real, other: real)
    ensures var c := EstimatedCost(inputTokens, outputTokens, inputRate, outputRate);
            OnCostGrid(c) && RoundsDown(c) && RoundsDown(Round8(c + other))
    ensures EstimatedCost(inputTokens, outputTokens, inputRate, outputRate)
         == Round8((inputTokens as real * inputRate + outputTokens as real * outputRate) / 1000000.0)
  {
    var raw := inputTokens as real / 1000000.0 * inputRate + outputTokens as real / 1000000.0 * outputRate;
    Round8OnGrid(raw);
    GridRoundsDown(Round8(raw));
    Round8OnGrid(Round8(raw) + other);
    GridRoundsDown(Round8(Round8(raw) + other));
  }

  // ---------------------------------------------------------------- recording alone

  datatype LlmCall = LlmCall(inputTokens: nat, outputTokens: nat, cost: real)

  function RecordAll(u: Usage, calls: seq<LlmCall>): Usage {
    if calls == [] then u
    else
      var last := calls[|calls| - 1];
      WithLlm(RecordAll(u, calls[..|calls| - 1]), last.inputTokens, last.outputTokens, last.cost)
  }

  function ExactCost(calls: seq<LlmCall>): real {
    if calls == [] then 0.0 else ExactCost(calls[..|calls| - 1]) + calls[|calls| - 1].cost
  }

  function TotalInput(calls: seq<LlmCall>): nat {
    if calls == [] then 0 else TotalInput(calls[..|calls| - 1]) + calls[|calls| - 1].inputTokens
  }

  function TotalOutput(calls: seq<LlmCall>): nat {
    if calls == [] then 0 else TotalOutput(calls[..|calls| - 1]) + calls[|calls| - 1].outputTokens
  }

  lemma RecordingNeverShrinksCost(u: Usage, c: LlmCall)
    requires OnCostGrid(u.cost) && c.cost >= 0.0
    ensures OnCostGrid(WithLlm(u, c.inputTokens, c.outputTokens, c.cost).cost)
    ensures WithLlm(u, c.inputTokens, c.outputTokens, c.cost).cost >= u.cost
  {
    Round8OnGrid(u.cost + c.cost);
    Round8OnGrid(u.cost);
    RoundMonotone(u.cost, u.cost + c.cost);
  }

  /**
   After any calls the stored cost has only grown, is within half a unit per call of the exact sum, and token totals
   are exact.
   */
  lemma {:induction false} RecordedCostIsClose(u: Usage, calls: seq<LlmCall>)
    requires OnCostGrid(u.cost) && forall c :: c in calls ==> c.cost >= 0.0
    ensures var r := RecordAll(u, calls);
            var exact := u.cost + ExactCost(calls);
            && OnCostGrid(r.cost) && r.cost >= u.cost
            && exact - |calls| as real * 0.000000005 <= r.cost <= exact + |calls| as real * 0.000000005
            && r.inputTokens == u.inputTokens + TotalInput(calls)
            && r.outputTokens == u.outputTokens + TotalOutput(calls)
            && r.llmCalls == u.llmCalls + |calls|
  {
    if calls != [] {
      var n := |calls| - 1;
      RecordedCostIsClose(u, calls[..n]);
      assert calls[n] in calls;
      RecordingNeverShrinksCost(RecordAll(u, calls[..n]), calls[n]);
    }
  }

  /** When every cost is a whole number of the smallest recorded unit, the stored cost is the exact sum. */
  lemma {:induction false} RecordedCostIsExact(u: Usage, calls: seq<LlmCall>)
    requires OnCostGrid(u.cost) && forall c :: c in calls ==> OnCostGrid(c.cost)
    ensures RecordAll(u, calls).cost == u.cost + ExactCost(calls)
    ensures OnCostGrid(RecordAll(u, calls).cost)
  {
    if calls != [] {
      var before, last := calls[..|calls| - 1], calls[|calls| - 1];
      assert last in calls;
      RecordedCostIsExact(u, before);
      GridClosed(RecordAll(u, before).cost, last.cost);
      Round8OnGrid(RecordAll(u, before).cost + last.cost);
    }
  }

  // ---------------------------------------------------------------- any use of the meter

  function OperatedAll(m: Meter, ops: seq<MeterOp>): Meter {
    if ops == [] then m else Operated(OperatedAll(m, ops[..|ops| - 1]), ops[|ops| - 1])
  }

  ghost predicate NonnegativeHolds(holds: seq<Reservation>) {
    forall h :: h in holds ==> Nonnegative(h.size)
  }

  ghost predicate Metered(m: Meter) {
    OnCostGrid(m.usage.cost) && NonnegativeHolds(m.holds)
  }

  lemma {:induction false} ReservedNonnegative(holds: seq<Reservation>, d: Dimension)
    requires NonnegativeHolds(holds)
    ensures Reserved(holds, d) >= 0.0
  {
    if holds != [] {
      assert holds[|holds| - 1] in holds;
      ReservedNonnegative(holds[..|holds| - 1], d);
    }
  }

  lemma {:induction false} WithoutIsPart(holds: seq<Reservation>, id: string)
    ensures forall h :: h in Without(holds, id) ==> h in holds
  {
    if holds != [] {
      WithoutIsPart(holds[..|holds| - 1], id);
    }
  }

  /** Recorded usage only grows, in every dimension and as time passes, and holds stay nonnegative. */
  lemma OperationNeverShrinks(m: Meter, op: MeterOp, d: Dimension, elapsed: real, later: real)
    requires Metered(m) && ValidOp(op) && elapsed <= later
    ensures Metered(Operated(m, op))
    ensures ValueFor(Operated(m, op).usage, d, later) >= ValueFor(m.usage, d, elapsed)
  {
    match op
    case Recording(spend) =>
      if spend.Llm? {
        RecordingNeverShrinksCost(m.usage, LlmCall(spend.inputTokens, spend.outputTokens, spend.cost));
      }
    case Dropping(id) => WithoutIsPart(m.holds, id);
    case _ =>
  }

  lemma {:induction false} UsageNeverShrinks(m: Meter, ops: seq<MeterOp>, d: Dimension, elapsed: real, later: real)
    requires Metered(m) && elapsed <= later && forall op :: op in ops ==> ValidOp(op)
    ensures Metered(OperatedAll(m, ops)) && OperatedAll(m, ops).budget == m.budget
    ensures ValueFor(OperatedAll(m, ops).usage, d, later) >= ValueFor(m.usage, d, elapsed)
  {
    if ops != [] {
      var n := |ops| - 1;
      UsageNeverShrinks(m, ops[..n], d, elapsed, later);
      assert ops[n] in ops;
      OperationNeverShrinks(OperatedAll(m, ops[..n]), ops[n], d, later, later);
    }
  }

  /**
   Once what is recorded by itself exceeds a limit in any dimension, every later check fails, whatever is reserved,
   recorded with or without a reservation, retried or dropped in between.
   */
  lemma ExceededForever(m: Meter, ops: seq<MeterOp>, d: Dimension, elapsed: real, later: real)
    requires Metered(m) && elapsed <= later && forall op :: op in ops ==> ValidOp(op)
    requires LimitFor(m.budget, d).Some? && ValueFor(m.usage, d, elapsed) > LimitFor(m.budget, d).value
    ensures Exceeded(OperatedAll(m, ops), d, later)
  {
    UsageNeverShrinks(m, ops, d, elapsed, later);
    ReservedNonnegative(OperatedAll(m, ops).holds, d);
  }
}
