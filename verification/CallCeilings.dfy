/**
 The call ceiling as seen by single executions. One policy engine serves every execution of a deployment and keeps its
 tallies in memory, so requests of different executions share a tally and a restart empties it.
 */
module CallCeilings {
  import opened Outcomes
  import opened Policies

  datatype Event = Request(execution: string, call: Call) | Restart

  /** The engine's tallies after the events. */
  function Tallies(c: Config, events: seq<Event>): Counts {
    if events == [] then map[]
    else
      match events[|events| - 1]
      case Restart => map[]
      case Request(_, call) => Authorised(c, Tallies(c, events[..|events| - 1]), call.ask)
  }

  function Restarts(events: seq<Event>): nat {
    if events == [] then 0
    else Restarts(events[..|events| - 1]) + if events[|events| - 1].Restart? then 1 else 0
  }

  /** Which agent calls which tool. */
  datatype Pair = Pair(agent: string, tool: string)

  function Only(x: string): string -> bool {
    y => y == x
  }

  function Except(x: string): string -> bool {
    y => y != x
  }

  /** The event is a request of that pair, by an execution that `who` accepts. */
  predicate Concerns(e: Event, p: Pair, who: string -> bool) {
    e.Request? && e.call.ask.agent == p.agent && e.call.ask.tool == p.tool && who(e.execution)
  }

  /** Outright ALLOWs of the pair since the engine last started. */
  function AllowsSince(c: Config, events: seq<Event>, p: Pair, who: string -> bool): nat {
    if events == [] || events[|events| - 1].Restart? then 0
    else
      var before, last := events[..|events| - 1], events[|events| - 1];
      AllowsSince(c, before, p, who)
      + (if Concerns(last, p, who) && Allowed(c, Tallies(c, before), last.call.ask) then 1 else 0)
  }

  /** Outright ALLOWs of the pair over all events, restarts or not. */
  function AllowsEver(c: Config, events: seq<Event>, p: Pair, who: string -> bool): nat {
    if events == [] then 0
    else
      var before, last := events[..|events| - 1], events[|events| - 1];
      AllowsEver(c, before, p, who)
      + (if Concerns(last, p, who) && Allowed(c, Tallies(c, before), last.call.ask) then 1 else 0)
  }

  /** Calls of the pair that go through, granted approvals included. */
  function PassedEver(c: Config, events: seq<Event>, p: Pair, who: string -> bool): nat {
    if events == [] then 0
    else
      var before, last := events[..|events| - 1], events[|events| - 1];
      PassedEver(c, before, p, who)
      + (if Concerns(last, p, who) && Executes(c, Tallies(c, before), last.call) then 1 else 0)
  }

  function Own(c: Config, events: seq<Event>, p: Pair, x: string): nat {
    AllowsSince(c, events, p, Only(x))
  }

  function Others(c: Config, events: seq<Event>, p: Pair, x: string): nat {
    AllowsSince(c, events, p, Except(x))
  }

  predicate Limited(c: Config, p: Pair) {
    && p.agent in c.agents && p.tool in c.agents[p.agent]
    && c.agents[p.agent][p.tool].maxCalls.Some? && c.agents[p.agent][p.tool].maxCalls.value >= 1
  }

  function Limit(c: Config, p: Pair): int
    requires Limited(c, p)
  {
    c.agents[p.agent][p.tool].maxCalls.value
  }

  /** One more event. */
  lemma EventsSnoc(c: Config, events: seq<Event>, e: Event, p: Pair, who: string -> bool)
    ensures Tallies(c, events + [e])
         == if e.Restart? then map[] else Authorised(c, Tallies(c, events), e.call.ask)
    ensures Restarts(events + [e]) == Restarts(events) + if e.Restart? then 1 else 0
    ensures AllowsEver(c, events + [e], p, who)
         == AllowsEver(c, events, p, who)
            + if Concerns(e, p, who) && Allowed(c, Tallies(c, events), e.call.ask) then 1 else 0
    ensures PassedEver(c, events + [e], p, who)
         == PassedEver(c, events, p, who) + if Concerns(e, p, who) && Executes(c, Tallies(c, events), e.call)
             then 1 else 0
  {
    assert (events + [e])[..|events|] == events;
  }

  // ---------------------------------------------------------------- whose calls a tally counts

  /** The tally of a pair is every execution's ALLOWs since the last restart: an execution's own and all the others'. */
  lemma {:induction false} TallyIsOwnPlusOthers(c: Config, events: seq<Event>, p: Pair, x: string)
    ensures CallsMade(Tallies(c, events), p.agent, p.tool) == Own(c, events, p, x) + Others(c, events, p, x)
  {
    if events != [] && events[|events| - 1].Request? {
      TallyIsOwnPlusOthers(c, events[..|events| - 1], p, x);
    }
  }

  /** An ALLOW depends on the tallies only through the ceiling. */
  lemma AllowedIff(c: Config, counts: Counts, a: Ask)
    requires Limited(c, Pair(a.agent, a.tool))
    ensures Allowed(c, counts, a) <==>
            Allowed(c, map[], a) && CallsMade(counts, a.agent, a.tool) < Limit(c, Pair(a.agent, a.tool))
  {
  }

  /**
   A request the configuration allows is denied, to an execution that has made fewer calls than its ceiling, exactly
   when the other executions' calls since the last restart use up what it has left.
   */
  lemma DeniedWithCallsLeftIff(c: Config, events: seq<Event>, x: string, a: Ask)
    requires Limited(c, Pair(a.agent, a.tool)) && Allowed(c, map[], a)
    ensures var p := Pair(a.agent, a.tool);
            var own, others, limit := Own(c, events, p, x), Others(c, events, p, x), Limit(c, p);
            own < limit && !Allowed(c, Tallies(c, events), a) <==> own < limit <= own + others
  {
    TallyIsOwnPlusOthers(c, events, Pair(a.agent, a.tool), x);
    AllowedIff(c, Tallies(c, events), a);
  }

  // ---------------------------------------------------------------- how much a restart gives back

  lemma {:induction false} TallyWithinLimit(c: Config, events: seq<Event>, p: Pair)
    requires Limited(c, p)
    ensures CallsMade(Tallies(c, events), p.agent, p.tool) <= Limit(c, p)
  {
    if events != [] && events[|events| - 1].Request? {
      var before, last := events[..|events| - 1], events[|events| - 1];
      TallyWithinLimit(c, before, p);
      if last.call.ask.agent == p.agent && last.call.ask.tool == p.tool {
        AllowedIff(c, Tallies(c, before), last.call.ask);
      }
    }
  }

  lemma {:induction false} PartOfTally(c: Config, events: seq<Event>, p: Pair, who: string -> bool)
    ensures AllowsSince(c, events, p, who) <= CallsMade(Tallies(c, events), p.agent, p.tool)
  {
    if events != [] && events[|events| - 1].Request? {
      PartOfTally(c, events[..|events| - 1], p, who);
    }
  }

  /** `n` lifetimes' worth of calls. */
  function Allowance(n: nat, limit: int): int {
    if n == 0 then 0 else limit + Allowance(n - 1, limit)
  }

  lemma {:induction false} AllowanceIsProduct(n: nat, limit: int)
    ensures Allowance(n, limit) == n * limit
  {
    if n > 0 {
      AllowanceIsProduct(n - 1, limit);
      assert n * limit == limit + (n - 1) * limit;
    }
  }

  lemma {:induction false} EverWithinLifetimes(c: Config, events: seq<Event>, p: Pair, who: string -> bool)
    requires Limited(c, p)
    ensures AllowsEver(c, events, p, who) <= Allowance(Restarts(events), Limit(c, p)) + AllowsSince(c, events, p, who)
  {
    if events != [] {
      var before := events[..|events| - 1];
      EverWithinLifetimes(c, before, p, who);
      PartOfTally(c, before, p, who);
      TallyWithinLimit(c, before, p);
    }
  }

  /** Over any run, an execution's ALLOWs, and indeed everyone's, are at most one ceiling per lifetime of the engine. */
  lemma AllowsPerLifetime(c: Config, events: seq<Event>, p: Pair, who: string -> bool)
    requires Limited(c, p)
    ensures AllowsEver(c, events, p, who) <= (Restarts(events) + 1) * Limit(c, p)
  {
    EverWithinLifetimes(c, events, p, who);
    PartOfTally(c, events, p, who);
    TallyWithinLimit(c, events, p);
    AllowanceIsProduct(Restarts(events) + 1, Limit(c, p));
  }

  function Repeat(x: string, call: Call, n: nat): seq<Event> {
    if n == 0 then [] else Repeat(x, call, n - 1) + [Request(x, call)]
  }

  /** One execution using its whole ceiling, the engine restarting, and so on. */
  function Lifetimes(x: string, call: Call, limit: nat, restarts: nat): seq<Event> {
    if restarts == 0 then Repeat(x, call, limit)
    else Lifetimes(x, call, limit, restarts - 1) + [Restart] + Repeat(x, call, limit)
  }

  lemma {:induction false} RepeatAllows(c: Config, before: seq<Event>, x: string, call: Call, n: nat)
    requires Limited(c, Pair(call.ask.agent, call.ask.tool)) && Allowed(c, map[], call.ask)
    requires n <= Limit(c, Pair(call.ask.agent, call.ask.tool))
    requires Tallies(c, before) == map[]
    ensures var events, p := before + Repeat(x, call, n), Pair(call.ask.agent, call.ask.tool);
            && CallsMade(Tallies(c, events), p.agent, p.tool) == n
            && AllowsEver(c, events, p, Only(x)) == AllowsEver(c, before, p, Only(x)) + n
            && Restarts(events) == Restarts(before)
  {
    hide Tallies, AllowsEver, Restarts, Allowed;
    if n == 0 {
      assert before + [] == before;
    } else {
      var shorter, e := before + Repeat(x, call, n - 1), Request(x, call);
      RepeatAllows(c, before, x, call, n - 1);
      assert before + Repeat(x, call, n) == shorter + [e];
      EventsSnoc(c, shorter, e, Pair(call.ask.agent, call.ask.tool), Only(x));
      AllowedIff(c, Tallies(c, shorter), call.ask);
    }
  }

  /** And that much is reached, by one execution, for every number of restarts. */
  lemma {:induction false} LifetimesReached(c: Config, x: string, call: Call, restarts: nat)
    requires Limited(c, Pair(call.ask.agent, call.ask.tool)) && Allowed(c, map[], call.ask)
    ensures var p := Pair(call.ask.agent, call.ask.tool);
            var events := Lifetimes(x, call, Limit(c, p), restarts);
            && Restarts(events) == restarts
            && AllowsEver(c, events, p, Only(x)) == Allowance(restarts + 1, Limit(c, p))
  {
    hide Tallies, AllowsEver, Restarts, Allowed, Repeat;
    var p := Pair(call.ask.agent, call.ask.tool);
    var limit := Limit(c, p);
    NothingYet(c, p, Only(x));
    if restarts == 0 {
      RepeatAllows(c, [], x, call, limit);
      assert [] + Repeat(x, call, limit) == Repeat(x, call, limit);
    } else {
      var earlier := Lifetimes(x, call, limit, restarts - 1);
      LifetimesReached(c, x, call, restarts - 1);
      EventsSnoc(c, earlier, Restart, p, Only(x));
      RepeatAllows(c, earlier + [Restart], x, call, limit);
    }
  }

  lemma NothingYet(c: Config, p: Pair, who: string -> bool)
    ensures Tallies(c, []) == map[] && Restarts([]) == 0
    ensures AllowsEver(c, [], p, who) == 0 && PassedEver(c, [], p, who) == 0
  {
  }

  // ---------------------------------------------------------------- what goes through

  lemma {:induction false} UngatedPassesAreAllows(c: Config, events: seq<Event>, p: Pair, who: string -> bool)
    requires Limited(c, p) && forall args :: !ApprovalGated(c, p.agent, p.tool, args)
    ensures PassedEver(c, events, p, who) == AllowsEver(c, events, p, who)
  {
    if events != [] {
      var before, last := events[..|events| - 1], events[|events| - 1];
      UngatedPassesAreAllows(c, before, p, who);
      if Concerns(last, p, who) {
        AsksApprovalIff(c, Tallies(c, before), p.agent, p.tool, last.call.ask.args);
      }
    }
  }

  lemma {:induction false} GatedAllPass(c: Config, x: string, p: Pair, args: Arguments, n: nat)
    requires Limited(c, p) && ApprovalGated(c, p.agent, p.tool, args)
    ensures var events := Repeat(x, Call(Ask(p.agent, p.tool, args), Granted), n);
            Tallies(c, events) == map[] && Restarts(events) == 0 && PassedEver(c, events, p, Only(x)) == n
  {
    if n > 0 {
      hide Tallies, PassedEver, AllowsEver, Restarts, Evaluated, ApprovalGated;
      var call := Call(Ask(p.agent, p.tool, args), Granted);
      GatedAllPass(c, x, p, args, n - 1);
      EventsSnoc(c, Repeat(x, call, n - 1), Request(x, call), p, Only(x));
      AsksApprovalIff(c, map[], p.agent, p.tool, args);
    }
  }

  ghost predicate PassesWithinLifetimes(c: Config, events: seq<Event>, p: Pair, x: string)
    requires Limited(c, p)
  {
    PassedEver(c, events, p, Only(x)) <= (Restarts(events) + 1) * Limit(c, p)
  }

  /**
   What goes through for one execution stays within one ceiling per lifetime of the engine, in every run, exactly when
   no arguments send the pair to a reviewer.
   */
  lemma PassesWithinLifetimesIff(c: Config, p: Pair, x: string)
    requires Limited(c, p)
    ensures (forall events :: PassesWithinLifetimes(c, events, p, x)) <==>
            forall args :: !ApprovalGated(c, p.agent, p.tool, args)
  {
    if args :| ApprovalGated(c, p.agent, p.tool, args) {
      var events := Repeat(x, Call(Ask(p.agent, p.tool, args), Granted), Limit(c, p) + 1);
      GatedAllPass(c, x, p, args, Limit(c, p) + 1);
      assert !PassesWithinLifetimes(c, events, p, x);
    } else {
      forall events ensures PassesWithinLifetimes(c, events, p, x) {
        UngatedPassesAreAllows(c, events, p, Only(x));
        AllowsPerLifetime(c, events, p, Only(x));
      }
    }
  }

  // ---------------------------------------------------------------- both ways of missing "per execution"

  /** One permitted call of a tool that needs no approval. */
  function OneCallOfOpenTool(): Config {
    Config(map["agent" := map["tool" := Permission(Allow, Some(1), "")]],
           map["tool" := Tool(true, Safe, false)], {}, [], (_, _) => true, (_, _) => false)
  }

  const OPEN_CALL := Call(Ask("agent", "tool", map[]), Undecided)

  /** Across a restart an execution makes two calls under a ceiling of one. */
  lemma RestartResetsCeiling(x: string)
    ensures AllowsEver(OneCallOfOpenTool(), [Request(x, OPEN_CALL), Restart, Request(x, OPEN_CALL)],
                       Pair("agent", "tool"), Only(x)) == 2
  {
    var c, e := OneCallOfOpenTool(), Request(x, OPEN_CALL);
    LifetimesReached(c, x, OPEN_CALL, 1);
    assert Repeat(x, OPEN_CALL, 1) == [e] by {
      assert Repeat(x, OPEN_CALL, 0) == [];
    }
    assert Lifetimes(x, OPEN_CALL, 1, 1) == [e] + [Restart] + [e] == [e, Restart, e] by {
      assert Lifetimes(x, OPEN_CALL, 1, 0) == [e];
    }
    assert Allowance(2, 1) == 2 by {
      assert Allowance(1, 1) == 1;
    }
  }

  /** Without one, an execution that has made no call is denied its first because another used the ceiling up. */
  lemma OtherExecutionUsesCeiling(x: string, y: string)
    requires x != y
    ensures var c, events := OneCallOfOpenTool(), [Request(x, OPEN_CALL)];
            && Own(c, events, Pair("agent", "tool"), y) == 0
            && EffectOf(Evaluated(c, Tallies(c, events), "agent", "tool", map[])) == Some(Deny)
  {
    var c, events := OneCallOfOpenTool(), [Request(x, OPEN_CALL)];
    assert events[..0] == [];
    assert !Concerns(events[0], Pair("agent", "tool"), Only(y));
    assert AllowsSince(c, events[..0], Pair("agent", "tool"), Only(y)) == 0;
    assert Tallies(c, events) == Counted(map[], "agent", "tool");
  }
}
