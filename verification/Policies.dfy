/**
 Authorising tool calls: layers evaluated in order with early returns, shown equal to the strictest of all layers,
 and the per-agent call ceiling over whole runs.
 */
module Policies {
  import opened Outcomes

  datatype Effect = Allow | RequireApproval | Deny

  datatype Risk = Safe | Low | Medium | High | Critical

  function RiskOrder(r: Risk): nat {
    match r
    case Safe => 0
    case Low => 1
    case Medium => 2
    case High => 3
    case Critical => 4
  }

  type Arguments = map<string, string>

  datatype Rule = Rule(name: string, effect: Effect, toolPattern: string, agentPattern: string, minRisk: Option<Risk>)

  datatype Permission = Permission(effect: Effect, maxCalls: Option<int>, constraints: string)

  datatype Tool = Tool(enabled: bool, risk: Risk, requiresApproval: bool)

  /** The registries and rules. `glob` is shell matching and `violates` the closed constraint vocabulary. */
  datatype Config = Config(
    agents: map<string, map<string, Permission>>, tools: map<string, Tool>, approvalLevels: set<Risk>, rules: seq<Rule>,
    glob: (string, string) -> bool, violates: (string, Arguments) -> bool)

  type Counts = map<(string, string), int>

  /** Which layer decided. */
  datatype Layer =
    | UnknownTool | ToolDisabled | Allowlist | PermissionEffect | MaxCalls | ArgumentConstraint
    | DeploymentRule(name: string) | RiskLayer

  datatype Decision = Decision(effect: Effect, layer: Layer)

  datatype UnknownAgent = UnknownAgent(agent: string)

  predicate AppliesTo(c: Config, r: Rule, agent: string, tool: string, risk: Risk) {
    && c.glob(tool, r.toolPattern)
    && c.glob(agent, r.agentPattern)
    && !(r.minRisk.Some? && RiskOrder(risk) < RiskOrder(r.minRisk.value))
  }

  function CallsMade(counts: Counts, agent: string, tool: string): int {
    if (agent, tool) in counts then counts[(agent, tool)] else 0
  }

  predicate Exhausted(counts: Counts, agent: string, tool: string, p: Permission) {
    p.maxCalls.Some? && CallsMade(counts, agent, tool) >= p.maxCalls.value
  }

  /** The rule loop: the first applicable denial ends it, an approval rule only raises the flag. */
  function AfterRules(c: Config, rules: seq<Rule>, agent: string, tool: string, risk: Risk, approval: bool): Decision {
    if rules == [] then if approval then Decision(RequireApproval, RiskLayer) else Decision(Allow, Allowlist)
    else if !AppliesTo(c, rules[0], agent, tool, risk) then AfterRules(c, rules[1..], agent, tool, risk, approval)
    else if rules[0].effect == Deny then Decision(Deny, DeploymentRule(rules[0].name))
    else AfterRules(c, rules[1..], agent, tool, risk, approval || rules[0].effect == RequireApproval)
  }

  function NeedsApproval(c: Config, p: Permission, t: Tool): bool {
    p.effect == RequireApproval || t.requiresApproval || t.risk in c.approvalLevels
  }

  function Evaluated(c: Config, counts: Counts, agent: string, tool: string, args: Arguments)
    : Result<Decision, UnknownAgent>
  {
    if agent !in c.agents then Err(UnknownAgent(agent))
    else if tool !in c.tools then Ok(Decision(Deny, UnknownTool))
    else if !c.tools[tool].enabled then Ok(Decision(Deny, ToolDisabled))
    else if tool !in c.agents[agent] then Ok(Decision(Deny, Allowlist))
    else
      var p := c.agents[agent][tool];
      if p.effect == Deny then Ok(Decision(Deny, PermissionEffect))
      else if Exhausted(counts, agent, tool, p) then Ok(Decision(Deny, MaxCalls))
      else if c.violates(p.constraints, args) then Ok(Decision(Deny, ArgumentConstraint))
      else Ok(AfterRules(c, c.rules, agent, tool, c.tools[tool].risk, NeedsApproval(c, p, c.tools[tool])))
  }

  predicate Denies(c: Config, r: Rule, agent: string, tool: string, risk: Risk) {
    AppliesTo(c, r, agent, tool, risk) && r.effect == Deny
  }

  /** A decision that names a deployment rule names the first one in order that denies. */
  lemma {:induction false} FirstDenialIsNamed(c: Config, rules: seq<Rule>, agent: string, tool: string, risk: Risk,
                                              approval: bool)
    ensures var d := AfterRules(c, rules, agent, tool, risk, approval);
            && (d.effect == Deny <==> exists i :: 0 <= i < |rules| && Denies(c, rules[i], agent, tool, risk))
            && forall i :: 0 <= i < |rules| && Denies(c, rules[i], agent, tool, risk)
                           && (forall j :: 0 <= j < i ==> !Denies(c, rules[j], agent, tool, risk)) ==>
                 d.layer == DeploymentRule(rules[i].name)
  {
    if rules != [] && !Denies(c, rules[0], agent, tool, risk) {
      var applies := AppliesTo(c, rules[0], agent, tool, risk);
      var flag := approval || (applies && rules[0].effect == RequireApproval);
      FirstDenialIsNamed(c, rules[1..], agent, tool, risk, flag);
      assert forall i :: 1 <= i < |rules| ==> rules[i] == rules[1..][i - 1];
      forall i | 0 <= i < |rules| && Denies(c, rules[i], agent, tool, risk)
                 && (forall j :: 0 <= j < i ==> !Denies(c, rules[j], agent, tool, risk))
        ensures AfterRules(c, rules, agent, tool, risk, approval).layer == DeploymentRule(rules[i].name)
      {
        assert forall j :: 0 <= j < i - 1 ==> rules[1..][j] == rules[j + 1];
        assert Denies(c, rules[1..][i - 1], agent, tool, risk);
      }
    }
  }

  // ---------------------------------------------------------------- the strictest layer

  function Strictness(e: Effect): nat {
    match e
    case Allow => 0
    case RequireApproval => 1
    case Deny => 2
  }

  function Stricter(a: Effect, b: Effect): Effect {
    if Strictness(a) >= Strictness(b) then a else b
  }

  function Strictest(es: seq<Effect>): Effect {
    if es == [] then Allow else Stricter(es[0], Strictest(es[1..]))
  }

  /** Only which effects occur matters, not where or how often. */
  lemma {:induction false} StrictestByMembership(es: seq<Effect>)
    ensures Strictest(es) == if Deny in es then Deny else if RequireApproval in es then RequireApproval else Allow
  {
    if es != [] {
      StrictestByMembership(es[1..]);
    }
  }

  function RuleVerdict(c: Config, r: Rule, agent: string, tool: string, risk: Risk): Effect {
    if AppliesTo(c, r, agent, tool, risk) then r.effect else Allow
  }

  function RuleVerdicts(c: Config, rules: seq<Rule>, agent: string, tool: string, risk: Risk): (vs: seq<Effect>)
    ensures |vs| == |rules|
    ensures forall e :: e in vs <==> exists r :: r in rules && RuleVerdict(c, r, agent, tool, risk) == e
  {
    if rules == [] then []
    else [RuleVerdict(c, rules[0], agent, tool, risk)] + RuleVerdicts(c, rules[1..], agent, tool, risk)
  }

  function DenyIf(b: bool): Effect {
    if b then Deny else Allow
  }

  /** What each layer below the deployment rules says by itself. A layer with nothing to look at says nothing. */
  function Layers(c: Config, counts: Counts, agent: string, tool: string, args: Arguments): (es: seq<Effect>)
    requires agent in c.agents
    ensures |es| == 7
  {
    var known := tool in c.tools;
    var listed := tool in c.agents[agent];
    [DenyIf(!known), DenyIf(known && !c.tools[tool].enabled), DenyIf(!listed),
     if listed then c.agents[agent][tool].effect else Allow,
     DenyIf(listed && Exhausted(counts, agent, tool, c.agents[agent][tool])),
     DenyIf(listed && c.violates(c.agents[agent][tool].constraints, args)),
     if known && (c.tools[tool].requiresApproval || c.tools[tool].risk in c.approvalLevels)
     then RequireApproval else Allow]
  }

  function Verdicts(c: Config, rules: seq<Rule>, counts: Counts, agent: string, tool: string,
      args: Arguments): seq<Effect>
    requires agent in c.agents
  {
    Layers(c, counts, agent, tool, args)
    + (if tool in c.tools then RuleVerdicts(c, rules, agent, tool, c.tools[tool].risk) else [])
  }

  lemma {:induction false} AfterRulesIsStrictest(
    c: Config, rules: seq<Rule>, agent: string, tool: string, risk: Risk, approval: bool)
    ensures AfterRules(c, rules, agent, tool, risk, approval).effect
         == Stricter(if approval then RequireApproval else Allow, Strictest(RuleVerdicts(c, rules, agent, tool, risk)))
  {
    if rules != [] {
      var vs := RuleVerdicts(c, rules, agent, tool, risk);
      assert vs[1..] == RuleVerdicts(c, rules[1..], agent, tool, risk);
      AfterRulesIsStrictest(c, rules[1..], agent, tool, risk, approval || vs[0] == RequireApproval);
    }
  }

  lemma {:induction false} StrictestConcat(a: seq<Effect>, b: seq<Effect>)
    ensures Strictest(a + b) == Stricter(Strictest(a), Strictest(b))
  {
    StrictestByMembership(a);
    StrictestByMembership(b);
    StrictestByMembership(a + b);
  }

  /** What stands in the way of a call before any deployment rule is asked. */
  predicate DeniedEarly(c: Config, counts: Counts, agent: string, tool: string, args: Arguments)
    requires agent in c.agents
  {
    || tool !in c.tools || !c.tools[tool].enabled || tool !in c.agents[agent]
    || c.agents[agent][tool].effect == Deny
    || Exhausted(counts, agent, tool, c.agents[agent][tool])
    || c.violates(c.agents[agent][tool].constraints, args)
  }

  lemma StrictestLayer(c: Config, counts: Counts, agent: string, tool: string, args: Arguments)
    requires agent in c.agents
    ensures Strictest(Layers(c, counts, agent, tool, args))
         == if DeniedEarly(c, counts, agent, tool, args) then Deny
            else if NeedsApproval(c, c.agents[agent][tool], c.tools[tool]) then RequireApproval else Allow
  {
    var es := Layers(c, counts, agent, tool, args);
    StrictestByMembership(es);
    assert forall e :: e in es <==>
      e == es[0] || e == es[1] || e == es[2] || e == es[3] || e == es[4] || e == es[5] || e == es[6];
  }

  /** The early returns compute the strictest verdict of all the layers. */
  lemma EvaluationIsStrictest(c: Config, counts: Counts, agent: string, tool: string, args: Arguments)
    requires agent in c.agents
    ensures Evaluated(c, counts, agent, tool, args).Ok?
    ensures Evaluated(c, counts, agent, tool, args).value.effect
         == Strictest(Verdicts(c, c.rules, counts, agent, tool, args))
  {
    var layers := Layers(c, counts, agent, tool, args);
    StrictestLayer(c, counts, agent, tool, args);
    if tool in c.tools {
      var t := c.tools[tool];
      StrictestConcat(layers, RuleVerdicts(c, c.rules, agent, tool, t.risk));
      if tool in c.agents[agent] {
        AfterRulesIsStrictest(c, c.rules, agent, tool, t.risk, NeedsApproval(c, c.agents[agent][tool], t));
      }
    } else {
      StrictestConcat(layers, []);
    }
  }

  function EffectOf(r: Result<Decision, UnknownAgent>): Option<Effect> {
    if r.Ok? then Some(r.value.effect) else None
  }

  /** A deployment rule inserted anywhere never loosens a decision. */
  lemma InsertingRuleNeverLoosens(c: Config, i: nat, r: Rule, counts: Counts, agent: string, tool: string,
      args: Arguments)
    requires i <= |c.rules| && agent in c.agents
    ensures var more := c.(rules := c.rules[..i] + [r] + c.rules[i..]);
            Strictness(Evaluated(more, counts, agent, tool, args).value.effect)
            >= Strictness(Evaluated(c, counts, agent, tool, args).value.effect)
  {
    var more := c.(rules := c.rules[..i] + [r] + c.rules[i..]);
    assert forall x :: x in c.rules ==> x in more.rules;
    MoreRulesAreStricter(c, more, counts, agent, tool, args);
  }

  lemma MoreRulesAreStricter(c: Config, d: Config, counts: Counts, agent: string, tool: string, args: Arguments)
    requires agent in c.agents && d == c.(rules := d.rules)
    requires forall r :: r in c.rules ==> r in d.rules
    ensures Strictness(Evaluated(d, counts, agent, tool, args).value.effect)
         >= Strictness(Evaluated(c, counts, agent, tool, args).value.effect)
  {
    EvaluationIsStrictest(c, counts, agent, tool, args);
    EvaluationIsStrictest(d, counts, agent, tool, args);
    var vs := Verdicts(c, c.rules, counts, agent, tool, args);
    var ws := Verdicts(d, d.rules, counts, agent, tool, args);
    StrictestByMembership(vs);
    StrictestByMembership(ws);
    VerdictsCarryOver(c, d, counts, agent, tool, args);
  }

  lemma VerdictsCarryOver(c: Config, d: Config, counts: Counts, agent: string, tool: string, args: Arguments)
    requires agent in c.agents && d == c.(rules := d.rules)
    requires forall r :: r in c.rules ==> r in d.rules
    ensures forall e :: e in Verdicts(c, c.rules, counts, agent, tool, args) ==>
                        e in Verdicts(d, d.rules, counts, agent, tool, args)
  {
  }

  /** Reordering the deployment rules never changes the effect. */
  lemma PermutingRulesChangesNothing(c: Config, d: Config, counts: Counts, agent: string, tool: string, args: Arguments)
    requires agent in c.agents && d == c.(rules := d.rules) && multiset(c.rules) == multiset(d.rules)
    ensures EffectOf(Evaluated(c, counts, agent, tool, args)) == EffectOf(Evaluated(d, counts, agent, tool, args))
  {
    assert forall r :: r in c.rules <==> r in multiset(c.rules);
    assert forall r :: r in d.rules <==> r in multiset(d.rules);
    assert c == d.(rules := c.rules);
    MoreRulesAreStricter(c, d, counts, agent, tool, args);
    MoreRulesAreStricter(d, c, counts, agent, tool, args);
    EvaluationIsStrictest(c, counts, agent, tool, args);
    EvaluationIsStrictest(d, counts, agent, tool, args);
  }

  const LAYERS := [UnknownTool, ToolDisabled, Allowlist, PermissionEffect, MaxCalls, ArgumentConstraint]

  /** A denial names the first layer in order that denies, and a deployment rule only when none of the layers does. */
  lemma FirstObjectionIsNamed(c: Config, counts: Counts, agent: string, tool: string, args: Arguments)
    requires agent in c.agents
    ensures var es, d := Layers(c, counts, agent, tool, args), Evaluated(c, counts, agent, tool, args).value;
            && (forall i :: 0 <= i < |LAYERS| && es[i] == Deny && (forall j :: 0 <= j < i ==> es[j] != Deny) ==>
                  d == Decision(Deny, LAYERS[i]))
            && (d.effect == Deny && (forall i :: 0 <= i < |LAYERS| ==> es[i] != Deny) ==> d.layer.DeploymentRule?)
            && (d.effect == RequireApproval ==> d.layer == RiskLayer)
            && (d.effect == Allow ==> d.layer == Allowlist)
  {
    var es := Layers(c, counts, agent, tool, args);
    assert DeniedEarly(c, counts, agent, tool, args) <==>
      es[0] == Deny || es[1] == Deny || es[2] == Deny || es[3] == Deny || es[4] == Deny || es[5] == Deny;
    if !DeniedEarly(c, counts, agent, tool, args) {
      LayerOfRules(c, c.rules, agent, tool, c.tools[tool].risk,
                   NeedsApproval(c, c.agents[agent][tool], c.tools[tool]));
    }
  }

  lemma {:induction false} LayerOfRules(c: Config, rules: seq<Rule>, agent: string, tool: string, risk: Risk,
                                        approval: bool)
    ensures AfterRules(c, rules, agent, tool, risk, approval).layer
         == match AfterRules(c, rules, agent, tool, risk, approval).effect
            case Deny => AfterRules(c, rules, agent, tool, risk, approval).layer
            case RequireApproval => RiskLayer
            case Allow => Allowlist
    ensures AfterRules(c, rules, agent, tool, risk, approval).effect == Deny ==>
              AfterRules(c, rules, agent, tool, risk, approval).layer.DeploymentRule?
  {
    if rules != [] {
      LayerOfRules(c, rules[1..], agent, tool, risk, approval);
      LayerOfRules(c, rules[1..], agent, tool, risk, approval || rules[0].effect == RequireApproval);
    }
  }

  // ---------------------------------------------------------------- which rules apply

  const RISKS := [Safe, Low, Medium, High, Critical]

  ghost predicate Below(a: Risk, b: Risk) {
    exists i, j :: 0 <= i < j < |RISKS| && RISKS[i] == a && RISKS[j] == b
  }

  lemma BelowIsOrder(a: Risk, b: Risk)
    ensures Below(a, b) <==> RiskOrder(a) < RiskOrder(b)
  {
    assert RISKS[RiskOrder(a)] == a && RISKS[RiskOrder(b)] == b;
  }

  function Without(c: Config, i: nat): Config
    requires i < |c.rules|
  {
    c.(rules := c.rules[..i] + c.rules[i + 1..])
  }

  lemma {:induction false} SkippedRule(c: Config, rules: seq<Rule>, i: nat, agent: string, tool: string, risk: Risk,
                                       approval: bool)
    requires i < |rules| && (rules[i].effect == Allow || !AppliesTo(c, rules[i], agent, tool, risk))
    ensures AfterRules(c, rules, agent, tool, risk, approval)
         == AfterRules(c, rules[..i] + rules[i + 1..], agent, tool, risk, approval)
  {
    if i == 0 {
      assert rules[..0] + rules[1..] == rules[1..];
    } else {
      var rest, less := rules[1..], rules[..i] + rules[i + 1..];
      assert less[0] == rules[0] && less[1..] == rest[..i - 1] + rest[i..];
      SkippedRule(c, rest, i - 1, agent, tool, risk, approval);
      SkippedRule(c, rest, i - 1, agent, tool, risk, approval || rules[0].effect == RequireApproval);
    }
  }

  lemma {:induction false} RulesAlone(c: Config, d: Config, rules: seq<Rule>, agent: string, tool: string, risk: Risk,
                                      approval: bool)
    requires c.glob == d.glob
    ensures AfterRules(c, rules, agent, tool, risk, approval) == AfterRules(d, rules, agent, tool, risk, approval)
  {
    if rules != [] {
      RulesAlone(c, d, rules[1..], agent, tool, risk, approval);
      RulesAlone(c, d, rules[1..], agent, tool, risk, approval || rules[0].effect == RequireApproval);
    }
  }

  /**
   A rule may as well not be there, decision and reason included, when it allows, when a pattern of its misses the tool
   or the agent, or when it asks for a higher risk than the tool has.
   */
  lemma IdleRule(c: Config, i: nat, counts: Counts, agent: string, tool: string, args: Arguments)
    requires i < |c.rules|
    requires || c.rules[i].effect == Allow
             || !c.glob(tool, c.rules[i].toolPattern)
             || !c.glob(agent, c.rules[i].agentPattern)
             || (tool in c.tools && c.rules[i].minRisk.Some? && Below(c.tools[tool].risk, c.rules[i].minRisk.value))
    ensures Evaluated(c, counts, agent, tool, args) == Evaluated(Without(c, i), counts, agent, tool, args)
  {
    if agent in c.agents && tool in c.tools && tool in c.agents[agent] {
      var risk, approval := c.tools[tool].risk, NeedsApproval(c, c.agents[agent][tool], c.tools[tool]);
      if c.rules[i].minRisk.Some? {
        BelowIsOrder(risk, c.rules[i].minRisk.value);
      }
      SkippedRule(c, c.rules, i, agent, tool, risk, approval);
      RulesAlone(c, Without(c, i), Without(c, i).rules, agent, tool, risk, approval);
    }
  }

  lemma {:induction false} SameApplication(c: Config, rules: seq<Rule>, others: seq<Rule>, agent: string, tool: string,
                                           risk: Risk, approval: bool)
    requires |rules| == |others|
    requires forall i :: 0 <= i < |rules| ==>
               && rules[i].name == others[i].name && rules[i].effect == others[i].effect
               && (AppliesTo(c, rules[i], agent, tool, risk) <==> AppliesTo(c, others[i], agent, tool, risk))
    ensures AfterRules(c, rules, agent, tool, risk, approval) == AfterRules(c, others, agent, tool, risk, approval)
  {
    if rules != [] {
      SameApplication(c, rules[1..], others[1..], agent, tool, risk, approval);
      SameApplication(c, rules[1..], others[1..], agent, tool, risk,
                      approval || rules[0].effect == RequireApproval);
    }
  }

  /** At its minimum risk or above it, a rule decides exactly as it would without a minimum. */
  lemma MinimumRiskMet(c: Config, i: nat, counts: Counts, agent: string, tool: string, args: Arguments)
    requires i < |c.rules| && c.rules[i].minRisk.Some?
    requires tool in c.tools && !Below(c.tools[tool].risk, c.rules[i].minRisk.value)
    ensures var d := c.(rules := c.rules[i := c.rules[i].(minRisk := None)]);
            Evaluated(c, counts, agent, tool, args) == Evaluated(d, counts, agent, tool, args)
  {
    var d := c.(rules := c.rules[i := c.rules[i].(minRisk := None)]);
    if agent in c.agents && tool in c.agents[agent] {
      var risk, approval := c.tools[tool].risk, NeedsApproval(c, c.agents[agent][tool], c.tools[tool]);
      BelowIsOrder(risk, c.rules[i].minRisk.value);
      SameApplication(c, c.rules, d.rules, agent, tool, risk, approval);
      RulesAlone(c, d, d.rules, agent, tool, risk, approval);
    }
  }

  /** Without a minimum, a rule whose patterns match is never overridden by anything more lenient. */
  lemma MatchingRuleBinds(c: Config, i: nat, counts: Counts, agent: string, tool: string, args: Arguments)
    requires i < |c.rules| && c.rules[i].minRisk == None && agent in c.agents
    requires c.glob(tool, c.rules[i].toolPattern) && c.glob(agent, c.rules[i].agentPattern)
    ensures Strictness(Evaluated(c, counts, agent, tool, args).value.effect) >= Strictness(c.rules[i].effect)
  {
    if tool in c.tools {
      EvaluationIsStrictest(c, counts, agent, tool, args);
      var rule, vs := c.rules[i], RuleVerdicts(c, c.rules, agent, tool, c.tools[tool].risk);
      assert RuleVerdict(c, rule, agent, tool, c.tools[tool].risk) == rule.effect;
      assert rule.effect in vs;
      StrictestByMembership(Verdicts(c, c.rules, counts, agent, tool, args));
    }
  }

  /** When the levels that need approval are closed upwards, a riskier tool is never decided more leniently. */
  lemma RiskierIsNoLooser(c: Config, risk: Risk, counts: Counts, agent: string, tool: string, args: Arguments)
    requires agent in c.agents && tool in c.tools && !Below(risk, c.tools[tool].risk)
    requires forall a, b :: a in c.approvalLevels && Below(a, b) ==> b in c.approvalLevels
    ensures var d := c.(tools := c.tools[tool := c.tools[tool].(risk := risk)]);
            Strictness(Evaluated(d, counts, agent, tool, args).value.effect)
            >= Strictness(Evaluated(c, counts, agent, tool, args).value.effect)
  {
    var d := c.(tools := c.tools[tool := c.tools[tool].(risk := risk)]);
    var was, t := c.tools[tool].risk, c.tools[tool];
    BelowIsOrder(risk, was);
    BelowIsOrder(was, risk);
    assert RiskOrder(was) == RiskOrder(risk) ==> was == risk;
    if tool in c.agents[agent] {
      var p := c.agents[agent][tool];
      RulesAlone(d, c, c.rules, agent, tool, risk, NeedsApproval(d, p, d.tools[tool]));
      RulesByEffect(c, c.rules, agent, tool, was, NeedsApproval(c, p, t));
      RulesByEffect(c, c.rules, agent, tool, risk, NeedsApproval(d, p, d.tools[tool]));
      assert forall r :: AppliesTo(c, r, agent, tool, was) ==> AppliesTo(c, r, agent, tool, risk);
    }
  }

  // ---------------------------------------------------------------- call ceilings over runs

  datatype Ask = Ask(agent: string, tool: string, args: Arguments)

  function Counted(counts: Counts, agent: string, tool: string): Counts {
    counts[(agent, tool) := CallsMade(counts, agent, tool) + 1]
  }

  predicate Allowed(c: Config, counts: Counts, a: Ask) {
    EffectOf(Evaluated(c, counts, a.agent, a.tool, a.args)) == Some(Allow)
  }

  /** Evaluate, and record the call when it was allowed outright. */
  function Authorised(c: Config, counts: Counts, a: Ask): Counts {
    if Allowed(c, counts, a) then Counted(counts, a.agent, a.tool) else counts
  }

  function Run(c: Config, counts: Counts, asks: seq<Ask>): Counts {
    if asks == [] then counts else Authorised(c, Run(c, counts, asks[..|asks| - 1]), asks[|asks| - 1])
  }

  /** How many of the requests for one agent and tool were allowed outright. */
  function Allows(c: Config, counts: Counts, asks: seq<Ask>, agent: string, tool: string): nat {
    if asks == [] then 0
    else
      var n := |asks| - 1;
      Allows(c, counts, asks[..n], agent, tool)
      + (if asks[n].agent == agent && asks[n].tool == tool && Allowed(c, Run(c, counts, asks[..n]), asks[n])
          then 1 else 0)
  }

  function Larger(a: int, b: int): int {
    if a >= b then a else b
  }

  /** Over any requests by anyone, a pair's allowed calls are what its tally grew by and never pass its ceiling. */
  lemma {:induction false} AllowsNeverExceedCeiling(c: Config, counts: Counts, asks: seq<Ask>, agent: string,
      tool: string)
    ensures CallsMade(Run(c, counts, asks), agent, tool)
         == CallsMade(counts, agent, tool) + Allows(c, counts, asks, agent, tool)
    ensures agent in c.agents && tool in c.agents[agent] && c.agents[agent][tool].maxCalls.Some? ==>
              CallsMade(Run(c, counts, asks), agent, tool)
              <= Larger(c.agents[agent][tool].maxCalls.value, CallsMade(counts, agent, tool))
  {
    if asks != [] {
      AllowsNeverExceedCeiling(c, counts, asks[..|asks| - 1], agent, tool);
    }
  }

  /** Once the tally has reached the ceiling, every later request of the pair is denied. */
  lemma {:induction false} ExhaustedIsDeniedForever(
    c: Config, counts: Counts, asks: seq<Ask>, agent: string, tool: string, args: Arguments)
    requires agent in c.agents && tool in c.agents[agent] && Exhausted(counts, agent, tool, c.agents[agent][tool])
    ensures EffectOf(Evaluated(c, Run(c, counts, asks), agent, tool, args)) == Some(Deny)
    ensures Allows(c, counts, asks, agent, tool) == 0
  {
    AllowsNeverExceedCeiling(c, counts, asks, agent, tool);
    if asks != [] {
      ExhaustedIsDeniedForever(c, counts, asks[..|asks| - 1], agent, tool, asks[|asks| - 1].args);
    }
  }

  // ---------------------------------------------------------------- approvals on top of the policy

  datatype ApprovalState = Granted | Refused | Undecided

  /** The authoriser the runtime calls: where the policy wants approval, the recorded decision settles the matter. */
  function AfterApproval(policy: Effect, state: ApprovalState): Effect {
    if policy != RequireApproval then policy
    else
      match state
      case Granted => Allow
      case Refused => Deny
      case Undecided => RequireApproval
  }

  /** A call goes through when it is permitted outright, or when it needs an approval and that was granted. */
  lemma ExecutesIff(c: Config, counts: Counts, call: Call)
    ensures Executes(c, counts, call) <==>
            var effect := EffectOf(Evaluated(c, counts, call.ask.agent, call.ask.tool, call.ask.args));
            effect == Some(Allow) || (effect == Some(RequireApproval) && call.approval == Granted)
  {
  }

  /** A request and what is recorded about its approval when it is made. */
  datatype Call = Call(ask: Ask, approval: ApprovalState)

  predicate Executes(c: Config, counts: Counts, call: Call) {
    var policy := EffectOf(Evaluated(c, counts, call.ask.agent, call.ask.tool, call.ask.args));
    policy.Some? && AfterApproval(policy.value, call.approval) == Allow
  }

  function Served(c: Config, calls: seq<Call>): Counts {
    if calls == [] then map[] else Authorised(c, Served(c, calls[..|calls| - 1]), calls[|calls| - 1].ask)
  }

  /** How many calls of one agent to one tool go through, starting from empty tallies. */
  function Executions(c: Config, calls: seq<Call>, agent: string, tool: string): nat {
    if calls == [] then 0
    else
      var before, last := calls[..|calls| - 1], calls[|calls| - 1];
      Executions(c, before, agent, tool)
      + (if last.ask.agent == agent && last.ask.tool == tool && Executes(c, Served(c, before), last) then 1 else 0)
  }

  predicate DeniedByRule(c: Config, agent: string, tool: string, risk: Risk) {
    exists r :: r in c.rules && AppliesTo(c, r, agent, tool, risk) && r.effect == Deny
  }

  predicate AskedByRule(c: Config, agent: string, tool: string, risk: Risk) {
    exists r :: r in c.rules && AppliesTo(c, r, agent, tool, risk) && r.effect == RequireApproval
  }

  /** The configuration sends calls with these arguments to a reviewer, tallies aside. */
  predicate ApprovalGated(c: Config, agent: string, tool: string, args: Arguments)
    requires agent in c.agents
  {
    && tool in c.tools && c.tools[tool].enabled && tool in c.agents[agent]
    && c.agents[agent][tool].effect != Deny
    && !c.violates(c.agents[agent][tool].constraints, args)
    && !DeniedByRule(c, agent, tool, c.tools[tool].risk)
    && (NeedsApproval(c, c.agents[agent][tool], c.tools[tool]) || AskedByRule(c, agent, tool, c.tools[tool].risk))
  }

  lemma {:induction false} RulesByEffect(c: Config, rules: seq<Rule>, agent: string, tool: string, risk: Risk,
      approval: bool)
    ensures var denied := exists r :: r in rules && AppliesTo(c, r, agent, tool, risk) && r.effect == Deny;
            var asked := exists r :: r in rules && AppliesTo(c, r, agent, tool, risk) && r.effect == RequireApproval;
            AfterRules(c, rules, agent, tool, risk, approval).effect
            == if denied then Deny else if approval || asked then RequireApproval else Allow
  {
    if rules != [] {
      var first, rest := rules[0], rules[1..];
      assert rules == [first] + rest;
      RulesByEffect(c, rest, agent, tool, risk,
                    approval || (AppliesTo(c, first, agent, tool, risk) && first.effect == RequireApproval));
    }
  }

  /** The policy asks for approval exactly when the configuration does and the ceiling is not reached. */
  lemma AsksApprovalIff(c: Config, counts: Counts, agent: string, tool: string, args: Arguments)
    requires agent in c.agents
    ensures EffectOf(Evaluated(c, counts, agent, tool, args)) == Some(RequireApproval) <==>
            ApprovalGated(c, agent, tool, args) && !Exhausted(counts, agent, tool, c.agents[agent][tool])
  {
    if tool in c.tools && tool in c.agents[agent] {
      RulesByEffect(c, c.rules, agent, tool, c.tools[tool].risk, NeedsApproval(c, c.agents[agent][tool],
          c.tools[tool]));
    }
  }

  /** A request the configuration sends to a reviewer is never tallied, however often it is repeated. */
  lemma {:induction false} ApprovalGatedCallsAreNotCounted(c: Config, counts: Counts, a: Ask, n: nat)
    requires a.agent in c.agents && ApprovalGated(c, a.agent, a.tool, a.args)
    ensures Run(c, counts, seq(n, _ => a)) == counts
  {
    if n > 0 {
      var asks := seq(n, _ => a);
      assert asks[..n - 1] == seq(n - 1, _ => a);
      ApprovalGatedCallsAreNotCounted(c, counts, a, n - 1);
      GatedIsNotAllowed(c, counts, a);
    }
  }

  lemma GatedIsNotAllowed(c: Config, counts: Counts, a: Ask)
    requires a.agent in c.agents && ApprovalGated(c, a.agent, a.tool, a.args)
    ensures !Allowed(c, counts, a)
  {
    RulesByEffect(c, c.rules, a.agent, a.tool, c.tools[a.tool].risk,
                  NeedsApproval(c, c.agents[a.agent][a.tool], c.tools[a.tool]));
  }

  lemma {:induction false} UngatedExecutions(c: Config, calls: seq<Call>, agent: string, tool: string)
    requires agent in c.agents && tool in c.agents[agent] && c.agents[agent][tool].maxCalls.Some?
    requires c.agents[agent][tool].maxCalls.value >= 1
    requires forall args :: !ApprovalGated(c, agent, tool, args)
    ensures Executions(c, calls, agent, tool)
        == CallsMade(Served(c, calls), agent, tool) <= c.agents[agent][tool].maxCalls.value
  {
    if calls != [] {
      var before, last := calls[..|calls| - 1], calls[|calls| - 1];
      UngatedExecutions(c, before, agent, tool);
      if last.ask.agent == agent && last.ask.tool == tool {
        AsksApprovalIff(c, Served(c, before), agent, tool, last.ask.args);
      }
    }
  }

  lemma {:induction false} GatedExecutions(c: Config, agent: string, tool: string, args: Arguments, n: nat)
    requires agent in c.agents && ApprovalGated(c, agent, tool, args)
    requires c.agents[agent][tool].maxCalls.Some? && c.agents[agent][tool].maxCalls.value >= 1
    ensures var calls := seq(n, _ => Call(Ask(agent, tool, args), Granted));
            Served(c, calls) == map[] && Executions(c, calls, agent, tool) == n
  {
    if n > 0 {
      var call := Call(Ask(agent, tool, args), Granted);
      assert seq(n, _ => call)[..n - 1] == seq(n - 1, _ => call);
      GatedExecutions(c, agent, tool, args, n - 1);
      AsksApprovalIff(c, map[], agent, tool, args);
    }
  }

  /**
   Within one lifetime of the engine, the ceiling bounds the calls that go through exactly when no arguments send the
   pair to a reviewer: otherwise one granted approval lets any number through, as only outright permissions are tallied.
   */
  lemma CeilingBoundsExecutionsIff(c: Config, agent: string, tool: string)
    requires agent in c.agents && tool in c.agents[agent] && c.agents[agent][tool].maxCalls.Some?
    requires c.agents[agent][tool].maxCalls.value >= 1
    ensures (forall calls :: Executions(c, calls, agent, tool) <= c.agents[agent][tool].maxCalls.value) <==>
            forall args :: !ApprovalGated(c, agent, tool, args)
  {
    var limit := c.agents[agent][tool].maxCalls.value;
    if args :| ApprovalGated(c, agent, tool, args) {
      GatedExecutions(c, agent, tool, args, limit + 1);
      assert Executions(c, seq(limit + 1, _ => Call(Ask(agent, tool, args), Granted)), agent, tool) == limit + 1;
    } else {
      forall calls ensures Executions(c, calls, agent, tool) <= limit {
        UngatedExecutions(c, calls, agent, tool);
      }
    }
  }

  /** One permitted call of a tool that is registered as requiring approval. */
  function OneCallOfGuardedTool(): Config {
    Config(map["agent" := map["tool" := Permission(Allow, Some(1), "")]],
           map["tool" := Tool(true, Safe, true)], {}, [], (_, _) => true, (_, _) => false)
  }

  /** There any number of granted calls go through under a ceiling of one. */
  lemma CeilingOfOnePassed(n: nat)
    ensures Executions(OneCallOfGuardedTool(), seq(n, _ => Call(Ask("agent", "tool", map[]), Granted)), "agent",
        "tool") == n
  {
    GatedExecutions(OneCallOfGuardedTool(), "agent", "tool", map[], n);
  }

  // ---------------------------------------------------------------- the engine as mutable state

  class PolicyEngine {
    const config: Config
    var callCounts: Counts

    constructor (config: Config, callCounts: Counts)
      ensures this.config == config && this.callCounts == callCounts
    {
      this.config, this.callCounts := config, callCounts;
    }

    method Evaluate(agent: string, tool: string, args: Arguments) returns (r: Result<Decision, UnknownAgent>)
      ensures r == Evaluated(config, callCounts, agent, tool, args)
    {
      if agent !in config.agents {
        return Err(UnknownAgent(agent));
      }
      if tool !in config.tools {
        return Ok(Decision(Deny, UnknownTool));
      }
      var spec := config.tools[tool];
      if !spec.enabled {
        return Ok(Decision(Deny, ToolDisabled));
      }
      if tool !in config.agents[agent] {
        return Ok(Decision(Deny, Allowlist));
      }
      var permission := config.agents[agent][tool];
      if permission.effect == Deny {
        return Ok(Decision(Deny, PermissionEffect));
      }
      if Exhausted(callCounts, agent, tool, permission) {
        return Ok(Decision(Deny, MaxCalls));
      }
      if config.violates(permission.constraints, args) {
        return Ok(Decision(Deny, ArgumentConstraint));
      }
      var approval := NeedsApproval(config, permission, spec);
      ghost var whole := AfterRules(config, config.rules, agent, tool, spec.risk, approval);
      for i := 0 to |config.rules|
        invariant AfterRules(config, config.rules[i..], agent, tool, spec.risk, approval) == whole
      {
        var rule := config.rules[i];
        assert config.rules[i..][0] == rule && config.rules[i..][1..] == config.rules[i + 1..];
        if !AppliesTo(config, rule, agent, tool, spec.risk) {
          continue;
        }
        if rule.effect == Deny {
          return Ok(Decision(Deny, DeploymentRule(rule.name)));
        }
        if rule.effect == RequireApproval {
          approval := true;
        }
      }
      r := Ok(if approval then Decision(RequireApproval, RiskLayer) else Decision(Allow, Allowlist));
    }

    method RecordCall(agent: string, tool: string) returns (tally: int)
      modifies this
      ensures callCounts == Counted(old(callCounts), agent, tool)
      ensures tally == CallsMade(callCounts, agent, tool)
    {
      tally := CallsMade(callCounts, agent, tool) + 1;
      callCounts := callCounts[(agent, tool) := tally];
    }

    /** What the runtime does with a request: evaluate, then record if it was allowed. */
    method Authorise(a: Ask) returns (r: Result<Decision, UnknownAgent>)
      modifies this
      ensures r == Evaluated(config, old(callCounts), a.agent, a.tool, a.args)
      ensures callCounts == Authorised(config, old(callCounts), a)
    {
      r := Evaluate(a.agent, a.tool, a.args);
      if r.Ok? && r.value.effect == Allow {
        var _ := RecordCall(a.agent, a.tool);
      }
    }

    /** The same with the recorded approval on top, as the agent runtime is given it. */
    method AuthoriseTool(call: Call) returns (effect: Option<Effect>)
      modifies this
      ensures callCounts == Authorised(config, old(callCounts), call.ask)
      ensures effect == Some(Allow) <==> Executes(config, old(callCounts), call)
      ensures effect == None <==> call.ask.agent !in config.agents
      ensures effect == Some(RequireApproval) <==>
              && EffectOf(Evaluated(config, old(callCounts), call.ask.agent, call.ask.tool, call.ask.args))
                 == Some(RequireApproval)
              && call.approval == Undecided
    {
      var decision := Authorise(call.ask);
      effect := if decision.Ok? then Some(AfterApproval(decision.value.effect, call.approval)) else None;
    }
  }
}
