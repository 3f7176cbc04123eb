/**
 The supervisor's delegations compiled into graph growth: naming a new node, finding the frontier,
 wiring a round, and what any number of rounds leaves behind.
 */
module Delegation {
  import opened Outcomes
  import opened Sequences
  import opened Decimals
  import opened Workflows

  datatype Target = Target(agentId: string, instruction: string, outputKey: Option<string>)

  // ---------------------------------------------------------------- node ids

  function Suffixed(agentId: string, k: nat): string {
    agentId + "-" + Decimal(k)
  }

  /** A suffixed id determines both halves: decimals carry no hyphen, so the last hyphen splits it. */
  lemma SuffixedInjective(a: string, b: string, j: nat, k: nat)
    requires Suffixed(a, j) == Suffixed(b, k)
    ensures a == b && j == k
  {
    var s := Suffixed(a, j);
    var dj, dk := Decimal(j), Decimal(k);
    assert s[|a|] == s[|b|] == '-';
    forall i | |a| < i < |s| ensures s[i] != '-' { assert s[i] == dj[i - |a| - 1] && s[i] in dj; }
    forall i | |b| < i < |s| ensures s[i] != '-' { assert s[i] == dk[i - |b| - 1] && s[i] in dk; }
    assert |a| == |b|;
    assert a == s[..|a|] == b;
    assert dj == s[|a| + 1..] == dk;
    DecimalInjective(j, k);
  }

  /** The ids already present among `agentId-k`, `agentId-(k+1)`, ...: a finite set that shrinks as `k` passes one. */
  ghost function TakenFrom(existing: set<string>, agentId: string, k: nat): set<string> {
    set x | x in existing && exists j: nat :: j >= k && x == Suffixed(agentId, j)
  }

  lemma TakenShrinks(existing: set<string>, agentId: string, k: nat)
    requires Suffixed(agentId, k) in existing
    ensures TakenFrom(existing, agentId, k + 1) < TakenFrom(existing, agentId, k)
  {
    var x := Suffixed(agentId, k);
    assert x in TakenFrom(existing, agentId, k);
    if x in TakenFrom(existing, agentId, k + 1) {
      var j: nat :| j >= k + 1 && x == Suffixed(agentId, j);
      SuffixedInjective(agentId, agentId, j, k);
      assert false;
    }
  }

  ghost predicate IsSmallestFree(existing: set<string>, agentId: string, from: nat, k: nat) {
    && k >= from
    && Suffixed(agentId, k) !in existing
    && forall j: nat :: from <= j < k ==> Suffixed(agentId, j) in existing
  }

  function SmallestFree(existing: set<string>, agentId: string, k: nat): (free: nat)
    ensures IsSmallestFree(existing, agentId, k, free)
    decreases TakenFrom(existing, agentId, k)
  {
    if Suffixed(agentId, k) !in existing then k
    else
      TakenShrinks(existing, agentId, k);
      SmallestFree(existing, agentId, k + 1)
  }

  function UniqueNodeId(existing: set<string>, agentId: string): (id: string)
    ensures id !in existing
  {
    if agentId !in existing then agentId else Suffixed(agentId, SmallestFree(existing, agentId, 2))
  }

  /** The search loop itself: it ends on every graph, because each taken candidate uses up one existing id. */
  method FindUniqueNodeId(existing: set<string>, agentId: string) returns (candidate: string)
    ensures candidate !in existing
    ensures agentId !in existing ==> candidate == agentId
    ensures agentId in existing ==>
              exists k: nat :: IsSmallestFree(existing, agentId, 2, k) && candidate == Suffixed(agentId, k)
    ensures candidate == UniqueNodeId(existing, agentId)
  {
    candidate := agentId;
    var suffix: nat := 2;
    while candidate in existing
      invariant suffix >= 2
      invariant suffix == 2 ==> candidate == agentId
      invariant suffix > 2 ==> agentId in existing && candidate == Suffixed(agentId, suffix - 1)
      invariant forall j: nat :: 2 <= j < suffix - 1 ==> Suffixed(agentId, j) in existing
      decreases if suffix == 2 then 1 else 0, TakenFrom(existing, agentId, if suffix == 2 then 2 else suffix - 1)
    {
      if suffix > 2 {
        TakenShrinks(existing, agentId, suffix - 1);
      }
      candidate := Suffixed(agentId, suffix);
      suffix := suffix + 1;
    }
    if agentId in existing {
      SmallestFreeUnique(existing, agentId, suffix - 1, SmallestFree(existing, agentId, 2));
    }
  }

  lemma SmallestFreeUnique(existing: set<string>, agentId: string, j: nat, k: nat)
    requires IsSmallestFree(existing, agentId, 2, j) && IsSmallestFree(existing, agentId, 2, k)
    ensures j == k
  {
  }

  /** `b` is free but is exactly the next suffixed name of the taken `a`. */
  ghost predicate Shadows(existing: set<string>, a: string, b: string) {
    && a in existing && b !in existing
    && exists k: nat :: k >= 2 && b == Suffixed(a, k) && forall j: nat :: 2 <= j < k ==> Suffixed(a, j) in existing
  }

  /** Two agents of one round receive the same id exactly when one is the other's next suffixed name. */
  lemma CollisionCondition(existing: set<string>, a: string, b: string)
    requires a != b
    ensures UniqueNodeId(existing, a) == UniqueNodeId(existing, b)
       <==> Shadows(existing, a, b) || Shadows(existing, b, a)
  {
    CollisionOneWay(existing, a, b);
    CollisionOneWay(existing, b, a);
    if UniqueNodeId(existing, a) == UniqueNodeId(existing, b) && a in existing && b in existing {
      SuffixedInjective(a, b, SmallestFree(existing, a, 2), SmallestFree(existing, b, 2));
    }
  }

  lemma CollisionOneWay(existing: set<string>, a: string, b: string)
    requires a != b
    ensures a in existing && b !in existing ==>
              (UniqueNodeId(existing, a) == UniqueNodeId(existing, b) <==> Shadows(existing, a, b))
    ensures a in existing && b in existing ==> !Shadows(existing, a, b)
  {
  }

  // ---------------------------------------------------------------- compiling one round

  function Existing(w: Workflow): set<string> {
    set n | n in w.nodes :: n.id
  }

  /** Nodes with no outgoing edge except possibly to the terminal: where the next round attaches. */
  function Frontier(w: Workflow): seq<string> {
    var hasRealSuccessor := set e | e in w.edges && e.target != FINAL :: e.source;
    Filter(Ids(w.nodes), id => id != FINAL && id !in hasRealSuccessor)
  }

  function OutputKey(t: Target): string {
    if t.outputKey.Some? && t.outputKey.value != "" then t.outputKey.value else t.agentId
  }

  function NewNode(w: Workflow, t: Target): WorkflowNode {
    WorkflowNode(UniqueNodeId(Existing(w), t.agentId), AgentNode, Some(t.agentId), t.instruction, Some(OutputKey(t)))
  }

  function NewNodes(w: Workflow, targets: seq<Target>): seq<WorkflowNode> {
    seq(|targets|, i requires 0 <= i < |targets| => NewNode(w, targets[i]))
  }

  function EdgesInto(frontier: seq<string>, id: string): seq<WorkflowEdge> {
    seq(|frontier|, i requires 0 <= i < |frontier| => WorkflowEdge(frontier[i], id)) + [WorkflowEdge(id, FINAL)]
  }

  function RoundEdges(frontier: seq<string>, ids: seq<string>): (edges: seq<WorkflowEdge>)
    ensures forall e :: e in edges <==>
                          (e.source in frontier && e.target in ids) || (e.source in ids && e.target == FINAL)
  {
    if ids == [] then []
    else
      var n := |ids| - 1;
      assert ids == ids[..n] + [ids[n]];
      EdgesIntoMembers(frontier, ids[n]);
      RoundEdges(frontier, ids[..n]) + EdgesInto(frontier, ids[n])
  }

  lemma EdgesIntoMembers(frontier: seq<string>, id: string)
    ensures forall e :: e in EdgesInto(frontier, id) <==>
                          (e.source in frontier && e.target == id) || e == WorkflowEdge(id, FINAL)
  {
    var edges := EdgesInto(frontier, id);
    assert edges[|frontier|] == WorkflowEdge(id, FINAL);
    forall e: WorkflowEdge | e.source in frontier && e.target == id ensures e in edges {
      var i :| 0 <= i < |frontier| && frontier[i] == e.source;
      assert edges[i] == e;
    }
  }

  /**
   A delegate or parallel_delegate decision as graph growth; a node whose id is no slug is refused on construction.
   */
  function Compiled(w: Workflow, targets: seq<Target>): Result<Workflow, WorkflowError> {
    var nodes := NewNodes(w, targets);
    if exists n :: n in nodes && !ValidSlug(n.id) then Err(InvalidSlug)
    else ExtendedWith(w, nodes, RoundEdges(Frontier(w), Ids(nodes)))
  }

  /** `n` is an agent node for the target's agent, under that agent's id or a suffix of it, given its instruction. */
  ghost predicate RunsTarget(n: WorkflowNode, t: Target) {
    && n.kind == AgentNode && n.agentId == Some(t.agentId) && n.inputTemplate == t.instruction
    && n.outputKey == Some(if t.outputKey in {None, Some("")} then t.agentId else t.outputKey.value)
    && (n.id == t.agentId || exists k: nat :: k >= 2 && n.id == Suffixed(t.agentId, k))
  }

  /** The graph `w` with one node more per target, in order, and everything that was there kept in front. */
  ghost predicate GrownByTargets(w: Workflow, targets: seq<Target>, v: Workflow) {
    && |v.nodes| == |w.nodes| + |targets| && w.nodes <= v.nodes
    && (forall i :: 0 <= i < |targets| ==> RunsTarget(v.nodes[|w.nodes| + i], targets[i]))
    && w.edges <= v.edges && v.entryNodes == w.entryNodes && (w.dynamicallyGrown ==> v.dynamicallyGrown)
  }

  /** An accepted round keeps the nodes before it and adds one per target, which runs that target. */
  lemma RoundRunsTargets(w: Workflow, targets: seq<Target>)
    requires Compiled(w, targets).Ok?
    ensures GrownByTargets(w, targets, Compiled(w, targets).value)
    ensures Compiled(w, targets).value.dynamicallyGrown
  {
    hide RunsTarget, NewNode, Frontier, RoundEdges, ValidSlug;
    var nodes := NewNodes(w, targets);
    forall i | 0 <= i < |targets| ensures RunsTarget((w.nodes + nodes)[|w.nodes| + i], targets[i]) {
      NewNodeRuns(w, targets[i]);
    }
  }

  lemma NewNodeRuns(w: Workflow, t: Target)
    ensures RunsTarget(NewNode(w, t), t)
  {
  }

  /** A node leads nowhere yet, or only to the terminal. */
  ghost predicate AtEnd(w: Workflow, id: string) {
    id in Ids(w.nodes) && id != FINAL && forall e :: e in w.edges && e.source == id ==> e.target == FINAL
  }

  /** An accepted round hangs every new node behind each node at the end of the graph and before the terminal. */
  lemma RoundWiring(w: Workflow, targets: seq<Target>, e: WorkflowEdge)
    requires Compiled(w, targets).Ok?
    ensures var v := Compiled(w, targets).value;
            var added := Ids(v.nodes[|w.nodes|..]);
            e in v.edges <==>
            || e in w.edges
            || (AtEnd(w, e.source) && e.target in added)
            || (e.source in added && e.target == FINAL)
  {
    var nodes := NewNodes(w, targets);
    assert (w.nodes + nodes)[|w.nodes|..] == nodes;
    var busy := set e | e in w.edges && e.target != FINAL :: e.source;
    assert e.source in Frontier(w) <==> e.source in Ids(w.nodes) && e.source != FINAL && e.source !in busy;
  }

  method CompileDelegation(w: Workflow, targets: seq<Target>) returns (r: Result<Workflow, WorkflowError>)
    ensures r == Compiled(w, targets)
    ensures r.Ok? ==> GrownByTargets(w, targets, r.value)
  {
    var frontier := Frontier(w);
    var nodes := CreateNodes(w, targets);
    if nodes.None? {
      return Err(InvalidSlug);
    }
    var edges := CompileRoundEdges(frontier, Ids(nodes.value));
    r := ExtendedWith(w, nodes.value, edges);
    if r.Ok? {
      RoundRunsTargets(w, targets);
    }
  }

  method CreateNodes(w: Workflow, targets: seq<Target>) returns (created: Option<seq<WorkflowNode>>)
    ensures created.None? <==> exists n :: n in NewNodes(w, targets) && !ValidSlug(n.id)
    ensures created.Some? ==> created.value == NewNodes(w, targets)
  {
    var existing := Existing(w);
    ghost var all := NewNodes(w, targets);
    var nodes: seq<WorkflowNode> := [];
    for i := 0 to |targets|
      invariant nodes == all[..i]
      invariant forall n :: n in nodes ==> ValidSlug(n.id)
    {
      var t := targets[i];
      var id := FindUniqueNodeId(existing, t.agentId);
      nodes := nodes + [WorkflowNode(id, AgentNode, Some(t.agentId), t.instruction, Some(OutputKey(t)))];
      assert nodes[i] == all[i];
      if !ValidSlug(id) {
        return None;
      }
    }
    created := Some(nodes);
  }

  method CompileRoundEdges(frontier: seq<string>, ids: seq<string>) returns (edges: seq<WorkflowEdge>)
    ensures edges == RoundEdges(frontier, ids)
  {
    edges := [];
    for i := 0 to |ids|
      invariant edges == RoundEdges(frontier, ids[..i])
    {
      assert ids[..i + 1][..i] == ids[..i];
      edges := edges + EdgesInto(frontier, ids[i]);
    }
    assert ids[..|ids|] == ids;
  }
}
