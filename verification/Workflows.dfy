/** The workflow graph: nodes, edges, the validators every construction passes through, and the extension operation. */
module Workflows {
  import opened Outcomes
  import opened Sequences

  const FINAL := "final"  // the synthetic terminal node of a dynamic execution
  const MAX_SLUG_LENGTH := 64

  datatype NodeKind = AgentNode | ToolNode | SupervisorNode | BranchNode | JoinNode | ApprovalNode | TerminalNode

  datatype WorkflowNode = WorkflowNode(
    id: string, kind: NodeKind, agentId: Option<string>, inputTemplate: string, outputKey: Option<string>)

  // Edge ids and labels play no part in the shape of the graph, and delegation only creates unconditional edges.
  datatype WorkflowEdge = WorkflowEdge(source: string, target: string)

  datatype Workflow = Workflow(
    nodes: seq<WorkflowNode>, edges: seq<WorkflowEdge>, entryNodes: seq<string>, dynamicallyGrown: bool)

  datatype WorkflowError =
    | InvalidSlug
    | NoNodes
    | DuplicateNodeIds
    | UnknownEdgeEndpoint
    | UnknownEntryNode

  predicate SlugChar(c: char) {
    'a' <= c <= 'z' || '0' <= c <= '9' || c == '_' || c == '-'
  }

  /** The identifier pattern `[a-z0-9][a-z0-9_-]*` of at most 64 characters. */
  predicate ValidSlug(s: string) {
    1 <= |s| <= MAX_SLUG_LENGTH && s[0] != '_' && s[0] != '-' && forall c :: c in s ==> SlugChar(c)
  }

  function Ids(nodes: seq<WorkflowNode>): (ids: seq<string>)
    ensures |ids| == |nodes|
    ensures forall i :: 0 <= i < |nodes| ==> ids[i] == nodes[i].id
  {
    seq(|nodes|, i requires 0 <= i < |nodes| => nodes[i].id)
  }

  lemma IdsConcat(a: seq<WorkflowNode>, b: seq<WorkflowNode>)
    ensures Ids(a + b) == Ids(a) + Ids(b)
  {
  }

  predicate EdgesKnown(edges: seq<WorkflowEdge>, ids: seq<string>) {
    forall e :: e in edges ==> e.source in ids && e.target in ids
  }

  /** The three model validators together with the field constraint that a workflow has a node. */
  predicate ValidWorkflow(w: Workflow) {
    && w.nodes != []
    && NoDup(Ids(w.nodes))
    && EdgesKnown(w.edges, Ids(w.nodes))
    && forall x :: x in w.entryNodes ==> x in Ids(w.nodes)
  }

  /** Validation as the constructor performs it: the first failing validator decides the error. */
  function Validated(w: Workflow): (r: Result<Workflow, WorkflowError>)
    ensures r.Ok? <==> ValidWorkflow(w)
    ensures r.Ok? ==> r.value == w
  {
    if w.nodes == [] then Err(NoNodes)
    else if !NoDup(Ids(w.nodes)) then Err(DuplicateNodeIds)
    else if !EdgesKnown(w.edges, Ids(w.nodes)) then Err(UnknownEdgeEndpoint)
    else if exists x :: x in w.entryNodes && x !in Ids(w.nodes) then Err(UnknownEntryNode)
    else Ok(w)
  }

  /** Which complaint a graph draws: each names the first of the four things that is wrong with it. */
  lemma ComplaintIff(w: Workflow)
    ensures var repeated := exists i, j :: 0 <= i < j < |w.nodes| && w.nodes[i].id == w.nodes[j].id;
            var dangling := exists e :: e in w.edges
                              && ((forall n :: n in w.nodes ==> n.id != e.source)
                                  || (forall n :: n in w.nodes ==> n.id != e.target));
            var astray := exists x :: x in w.entryNodes && forall n :: n in w.nodes ==> n.id != x;
            Validated(w) == if w.nodes == [] then Err(NoNodes)
                            else if repeated then Err(DuplicateNodeIds)
                            else if dangling then Err(UnknownEdgeEndpoint)
                            else if astray then Err(UnknownEntryNode)
                            else Ok(w)
  {
    forall x ensures x in Ids(w.nodes) <==> exists n :: n in w.nodes && n.id == x {
      if n :| n in w.nodes && n.id == x {
        var i :| 0 <= i < |w.nodes| && w.nodes[i] == n;
        assert Ids(w.nodes)[i] == x;
      }
    }
    assert NoDup(Ids(w.nodes)) <==>
      !exists i, j :: 0 <= i < j < |w.nodes| && w.nodes[i].id == w.nodes[j].id;
  }

  predicate Alphanumeric(c: char) {
    'a' <= c <= 'z' || '0' <= c <= '9'
  }

  /** The identifier pattern as one letter or digit followed by letters, digits, underscores and hyphens. */
  lemma SlugPattern(s: string)
    ensures ValidSlug(s) <==>
            && |s| <= MAX_SLUG_LENGTH
            && exists first, rest :: s == [first] + rest && Alphanumeric(first) && SlugTail(rest)
  {
    if ValidSlug(s) {
      assert s == [s[0]] + s[1..];
      assert SlugChar(s[0]) && forall c :: c in s[1..] ==> c in s && SlugChar(c);
      assert Alphanumeric(s[0]) && SlugTail(s[1..]);
    }
    if first, rest :| s == [first] + rest && Alphanumeric(first) && SlugTail(rest) {
      assert s[0] == first && forall c :: c in s ==> c == first || c in rest;
      assert forall c :: c in s ==> SlugChar(c);
    }
  }

  predicate SlugTail(s: string) {
    forall c :: c in s ==> Alphanumeric(c) || c == '_' || c == '-'
  }

  /** A validated copy with nodes and edges appended; the receiver is left as it was. */
  function ExtendedWith(w: Workflow, nodes: seq<WorkflowNode>, edges: seq<WorkflowEdge>)
    : Result<Workflow, WorkflowError>
  {
    Validated(Workflow(w.nodes + nodes, w.edges + edges, w.entryNodes, true))
  }

  /** Declared entry points, or every node no edge points at. */
  function ResolvedEntryNodes(w: Workflow): seq<string> {
    if w.entryNodes != [] then w.entryNodes
    else
      var targets := set e | e in w.edges :: e.target;
      Filter(Ids(w.nodes), x => x !in targets)
  }

  /** An execution enters at the declared nodes, and without any at exactly the nodes nothing leads to. */
  lemma EntryNodesIff(w: Workflow, x: string)
    ensures x in ResolvedEntryNodes(w) <==>
            if w.entryNodes != [] then x in w.entryNodes
            else x in Ids(w.nodes) && forall e :: e in w.edges ==> e.target != x
    ensures w.entryNodes != [] ==> ResolvedEntryNodes(w) == w.entryNodes
  {
    if w.entryNodes == [] {
      var targets := set e | e in w.edges :: e.target;
      assert x in ResolvedEntryNodes(w) <==> x in Ids(w.nodes) && x !in targets;
    }
  }

  /** A walk along edges, given by the nodes it visits. */
  ghost predicate IsPath(w: Workflow, p: seq<string>) {
    p != [] && forall k :: 0 <= k < |p| - 1 ==> WorkflowEdge(p[k], p[k + 1]) in w.edges
  }

  ghost predicate Descends(w: Workflow, ancestor: string, node: string) {
    exists p :: |p| >= 2 && IsPath(w, p) && p[0] == ancestor && p[|p| - 1] == node
  }

  ghost predicate Acyclic(w: Workflow) {
    forall x :: !Descends(w, x, x)
  }

  lemma DescendsByEdge(w: Workflow, x: string, y: string)
    requires WorkflowEdge(x, y) in w.edges
    ensures Descends(w, x, y)
  {
    assert IsPath(w, [x, y]);
  }

  lemma DescendsThroughEdge(w: Workflow, x: string, y: string, z: string)
    requires Descends(w, x, y) && WorkflowEdge(y, z) in w.edges
    ensures Descends(w, x, z)
  {
    var p :| |p| >= 2 && IsPath(w, p) && p[0] == x && p[|p| - 1] == y;
    var q := p + [z];
    forall k | 0 <= k < |q| - 1 ensures WorkflowEdge(q[k], q[k + 1]) in w.edges {
      if k < |p| - 1 {
        assert q[k] == p[k] && q[k + 1] == p[k + 1];
      }
    }
    assert IsPath(w, q);
  }

  /** A graph whose every edge climbs in some ranking has no cycle. */
  lemma RankedIsAcyclic(w: Workflow, rank: string -> int)
    requires forall e :: e in w.edges ==> rank(e.source) < rank(e.target)
    ensures Acyclic(w)
  {
    forall x ensures !Descends(w, x, x) {
      forall p | |p| >= 2 && IsPath(w, p) ensures p[0] != p[|p| - 1] {
        RankClimbs(w, rank, p);
      }
    }
  }

  lemma {:induction false} RankClimbs(w: Workflow, rank: string -> int, p: seq<string>)
    requires forall e :: e in w.edges ==> rank(e.source) < rank(e.target)
    requires |p| >= 2 && IsPath(w, p)
    ensures rank(p[0]) < rank(p[|p| - 1])
  {
    var last := WorkflowEdge(p[|p| - 2], p[|p| - 1]);
    assert last == WorkflowEdge(p[|p| - 2], p[|p| - 2 + 1]) && last in w.edges;
    if |p| > 2 {
      var q := p[..|p| - 1];
      assert forall k :: 0 <= k < |q| ==> q[k] == p[k];
      RankClimbs(w, rank, q);
    }
  }
}
