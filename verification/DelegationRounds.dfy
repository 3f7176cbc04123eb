/**
 What the dynamic graph looks like after any number of delegation rounds: rounds stack into layers,
 consecutive layers are completely connected, and everything also points at the terminal node.
 */
module DelegationRounds {
  import opened Outcomes
  import opened Sequences
  import opened Workflows
  import opened Delegation

  /** The graph every dynamic execution starts from. */
  const SEED := Workflow([WorkflowNode(FINAL, TerminalNode, None, "", None)], [], [], true)

  /** Targets of a validated delegate or parallel_delegate decision: at least one, no agent named twice. */
  ghost predicate ValidTargets(targets: seq<Target>) {
    && targets != []
    && (forall t :: t in targets ==> ValidSlug(t.agentId))
    && forall i, j :: 0 <= i < j < |targets| ==> targets[i].agentId != targets[j].agentId
  }

  // ---------------------------------------------------------------- when a round is accepted

  lemma UniqueIdIsAlmostSlug(existing: set<string>, agentId: string)
    requires ValidSlug(agentId)
    ensures ValidSlug(UniqueNodeId(existing, agentId)) <==> |UniqueNodeId(existing, agentId)| <= MAX_SLUG_LENGTH
  {
  }

  /** Any frontier and any fresh ids: the new edges only join known nodes. */
  lemma RoundEdgesKnown(w: Workflow, nodes: seq<WorkflowNode>)
    requires ValidWorkflow(w) && FINAL in Ids(w.nodes)
    ensures EdgesKnown(w.edges + RoundEdges(Frontier(w), Ids(nodes)), Ids(w.nodes + nodes))
  {
    IdsConcat(w.nodes, nodes);
  }

  /** Beyond well-formed ids, the graph only asks that they differ. */
  lemma RoundAcceptedByIds(w: Workflow, targets: seq<Target>)
    requires ValidWorkflow(w) && FINAL in Ids(w.nodes)
    ensures Compiled(w, targets).Ok? <==>
            !(exists n :: n in NewNodes(w, targets) && !ValidSlug(n.id)) && NoDup(Ids(NewNodes(w, targets)))
    ensures Compiled(w, targets).Err? ==>
              Compiled(w, targets).error ==
              if exists n :: n in NewNodes(w, targets) && !ValidSlug(n.id) then InvalidSlug else DuplicateNodeIds
  {
    var nodes := NewNodes(w, targets);
    FreshIds(w, targets);
    RoundEdgesKnown(w, nodes);
    IdsConcat(w.nodes, nodes);
    NoDupConcat(Ids(w.nodes), Ids(nodes));
  }

  /** A round is accepted exactly when its ids fit the slug length and no two collide; the error says which failed. */
  lemma RoundAccepted(w: Workflow, targets: seq<Target>)
    requires ValidWorkflow(w) && FINAL in Ids(w.nodes)
    requires ValidTargets(targets)
    ensures Compiled(w, targets).Ok? <==>
            && (forall t :: t in targets ==> |UniqueNodeId(Existing(w), t.agentId)| <= MAX_SLUG_LENGTH)
            && forall i, j :: 0 <= i < j < |targets| ==>
                 !Shadows(Existing(w), targets[i].agentId, targets[j].agentId)
                 && !Shadows(Existing(w), targets[j].agentId, targets[i].agentId)
    ensures Compiled(w, targets).Err? ==>
              (Compiled(w, targets).error == DuplicateNodeIds <==>
               forall t :: t in targets ==> |UniqueNodeId(Existing(w), t.agentId)| <= MAX_SLUG_LENGTH)
  {
    SlugsFit(w, targets);
    NewIdsDistinct(w, targets);
    RoundAcceptedByIds(w, targets);
  }

  lemma SlugsFit(w: Workflow, targets: seq<Target>)
    requires forall t :: t in targets ==> ValidSlug(t.agentId)
    ensures (exists n :: n in NewNodes(w, targets) && !ValidSlug(n.id)) <==>
            exists t :: t in targets && |UniqueNodeId(Existing(w), t.agentId)| > MAX_SLUG_LENGTH
  {
    var nodes := NewNodes(w, targets);
    forall i | 0 <= i < |targets|
      ensures nodes[i] in nodes
          && (ValidSlug(nodes[i].id) <==> |UniqueNodeId(Existing(w), targets[i].agentId)| <= MAX_SLUG_LENGTH)
    {
      UniqueIdIsAlmostSlug(Existing(w), targets[i].agentId);
    }
  }

  lemma NewIdsDistinct(w: Workflow, targets: seq<Target>)
    requires ValidTargets(targets)
    ensures NoDup(Ids(NewNodes(w, targets))) <==>
            forall i, j :: 0 <= i < j < |targets| ==>
              !Shadows(Existing(w), targets[i].agentId, targets[j].agentId)
              && !Shadows(Existing(w), targets[j].agentId, targets[i].agentId)
  {
    var ids := Ids(NewNodes(w, targets));
    forall i, j | 0 <= i < j < |targets|
      ensures ids[i] == ids[j] <==> Shadows(Existing(w), targets[i].agentId, targets[j].agentId)
                                    || Shadows(Existing(w), targets[j].agentId, targets[i].agentId)
    {
      CollisionCondition(Existing(w), targets[i].agentId, targets[j].agentId);
    }
  }

  lemma FreshIds(w: Workflow, targets: seq<Target>)
    ensures forall x :: x in Ids(w.nodes) ==> x !in Ids(NewNodes(w, targets))
  {
  }

  /** A single-target delegation can only be refused for the length of its id, never as a duplicate. */
  lemma SingleDelegationAccepted(w: Workflow, t: Target)
    requires ValidWorkflow(w) && FINAL in Ids(w.nodes) && ValidSlug(t.agentId)
    ensures Compiled(w, [t]).Ok? <==> |UniqueNodeId(Existing(w), t.agentId)| <= MAX_SLUG_LENGTH
    ensures Compiled(w, [t]).Err? ==> Compiled(w, [t]).error == InvalidSlug
  {
    RoundAccepted(w, [t]);
    var nodes := NewNodes(w, [t]);
    if Compiled(w, [t]).Err? && |nodes[0].id| <= MAX_SLUG_LENGTH {
      assert [t][0] == t;
    }
    UniqueIdIsAlmostSlug(Existing(w), t.agentId);
    assert nodes[0].id == UniqueNodeId(Existing(w), t.agentId);
  }

  lemma SeedRound(a: Target)
    requires ValidSlug(a.agentId) && a.agentId != FINAL
    ensures Compiled(SEED, [a]).Ok?
    ensures var w := Compiled(SEED, [a]).value; ValidWorkflow(w) && Ids(w.nodes) == [FINAL, a.agentId]
  {
    assert Ids(SEED.nodes) == [FINAL];
    SingleDelegationAccepted(SEED, a);
    ExistingIsIds(SEED);
    IdsConcat(SEED.nodes, NewNodes(SEED, [a]));
    assert Ids(NewNodes(SEED, [a])) == [a.agentId];
    SeedIsLayered();
  }

  lemma ExistingIsIds(w: Workflow)
    ensures Existing(w) == set x | x in Ids(w.nodes)
  {
  }

  /**
   Wherever an agent is delegated to again, its id must leave room for a suffix: one of 63 or 64 characters never does.
   */
  lemma LongIdNeverRepeats(w: Workflow, t: Target)
    requires ValidWorkflow(w) && FINAL in Ids(w.nodes) && ValidSlug(t.agentId)
    requires t.agentId in Ids(w.nodes) && |t.agentId| > MAX_SLUG_LENGTH - 2
    ensures Compiled(w, [t]) == Err(InvalidSlug)
  {
    ExistingIsIds(w);
    SingleDelegationAccepted(w, t);
  }

  lemma SecondName(existing: set<string>, agentId: string)
    requires existing == {FINAL, agentId}
    ensures UniqueNodeId(existing, agentId) == Suffixed(agentId, 2)
  {
    assert Suffixed(agentId, 2)[|agentId|] == '-';
    assert forall c :: c in FINAL ==> c != '-';
    assert |Suffixed(agentId, 2)| == |agentId| + 2;
  }

  /** Delegating twice to one agent from the seed is refused exactly when its id leaves no room for the suffix. */
  lemma RepeatAcceptedIff(t: Target)
    requires ValidSlug(t.agentId) && t.agentId != FINAL
    ensures Compiled(SEED, [t]).Ok?
    ensures var second := Compiled(Compiled(SEED, [t]).value, [t]);
            && (second.Ok? <==> |t.agentId| <= MAX_SLUG_LENGTH - 2)
            && (second.Err? ==> second.error == InvalidSlug)
  {
    SeedRound(t);
    var w := Compiled(SEED, [t]).value;
    ExistingIsIds(w);
    assert Ids(w.nodes)[0] == FINAL && Ids(w.nodes)[1] == t.agentId;
    assert Existing(w) == {FINAL, t.agentId};
    SecondName(Existing(w), t.agentId);
    SingleDelegationAccepted(w, t);
  }

  /** Two targets of which one shadows the other are refused as duplicates when the shadowing name fits. */
  lemma ShadowedPairRefused(w: Workflow, t: Target, u: Target)
    requires ValidWorkflow(w) && FINAL in Ids(w.nodes)
    requires ValidTargets([t, u]) && Shadows(Existing(w), t.agentId, u.agentId)
    ensures Compiled(w, [t, u]) == Err(DuplicateNodeIds)
  {
    var targets := [t, u];
    RoundAccepted(w, targets);
    CollisionCondition(Existing(w), t.agentId, u.agentId);
    assert targets[0] == t && targets[1] == u && targets[1] in targets;
    assert UniqueNodeId(Existing(w), u.agentId) == u.agentId;
    assert Compiled(w, targets).Err?;
  }

  /** The collision is reachable: with `a` delegated once, the round naming `a` and `a-2` is refused. */
  lemma CollisionExample()
    ensures var a := Target("a", "x", None);
            var a2 := Target("a-2", "x", None);
            && ValidTargets([a, a2])
            && Compiled(SEED, [a]).Ok?
            && Compiled(Compiled(SEED, [a]).value, [a, a2]) == Err(DuplicateNodeIds)
  {
    var a := Target("a", "x", None);
    var a2 := Target("a-2", "x", None);
    SeedRound(a);
    var w := Compiled(SEED, [a]).value;
    ExistingIsIds(w);
    assert Ids(w.nodes)[0] == FINAL && Ids(w.nodes)[1] == "a";
    assert Suffixed("a", 2) == "a-2";
    assert Shadows(Existing(w), "a", "a-2");
    ShadowedPairRefused(w, a, a2);
  }

  // ---------------------------------------------------------------- what the new nodes run

  /** One decision after another compiled onto the graph; refused as soon as one of them is. */
  function GrownBy(w: Workflow, decisions: seq<seq<Target>>): Result<Workflow, WorkflowError> {
    if decisions == [] then Ok(w)
    else
      match GrownBy(w, decisions[..|decisions| - 1])
      case Err(e) => Err(e)
      case Ok(v) => Compiled(v, decisions[|decisions| - 1])
  }

  lemma GrownByTrans(u: Workflow, first: seq<Target>, v: Workflow, second: seq<Target>, w: Workflow)
    requires GrownByTargets(u, first, v) && GrownByTargets(v, second, w)
    ensures GrownByTargets(u, first + second, w)
  {
    hide RunsTarget;
    forall i | 0 <= i < |first + second| ensures RunsTarget(w.nodes[|u.nodes| + i], (first + second)[i]) {
      if i < |first| {
        assert w.nodes[|u.nodes| + i] == v.nodes[|u.nodes| + i];
      } else {
        assert w.nodes[|u.nodes| + i] == w.nodes[|v.nodes| + (i - |first|)];
      }
    }
  }

  /** After any number of accepted decisions, every node that was not there before runs one target of one of them. */
  lemma {:induction false} NodesRunTargets(w: Workflow, decisions: seq<seq<Target>>)
    requires GrownBy(w, decisions).Ok?
    ensures GrownByTargets(w, Flatten(decisions), GrownBy(w, decisions).value)
  {
    if decisions != [] {
      var n := |decisions| - 1;
      NodesRunTargets(w, decisions[..n]);
      var v := GrownBy(w, decisions[..n]).value;
      RoundRunsTargets(v, decisions[n]);
      GrownByTrans(w, Flatten(decisions[..n]), v, decisions[n], GrownBy(w, decisions).value);
    }
  }

  // ---------------------------------------------------------------- the layered shape

  function Flatten<T(!new)>(rounds: seq<seq<T>>): (flat: seq<T>)
    ensures forall x :: x in flat <==> exists i :: 0 <= i < |rounds| && x in rounds[i]
  {
    if rounds == [] then []
    else
      var n := |rounds| - 1;
      assert forall x :: x in Flatten(rounds[..n]) <==> exists i :: 0 <= i < n && x in rounds[..n][i];
      Flatten(rounds[..n]) + rounds[n]
  }

  ghost predicate LayerEdge(rounds: seq<seq<string>>, e: WorkflowEdge) {
    exists i :: && 0 <= i < |rounds|
                && e.source in rounds[i]
                && (e.target == FINAL || (i + 1 < |rounds| && e.target in rounds[i + 1]))
  }

  /** No round is empty, none holds the terminal node, and no two share a node. */
  ghost predicate Separate(rounds: seq<seq<string>>) {
    && (forall i :: 0 <= i < |rounds| ==> rounds[i] != [] && FINAL !in rounds[i])
    && forall i, j, x :: 0 <= i < |rounds| && 0 <= j < |rounds| && x in rounds[i] && x in rounds[j] ==> i == j
  }

  /** `w` is the terminal node plus `rounds`, wired layer by layer and to the terminal, and nothing else. */
  ghost predicate Layered(w: Workflow, rounds: seq<seq<string>>) {
    && Ids(w.nodes) == [FINAL] + Flatten(rounds)
    && NoDup(Ids(w.nodes))
    && w.entryNodes == []
    && Separate(rounds)
    && (forall e :: e in w.edges <==> LayerEdge(rounds, e))
  }

  lemma SeedIsLayered()
    ensures Layered(SEED, [])
    ensures ValidWorkflow(SEED)
  {
  }

  lemma LayeredIsValid(w: Workflow, rounds: seq<seq<string>>)
    requires Layered(w, rounds)
    ensures ValidWorkflow(w) && FINAL in Ids(w.nodes)
  {
  }

  function LastRound(rounds: seq<seq<string>>): seq<string> {
    if rounds == [] then [] else rounds[|rounds| - 1]
  }

  /** A node has a successor other than the terminal exactly when its round is not the last. */
  lemma BusyIsEarlier(w: Workflow, rounds: seq<seq<string>>, i: nat, x: string)
    requires Layered(w, rounds) && i < |rounds| && x in rounds[i]
    ensures (exists e :: e in w.edges && e.target != FINAL && e.source == x) <==> i + 1 < |rounds|
  {
    if i + 1 < |rounds| {
      var e := WorkflowEdge(x, rounds[i + 1][0]);
      assert e.target in rounds[i + 1] && LayerEdge(rounds, e);
    }
    forall e | e in w.edges && e.target != FINAL && e.source == x ensures i + 1 < |rounds| {
      assert LayerEdge(rounds, e);
    }
  }

  /** The frontier is exactly the last round, in order. */
  lemma FrontierIsLastRound(w: Workflow, rounds: seq<seq<string>>)
    requires Layered(w, rounds)
    ensures Frontier(w) == LastRound(rounds)
  {
    var busy := set e | e in w.edges && e.target != FINAL :: e.source;
    var p := id => id != FINAL && id !in busy;
    if rounds == [] {
      assert Ids(w.nodes) == [FINAL];
    } else {
      var n := |rounds| - 1;
      var before := [FINAL] + Flatten(rounds[..n]);
      LeavesAreLast(w, rounds, busy);
      FilterSuffix(before, rounds[n], p);
      ConcatAssoc([FINAL], Flatten(rounds[..n]), rounds[n]);
    }
  }

  lemma LeavesAreLast(w: Workflow, rounds: seq<seq<string>>, busy: set<string>)
    requires Layered(w, rounds) && rounds != []
    requires busy == set e | e in w.edges && e.target != FINAL :: e.source
    ensures var n := |rounds| - 1;
            && (forall x :: x in Flatten(rounds[..n]) ==> x in busy)
            && (forall x :: x in rounds[n] ==> x != FINAL && x !in busy)
  {
    var n := |rounds| - 1;
    forall x | x in Flatten(rounds[..n]) ensures x in busy {
      var i :| 0 <= i < n && x in rounds[..n][i];
      BusyIsEarlier(w, rounds, i, x);
    }
    forall x | x in rounds[n] ensures x !in busy {
      BusyIsEarlier(w, rounds, n, x);
    }
  }

  /** The edges of one more layer are the old ones, those from the last round into it, and its own to the terminal. */
  lemma LayerEdgeSnoc(rounds: seq<seq<string>>, ids: seq<string>, e: WorkflowEdge)
    ensures LayerEdge(rounds + [ids], e) <==>
            || LayerEdge(rounds, e)
            || (e.source in LastRound(rounds) && e.target in ids)
            || (e.source in ids && e.target == FINAL)
  {
    var more, n := rounds + [ids], |rounds|;
    assert more[n] == ids && forall i :: 0 <= i < n ==> more[i] == rounds[i];
    if LayerEdge(more, e) {
      var i :| 0 <= i <= n && e.source in more[i] && (e.target == FINAL || (i + 1 <= n && e.target in more[i + 1]));
    } else {
      forall i | 0 <= i < n && e.source in rounds[i]
        ensures e.target != FINAL && (i + 1 < n ==> e.target !in rounds[i + 1]) && (i + 1 == n ==> e.target !in ids)
      {
        assert e.source in more[i];
        assert i + 1 < n ==> more[i + 1] == rounds[i + 1];
      }
    }
  }

  lemma EdgesAreLayered(w: Workflow, rounds: seq<seq<string>>, ids: seq<string>)
    requires forall e :: e in w.edges <==> LayerEdge(rounds, e)
    ensures var edges := w.edges + RoundEdges(LastRound(rounds), ids);
            forall e :: e in edges <==> LayerEdge(rounds + [ids], e)
  {
    forall e ensures e in w.edges + RoundEdges(LastRound(rounds), ids) <==> LayerEdge(rounds + [ids], e) {
      LayerEdgeSnoc(rounds, ids, e);
    }
  }

  lemma FlattenSnoc(rounds: seq<seq<string>>, ids: seq<string>)
    ensures [FINAL] + Flatten(rounds + [ids]) == [FINAL] + Flatten(rounds) + ids
  {
  }

  lemma SeparateSnoc(rounds: seq<seq<string>>, ids: seq<string>)
    requires Separate(rounds) && ids != []
    requires forall x :: x in [FINAL] + Flatten(rounds) ==> x !in ids
    ensures Separate(rounds + [ids])
  {
  }

  /** An accepted round is one more layer. */
  lemma RoundAddsLayer(w: Workflow, rounds: seq<seq<string>>, targets: seq<Target>)
    requires Layered(w, rounds) && targets != []
    requires Compiled(w, targets).Ok?
    ensures Layered(Compiled(w, targets).value, rounds + [Ids(NewNodes(w, targets))])
  {
    var nodes := NewNodes(w, targets);
    var ids := Ids(nodes);
    FrontierIsLastRound(w, rounds);
    IdsConcat(w.nodes, nodes);
    FlattenSnoc(rounds, ids);
    NoDupConcat(Ids(w.nodes), ids);
    SeparateSnoc(rounds, ids);
    EdgesAreLayered(w, rounds, ids);
  }

  // ---------------------------------------------------------------- consequences of the shape

  /** The whole shape theorem for one layered graph. */
  lemma LayeredShape(w: Workflow, rounds: seq<seq<string>>)
    requires Layered(w, rounds)
    ensures Acyclic(w)
    ensures forall e :: e in w.edges ==> e.source != FINAL
    ensures forall x :: x in Ids(w.nodes) && x != FINAL ==> WorkflowEdge(x, FINAL) in w.edges
    ensures Frontier(w) == LastRound(rounds)
    ensures forall i, j, x, y :: 0 <= i < j < |rounds| && x in rounds[i] && y in rounds[j] ==> Descends(w, x, y)
    ensures ResolvedEntryNodes(w) == if rounds == [] then [FINAL] else rounds[0]
  {
    LayeredIsAcyclic(w, rounds);
    forall e | e in w.edges ensures e.source != FINAL {
      assert LayerEdge(rounds, e);
    }
    forall x | x in Ids(w.nodes) && x != FINAL ensures WorkflowEdge(x, FINAL) in w.edges {
      var i :| 0 <= i < |rounds| && x in rounds[i];
      assert LayerEdge(rounds, WorkflowEdge(x, FINAL));
    }
    FrontierIsLastRound(w, rounds);
    forall i, j, x, y | 0 <= i < j < |rounds| && x in rounds[i] && y in rounds[j] ensures Descends(w, x, y) {
      LaterRoundsDescend(w, rounds, i, j, x, y);
    }
    EntryIsFirstRound(w, rounds);
  }

  ghost function Rank(rounds: seq<seq<string>>, x: string): int {
    if exists i :: 0 <= i < |rounds| && x in rounds[i] then
      var i :| 0 <= i < |rounds| && x in rounds[i]; i
    else |rounds|
  }

  lemma LayeredIsAcyclic(w: Workflow, rounds: seq<seq<string>>)
    requires Layered(w, rounds)
    ensures Acyclic(w)
  {
    forall e | e in w.edges ensures Rank(rounds, e.source) < Rank(rounds, e.target) {
      assert LayerEdge(rounds, e);
    }
    RankedIsAcyclic(w, x => Rank(rounds, x));
  }

  lemma {:induction false} LaterRoundsDescend(w: Workflow, rounds: seq<seq<string>>, i: nat, j: nat, x: string,
      y: string)
    requires Layered(w, rounds)
    requires i < j < |rounds| && x in rounds[i] && y in rounds[j]
    ensures Descends(w, x, y)
    decreases j - i
  {
    if j == i + 1 {
      assert LayerEdge(rounds, WorkflowEdge(x, y));
      DescendsByEdge(w, x, y);
    } else {
      var mid := rounds[j - 1][0];
      assert mid in rounds[j - 1] && y in rounds[j - 1 + 1];
      LaterRoundsDescend(w, rounds, i, j - 1, x, mid);
      assert LayerEdge(rounds, WorkflowEdge(mid, y));
      DescendsThroughEdge(w, x, mid, y);
    }
  }

  lemma EntryIsFirstRound(w: Workflow, rounds: seq<seq<string>>)
    requires Layered(w, rounds)
    ensures ResolvedEntryNodes(w) == if rounds == [] then [FINAL] else rounds[0]
  {
    var targets := set e | e in w.edges :: e.target;
    var p := x => x !in targets;
    if rounds == [] {
      assert forall e :: e in w.edges ==> LayerEdge(rounds, e);
      FilterAll(Ids(w.nodes), p);
    } else {
      forall e | e in w.edges ensures e.target !in rounds[0] {
        assert LayerEdge(rounds, e);
      }
      assert forall x :: x in rounds[0] ==> p(x);
      var later := Flatten(rounds[1..]);
      FlattenFirst(rounds);
      forall x | x in later ensures !p(x) {
        var i :| 0 <= i < |rounds[1..]| && x in rounds[1..][i];
        assert x in rounds[i + 1] && rounds[i][0] in rounds[i];
        assert LayerEdge(rounds, WorkflowEdge(rounds[i][0], x));
      }
      assert LayerEdge(rounds, WorkflowEdge(rounds[0][0], FINAL)) by {
        assert rounds[0][0] in rounds[0];
      }
      assert WorkflowEdge(rounds[0][0], FINAL).target in targets;
      FilterNone([FINAL], p);
      FilterAll(rounds[0], p);
      FilterNone(later, p);
      FilterConcat(rounds[0], later, p);
      FilterConcat([FINAL], rounds[0] + later, p);
    }
  }

  lemma {:induction false} FlattenFirst(rounds: seq<seq<string>>)
    requires rounds != []
    ensures Flatten(rounds) == rounds[0] + Flatten(rounds[1..])
  {
    var n := |rounds| - 1;
    if n == 0 {
      assert rounds[..0] == [] && rounds[1..] == [];
    } else {
      FlattenFirst(rounds[..n]);
      assert rounds[..n][1..] == rounds[1..][..n - 1];
      assert Flatten(rounds[1..]) == Flatten(rounds[1..][..n - 1]) + rounds[n];
      ConcatAssoc(rounds[0], Flatten(rounds[1..][..n - 1]), rounds[n]);
    }
  }

  // ---------------------------------------------------------------- any number of rounds

  /** Graphs from the seed on, each the accepted result of compiling the next decision onto the one before. */
  ghost predicate Growth(ws: seq<Workflow>, decisions: seq<seq<Target>>) {
    && |ws| == |decisions| + 1
    && ws[0] == SEED
    && forall k :: 0 <= k < |decisions| ==> decisions[k] != [] && Compiled(ws[k], decisions[k]) == Ok(ws[k + 1])
  }

  /** The node ids each of those decisions created. */
  function RoundsOf(ws: seq<Workflow>, decisions: seq<seq<Target>>): (rounds: seq<seq<string>>)
    requires |ws| == |decisions| + 1
    ensures |rounds| == |decisions|
    ensures forall k :: 0 <= k < |decisions| ==> |rounds[k]| == |decisions[k]|
  {
    seq(|decisions|, k requires 0 <= k < |decisions| => Ids(NewNodes(ws[k], decisions[k])))
  }

  lemma {:induction false} GrowthIsLayered(ws: seq<Workflow>, decisions: seq<seq<Target>>, k: nat)
    requires Growth(ws, decisions) && k <= |decisions|
    ensures Layered(ws[k], RoundsOf(ws, decisions)[..k])
  {
    if k == 0 {
      SeedIsLayered();
    } else {
      var rounds := RoundsOf(ws, decisions);
      GrowthIsLayered(ws, decisions, k - 1);
      assert Compiled(ws[k - 1], decisions[k - 1]) == Ok(ws[k - 1 + 1]);
      RoundAddsLayer(ws[k - 1], rounds[..k - 1], decisions[k - 1]);
      assert rounds[..k] == rounds[..k - 1] + [rounds[k - 1]];
    }
  }

  lemma {:induction false} GrowthIsGrownBy(ws: seq<Workflow>, decisions: seq<seq<Target>>, k: nat)
    requires Growth(ws, decisions) && k <= |decisions|
    ensures GrownBy(SEED, decisions[..k]) == Ok(ws[k])
  {
    if k > 0 {
      GrowthIsGrownBy(ws, decisions, k - 1);
      assert decisions[..k][..k - 1] == decisions[..k - 1];
      assert Compiled(ws[k - 1], decisions[k - 1]) == Ok(ws[k - 1 + 1]);
    }
  }

  /** From the seed, the nodes are the terminal and then one per target ever accepted, each running its target. */
  lemma DynamicGraphNodes(ws: seq<Workflow>, decisions: seq<seq<Target>>)
    requires Growth(ws, decisions)
    ensures var w, all := ws[|decisions|], Flatten(decisions);
            && |w.nodes| == 1 + |all| && w.nodes[0] == SEED.nodes[0]
            && forall i :: 0 <= i < |all| ==> RunsTarget(w.nodes[1 + i], all[i])
  {
    hide RunsTarget, Flatten, GrownBy, Compiled;
    GrowthIsGrownBy(ws, decisions, |decisions|);
    assert decisions[..|decisions|] == decisions;
    NodesRunTargets(SEED, decisions);
    assert SEED.nodes[0] == ws[|decisions|].nodes[0];
  }

  /** After any number of accepted rounds the graph has the layered shape, one layer of matching size per decision. */
  lemma DynamicGraphShape(ws: seq<Workflow>, decisions: seq<seq<Target>>)
    requires Growth(ws, decisions)
    ensures var w, rounds := ws[|decisions|], RoundsOf(ws, decisions);
            && Acyclic(w)
            && (forall e :: e in w.edges ==> e.source != FINAL)
            && (forall x :: x in Ids(w.nodes) && x != FINAL ==> WorkflowEdge(x, FINAL) in w.edges)
            && Frontier(w) == LastRound(rounds)
            && (forall i, j, x, y :: 0 <= i < j < |rounds| && x in rounds[i] && y in rounds[j] ==> Descends(w, x, y))
            && ResolvedEntryNodes(w) == (if rounds == [] then [FINAL] else rounds[0])
            && (forall k :: 0 <= k < |decisions| ==> |rounds[k]| == |decisions[k]|)
  {
    var n := |decisions|;
    var rounds := RoundsOf(ws, decisions);
    GrowthIsLayered(ws, decisions, n);
    assert rounds[..n] == rounds;
    LayeredShape(ws[n], rounds);
  }
}
