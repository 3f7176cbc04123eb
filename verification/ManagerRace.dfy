/**
 Several checkpoint managers whose steps interleave: checking the cache, reading the next number, checking the hash,
 inserting, and then saving the state and caching the hash. What becomes of a manager that loses the race for a number
 is a parameter: it adopts the row that won and goes on to save its own state and cache its own hash, or it raises.
 */
module ManagerRace {
  import opened Outcomes
  import opened Persistence
  import C = CheckpointRace

  datatype Event =
    | Request(manager: nat, wanted: Checkpoint)
    | Advance(step: C.Event)  // one step of some manager's append
    | Finish(manager: nat)    // save the state, commit, and cache the hash

  /** `adopts` says which of the two a loser does; `lost` lists the content of those that went on. */
  datatype System = System(
    adopts: bool, race: C.Race, states: StateTable, caches: map<nat, map<string, Payload>>, lost: seq<Payload>)

  function CacheOf(s: System, w: nat): map<string, Payload> {
    if w in s.caches then s.caches[w] else map[]
  }

  predicate Cached(s: System, w: nat, c: Checkpoint) {
    c.executionId in CacheOf(s, w) && CacheOf(s, w)[c.executionId] == c.contentHash
  }

  /** The insert step in which a manager adopts a row of other content. */
  predicate LosesInsert(race: C.Race, e: C.Event) {
    && e.Insert? && e.writer in race.writers && race.writers[e.writer].Cleared?
    && Inserted(race.rows, race.writers[e.writer].wanted).checkpoint.contentHash
       != race.writers[e.writer].wanted.contentHash
  }

  /** A losing insert leaves the table as it is; a manager that raises on it is gone. */
  function Advanced(s: System, step: C.Event): System {
    var race := C.Step(s.race, step);
    if !LosesInsert(s.race, step) then s.(race := race)
    else if s.adopts then s.(race := race, lost := s.lost + [s.race.writers[step.writer].wanted.contentHash])
    else s.(race := C.Step(race, C.Crash(step.writer)))
  }

  function Step(s: System, e: Event): System {
    match e
    case Request(w, c) => if Cached(s, w, c) then s else s.(race := C.Step(s.race, C.Begin(w, c)))
    case Advance(step) => if step.Begin? then s else Advanced(s, step)
    case Finish(w) =>
      if w !in s.race.writers || !s.race.writers[w].Finished? then s
      else
        var c := s.race.writers[w].wanted;
        s.(race := C.Step(s.race, C.Crash(w)),
           states := SavedOver(s.states, c.executionId, c.state, c.workflow),
           caches := s.caches[w := CacheOf(s, w)[c.executionId := c.contentHash]])
  }

  function Run(adopts: bool, events: seq<Event>): System {
    if events == [] then System(adopts, C.EMPTY, map[], map[], [])
    else Step(Run(adopts, events[..|events| - 1]), events[|events| - 1])
  }

  predicate HasRow(s: System, id: string, hash: Payload) {
    FindByHash(s.race.rows, id, hash).Some?
  }

  /** A manager past its append has its content in the log, or has lost its insert. */
  ghost predicate Accounted(s: System, p: C.Progress) {
    p.Finished? ==>
      || (p.stored.contentHash == p.wanted.contentHash && HasRow(s, p.wanted.executionId, p.wanted.contentHash))
      || p.wanted.contentHash in s.lost
  }

  /** One that adopted other content holds the row under its own number, and no row up to there has its content. */
  ghost predicate LoserPlaced(rows: seq<Checkpoint>, p: C.Progress) {
    p.Finished? && p.stored.contentHash != p.wanted.contentHash ==>
      var c, mine := p.wanted, Of(rows, p.wanted.executionId);
      && c.sequence < |mine| && mine[c.sequence] == p.stored
      && forall i :: 0 <= i <= c.sequence ==> mine[i].contentHash != c.contentHash
  }

  ghost predicate Inv(s: System) {
    && C.Inv(s.race)
    && (forall w :: w in s.race.writers ==>
          Accounted(s, s.race.writers[w]) && LoserPlaced(s.race.rows, s.race.writers[w]))
    && (forall w, id :: w in s.caches && id in s.caches[w] ==>
          HasRow(s, id, s.caches[w][id]) || s.caches[w][id] in s.lost)
    && (!s.adopts ==> s.lost == [])
  }

  lemma RowsStay(a: seq<Checkpoint>, b: seq<Checkpoint>, id: string, hash: Payload)
    requires a <= b && FindByHash(a, id, hash).Some?
    ensures FindByHash(b, id, hash).Some?
  {
    assert FindByHash(a, id, hash).value in b;
  }

  lemma InsertIsAccounted(rows: seq<Checkpoint>, c: Checkpoint)
    ensures var stored := Inserted(rows, c);
            stored.checkpoint.contentHash == c.contentHash ==>
              FindByHash(stored.rows, c.executionId, c.contentHash).Some?
  {
    var stored := Inserted(rows, c);
    var taken := FindBySequence(rows, c.executionId, c.sequence);
    if taken.Some? {
      assert taken.value in rows;
    } else {
      assert c in stored.rows;
    }
  }

  lemma MoverAccounted(s: System, e: C.Event)
    requires C.Inv(s.race) && !e.Begin?
    requires e.writer in s.race.writers && Accounted(s, s.race.writers[e.writer])
    ensures var t := Advanced(s, e); e.writer in t.race.writers ==> Accounted(t, t.race.writers[e.writer])
  {
    if e.Insert? && s.race.writers[e.writer].Cleared? {
      InsertIsAccounted(s.race.rows, s.race.writers[e.writer].wanted);
    }
  }

  lemma LosingInsertPlaced(rows: seq<Checkpoint>, c: Checkpoint)
    requires C.Dense(rows) && C.Sound(rows, C.Cleared(c))
    ensures LoserPlaced(Inserted(rows, c).rows, C.Finished(c, Inserted(rows, c).checkpoint))
  {
    var taken, mine := FindBySequence(rows, c.executionId, c.sequence), Of(rows, c.executionId);
    if taken.Some? {
      assert C.DenseFor(mine);
      assert taken.value in mine;
      var i :| 0 <= i < |mine| && mine[i] == taken.value;
      assert i == c.sequence;
    }
  }

  lemma MoverPlaced(s: System, e: C.Event)
    requires C.Inv(s.race) && !e.Begin?
    requires e.writer in s.race.writers && LoserPlaced(s.race.rows, s.race.writers[e.writer])
    ensures var t := Advanced(s, e);
            e.writer in t.race.writers ==> LoserPlaced(t.race.rows, t.race.writers[e.writer])
  {
    if e.Insert? && s.race.writers[e.writer].Cleared? {
      LosingInsertPlaced(s.race.rows, s.race.writers[e.writer].wanted);
    }
  }

  lemma StaysPlaced(rows: seq<Checkpoint>, more: seq<Checkpoint>, p: C.Progress)
    requires LoserPlaced(rows, p) && rows <= more
    ensures LoserPlaced(more, p)
  {
    OfPrefix(rows, more, p.wanted.executionId);
  }

  /** An execution's rows only grow at the end. */
  lemma {:induction false} OfPrefix(rows: seq<Checkpoint>, more: seq<Checkpoint>, id: string)
    requires rows <= more
    ensures Of(rows, id) <= Of(more, id)
    decreases |more|
  {
    if |rows| < |more| {
      var n := |more| - 1;
      assert more == more[..n] + [more[n]];
      OfPrefix(rows, more[..n], id);
      OfAppend(more[..n], more[n], id);
    } else {
      assert rows == more;
    }
  }

  lemma AdvanceKeepsRace(s: System, e: C.Event)
    requires Inv(s) && !e.Begin?
    ensures var t := Advanced(s, e);
            && C.Inv(t.race) && s.race.rows <= t.race.rows && s.lost <= t.lost && t.caches == s.caches
            && t.adopts == s.adopts
            && (forall w :: w in t.race.writers && w != e.writer ==>
                  w in s.race.writers && t.race.writers[w] == s.race.writers[w])
            && (e.writer in t.race.writers ==> e.writer in s.race.writers)
  {
    hide Of, FindByHash, Accounted, LoserPlaced, C.Dense, C.Sound;
    C.StepKeepsInv(s.race, e);
    if LosesInsert(s.race, e) {
      C.StepKeepsInv(C.Step(s.race, e), C.Crash(e.writer));
    }
  }

  lemma AdvanceKeepsInv(s: System, e: C.Event)
    requires Inv(s) && !e.Begin?
    ensures Inv(Step(s, Advance(e)))
  {
    hide C.Inv;
    var t := Advanced(s, e);
    AdvanceKeepsRace(s, e);
    assert !t.adopts ==> t.lost == [];
    hide Advanced;
    forall w | w in t.race.writers
      ensures Accounted(t, t.race.writers[w]) && LoserPlaced(t.race.rows, t.race.writers[w])
    {
      if w == e.writer {
        MoverAccounted(s, e);
        MoverPlaced(s, e);
      } else {
        StaysAccounted(s, t, s.race.writers[w]);
        StaysPlaced(s.race.rows, t.race.rows, s.race.writers[w]);
      }
    }
    forall w, id | w in t.caches && id in t.caches[w]
      ensures HasRow(t, id, t.caches[w][id]) || t.caches[w][id] in t.lost
    {
      if HasRow(s, id, s.caches[w][id]) {
        RowsStay(s.race.rows, t.race.rows, id, s.caches[w][id]);
      }
    }
  }

  lemma StaysAccounted(s: System, t: System, p: C.Progress)
    requires Accounted(s, p) && s.race.rows <= t.race.rows && s.lost <= t.lost
    ensures Accounted(t, p)
  {
    if p.Finished? && HasRow(s, p.wanted.executionId, p.wanted.contentHash) {
      RowsStay(s.race.rows, t.race.rows, p.wanted.executionId, p.wanted.contentHash);
    }
  }

  lemma StepKeepsInv(s: System, e: Event)
    requires Inv(s)
    ensures Inv(Step(s, e))
  {
    match e
    case Request(w, c) => RequestKeepsInv(s, w, c);
    case Advance(step) =>
      if !step.Begin? {
        AdvanceKeepsInv(s, step);
      }
    case Finish(w) => FinishKeepsInv(s, w);
  }

  lemma RequestKeepsInv(s: System, w: nat, c: Checkpoint)
    requires Inv(s)
    ensures Inv(Step(s, Request(w, c)))
  {
    C.StepKeepsInv(s.race, C.Begin(w, c));
    hide C.Inv, FindByHash, Of;
  }

  lemma FinishKeepsInv(s: System, w: nat)
    requires Inv(s)
    ensures Inv(Step(s, Finish(w)))
  {
    C.StepKeepsInv(s.race, C.Crash(w));
    hide C.Inv, FindByHash, Of, LoserPlaced, SavedOver;
  }

  lemma {:induction false} RunInv(adopts: bool, events: seq<Event>)
    ensures Inv(Run(adopts, events)) && Run(adopts, events).adopts == adopts
  {
    if events != [] {
      RunInv(adopts, events[..|events| - 1]);
      StepKeepsInv(Run(adopts, events[..|events| - 1]), events[|events| - 1]);
    }
  }

  /** However managers interleave, every execution's rows carry 0, 1, 2, ... in order and no content twice. */
  lemma InterleavedLogIsDense(adopts: bool, events: seq<Event>)
    ensures C.Dense(Run(adopts, events).race.rows)
  {
    RunInv(adopts, events);
  }

  /** A cached hash names content with a checkpoint row, unless that content lost an insert and its manager went on. */
  lemma CachedHashHasRow(adopts: bool, events: seq<Event>, w: nat, id: string)
    requires id in CacheOf(Run(adopts, events), w)
    ensures var s, hash := Run(adopts, events), CacheOf(Run(adopts, events), w)[id];
            HasRow(s, id, hash) || (adopts && hash in s.lost)
  {
    RunInv(adopts, events);
  }

  /**
   Before the insert it can be read off the table whether the content will have no row afterwards: exactly when its
   number is taken and no row from that number on carries it.
   */
  lemma InsertLeavesNoRowIff(adopts: bool, events: seq<Event>, w: nat)
    requires w in Run(adopts, events).race.writers && Run(adopts, events).race.writers[w].Cleared?
    ensures var s := Run(adopts, events);
            var c, mine := s.race.writers[w].wanted, Of(s.race.rows, s.race.writers[w].wanted.executionId);
            !HasRow(Step(s, Advance(C.Insert(w))), c.executionId, c.contentHash) <==>
            c.sequence < |mine| && forall i :: c.sequence <= i < |mine| ==> mine[i].contentHash != c.contentHash
  {
    hide Run;
    RunInv(adopts, events);
    var s := Run(adopts, events);
    hide Of, FindByHash, Inserted, Accounted, LoserPlaced, C.Dense;
    ClearedInsert(s.race.rows, s.race.writers[w].wanted);
    assert C.Sound(s.race.rows, s.race.writers[w]);
  }

  lemma ClearedInsert(rows: seq<Checkpoint>, c: Checkpoint)
    requires C.Dense(rows) && C.Sound(rows, C.Cleared(c))
    ensures var mine := Of(rows, c.executionId);
            FindByHash(Inserted(rows, c).rows, c.executionId, c.contentHash).None? <==>
            c.sequence < |mine| && forall i :: c.sequence <= i < |mine| ==> mine[i].contentHash != c.contentHash
  {
    var mine := Of(rows, c.executionId);
    assert C.DenseFor(mine);
    C.SequenceTaken(rows, c.executionId, c.sequence);
    if FindBySequence(rows, c.executionId, c.sequence).Some? {
      RowIff(rows, c);
    } else {
      assert c in rows + [c];
    }
  }

  /** A row with this content is one of the execution's own. */
  lemma RowIff(rows: seq<Checkpoint>, c: Checkpoint)
    ensures var mine := Of(rows, c.executionId);
            FindByHash(rows, c.executionId, c.contentHash).Some? <==>
            exists i :: 0 <= i < |mine| && mine[i].contentHash == c.contentHash
  {
    var mine := Of(rows, c.executionId);
    var found := FindByHash(rows, c.executionId, c.contentHash);
    if found.Some? {
      assert found.value in mine;
    }
    if i :| 0 <= i < |mine| && mine[i].contentHash == c.contentHash {
      assert mine[i] in mine;
    }
  }

  /**
   When a manager finishes, its content is live and cached whatever happened. It has no row exactly when the manager
   adopted other content and no row after the number it lost carries its own.
   */
  lemma FinishedWithoutRowIff(adopts: bool, events: seq<Event>, w: nat)
    requires w in Run(adopts, events).race.writers && Run(adopts, events).race.writers[w].Finished?
    ensures var s := Run(adopts, events);
            var c, stored := s.race.writers[w].wanted, s.race.writers[w].stored;
            var mine, t := Of(s.race.rows, c.executionId), Step(s, Finish(w));
            && t.states[c.executionId].state == c.state && t.states[c.executionId].workflow == c.workflow
            && CacheOf(t, w)[c.executionId] == c.contentHash
            && (!HasRow(t, c.executionId, c.contentHash) <==>
                && stored.contentHash != c.contentHash
                && forall i :: c.sequence < i < |mine| ==> mine[i].contentHash != c.contentHash)
            && (stored.contentHash != c.contentHash ==> c.sequence < |mine| && mine[c.sequence] == stored)
  {
    hide Run;
    RunInv(adopts, events);
    var s := Run(adopts, events);
    var c := s.race.writers[w].wanted;
    RowIff(s.race.rows, c);
    assert Accounted(s, s.race.writers[w]) && LoserPlaced(s.race.rows, s.race.writers[w]);
    AdoptedOwn(s.race.rows, s.race.writers[w]);
  }

  lemma AdoptedOwn(rows: seq<Checkpoint>, p: C.Progress)
    requires C.Sound(rows, p) && p.Finished?
    ensures p.stored.contentHash == p.wanted.contentHash ==>
              FindByHash(rows, p.wanted.executionId, p.wanted.contentHash).Some?
  {
  }

  /** Two managers that read the same number: the second's content is live and cached, and has no row. */
  function Collision(a: Checkpoint, b: Checkpoint): seq<Event> {
    [Request(0, a)] + [Request(1, b)] + [Advance(C.ReadNext(0))] + [Advance(C.ReadNext(1))]
    + [Advance(C.CheckHash(0))] + [Advance(C.CheckHash(1))] + [Advance(C.Insert(0))] + [Advance(C.Insert(1))]
    + [Finish(1)]
  }

  lemma RunSnoc(events: seq<Event>, e: Event)
    ensures Run(true, events + [e]) == Step(Run(true, events), e)
  {
    assert (events + [e])[..|events|] == events;
  }

  lemma CollisionRun(a: Checkpoint, b: Checkpoint)
    ensures Run(true, Collision(a, b)) ==
            Step(Step(Step(Step(Step(Step(Step(Step(Step(Run(true, []), Request(0, a)), Request(1, b)),
              Advance(C.ReadNext(0))), Advance(C.ReadNext(1))), Advance(C.CheckHash(0))), Advance(C.CheckHash(1))),
              Advance(C.Insert(0))), Advance(C.Insert(1))), Finish(1))
  {
    hide Run, Step;
    var es := [Request(0, a)];
    RunSnoc([], Request(0, a));
    assert [] + es == es;
    RunSnoc(es, Request(1, b));
    es := es + [Request(1, b)];
    RunSnoc(es, Advance(C.ReadNext(0)));
    es := es + [Advance(C.ReadNext(0))];
    RunSnoc(es, Advance(C.ReadNext(1)));
    es := es + [Advance(C.ReadNext(1))];
    RunSnoc(es, Advance(C.CheckHash(0)));
    es := es + [Advance(C.CheckHash(0))];
    RunSnoc(es, Advance(C.CheckHash(1)));
    es := es + [Advance(C.CheckHash(1))];
    RunSnoc(es, Advance(C.Insert(0)));
    es := es + [Advance(C.Insert(0))];
    RunSnoc(es, Advance(C.Insert(1)));
    es := es + [Advance(C.Insert(1))];
    RunSnoc(es, Finish(1));
  }

  lemma BothNumbered(a: Checkpoint, b: Checkpoint)
    requires a.executionId == b.executionId
    ensures Step(Step(Step(Step(Run(true, []), Request(0, a)), Request(1, b)), Advance(C.ReadNext(0))),
        Advance(C.ReadNext(1)))
         == System(true, C.Race([], map[0 := C.Numbered(a.(sequence := 0)), 1 := C.Numbered(b.(sequence := 0))]), map[],
             map[], [])
  {
  }

  lemma BothCleared(a: Checkpoint, b: Checkpoint)
    ensures Step(Step(System(true, C.Race([], map[0 := C.Numbered(a), 1 := C.Numbered(b)]), map[], map[], []),
                      Advance(C.CheckHash(0))), Advance(C.CheckHash(1)))
         == System(true, C.Race([], map[0 := C.Cleared(a), 1 := C.Cleared(b)]), map[], map[], [])
  {
  }

  lemma SecondLoses(a: Checkpoint, b: Checkpoint)
    requires a.executionId == b.executionId && a.sequence == b.sequence && a.contentHash != b.contentHash
    ensures Step(Step(System(true, C.Race([], map[0 := C.Cleared(a), 1 := C.Cleared(b)]), map[], map[], []),
                      Advance(C.Insert(0))), Advance(C.Insert(1)))
         == System(true, C.Race([a], map[0 := C.Finished(a, a), 1 := C.Finished(b, a)]), map[], map[], [b.contentHash])
  {
    assert FindBySequence([], a.executionId, a.sequence).None?;
    assert [] + [a] == [a];
    assert FindBySequence([a], b.executionId, b.sequence) == Some(a);
  }

  lemma LoserIsCachedWithoutRow(a: Checkpoint, b: Checkpoint)
    requires a.executionId == b.executionId && a.contentHash != b.contentHash
    ensures var s := Run(true, Collision(a, b));
            && Cached(s, 1, b) && !HasRow(s, b.executionId, b.contentHash)
            && b.executionId in s.states && s.states[b.executionId].state == b.state
  {
    CollisionRun(a, b);
    BothNumbered(a, b);
    BothCleared(a.(sequence := 0), b.(sequence := 0));
    SecondLoses(a.(sequence := 0), b.(sequence := 0));
  }
}
