/**
 Any number of writers appending checkpoints at once. Reading the next sequence number, checking the hash and
 inserting are separate steps of each writer, and any other writer's steps may come between them.
 */
module CheckpointRace {
  import opened Outcomes
  import opened Persistence

  /** How far one writer has got with the checkpoint it wants stored. */
  datatype Progress =
    | Started(wanted: Checkpoint)
    | Numbered(wanted: Checkpoint)
    | Cleared(wanted: Checkpoint)
    | Finished(wanted: Checkpoint, stored: Checkpoint)

  datatype Event =
    | Begin(writer: nat, wanted: Checkpoint)
    | ReadNext(writer: nat)
    | CheckHash(writer: nat)
    | Insert(writer: nat)
    | Crash(writer: nat)

  datatype Race = Race(rows: seq<Checkpoint>, writers: map<nat, Progress>)

  function Step(s: Race, e: Event): Race {
    match e
    case Begin(w, c) => s.(writers := s.writers[w := Started(c)])
    case ReadNext(w) =>
      if w in s.writers && s.writers[w].Started? then
        var c := s.writers[w].wanted;
        s.(writers := s.writers[w := Numbered(c.(sequence := NextSequence(s.rows, c.executionId)))])
      else s
    case CheckHash(w) =>
      if w in s.writers && s.writers[w].Numbered? then
        var c := s.writers[w].wanted;
        var existing := FindByHash(s.rows, c.executionId, c.contentHash);
        s.(writers := s.writers[w := if existing.Some? then Finished(c, existing.value) else Cleared(c)])
      else s
    case Insert(w) =>
      if w in s.writers && s.writers[w].Cleared? then
        var c := s.writers[w].wanted;
        var stored := Inserted(s.rows, c);
        Race(stored.rows, s.writers[w := Finished(c, stored.checkpoint)])
      else s
    case Crash(w) => s.(writers := s.writers - {w})
  }

  function Run(s: Race, events: seq<Event>): Race {
    if events == [] then s else Step(Run(s, events[..|events| - 1]), events[|events| - 1])
  }

  /** Each execution's rows carry the sequence numbers 0, 1, 2, ... in order, and no content twice. */
  ghost predicate Dense(rows: seq<Checkpoint>) {
    forall id :: DenseFor(Of(rows, id))
  }

  ghost predicate DenseFor(mine: seq<Checkpoint>) {
    && (forall i :: 0 <= i < |mine| ==> mine[i].sequence == i)
    && (forall i, j :: 0 <= i < j < |mine| ==> mine[i].contentHash != mine[j].contentHash)
  }

  /** What holds of a writer's progress against the rows as they are now. */
  ghost predicate Sound(rows: seq<Checkpoint>, p: Progress) {
    var c := p.wanted;
    var mine := Of(rows, c.executionId);
    match p
    case Started(_) => true
    case Numbered(_) => c.sequence <= |mine|
    case Cleared(_) =>
      c.sequence <= |mine| && forall i :: 0 <= i < c.sequence ==> mine[i].contentHash != c.contentHash
    case Finished(_, stored) =>
      stored in rows && stored.executionId == c.executionId
      && (stored.contentHash == c.contentHash || stored.sequence == c.sequence)
  }

  ghost predicate Inv(s: Race) {
    Dense(s.rows) && forall w :: w in s.writers ==> Sound(s.rows, s.writers[w])
  }

  lemma {:induction false} MaxOfDense(rows: seq<Checkpoint>, id: string)
    requires DenseFor(Of(rows, id))
    ensures MaxSequence(rows, id) == |Of(rows, id)| - 1
  {
    if rows != [] {
      var before, last := rows[..|rows| - 1], rows[|rows| - 1];
      assert rows == before + [last];
      OfAppend(before, last, id);
      var mine := Of(rows, id);
      var earlier := Of(before, id);
      assert forall i :: 0 <= i < |earlier| ==> earlier[i] == mine[i];
      MaxOfDense(before, id);
      if last.executionId == id {
        assert mine[|earlier|] == last;
      } else {
        assert mine == earlier;
      }
    }
  }

  /** In a dense table the number in use and the position agree. */
  lemma SequenceTaken(rows: seq<Checkpoint>, id: string, n: nat)
    requires DenseFor(Of(rows, id))
    ensures FindBySequence(rows, id, n).Some? <==> n < |Of(rows, id)|
  {
    var mine := Of(rows, id);
    if n < |mine| {
      assert mine[n] in mine && mine[n].sequence == n;
    }
    if FindBySequence(rows, id, n).Some? {
      var r := FindBySequence(rows, id, n).value;
      assert r in mine;
    }
  }

  /** Rows only ever grow at the end, so what was sound of a writer stays sound. */
  lemma SoundPersists(rows: seq<Checkpoint>, c: Checkpoint, p: Progress)
    requires Sound(rows, p)
    ensures Sound(rows + [c], p)
  {
    OfAppend(rows, c, p.wanted.executionId);
  }

  /**
   The heart of it: if the number read earlier is still free, no row has arrived since, so the hash check still holds.
   */
  lemma InsertKeepsDense(rows: seq<Checkpoint>, c: Checkpoint)
    requires Dense(rows) && Sound(rows, Cleared(c))
    ensures Dense(Inserted(rows, c).rows)
    ensures Sound(Inserted(rows, c).rows, Finished(c, Inserted(rows, c).checkpoint))
  {
    var mine := Of(rows, c.executionId);
    SequenceTaken(rows, c.executionId, c.sequence);
    if FindBySequence(rows, c.executionId, c.sequence).None? {
      assert c.sequence == |mine|;
      forall id ensures DenseFor(Of(rows + [c], id)) {
        OfAppend(rows, c, id);
        assert DenseFor(Of(rows, id));
      }
    }
  }

  lemma StepKeepsInv(s: Race, e: Event)
    requires Inv(s)
    ensures Inv(Step(s, e))
    ensures s.rows <= Step(s, e).rows
  {
    match e
    case Begin(_, _) =>
    case ReadNext(w) =>
      if w in s.writers && s.writers[w].Started? {
        MaxOfDense(s.rows, s.writers[w].wanted.executionId);
      }
    case CheckHash(w) =>
      if w in s.writers && s.writers[w].Numbered? {
        var c := s.writers[w].wanted;
        if FindByHash(s.rows, c.executionId, c.contentHash).None? {
          assert forall r :: r in Of(s.rows, c.executionId) ==> r.contentHash != c.contentHash;
        }
      }
    case Insert(w) =>
      if w in s.writers && s.writers[w].Cleared? {
        var c := s.writers[w].wanted;
        InsertKeepsDense(s.rows, c);
        forall v | v in s.writers ensures Sound(Inserted(s.rows, c).rows, s.writers[v]) {
          SoundPersists(s.rows, c, s.writers[v]);
        }
      }
    case Crash(_) =>
  }

  lemma {:induction false} RunKeepsInv(s: Race, events: seq<Event>)
    requires Inv(s)
    ensures Inv(Run(s, events))
    ensures s.rows <= Run(s, events).rows
  {
    if events != [] {
      RunKeepsInv(s, events[..|events| - 1]);
      StepKeepsInv(Run(s, events[..|events| - 1]), events[|events| - 1]);
    }
  }

  const EMPTY := Race([], map[])

  /** Every interleaving of every set of writers, from an empty table. */
  lemma CheckpointLogTheorem(events: seq<Event>)
    ensures var s := Run(EMPTY, events);
            && (forall id, i :: 0 <= i < |Of(s.rows, id)| ==> Of(s.rows, id)[i].sequence == i)
            && (forall id, i, j :: 0 <= i < j < |Of(s.rows, id)| ==>
                  Of(s.rows, id)[i].contentHash != Of(s.rows, id)[j].contentHash)
            && (forall w :: w in s.writers && s.writers[w].Finished? ==>
                  s.writers[w].stored in s.rows
                  && s.writers[w].stored.executionId == s.writers[w].wanted.executionId)
  {
    RunKeepsInv(EMPTY, events);
    var s := Run(EMPTY, events);
    forall id, i | 0 <= i < |Of(s.rows, id)| ensures Of(s.rows, id)[i].sequence == i {
      assert DenseFor(Of(s.rows, id));
    }
    forall id, i, j | 0 <= i < j < |Of(s.rows, id)|
      ensures Of(s.rows, id)[i].contentHash != Of(s.rows, id)[j].contentHash
    {
      assert DenseFor(Of(s.rows, id));
    }
  }

  /** Uninterrupted, the three steps of one writer are exactly the repository's `append` of the numbered row. */
  lemma UninterruptedIsAppend(s: Race, w: nat, c: Checkpoint)
    ensures var numbered := c.(sequence := NextSequence(s.rows, c.executionId));
            var t := Step(Step(Step(Step(s, Begin(w, c)), ReadNext(w)), CheckHash(w)), Insert(w));
            && t.rows == Appended(s.rows, numbered).rows
            && t.writers[w] == Finished(numbered, Appended(s.rows, numbered).checkpoint)
  {
  }
}
