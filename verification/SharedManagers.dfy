/**
 Several checkpoint managers, each with its own hash cache, over one database: processes that share an execution,
 restart, and lose acknowledgements. When a skipped write was needed after all is stated exactly.
 */
module SharedManagers {
  import opened Outcomes
  import opened Workflows
  import opened Persistence
  import opened CheckpointRace
  import opened CheckpointManagers

  datatype Event =
    | Request(manager: nat, call: Call, acknowledged: bool)
    | Restart(manager: nat)

  /** `deduping` says which of the managers use their cache. */
  datatype Shared = Shared(db: Db, caches: map<nat, map<string, Payload>>, deduping: set<nat>)

  function ManagerOf(s: Shared, w: nat): Manager {
    Manager(s.db, if w in s.caches then s.caches[w] else map[], w in s.deduping)
  }

  function FateOf(e: Event): Fate
    requires e.Request?
  {
    if e.call.Write? && !e.acknowledged then LosesAck else Commits
  }

  function Step(s: Shared, e: Event): Shared {
    match e
    case Request(w, c, _) =>
      var m := CalledWithFate(ManagerOf(s, w), c, FateOf(e));
      s.(db := m.db, caches := s.caches[w := m.lastHash])
    case Restart(w) => s.(caches := s.caches[w := map[]])
  }

  function Run(deduping: set<nat>, events: seq<Event>): Shared {
    if events == [] then Shared(EMPTY_DB, map[], deduping)
    else Step(Run(deduping, events[..|events| - 1]), events[|events| - 1])
  }

  // ---------------------------------------------------------------- the tables

  lemma StepKeepsTables(s: Shared, e: Event)
    requires Dense(s.db.checkpoints) && Backed(s.db)
    ensures Dense(Step(s, e).db.checkpoints) && Backed(Step(s, e).db)
  {
    if e.Request? && e.call.Write? {
      AppendKeepsDense(s.db, e.call);
    }
  }

  /** However managers share it, the log stays dense and free of repeats, and no row lacks a live state. */
  lemma {:induction false} SharedLog(deduping: set<nat>, events: seq<Event>)
    ensures Dense(Run(deduping, events).db.checkpoints) && Backed(Run(deduping, events).db)
  {
    if events != [] {
      SharedLog(deduping, events[..|events| - 1]);
      StepKeepsTables(Run(deduping, events[..|events| - 1]), events[|events| - 1]);
    }
  }

  // ---------------------------------------------------------------- when a write is in the live row

  ghost predicate SameContent(a: Call, b: Call)
    requires a.Write? && b.Write?
  {
    SameDoc(a.state, b.state) && a.workflow == b.workflow
  }

  /** The live row holds what the call writes. */
  ghost predicate Carries(db: Db, c: Call)
    requires c.Write?
  {
    && c.id in db.states
    && SameDoc(db.states[c.id].state, c.state) && db.states[c.id].workflow == c.workflow
  }

  /** After a write whose transaction would commit, the live row holds it unless it was skipped and did not before. */
  lemma WriteLandsIff(s: Shared, e: Event)
    requires e.Request? && e.call.Write? && e.call.commits
    ensures Carries(Step(s, e).db, e.call) <==> !Skips(ManagerOf(s, e.manager), e.call) || Carries(s.db, e.call)
  {
  }

  /** A restarted manager skips nothing, and its restart touches neither the tables nor the other managers. */
  lemma RestartForgets(s: Shared, w: nat, c: Call)
    requires c.Write?
    ensures var t := Step(s, Restart(w));
            && !Skips(ManagerOf(t, w), c) && t.db == s.db
            && forall v :: v != w ==> ManagerOf(t, v) == ManagerOf(s, v)
  {
  }

  /** The event stores a write: not skipped, not rolled back. */
  predicate Stores(s: Shared, e: Event) {
    e.Request? && e.call.Write? && e.call.commits && !Skips(ManagerOf(s, e.manager), e.call)
  }

  /** The last write of an execution that any manager stored. */
  function LastStored(deduping: set<nat>, events: seq<Event>, id: string): (last: Option<Call>)
    ensures last.Some? ==> last.value.Write?
  {
    if events == [] then None
    else
      var before, e := events[..|events| - 1], events[|events| - 1];
      if Stores(Run(deduping, before), e) && e.call.id == id then Some(e.call) else LastStored(deduping, before, id)
  }

  /** The last write of an execution that one manager stored and knows it stored. */
  function LastKnown(deduping: set<nat>, events: seq<Event>, w: nat, id: string): (last: Option<Call>)
    ensures last.Some? ==> last.value.Write?
  {
    if events == [] then None
    else
      var before, e := events[..|events| - 1], events[|events| - 1];
      if Stores(Run(deduping, before), e) && e.manager == w && e.acknowledged && e.call.id == id then Some(e.call)
      else LastKnown(deduping, before, w, id)
  }

  lemma {:induction false} LiveRowIsLastStored(deduping: set<nat>, events: seq<Event>, id: string)
    ensures var db, last := Run(deduping, events).db, LastStored(deduping, events, id);
            && (id in db.states <==> last.Some?)
            && (last.Some? ==> last.value.id == id && Carries(db, last.value))
  {
    if events != [] {
      LiveRowIsLastStored(deduping, events[..|events| - 1], id);
    }
  }

  lemma {:induction false} CacheIsLastKnown(deduping: set<nat>, events: seq<Event>, w: nat, id: string)
    ensures var cache, last := ManagerOf(Run(deduping, events), w).lastHash, LastKnown(deduping, events, w, id);
            id in cache ==> last.Some? && cache[id] == CandidateHash(last.value)
  {
    if events != [] {
      CacheIsLastKnown(deduping, events[..|events| - 1], w, id);
    }
  }

  /**
   A skip repeats the manager's own last acknowledged write, and it is stale, leaving other content in the live row,
   exactly when the last write anyone stored differs from that one: another manager's, or its own whose
   acknowledgement was lost.
   */
  lemma SkipIsStaleIff(deduping: set<nat>, events: seq<Event>, w: nat, c: Call)
    requires c.Write? && Skips(ManagerOf(Run(deduping, events), w), c)
    ensures var stored, known := LastStored(deduping, events, c.id), LastKnown(deduping, events, w, c.id);
            && stored.Some? && known.Some? && SameContent(known.value, c)
            && (!Carries(Run(deduping, events).db, c) <==> !SameContent(stored.value, known.value))
  {
    hide Run, LastStored, LastKnown;
    SharedBacking(deduping, events, w, c.id);
    LiveRowIsLastStored(deduping, events, c.id);
    CacheIsLastKnown(deduping, events, w, c.id);
  }

  /** What a manager has cached was stored by someone. */
  lemma {:induction false} SharedBacking(deduping: set<nat>, events: seq<Event>, w: nat, id: string)
    ensures id in ManagerOf(Run(deduping, events), w).lastHash ==> id in Run(deduping, events).db.states
  {
    if events != [] {
      SharedBacking(deduping, events[..|events| - 1], w, id);
    }
  }

  ghost predicate AloneAndAcknowledged(events: seq<Event>, w: nat) {
    forall e :: e in events && e.Request? ==> e.manager == w && (e.call.Write? ==> e.acknowledged)
  }

  lemma {:induction false} AloneKnowsAll(deduping: set<nat>, events: seq<Event>, w: nat, id: string)
    requires AloneAndAcknowledged(events, w)
    ensures LastStored(deduping, events, id) == LastKnown(deduping, events, w, id)
  {
    if events != [] {
      assert events[|events| - 1] in events;
      AloneKnowsAll(deduping, events[..|events| - 1], w, id);
    }
  }

  /**
   So with one manager whose commits are all acknowledged, restarts or not, every committing write is in the live row.
   */
  lemma AloneNeverStale(deduping: set<nat>, events: seq<Event>, w: nat, c: Call)
    requires AloneAndAcknowledged(events, w) && c.Write? && c.commits
    ensures Carries(Step(Run(deduping, events), Request(w, c, true)).db, c)
  {
    var s := Run(deduping, events);
    WriteLandsIff(s, Request(w, c, true));
    if Skips(ManagerOf(s, w), c) {
      AloneKnowsAll(deduping, events, w, c.id);
      SkipIsStaleIff(deduping, events, w, c);
    }
  }

  /** A second manager's write in between: the first skips a write that was needed. */
  lemma SecondWriterStales(id: string, x: StateDoc, y: StateDoc, wf: Workflow)
    requires x.body != y.body
    ensures var writeX := Write(id, x, wf, RoundCompleted, None, true);
            var writeY := Write(id, y, wf, RoundCompleted, None, true);
            var s := Step(Step(Run({0, 1}, []), Request(0, writeX, true)), Request(1, writeY, true));
            Skips(ManagerOf(s, 0), writeX) && !Carries(Step(s, Request(0, writeX, true)).db, writeX)
  {
  }

  /** A lost acknowledgement does the same to a manager that is alone: going back to x after y is skipped. */
  lemma LostAcknowledgementStales(id: string, x: StateDoc, y: StateDoc, wf: Workflow)
    requires x.body != y.body
    ensures var writeX := Write(id, x, wf, RoundCompleted, None, true);
            var writeY := Write(id, y, wf, RoundCompleted, None, true);
            var s := Step(Step(Run({0}, []), Request(0, writeX, true)), Request(0, writeY, false));
            Skips(ManagerOf(s, 0), writeX) && !Carries(Step(s, Request(0, writeX, true)).db, writeX)
  {
  }
}
