/**
 Any number of writers loading and saving one execution's state row: unconditional saves, as checkpoints make them,
 and version-checked saves. A ghost history lists the writes that landed.
 */
module StateRace {
  import opened Outcomes
  import opened Workflows
  import opened Persistence

  const ID := "execution"

  /** A writer's in-memory state: the version it carries, and how long the history was when it last loaded or saved. */
  datatype Held = Held(version: nat, synced: Option<nat>, state: StateDoc)

  /** One write that landed. For a checked write, `replaced` is the document its writer had last seen stored. */
  datatype Write = Write(version: nat, state: StateDoc, expected: Option<nat>, replaced: Option<StateDoc>)

  datatype Event =
    | Construct(writer: nat, initial: StateDoc)
    | Load(writer: nat)
    | Save(writer: nat, state: StateDoc, workflow: Workflow)
    | SaveChecked(writer: nat, state: StateDoc, workflow: Workflow)
    | Vanish(writer: nat)

  datatype System = System(rows: StateTable, held: map<nat, Held>, history: seq<Write>)

  /** A write lands: the new version is recorded and is what the writer's in-memory state carries from here on. */
  function Landed(s: System, w: nat, rows: StateTable, sent: StateDoc, expected: Option<nat>,
      replaced: Option<StateDoc>)
    : System
    requires ID in rows
  {
    var version := rows[ID].version;
    System(rows,
           s.held[w := Held(version, Some(|s.history| + 1), sent.(version := version))],
           s.history + [Write(version, sent, expected, replaced)])
  }

  /** A save sends the writer's fields but the version it carries; the saved document replaces its in-memory one. */
  function Step(s: System, e: Event): System {
    match e
    case Construct(w, doc) =>
      s.(held := s.held[w := Held(0, None, doc.(version := 0))])
    case Load(w) =>
      (match Loaded(s.rows, ID)
       case None => s
       case Some(found) => s.(held := s.held[w := Held(found.0.version, Some(|s.history|), found.0)]))
    case Save(w, doc, wf) =>
      if w !in s.held then s
      else
        var sent := doc.(version := s.held[w].version);
        Landed(s, w, SavedOver(s.rows, ID, sent, wf), sent, None, None)
    case SaveChecked(w, doc, wf) =>
      if w !in s.held then s
      else
        var sent := doc.(version := s.held[w].version);
        (match SavedIf(s.rows, ID, sent, wf, s.held[w].version)
         case Err(_) => s
         case Ok(rows) => Landed(s, w, rows, sent, Some(s.held[w].version), Some(s.held[w].state)))
    case Vanish(w) => s.(held := s.held - {w})
  }

  /** A refused save says what version was expected and which one, if any, is stored instead; nothing else refuses. */
  lemma ConflictIff(rows: StateTable, id: string, doc: StateDoc, wf: Workflow, expected: nat)
    ensures var stored := if id in rows then Some(rows[id].version) else None;
            SavedIf(rows, id, doc, wf, expected)
            == if stored == Some(expected) then Ok(rows[id := StateRow(expected + 1, doc, wf)])
               else Err(Conflict(expected, stored))
  {
  }

  function Run(events: seq<Event>): System {
    if events == [] then System(map[], map[], []) else Step(Run(events[..|events| - 1]), events[|events| - 1])
  }

  /** The stored document as a load returns it. */
  function AsLoaded(w: Write): StateDoc {
    w.state.(version := w.version)
  }

  ghost predicate HeldSound(history: seq<Write>, h: Held) {
    match h.synced
    case None => h.version == 0
    case Some(n) => 1 <= n <= |history| && h.version == n && h.state == AsLoaded(history[n - 1])
  }

  ghost predicate Inv(s: System) {
    && (ID in s.rows <==> s.history != [])
    && (s.history != [] ==>
          s.rows[ID].version == |s.history| && s.rows[ID].state == s.history[|s.history| - 1].state)
    && (forall i :: 0 <= i < |s.history| ==> s.history[i].version == i + 1)
    && (forall i :: 0 <= i < |s.history| && s.history[i].expected.Some? ==>
          i >= 1 && s.history[i].expected == Some(i) && s.history[i].replaced == Some(AsLoaded(s.history[i - 1])))
    && (forall w :: w in s.held ==> HeldSound(s.history, s.held[w]))
  }

  lemma LandedKeepsInv(s: System, w: nat, rows: StateTable, sent: StateDoc, expected: Option<nat>,
      replaced: Option<StateDoc>)
    requires Inv(s) && ID in rows
    requires rows[ID].version == |s.history| + 1 && rows[ID].state == sent
    requires expected.Some? ==>
               && |s.history| >= 1 && expected == Some(|s.history|)
               && replaced == Some(AsLoaded(s.history[|s.history| - 1]))
    ensures Inv(Landed(s, w, rows, sent, expected, replaced))
  {
    var t := Landed(s, w, rows, sent, expected, replaced);
    assert forall i :: 0 <= i < |s.history| ==> t.history[i] == s.history[i];
    forall v | v in t.held ensures HeldSound(t.history, t.held[v]) {
      if v != w {
        assert HeldSound(s.history, s.held[v]);
      }
    }
  }

  lemma StepKeepsInv(s: System, e: Event)
    requires Inv(s)
    ensures Inv(Step(s, e))
    ensures s.history <= Step(s, e).history
  {
    match e
    case Save(w, doc, wf) =>
      if w in s.held {
        var sent := doc.(version := s.held[w].version);
        LandedKeepsInv(s, w, SavedOver(s.rows, ID, sent, wf), sent, None, None);
      }
    case SaveChecked(w, doc, wf) =>
      if w in s.held {
        var sent := doc.(version := s.held[w].version);
        var saved := SavedIf(s.rows, ID, sent, wf, s.held[w].version);
        if saved.Ok? {
          assert HeldSound(s.history, s.held[w]);
          LandedKeepsInv(s, w, saved.value, sent, Some(s.held[w].version), Some(s.held[w].state));
        }
      }
    case _ =>
  }

  lemma {:induction false} RunInv(events: seq<Event>)
    ensures Inv(Run(events))
  {
    if events != [] {
      RunInv(events[..|events| - 1]);
      StepKeepsInv(Run(events[..|events| - 1]), events[|events| - 1]);
    }
  }

  /**
   At any point of any interleaving, a version-checked save lands exactly when its writer has loaded or saved and no
   write has landed since; otherwise it changes nothing.
   */
  lemma CheckedSaveSucceedsIffUndisturbed(events: seq<Event>, w: nat, doc: StateDoc, wf: Workflow)
    requires w in Run(events).held
    ensures var s := Run(events);
            var t := Step(s, SaveChecked(w, doc, wf));
            && (|t.history| == |s.history| + 1 <==> s.held[w].synced == Some(|s.history|))
            && (s.held[w].synced != Some(|s.history|) ==> t == s)
  {
    RunInv(events);
    assert HeldSound(Run(events).history, Run(events).held[w]);
  }

  /**
   Over any interleaving the stored versions are 1, 2, 3, ..., each written once; a checked write replaced exactly the
   document its writer had last seen; and no two checked writes ever succeeded from the same version.
   */
  lemma VersionsTheorem(events: seq<Event>)
    ensures var h := Run(events).history;
            && (forall i :: 0 <= i < |h| ==> h[i].version == i + 1)
            && (forall i :: 0 <= i < |h| && h[i].expected.Some? ==>
                  i >= 1 && h[i].expected == Some(h[i - 1].version) && h[i].replaced == Some(AsLoaded(h[i - 1])))
            && (forall i, j :: 0 <= i < j < |h| && h[i].expected.Some? ==> h[i].expected != h[j].expected)
  {
    RunInv(events);
  }

  /** Two writers holding the same version: once one checked save lands, the other's is refused until it reloads. */
  lemma OneWinner(events: seq<Event>, v: nat, w: nat, doc: StateDoc, wf: Workflow, doc': StateDoc, wf': Workflow)
    requires v != w && v in Run(events).held && w in Run(events).held
    requires Run(events).held[v].version == Run(events).held[w].version
    ensures var s := Run(events);
            var t := Step(s, SaveChecked(v, doc, wf));
            t != s ==> Step(t, SaveChecked(w, doc', wf')) == t
  {
  }

  /** The writes that have landed since a writer last loaded or saved; all of them, if it never did. */
  function Unseen(s: System, w: nat): seq<Write>
    requires w in s.held && (s.held[w].synced.Some? ==> s.held[w].synced.value <= |s.history|)
  {
    match s.held[w].synced
    case None => s.history
    case Some(n) => s.history[n..]
  }

  /**
   The unconditional path gives no such protection: it lands whatever its writer last saw. It replaces the stored
   document, which is one its writer has not seen exactly when the stored version is not the one it carries, the very
   guard of a checked save; then everything written since goes unread.
   */
  lemma UncheckedSaveLosesUpdateIff(events: seq<Event>, w: nat, doc: StateDoc, wf: Workflow)
    requires w in Run(events).held
    ensures var s := Run(events);
            var t := Step(s, Save(w, doc, wf));
            && |t.history| == |s.history| + 1
            && t.rows[ID].version == |t.history| && t.rows[ID].state.body == doc.body
            && (s.held[w].synced.Some? ==> s.held[w].synced.value <= |s.history|)
            && (Unseen(s, w) != [] <==> ID in s.rows && s.rows[ID].version != s.held[w].version)
            && (Unseen(s, w) != [] <==> s.history != [] && s.held[w].synced != Some(|s.history|))
            && (Unseen(s, w) == [] && s.history != [] ==> s.held[w].state == AsLoaded(s.history[|s.history| - 1]))
  {
    hide Run, SavedOver;
    RunInv(events);
    StepKeepsInv(Run(events), Save(w, doc, wf));
    assert HeldSound(Run(events).history, Run(events).held[w]);
    SaveLands(Run(events), w, doc, wf);
  }

  lemma SaveLands(s: System, w: nat, doc: StateDoc, wf: Workflow)
    requires Inv(s) && w in s.held
    ensures var t := Step(s, Save(w, doc, wf));
            && |t.history| == |s.history| + 1
            && ID in t.rows && t.rows[ID].version == |t.history| && t.rows[ID].state.body == doc.body
  {
  }
}
