/**
 The checkpoint manager: every write stores a checkpoint row and the live state row in one transaction, and a cache
 of the last hash per execution skips writes that would change nothing. The cached manager is shown to refine the
 uncached one.
 */
module CheckpointManagers {
  import opened Outcomes
  import opened Workflows
  import opened Executions
  import opened Persistence
  import opened CheckpointRace

  datatype Db = Db(checkpoints: seq<Checkpoint>, states: StateTable)

  datatype Manager = Manager(db: Db, lastHash: map<string, Payload>, dedupe: bool)

  /** A call on the manager. `commits` says whether the write's transaction reaches its commit or is rolled back. */
  datatype Call =
    | Write(id: string, state: StateDoc, workflow: Workflow, reason: CheckpointReason, nodeId: Option<string>,
            commits: bool)
    | Forget(id: string)

  function CandidateHash(c: Call): Payload
    requires c.Write?
  {
    ComputeHash(c.id, 0, c.reason, c.state.status, c.nodeId, c.state, c.workflow)
  }

  predicate Skips(m: Manager, c: Call)
    requires c.Write?
  {
    m.dedupe && c.id in m.lastHash && m.lastHash[c.id] == CandidateHash(c)
  }

  function Stamped(db: Db, c: Call): Checkpoint
    requires c.Write?
  {
    Checkpoint(c.id, NextSequence(db.checkpoints, c.id), c.reason, c.state.status, c.nodeId, c.state, c.workflow,
               CandidateHash(c))
  }

  /** The transaction: append the checkpoint row, then overwrite the live state row. */
  function Committed(db: Db, c: Call): Db
    requires c.Write?
  {
    Db(Appended(db.checkpoints, Stamped(db, c)).rows, SavedOver(db.states, c.id, c.state, c.workflow))
  }

  function Called(m: Manager, c: Call): Manager {
    match c
    case Forget(id) => m.(lastHash := m.lastHash - {id})
    case Write(id, _, _, _, _, commits) =>
      if Skips(m, c) || !commits then m
      else Manager(Committed(m.db, c), m.lastHash[id := CandidateHash(c)], m.dedupe)
  }

  function Run(m: Manager, calls: seq<Call>): Manager {
    if calls == [] then m else Called(Run(m, calls[..|calls| - 1]), calls[|calls| - 1])
  }

  const EMPTY_DB := Db([], map[])

  function New(dedupe: bool): Manager {
    Manager(EMPTY_DB, map[], dedupe)
  }

  // ---------------------------------------------------------------- resume

  datatype ResumeError = NothingPersisted | AlreadyFinished(status: Status)

  datatype ResumeContext = ResumeContext(state: StateDoc, workflow: Workflow, checkpoint: Checkpoint)

  predicate IsResumable(s: Status) {
    s in {Pending, Running, WaitingForApproval}
  }

  /** The newest row (in insertion order) whose status can be restarted from. */
  function LatestResumable(rows: seq<Checkpoint>, id: string): (found: Option<Checkpoint>) {
    if rows == [] then None
    else
      var last := rows[|rows| - 1];
      if last.executionId == id && IsResumable(last.status) then Some(last)
      else LatestResumable(rows[..|rows| - 1], id)
  }

  function Synthesised(id: string, state: StateDoc, workflow: Workflow): Checkpoint {
    Checkpoint(id, 0, ExecutionStarted, state.status, None, state, workflow,
               ComputeHash(id, 0, ExecutionStarted, state.status, None, state, workflow))
  }

  function Resume(db: Db, id: string): Result<ResumeContext, ResumeError> {
    var checkpoint := LatestResumable(db.checkpoints, id);
    match Loaded(db.states, id)
    case Some(live) =>
      if IsTerminal(live.0.status) then Err(AlreadyFinished(live.0.status))
      else
        Ok(ResumeContext(live.0, live.1,
                         if checkpoint.Some? then checkpoint.value else Synthesised(id, live.0, live.1)))
    case None =>
      if checkpoint.None? then Err(NothingPersisted)
      else if IsTerminal(checkpoint.value.status) then Err(AlreadyFinished(checkpoint.value.status))
      else Ok(ResumeContext(checkpoint.value.state, checkpoint.value.workflow, checkpoint.value))
  }

  // ---------------------------------------------------------------- equality up to bookkeeping

  ghost predicate SameDoc(a: StateDoc, b: StateDoc) {
    a.status == b.status && a.body == b.body
  }

  ghost predicate SameRow(a: Checkpoint, b: Checkpoint) {
    SameDoc(a.state, b.state) && a == b.(state := a.state)
  }

  ghost predicate SameRows(a: seq<Checkpoint>, b: seq<Checkpoint>) {
    |a| == |b| && forall i :: 0 <= i < |a| ==> SameRow(a[i], b[i])
  }

  ghost predicate SameStates(a: StateTable, b: StateTable) {
    a.Keys == b.Keys && forall id :: id in a ==> SameDoc(a[id].state, b[id].state) && a[id].workflow == b[id].workflow
  }

  ghost predicate SameDb(a: Db, b: Db) {
    SameRows(a.checkpoints, b.checkpoints) && SameStates(a.states, b.states)
  }

  ghost predicate SameCall(a: Call, b: Call) {
    match (a, b)
    case (Forget(i), Forget(j)) => i == j
    case (Write(_, _, _, _, _, _), Write(_, _, _, _, _, _)) => SameDoc(a.state, b.state) && a == b.(state := a.state)
    case _ => false
  }

  ghost predicate SameResume(a: Result<ResumeContext, ResumeError>, b: Result<ResumeContext, ResumeError>) {
    match (a, b)
    case (Ok(x), Ok(y)) => SameDoc(x.state, y.state) && x.workflow == y.workflow && SameRow(x.checkpoint, y.checkpoint)
    case (Err(x), Err(y)) => x == y
    case _ => false
  }

  // ---------------------------------------------------------------- the manager's own invariant

  /** A cached hash names content that is in the log and is what the live row still holds. */
  ghost predicate CacheSound(m: Manager) {
    forall id :: id in m.lastHash ==>
      && m.lastHash[id].executionId == id
      && FindByHash(m.db.checkpoints, id, m.lastHash[id]).Some?
      && id in m.db.states
      && m.db.states[id].state.status == m.lastHash[id].stateStatus
      && m.db.states[id].state.body == m.lastHash[id].stateBody
      && m.db.states[id].workflow == m.lastHash[id].workflow
  }

  /** No checkpoint row without a live state row. */
  ghost predicate Backed(db: Db) {
    forall c :: c in db.checkpoints ==> c.executionId in db.states
  }

  ghost predicate Inv(m: Manager) {
    CacheSound(m) && Backed(m.db) && Dense(m.db.checkpoints)
  }

  /** A single writer's number is always the next free one, so its append never loses a race. */
  lemma AppendKeepsDense(db: Db, c: Call)
    requires c.Write? && Dense(db.checkpoints)
    ensures var r := Appended(db.checkpoints, Stamped(db, c));
            && Dense(r.rows)
            && db.checkpoints <= r.rows
            && (forall x :: x in r.rows ==> x in db.checkpoints || x == Stamped(db, c))
            && r.checkpoint in r.rows && r.checkpoint.contentHash == CandidateHash(c)
            && r.checkpoint.executionId == c.id
  {
    var s := Stamped(db, c);
    assert DenseFor(Of(db.checkpoints, c.id));
    MaxOfDense(db.checkpoints, c.id);
    if FindByHash(db.checkpoints, c.id, s.contentHash).None? {
      assert forall r :: r in Of(db.checkpoints, c.id) ==> r.contentHash != s.contentHash;
      SequenceTaken(db.checkpoints, c.id, s.sequence);
      InsertKeepsDense(db.checkpoints, s);
    }
  }

  lemma FoundInLonger(a: seq<Checkpoint>, b: seq<Checkpoint>, id: string, hash: Payload)
    requires a <= b && FindByHash(a, id, hash).Some?
    ensures FindByHash(b, id, hash).Some?
  {
  }

  lemma CalledKeepsInv(m: Manager, c: Call)
    requires Inv(m)
    ensures Inv(Called(m, c))
  {
    if c.Write? && !Skips(m, c) && c.commits {
      AppendKeepsDense(m.db, c);
      var after := Called(m, c);
      forall id | id in after.lastHash
        ensures FindByHash(after.db.checkpoints, id, after.lastHash[id]).Some?
      {
        if id != c.id {
          FoundInLonger(m.db.checkpoints, after.db.checkpoints, id, m.lastHash[id]);
        }
      }
    }
  }

  lemma {:induction false} RunKeepsInv(m: Manager, calls: seq<Call>)
    requires Inv(m)
    ensures Inv(Run(m, calls))
  {
    if calls != [] {
      RunKeepsInv(m, calls[..|calls| - 1]);
      CalledKeepsInv(Run(m, calls[..|calls| - 1]), calls[|calls| - 1]);
    }
  }

  lemma NewInv(dedupe: bool)
    ensures Inv(New(dedupe))
  {
  }

  // ---------------------------------------------------------------- refinement

  lemma {:induction false} SameFirst(a: seq<Checkpoint>, b: seq<Checkpoint>, id: string, hash: Payload)
    requires SameRows(a, b)
    ensures match (FindByHash(a, id, hash), FindByHash(b, id, hash))
            case (None, None) => true
            case (Some(x), Some(y)) => SameRow(x, y)
            case _ => false
  {
    if a != [] && !(a[0].executionId == id && a[0].contentHash == hash) {
      SameFirst(a[1..], b[1..], id, hash);
    }
  }

  lemma {:induction false} SameMax(a: seq<Checkpoint>, b: seq<Checkpoint>, id: string)
    requires SameRows(a, b)
    ensures MaxSequence(a, id) == MaxSequence(b, id)
  {
    if a != [] {
      SameMax(a[..|a| - 1], b[..|b| - 1], id);
    }
  }

  lemma SameCommit(a: Db, b: Db, c: Call, d: Call)
    requires Dense(a.checkpoints) && Dense(b.checkpoints)
    requires SameDb(a, b) && c.Write? && SameCall(c, d)
    ensures SameDb(Committed(a, c), Committed(b, d))
  {
    var s, t := Stamped(a, c), Stamped(b, d);
    SameMax(a.checkpoints, b.checkpoints, c.id);
    SameFirst(a.checkpoints, b.checkpoints, c.id, s.contentHash);
    assert SameRow(s, t);
    if FindByHash(a.checkpoints, c.id, s.contentHash).None? {
      assert DenseFor(Of(a.checkpoints, c.id)) && DenseFor(Of(b.checkpoints, c.id));
      MaxOfDense(a.checkpoints, c.id);
      MaxOfDense(b.checkpoints, c.id);
      SequenceTaken(a.checkpoints, c.id, s.sequence);
      SequenceTaken(b.checkpoints, c.id, t.sequence);
    }
  }

  /** Committing what a skip would have skipped changes nothing but bookkeeping. */
  lemma SkippedCommitIsIdle(m: Manager, b: Db, c: Call, d: Call)
    requires CacheSound(m) && c.Write? && Skips(m, c)
    requires SameDb(m.db, b) && SameCall(c, d)
    ensures SameDb(m.db, Committed(b, d))
  {
    SameFirst(m.db.checkpoints, b.checkpoints, c.id, CandidateHash(c));
  }

  lemma CallRefines(m: Manager, p: Manager, c: Call, d: Call)
    requires Inv(m) && Inv(p) && !p.dedupe
    requires SameDb(m.db, p.db) && SameCall(c, d)
    ensures SameDb(Called(m, c).db, Called(p, d).db)
  {
    if c.Write? {
      if Skips(m, c) {
        SkippedCommitIsIdle(m, p.db, c, d);
      } else {
        SameCommit(m.db, p.db, c, d);
      }
    }
  }

  /**
   For any calls, and any differences in the version and timestamp fields the two callers carry, the cached and the
   uncached manager leave the same checkpoint log and the same live rows up to that bookkeeping.
   */
  lemma {:induction false} CacheRefines(calls: seq<Call>, plain: seq<Call>)
    requires |calls| == |plain| && forall i :: 0 <= i < |calls| ==> SameCall(calls[i], plain[i])
    ensures SameDb(Run(New(true), calls).db, Run(New(false), plain).db)
  {
    if calls != [] {
      var n := |calls| - 1;
      CacheRefines(calls[..n], plain[..n]);
      NewInv(true);
      NewInv(false);
      RunKeepsInv(New(true), calls[..n]);
      RunKeepsInv(New(false), plain[..n]);
      NeverDedupes(plain[..n]);
      CallRefines(Run(New(true), calls[..n]), Run(New(false), plain[..n]), calls[n], plain[n]);
    }
  }

  lemma {:induction false} NeverDedupes(calls: seq<Call>)
    ensures !Run(New(false), calls).dedupe
  {
    if calls != [] {
      NeverDedupes(calls[..|calls| - 1]);
    }
  }

  lemma {:induction false} SameLatest(a: seq<Checkpoint>, b: seq<Checkpoint>, id: string)
    requires SameRows(a, b)
    ensures match (LatestResumable(a, id), LatestResumable(b, id))
            case (None, None) => true
            case (Some(x), Some(y)) => SameRow(x, y)
            case _ => false
  {
    if a != [] {
      SameLatest(a[..|a| - 1], b[..|b| - 1], id);
    }
  }

  /** Resume cannot tell the two managers apart. */
  lemma ResumeRefines(calls: seq<Call>, plain: seq<Call>, id: string)
    requires |calls| == |plain| && forall i :: 0 <= i < |calls| ==> SameCall(calls[i], plain[i])
    ensures SameResume(Resume(Run(New(true), calls).db, id), Resume(Run(New(false), plain).db, id))
  {
    CacheRefines(calls, plain);
    SameLatest(Run(New(true), calls).db.checkpoints, Run(New(false), plain).db.checkpoints, id);
  }

  /** The last write of an execution whose transaction would commit. */
  function LastWrite(calls: seq<Call>, id: string): (last: Option<Call>)
    ensures last.Some? ==> last.value.Write?
  {
    if calls == [] then None
    else
      var c := calls[|calls| - 1];
      if c.Write? && c.commits && c.id == id then Some(c) else LastWrite(calls[..|calls| - 1], id)
  }

  /** With or without the cache, the live row is the last write's state and workflow, and there is one only then. */
  lemma {:induction false} LiveRowIsLastWrite(dedupe: bool, calls: seq<Call>, id: string)
    ensures var states, last := Run(New(dedupe), calls).db.states, LastWrite(calls, id);
            && (id in states <==> last.Some?)
            && (last.Some? ==>
                  SameDoc(states[id].state, last.value.state) && states[id].workflow == last.value.workflow)
  {
    if calls != [] {
      var n := |calls| - 1;
      hide Appended, Stamped, Dense, FindByHash, Backed;
      LiveRowIsLastWrite(dedupe, calls[..n], id);
      NewInv(dedupe);
      RunKeepsInv(New(dedupe), calls[..n]);
    }
  }

  /** No row lacks a live state; so resume sees the last write, and its checkpoint-only branch is never reached. */
  lemma ResumeSeesLastWrite(dedupe: bool, calls: seq<Call>, id: string)
    ensures var db, last := Run(New(dedupe), calls).db, LastWrite(calls, id);
            && (forall c :: c in db.checkpoints ==> c.executionId in db.states)
            && (LatestResumable(db.checkpoints, id).Some? ==> Loaded(db.states, id).Some?)
            && match Resume(db, id)
               case Err(NothingPersisted) => last == None
               case Err(AlreadyFinished(status)) => last.Some? && last.value.state.status == status
                   && IsTerminal(status)
               case Ok(ctx) =>
                 last.Some? && !IsTerminal(last.value.state.status)
                 && SameDoc(ctx.state, last.value.state) && ctx.workflow == last.value.workflow
  {
    NewInv(dedupe);
    RunKeepsInv(New(dedupe), calls);
    LiveRowIsLastWrite(dedupe, calls, id);
    LatestIsRow(Run(New(dedupe), calls).db.checkpoints, id);
  }

  lemma {:induction false} LatestIsRow(rows: seq<Checkpoint>, id: string)
    ensures var found := LatestResumable(rows, id);
            found.Some? ==> found.value in rows && found.value.executionId == id && IsResumable(found.value.status)
  {
    if rows != [] {
      LatestIsRow(rows[..|rows| - 1], id);
    }
  }

  /** A row of this execution from which it can be restarted. */
  ghost predicate CanRestart(rows: seq<Checkpoint>, id: string, c: Checkpoint) {
    c in rows && c.executionId == id && IsResumable(c.status)
  }

  /** In a dense log the row found is the one of the highest sequence number among those. */
  lemma {:induction false} LatestIsHighest(rows: seq<Checkpoint>, id: string)
    requires DenseFor(Of(rows, id))
    ensures match LatestResumable(rows, id)
            case None => forall c :: !CanRestart(rows, id, c)
            case Some(found) =>
              CanRestart(rows, id, found) && forall c :: CanRestart(rows, id, c) ==> c.sequence <= found.sequence
  {
    if rows != [] {
      var before, last := rows[..|rows| - 1], rows[|rows| - 1];
      assert rows == before + [last];
      OfAppend(before, last, id);
      var mine, earlier := Of(rows, id), Of(before, id);
      assert forall i :: 0 <= i < |earlier| ==> earlier[i] == mine[i];
      LatestIsHighest(before, id);
      assert forall c :: CanRestart(rows, id, c) <==>
        CanRestart(before, id, c) || (c == last && last.executionId == id && IsResumable(last.status));
      assert LatestResumable(rows, id)
          == if last.executionId == id && IsResumable(last.status) then Some(last) else LatestResumable(before, id);
      hide LatestResumable, Of, IsResumable;
      if last.executionId == id {
        assert mine[|earlier|] == last;
        assert forall c :: c in before && c.executionId == id ==> c in earlier by {
          OfMembers(before, id);
        }
      }
    }
  }

  /** The checkpoint a resume reports: the restartable row of the highest number, and a made-up one only without any. */
  lemma ResumeReportsHighest(db: Db, id: string)
    requires Dense(db.checkpoints) && Resume(db, id).Ok?
    ensures var ctx := Resume(db, id).value;
            if exists c :: CanRestart(db.checkpoints, id, c)
            then CanRestart(db.checkpoints, id, ctx.checkpoint)
                 && forall c :: CanRestart(db.checkpoints, id, c) ==> c.sequence <= ctx.checkpoint.sequence
            else ctx.checkpoint.reason == ExecutionStarted && ctx.checkpoint.sequence == 0
                 && ctx.checkpoint.executionId == id && ctx.checkpoint.status == ctx.state.status
                 && ctx.checkpoint.state == ctx.state && ctx.checkpoint.workflow == ctx.workflow
                 && ctx.checkpoint !in db.checkpoints
  {
    hide LatestResumable;
    assert DenseFor(Of(db.checkpoints, id));
    LatestIsHighest(db.checkpoints, id);
    if LatestResumable(db.checkpoints, id).None? && IsResumable(Resume(db, id).value.state.status) {
      assert !CanRestart(db.checkpoints, id, Resume(db, id).value.checkpoint);
    }
  }

  /** What a hash is taken of: everything of the write but the state's version and time stamp. */
  lemma HashIdentifies(c: Call, d: Call)
    requires c.Write? && d.Write?
    ensures CandidateHash(c) == CandidateHash(d) <==>
            && c.id == d.id && c.reason == d.reason && c.nodeId == d.nodeId && c.workflow == d.workflow
            && SameDoc(c.state, d.state)
  {
  }

  /** The row holds what the call writes, whatever version and time stamp its state was stored with. */
  ghost predicate Logs(row: Checkpoint, c: Call)
    requires c.Write?
  {
    && row.executionId == c.id && row.reason == c.reason && row.nodeId == c.nodeId && row.workflow == c.workflow
    && row.status == c.state.status && SameDoc(row.state, c.state)
  }

  /** Each row stands for some committed write, and its hash is that write's. */
  ghost predicate RowsAreWrites(rows: seq<Checkpoint>, calls: seq<Call>) {
    forall r :: r in rows ==>
      exists c :: c in calls && c.Write? && c.commits && Logs(r, c) && r.contentHash == CandidateHash(c)
  }

  lemma LogsByHash(r: Checkpoint, c: Call, d: Call)
    requires c.Write? && d.Write? && Logs(r, c) && CandidateHash(c) == CandidateHash(d)
    ensures Logs(r, d)
  {
  }

  lemma CallKeepsRowsAreWrites(m: Manager, calls: seq<Call>, c: Call)
    requires Inv(m) && RowsAreWrites(m.db.checkpoints, calls)
    ensures RowsAreWrites(Called(m, c).db.checkpoints, calls + [c])
  {
    hide Dense;
    var all := calls + [c];
    forall r | r in m.db.checkpoints
      ensures exists d :: d in all && d.Write? && d.commits && Logs(r, d) && r.contentHash == CandidateHash(d)
    {
      var d :| d in calls && d.Write? && d.commits && Logs(r, d) && r.contentHash == CandidateHash(d);
      assert d in all;
    }
    if c.Write? && !Skips(m, c) && c.commits {
      AppendKeepsDense(m.db, c);
      assert c in all && Logs(Stamped(m.db, c), c);
    }
  }

  lemma {:induction false} RunRowsAreWrites(dedupe: bool, calls: seq<Call>)
    ensures Inv(Run(New(dedupe), calls)) && RowsAreWrites(Run(New(dedupe), calls).db.checkpoints, calls)
  {
    NewInv(dedupe);
    RunKeepsInv(New(dedupe), calls);
    if calls != [] {
      var n := |calls| - 1;
      RunRowsAreWrites(dedupe, calls[..n]);
      CallKeepsRowsAreWrites(Run(New(dedupe), calls[..n]), calls[..n], calls[n]);
      assert calls == calls[..n] + [calls[n]];
    }
  }

  lemma CommitIsFound(m: Manager, c: Call)
    requires Inv(m) && c.Write? && c.commits
    ensures FindByHash(Called(m, c).db.checkpoints, c.id, CandidateHash(c)).Some?
  {
    if !Skips(m, c) {
      AppendKeepsDense(m.db, c);
      assert Appended(m.db.checkpoints, Stamped(m.db, c)).checkpoint in Called(m, c).db.checkpoints;
    }
  }

  lemma CallKeepsRows(m: Manager, c: Call)
    requires Inv(m)
    ensures m.db.checkpoints <= Called(m, c).db.checkpoints
  {
    if c.Write? {
      AppendKeepsDense(m.db, c);
    }
  }

  lemma {:induction false} CommitsAreFound(dedupe: bool, calls: seq<Call>, i: nat)
    requires i < |calls| && calls[i].Write? && calls[i].commits
    ensures FindByHash(Run(New(dedupe), calls).db.checkpoints, calls[i].id, CandidateHash(calls[i])).Some?
  {
    var n := |calls| - 1;
    var m := Run(New(dedupe), calls[..n]);
    NewInv(dedupe);
    RunKeepsInv(New(dedupe), calls[..n]);
    if i == n {
      CommitIsFound(m, calls[n]);
    } else {
      CommitsAreFound(dedupe, calls[..n], i);
      CallKeepsRows(m, calls[n]);
      FoundInLonger(m.db.checkpoints, Run(New(dedupe), calls).db.checkpoints, calls[i].id, CandidateHash(calls[i]));
    }
  }

  /** With or without the cache, the log holds every committed write, skipped ones included, and nothing else. */
  lemma LogIsCommittedWrites(dedupe: bool, calls: seq<Call>)
    ensures var rows := Run(New(dedupe), calls).db.checkpoints;
            && (forall i :: 0 <= i < |calls| && calls[i].Write? && calls[i].commits ==>
                  exists r :: r in rows && Logs(r, calls[i]))
            && (forall r :: r in rows ==>
                  exists i :: 0 <= i < |calls| && calls[i].Write? && calls[i].commits && Logs(r, calls[i]))
  {
    hide Run, Logs, CandidateHash;
    var rows := Run(New(dedupe), calls).db.checkpoints;
    RunRowsAreWrites(dedupe, calls);
    forall i | 0 <= i < |calls| && calls[i].Write? && calls[i].commits
      ensures exists r :: r in rows && Logs(r, calls[i])
    {
      CommitsAreFound(dedupe, calls, i);
      var r := FindByHash(rows, calls[i].id, CandidateHash(calls[i])).value;
      var c :| c in calls && c.Write? && c.commits && Logs(r, c) && r.contentHash == CandidateHash(c);
      LogsByHash(r, c, calls[i]);
    }
  }

  /** The write the cache stands for: the last committed one of this execution since it was last forgotten. */
  function Remembered(calls: seq<Call>, id: string): (last: Option<Call>)
    ensures last.Some? ==> last.value.Write?
  {
    if calls == [] then None
    else
      match calls[|calls| - 1]
      case Forget(other) => if other == id then None else Remembered(calls[..|calls| - 1], id)
      case Write(other, _, _, _, _, commits) =>
        if other == id && commits then Some(calls[|calls| - 1]) else Remembered(calls[..|calls| - 1], id)
  }

  lemma {:induction false} CacheIsRemembered(dedupe: bool, calls: seq<Call>, id: string)
    ensures var m, last := Run(New(dedupe), calls), Remembered(calls, id);
            && m.dedupe == dedupe
            && (id in m.lastHash <==> last.Some?)
            && (last.Some? ==> m.lastHash[id] == CandidateHash(last.value))
  {
    hide Committed, CandidateHash;
    if calls != [] {
      CacheIsRemembered(dedupe, calls[..|calls| - 1], id);
    }
  }

  /** A write is skipped exactly when dedupe is on and it repeats, in everything hashed, the write remembered. */
  lemma SkippedIff(dedupe: bool, calls: seq<Call>, c: Call)
    requires c.Write?
    ensures Skips(Run(New(dedupe), calls), c) <==>
            && dedupe
            && match Remembered(calls, c.id)
               case None => false
               case Some(last) =>
                 last.reason == c.reason && last.nodeId == c.nodeId && last.workflow == c.workflow
                 && SameDoc(last.state, c.state) && last.id == c.id
  {
    hide Run;
    CacheIsRemembered(dedupe, calls, c.id);
    if Remembered(calls, c.id).Some? {
      HashIdentifies(Remembered(calls, c.id).value, c);
    }
  }

  /** A row's status is the one its hash was taken of, and a row with the live status stands behind each live row. */
  ghost predicate LiveStatusLogged(db: Db) {
    && (forall c :: c in db.checkpoints ==> c.status == c.contentHash.status)
    && forall id :: id in db.states ==>
         exists c :: c in db.checkpoints && c.executionId == id && c.status == db.states[id].state.status
  }

  lemma CalledKeepsLogged(m: Manager, c: Call)
    requires Inv(m) && LiveStatusLogged(m.db)
    ensures LiveStatusLogged(Called(m, c).db)
  {
    if c.Write? && !Skips(m, c) && c.commits {
      AppendKeepsDense(m.db, c);
      var after := Called(m, c).db;
      forall id | id in after.states
        ensures exists r :: r in after.checkpoints && r.executionId == id && r.status == after.states[id].state.status
      {
        if id == c.id {
          assert Appended(m.db.checkpoints, Stamped(m.db, c)).checkpoint in after.checkpoints;
        } else {
          var r :| r in m.db.checkpoints && r.executionId == id && r.status == m.db.states[id].state.status;
          assert r in after.checkpoints;
        }
      }
    }
  }

  lemma {:induction false} RunKeepsLogged(dedupe: bool, calls: seq<Call>)
    ensures Inv(Run(New(dedupe), calls)) && LiveStatusLogged(Run(New(dedupe), calls).db)
  {
    NewInv(dedupe);
    RunKeepsInv(New(dedupe), calls);
    if calls != [] {
      RunKeepsLogged(dedupe, calls[..|calls| - 1]);
      CalledKeepsLogged(Run(New(dedupe), calls[..|calls| - 1]), calls[|calls| - 1]);
    }
  }

  /** Whatever the manager wrote, a resume reports a stored row, the restartable one of the highest number. */
  lemma ResumeReportsStoredRow(dedupe: bool, calls: seq<Call>, id: string)
    requires Resume(Run(New(dedupe), calls).db, id).Ok?
    ensures var db := Run(New(dedupe), calls).db;
            var found := Resume(db, id).value.checkpoint;
            && CanRestart(db.checkpoints, id, found)
            && forall c :: CanRestart(db.checkpoints, id, c) ==> c.sequence <= found.sequence
  {
    hide Run, Resume;
    var db := Run(New(dedupe), calls).db;
    RunKeepsLogged(dedupe, calls);
    ResumeReportsHighest(db, id);
    ResumedIsLive(db, id);
    var live := Resume(db, id).value.state;
    if id in db.states {
      var c :| c in db.checkpoints && c.executionId == id && c.status == db.states[id].state.status;
      assert CanRestart(db.checkpoints, id, c);
    }
  }

  lemma ResumedIsLive(db: Db, id: string)
    requires Dense(db.checkpoints) && Backed(db) && Resume(db, id).Ok?
    ensures id in db.states && IsResumable(db.states[id].state.status)
  {
    var found := LatestResumable(db.checkpoints, id);
    LatestIsRow(db.checkpoints, id);
    if found.Some? {
      assert found.value in db.checkpoints;
    }
    assert !IsTerminal(db.states[id].state.status);
    match db.states[id].state.status
    case Pending =>
    case Running =>
    case WaitingForApproval =>
    case _ => assert false;
  }

  lemma OfMembers(rows: seq<Checkpoint>, id: string)
    ensures forall c :: c in Of(rows, id) <==> c in rows && c.executionId == id
  {
  }

  /** The row with the highest sequence number. */
  function NewestRow(rows: seq<Checkpoint>, id: string): Option<Checkpoint> {
    var mine := Of(rows, id);
    if mine == [] then None else Some(mine[|mine| - 1])
  }

  /**
   After a committed write the newest checkpoint is that write's exactly when its content is new or was the newest.
   */
  lemma NewestRowHoldsWriteIff(db: Db, c: Call)
    requires c.Write? && Dense(db.checkpoints)
    ensures var before, after := NewestRow(db.checkpoints, c.id), NewestRow(Committed(db, c).checkpoints, c.id);
            && after.Some?
            && (after.value.contentHash == CandidateHash(c) <==>
                || FindByHash(db.checkpoints, c.id, CandidateHash(c)).None?
                || (before.Some? && before.value.contentHash == CandidateHash(c)))
  {
    var rows, s := db.checkpoints, Stamped(db, c);
    assert DenseFor(Of(rows, c.id));
    MaxOfDense(rows, c.id);
    SequenceTaken(rows, c.id, s.sequence);
    OfAppend(rows, s, c.id);
    if FindByHash(rows, c.id, s.contentHash).Some? {
      assert FindByHash(rows, c.id, s.contentHash).value in Of(rows, c.id);
    }
  }

  lemma FirstWrite(c: Call)
    requires c.Write? && c.commits
    ensures Called(New(true), c)
         == Manager(Db([Stamped(EMPTY_DB, c)], map[c.id := StateRow(c.state.version + 1, c.state, c.workflow)]),
                    map[c.id := CandidateHash(c)], true)
    ensures Stamped(EMPTY_DB, c).sequence == 0
  {
  }

  lemma SecondWrite(m: Manager, row: Checkpoint, c: Call)
    requires c.Write? && c.commits && m.db.checkpoints == [row] && !Skips(m, c)
    requires row.executionId == c.id && row.sequence == 0 && row.contentHash != CandidateHash(c)
    ensures Called(m, c).db.checkpoints == [row, Stamped(m.db, c)]
    ensures Stamped(m.db, c).sequence == 1
  {
    assert m.db.checkpoints[..0] == [];
    assert MaxSequence([], c.id) == -1;
    assert MaxSequence(m.db.checkpoints, c.id) == 0;
  }

  /**
   The live row, not the newest checkpoint, is what was written last: content seen before gets no new row, so after
   writing x, y and x again the newest row still holds y.
   */
  lemma NewestRowMayBeOlder(id: string, x: StateDoc, y: StateDoc, wf: Workflow)
    requires x.body != y.body && IsResumable(x.status) && IsResumable(y.status)
    ensures var writeX := Write(id, x, wf, RoundCompleted, None, true);
            var writeY := Write(id, y, wf, RoundCompleted, None, true);
            var db := Called(Called(Called(New(true), writeX), writeY), writeX).db;
            && LatestResumable(db.checkpoints, id).Some?
            && LatestResumable(db.checkpoints, id).value.state.body == y.body
            && id in db.states && db.states[id].state.body == x.body
  {
    hide MaxSequence;
    var writeX := Write(id, x, wf, RoundCompleted, None, true);
    var writeY := Write(id, y, wf, RoundCompleted, None, true);
    var first := Called(New(true), writeX);
    var rowX := Stamped(EMPTY_DB, writeX);
    FirstWrite(writeX);
    SecondWrite(first, rowX, writeY);
    assert FindByHash(Called(first, writeY).db.checkpoints, id, CandidateHash(writeX)) == Some(rowX);
  }

  /** A write that was stored without being acknowledged, retried, adds no row: the two collapse to one. */
  lemma RetriedWriteCollapses(db: Db, c: Call)
    requires c.Write? && Dense(db.checkpoints)
    ensures Committed(Committed(db, c), c).checkpoints == Committed(db, c).checkpoints
    ensures c.id in Committed(Committed(db, c), c).states
    ensures var row := Committed(Committed(db, c), c).states[c.id];
            SameDoc(row.state, c.state) && row.workflow == c.workflow
  {
    AppendKeepsDense(db, c);
    var stored := Appended(db.checkpoints, Stamped(db, c));
    assert stored.checkpoint in stored.rows;
  }

  // ---------------------------------------------------------------- the manager as mutable state

  /** How a write's transaction ends: committed, rolled back, or committed with the acknowledgement lost on the way. */
  datatype Fate = Commits | RollsBack | LosesAck

  datatype WriteOutcome = Skipped | StoredRow(row: Checkpoint) | Raises

  /** Without an acknowledgement the tables change and the cache does not. */
  function CalledWithFate(m: Manager, c: Call, fate: Fate): Manager {
    var after := Called(m, c);
    if fate == LosesAck then after.(lastHash := m.lastHash) else after
  }

  class CheckpointManager {
    const db: Database
    const dedupe: bool
    var lastHash: map<string, Payload>

    constructor (db: Database, dedupe: bool)
      ensures this.db == db && Value() == Manager(Db(db.checkpoints, db.states), map[], dedupe)
    {
      this.db, this.dedupe, this.lastHash := db, dedupe, map[];
    }

    function Value(): Manager
      reads this, db
    {
      Manager(Db(db.checkpoints, db.states), lastHash, dedupe)
    }

    /** A write is skipped as a duplicate, stores a row, or raises without or after a commit. */
    method WriteCheckpoint(id: string, state: StateDoc, workflow: Workflow, reason: CheckpointReason,
                           nodeId: Option<string>, fate: Fate)
      returns (outcome: WriteOutcome)
      modifies this, db
      ensures var call := Write(id, state, workflow, reason, nodeId, fate != RollsBack);
              && Value() == CalledWithFate(old(Value()), call, fate)
              && (outcome == Skipped <==> old(Skips(Value(), call)))
              && (outcome.StoredRow? ==>
                    fate == Commits && outcome.row
                    == old(Appended(db.checkpoints, Stamped(Db(db.checkpoints, db.states), call)).checkpoint))
              && (outcome.Raises? ==> fate != Commits)
    {
      var hash := ComputeHash(id, 0, reason, state.status, nodeId, state, workflow);
      if dedupe && id in lastHash && lastHash[id] == hash {
        return Skipped;
      }
      if fate == RollsBack {
        return Raises;  // whatever the transaction had done is gone
      }
      var sequence := db.QueryNextSequence(id);
      var row := db.AppendCheckpoint(Checkpoint(id, sequence, reason, state.status, nodeId, state, workflow, hash));
      var saved := db.SaveState(id, state, workflow, None);
      if fate == LosesAck {
        return Raises;
      }
      lastHash := lastHash[id := hash];
      outcome := StoredRow(row);
    }

    method ForgetExecution(id: string)
      modifies this
      ensures Value() == Called(old(Value()), Forget(id))
    {
      lastHash := lastHash - {id};
    }
  }
}
