/**
 The durable tables and the repository operations on them. A transaction is one atomic step at its commit; the
 content digest is taken to be injective, so it is represented by the payload it digests.
 */
module Persistence {
  import opened Outcomes
  import opened Sequences
  import opened Workflows
  import opened Executions

  datatype CheckpointReason =
    | ExecutionStarted | BeforeNode | AfterReplan | BeforeApproval | RoundCompleted | OnCancellation
    | ExecutionFinalized

  /** A state document: the status, every other logical field as one text, and the storage bookkeeping. */
  datatype StateDoc = StateDoc(status: Status, body: string, version: nat, updatedAt: int)

  /** The payload behind a content hash: no row id, no timestamps, no state version. */
  datatype Payload = Payload(
    executionId: string, sequence: nat, reason: CheckpointReason, status: Status, nodeId: Option<string>,
    stateStatus: Status, stateBody: string, workflow: Workflow)

  datatype Checkpoint = Checkpoint(
    executionId: string, sequence: nat, reason: CheckpointReason, status: Status, nodeId: Option<string>,
    state: StateDoc, workflow: Workflow, contentHash: Payload)

  function ComputeHash(executionId: string, sequence: nat, reason: CheckpointReason, status: Status,
                       nodeId: Option<string>, state: StateDoc, workflow: Workflow): Payload
  {
    Payload(executionId, sequence, reason, status, nodeId, state.status, state.body, workflow)
  }

  // ---------------------------------------------------------------- the checkpoint table

  /** The rows of one execution, in insertion order. */
  function Of(rows: seq<Checkpoint>, id: string): seq<Checkpoint> {
    Filter(rows, (r: Checkpoint) => r.executionId == id)
  }

  lemma OfAppend(rows: seq<Checkpoint>, c: Checkpoint, id: string)
    ensures Of(rows + [c], id) == Of(rows, id) + (if c.executionId == id then [c] else [])
  {
    FilterConcat(rows, [c], (r: Checkpoint) => r.executionId == id);
  }

  /** `coalesce(max(sequence), -1)` over one execution's rows. */
  function MaxSequence(rows: seq<Checkpoint>, id: string): (m: int)
    ensures m >= -1
  {
    if rows == [] then -1
    else
      var last := rows[|rows| - 1];
      var before := MaxSequence(rows[..|rows| - 1], id);
      if last.executionId == id && last.sequence > before then last.sequence else before
  }

  function NextSequence(rows: seq<Checkpoint>, id: string): nat {
    MaxSequence(rows, id) + 1
  }

  function First(rows: seq<Checkpoint>, p: Checkpoint -> bool): (found: Option<Checkpoint>)
    ensures found.Some? ==> found.value in rows && p(found.value)
    ensures found.None? ==> forall r :: r in rows ==> !p(r)
  {
    if rows == [] then None else if p(rows[0]) then Some(rows[0]) else First(rows[1..], p)
  }

  function FindByHash(rows: seq<Checkpoint>, id: string, hash: Payload): (found: Option<Checkpoint>) {
    First(rows, (r: Checkpoint) => r.executionId == id && r.contentHash == hash)
  }

  function FindBySequence(rows: seq<Checkpoint>, id: string, sequence: nat): (found: Option<Checkpoint>) {
    First(rows, (r: Checkpoint) => r.executionId == id && r.sequence == sequence)
  }

  datatype Stored = Stored(rows: seq<Checkpoint>, checkpoint: Checkpoint)

  /** The insert under `UNIQUE(execution_id, sequence)`: a writer that loses the race adopts the row that won. */
  function Inserted(rows: seq<Checkpoint>, c: Checkpoint): Stored {
    var taken := FindBySequence(rows, c.executionId, c.sequence);
    if taken.Some? then Stored(rows, taken.value) else Stored(rows + [c], c)
  }

  /** `append`: a repeat of the same content yields the stored row, otherwise the insert. */
  function Appended(rows: seq<Checkpoint>, c: Checkpoint): Stored {
    var existing := FindByHash(rows, c.executionId, c.contentHash);
    if existing.Some? then Stored(rows, existing.value) else Inserted(rows, c)
  }

  // ---------------------------------------------------------------- the state table

  datatype StateRow = StateRow(version: nat, state: StateDoc, workflow: Workflow)

  datatype Conflict = Conflict(expected: nat, actual: Option<nat>)

  type StateTable = map<string, StateRow>

  /** `save` without an expected version: insert at the writer's version plus one, or bump the stored version. */
  function SavedOver(rows: StateTable, id: string, state: StateDoc, workflow: Workflow): StateTable {
    var version := if id in rows then rows[id].version + 1 else state.version + 1;
    rows[id := StateRow(version, state, workflow)]
  }

  /** `save` with an expected version: refused unless the stored version is that one. */
  function SavedIf(rows: StateTable, id: string, state: StateDoc, workflow: Workflow, expected: nat)
    : Result<StateTable, Conflict>
  {
    if id in rows && rows[id].version == expected
    then Ok(rows[id := StateRow(expected + 1, state, workflow)])
    else Err(Conflict(expected, if id in rows then Some(rows[id].version) else None))
  }

  /** Loading stamps the document with the row's version. */
  function Loaded(rows: StateTable, id: string): Option<(StateDoc, Workflow)> {
    if id in rows then Some((rows[id].state.(version := rows[id].version), rows[id].workflow)) else None
  }

  // ---------------------------------------------------------------- the tables as mutable state

  class Database {
    var checkpoints: seq<Checkpoint>
    var states: StateTable

    constructor ()
      ensures checkpoints == [] && states == map[]
    {
      checkpoints, states := [], map[];
    }

    method QueryNextSequence(id: string) returns (next: nat)
      ensures next == NextSequence(checkpoints, id)
    {
      var max: int := -1;
      for i := 0 to |checkpoints|
        invariant max == MaxSequence(checkpoints[..i], id)
      {
        assert checkpoints[..i + 1][..i] == checkpoints[..i];
        if checkpoints[i].executionId == id && checkpoints[i].sequence > max {
          max := checkpoints[i].sequence;
        }
      }
      assert checkpoints[..|checkpoints|] == checkpoints;
      next := max + 1;
    }

    method AppendCheckpoint(c: Checkpoint) returns (stored: Checkpoint)
      modifies `checkpoints
      ensures Stored(checkpoints, stored) == Appended(old(checkpoints), c)
    {
      var existing := FindByHash(checkpoints, c.executionId, c.contentHash);
      if existing.Some? {
        return existing.value;
      }
      var duplicate := FindBySequence(checkpoints, c.executionId, c.sequence);
      if duplicate.Some? {
        return duplicate.value;
      }
      checkpoints := checkpoints + [c];
      stored := c;
    }

    /** Returns the new version, which the caller's state object takes on. */
    method SaveState(id: string, state: StateDoc, workflow: Workflow, expected: Option<nat>)
      returns (r: Result<nat, Conflict>)
      modifies `states
      ensures expected == None ==>
                states == SavedOver(old(states), id, state, workflow) && r == Ok(states[id].version)
      ensures expected.Some? ==>
                match SavedIf(old(states), id, state, workflow, expected.value)
                case Ok(rows) => states == rows && r == Ok(states[id].version)
                case Err(e) => states == old(states) && r == Err(e)
    {
      if expected == None {
        var version := if id in states then states[id].version + 1 else state.version + 1;
        states := states[id := StateRow(version, state, workflow)];
        return Ok(version);
      }
      if id !in states || states[id].version != expected.value {
        return Err(Conflict(expected.value, if id in states then Some(states[id].version) else None));
      }
      states := states[id := StateRow(expected.value + 1, state, workflow)];
      r := Ok(expected.value + 1);
    }
  }
}
