# Verified model of the orchestration engine

A Dafny model of the deterministic half of an agent-orchestration engine, with proofs of what its protocols keep over
whole runs. `dafny verify dfyconfig.toml` checks everything.

## What is modelled

* **Dynamic orchestration.** `Workflows`, `Delegation` and `DelegationRounds` model the graph, one delegation round and
  any number of them: rounds stack into completely connected layers (`DynamicGraphShape`) of nodes that each run one
  target (`DynamicGraphNodes`). `Executions` holds the status table and the mutable execution state. `TurnLoop` is the
  supervisor turn loop on values, driven by a list of turns that carries everything the environment decides, so a
  statement over all lists is a statement over every supervisor, approval gate and executor. `Orchestrators` is the
  same loop on mutable objects, proved equal to it, and `PausedRuns` strings runs together. `Runners` is the background
  runner around it, and `ResumePoints` what a resume finds wherever the process dies.
* **Durable state.** `Persistence` models the checkpoint and state tables. `CheckpointRace` and `StateRace` interleave
  the separate steps of any number of writers; `CheckpointManagers` shows that the hash cache refines the manager
  without it, and what resume sees; `SharedManagers` what several managers on one database do to each other,
  and `ManagerRace` the same with their steps interleaved.
* **Approvals and Redis coordination.** `Approvals` interleaves gates, reviewers and expiry sweeps over write-once
  records. `Coordination` models the token lock and the expiring semaphore over runs in which time passes, holders
  crash and old handles are replayed.
* **JSON spans and structured generation.** `JsonSpans` gives a lexeme grammar and proves the brace scanner finds
  exactly its balanced span; `JsonText` prints JSON (RFC 8259, sections 2 to 7) in any layout and recovers it. `Retries`
  and `StructuredGeneration` bound calls and sleeps of the repair loop around the retry loop.
* **Budgets, policy, evaluation arithmetic.** `Budgets` and `BudgetRuns` (meter and reservations), `Policies` (layered
  authorisation and call ceilings), `CallCeilings` (ceilings per execution), `Overlaps` (sweep line), `Percentiles`,
  with `Rounding`, `Sorting`, `Sequences`, `Decimals` and `Outcomes` beneath them.

A value-level function specifies each operation; where the program mutates objects, a class method with the program's
own branches and loops is proved equal to that function, and the theorems are about the function over all runs.

## What the code turns out not to do

Each is proved in the member named, with the exact condition where there is one.

* A delegation round is refused when one target's id is another target's next suffixed name, as `a` and `a-2` once `a`
  exists (`RoundAccepted`, `CollisionExample`), and when a suffixed id passes 64 characters: a second delegation to an
  agent with an id of 63 or 64 characters always is (`LongIdNeverRepeats`, `RepeatAcceptedIff`).
* A retry ordered by the supervisor adds two to the shared usage counter (`ReopenNode`). A rejected approval or a
  cancellation leaves the pending approval id set (`PendingApprovalAtEnding`, `RejectionLeavesPendingApproval`).
* The turn limit bounds one call of `run`: paused and resumed k times, an execution can take k times the limit, and
  never more (`TurnLimitIsPerCall`, `TotalTurnsBounded`).
* Entered from a terminal status, `run` can attempt an illegal move under every limit; from any other it never does
  (`IllegalMoveOnlyFromTerminal`).
* A process that dies between a drained round's verdict and its correction leaves an execution that resume takes for
  finished; nowhere else in such a round does it (`CrashWindow`).
* A driven execution is over in memory whatever the checkpoint writes do (`DrivenIsOverInMemory`), but its ending is
  durable exactly when the last write attempted was not lost, unless the executor itself ended it (`EndingDurableIff`):
  nothing writes it again (`LostEndingExample`).
* Checkpoint writes save the state unconditionally, so only the version-checked path protects an update; when an
  unchecked save loses one is exact: when the stored version is not the one its writer carries
  (`UncheckedSaveLosesUpdateIff`).
* A manager whose number was taken, with no row from that number on carrying its content, leaves that content without
  a row (`InsertLeavesNoRowIff`). What follows depends on the session: `append` rolls back inside the transaction block
  its manager opened (persistence/database.py:152-166, persistence/repositories.py:568-578). If statements may follow
  that rollback, the loser goes on to cache its own hash, so that a cached hash can name content without a row
  (`FinishedWithoutRowIff`, `LoserIsCachedWithoutRow`). If the rollback ends the block, the loser raises, and every
  cached hash has its row (`CachedHashHasRow`).
* The hash cache skips a write that was needed exactly when the last write anyone stored differs from the manager's own
  last acknowledged one: after another manager's write of other content, or after a commit whose acknowledgement was
  lost (`SkipIsStaleIff`, with a run for each).
* The newest checkpoint row is the last content written exactly when that content was new or the newest already
  (`NewestRowHoldsWriteIff`); the live row always is.
* A request past its expiry time that nobody has marked can still be approved (`LateApprovalIsHonoured`). A gate raises
  exactly when another has created the record since it looked (`CreateRaisesIff`), or when a reviewer has decided since
  it judged the record expired (`MarkRaisesIff`), so the gate of an approved record can raise instead of granting
  (`ApprovedGateCanRaise`).
* A semaphore whose key expired under its holders admits more than the limit; when, and by how much, is exact
  (`SlotTheorem`, `TakeOverAdmitsIff`, `ExpiryOverAdmits`).
* A cost with more than eight decimals, handed to `add_llm_usage` as it is, can record more than was reserved, exactly
  when it rounds up (`CostLimitHoldsIffPricesRoundDown`). The engine's own costs are rounded before they get there, and
  for them the stored cost is the exact sum (`QuotedCostRoundsDown`, `RecordedCostIsExact`).
* `max_calls` is documented as a ceiling per execution (domain/tool.py:131). The tallies belong to the engine, of which
  a deployment has one (api/state.py:150), and nothing restores them. So other executions use up an execution's
  ceiling, exactly when own < max_calls <= own + others (`DeniedWithCallsLeftIff`, `OtherExecutionUsesCeiling`), and
  every restart gives it back: the bound is one ceiling per lifetime of the engine, and is reached
  (`AllowsPerLifetime`, `LifetimesReached`, `RestartResetsCeiling`).
* Even that bound holds of the calls that go through exactly when no arguments send the agent's calls of that tool to a
  reviewer, since granted approvals are not tallied (`PassesWithinLifetimesIff`, `CeilingOfOnePassed`).
* The docstring of `max_overlap` speaks of half-open intervals; the code counts closed ones, and the model follows the
  code. The two agree exactly when the result is one or is reached at an instant at which no node completes, as when no
  node completes just as one starts (`HalfOpenAgreesIff`, `HalfOpenAgreesWithoutTies`, `TouchingIntervalsOverlap`).

## Model

| member | source | states |
|---|---|---|
| `Workflows.Validated` | src/orchestration/domain/workflow.py:221-249 | A graph is accepted, unchanged, exactly when it has a node, its ids are distinct, and every edge end and entry node is one of them |
| `Workflows.ComplaintIff` | src/orchestration/domain/workflow.py:221-249 | Which error a graph draws: no nodes, two nodes of one id, an edge end that is no node, an entry that is no node, the first of these that applies |
| `Workflows.SlugPattern` | src/orchestration/domain/base.py:101-110 | A slug is one letter or digit followed by letters, digits, underscores and hyphens, 64 characters at most |
| `Workflows.EntryNodesIff` | src/orchestration/domain/workflow.py:259-265 | Entry nodes are the declared ones if any, and otherwise exactly those no edge leads to |
| `Workflows.RankedIsAcyclic` | src/orchestration/domain/workflow.py:267-271 | A graph whose every edge climbs in some ranking has no walk from a node back to itself |
| `Delegation.SuffixedInjective` | src/orchestration/runtime/orchestrator.py:398-400 | Two suffixed ids are equal only for the same agent and the same number |
| `Delegation.FindUniqueNodeId` | src/orchestration/runtime/orchestrator.py:388-401 | The search ends on every graph and returns the agent id if free, else the id with the smallest free suffix from 2 on |
| `Delegation.UniqueNodeId` | src/orchestration/runtime/orchestrator.py:388-401 | The id chosen is never already in the graph |
| `Delegation.CollisionCondition` | src/orchestration/runtime/orchestrator.py:349-359 | Two agents of one round get the same id if and only if one of them is taken and the other is, free, exactly its next suffixed name |
| `Delegation.CreateNodes` | src/orchestration/runtime/orchestrator.py:349-359 | One agent node per target in order, against the ids of the graph before the round; refused exactly when a chosen id is no slug |
| `Delegation.CompileRoundEdges` | src/orchestration/runtime/orchestrator.py:360-363 | The edge-building loop produces the specified edge list |
| `Delegation.RoundEdges` | src/orchestration/runtime/orchestrator.py:360-363 | The new edges are exactly frontier to new node and new node to terminal |
| `Delegation.CompileDelegation` | src/orchestration/runtime/orchestrator.py:336-368 | The specified growth of the graph: old nodes first and unchanged, then one node per target in order that runs that target |
| `Delegation.RoundRunsTargets` | src/orchestration/runtime/orchestrator.py:349-359 | In every accepted round each new node is an agent node for its target's agent, with its instruction and its non-empty output key or else the agent id; nodes, edges and entries from before stay |
| `Delegation.RoundWiring` | src/orchestration/runtime/orchestrator.py:360-386 | In any graph the edges after a round are the old ones, those from every node at the end of the graph to every new node, and those from the new nodes to the terminal |
| `DelegationRounds.NodesRunTargets` | src/orchestration/runtime/orchestrator.py:336-368 | After any number of accepted decisions on any graph, its nodes come first and then one per target ever accepted, each running that target |
| `DelegationRounds.RoundAcceptedByIds` | src/orchestration/runtime/orchestrator.py:336-368 | Compiling a round can fail only for an id that is no slug or for two equal new ids, and the error says which |
| `DelegationRounds.RoundAccepted` | src/orchestration/runtime/orchestrator.py:336-368 | A round is accepted if and only if every chosen id fits 64 characters and no target shadows another |
| `DelegationRounds.SingleDelegationAccepted` | src/orchestration/domain/workflow.py:221-227 | A single-target delegation is never refused as a duplicate; it is accepted if and only if its id fits 64 characters |
| `DelegationRounds.RepeatAcceptedIff` | src/orchestration/domain/workflow.py:99-105 | From the seed graph, delegating twice to one agent is refused, as an invalid id, exactly when its id is longer than 62 characters |
| `DelegationRounds.LongIdNeverRepeats` | src/orchestration/domain/workflow.py:99-105 | In any valid graph that already holds the agent, delegating again to an id of 63 or 64 characters is refused as an invalid id |
| `DelegationRounds.ShadowedPairRefused` | src/orchestration/domain/workflow.py:221-227 | Two targets of which one shadows the other are refused with the duplicate-id error |
| `DelegationRounds.CollisionExample` | src/orchestration/domain/workflow.py:221-227 | From the seed graph, delegating to `a` and then to `a` and `a-2` together is refused |
| `DelegationRounds.FrontierIsLastRound` | src/orchestration/runtime/orchestrator.py:369-386 | The frontier of a layered graph is the last round, in order |
| `DelegationRounds.BusyIsEarlier` | src/orchestration/runtime/orchestrator.py:378-380 | A node has a successor other than the terminal exactly when its round is not the last |
| `DelegationRounds.LayerEdgeSnoc` | src/orchestration/runtime/orchestrator.py:360-363 | One more layer adds exactly the edges from the last round into it and from it to the terminal |
| `DelegationRounds.RoundAddsLayer` | src/orchestration/runtime/orchestrator.py:336-368 | Every accepted round turns a layered graph into the graph with one more layer, holding exactly its new ids |
| `DelegationRounds.LayeredIsValid` | src/orchestration/domain/workflow.py:221-249 | A layered graph passes every validator |
| `DelegationRounds.LaterRoundsDescend` | src/orchestration/runtime/orchestrator.py:336-368 | Every node of a later round is a descendant of every node of an earlier one |
| `DelegationRounds.EntryIsFirstRound` | src/orchestration/domain/workflow.py:259-265 | The resolved entry nodes are exactly the first round, or the terminal alone in the seed graph |
| `DelegationRounds.LayeredShape` | src/orchestration/runtime/orchestrator.py:336-386 | A layered graph is acyclic, has no edge out of the terminal and one from every other node into it, and has the frontier, descent and entry properties |
| `DelegationRounds.GrowthIsLayered` | src/orchestration/runtime/orchestrator.py:336-368 | After any number of accepted rounds from the seed, the graph is layered by those rounds |
| `DelegationRounds.DynamicGraphShape` | src/orchestration/runtime/orchestrator.py:336-386 | After any number of accepted rounds from the seed graph, the whole shape holds, with one layer per decision and one node per target |
| `DelegationRounds.DynamicGraphNodes` | src/orchestration/runtime/orchestrator.py:336-368 | From the seed: the terminal, then one node per target of the accepted decisions in order, each running that target |
| `Decimals.DecimalReadsBack` | src/orchestration/runtime/orchestrator.py:398-400 | The decimal text of a number reads back as it, with no leading zero |
| `Executions.TerminalMeansStuck` | src/orchestration/domain/execution.py:43-81 | The terminal statuses are exactly those with no way out in the table |
| `Executions.EnteredFrom` | src/orchestration/domain/execution.py:43-81 | From where each status can be entered: success, a pause and a spent budget only from running, a timeout also from a pause, failure and cancellation from every status that is not over |
| `Executions.MovedKeepsConsistent` | src/orchestration/domain/execution.py:243-264 | A legal move starts from a non-terminal status and keeps "completed_at set if and only if terminal" |
| `Executions.ExecutionState.TransitionTo` | src/orchestration/domain/execution.py:243-264 | A move outside the table is refused and changes nothing; a legal one changes status, start, completion and reason as specified |
| `Executions.ExecutionState.RecordRetry` | src/orchestration/domain/execution.py:312-316 | The node's own retry count and the shared usage counter each grow by one |
| `Executions.ExecutionState.ReopenNode` | src/orchestration/runtime/orchestrator.py:403-414 | The node is pending again, its own count grows by one, and the shared usage counter by two |
| `TurnLoop.TurnSafe` | src/orchestration/runtime/orchestrator.py:219-320 | A turn from a boundary leads to a boundary, returns for a cause its inputs explain, or raises, but never through an illegal move of the loop |
| `Orchestrators.Orchestrator.Checkpoint` | src/orchestration/runtime/orchestrator.py:212 | One write on the mutable log: it works, or raises before or after its row is stored |
| `TurnLoop.RoundSafe` | src/orchestration/runtime/orchestrator.py:303-320 | After the executor the run goes on only as RUNNING with no completion time, and returns only as paused, cancelled, over budget or timed out |
| `TurnLoop.RoundVerdict` | src/orchestration/runtime/orchestrator.py:303-320 | A pause, cancellation, spent budget or timeout left by the executor ends the run as it is; a finished or failed round is taken back and saved as running |
| `TurnLoop.RoundLeavesEffects` | src/orchestration/runtime/orchestrator.py:303-320 | A round that does not raise leaves what the executor wrote, with the last non-empty reason of its moves, or none after a verdict taken back |
| `TurnLoop.DeliberateEnding` | src/orchestration/runtime/orchestrator.py:219-301 | Cancelling, answering, failing and a rejection leave exactly that status, time, reason or answer and pending id, and one last row with the matching checkpoint reason unless it is lost |
| `TurnLoop.LimitEnding` | src/orchestration/runtime/orchestrator.py:322-332 | Out of turns the run fails with the limit in its reason, nothing pending, and one last row |
| `TurnLoop.ApprovalTurn` | src/orchestration/runtime/orchestrator.py:416-448 | A grant clears the pending id and goes on; an undecided request is listed once, noted in a row while running, and pauses the run in a second |
| `TurnLoop.EntryRecorded` | src/orchestration/runtime/orchestrator.py:206-217 | Entry starts a pending execution with one row, resumes a paused one without any, and leaves every other alone |
| `TurnLoop.RunSound` | src/orchestration/runtime/orchestrator.py:183-332 | From any non-terminal status, over every supervisor, gate and executor: at most the limit of turns, no illegal move, and a justified ending |
| `TurnLoop.ReturnedStatus` | src/orchestration/runtime/orchestrator.py:183-332 | A run that returns is terminal or waiting; SUCCEEDED only through an answer given by the supervisor, which is then the final output |
| `TurnLoop.IllegalMoveOnlyFromTerminal` | src/orchestration/runtime/orchestrator.py:206-217 | For every turn limit: no list of that many turns makes the loop attempt an illegal move if and only if the run is entered from a non-terminal status |
| `TurnLoop.StartRecordedOnce` | src/orchestration/domain/execution.py:256-258 | The start time is recorded when an execution first runs and no pause, resume or drained round moves it |
| `TurnLoop.TurnSaves` | src/orchestration/runtime/orchestrator.py:490-522 | A verdict the executor imposed on a drained round is overwritten by a RUNNING checkpoint before the next turn; every ending the loop decides is its last checkpoint |
| `ResumePoints.ResumeReadsLastRow` | src/orchestration/checkpoint/manager.py:193-265 | After any of the rows a run writes, resume reports nothing, a finished execution or where to go on, according to the last of them alone |
| `ResumePoints.CrashWindow` | src/orchestration/runtime/orchestrator.py:503-522 | Wherever the process dies in a drained round, resume takes the execution for finished exactly between the executor's durable verdict and its correction |
| `ResumePoints.LooksFinishedOnlyWhere` | src/orchestration/runtime/orchestrator.py:183-332 | Wherever it dies in a run, resume takes the execution for finished only after a row of the executor or an older one, or at the run's own last row, its ending |
| `TurnLoop.PendingApprovalAtEnding` | src/orchestration/runtime/orchestrator.py:416-448 | Answering or failing clears the pending approval id; a cancellation or a rejection leaves it as it was |
| `TurnLoop.TurnGraph` | src/orchestration/runtime/orchestrator.py:255-266 | A compiled replan puts its plan in place of the graph, an accepted delegation grows it, and nothing else changes it |
| `TurnLoop.ReplanTurn` | src/orchestration/runtime/orchestrator.py:261-266 | A replan turn leaves the compiled plan as the graph and counts itself; unless its write is lost, a row with reason AFTER_REPLAN carries that plan before any other; a plan that raises changes nothing |
| `TurnLoop.RetryTurn` | src/orchestration/runtime/orchestrator.py:255-256 | A retry hands the executor the same graph with that node pending, its own count one higher and the shared counter two, everything else as it was |
| `TurnLoop.DelegateTurn` | src/orchestration/runtime/orchestrator.py:258-259 | A refused delegation raises on the graph as it was; an accepted one is executed on the grown graph |
| `TurnLoop.RunLeavesLastPlanGrown` | src/orchestration/runtime/orchestrator.py:183-332 | However a run ends, its graph is the last plan compiled, or the one it was entered with, grown by the delegations accepted after it, with one node per target of theirs that runs that target |
| `TurnLoop.RunKeepsLayers` | src/orchestration/runtime/orchestrator.py:183-332 | Without a replan, a run adds to a layered graph exactly the layers of the delegations it accepted, in order, however it ends |
| `TurnLoop.RunGraphShape` | src/orchestration/runtime/orchestrator.py:183-332 | A fresh dynamic run that never replans leaves the seed grown by its accepted delegations in order: valid, acyclic, everything leading to the terminal, the frontier the last accepted round, later rounds descending from earlier ones, the entry nodes the first |
| `Runners.DrivenIsOverInMemory` | src/orchestration/api/runner.py:142-180 | In memory, whichever checkpoint writes raise, an execution driven by the runner is over, with a completion time, or waits for approval |
| `Runners.NoSlotEnding` | src/orchestration/api/runner.py:142-162 | Without a slot the execution fails for that reason, otherwise as it was, with one row unless it is lost |
| `Runners.EndingIsSaved` | src/orchestration/api/runner.py:142-180 | For every fate of the writes: if the last write attempted was not lost, the ending is the last durable row, unless the executor had itself ended the execution or reached its boundary |
| `Runners.EndingDurableIff` | src/orchestration/api/runner.py:142-180 | An ending the executor did not impose, one the runner imposes after an executor that raised mid-run included, is durable if and only if the last write attempted was not lost, as long as no earlier row says the very same |
| `Runners.LostEndingExample` | src/orchestration/api/runner.py:166-178 | A new execution answered at once whose second write raises has succeeded in memory, and its only durable row says running |
| `PausedRuns.TotalTurnsBounded` | src/orchestration/runtime/orchestrator.py:219-220 | Any number of successive calls take at most the sum of their turn limits |
| `PausedRuns.TurnLimitIsPerCall` | src/orchestration/runtime/orchestrator.py:322-332 | And that sum is reached: for every limit of at least one, an execution paused and resumed k times takes k times the limit |
| `PausedRuns.RejectionLeavesPendingApproval` | src/orchestration/runtime/orchestrator.py:440-445 | Paused on a request, resumed and then rejected, an execution has failed and still names the request as pending |
| `Orchestrators.Orchestrator.End` | src/orchestration/runtime/orchestrator.py:292-301 | Move, checkpoint, stop; an illegal move is reported and changes nothing |
| `Orchestrators.Orchestrator.RecoverFromRoundDrain` | src/orchestration/runtime/orchestrator.py:490-522 | Status, completion time and failure reason are reset together and checkpointed |
| `Orchestrators.Orchestrator.RunExecutor` | src/orchestration/runtime/orchestrator.py:303-320 | The object's fields after an executor call are those of the specified round |
| `Orchestrators.Orchestrator.Request` | src/orchestration/runtime/orchestrator.py:416-448 | Each answer of the approval gate leaves the specified fields; a rejection does not clear the pending approval id |
| `Orchestrators.Orchestrator.Prepare` | src/orchestration/runtime/orchestrator.py:255-266 | Retry, delegation and replanning change state and graph as specified: a compiled plan is the graph, an accepted delegation adds a node per target that runs it, and nothing when refused |
| `Orchestrators.Orchestrator.TakeTurn` | src/orchestration/runtime/orchestrator.py:219-320 | One turn on the mutable objects is the specified turn; after a compiled replan the graph is the plan |
| `Orchestrators.Orchestrator.Run` | src/orchestration/runtime/orchestrator.py:183-332 | The turn loop on the mutable state, graph and checkpoints is the specified run, so every theorem about runs holds of it; its graph is the last plan grown by what was accepted since |
| `Persistence.Database.QueryNextSequence` | src/orchestration/persistence/repositories.py:581-587 | One past the greatest stored sequence of this execution, 0 when it has none |
| `Persistence.Database.AppendCheckpoint` | src/orchestration/persistence/repositories.py:540-579 | Known content returns its stored row, a taken number returns the row that took it, anything else is appended |
| `Persistence.Database.SaveState` | src/orchestration/persistence/repositories.py:419-492 | Without an expected version the row is always overwritten and its version raised; with one, only if it is the stored version |
| `CheckpointRace.SequenceTaken` | src/orchestration/persistence/tables.py:302-306 | In a dense log a sequence number is taken exactly when it is below the length |
| `CheckpointRace.InsertKeepsDense` | src/orchestration/persistence/repositories.py:550-579 | Uniqueness of (execution, sequence) alone makes the earlier hash check still valid at insert; a writer that loses adopts an existing row |
| `CheckpointRace.StepKeepsInv` | src/orchestration/persistence/repositories.py:540-597 | Every interleaved step of every writer keeps the log dense and only ever extends it |
| `CheckpointRace.CheckpointLogTheorem` | src/orchestration/persistence/repositories.py:540-597 | Over every interleaving and any crashes, an execution's rows carry 0..n-1 in order with pairwise distinct content, and every finished writer holds a stored row of its execution |
| `CheckpointRace.UninterruptedIsAppend` | src/orchestration/persistence/repositories.py:540-579 | One writer's steps run without interruption are exactly `append` of the numbered row |
| `StateRace.StepKeepsInv` | src/orchestration/persistence/repositories.py:419-510 | Every load, unconditional save and checked save keeps stored versions equal to the number of writes that landed |
| `StateRace.CheckedSaveSucceedsIffUndisturbed` | src/orchestration/persistence/repositories.py:467-492 | A version-checked save lands if and only if no write landed since its writer last loaded or saved; otherwise it changes nothing |
| `StateRace.VersionsTheorem` | src/orchestration/persistence/repositories.py:419-510 | Stored versions are 1, 2, 3, ..., each written once; a checked write replaces exactly what its writer last saw; no two checked writes succeed from one version |
| `StateRace.OneWinner` | src/orchestration/persistence/repositories.py:467-492 | Of two writers holding the same version, the second checked save is refused once the first has landed |
| `StateRace.UncheckedSaveLosesUpdateIff` | src/orchestration/checkpoint/manager.py:139-142 | A save without an expected version always lands; it overwrites writes its writer never saw if and only if the stored version is not the one the writer carries, the very test the checked save makes |
| `CheckpointManagers.AppendKeepsDense` | src/orchestration/checkpoint/manager.py:129-142 | A single writer's append keeps the log dense and stores or finds exactly its content |
| `CheckpointManagers.CalledKeepsInv` | src/orchestration/checkpoint/manager.py:87-151 | A cached hash always names content that is in the log and in the live row, and every row has a live state |
| `CheckpointManagers.CallRefines` | src/orchestration/checkpoint/manager.py:110-113 | A skipped or a committed write leaves the same tables as the uncached write, up to version and timestamp |
| `CheckpointManagers.CacheRefines` | src/orchestration/checkpoint/manager.py:87-166 | For every sequence of write and forget calls the cached and the uncached manager leave the same log and live rows up to that bookkeeping |
| `CheckpointManagers.ResumeRefines` | src/orchestration/checkpoint/manager.py:193-265 | Resume returns the same result from both managers |
| `CheckpointManagers.LiveRowIsLastWrite` | src/orchestration/checkpoint/manager.py:129-151 | The live row is the last committed write's state and workflow, with or without the cache |
| `CheckpointManagers.ResumeSeesLastWrite` | src/orchestration/checkpoint/manager.py:193-265 | Resume sees the last write; no checkpoint row lacks a live state, so the checkpoint-only branch is never reached |
| `CheckpointManagers.ResumeReportsHighest` | src/orchestration/checkpoint/manager.py:213-249 | Over any dense log, the checkpoint a resume reports is the stored restartable row of the highest number, and a made-up one of number 0 exactly when there is none |
| `CheckpointManagers.ResumeReportsStoredRow` | src/orchestration/checkpoint/manager.py:193-265 | Whatever the manager wrote, that checkpoint is always a stored one |
| `CheckpointManagers.LogIsCommittedWrites` | src/orchestration/checkpoint/manager.py:87-151 | With or without the cache, the log holds a row for every committed write, skipped ones included, and none for anything else |
| `CheckpointManagers.SkippedIff` | src/orchestration/checkpoint/manager.py:110-113 | A write is skipped if and only if dedupe is on and it repeats, in everything hashed, the last committed write of its execution since that was forgotten |
| `CheckpointManagers.HashIdentifies` | src/orchestration/domain/checkpoint.py:56-84 | Two writes have one hash if and only if they agree in everything but version and time stamp of the state |
| `CheckpointManagers.NewestRowHoldsWriteIff` | src/orchestration/persistence/repositories.py:550-552 | After any committed write to a dense log, the newest row carries its content if and only if that content was not stored before or was the newest already |
| `CheckpointManagers.NewestRowMayBeOlder` | src/orchestration/persistence/repositories.py:550-552 | After writing x, y and x again the newest checkpoint holds y while the live row holds x |
| `SharedManagers.WriteLandsIff` | src/orchestration/checkpoint/manager.py:110-113 | Whatever managers share the database, after a committing write its content is in the live row if and only if the cache did not hold it or the live row already did |
| `SharedManagers.SharedLog` | src/orchestration/checkpoint/manager.py:129-151 | However many managers share, restart and lose acknowledgements, with each write one step, the log stays dense without repeats and no row lacks a live state |
| `ManagerRace.InterleavedLogIsDense` | src/orchestration/checkpoint/manager.py:134-138 | With the steps of any number of managers interleaved, cache checks and saves included, the log stays dense without repeats, whether losers go on or raise |
| `ManagerRace.CachedHashHasRow` | src/orchestration/checkpoint/manager.py:134-152 | A cached hash names content with a checkpoint row, unless that content lost an insert and its manager could go on after the rollback |
| `ManagerRace.InsertLeavesNoRowIff` | src/orchestration/persistence/repositories.py:550-579 | Read off the table before the insert: the content has no row afterwards if and only if its number is taken and no row from that number on carries it |
| `ManagerRace.FinishedWithoutRowIff` | src/orchestration/checkpoint/manager.py:134-152 | A manager finishes with its content live and cached but without a row if and only if it adopted a row of other content and no row after the number it lost carries its own |
| `ManagerRace.LoserIsCachedWithoutRow` | src/orchestration/checkpoint/manager.py:134-152 | If append can go on after its rollback: of two managers that read the same number, the second ends that way |
| `SharedManagers.LiveRowIsLastStored` | src/orchestration/checkpoint/manager.py:139-142 | The live row is what the last write stored by anyone carried |
| `SharedManagers.SkipIsStaleIff` | src/orchestration/checkpoint/manager.py:110-113 | A skip leaves other content in the live row if and only if the last write anyone stored differs from the manager's own last acknowledged one |
| `SharedManagers.AloneNeverStale` | src/orchestration/checkpoint/manager.py:87-166 | A manager that is alone and whose commits are acknowledged always leaves what it writes in the live row, restarts included |
| `SharedManagers.SecondWriterStales` | src/orchestration/checkpoint/manager.py:110-113 | A second manager's write in between makes the first skip a write that was needed |
| `SharedManagers.LostAcknowledgementStales` | src/orchestration/checkpoint/manager.py:129-152 | So does a lost acknowledgement, for a manager that is alone |
| `CheckpointManagers.RetriedWriteCollapses` | src/orchestration/checkpoint/manager.py:18-20 | A stored write retried after a lost acknowledgement adds no row and leaves its content live |
| `CheckpointManagers.CheckpointManager.WriteCheckpoint` | src/orchestration/checkpoint/manager.py:87-166 | On the mutable tables and cache a write that commits, rolls back or loses its acknowledgement is the specified call; nothing is reported stored exactly when it was skipped or raised |
| `CheckpointManagers.CheckpointManager.ForgetExecution` | src/orchestration/checkpoint/manager.py:334-340 | Only the cache entry goes |
| `Approvals.StepEvolves` | src/orchestration/persistence/repositories.py:974-1017 | No step of any actor removes a row or touches a decided one |
| `Approvals.StepKeepsInv` | src/orchestration/policies/approvals.py:107-186 | Every interleaved step keeps rows, decisions and what each gate has seen in agreement |
| `Approvals.RecordsAreWriteOnce` | src/orchestration/policies/approvals.py:40-63 | Between any two moments of any run: rows stay, a decided row never changes, and no identity is created twice |
| `Approvals.DecisionsAgree` | src/orchestration/persistence/repositories.py:974-1017 | Every decision that ever succeeded is its row's final status, so opposite decisions never both succeed |
| `Approvals.GateTheorem` | src/orchestration/policies/approvals.py:107-238 | Under any interleaving a granted gate names an approved row and uses the reviewer's arguments if any and else the request's own; a gate told to wait was told so within the row's time to live |
| `Approvals.UndecidedOutcome` | src/orchestration/policies/approvals.py:107-186 | A record created at one moment of a run and undecided at a later one: a gate call is told to wait within the time to live counted from the creation and is refused as expired from its end on; without one it always waits |
| `Approvals.LateJudgement` | src/orchestration/policies/approvals.py:175-176 | The same of a gate that looked earlier and judges only now |
| `Approvals.ExpiredOnlyLate` | src/orchestration/policies/approvals.py:152-176 | In no run does a record expire before its time to live is over, or without one |
| `Approvals.SweepExpiresIff` | src/orchestration/persistence/repositories.py:1055-1066 | A sweep expires an undecided record if and only if its time to live ended strictly before |
| `Approvals.SameRecordIff` | src/orchestration/policies/approvals.py:40-63 | Two requests share a record if and only if execution, action, node and arguments agree, absent arguments being empty ones |
| `Approvals.DecideSucceedsIff` | src/orchestration/persistence/repositories.py:974-1017 | A decision succeeds if and only if the row is pending or already decided the same way, and then every different one is refused; the error tells a missing row from a decided one |
| `Approvals.CreateRaisesIff` | src/orchestration/persistence/repositories.py:948-966 | Creating raises if and only if someone has stored the record since the gate looked |
| `Approvals.MarkRaisesIff` | src/orchestration/policies/approvals.py:315-332 | Marking raises if and only if a reviewer has decided since the gate judged the record expired; another gate or sweep having expired it is no error |
| `Approvals.OnlyCreateAndMarkRaise` | src/orchestration/policies/approvals.py:107-186 | No other step of a gate raises |
| `Approvals.ApprovedGateCanRaise` | src/orchestration/policies/approvals.py:175-176 | An approval between the judgement and the mark leaves the record approved and its gate raising |
| `Approvals.UninterruptedGateIsResolve` | src/orchestration/policies/approvals.py:107-186 | A gate's steps with nothing in between are one call of the service and do not raise |
| `Approvals.LateApprovalIsHonoured` | src/orchestration/policies/approvals.py:242-274 | A request past its expiry but not yet marked can still be approved, and the next gate grants it |
| `Approvals.ApprovalService.Record` | src/orchestration/persistence/repositories.py:974-1017 | The pending row gets all five decision fields at once; a decided or missing one is left alone with the matching result |
| `Approvals.ApprovalService.Approve` | src/orchestration/policies/approvals.py:242-274 | Succeeds exactly on a pending or approved row, leaves it approved with decider, note, changed arguments and time, and rewrites no decided row |
| `Approvals.ApprovalService.Reject` | src/orchestration/policies/approvals.py:276-293 | Succeeds exactly on a pending or rejected row, leaves it rejected with decider, note and time, and rewrites no decided row |
| `Approvals.ApprovalService.ExpireOverdue` | src/orchestration/persistence/repositories.py:1055-1066 | A record changes exactly when it was pending with its expiry strictly past, no other and no key; the number returned is how many changed |
| `Approvals.ApprovalService.Resolve` | src/orchestration/policies/approvals.py:107-186 | Uninterrupted, it finds the record or creates one that expires its time to live from now, reports it pending only before that, marks it once it has come, and touches no other |
| `Approvals.ApprovalService.Require` | src/orchestration/policies/approvals.py:188-238 | Returns arguments if and only if the record was already approved; a first call waits, or with a time to live that is not positive is refused as expired; a wait is never reported for an expired record |
| `Coordination.LockStepKeepsInv` | src/orchestration/coordination/redis.py:45-58 | Every event keeps each holder's belief and the stored owner in agreement |
| `Coordination.AtMostOneOwner` | src/orchestration/coordination/redis.py:175-211 | At no moment of any run do two tokens both hold one lock, and a token that believes it holds it is the stored owner |
| `Coordination.StaleHandleIsHarmless` | src/orchestration/coordination/redis.py:45-58 | A stale handle replayed at any later time changes no key and no expiry |
| `Coordination.LockGrantedIff` | src/orchestration/coordination/redis.py:175-187 | A lock is granted if and only if it is free and asked for at least a millisecond |
| `Coordination.LockLasts` | src/orchestration/coordination/redis.py:175-187 | A lock taken for t seconds is its owner's while the elapsed milliseconds are at most 1000 t - 1, and free from then on |
| `Coordination.ExtensionLasts` | src/orchestration/coordination/redis.py:197-211 | So is an extended one, counted from the extension |
| `Coordination.SlotLasts` | src/orchestration/coordination/redis.py:62-71 | A slot taken counts, with those before it, for as many whole seconds as were asked for |
| `Coordination.SlotGivenBack` | src/orchestration/coordination/redis.py:73-81 | A slot given back lowers the count by one at every later moment of the key, and does not change how long it lives |
| `Coordination.SlotTheorem` | src/orchestration/coordination/redis.py:62-81 | The counter stays in 0..limit; the slots out exceed it by exactly the dropped ones not yet given back; with no expiry at most limit are out |
| `Coordination.TakeOverAdmitsIff` | src/orchestration/coordination/redis.py:62-71 | A slot is handed out past the limit if and only if the counter has room and dropped slots still out fill that room |
| `Coordination.ExpiryOverAdmits` | src/orchestration/coordination/redis.py:236-253 | For every limit, filling the semaphore and letting its key expire hands out one slot more than the limit |
| `Coordination.Coordinator.AcquireLock` | src/orchestration/coordination/redis.py:175-187 | A handle is returned exactly when the key was free and the expiry at least a whole millisecond, and then the key holds its token |
| `Coordination.Coordinator.ReleaseLock` | src/orchestration/coordination/redis.py:189-195 | Deletes the key exactly when it still holds the handle's token |
| `Coordination.Coordinator.ExtendLock` | src/orchestration/coordination/redis.py:197-211 | Moves the expiry exactly when the key still holds the handle's token; a zero ttl means the handle's own, a fraction of a millisecond deletes the key |
| `Coordination.Coordinator.AcquireSlot` | src/orchestration/coordination/redis.py:236-245 | Counts up and refreshes the expiry, in whole seconds, exactly when below the limit |
| `Coordination.Coordinator.ReleaseSlot` | src/orchestration/coordination/redis.py:247-253 | Counts down, never below zero, and leaves the expiry |
| `JsonSpans.ScanLexeme` | src/orchestration/llm/base.py:350-367 | Scanning one whole lexeme moves the depth by its brace and stops only at a last closing brace |
| `JsonSpans.SpanStops` | src/orchestration/llm/base.py:336-368 | The end of a balanced span is the scanner's first stop after the first brace |
| `JsonSpans.OnlySpan` | src/orchestration/llm/base.py:336-368 | A text has at most one balanced span from its first brace, and the first stop decides it |
| `JsonSpans.Parse` | src/orchestration/llm/base.py:350-367 | Any text scanned without a stop is whole lexemes and perhaps one open string literal, at positive depth |
| `JsonSpans.OutermostObjectSpan` | src/orchestration/llm/base.py:336-368 | The scanner returns the text of the balanced span if there is one and nothing otherwise |
| `JsonText.EscapedIsBody` | src/orchestration/llm/base.py:352-359 | Escaping, however its characters are written, leaves no quotation mark that could end the literal early |
| `JsonText.EscapeFormsAreBodies` | src/orchestration/llm/base.py:352-359 | Every escape form of RFC 8259, section 7, is one the printer may use |
| `JsonText.EscapeCharIsBody` | src/orchestration/llm/base.py:352-359 | So is escaping only what must be escaped |
| `JsonText.PrintIsNested` | src/orchestration/llm/base.py:336-368 | Every printed JSON value, in any layout, reads as lexemes whose brace height never goes negative and ends at zero |
| `JsonText.PrintedObjectIsFound` | src/orchestration/llm/base.py:336-368 | In any layout and escaping, with any prefix free of opening braces and any suffix, the one right answer is exactly the printed object |
| `JsonText.FindPrinted` | src/orchestration/llm/base.py:336-368 | Printing any object into any such reply and scanning it returns the printed text |
| `JsonText.ExtractJsonObject` | src/orchestration/llm/base.py:278-333 | The whole reply, then a fenced block, then the balanced span; a whole reply that is other JSON is refused at once |
| `Retries.JitterBounds` | src/orchestration/domain/retry.py:125-133 | Jitter never lengthens the window, and equal jitter never goes below half of it |
| `Retries.BackoffBounds` | src/orchestration/domain/retry.py:93-123 | A delay is between 0 and the ceiling, and within the attempt's own window when no hint applies, up to the fourth decimal |
| `Retries.WindowGrows` | src/orchestration/domain/retry.py:107-110 | The window is the initial backoff at first and from one attempt to the next is multiplied, up to the ceiling, so it never falls |
| `Retries.UnjitteredDelays` | src/orchestration/domain/retry.py:93-123 | Without jitter or hint a delay is the rounded window, the first the initial backoff, none shorter than the one before |
| `Retries.BackoffAtLeast` | src/orchestration/domain/retry.py:111-123 | From below: a respected hint is waited out as far as the ceiling allows, equal jitter keeps half the window, no jitter all of it |
| `Retries.JitterSpans` | src/orchestration/domain/retry.py:125-133 | The jittered delay runs evenly with the draw, from zero under full jitter or half the window under equal jitter, to the window |
| `Retries.ChainCalls` | src/orchestration/llm/factory.py:333-344 | Whatever faults occur a chain makes at most max_attempts calls, all but the last of them failures |
| `Retries.ChainEnds` | src/orchestration/domain/retry.py:73-91 | A chain goes on over faults to be retried and nothing else: it ends with a reply, the first fault that is not, or the last attempt; each pause is for the attempt, fault and draw at hand |
| `Retries.ChainSleepsNoHint` | src/orchestration/domain/retry.py:146-161 | Without hints, or under a policy that ignores them, the sleeps fit the windows of the attempts that remain, up to rounding |
| `Retries.ChainSleepsAtMostCeiling` | src/orchestration/domain/retry.py:93-123 | With or without hints a chain sleeps at most the rounded ceiling once per retry |
| `Retries.SleepsWithinWorstCase` | src/orchestration/domain/retry.py:146-161 | Without hints, or under a policy that ignores them, the total is at most the published worst case, up to half a fourth decimal per attempt |
| `Retries.WorstCaseIsReached` | src/orchestration/domain/retry.py:146-161 | A provider that always fails makes an unjittered chain use every attempt and sleep the published worst case, up to rounding |
| `Retries.SleepsAddUp` | src/orchestration/llm/factory.py:341-344 | Leaving out zero delays loses nothing: the sleeps made add up to the length of the pauses |
| `Retries.RetryingProvider.Complete` | src/orchestration/llm/factory.py:333-344 | The retry loop makes exactly the calls and sleeps of the specified chain |
| `StructuredGeneration.GeneratedBounds` | src/orchestration/llm/base.py:400-480 | At most (repairs + 1) * max_attempts provider calls; every reply but the last failed the schema; a value is returned only when the schema accepts the last reply |
| `StructuredGeneration.GeneratedEnds` | src/orchestration/llm/base.py:400-480 | What ended the run is what the last provider call came back with |
| `StructuredGeneration.RepairsBounded` | src/orchestration/llm/base.py:400-480 | At most one attempt more than the repairs allowed, exactly so many when it gives up; the report counts the replies and says repaired if and only if the first was not accepted |
| `StructuredGeneration.ReportAddsUp` | src/orchestration/llm/base.py:400-480 | Problems, tokens and cost of a report add up over the replies in order |
| `StructuredGeneration.GeneratedSleeps` | src/orchestration/llm/base.py:400-480 | A whole structured run sleeps at most one chain ceiling per attempt at a valid reply, whatever hints are given |
| `StructuredGeneration.GeneratedSleepsNoHint` | src/orchestration/llm/base.py:400-480 | Without hints, or under a policy that ignores them, it sleeps at most the published worst case per attempt, up to rounding |
| `StructuredGeneration.CompleteStructured` | src/orchestration/llm/base.py:400-480 | The repair loop over the retrying provider makes the specified calls and sleeps, and its report is the sum over the replies received |
| `Budgets.AdmittedCounts` | src/orchestration/budget/meter.py:175-214 | Branch reservations with unused ids succeed one by one until the step allowance is used up |
| `Budgets.FitIsAdmitted` | src/orchestration/budget/meter.py:229-240 | The fan-out computed in advance is exactly how many such reservations would succeed, limited or not, over budget or not |
| `Budgets.BudgetUsage.AddLlmUsage` | src/orchestration/domain/budget.py:134-139 | Tokens are added exactly, the cost is rounded at eight decimals, and the call is counted |
| `Budgets.BudgetMeter.Check` | src/orchestration/budget/meter.py:130-150 | Reports the first dimension in order in which recorded and held amounts together pass the limit, and nothing if and only if every limit is kept |
| `Budgets.BudgetMeter.WouldExceed` | src/orchestration/budget/meter.py:152-173 | Reports a dimension if and only if the spend asks for something of one that it would carry past its limit, recorded and held amounts included |
| `Budgets.ExceededIff` | src/orchestration/budget/meter.py:97-128 | Exceeded, dimension by dimension: the recorded tally and the sum of the holds against its own limit |
| `Budgets.RefusedIff` | src/orchestration/budget/meter.py:152-173 | Refused, dimension by dimension, whatever is asked for |
| `Budgets.PutReplaces` | src/orchestration/budget/meter.py:175-214 | A reservation under an id already held takes the place of that hold and leaves the others |
| `Budgets.BudgetMeter.TryReserve` | src/orchestration/budget/meter.py:175-214 | Holds the amounts exactly when no dimension would be breached, and changes nothing otherwise |
| `Budgets.BudgetMeter.Drop` | src/orchestration/budget/meter.py:216-227 | Commit and release both remove exactly the named hold |
| `Budgets.BudgetMeter.FitParallelBranches` | src/orchestration/budget/meter.py:229-240 | Computes the specified fan-out |
| `Budgets.BudgetMeter.RecordRetry` | src/orchestration/budget/meter.py:250-251 | The retry counter of the shared usage object grows by the count |
| `Budgets.BudgetMeter.RecordAgentStep` | src/orchestration/budget/meter.py:244-245 | Only the step counter of the shared usage object grows |
| `Budgets.BudgetMeter.RecordToolCall` | src/orchestration/budget/meter.py:247-248 | Only the call counter of the shared usage object grows |
| `Budgets.BudgetMeter.RecordLlmUsage` | src/orchestration/budget/meter.py:253-256 | Recording an LLM call needs no reservation and changes only the shared usage object |
| `BudgetRuns.StepIsMeterStep` | src/orchestration/budget/meter.py:175-227 | Every event of a run is the meter's own reserve, record or drop, or one the discipline keeps from it |
| `BudgetRuns.HoldsCoverOutstanding` | src/orchestration/budget/meter.py:260-271 | Open holds cover what may still be charged to them, so counting holds and recorded spend twice is the stricter test |
| `BudgetRuns.TakeFits` | src/orchestration/budget/meter.py:152-214 | An accepted reservation fits beside everything recorded and still chargeable |
| `BudgetRuns.RecordedUsageStaysWithinLimit` | src/orchestration/budget/meter.py:97-108 | Over every interleaving of disciplined reserve, record, commit and release, recorded usage stays within the limit in all four dimensions; for a cost finer than eight decimals, up to the rounding of its charge |
| `BudgetRuns.RecordedCostStaysWithinLimit` | src/orchestration/domain/budget.py:134-139 | When no charge rounds up at the eighth decimal, the cost limit holds exactly |
| `BudgetRuns.CostLimitHoldsIffPricesRoundDown` | src/orchestration/domain/budget.py:134-139 | Calls at given prices keep every disciplined run within every cost limit if and only if no price rounds up at the eighth decimal |
| `BudgetRuns.QuotedCostRoundsDown` | src/orchestration/domain/model.py:69-79 | The cost the registry quotes is the rounded price per million tokens, never rounds up when recorded, and neither does a rounded total of quotes |
| `BudgetRuns.RecordedCostIsExact` | src/orchestration/domain/budget.py:134-139 | For costs of at most eight decimals the stored cost is the exact sum |
| `BudgetRuns.RecordedCostIsClose` | src/orchestration/domain/budget.py:134-139 | After n calls the stored cost has only grown and is within n half-units of the exact sum, and input tokens, output tokens and calls are exact |
| `BudgetRuns.UsageNeverShrinks` | src/orchestration/budget/meter.py:244-256 | Recorded usage never falls in any dimension over any use of the meter |
| `BudgetRuns.ExceededForever` | src/orchestration/budget/meter.py:130-150 | Once what is recorded by itself exceeds a limit, in any of the six dimensions, every later check fails, whatever is reserved, recorded with or without a reservation, retried or dropped |
| `Rounding.Round8OnGrid` | src/orchestration/domain/budget.py:138 | Rounding at eight decimals lands on whole units and leaves exactly those alone |
| `Rounding.RoundMonotone` | src/orchestration/domain/budget.py:138 | Rounding never reverses an order |
| `Rounding.NearestIff` | src/orchestration/domain/budget.py:138 | Rounding takes the nearest unit, and the even one of two equally near |
| `Rounding.RoundsAreNearest` | src/orchestration/domain/evaluation.py:173 | At four, six and eight decimals |
| `Policies.AfterRulesIsStrictest` | src/orchestration/policies/engine.py:223-240 | The rule loop with its early return is the strictest of all applicable rules and the flag it started with |
| `Policies.EvaluationIsStrictest` | src/orchestration/policies/engine.py:165-257 | The early-return evaluation has the strictest effect of all its layers |
| `Policies.FirstObjectionIsNamed` | src/orchestration/policies/engine.py:165-257 | A denial names the first layer in order that denies, and a deployment rule only when none does |
| `Policies.FirstDenialIsNamed` | src/orchestration/policies/engine.py:223-240 | And among the rules the first that denies |
| `Policies.IdleRule` | src/orchestration/policies/engine.py:98-103 | A rule that allows, whose pattern misses the tool or the agent, or whose minimum risk is above the tool's, can be deleted without changing the decision |
| `Policies.MinimumRiskMet` | src/orchestration/policies/engine.py:98-103 | A rule whose minimum is at or below the tool's risk decides exactly as without a minimum |
| `Policies.MatchingRuleBinds` | src/orchestration/policies/engine.py:223-240 | Without a minimum, a rule whose patterns match is never overridden by anything more lenient |
| `Policies.RiskierIsNoLooser` | src/orchestration/policies/engine.py:98-114 | With approval levels closed upwards, raising a tool's risk never loosens the effect |
| `Policies.ExecutesIff` | src/orchestration/policies/approvals.py:400-441 | A call goes through if and only if it is permitted outright or needs an approval that was granted |
| `Policies.InsertingRuleNeverLoosens` | src/orchestration/policies/engine.py:223-257 | A deployment rule inserted anywhere never loosens the effect |
| `Policies.PermutingRulesChangesNothing` | src/orchestration/policies/engine.py:223-257 | Reordering the deployment rules never changes the effect |
| `Policies.AllowsNeverExceedCeiling` | src/orchestration/policies/engine.py:259-284 | Within one lifetime of the engine, over any requests by any executions, a pair's tally grows by exactly its ALLOWs and never passes the larger of max_calls and where it started |
| `Policies.ExhaustedIsDeniedForever` | src/orchestration/policies/engine.py:270-284 | From then on every request of the pair is denied |
| `Policies.ApprovalGatedCallsAreNotCounted` | src/orchestration/api/runner.py:207-213 | A request the configuration sends to a reviewer is never tallied |
| `Policies.AsksApprovalIff` | src/orchestration/policies/engine.py:165-257 | The policy asks for approval if and only if the configuration does and the ceiling is not reached |
| `Policies.CeilingBoundsExecutionsIff` | src/orchestration/policies/approvals.py:400-441 | Within one lifetime of the engine, the calls that go through, granted approvals included, never exceed max_calls if and only if no arguments send the pair to a reviewer |
| `Policies.CeilingOfOnePassed` | src/orchestration/policies/approvals.py:400-441 | For a tool registered as requiring approval, any number of granted calls go through under a ceiling of one |
| `CallCeilings.TallyIsOwnPlusOthers` | src/orchestration/policies/engine.py:259-268 | A pair's tally is one execution's own ALLOWs since the last restart and all the others' together |
| `CallCeilings.DeniedWithCallsLeftIff` | src/orchestration/policies/engine.py:270-284 | A request the configuration allows is denied to an execution below its own ceiling if and only if own < max_calls <= own + others |
| `CallCeilings.AllowsPerLifetime` | src/orchestration/api/state.py:150 | Over any run, an execution's ALLOWs are at most max_calls times one more than the restarts |
| `CallCeilings.LifetimesReached` | src/orchestration/policies/engine.py:124-127 | And one execution reaches that, for every number of restarts |
| `CallCeilings.PassesWithinLifetimesIff` | src/orchestration/policies/approvals.py:400-441 | What goes through for one execution keeps to that bound in every run if and only if no arguments send the pair to a reviewer |
| `CallCeilings.RestartResetsCeiling` | src/orchestration/policies/engine.py:124-127 | Across a restart an execution makes two calls under a ceiling of one |
| `CallCeilings.OtherExecutionUsesCeiling` | src/orchestration/domain/tool.py:131-132 | An execution that has made no call is denied its first because another has used the ceiling up |
| `Policies.PolicyEngine.AuthoriseTool` | src/orchestration/policies/approvals.py:400-441 | Allows exactly the calls that go through, and tallies only outright permissions |
| `Policies.PolicyEngine.Evaluate` | src/orchestration/policies/engine.py:165-257 | The method with its loop computes the specified decision, including which layer decided |
| `Policies.PolicyEngine.RecordCall` | src/orchestration/policies/engine.py:259-263 | Only the pair's own tally grows, by one |
| `Policies.PolicyEngine.Authorise` | src/orchestration/api/runner.py:207-213 | Evaluates against the tallies before the call and counts exactly the outright ALLOWs |
| `Overlaps.LevelCountsRunning` | src/orchestration/evaluation/judge.py:62-67 | For nodes that end no earlier than they start, starts up to an instant less ends before it count the closed intervals around it |
| `Overlaps.SweepCoversLevel` | src/orchestration/evaluation/judge.py:75-80 | In sorted order, with starts ahead of ends on ties, the sweep never peaks below the level of any instant |
| `Overlaps.SweepIsAttained` | src/orchestration/evaluation/judge.py:75-80 | A positive peak of the sweep is the level of some instant at which a node starts |
| `Overlaps.OverlapIsPeak` | src/orchestration/evaluation/judge.py:53-80 | The result is the larger of 1 and the greatest number of closed intervals sharing an instant, arbitrary ties included |
| `Overlaps.PeakIsUnique` | src/orchestration/evaluation/judge.py:53-80 | That description fits only one number |
| `Overlaps.TouchingIntervalsOverlap` | src/orchestration/evaluation/judge.py:54 | Two intervals that only touch count as two, where the documented half-open number is one |
| `Overlaps.HalfOpenAgreesIff` | src/orchestration/evaluation/judge.py:54-76 | For well-timed nodes the result is the documented half-open peak if and only if it is one or is reached at an instant at which no node completes |
| `Overlaps.HalfOpenAgreesWithoutTies` | src/orchestration/evaluation/judge.py:54-76 | In particular when no node completes at the very instant at which one starts |
| `Overlaps.MaxOverlap` | src/orchestration/evaluation/judge.py:53-80 | The collecting and sweeping loops compute that number |
| `Percentiles.CurveMonotone` | src/orchestration/domain/evaluation.py:169-173 | The interpolated curve never falls, across segment boundaries too |
| `Percentiles.PercentileIgnoresOrder` | src/orchestration/domain/evaluation.py:166 | A percentile is invariant under permutation of the values |
| `Percentiles.PercentileWithinRange` | src/orchestration/domain/evaluation.py:157-173 | It lies between the rounded minimum and maximum and equals them at q = 0 and q = 1 |
| `Percentiles.PercentileMonotoneInQ` | src/orchestration/domain/evaluation.py:169-173 | It is nondecreasing in q on [0, 1] |
| `Percentiles.PercentileMonotoneInValues` | src/orchestration/domain/evaluation.py:157-173 | It never falls when every value is raised pointwise |
| `Percentiles.PercentileInterpolates` | src/orchestration/domain/evaluation.py:169-173 | Between the quantiles of neighbouring ordered values it is their mixture in the same proportion, rounded |
| `Percentiles.PercentileAtKnot` | src/orchestration/domain/evaluation.py:169-173 | At q = k / (n - 1) it is the rounded k-th ordered value |
| `Percentiles.PercentileOfFew` | src/orchestration/domain/evaluation.py:157-168 | Of no values it is zero, of one that value rounded |
| `Sorting.SortSorts` | src/orchestration/domain/evaluation.py:166 | Sorting keeps the elements and puts them in order |
| `Sorting.SortedIsUnique` | src/orchestration/domain/evaluation.py:166 | When ties are equal elements, there is only one sorted arrangement |

## Left out

- Executor, agents, tools and the supervisor's own reasoning: the executor is any list of status moves through the table followed by any values of the other fields; the supervisor is any list of validated decisions.
- How a plan is compiled: it is an arbitrary graph, so the layer theorems cover runs without a replan; what a replan leaves is in `RunLeavesLastPlanGrown`.
- The text of a crash's reason, which names the exception raised.
- Edge ids, conditions, labels and retry policies on nodes, and the workflow's name, tags and variables: none affects the shape.
- The list of current nodes, cleared when an execution ends, and the `updated_at` stamp of each move.
- Supervisor token accounting inside the turn loop: the same recording operation is covered in the budget model.
- Events, metrics, tracing and logging, and the budget warning callback; the event bus isolates its sinks, so emitting never raises.
- Transactions: each is one atomic step at its commit; isolation levels and advisory locks are not modelled. Whether a session accepts statements after the rollback inside `append` is a parameter of the interleaved managers.
- The executions table and its status row, the foreign keys, and resuming from a chosen sequence number.
- Digests: taken to be injective on their payload, and so represented by the payload.
- Approvals.ApprovalService.Resolve: one uninterrupted call; the raising outcomes belong to the interleaved steps of a gate, where they are stated exactly.
- State documents are values: two writers sharing one in-memory document object are not modelled.
- Checkpoint rows are read back in insertion order, which the dense numbering makes the same as sequence order.
- `json.loads`, `strip` and the fenced-block pattern are parameters of extraction; schema validation is one function from reply text to a value or problems.
- The growth of repair prompts: the provider is a finite tape of replies and faults of any content and length.
- Shell-style pattern matching and the constraint vocabulary of permissions are parameters of the policy engine; reasons as prose are reduced to the deciding layer.
- Clocks, jitter draws, lock tokens and ids are inputs; tokens are assumed never to be drawn twice.
- Slots are given back only by their holders and once each, as the context manager does; a stray release of a slot never taken is not part of the slot runs.
- Floats are exact reals: rounding at four, six and eight decimals is modelled, binary representation error is not.
- Percentiles.Percentile: defined for q between 0 and 1; the code has no check and would index out of range or extrapolate outside it.
- Overlaps.OverlapIsPeak: asks that no node end before it starts, as timestamps taken in order do; the sweep itself is proved on all inputs.
- Budgets.FitIsAdmitted: asks for a cost of at least one step per branch, since a reservation of nothing is never refused.
- BudgetRuns.RecordedUsageStaysWithinLimit: for costs finer than eight decimals it allows half a unit of the eighth decimal per charge, because the code rounds; the exact condition is a theorem of its own.
- StateRace.OneWinner: two writers at a time; any number follows from the versions theorem.
- HTTP API, CLI, frontend, migrations, provider adapters, model routing, agent registry, redaction and `tightened_to`: plumbing, or easy next to the above.
