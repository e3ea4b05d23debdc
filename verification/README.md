# Verification of the War Room control plane

A Dafny model of the parts of the system that carry protocol or algorithm content, with machine-checked proofs.
`dafny verify dfyconfig.toml` checks all of it.

| files | what they model |
|---|---|
| `Graphs`, `ExecutionCompiler`, `ExecutionUnits`, `ExecutionReadiness`, `Scheduler`, `Workflows` | the workflow compiler with its recursive cycle search, the unit store, the readiness evaluator, and workers that evaluate, claim and start units in any order |
| `Lifecycle`, `LifecycleLaws`, `LifecycleTheorems`, `LifecycleReopening`, `EndpointContracts`, `WorkerContracts`, `EndpointMeanings`, `WarRoomActions` | the task lifecycle: what each endpoint and worker step does to the tables, the laws they all obey, theorems about whole runs, what each endpoint asks and writes row by row, what an accepted request guarantees, and the endpoints as methods over mutable tables |
| `LiveRecovery`, `LiveRecoveryRuns`, `LiveDecisions`, `LiveController` | the live recovery controller: evaluations, recovery threads and nudge threads over one append-only log, when it comes to each action, and the controller as a class |
| `Strings`, `Handoff`, `StableDigest` | the handoff writer with its validator, and the digest material that ignores volatile fields |
| `Base64`, `Cursor`, `FreshContext`, `Timeline`, `TimelineWalk` | the opaque cursor, the context token, and walks through the timeline while messages change |
| `Documents` | the document registry with its version chains |
| `Collector`, `CollectorRuns` | the single-flight refresh of the AI server telemetry, thread by thread |
| `SessionIntegrity` | the snapshot comparison and the gate that reads it |

A plan (`Lifecycle.Plan`) says what an endpoint would do with a request; `Lifecycle.Serve` adds the frame all
endpoints share: refuse, replay a recorded response, or commit the effect together with its idempotency row. The
methods of `WarRoomActions.WarRoom` work row by row and are proved to do exactly what the plans say. `LifecycleLaws`
proves each plan lawful, and `LifecycleTheorems` derives the properties of runs from the laws. The class keeps the
invariant of these runs as its own (`Valid`), every endpoint takes a lawful step (`Answered`), and further
postconditions, proved in `EndpointMeanings` from plan and invariant, say what an accepted request means.

What an operation promises is stated a second time in terms of rows, statuses and lines alone, without naming the
functions that compute it: `EndpointContracts` and `WorkerContracts` say of the tables and the request when an endpoint
grants and which rows it then leaves (`Answers` and the effect in the postconditions of `WarRoom`), `LiveDecisions` when
an evaluation comes to each of its actions and what it writes, and the compiler, the evaluator, the unit store, the
registry, the collector, the comparison, the timeline and the handoff state their results in that way next to the code
that is proved to meet them.

`Workflows` joins compiler, store and scheduler: in its runs intents are compiled and stored while workers claim, start
and finish units of other tasks.

## Where the code does not keep a promise

* A completed task is not final. The worker's conflict handling updates the task without a status guard, so when a
  delivery of the completed revision is still under way and its answer differs from the others, the task goes back to
  rework (`LifecycleReopening.CompletedTaskReopens`, a run in which the reviewer gives PASS at the endpoint while its
  delivery is still out); `LifecycleTheorems.ReopensIff` gives the exact condition.
* A workflow in which a unit that never ran is two or more steps away from its lost ones keeps its parent RUNNING when
  nothing can move any more: `Workflows.ParentStaysRunningIff` gives the exact condition, `Workflows.QuiescentForGood`
  says that workers alone never change it, and `Workflows.FailedChainStaysRunning` is a chain that stays RUNNING through
  everything but a report that the failed run has passed.
* READY ignores claims: a READY unit can be claimed exactly when nobody has ever won its claim
  (`Scheduler.ReadyIsClaimableIffNeverWon`). A claim is never given back, so a unit whose start fails after the claim
  reads READY for good (`Scheduler.ReadyAndUnclaimable`, `Scheduler.FailedDispatchStaysReady`).
* Registering the same path and digest again adds no version if the document is named. Looked up by path it goes to the
  latest document there, which may be another one with other content: `Documents.RepeatCanAddIff` gives the exact
  condition, `Documents.RivalIsReached` a history that meets it, and `Documents.RepeatAddsNothing` the case in which the
  promise holds.
* The recovery log is written without escaping non-ASCII text and read with a splitter that also breaks at Unicode line
  separators. A row holding such a character becomes unreadable pieces, and a recovery whose only row is split leaves no
  trace (`LiveRecoveryRuns.SplitOutcomeIsForgotten`). The distance between recoveries is proved for the rows that can
  be read, which includes the outcome row whenever its text is not split (`LiveRecoveryRuns.RecoveriesFarApart` with
  `clean`).
* A run id, run status or severity with line breaks can make the writer's own handoff unacceptable: exactly when it
  brings the heading of a section, not met before it, with only blank text up to an empty line under it
  (`Handoff.HandoffAcceptedIff`; `Handoff.FieldCanSpoil` shows for each of the three fields, all other evidence and all
  sections whose heading is not met earlier that it can happen).
* A cursor gives its id back exactly when no high surrogate stands directly before a low one
  (`Cursor.CursorRoundTripIff`); text read from the database never holds surrogates. The timeline endpoint refuses
  cursors of more than 256 characters, so it cannot be paged past an id whose JSON text makes the pair longer than 192
  characters (`Cursor.CursorFitsIff`).
* The collector's event can be set while a refresh is under way, when a thread sets it after another has already
  claimed the next refresh (`CollectorRuns.EventSetDuringRefresh`). `CollectorRuns.SetEarlyIff` gives the exact
  condition: some thread still owes a signal at the claim.

## Model

| member | source | states |
|---|---|---|
| `ExecutionCompiler.OrderAgents` | war_room_execution_compiler.py:76-82 | Refuses exactly when some agent is empty; otherwise the agents without repetitions, in order of first appearance (each before another exactly as it appears before the other's first place) |
| `ExecutionCompiler.FirstOccurrencesFix` | war_room_execution_compiler.py:78-86 | Order of first appearance, no repetitions and the same elements fix the list |
| `ExecutionCompiler.AssignIds` | war_room_execution_compiler.py:96-113 | Every distinct agent gets its own id from the factory, or an empty or repeated id is reported; succeeds exactly when the ids it draws are usable |
| `ExecutionCompiler.AlreadyUsed` | war_room_execution_compiler.py:105-106 | Finds a repeated execution id exactly when an earlier draw gave the same one |
| `ExecutionCompiler.NormalizeDependencies` | war_room_execution_compiler.py:141-150 | The dependencies without repetitions in order of first appearance, or the first faulty one with what is wrong with it: empty, the agent itself, or not an agent |
| `ExecutionCompiler.ResolveEntry` | war_room_execution_compiler.py:128-158 | Role and dependencies as the workflow lists them, exactly when the agent has a usable entry, otherwise the first thing that is wrong with it |
| `ExecutionCompiler.ResolveWorkflow` | war_room_execution_compiler.py:115-158 | Succeeds exactly when every agent's entry is usable, with an entry for each agent; otherwise the fault of the first agent that has one |
| `ExecutionCompiler.CycleSearch.Visit` | war_room_execution_compiler.py:166-175 | The recursive search ends; it reports a node that reaches itself, or extends the finishing order by everything below the node |
| `ExecutionCompiler.CycleSearch.VisitAll` | war_room_execution_compiler.py:162-178 | Over all nodes and in any visiting order the search reports no cycle if and only if the graph has none |
| `ExecutionCompiler.OpenCallsCloseACycle` | war_room_execution_compiler.py:167-168 | A node met again while it is being visited closes a cycle through the open calls |
| `ExecutionCompiler.Translate` | war_room_execution_compiler.py:191-195 | Each dependency is replaced by the execution id of its agent |
| `ExecutionCompiler.BuildUnits` | war_room_execution_compiler.py:180-201 | One unit per distinct agent, with its id, role and translated dependencies |
| `ExecutionCompiler.CompileTaskIntent` | war_room_execution_compiler.py:39-209 | Succeeds exactly for named input with usable ids, usable entries and an acyclic dependency graph; unit i belongs to the i-th agent in order of first appearance, has the i-th id of the factory, the listed role, and the ids of what the agent depends on in order of first appearance; every error names the first thing that is wrong, in the order of the checks |
| `ExecutionCompiler.TranslationPreservesReach` | war_room_execution_compiler.py:180-201 | One agent reaches another if and only if its unit reaches the other's unit |
| `ExecutionCompiler.UnitGraphIsClosed` | war_room_execution_compiler.py:180-201 | Translated dependencies name only units of the same workflow |
| `ExecutionCompiler.CompiledGraphIsAcyclic` | war_room_execution_compiler.py:162-201 | What the compiler accepts has a closed, acyclic graph of execution ids |
| `Graphs.FinishedIsAcyclic` | war_room_execution_compiler.py:173-175 | The finishing order is a rank: a node with a place in it cannot reach itself |
| `Graphs.WalkGoesBack` | war_room_execution_compiler.py:173-175 | Along a walk the place in the finishing order only falls |
| `Graphs.UnionIsAcyclic` | war_room_execution_units.py:151-189 | Closed acyclic graphs side by side stay closed and acyclic |
| `ExecutionUnits.InsertableIsFresh` | war_room_execution_units.py:151-189 | Inserting row by row goes through exactly for fresh, pairwise distinct ids |
| `ExecutionUnits.InsertedRows` | war_room_execution_units.py:151-189 | A fresh batch ends up unchanged in the table, old rows stay, nothing else appears |
| `ExecutionUnits.ExecutionUnitStore.FindExistingWorkflow` | war_room_execution_units.py:151-189 | Reports a unit of an already stored workflow exactly when there is one |
| `ExecutionUnits.ExecutionUnitStore.InsertAll` | war_room_execution_units.py:151-189 | Row by row: all rows with their fields as given, or the table as it was and the first row that could not be stored, with a taken id reported before a missing parent |
| `ExecutionUnits.ExecutionUnitStore.CreateUnits` | war_room_execution_units.py:151-189 | Stores the batch exactly when no workflow of its task may be stored twice and every row fits; otherwise nothing, with the error that stopped it |
| `ExecutionUnits.ExecutionUnitStore.ClaimForDispatch` | war_room_execution_units.py:216-228 | Claims a unit exactly when it exists, has no run and is unclaimed; a lost race changes nothing |
| `ExecutionUnits.ExecutionUnitStore.UpdateCoreRunId` | war_room_execution_units.py:288-296 | Stores the run id of an existing unit, and nothing else changes |
| `ExecutionUnits.ExecutionUnitStore.FinalizeWorkflowProjection` | war_room_execution_units.py:314-329 | Finalises the parent once, to a terminal status; later calls change nothing |
| `ExecutionReadiness.Evaluate` | war_room_execution_readiness.py:77-167 | In terms of the stored units and the reported run statuses alone: the own outcome, READY exactly without a run and with every dependency passed, BLOCKED exactly with the first failed, unknown or missing dependency, WAITING exactly with the first one that is active or not started; the errors for malformed units |
| `ExecutionReadiness.EvaluateDependencies` | war_room_execution_readiness.py:110-167 | The same for a unit without a run, naming the first dependency that decides it |
| `ExecutionReadiness.DetailOutcome` | war_room_execution_readiness.py:142-167 | A dependency counts as SUCCESS for PASS, FAILURE for FAIL, BLOCKED, TIMED_OUT and CANCELLED, ACTIVE for QUEUED and RUNNING, UNKNOWN for any other status or none, NOT_STARTED without a run, NOT_FOUND without a unit |
| `ExecutionReadiness.OwnOutcome` | war_room_execution_readiness.py:77-108 | A unit's own run is read in the same way, but a status outside the list counts as NOT_STARTED with a run |
| `ExecutionReadiness.DependencyDetails` | war_room_execution_readiness.py:110-167 | The loop reads every dependency in order |
| `ExecutionReadiness.FirstWhere` | war_room_execution_readiness.py:117-160 | The first dependency detail with a property, or none |
| `Scheduler.EvaluatorAgrees` | war_room_execution_readiness.py:77-167 | What the evaluator answers is the readiness the scheduler steps act on |
| `Scheduler.ReadinessMeans` | war_room_execution_readiness.py:77-167 | A unit is READY exactly when it has no run and all its dependencies have a run in PASS |
| `Scheduler.StepMeans` | war_room_execution_units.py:216-296 | What each step changes: a claim sets the claim of an unclaimed READY unit without a run, a start its run id, a report one run status, and nothing else moves |
| `Scheduler.StepIsStable` | war_room_execution_units.py:216-296 | No step changes the dependency graph, takes a run away or undoes a PASS |
| `Scheduler.StepKeepsInv` | war_room_execution_units.py:216-228 | Every step keeps: started units have passed dependencies, claims are unique, ids stay bound |
| `Scheduler.RunKeepsInv` | war_room_execution_units.py:216-228 | The invariant after any sequence of evaluate, claim, start and report steps |
| `Scheduler.StartedUnitsHavePassedDependencies` | war_room_execution_readiness.py:117-167 | A unit with a run has all direct and indirect dependencies in PASS, under every interleaving |
| `Scheduler.ClaimedAtMostOnce` | war_room_execution_units.py:216-228 | No unit is successfully claimed twice |
| `Scheduler.CyclicUnitsNeverStart` | war_room_execution_readiness.py:117-167 | A unit on a dependency cycle never gets a run |
| `Scheduler.UnfinishedDependency` | war_room_execution_readiness.py:117-167 | In a quiescent state a unit without a run waits for one that is lost or never ran |
| `Scheduler.TraceToLoss` | war_room_execution_readiness.py:117-167 | From a unit that never ran a walk leads to a lost dependency |
| `Scheduler.StuckOnlyByLoss` | war_room_execution_readiness.py:77-167 | Once nothing is READY or active, every unit that never ran depends on one that failed or became unknown; with no such unit all have passed |
| `Scheduler.CycleSticks` | war_room_execution_compiler.py:162-178 | With a cycle, workers that start from unclaimed units get stuck in some run although nothing was lost |
| `Scheduler.StickableIffCyclic` | war_room_execution_compiler.py:162-178 | Over all runs from unclaimed units: a closed graph admits one that gets stuck without a loss if and only if it has a cycle |
| `Scheduler.QuiescentIsFinal` | war_room_execution_readiness.py:77-167 | In a quiescent state only status reports can still change anything |
| `Scheduler.ReadyIsClaimableIffNeverWon` | war_room_execution_units.py:216-228 | READY ignores claims: in every run a READY unit can be claimed exactly when nobody has ever won its claim |
| `Scheduler.ReadyAndUnclaimable` | war_room_execution_units.py:216-228 | Every unit that is READY at first has a run after which it reads READY and nobody can claim it |
| `Scheduler.FailedDispatchStaysReady` | war_room_execution_units.py:216-228 | A claim is never given back: a claimed unit is never claimable again, and without a start it reads READY for good |
| `Workflows.CompileAndPersist` | war_room_orchestration.py:121-160 | Stores all units of an intent or none, and exactly for known agents, compilable input, fresh ids, existing parents and a task without units |
| `Workflows.StoringKeepsSound` | war_room_orchestration.py:139-160 | Storing a compiled workflow keeps the unit table acyclic and every task closed under dependencies |
| `Workflows.SystemKeepsInv` | war_room_orchestration.py:121-160 | From empty tables, with compilations, workers and runs interleaved in any way, the scheduler invariant and the soundness of the table hold |
| `Workflows.SystemStartsRestOnPasses` | war_room_execution_readiness.py:117-167 | Whatever is compiled meanwhile, what a started unit depends on, directly or not, is in PASS |
| `Workflows.CompiledWorkflowsNeverStick` | war_room_orchestration.py:121-160 | The joint theorem over runs in which intents are compiled and stored while workers act: once no unit of a task is READY or active, each of its units that never ran depends on a lost unit of that task, and with none lost all have passed |
| `Workflows.WorkflowSummary` | war_room_orchestration.py:224-299 | RUNNING exactly when some child can still run or has an unresolved status, completed exactly when otherwise all required ones passed, failed exactly when otherwise a required one failed, and blocked in the remaining case |
| `Workflows.ParentStaysRunningIff` | war_room_orchestration.py:224-299 | In any run of the joint system from empty tables, when nothing of a task can move any more, its parent still reads RUNNING exactly when a status is unresolved or some unit that never ran has no lost direct dependency but a walk of at least two steps to a lost unit of the task |
| `Workflows.QuiescentForGood` | war_room_execution_readiness.py:117-167 | Once nothing can move, no run of the workers without a report of a run status changes what any unit or parent reads |
| `Workflows.FailedChainStaysRunning` | war_room_orchestration.py:224-299 | For every chain of three a run after which nothing moves and, its first unit failed, only the last keeps the parent RUNNING, through every continuation that holds no report that the failed run has passed |
| `WarRoomActions.WarRoom.CreateProject` | war_room_actions.py:3056-3075 | A permitted request with a fresh key, in a current context where the endpoint asks for one, is granted exactly for an id that is not taken. It then leaves the project going, with no task or instruction of its own. Otherwise a refusal or the recorded answer, and no change; every call is a lawful step that keeps the invariant |
| `WarRoomActions.WarRoom.CreateTask` | war_room_actions.py:1812-1863 | A permitted request with a fresh key, in a current context where the endpoint asks for one, is granted exactly for usable input, a new id, a reviewer apart from the agents, a going project and an instruction of it that no other task has. It then leaves one draft with the given fields in revision 1 and cycle 0, with no approval and no verdict. Otherwise a refusal or the recorded answer, and no change; every call is a lawful step that keeps the invariant |
| `WarRoomActions.WarRoom.PrepareTask` | war_room_actions.py:1490-1576 | A permitted request with a fresh key, in a current context where the endpoint asks for one, is granted exactly for usable input, new ids, a reviewer apart from the agents and a going project. It then leaves one task that awaits approval, and its instruction, which is its own alone and has no delivery. Otherwise a refusal or the recorded answer, and no change; every call is a lawful step that keeps the invariant |
| `WarRoomActions.WarRoom.CreateInstruction` | war_room_actions.py:1696-1739 | A permitted request with a fresh key, in a current context where the endpoint asks for one, is granted exactly for a going project, a new id and a task of it without an instruction. It then leaves an instruction that belongs to exactly that task and has no delivery. Otherwise a refusal or the recorded answer, and no change; every call is a lawful step that keeps the invariant |
| `WarRoomActions.WarRoom.ApproveTask` | war_room_actions.py:2618-2653 | A permitted request with a fresh key, in a current context where the endpoint asks for one, is granted exactly for a complete task that awaits approval, its reviewer apart, and an expiry within a week. It then leaves one decision row bound to scope, document, assignee and targets; after an approval it is the only live one, after a rejection none is. Otherwise a refusal or the recorded answer, and no change; every call is a lawful step that keeps the invariant |
| `WarRoomActions.WarRoom.ApproveAndExecute` | war_room_actions.py:1579-1643 | A permitted request with a fresh key, in a current context where the endpoint asks for one, is granted exactly for a reviewer apart, and a task that runs already or awaits approval with an instruction, in time, within its call limit, under new delivery ids. It then leaves one approval row, the expired calls of its agents timed out, and one queued delivery per agent; the task runs on this approval alone. Otherwise a refusal or the recorded answer, and no change; every call is a lawful step that keeps the invariant |
| `WarRoomActions.WarRoom.RevokeApproval` | war_room_actions.py:2938-2953 | A permitted request with a fresh key, in a current context where the endpoint asks for one, is granted exactly for an approval of the task that is not revoked. It then leaves its revocation time and nothing else; if it was live, the task has no live one left. Otherwise a refusal or the recorded answer, and no change; every call is a lawful step that keeps the invariant |
| `WarRoomActions.WarRoom.AssignReviewer` | war_room_actions.py:2656-2747 | A permitted request with a fresh key, in a current context where the endpoint asks for one, is granted exactly for a task without reviewer, not completed, at the expected revision, with nothing under way, and a reviewer apart from its agents. It then leaves the reviewer, a new revision that awaits approval, and its unexpired approvals revoked, so that none is live. Otherwise a refusal or the recorded answer, and no change; every call is a lawful step that keeps the invariant |
| `WarRoomActions.WarRoom.TransitionTask` | war_room_actions.py:2750-2881 | A permitted request with a fresh key, in a current context where the endpoint asks for one, is granted exactly for a move in the status table and what its target asks: the newest open approval, which matches, for a start in time; every delivery answered for QA; a deadline within a week for waiting again. It then leaves one row moved, with its cycle, revision and deadline; into QA with every verdict from an earlier visit, back to waiting with no live approval. Otherwise a refusal or the recorded answer, and no change; every call is a lawful step that keeps the invariant |
| `WarRoomActions.WarRoom.AddEvidence` | war_room_actions.py:2987-3053 | A permitted request with a fresh key, in a current context where the endpoint asks for one, is granted exactly for a task in QA of a going project and a new id. It then leaves one evidence row of the present revision, scope, document and cycle. Otherwise a refusal or the recorded answer, and no change; every call is a lawful step that keeps the invariant |
| `WarRoomActions.WarRoom.QaVerdict` | war_room_actions.py:3483-3549 | A permitted request with a fresh key, in a current context where the endpoint asks for one, is granted exactly for a task in QA of a going project, the request in the name of its reviewer, who is neither assignee nor agent, the right signature unless it comes from the agent, and for PASS the evidence. It then leaves one signed verdict on the task as it was; PASS leaves the task in QA, anything else sends it to rework in a new revision. Otherwise a refusal or the recorded answer, and no change; every call is a lawful step that keeps the invariant |
| `WarRoomActions.WarRoom.RepresentativeCompletion` | war_room_actions.py:2884-2935 | A permitted request with a fresh key, in a current context where the endpoint asks for one, is granted exactly for a task in QA of a going project and, to approve, the checks, current evidence and a signed PASS of its reviewer. It then leaves the task completed, or in rework in a new revision; completed only if nothing but PASS was said in the present cycle. Otherwise a refusal or the recorded answer, and no change; every call is a lawful step that keeps the invariant |
| `WarRoomActions.WarRoom.RevalidateResult` | war_room_actions.py:1188-1296 | A permitted request with a fresh key, in a current context where the endpoint asks for one, is granted exactly for a task at work in a going project, a candidate, the newest open approval, which still covers it, and for a passed result a reviewer to ask. It then leaves the reviewer asked, every worker not yet asked bypassed, the task in QA, in a new cycle unless it was there, with the copied evidence bound to that cycle; a result that does not pass changes no table. Otherwise a refusal or the recorded answer, and no change; every call is a lawful step that keeps the invariant |
| `WarRoomActions.WarRoom.DeliverMessage` | war_room_actions.py:1742-1809 | A permitted request with a fresh key, in a current context where the endpoint asks for one, is granted exactly for a running task in time on its newest approval, agents of it that are free, within the limits, and new ids. It then leaves one queued delivery per agent in order. Otherwise a refusal or the recorded answer, and no change; every call is a lawful step that keeps the invariant |
| `WarRoomActions.WarRoom.RetryDelivery` | war_room_actions.py:1940-1963 | A permitted request with a fresh key, in a current context where the endpoint asks for one, is granted exactly for a failed or timed-out delivery in a going project, a task with that agent, and no other delivery of its message, agent and revision. It then leaves that delivery queued for the agent. Otherwise a refusal or the recorded answer, and no change; every call is a lawful step that keeps the invariant |
| `WarRoomActions.WarRoom.StopProject` | war_room_actions.py:3235-3279 | A permitted request with a fresh key, in a current context where the endpoint asks for one, is granted exactly for a project that is there. It then leaves its deliveries stopped as their receipts say and stamped with this stop, its approvals revoked, its tasks at work or approved stopped in a new revision; it reads stopped exactly if every delivery that was under way has halted, and failed otherwise, the tasks likewise. Otherwise a refusal or the recorded answer, and no change; every call is a lawful step that keeps the invariant |
| `WarRoomActions.WarRoom.StopTask` | war_room_actions.py:3282-3372 | A permitted request with a fresh key, in a current context where the endpoint asks for one, is granted exactly for a task that is not completed. It then leaves its deliveries stopped as their receipts say, its approvals revoked; stopped exactly if every delivery that was under way has halted, unconfirmed otherwise. Otherwise a refusal or the recorded answer, and no change; every call is a lawful step that keeps the invariant |
| `WarRoomActions.WarRoom.StopAck` | war_room_actions.py:3375-3394 | A permitted request with a fresh key, in a current context where the endpoint asks for one, is granted exactly for a halted delivery of the stop that lasts. It then leaves everything but the stop state as it was, and that as the deliveries the stop touched make it: stopped exactly if all have halted. Otherwise a refusal or the recorded answer, and no change; every call is a lawful step that keeps the invariant |
| `WarRoomActions.WarRoom.ResumeProject` | war_room_actions.py:3397-3423 | A permitted request with a fresh key, in a current context where the endpoint asks for one, is granted exactly for a stopped project in which every task the stop caught has been approved since. It then leaves the project going, with nothing of it at work or under way. Otherwise a refusal or the recorded answer, and no change; every call is a lawful step that keeps the invariant |
| `WarRoomActions.WarRoom.QueueDeliveries` | war_room_actions.py:1634-1640 | The insertion loop queues all deliveries or leaves none behind |
| `WarRoomActions.WarRoom.ReclaimStaleCalls` | war_room_actions.py:1621-1626 | The loop over agents reclaims exactly the expired active calls of all of them |
| `WarRoomActions.ReclaimOneMore` | war_room_actions.py:1621-1626 | Reclaiming agent by agent is reclaiming for all of them at once |
| `WarRoomActions.WarRoom.CopyEvidence` | war_room_actions.py:1091-1126 | Copies under fresh ids, the originals untouched |
| `WarRoomActions.WarRoom.StopCovered` | war_room_actions.py:3252-3269 | Every covered delivery is stopped as its receipt says, and failure is reported exactly when one is unconfirmed |
| `WarRoomActions.WarRoom.StopActive` | war_room_actions.py:3259-3269 | The loop over running deliveries |
| `EndpointMeanings.QueuedInOrder` | war_room_actions.py:1634-1640 | After queueing, the i-th id is the queued delivery of the i-th agent |
| `EndpointMeanings.DecidedTask` | war_room_actions.py:2618-2653 | A decision on a waiting task leaves its approval the only live one, or none |
| `EndpointMeanings.Executed` | war_room_actions.py:1579-1643 | Approving and executing leaves the task running on exactly this approval, with a queued delivery for each agent |
| `EndpointMeanings.Revoked` | war_room_actions.py:2938-2953 | Revoking the live approval leaves the task without one |
| `EndpointMeanings.Transitioned` | war_room_actions.py:2750-2881 | What each target of a transition guarantees about approvals, deadline and verdicts |
| `EndpointMeanings.Concluded` | war_room_actions.py:2884-2935 | Completion rests on a signed PASS, and nothing else was said in the present cycle |
| `EndpointMeanings.Revalidated` | war_room_actions.py:1188-1296 | A reused result leaves the reviewer asked and no other delivery of the revision queued |
| `EndpointMeanings.StoppedProject` | war_room_actions.py:3235-3279 | After a stop nothing of the project is at work or under way and none of its approvals is live |
| `EndpointMeanings.StoppedTask` | war_room_actions.py:3282-3372 | After a task stop nothing of it is under way; stopped and unconfirmed are told apart by the confirmations |
| `EndpointMeanings.Acknowledged` | war_room_actions.py:3375-3394 | The stop state derived on an acknowledgement says stopped exactly when all deliveries of the cycle are halted |
| `EndpointMeanings.Resumed` | war_room_actions.py:3397-3423 | A project resumes with nothing of it at work or under way |
| `LifecycleLaws.LocalLawful` | war_room_actions.py:364-373 | A step that moves one task within the local rules obeys every law of the lifecycle |
| `LifecycleLaws.QueueAllRows` | war_room_actions.py:1634-1640 | Queueing adds only queued deliveries of the message and keeps the others |
| `LifecycleLaws.ApproveTaskLawful` | war_room_actions.py:2618-2653 | A new approval is for a task that was awaiting one, dated now, and an approving one moves the task on; all laws of the lifecycle hold of the step |
| `LifecycleLaws.ApproveAndExecuteLawful` | war_room_actions.py:1579-1643 | The task starts on a live approval of its present scope, document and targets, and no delivery becomes active in a project that is not going; all laws of the lifecycle hold of the step |
| `LifecycleLaws.RevokeApprovalLawful` | war_room_actions.py:2938-2953 | Approval rows only get a revocation time, once; all laws of the lifecycle hold of the step |
| `LifecycleLaws.AssignReviewerLawful` | war_room_actions.py:2656-2747 | Falling back to waiting leaves no live approval, although only unexpired ones are revoked; all laws of the lifecycle hold of the step |
| `LifecycleLaws.TransitionLawful` | war_room_actions.py:2750-2881 | Every allowed transition keeps the task's identity, raises the QA cycle exactly on entering QA, starts only on a live matching approval and leaves no live approval when it falls back to waiting; all laws of the lifecycle hold of the step |
| `LifecycleLaws.AddEvidenceLawful` | war_room_actions.py:2987-3053 | No approval, verdict, start or completion appears without its grounds; all laws of the lifecycle hold of the step |
| `LifecycleLaws.QaVerdictLawful` | war_room_actions.py:3483-3549 | The new verdict is signed and bound to the present cycle, and anything but PASS ends the visit; all laws of the lifecycle hold of the step |
| `LifecycleLaws.RepresentativeCompletionLawful` | war_room_actions.py:2884-2935 | Completion happens out of QA on a valid signed PASS and changes only the status; all laws of the lifecycle hold of the step |
| `LifecycleLaws.RevalidateLawful` | war_room_actions.py:1188-1296 | The QA cycle rises exactly when the task enters QA, and no delivery becomes active in a project that is not going; all laws of the lifecycle hold of the step |
| `LifecycleLaws.DeliverMessageLawful` | war_room_actions.py:1742-1809 | No delivery becomes active in a project that is not going; all laws of the lifecycle hold of the step |
| `LifecycleLaws.RetryDeliveryLawful` | war_room_actions.py:1940-1963 | No delivery becomes active in a project that is not going, whichever task it belongs to; all laws of the lifecycle hold of the step |
| `LifecycleLaws.CreateTaskLawful` | war_room_actions.py:1812-1863 | A new task waits in cycle 0, belongs to an existing project and shares its instruction with no other task; all laws of the lifecycle hold of the step |
| `LifecycleLaws.PrepareTaskLawful` | war_room_actions.py:1490-1576 | A prepared task waits in cycle 0 with an instruction of its own project; all laws of the lifecycle hold of the step |
| `LifecycleLaws.CreateInstructionLawful` | war_room_actions.py:1696-1739 | Linking keeps one task per instruction, of the same project; all laws of the lifecycle hold of the step |
| `LifecycleLaws.CreateProjectLawful` | war_room_actions.py:3056-3075 | A new project is going; all laws of the lifecycle hold of the step |
| `LifecycleLaws.StopProjectLawful` | war_room_actions.py:3235-3279 | When a project stops going none of its tasks is busy and none of its deliveries active, and completed tasks stay completed; all laws of the lifecycle hold of the step |
| `LifecycleLaws.StopTaskLawful` | war_room_actions.py:3282-3372 | Approval rows only get a revocation time, and a completed task stays completed; all laws of the lifecycle hold of the step |
| `LifecycleLaws.StopAckLawful` | war_room_actions.py:3375-3394 | The newly derived stop state never begins a stop with work still under way; all laws of the lifecycle hold of the step |
| `LifecycleLaws.ResumeProjectLawful` | war_room_actions.py:3397-3423 | Resuming touches no task, approval or verdict outside their laws; all laws of the lifecycle hold of the step |
| `LifecycleLaws.WorkerLawful` | war_room_worker.py:694-1017 | A worker step obeys the same laws, also when it queues the reviewer for a task that is in QA already; a conflict on a completed task is the one exception |
| `LifecycleTheorems.CallLawful` | war_room_actions.py:705-717 | Every endpoint call is lawful |
| `LifecycleTheorems.ActionKeepsInv` | war_room_actions.py:364-373 | Every endpoint call and worker step keeps the invariant of the lifecycle |
| `LifecycleTheorems.RunKeepsInv` | war_room_actions.py:364-373 | Every state reached from empty tables satisfies the invariant |
| `LifecycleTheorems.StopBarrierHolds` | war_room_actions.py:596-599 | While a project is not going, no task of it is running, in QA or in rework, and no delivery of it is queued, sent or received |
| `LifecycleTheorems.OneLiveApproval` | war_room_actions.py:1610-1632 | A task has at most one live approval, and none while it is a draft or awaits approval |
| `LifecycleTheorems.LiveAllAlong` | war_room_actions.py:2833-2848 | An approval that is live now was live ever since it was granted |
| `LifecycleTheorems.StartsRestOnFreshApproval` | war_room_actions.py:2772-2808 | Every entry to running rests on a live approval of exactly its scope, document and targets, granted after the task last waited for one |
| `LifecycleTheorems.CyclesGrow` | war_room_actions.py:2849-2850 | QA cycle numbers never fall, and stay the same within a visit |
| `LifecycleTheorems.NewVisitNewCycle` | war_room_actions.py:2849-2850 | A later visit to QA has a larger cycle number than every earlier one |
| `LifecycleTheorems.PresentCycleMeansThisVisit` | war_room_actions.py:2024-2072 | A verdict bound to the present cycle was given in the visit that still lasts |
| `LifecycleTheorems.OnlyPassesInOneVisit` | war_room_actions.py:3540-3544 | No FAIL or REWORK lies inside an unbroken visit |
| `LifecycleTheorems.CompletionRestsOnThisVisit` | war_room_actions.py:2909-2930 | A task becomes completed only out of QA on a signed PASS recorded in that same unbroken visit |
| `LifecycleTheorems.CompletedIsFinal` | war_room_actions.py:364-373 | Completed stays completed through everything but a worker conflict on that task |
| `LifecycleTheorems.ReopensIff` | war_room_worker.py:200-216 | Exactly when an action takes a task out of completed: a conflict on an active delivery of its revision that closes the round of answers |
| `LifecycleReopening.CompletedTaskReopens` | war_room_worker.py:200-216 | A run from empty tables in which a completed task goes back to rework, because the reviewer's delivery is still under way and answers with another verdict |
| `LifecycleTheorems.IdemRowsStay` | war_room_actions.py:715-717 | Idempotency rows are never changed or removed |
| `LifecycleTheorems.KeyIsSpent` | war_room_actions.py:705-712 | With its row in place a key only replays the response or is refused |
| `LifecycleTheorems.RequestsTakeEffectOnce` | war_room_actions.py:705-717 | After an accepted request the same actor, scope and key never change a table again, whatever came in between: the recorded response for the same body digest while the earlier checks pass, a refusal otherwise |
| `LiveRecovery.LatestIsLast` | jev_recovery_live.py:403-426 | The state read back is the last dispatch and whether its end stands after it |
| `LiveRecovery.LatestWhere` | jev_recovery_live.py:403-426 | A dispatch read back is a line of the log, the last of its session |
| `LiveRecovery.AttemptInLookBack` | jev_recovery_live.py:338-358 | Looking back finds an attempt exactly when one of the last 2000 lines is one |
| `LiveRecovery.TraceIsSeenIff` | jev_recovery_live.py:338-358 | The only phase or outcome row of a session is seen exactly when it was not split and fewer than 2000 lines follow it |
| `LiveRecovery.Highest` | jev_recovery_live.py:573-594 | The strongest competitor of SALVAGE |
| `LiveController.Controller.ConfirmSalvage` | jev_recovery_live.py:312-335 | A count of n is backed by n confirmations of one digest spread over at least 45*(n-1) seconds since the first of them; other sessions are left alone |
| `LiveController.Controller.RecoveryAttemptExists` | jev_recovery_live.py:338-358 | The backward loop finds an attempt exactly when the look-back holds one |
| `LiveController.Controller.LatestNudgeState` | jev_recovery_live.py:403-426 | The forward loop ends with the latest dispatch and its resolution |
| `LiveController.Controller.PendingNudgeObservation` | jev_recovery_live.py:516-570 | Tells of the last dispatch within the last 2000 lines whether it took effect or is still waited for; judging goes on only if none is pending or it was given up after 240 seconds |
| `LiveController.Controller.NudgeGuard` | jev_recovery_live.py:429-462 | Allows a nudge only if none of the last 2000 lines shows a recovery attempt and the last dispatch among them was for another state and has been followed by progress |
| `LiveController.Controller.EvaluateCandidate` | jev_recovery_live.py:1345-1594 | The action is the one whose conditions on the observation, the log and the confirmations hold, and the log, the confirmations and the threads afterwards are exactly those that go with it |
| `LiveDecisions.EvaluationMeans` | jev_recovery_live.py:1345-1594 | Each of the fifteen actions is taken under conditions stated on the observation and the whole log, without naming the code; a recovery starts only for SALVAGE with confidence 0.70 and margin 0.20 over every competitor on a periodic, enabled, safe, admitted task session that is not the main one, without an attempt in reach, on a second confirmation and without a thread; and what each action writes, counts and starts |
| `LiveDecisions.OneDecision` | jev_recovery_live.py:1345-1594 | The conditions exclude each other, so each action is taken if and only if its own hold |
| `LiveDecisions.ObservationMeans` | jev_recovery_live.py:516-570 | The pending observation in terms of positions in the whole log |
| `LiveDecisions.NudgeDueIff` | jev_recovery_live.py:429-462 | A nudge is allowed exactly for a task at rest for a minute, without an attempt in reach, whose last nudge in reach was for another state and has been followed by activity |
| `LiveDecisions.PendingIsLatest` | jev_recovery_live.py:403-426 | The nudge looked back for is the one pending in the whole log, if it is within reach |
| `LiveController.EvaluateMeans` | jev_recovery_live.py:1345-1594 | What an evaluation that starts a recovery or sends a nudge has found in the log and in the confirmations |
| `LiveRecoveryRuns.EvaluateExtends` | jev_recovery_live.py:1345-1594 | An evaluation only appends to the log and enters an in-flight set only for a session not in it |
| `LiveRecoveryRuns.ThreadSteps` | jev_recovery_live.py:1192-1337 | A thread's step writes exactly its row, and its last one leaves the in-flight set |
| `LiveRecoveryRuns.OneThreadPerSession` | jev_recovery_live.py:1497-1594 | A session never has two recovery threads, nor two nudge threads, at once |
| `LiveRecoveryRuns.RecoveryConcludes` | jev_recovery_live.py:1192-1337 | A started recovery is at work until its outcome row is in the log |
| `LiveRecoveryRuns.RecoveriesFarApart` | jev_recovery_live.py:338-358 | When a session's second recovery starts, the first has concluded and each of the session's phase and outcome rows that can be read has at least 2000 lines after it |
| `LiveRecoveryRuns.SplitOutcomeIsForgotten` | jev_recovery_live.py:156-159 | A run in which the only row of a recovery is split by a line separator in its text, and a second recovery starts after seven lines |
| `LiveRecoveryRuns.DispatchSpaced` | jev_recovery_live.py:429-462 | A dispatch keeps the spacing of nudges |
| `LiveRecoveryRuns.NudgesWellSpaced` | jev_recovery_live.py:384-570 | Consecutive nudges within the look-back carry different digests, the first was resolved in between and a metric advanced |
| `LiveRecoveryRuns.SpanGrows` | jev_recovery_live.py:312-335 | A counted confirmation adds a whole gap to the recorded span |
| `LiveRecoveryRuns.ConfirmationsSpan` | jev_recovery_live.py:312-335 | A recorded count of n confirmations on a digest spans at least 45*(n-1) seconds with nothing else decided in between |
| `LiveRecoveryRuns.StartsAfterSpacedConfirmations` | jev_recovery_live.py:1523-1594 | A recovery starts only on two confident SALVAGE decisions on one digest at least 45 seconds apart, with no other decision on the session between |
| `StableDigest.StableIffAgree` | jev_agent_recovery_watchdog_v01.py:33-57 | Two observations are hashed alike exactly when they differ in volatile fields only, at any depth |
| `StableDigest.StableTwice` | jev_agent_recovery_watchdog_v01.py:43-53 | Nothing volatile is left to remove |
| `StableDigest.VolatileEditsDoNotShow` | jev_agent_recovery_watchdog_v01.py:33-53 | Writing or removing anything at or below a volatile key leaves the digest material as it was |
| `StableDigest.VolatileIff` | jev_agent_recovery_watchdog_v01.py:33-41 | The keys that do not count |
| `Strings.StripTrims` | jev_agent_recovery_watchdog_v01.py:313-323 | Stripping leaves nothing exactly of a blank text |
| `Strings.CollapsedIsOneLine` | jev_recovery_live.py:856-867 | Collapsed text is one line that starts with a visible character |
| `Strings.CollapsedIsLine` | jev_recovery_live.py:856-867 | Collapsed text is the words of the text in order with one blank between each two |
| `Strings.ReadBackSplits` | jev_agent_recovery_watchdog_v01.py:313-315 | Reading back with universal newlines goes piece by piece |
| `Handoff.Validate` | jev_agent_recovery_watchdog_v01.py:313-323 | The two loops accept exactly the texts with all required sections filled |
| `Handoff.CollectBounded` | jev_recovery_live.py:856-866 | The loop collects the first texts that are not blank, up to the limit, each collapsed and cut |
| `Handoff.CollectLines` | jev_recovery_live.py:856-867 | These lines, or the fallback when every text is blank |
| `Handoff.WrittenSays` | jev_recovery_live.py:904-976 | The whole text: a title, the eleven headings in order, each followed by its own content (task, agent, session, generation, work done, files, run with its status, trigger with its severity, failed methods only for a loop, remaining work, first action), and the metadata |
| `Handoff.BoundedPicks` | jev_recovery_live.py:856-866 | Which texts the collected lines stand for |
| `Handoff.SectionFilledIff` | jev_agent_recovery_watchdog_v01.py:313-323 | In a text of clean fixed pieces with any texts in the gaps between them, a section is empty exactly when some gap brings its heading first and a blank paragraph under it |
| `Handoff.AcceptedIff` | jev_agent_recovery_watchdog_v01.py:313-323 | Such a text is accepted exactly when no gap spoils a required section |
| `Handoff.HandoffAccepted` | jev_recovery_live.py:904-976 | With run id, run status and severity free of line breaks the written handoff is accepted for any trigger, user, command and assistant text |
| `Handoff.HandoffAcceptedIff` | jev_recovery_live.py:904-976 | In general it is accepted exactly unless the run id, the run status or the severity brings the heading of a section that is not met before it, followed in that field by a blank paragraph that ends there |
| `Handoff.FieldCanSpoil` | jev_recovery_live.py:904-976 | Whatever the rest of the evidence, each of these three fields can make the handoff unacceptable through any section whose heading is not met before it |
| `Handoff.FirstActionCanBeSpoiled` | jev_recovery_live.py:904-976 | A severity does so with the last heading whenever no text before it holds the letter x |
| `Base64.PaddingIsRestored` | war_room.py:547-557 | Dropped padding is restored exactly, and the encoded length |
| `Base64.DecodesEncoded` | war_room.py:547-557 | The lenient decoder inverts the encoder |
| `Base64.RoundTrip` | war_room.py:547-557 | Unpadded base64url comes back |
| `Base64.QuadHoldsBits` | war_room.py:547-549 | Three bytes become four characters of the URL-safe alphabet that hold their bits in order |
| `Base64.TailHoldsBits` | war_room.py:547-549 | One or two last bytes are filled up with zero bits |
| `Cursor.TextIsRead` | war_room.py:547-560 | A JSON string comes back with its surrogate pairs merged |
| `Cursor.IntegerIsRead` | war_room.py:547-560 | A JSON integer comes back, negative ones too |
| `Cursor.PayloadMeans` | war_room.py:547-549 | What is encoded is the compact JSON pair of the decimal time and the id, with every code point escaped as JSON in ASCII demands |
| `Cursor.NumericCursor` | war_room.py:552-556 | A cursor of digits alone is read as that time, with an id behind all others of the basic plane |
| `Cursor.CursorComesBack` | war_room.py:547-565 | Decoding an encoded cursor gives the time and the id with surrogate pairs merged, for every input |
| `Cursor.CursorRoundTripIff` | war_room.py:547-565 | The very same pair comes back exactly when no high surrogate stands directly before a low one in the id |
| `Cursor.MergedIsSame` | war_room.py:547-565 | Merging changes an id exactly when it holds such a pair |
| `Cursor.SplitPairIsLost` | war_room.py:547-565 | An id that does not come back |
| `Cursor.CursorIsNotNumeric` | war_room.py:552-556 | An encoded cursor begins with W and is never taken for the numeric form |
| `Cursor.CursorFitsIff` | war_room.py:706 | The endpoint's limit of 256 characters admits exactly the cursors whose JSON text has at most 192 |
| `FreshContext.TokenRoundTrip` | war_room_actions.py:853-875 | An issued context token gives its payload back |
| `FreshContext.AcceptedIff` | war_room_actions.py:860-875 | A token is accepted for a payload exactly when what follows its first dot is the payload's HMAC |
| `Timeline.BuildConditions` | war_room.py:721-742 | The conditions hold of a message exactly when it matches the query and lies below the cursor |
| `Timeline.GetTimeline` | war_room.py:703-765 | Refused exactly for an empty range or an unreadable cursor; otherwise the page holds the latest wanted messages as many as fit, latest first, says whether more are left, and its cursor names the last one shown |
| `Timeline.CutShows` | war_room.py:743-763 | The same of every page, said of the table alone |
| `Timeline.WantedIff` | war_room.py:721-742 | A message is wanted exactly when it meets every filter and comes before the cursor, by time and then by id |
| `Timeline.DescendingIsSorted` | war_room.py:743-752 | The listing is strictly descending and holds exactly the set |
| `Timeline.ListingIsUnique` | war_room.py:743-752 | A set has one descending listing |
| `TimelineWalk.PageIsGood` | war_room.py:738-763 | A page holds the largest matching keys below the cursor, and its cursor names its last row exactly when more follows |
| `TimelineWalk.NextPageIsServed` | war_room.py:738-763 | Following a returned cursor is never refused |
| `TimelineWalk.LongCursorIsRefused` | war_room.py:703-706 | A cursor is refused exactly when its JSON text has more than 192 characters |
| `TimelineWalk.WalkDescends` | war_room.py:738-763 | The joined pages strictly descend, so no message comes twice, even when messages change between pages |
| `TimelineWalk.WalkEnds` | war_room.py:738-763 | A walk has at most two pages more than the messages that ever match below the last row of its first page fill, however many come in above |
| `TimelineWalk.WalkIsComplete` | war_room.py:738-763 | A finished walk has shown every message that matched throughout |
| `TimelineWalk.WalkOfFixedTable` | war_room.py:738-763 | On a fixed table the joined pages list every wanted message once, latest first |
| `Documents.Registry.RegisterDocument` | war_room_documents.py:160-293 | Succeeds exactly for the named document of the project or, by path, for one of the latest there, under a fitting task, at the expected version; the content it holds already adds nothing, other content becomes the next version, and a refusal undoes what was written |
| `Documents.LatestExists` | war_room_documents.py:206-212 | Whenever documents stand at a path one of them is the latest |
| `Documents.RegisterEffect` | war_room_documents.py:214-293 | What a successful registration does to documents and versions |
| `Documents.RegisterMeans` | war_room_documents.py:160-293 | Row by row what a registration finds, refuses and writes: document, number, path, digest, task link and the version added |
| `Documents.ExistingIsHolder` | war_room_documents.py:206-226 | The document a request goes to is the named one of its project, or one of the latest at the path, or none when there is none |
| `Documents.EffectKeepsChains` | war_room_documents.py:214-281 | A registration keeps every document a chain |
| `Documents.AlwaysChained` | war_room_documents.py:214-281 | At any time a document's versions are exactly 1 to n, one each, and its current version is n |
| `Documents.VersionsAreForever` | war_room_documents.py:60-67 | Versions are never altered or removed |
| `Documents.NamedRepeatAddsNothing` | war_room_documents.py:222-226 | Registering the same path and digest again by document id adds nothing as long as the document's number stands |
| `Documents.RepeatAddsNothing` | war_room_documents.py:206-226 | By path, the repeat of new content adds nothing when it comes next and the first came later than every row before it |
| `Documents.RepeatAddsIffRival` | war_room_documents.py:206-226 | By path and at any later time, the repeat adds a version exactly when the row looked up is another document, as recent as any at the path, with another digest |
| `Documents.RepeatCanAddIff` | war_room_documents.py:206-226 | A repeat in order can add a version if and only if the registry holds such a rival |
| `Documents.RivalIsReached` | war_room_documents.py:206-226 | A history of three registrations that leads to a rival |
| `Documents.OneFollowsEach` | war_room_documents.py:217-221 | Of two registrations of new content for one document that expect the same version at most one succeeds |
| `Collector.Cache.EnterLock` | app.py:1514-1534 | Claims exactly when no refresh is under way and no back-off lasts, raising the flag and clearing the event; otherwise changes nothing and answers as the back-off or the wait demands |
| `Collector.Cache.Observe` | app.py:1539-1582 | What a thread that waited answers: the sample it read on entry, flagged exactly when it is over 60 seconds old, otherwise the shared result, the last error, or that a refresh is in progress |
| `Collector.Cache.Collect` | app.py:1494-1586 | A call without interference: the whole cache and the answer after a sample, an error and an exception; an unflagged answer is a fresh cached sample or the one just fetched |
| `CollectorRuns.StepKeepsSingleFlight` | app.py:1514-1586 | Every step keeps the flag and the owner of the refresh in one-to-one correspondence |
| `CollectorRuns.StepMeans` | app.py:1494-1586 | What each thread's step reads, writes and answers |
| `CollectorRuns.StepKeepsSignals` | app.py:1529-1586 | Every step keeps a signaller for a cleared event |
| `CollectorRuns.RunKeepsInv` | app.py:1494-1586 | All of this in every run of any number of threads |
| `CollectorRuns.OneRefreshAtATime` | app.py:1494-1586 | At most one thread is ever inside the remote refresh |
| `CollectorRuns.OwnerGetsThere` | app.py:1529-1586 | While the event is clear some thread's own next step is enabled and brings it closer to setting the event |
| `CollectorRuns.OthersDoNotDelay` | app.py:1529-1586 | No other thread's step takes that from it |
| `CollectorRuns.UnflaggedIsRecent` | app.py:1468-1491 | A sample served from the cache read on entry without a flag is at most 60 seconds old |
| `CollectorRuns.ClaimsRespectBackOff` | app.py:1514-1534 | A refresh is claimed only outside the back-off after a failure |
| `CollectorRuns.EventSetIffSignalled` | app.py:1529-1586 | While a thread owns the refresh the event is set exactly if some thread has signalled since the claim |
| `CollectorRuns.EventStaysClear` | app.py:1529-1586 | If no thread owes a signal at the claim, the event stays clear for the whole refresh |
| `CollectorRuns.SetEarlyIff` | app.py:1583-1586 | The run can go on so that the event is set during the refresh if and only if some thread owes a signal at the claim |
| `CollectorRuns.EventSetDuringRefresh` | app.py:1583-1586 | A run in which the event is set while another refresh is under way |
| `SessionIntegrity.IndexRows` | war_room_session_integrity.py:35-36 | One entry per key, the last row wins |
| `SessionIntegrity.CompareFields` | war_room_session_integrity.py:38-41 | Exactly the tracked fields that differ, in order |
| `SessionIntegrity.Compare` | war_room_session_integrity.py:32-44 | With exact times on both sides the report counts exactly the earlier sessions that are gone and lists each kept one whose tracked fields differ, with just those fields, in order of the earlier rows; otherwise it is one uncertain comparison |
| `SessionIntegrity.ComparedMeans` | war_room_session_integrity.py:32-44 | The same of the rows the snapshots were taken from |
| `SessionIntegrity.NoChangesIffKept` | war_room_session_integrity.py:38-44 | No change is reported exactly when every earlier session is still there with the same fields; then none counts as deleted |
| `SessionIntegrity.GateIsExact` | war_room_actions.py:3006-3018 | The gate accepts a comparison exactly when both snapshots carry exact times and hold the same sessions with the same five fields |
| `EndpointContracts.ApproveAndExecuteMeans` | war_room_actions.py:1579-1643 | Each condition under which the plan grants, and every row it writes, said of the tables and the request alone |
| `EndpointContracts.TransitionTaskMeans` | war_room_actions.py:2750-2881 | For each target, what the plan asks and the row it writes |
| `EndpointContracts.QaVerdictMeans` | war_room_actions.py:3483-3549 | What the plan asks of an accepted verdict, the signature included, and the row it adds |
| `EndpointContracts.RepresentativeCompletionMeans` | war_room_actions.py:2884-2935 | Evidence, checks and a signed PASS are exactly what the plan asks for an approval |
| `EndpointContracts.RevalidateResultMeans` | war_room_actions.py:1188-1296 | What the plan asks for a reuse, and the deliveries, copies and cycle it leaves |
| `EndpointContracts.StopProjectMeans` | war_room_actions.py:3235-3279 | Which status every delivery, task and approval has after the stop, and which the project |
| `EndpointContracts.StopTaskMeans` | war_room_actions.py:3282-3372 | Which status every delivery has after the stop, and which the task |
| `EndpointContracts.StopAckMeans` | war_room_actions.py:3375-3394 | Which stop state the touched deliveries amount to |
| `EndpointContracts.DeliverMessageMeans` | war_room_actions.py:1742-1809 | What the plan asks for a delivery and the rows it adds |
| `EndpointContracts.AssignReviewerMeans` | war_room_actions.py:2656-2747 | What the plan asks for a new reviewer, the rows it changes and the ones it leaves |
| `EndpointContracts.QueueAllMeans` | war_room_actions.py:1634-1640 | Queueing goes through exactly for new distinct ids and agents not asked yet, and adds one queued row per agent |
| `WorkerContracts.WorkerMeans` | war_room_worker.py:694-1017 | Under which condition each worker step moves, and every row it then changes |

## Left out

- ExecutionCompiler.CompileTaskIntent: type errors for arguments that are not strings, lists or mappings are excluded by the types, and dispatch messages, timeouts and goal contracts of an entry are not carried along.
- ExecutionUnits.ExecutionUnitStore.CreateUnits: the schema, its migrations, `create_unit`, `update_dispatch_input` and the read-only queries are not modelled.
- Scheduler.StuckOnlyByLoss: run status changes come from the core engine, which is not part of this model; a PASS is taken as final.
- Workflows.WorkflowSummary: run results, attempts and timestamps of the projection are left out; only the parent status is derived.
- LifecycleTheorems.RunKeepsInv: `resume_task_qa`, `recover_qa_rework`, `supersede_task`, participants, messages other than instructions, and project archiving are not steps of the model.
- LifecycleTheorems.StopBarrierHolds: projects without a control row (made by other means than project creation) are not in the model; for those `stop_project` updates no row.
- LifecycleTheorems.ReopensIff: a conflict between answers is an input of the worker's step, so the condition is exact relative to it.
- LifecycleTheorems.CallLawful: `request_delivery_retry`, which nothing but tests calls, and the worker's own `request_project_stop` with `process_stop_timers`, which acts on a stop state that no endpoint commits, are not steps of the model.
- LifecycleLaws.WorkerLawful: the worker's outcome (progress, hand-over to QA, verdict, rejection, conflict) is an input; evidence capture, retry timing, claims and sessions are left out, and so is the unguarded deadline update between a worker's read and its write.
- WarRoomActions.WarRoom.QueueDeliveries: the reviewer's shortened QA deadline of profiled tasks is not modelled.
- WarRoomActions.WarRoom.TransitionTask: one clock reading per request; several readings inside one request are taken as equal.
- WarRoomActions.WarRoom.DeliverMessage: call and turn counters are inputs.
- WarRoomActions.WarRoom.RepresentativeCompletion: the rows of representative approvals, audit events and revalidation history are left out, and session integrity and grounding checks are one boolean input.
- LifecycleTheorems.RequestsTakeEffectOnce: SHA-256 and the QA signature are uninterpreted functions, so bodies are compared by digest.
- Authentication, roles, fresh-context checks and catalog admission are the booleans of a request's header.
- LiveRecoveryRuns.OneThreadPerSession: one evaluation is one step within one process life; log reads succeed, each row is written at once, and a piece of a split row never parses; a piece that is a bare number would make the reader raise, which the model skips.
- LiveController.Controller.EvaluateCandidate: the judge, the session context and the risk patterns are inputs; confidences, margins and times are real numbers; an observation that cannot be made raises before any state changes.
- Handoff.HandoffAccepted: the fixed sentences of the form are parameters, any one-line wording whose labels before the run id, the run status, the trigger and the severity end in a character of no heading, as an equals sign does; the agent and session ids are trimmed single lines, and the trigger stands as it is after being put in capitals.
- StableDigest.StableIffAgree: SHA-256 itself, and mapping keys that are not strings.
- Cursor.CursorComesBack: decoding hand-made cursors with raw non-ASCII bytes or with non-ASCII digits is not modelled; everything else the decoder accepts is.
- FreshContext.TokenRoundTrip: the JSON payload inside the token and its checks.
- Timeline.GetTimeline: the columns shown, redaction, and the 404 for a missing project; the database is the sorted listing of the matching keys.
- Documents.Registry.RegisterDocument: path resolution, hashing, category and relation validation are inputs; of several equally recent documents at a path the look-up may return any.
- CollectorRuns.RunKeepsInv: the SSH command and the parser are the outcome of a step; a waiter reads its settled answer in one step.
- SessionIntegrity.Compare: reading the transcripts; the gate's scope, verification time and type checks.
- The rest of app.py, the fast gateway, the authorization brokers, the task router, the result verifier and the recovery shadow fixtures are reporting, plumbing or test code around unseen services.
