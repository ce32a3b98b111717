# FlowPilot workflow runtime: a verified model

FlowPilot admits workflows (dags of jobs), keeps their runtime state in Redis and runs them
with any number of schedulers, workers, completion handlers and a retry handler.  Every update
of the runtime is one atomic Lua script or Redis command.  This project models that runtime
and proves what holds in every state of every run, however the components interleave.

`dafny verify dfyconfig.toml` checks everything.

## How it is built

| part | files |
|---|---|
| Redis state of one workflow, the scripts as functions | `Runtime`, `WorkflowScripts`, `JobScripts` |
| the scripts as an object updated in place, command by command | `RedisRuntime` |
| the protocol: steps, runs, hypotheses, first states | `Protocol`, `Runs` |
| invariants and their preservation | `Invariants`, `InitialProofs`, `Effects`, `TokenSteps`, `ScriptSteps`, `DependencyProofs`, `SlotProofs`, `CountProofs`, `Preservation`, `HypothesisProofs`, `LedgerProofs` |
| theorems over runs | `Runs`, `Moves`, `OutcomeTheorems`, `Liveness`, `Finishing`, `Termination`, `Priorities`, `Counters`, `Times`, `EndToEnd` |
| what goes wrong, run by run | `Boundaries`, `OutcomeBoundaries` |
| the SQLite mirror of job statuses | `Mirror`, `MirrorWrites`, `MirrorRuns`, `MirrorOrders` |
| admission: validation, Kahn's algorithm, runtime generation | `Dag`, `Admission`, `RuntimeGenerator` |
| the admission script: rate limiter and active set | `RateLimiter` |
| codecs: Redis wire format, job keys | `Resp`, `Keys` |

A *token* stands for one thread of control that holds a job outside the sorted sets: a
scheduler that popped it, a worker that runs it, its record in the completion stream, the
handler that took the record.  Any number of tokens may exist and any enabled token may move;
that no job ever has two tokens is a theorem.  Ties of `ZPOPMAX` and the order of the
completion stream are left open, so the theorems hold for every resolution of them.

Time, retry instants, the results of job execution, payload failures and UUIDs are inputs.
That Redis and SQLite calls succeed is the boundary of the model.  Three further hypotheses
are named and used only where stated (`Protocol.Hypotheses`):

- `noTimeout`: no success record is handled after the workflow's time ran out;
- `noEarlyAbort`: no ABORTED record is handled while the workflow is still READY;
- `oneHandler`: a record is taken only when no other handler is at work.

`Boundaries` shows that none of the three can be dropped: for each there is a run of a
two-job workflow that can go no further with the workflow unfinished.  What holds without
them is stated exactly, by counting three events of a run: an ABORTED record handled while
READY (`Runs.EarlyAborts`), a parked job given up while the workflow is not RUNNING
(`OutcomeTheorems.Abandoned`), a timeout with a job PENDING or READY (`Finishing.Stranded`).
The slot and completion counters are equations in these counts, and a run that can go no
further has finished its workflow if and only if no job was abandoned or stranded and some
step failed the workflow or none was an early abort (`Finishing.StuckFinishedIff`).

The job table in SQLite is written after the scripts, by calls of their own.  A *course*
(`MirrorRuns.Course`) is a run in which the scripts and the table writes of all components
interleave as the code lets them: a worker writes RUNNING before it reports the end of the job,
the retry handler finishes its writes before it turns to the next job, and so does a single
completion handler with its records.

Where code and documentation differ the model follows the code.  The documentation gives
`reserved_execution_slots` as the number of QUEUED, PENDING_EXECUTION and RUNNING jobs; in the
code that is an upper bound, off by one for each ABORTED record handled before the workflow ran
(`Runs.SlotAccounting`).  Admission stores priorities as unsigned scores.  The request schema
allows no negative priority, but a job without one takes the policy's `max_job_priority`, which
is not loaded from the database; if that is negative all jobs of the workflow have it, so the
order of the scores within a workflow is still that of the priorities.  The documentation says that completion counters
are written back from a snapshot; in the code only the retry gate uses the snapshot.

## Model

| member | source | states |
|---|---|---|
| `EndToEnd.AdmittedWorkflowsFinish` | src/workflow_admission_service.cpp:82-110 | from accepted runtime data with at least one slot, every interleaving stops within the step budget; when it stops the workflow is finished if and only if nothing went wrong in the run, and under the three hypotheses nothing does |
| `Liveness.DeadlockFree` | src/redis_db_async_workflow.cpp:305-370 | in every run without early aborts, a READY or RUNNING workflow with a slot has a job QUEUED, claimed, RUNNING or parked |
| `Liveness.UnderWayIff` | src/redis_db_async_workflow.cpp:504-513 | with no hypothesis: a READY or RUNNING workflow has a job QUEUED, claimed, RUNNING or parked if and only if fewer aborts were handled while READY than slots are reserved, or some job is parked |
| `Finishing.StuckFinishedIff` | src/redis_db_async_workflow.cpp:343-351 | with no hypothesis: a run that can go no further has finished its workflow if and only if no parked job was abandoned, no timeout stranded a job, and some step failed the workflow or none was an early abort |
| `Finishing.FailedIff` | src/redis_db_async_workflow.cpp:497-513 | a workflow is FAILED if and only if a failure without a retry was handled while it was RUNNING or a success record after its time ran out |
| `Finishing.StuckSignalledIff` | src/redis_db_async_workflow.cpp:547-557 | with no hypothesis: a run that can go no further has signalled cleanup if and only if no job is left PENDING or READY and none was abandoned |
| `Finishing.IdleIffStranded` | src/redis_db_async_workflow.cpp:292-298 | a FAILED workflow has a PENDING or READY job if and only if its time ran out while some job was PENDING or READY |
| `Finishing.FailedHasCause` | src/completion_handler.cpp:260-282 | with no hypothesis: a FAILED workflow has a FAILED or ABORTED job, or the record that will make one is being handled |
| `Finishing.StuckMeansFinished` | src/redis_db_async_workflow.cpp:343-351 | under the hypotheses a run that can go no further has COMPLETED with all jobs COMPLETED or FAILED with a casualty; every job is terminal, completed equals total, cleanup was signalled exactly once |
| `Termination.StepUsesWork` | src/completion_handler.cpp:428-446 | every step, whatever the interleaving, strictly decreases the work left over all jobs and tokens |
| `Termination.RunsAreBounded` | src/completion_handler.cpp:428-446 | no run takes more than nine steps per attempt of each job |
| `Termination.AttemptsBounded` | src/redis_db_async_jobs.cpp:165-180 | a job is started at most once plus once per allowed retry, counting what is left |
| `Runs.RunReachable` | src/redis_db_async_workflow.cpp:222-593 | the last state of every run satisfies the invariant, and the stronger ones of its hypotheses |
| `Preservation.StepInv` | src/redis_db_async_workflow.cpp:222-593 | every enabled step keeps the whole invariant |
| `HypothesisProofs.StepExact` | src/redis_db_async_workflow.cpp:497-513 | without early aborts every step keeps the slot equation and the soundness of COMPLETED |
| `HypothesisProofs.StepPropagated` | src/completion_handler.cpp:428-446 | without timeouts and with one handler every step keeps a FAILED workflow free of work and every settled job counted |
| `Runs.SlotAccounting` | docs/ARCHITECTURE.md:263 | QUEUED + PENDING_EXECUTION + RUNNING never exceeds the reserved slots, those never exceed the limit; while live the reserved slots are exactly those plus one for each early abort |
| `Runs.SingleCustody` | src/redis_db_async.cpp:393-503 | each job on its way is in exactly one place, a sorted set or one token |
| `Runs.QueuesAreStatuses` | src/redis_db_async_workflow.cpp:308-368 | the waiting set is exactly the READY jobs; the execution queue plus the popped, uncanceled jobs is exactly the QUEUED ones |
| `OutcomeTheorems.StartsAreClean` | src/redis_db_async_jobs.cpp:140-193 | no run makes the start script report a violation or an already canceled job |
| `OutcomeTheorems.DependenciesStartFirst` | src/redis_db_async_workflow.cpp:282-331 | a job starts only when all its dependencies are COMPLETED, and each was started earlier in the run |
| `OutcomeTheorems.FirstStartsExtendTheGraph` | src/redis_db_async_workflow.cpp:305-331 | first starts form a linear extension of the dependency graph |
| `OutcomeTheorems.RunningWasStarted` | src/redis_db_async_jobs.cpp:165-180 | whatever is RUNNING or COMPLETED was started in the run |
| `OutcomeTheorems.CompletedIffNoEarlyAbort` | src/redis_db_async_workflow.cpp:343-351 | with no hypothesis: a COMPLETED workflow has every job COMPLETED if and only if no ABORTED record was handled while it was READY |
| `OutcomeTheorems.CompletedMeansAllCompleted` | src/redis_db_async_workflow.cpp:343-351 | so without early aborts a COMPLETED workflow has every job COMPLETED |
| `OutcomeTheorems.FailedHasCasualty` | src/redis_db_async_workflow.cpp:491-513 | without timeouts a FAILED workflow has a FAILED or ABORTED job |
| `OutcomeTheorems.FailedIsFinal` | src/redis_db_async_workflow.cpp:285-287 | a FAILED workflow stays FAILED for the rest of every run |
| `OutcomeTheorems.CompletedJobIsFinal` | src/redis_db_async_workflow.cpp:282-284 | a COMPLETED job stays COMPLETED for the rest of every run |
| `OutcomeTheorems.FailurePropagates` | src/redis_db_async_workflow.cpp:491-545 | from the failing step on no job is PENDING, READY, QUEUED or RETRY_DELAY and the three sorted sets are empty; COMPLETED jobs stay so |
| `OutcomeTheorems.NothingStartsAfterFailure` | src/redis_db_async_jobs.cpp:182-186 | whoever is RUNNING in a FAILED workflow was RUNNING when it failed |
| `OutcomeTheorems.CompletionConservation` | src/redis_db_async_workflow.cpp:333-351 | completed_jobs plus the abandoned jobs is exactly the terminal jobs less the abort records in flight; nothing is abandoned while live, nor without timeouts and with one handler |
| `OutcomeTheorems.CleanupSignalledOnce` | src/redis_db_async_workflow.cpp:547-557 | the total is reached at most once, with every job terminal and no abort record outstanding |
| `Moves.StepJobMove` | src/completion_handler.cpp:420-559 | the life cycle: the only status changes any step makes to its own job and to others |
| `Moves.MovesAreOneWay` | src/redis_db_async_jobs.cpp:140-193 | COMPLETED is final, casualties stay casualties, only a start makes a job RUNNING |
| `Priorities.PromotionByPriority` | src/redis_db_async_workflow.cpp:353-370 | a job that gets a slot in a step has at least the priority of every job left READY |
| `Priorities.PopsGoByPriority` | src/redis_db_async.cpp:393-406 | in every state of every run what ZPOPMAX takes from the waiting set or the execution queue has the highest priority there |
| `Priorities.PopByPriorityIff` | src/redis_db_async_workflow.cpp:357-368 | what is popped from the waiting jobs has the highest priority among them if and only if no score wraps or a job of the highest priority has a score that does |
| `Priorities.RunInRange` | src/redis_db_async_workflow.cpp:609-619 | in every state of every run scores are priorities, or negative ones plus two to the power of 32 |
| `Priorities.ScoresArePriorities` | src/redis_db_async_workflow.cpp:609-619 | scores are priorities in every state of every run if and only if no job without dependencies was admitted with a negative priority |
| `Counters.PendingIsCounted` | src/redis_db_async_workflow.cpp:321-324 | in every run, until the workflow fails, pending_jobs is the number of PENDING jobs |
| `Counters.FailuresAreCounted` | src/redis_db_async_workflow.cpp:549-551 | in every run failed_jobs is the number of distinct jobs whose terminal failure was handled: all FAILED jobs are among them, all of them are FAILED or ABORTED, and none is reported twice |
| `Counters.FailedJobsByStatus` | src/redis_db_async_workflow.cpp:549-551 | failed_jobs lies between the number of FAILED and the number of FAILED and ABORTED jobs |
| `Times.RetryGate` | src/completion_handler.cpp:428-446 | a failed attempt is parked if and only if the handler read RUNNING, the error is not internal, a retry is left and the time since the job's latest start is within its limit |
| `Times.RunningSince` | src/redis_db_async_jobs.cpp:165-180 | a RUNNING job is stamped with the instant of its latest start in the run |
| `Times.RetriesWait` | src/redis_db_async_retry.cpp:186-202 | a parked job leaves the delay set only at or after the instant its handler chose, the earliest due one first |
| `Times.WorkflowSince` | src/redis_db_async_jobs.cpp:154-173 | the workflow is stamped with the instant of the first start of any job, for the rest of the run |
| `Moves.HandleFailureMove` | src/completion_handler.cpp:420-446 | a handled failure parks the job if and only if the gate is open, else fails it; the attempt counter goes up, or past the limit for an internal error |
| `Effects.StepShapeKeepsCustody` | src/redis_db_async.cpp:464-503 | a step that touches one job, its token and three kinds of side effect keeps single custody and coverage |
| `Preservation.StepCounts` | src/redis_db_async_workflow.cpp:497-557 | every step settles and counts nothing, or counts exactly what it settles |
| `DependencyProofs.CompleteSuccessfulDependencies` | src/redis_db_async_workflow.cpp:305-331 | whatever the success script does, every PENDING job still counts its unfinished dependencies |
| `WorkflowScripts.ReleaseAllPointwise` | src/redis_db_async_workflow.cpp:308-331 | the successor loop, job by job: PENDING successors lose one dependency and turn READY at none, with their priority as score; all else untouched |
| `WorkflowScripts.ReleaseAllReady` | src/redis_db_async_workflow.cpp:308-331 | the reported list holds the released jobs once each, and pending_jobs drops by their number |
| `WorkflowScripts.CancelAllPointwise` | src/redis_db_async_workflow.cpp:516-543 | the sibling loop aborts exactly the listed jobs that wait to run |
| `WorkflowScripts.CancelAllZsets` | src/redis_db_async_workflow.cpp:531-538 | and takes exactly those out of the sorted set they were in |
| `WorkflowScripts.CancelAllCanceled` | src/redis_db_async_workflow.cpp:539-540 | and reports exactly those, once each |
| `RedisRuntime.WorkflowStore.CompleteSuccessfulJob` | src/redis_db_async_workflow.cpp:260-377 | the success script, command by command, does what its function says, for some admissible ZPOPMAX |
| `RedisRuntime.WorkflowStore.ReleaseSuccessors` | src/redis_db_async_workflow.cpp:305-331 | the successor loop computes the prefix fold |
| `RedisRuntime.WorkflowStore.PromoteWaiting` | src/redis_db_async_workflow.cpp:357-369 | an entry of maximal score leaves the waiting set for the queue with its score, and takes a slot |
| `RedisRuntime.WorkflowStore.CompleteFailedJob` | src/redis_db_async_workflow.cpp:472-566 | the failure script, command by command |
| `RedisRuntime.WorkflowStore.CancelSiblings` | src/redis_db_async_workflow.cpp:516-545 | the sibling loop computes the prefix fold |
| `RedisRuntime.WorkflowStore.ClaimJob` | src/redis_db_async.cpp:464-482 | the claim script |
| `RedisRuntime.WorkflowStore.TrySetJobToRunning` | src/redis_db_async_jobs.cpp:128-194 | the start script with all its violation results |
| `RedisRuntime.WorkflowStore.ScheduleJobRetry` | src/redis_db_async_retry.cpp:92-151 | the retry scheduling script |
| `RedisRuntime.WorkflowStore.DequeueDueRetry` | src/redis_db_async_retry.cpp:186-202 | takes the entry with the earliest due time if it is due, else nothing is due |
| `RedisRuntime.WorkflowStore.PromoteRetryJob` | src/redis_db_async_retry.cpp:251-309 | the retry promotion script |
| `Boundaries.EarlyAbortGetsStuck` | src/redis_db_async_workflow.cpp:504-513 | a run in which an abort handled while READY keeps its slot and the workflow waits for ever |
| `Boundaries.TimeoutGetsStuck` | src/redis_db_async_workflow.cpp:292-298 | a run in which the workflow times out, its jobs are not canceled and never counted |
| `Boundaries.TwoHandlersGetStuck` | src/completion_handler.cpp:433-446 | a run in which a second handler fails the workflow between the snapshot and the retry, and the parked job is never counted |
| `Boundaries.FailureKeepsSlotsIffRunning` | src/redis_db_async_workflow.cpp:504-513 | a terminal failure in a live workflow keeps the slot equation if and only if the workflow is RUNNING |
| `Boundaries.SuccessPropagatesIffInTime` | src/redis_db_async_workflow.cpp:289-298 | the success script leaves no work in a FAILED workflow if and only if the time has not run out or nothing waits |
| `Boundaries.RetryPropagatesIffNotFailed` | src/redis_db_async_retry.cpp:107-129 | scheduling a retry leaves no work in a FAILED workflow if and only if the workflow has not FAILED by then |
| `Boundaries.LostWriteCountsTwice` | src/completion_handler.cpp:343-348 | a failed table write after the success script sends the record down the failure path: the job turns from COMPLETED to FAILED and is counted twice |
| `OutcomeBoundaries.CompletedWithCasualty` | src/redis_db_async_workflow.cpp:504-513 | a run that is COMPLETED and cleaned up although one of its two jobs was aborted and never ran |
| `OutcomeBoundaries.RefusedRetryLeavesWrongRow` | src/retry_handler.cpp:154-183 | a finished course under all hypotheses whose table ends with READY for a job that is ABORTED |
| `Mirror.SuccessDelta` | src/completion_handler.cpp:343-368 | a mirror that agreed before the success script agrees again from the returned promoted and ready ids |
| `Mirror.FailureDelta` | src/completion_handler.cpp:511-535 | likewise after the failure script, from the canceled ids |
| `Mirror.AbortDelta` | src/completion_handler.cpp:492-535 | likewise for an ABORTED record, once both stores say ABORTED |
| `Mirror.ScheduleRetryDelta` | src/completion_handler.cpp:720-736 | likewise after a scheduled retry, from the promoted id |
| `Mirror.PromotionDeltaIffApplied` | src/retry_handler.cpp:168-183 | after a retry promotion the mirror agrees if and only if the workflow is RUNNING and the job was RETRY_DELAY or READY |
| `MirrorRuns.TableAgreesIff` | src/retry_handler.cpp:154-183 | with one completion handler, when the workflow is finished and everything is written the table agrees with Redis if and only if no write of the retry handler landed on a row after the completion handler's last one |
| `MirrorRuns.RowAgreesIff` | src/completion_handler.cpp:511-535 | the same row by row for every terminal job that was not abandoned, finished workflow or not |
| `MirrorRuns.FinishedTableIff` | src/completion_handler.cpp:343-368 | with any number of handlers a finished table agrees if and only if on every row a final status was the last to land |
| `MirrorRuns.FinalRowsAreTrue` | src/completion_handler.cpp:492-535 | at any time, with any number of handlers and whatever is still to be written, a row that says COMPLETED, FAILED or ABORTED is right, but for an ABORTED that Redis still holds as FAILED |
| `MirrorRuns.LastWriteStays` | src/sqlite_db.cpp:895-964 | a row holds the last value that landed on it, else the one it had |
| `MirrorOrders.AgreesInEveryOrderIff` | src/retry_handler.cpp:154-183 | with one completion handler, the table of a finished run is right in the end in every order of the writes if and only if the retry handler took up no job in it |
| `MirrorOrders.RetryMayLeaveWrongRow` | src/retry_handler.cpp:154-183 | for every finished run with a retry there is an order of the writes that leaves a wrong row |
| `MirrorWrites.StepTells` | src/worker_thread.cpp:53-76 | what each write says: the completion handler writes to open jobs only, a final status exactly if the step settled the job; a worker RUNNING while it executes; the retry handler READY or QUEUED |
| `MirrorWrites.SettledIsWritten` | src/completion_handler.cpp:511-535 | every job that becomes terminal for good gets its final status written by the completion handler, or the retry handler gave it up |
| `MirrorWrites.SuccessRecorded` | src/completion_handler.cpp:343-368 | the table method for a success leaves exactly what the writes of that step say |
| `MirrorWrites.FailureRecorded` | src/completion_handler.cpp:511-535 | likewise for a terminal failure |
| `MirrorWrites.PromotionRecorded` | src/retry_handler.cpp:168-183 | likewise for a retry promotion |
| `Mirror.JobTable.UpdateReadyJobs` | src/sqlite_db.cpp:772-893 | one transaction: READY rows, then QUEUED rows, all of it undone if a row is missing |
| `Mirror.JobTable.UpdateStatus` | src/sqlite_db.cpp:895-964 | one row, for the statuses the table accepts |
| `Mirror.JobTable.RecordSuccess` | src/completion_handler.cpp:343-368 | what the handler writes after a success |
| `Mirror.JobTable.RecordFailure` | src/completion_handler.cpp:511-535 | what the handler writes after a terminal failure |
| `Mirror.JobTable.RecordPromotion` | src/retry_handler.cpp:168-183 | what the retry handler writes after a promotion |
| `Admission.ValidateDependencies` | src/workflow_admission_service.cpp:304-359 | exact verdict: missing dependency, cycle or accepted; the visit order is topological with each job once; the successor lists are complete and without repetition |
| `Admission.BuildEdges` | src/workflow_admission_service.cpp:313-332 | succeeds if and only if every dependency is defined; roots are queued once each |
| `Admission.AddEdges` | src/workflow_admission_service.cpp:315-327 | adds one job to the successor list of each of its dependencies, once |
| `Admission.Relax` | src/workflow_admission_service.cpp:341-348 | a dependent is enqueued exactly when its last unvisited dependency is visited |
| `Admission.VisitDecides` | src/workflow_admission_service.cpp:351-356 | an exhausted visit reached every job if and only if the graph is acyclic |
| `Admission.ValidateSemantic` | src/workflow_admission_service.cpp:270-302 | accepts exactly the requests without repeated ids and dependencies; else names the first offence |
| `Admission.CollectDependencies` | src/workflow_admission_service.cpp:278-288 | collects the dependencies if and only if none is repeated |
| `Dag.TrappedSetHasCycle` | src/workflow_admission_service.cpp:351-356 | jobs that all wait for each other contain a cycle |
| `Dag.TopologicalIsAcyclic` | src/workflow_admission_service.cpp:334-356 | a graph with a topological order is closed and acyclic |
| `RuntimeGenerator.Admit` | src/workflow_admission_service.cpp:82-108 | accepts exactly the requests within the policy, without repetitions and forming a dag; what it writes starts the protocol |
| `RuntimeGenerator.PoliciesDoNotMix` | schema/workflow_request.schema.json:224-228 | among the jobs of a request that fits the schema and the policy either no priority is negative or all are the same |
| `RuntimeGenerator.ValidateWorkflow` | src/workflow_admission_service.cpp:180-205 | accepts exactly the valid requests |
| `RuntimeGenerator.ValidatePolicy` | src/workflow_admission_service.cpp:237-268 | exact reason for job count and job size |
| `RuntimeGenerator.BuildJobsRuntimeInfo` | src/workflow_runtime_generator.cpp:14-94 | refuses exactly what exceeds the policy; one record per job; the ready jobs in order of priority and UUID |
| `RuntimeGenerator.InsertSorted` | include/redis_db_async.h:40-51 | insertion keeps the ready jobs ordered and adds exactly the new one |
| `RuntimeGenerator.InitializeRuntimeData` | src/workflow_runtime_generator.cpp:96-145 | the most urgent ready jobs are QUEUED up to the limit, the others wait; counters to match; scores are the priorities as unsigned ints |
| `RuntimeGenerator.SplitReady` | src/workflow_runtime_generator.cpp:130-141 | the loop over the ranked jobs |
| `RuntimeGenerator.GeneratedIsInitial` | src/workflow_runtime_generator.cpp:112-141 | the runtime data, with scores as unsigned ints, is a first state of the protocol if and only if the concurrency limit is not negative |
| `RuntimeGenerator.EncodingsAgree` | src/workflow_runtime_generator.cpp:20-41 | remaining_dependencies equals the number of successor lists that name the job, each once |
| `InitialProofs.InitialInv` | src/workflow_runtime_generator.cpp:96-145 | a first state satisfies every invariant |
| `RateLimiter.AdmissionGate.AdmitRequest` | src/redis_db_async_admission.cpp:101-184 | the admission script, command by command, with its rollbacks |
| `RateLimiter.AdmissionGate.SumWindow` | src/redis_db_async_admission.cpp:152-158 | the summing loop over the window |
| `RateLimiter.LimitsHold` | src/redis_db_async_admission.cpp:134-183 | over every run any `window` consecutive seconds see at most max_requests admissions, the active set stays within its limit, each live bucket is exact |
| `RateLimiter.DecisionIsExact` | src/redis_db_async_admission.cpp:134-183 | the decision is the one a log of admissions would give, reason by reason |
| `RateLimiter.RejectionRollsBack` | src/redis_db_async_admission.cpp:160-181 | a rejected request leaves every bucket and the active set as they were |
| `RateLimiter.RequestKeyIsExact` | src/redis_db_async_admission.cpp:134-138 | a request key lives exactly as long as the events of its own id say, whatever other requests come in between |
| `RateLimiter.DuplicateIffKnown` | src/redis_db_async_admission.cpp:134-138 | a request is refused as a duplicate if and only if its id is still known |
| `RateLimiter.NoSecondAdmission` | src/redis_db_async_admission.cpp:134-138 | whatever happens in between, a request id used once is a duplicate until it is released, its key expires, or the key of its latest status update does |
| `RateLimiter.AdmissionGate.AddActive` | src/redis_db_async_admission.cpp:166-181 | a workflow is added to the active set if and only if it is new and the set has room |
| `RateLimiter.AdmissionGate.CountRequest` | src/redis_db_async_admission.cpp:144-158 | the bucket of the current second goes up and expires after the window; the total is that of the window |
| `Resp.CommandRoundTrip` | src/redis_db_async.cpp:165-249 | what the writer emits reads back as exactly those strings, with exactly those bytes consumed, if and only if the count is an int and each length leaves room for two more in an int |
| `Resp.CommandsAreInjective` | src/redis_db_async.cpp:165-175 | different commands have different encodings, none a prefix of another |
| `Resp.WriteCommand` | src/redis_db_async.cpp:165-175 | the writer loop emits the encoding |
| `Resp.ReplyReader.TakeReply` | src/redis_db_async.cpp:177-240 | the reader consumes what the parse function says, with its failure cases |
| `Resp.ReplyReader.TakeElements` | src/redis_db_async.cpp:217-236 | the element loop, nested replies included |
| `Resp.ReplyReader.TakeLine` | src/redis_db_async.cpp:242-249 | nothing is taken before a CR LF has arrived; then the input splits at its first LF into the line, less one trailing CR, and what is left |
| `Resp.ReplyReader.HasArrived` | src/redis_db_async.cpp:242-244 | the scan finds the delimiter if and only if it is there |
| `Resp.ReadLineOf` | src/redis_db_async.cpp:242-249 | a line without CR and LF, sent with CR LF, is read back with nothing lost of what follows |
| `Keys.ParseExecutionKey` | src/redis_db_async.cpp:426-462 | the dequeue loop's parser agrees with the retry path's on every string |
| `Keys.RoundTripIffPlain` | src/redis_keys.cpp:18-21 | a printed key parses back if and only if no part is empty and client and workflow have no colon |
| `Keys.ParsedPrints` | src/redis_db_async_retry.cpp:18-43 | whatever parses is the print of its parts |
| `Keys.PlainKeysAreInjective` | src/redis_keys.cpp:18-21 | plain references have distinct keys |
| `Keys.ColonsCollide` | src/redis_keys.cpp:18-21 | a colon in a client or workflow id makes two references share a key |

## Left out

- HTTP server, routing, JSON parsing and schema validation: admission starts from a job list that fits the schema, of which the range of the priorities is part of the model.
- SQL text, prepared statements, timestamps in the table: the table is a map from job id to status.
- Sockets, coroutines, publish and subscribe, timers, shutdown: each script or command is one atomic step.
- Start, stop, add and remove of components at run time: only easy lifecycle facts.
- The repair paths after a failed Redis or SQLite call, process crashes, lost completion records: the model assumes that calls succeed, except for `Boundaries.LostWriteCountsTwice`.
- `handle_job_canceled` and the slot and counter helpers that the running handlers do not call.
- Other workflows: the store is the part of Redis that belongs to one workflow; the execution queue and the retry set are restricted to its jobs.
- Order of the completion stream and ties of `ZPOPMAX`: every order is allowed.
- Deletion of the runtime data after cleanup: a run ends with the signal.
- Payload bytes, logging, wall-clock values, retry jitter: inputs or ignored.
- Allocation failures of the reply reader for very large announced sizes.
- Priorities.PromotionByPriority: speaks of promotions in a run; the split at admission goes by the signed priorities, as part of `RuntimeGenerator.GeneratedIsInitial`.
- MirrorRuns.TableAgreesIff: the table as a whole is described once everything is written; while writes are outstanding only rows with a final status are (`MirrorRuns.FinalRowsAreTrue`).
- MirrorOrders.AgreesInEveryOrderIff: speaks of one completion handler; the writes of one transaction may land one by one.
- Priorities across workflows: scores are compared within one workflow.
- RateLimiter.LimitsHold: needs a window of at least one second, fixed limits and a server clock that does not go back.
- Termination.RunsAreBounded: bounds the steps of the protocol; polling without a result is no step.
- Widths of the other integers: job counts, counters and times are unbounded; only the concurrency limit, the job size limit and the scores are converted as the code converts them.
