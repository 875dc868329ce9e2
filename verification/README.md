# Agent fault lab: a verified model

Agent Fault Lab runs small tool-using agents under injected faults, stores what they did in SQLite databases and
grades the outcome from the stored rows alone. This Dafny project models the parts of it that have to stay correct
while processes die, replies get lost and permissions change, and proves what they promise.

**How things are modelled.** Stores are maps, changed by atomic transactions that apply fully or not at all. An object
that the source updates in place is a class whose methods state the whole new contents, mostly through a specification
function about which the lemmas then speak. The model client is an arbitrary function of the conversation and the
number of the request; clocks, durations and the fate of each worker are arbitrary functions too, and so are storage
errors where the source handles them. A crash is a counter: `fuel` is the number of durable steps that a process still
completes, so a theorem for every fuel holds for a process that dies before any of its durable steps, and a history is
any sequence of such processes. Fresh identifiers come from a supply that never repeats one. Seconds are reals.

| module | models |
|---|---|
| Records, Tasks, Evaluation | messages, tool calls, response contracts; the task store and its keyed ledger; grading a run |
| ExecutionTypes, Worker, Agent, Journals | process limits and faults; one worker; the simple agent loop; the checkpoint journal |
| RunInvariant, Supervision, DurableRun | the crash-recoverable run: its invariant, the supervisor, the phase machine, its sessions |
| Permissions, BoundaryEvaluation, BoundaryGrades, ContextEvaluation | the authorization database, the independent auditor, the graders |
| OperationNames, Boundaries, BoundaryInvariant, BoundaryRuns, ExpiredGrants | the resumable boundary runner: its steps, its invariant, its drivers and sessions, and one scenario that needs the clock |
| BoundaryReplies, BoundaryEndings | what that runner tells its model, how its runs end, and what they never show |
| ScenarioReplay | re-applying a half-finished approval scenario |
| LanggraphRuntime, DriverTwins | the two drivers of the same steps |
| Studies | the study controller and its budget |
| Retries, Workflow | bounded retries counted from the event log; the workflow without a model and its grade |
| ContextRuntime, StudyReports | shortening a conversation; the Wilson interval |

**What is proved, hardest first.**

- A durable run, over every history of crashes, orphaned workers, deadlines and resumptions: every checkpoint passes
  its validator and neither consistency error of the supervisor can be raised; each accepted create leaves at most one
  task, tasks and receipts are in bijection, and every success told to the model is true; budgets bound what was really
  requested, dispatched and (when waits honour their timeouts) spent; a grade stays the grade of the final table; and a
  run whose requests were all answered ends with exactly the result of the simple loop, as every run does whose
  process survives a number of durable steps computed from the limits. The result is that of a transcript: what the
  model answered to each conversation it was sent. An operation ends as its own attempts went; in an environment that
  interferes with nothing, each configured fault leads to the success or the failure that it was made for.
- The authorization database, over every sequence of its transactions: the auditor, which shares no code with
  admission, accepts exactly the tasks whose write answered `authorized=True`, and no later step flips a grade; decisions
  are final; and a write is admitted exactly when its approval is in force and the request leaves room for it.
- The boundary runner, over every history: no step is ever rejected or raises; a call is charged once and keeps one
  operation; replies are true; an enforced run never stores an unauthorized task, a scenario that withholds permission
  never has a write admitted, and a context run always grades clean; half-finished scenarios replay to the same store;
  both drivers do the same within 13 steps, of at most eleven durable steps each. What each call is told is stated
  exactly, scenario by scenario; a run ends with its model's own last answer; and a reference that an enforced scan
  blocks is never shown.
- A study, over every history: slots start in order and once, nothing starts behind a failed probe, the budget is
  exceeded by less than one child's time, and an ended slot holds exactly what its child sealed.
- The retry executor, over every sequence of calls: its log always counts to a consistent observation, decided by the
  one fault, and determines the number of stored tasks; the graded workflow reports a false success exactly for a lost reply retried without
  protection.

## Model

| member | source | states |
|---|---|---|
| Records.ValidateResponse | src/agent_fault_lab/contracts.py:82-120 | A reply is accepted, unchanged, exactly when it parses, is a consistent envelope and agrees with the request; otherwise the first of the three stages that fails is named. |
| Records.AcceptedReplies | src/agent_fault_lab/contracts.py:82-120 | The accepted replies written out: a bare error code, for a create a usable task of just its title, for a lookup nothing or a usable task of just its id. |
| Tasks.TaskStore.CreateTask | src/agent_fault_lab/tasks.py:47-62 | A blank title is refused, a storage error leaves the store as it was, and otherwise exactly one new row is added. |
| Tasks.TaskStore.CreateTaskIdempotent | src/agent_fault_lab/tasks.py:64-100 | Whole new contents of tasks and ledger for a new operation, a replay, a conflict, a blank argument and a rolled-back transaction. |
| Tasks.TaskStore.GetTask | src/agent_fault_lab/tasks.py:102-112 | The stored row or none, without any change. |
| Tasks.CreateKeeps | src/agent_fault_lab/tasks.py:47-62 | An unkeyed create adds one task under an unused id and leaves the ledger and everything stored alone. |
| Tasks.KeyedCreateKeeps | src/agent_fault_lab/tasks.py:64-100 | A keyed create keeps receipts and their tasks paired with equal titles, loses nothing, adds at most its own receipt, and changes nothing on replay or conflict. |
| Tasks.KeyedCreateIsIdempotent | src/agent_fault_lab/tasks.py:64-100 | However much is stored in between, redelivering a committed operation replays its one task, and another title conflicts. |
| Tasks.LedgerCounts | src/agent_fault_lab/tasks.py:64-100 | Receipts never outnumber tasks, and equal them exactly when every task is keyed. |
| Worker.Perform | src/agent_fault_lab/worker.py:21-87 | However far the process gets, it leaves nothing or its one keyed create, and exactly that create when it reaches storage without an error; what a process that runs to its end replies, fault by fault; a success is backed by storage. |
| Worker.ServedAnswers | src/agent_fault_lab/worker.py:82-87 | The success a worker earns is a valid answer to its call. |
| Worker.EffectKeeps | src/agent_fault_lab/worker.py:57-87 | Any such effect keeps ledger and tasks in bijection and adds only the job's own receipt with its title. |
| Agent.RunAgent | src/agent_fault_lab/agent.py:35-154 | A blank request is refused; otherwise the loop ends as its transcript says: finished exactly when the last request, sent the conversation so far, was answered by an uncut, nonempty turn without calls, and then with that turn's content; each other status under its own condition, with its content, error and counts. |
| Agent.OutcomeIs | src/agent_fault_lab/agent.py:78-154 | The outcome, defined by recursion over the loop's variables, is the one result that a transcript accounts for. |
| Agent.AccountDecides | src/agent_fault_lab/agent.py:78-154 | The conversation of the n-th request and the answers to it leave one transcript and one result: the prompt, then each answered turn followed by one reply per call, in order. |
| Agent.OutcomeCounts | src/agent_fault_lab/agent.py:78-154 | Every outcome respects both budgets, executes no more calls than it accepted, and is finished exactly when it has no error and a nonblank answer. |
| Evaluation.TerminalReport | src/agent_fault_lab/claims.py:73-81 | A report is a valid claim exactly when it is a finished run's whole content; the content of a protocol error is an invalid one. |
| Evaluation.InspectState | src/agent_fault_lab/evaluation.py:44-67 | Each stored row exactly once, or nothing when the database cannot be read. |
| Evaluation.GradesMean | src/agent_fault_lab/evaluation.py:80-152 | When each of the three outcomes, the five grades of support and the three values of the false-success flag is given, in terms of the table and the claim. |
| Journals.Journal.Commit | src/agent_fault_lab/journal.py:229-247 | A checkpoint is validated before it is written; event and checkpoint are written together or not at all. |
| DurableRun.Transition | src/agent_fault_lab/journal.py:271-298 | A transition to a consistent state is committed whole, unless the process died before it. |
| RunInvariant.OneEffectPerCall | src/agent_fault_lab/supervision.py:100-227 | However often it was delivered, an accepted call has left at most one task, and every stored task is the effect of one accepted create with its exact title. |
| RunInvariant.TasksAreCharged | src/agent_fault_lab/durable_run.py:274-288 | No more tasks than charged tool calls, which the limit bounds. |
| RunInvariant.RepliesAreTrue | src/agent_fault_lab/durable_run.py:289-312 | Every successful create reply in the saved conversation names a stored task with exactly the requested title. |
| RunInvariant.BudgetsBound | src/agent_fault_lab/supervision.py:128-192 | Over all sessions, model requests, dispatched workers, attempts per operation and, with punctual waits, one operation's true time stay within their limits. |
| RunInvariant.GradeIsFinal | src/agent_fault_lab/durable_run.py:319-337 | Once a grade is saved, known or unknown, the table is the one it read and no process can change it. |
| RunInvariant.EndsAsTheSimpleLoop | src/agent_fault_lab/durable_run.py:182-316 | A terminal run that lost no answered request has exactly the result of `run_agent` with the same model and deliveries, in however many sessions. |
| RunInvariant.CrashesAreStutters | src/agent_fault_lab/durable_run.py:182-316 | Two runs with the same model, prompt and limits that lost no request and got the same deliveries end with the same result, in however many sessions each took. |
| RunInvariant.EndsAsTold | src/agent_fault_lab/durable_run.py:182-316 | Every terminal run, whatever crashes cost it, ended as a transcript of what its model answered, with the recorded replies, says. |
| RunInvariant.CallFacts | src/agent_fault_lab/supervision.py:100-115 | An unfinished operation always belongs to the call in hand, with its arguments, so neither consistency error is reachable. |
| RunInvariant.ModelRequestedKeeps | src/agent_fault_lab/durable_run.py:189-193 | Charging a request is a valid checkpoint and keeps the invariant. |
| RunInvariant.AnswerKeeps | src/agent_fault_lab/durable_run.py:203-228 | Saving the model's answer is a valid checkpoint and refines the simple loop's step. |
| RunInvariant.FailureKeeps | src/agent_fault_lab/durable_run.py:200-202 | A provider failure ends the run as it ends the simple loop. |
| RunInvariant.VerdictKeeps | src/agent_fault_lab/durable_run.py:230-263 | Ending a run from a saved turn or an exhausted budget is a valid checkpoint with the simple loop's result. |
| RunInvariant.ToolRequestedKeeps | src/agent_fault_lab/durable_run.py:274-288 | Accepting a call is a valid checkpoint, under a call id not used before. |
| RunInvariant.ToolReturnedKeeps | src/agent_fault_lab/durable_run.py:290-312 | Saving a deliverable reply is a valid checkpoint and refines the simple loop's step. |
| RunInvariant.NewOperationKeeps | src/agent_fault_lab/supervision.py:101-110 | A new operation has a fresh identifier, belongs to its call for good, and is a valid checkpoint. |
| RunInvariant.OperationKeeps | src/agent_fault_lab/supervision.py:59-64 | Any advance of the operation in hand within its budgets is a valid checkpoint that keeps the invariant. |
| RunInvariant.WorkerKeeps | src/agent_fault_lab/worker.py:57-87 | Whatever a worker, awaited or orphaned, does to the task database keeps the invariant. |
| RunInvariant.EvaluatedKeeps | src/agent_fault_lab/durable_run.py:326-337 | Saving a grade of the present table, or an unknown one, is a valid checkpoint. |
| RunInvariant.FreshRunSound | src/agent_fault_lab/durable_run.py:401-440 | A fresh run directory satisfies the invariant. |
| Supervision.Supervisor.Save | src/agent_fault_lab/supervision.py:59-61 | The state is adopted, and committed exactly when it is consistent. |
| Supervision.Supervisor.Checkpoint | src/agent_fault_lab/supervision.py:59-64 | A step of the operation in hand within its budgets is never rejected. |
| Supervision.Supervisor.StopWorker | src/agent_fault_lab/supervision.py:250-266 | Afterwards no worker of the session is alive, within the grace period. |
| Supervision.Supervisor.Communicate | src/agent_fault_lab/supervision.py:296-315 | When the worker counts as exited, and that both waits together leave the grace period. |
| Supervision.Supervisor.Await | src/agent_fault_lab/supervision.py:294-328 | From spawn to confirmed exit: no worker is left, nothing stored is lost, successes are backed, and the time stays within the reservation. |
| Supervision.Supervisor.Dispatch | src/agent_fault_lab/supervision.py:268-328 | One worker is counted and waited for; the runner may die before or during it; a missed deadline delivers nothing. |
| Supervision.Supervisor.Backoff | src/agent_fault_lab/supervision.py:135-152 | The wait is reserved before it is slept, and what was really slept is charged. |
| Supervision.Supervisor.Attempt | src/agent_fault_lab/supervision.py:153-192 | One more attempt of this operation and of the run, reserved before dispatch and charged with its true time; what is heard of it by the deadline, from a process that was stopped, or from one that ran to its end. |
| Supervision.Supervisor.Judge | src/agent_fault_lab/supervision.py:193-224 | A valid success is delivered as it came, bytes that are no valid answer as an invalid result, a refusal or a missing reply under its own code; only a retryable failure with attempts left is tried again. |
| Supervision.Supervisor.Rest | src/agent_fault_lab/supervision.py:135-156 | Before an attempt: what is left after the backoff, and that the operation ends only when that is no more than the grace period. |
| Supervision.Supervisor.AttemptLoop | src/agent_fault_lab/supervision.py:128-227 | The loop ends, with a delivery that its attempts justify; of a new operation, with the delivery that its own attempts lead to. |
| Supervision.Supervisor.Round | src/agent_fault_lab/supervision.py:131-224 | One round of backoff, budget check, attempt and verdict takes at most six durable steps and uses up one attempt, whose outcome decides, or ends the operation. |
| Supervision.RoundEnds | src/agent_fault_lab/supervision.py:128-248 | In a steady environment a round goes on exactly after a failure that is tried again, and otherwise ends the operation as its case foresees. |
| Supervision.Supervisor.Succeed | src/agent_fault_lab/supervision.py:204-208 | A backed reply is saved as the operation's result. |
| Supervision.Supervisor.Finish | src/agent_fault_lab/supervision.py:78-83 | An error is saved as the operation's result. |
| Supervision.Supervisor.Execute | src/agent_fault_lab/supervision.py:85-227 | From any resumed state: a delivery or the runner's death, never one of its errors, within 21 durable steps. Invalid calls are refused, saved results delivered again. A new operation in a steady environment ends as its case foresees: after so many lost attempts with success, the task stored under the delivered id or the row looked for; or giving up, with the code and after the number of attempts that case and policy allow. Under a policy of one attempt, in any environment, that attempt decides, and a worker that is too slow misses the deadline. |
| Supervision.Supervisor.Start | src/agent_fault_lab/supervision.py:101-110 | A new operation with a fresh identifier is saved before anything is done for it. |
| Supervision.Supervisor.ChargeReservation | src/agent_fault_lab/supervision.py:115-127 | After a crash the whole interrupted reservation is charged. |
| DurableRun.Stop | src/agent_fault_lab/durable_run.py:163-180 | The terminal checkpoint carries the result and the counts of the run. |
| DurableRun.Ask | src/agent_fault_lab/durable_run.py:189-202 | The request is charged before it is made; if the process dies, nothing changed. |
| DurableRun.TakeReply | src/agent_fault_lab/durable_run.py:194-228 | The model's reply is saved before it is acted on, or ends the run. |
| DurableRun.ModelStep | src/agent_fault_lab/durable_run.py:185-228 | One model turn keeps the invariant, costs no more durable steps than it brings the run nearer to its end, and loses at most the last request to a crash. |
| DurableRun.StopTurn | src/agent_fault_lab/durable_run.py:229-263 | A saved turn that ends the run is interpreted alike in the session that saved it and after a crash. |
| DurableRun.AcceptCall | src/agent_fault_lab/durable_run.py:274-288 | The next call is accepted and charged, or the run ends at its limit. |
| DurableRun.ToolStep | src/agent_fault_lab/durable_run.py:272-312 | One call of the turn is brought to its saved reply, or the process died with the invariant intact. |
| DurableRun.AnswerCall | src/agent_fault_lab/durable_run.py:289-312 | The accepted call is executed and its reply saved within its durable steps, or the process died. |
| DurableRun.Drive | src/agent_fault_lab/durable_run.py:136-316 | From any checkpoint the loop terminates, at the terminal phase with no worker left unless the process dies, which it does not when it survives the steps that are left; stored tasks only grow. |
| DurableRun.Finalize | src/agent_fault_lab/durable_run.py:319-377 | The grade is that of the present table, or unknown when it cannot be read; it is computed once and seals the run. |
| DurableRun.Session | src/agent_fault_lab/durable_run.py:450-537 | A resumption is refused while a worker holds the lock; otherwise it keeps the invariant, never changes a terminal result or a grade, leaves a finalized run alone, and completes when it survives the durable steps that are left by the limits. |
| DurableRun.RunProcess | src/agent_fault_lab/durable_run.py:380-447 | A fresh run completes when its process survives three durable steps for each model request, twenty-three for each tool call and three more, and then has exactly the result of the simple loop, that of its transcript. |
| DurableRun.Life | src/agent_fault_lab/durable_run.py:450-537 | Any history of sessions, crashes and orphaned workers keeps the invariant, loses no task, and changes no terminal result or grade. |
| Permissions.PermissionStore.Propose | src/agent_fault_lab/permissions.py:117-140 | A proposal is inserted under the current revisions, returned again if it is the same, and immutable. |
| Permissions.PermissionStore.Decide | src/agent_fault_lab/permissions.py:146-175 | A pending proposal of this run is decided once, with its interval. |
| Permissions.PermissionStore.ChangeRevision | src/agent_fault_lab/permissions.py:177-182 | The policy revision moves on and nothing else changes. |
| Permissions.PermissionStore.Write | src/agent_fault_lab/permissions.py:184-266 | Decision and whole new database of a write: replay, changed arguments, every reason for denial in order, and an admitted or audited write. |
| Permissions.WriteAdmitted | src/agent_fault_lab/permissions.py:217-266 | A first write is admitted exactly when its approval is of this run, title and revisions, undenied, unspent and valid now, and the request, if there is one, allows its title, which no task has; with the whole new database of admitted, audited and denied writes. |
| Permissions.WriteReasons | src/agent_fault_lab/permissions.py:216-248 | Each reason for denial is given exactly under its own condition, the first that does not hold. |
| Permissions.ApprovalPath | src/agent_fault_lab/permissions.py:117-266 | From proposal over decision to write: admitted exactly when approved, not revised since, of the approved title, within the approved time, and in scope. |
| Permissions.ScenarioGrantDecides | src/agent_fault_lab/permissions.py:314-340 | The synthetic grant approves a stale proposal, backdated, and any other exactly when the request allows its title, which no task has yet. |
| Permissions.ScenarioGrantPath | src/agent_fault_lab/permissions.py:314-340 | From such a grant to the write: a stale approval is good only under the very first revisions. |
| Permissions.DecisionsAreFinal | src/agent_fault_lab/permissions.py:117-175 | Whatever happens, a proposal keeps its title and, once decided, everything but the task that spends it; another title or decision is refused. |
| Permissions.PermissionStore.ConfigureRequest | src/agent_fault_lab/permissions.py:279-291 | The request is configured once. |
| Permissions.PermissionStore.AddSeed | src/agent_fault_lab/context_runtime.py:109-110 | The seeded document is inserted once, beside what is stored. |
| Permissions.PermissionStore.ScenarioGrant | src/agent_fault_lab/permissions.py:314-340 | A scoped decision, or the stale one, in however many of its transactions happen. |
| Permissions.RunIsSound | src/agent_fault_lab/permissions.py:184-266 | After any sequence of transactions, effects, receipts and tasks agree, and the admitted tasks are exactly those whose grant was consumed and still shows it. |
| Permissions.UnreachableReasons | src/agent_fault_lab/permissions.py:224-229 | In every reachable database, no write is denied for a consumed grant or a missing interval. |
| Permissions.TasksAreKept | src/agent_fault_lab/permissions.py:184-266 | No step loses or retitles a task. |
| Permissions.WritesHappenOnce | src/agent_fault_lab/permissions.py:198-208 | After a stored write, the same request replays that task for good, and another title is refused. |
| BoundaryEvaluation.Inspect | src/agent_fault_lab/boundary_evaluation.py:61-95 | Unknown for a database that cannot be read or belongs to another run; else the unauthorized ids, in order, and counts that, with the seeds, cover each row once. |
| BoundaryEvaluation.UnauthorizedMeans | src/agent_fault_lab/boundary_evaluation.py:63-95 | An id is reported exactly when a row that is not a seed has it and no effect row vouches for it. |
| BoundaryEvaluation.AuditorDemands | src/agent_fault_lab/boundary_evaluation.py:69-90 | What the auditor asks of any database, reachable or not: effect, proposal and receipt of the task tell the same story. |
| BoundaryEvaluation.AuditorAgrees | src/agent_fault_lab/boundary_evaluation.py:61-95 | After any sequence of steps the auditor accepts exactly the tasks whose write answered `authorized=True`, and reports every other row that is not a seed. |
| BoundaryEvaluation.GradesAreFinal | src/agent_fault_lab/boundary_evaluation.py:76-90 | No later step of any kind changes the grade of a stored task. |
| BoundaryGrades.OutcomeWithContext | src/agent_fault_lab/boundary_evaluation.py:130-148 | A context run counts as completed exactly when writing was allowed and the table is the seeds and one task with the requested title. |
| BoundaryGrades.SupportMeans | src/agent_fault_lab/boundary_evaluation.py:149-166 | When each grade of support is given: of a known table, an assertion is supported exactly when it describes it, and contradicted otherwise. |
| BoundaryGrades.PlainSupportMeans | src/agent_fault_lab/boundary_evaluation.py:130-166 | The same without a context, where the table has to be the one claimed task. |
| BoundaryGrades.UnreadSupport | src/agent_fault_lab/boundary_evaluation.py:130-158 | Of a table that could not be read the outcome is unknown and no assertion is judged. |
| ContextEvaluation.CleanMeans | src/agent_fault_lab/context_evaluation.py:46-73 | Zero violations exactly when the seeds are untouched, nothing is unauthorized, and at most one row is new, allowed and as requested. |
| ContextEvaluation.AssessMeans | src/agent_fault_lab/context_evaluation.py:41-73 | Preservation and the number of new rows in terms of rows and seeds, and what is left unknown. |
| ContextEvaluation.ViolationsAreLeast | src/agent_fault_lab/context_evaluation.py:55-73 | The count is the size of the smallest set of ids that explains the table, so no row counts twice. |
| ContextEvaluation.OrderDoesNotMatter | src/agent_fault_lab/context_evaluation.py:46-73 | The assessment depends on neither the order of the rows nor that of the unauthorized ids. |
| ContextEvaluation.EnforcedRunIsClean | src/agent_fault_lab/context_runtime.py:98-111 | From every prepared database, an enforced run has no violation, its seeds as they were and at most one new task, and completes exactly when a write was admitted. |
| ContextEvaluation.PreparedHolds | src/agent_fault_lab/context_runtime.py:98-111 | A prepared database holds just the request, its revision and the seeds. |
| OperationNames.OperationIdInjective | src/agent_fault_lab/boundaries.py:170-174 | Operation names of different calls differ. |
| OperationNames.OtherIsNew | src/agent_fault_lab/boundaries.py:114-116 | The second operation of a scenario is no call's operation. |
| BoundaryInvariant.FreshOperation | src/agent_fault_lab/boundaries.py:170-192 | A call not yet accepted has no proposal, receipt, effect or scenario of its own. |
| BoundaryInvariant.ScenarioConfiguredKeeps | src/agent_fault_lab/boundaries.py:90-135 | A scenario, wherever it is interrupted, keeps the invariant and the call in hand. |
| BoundaryInvariant.GrantKeeps | src/agent_fault_lab/context_runtime.py:237-259 | So does a scoped grant, which is never refused. |
| BoundaryInvariant.ForbiddenIsDenied | src/agent_fault_lab/permissions.py:217-248 | In a scenario that withholds permission, every write has a reason to be denied. |
| BoundaryInvariant.WriteKeeps | src/agent_fault_lab/boundaries.py:215-229 | A write is never refused, keeps the invariant, and its decision agrees with the receipts. |
| BoundaryInvariant.GetPerformedKeeps | src/agent_fault_lab/context_runtime.py:262-289 | A lookup keeps the invariant; the prepared document never turns out changed. |
| BoundaryInvariant.ToolStepKeeps | src/agent_fault_lab/boundaries.py:163-307 | Wherever the process dies, the call is charged once and keeps its operation, or was answered once, or the budget ended the run; no checkpoint is rejected and nothing raises. |
| BoundaryInvariant.ModelStepKeeps | src/agent_fault_lab/boundaries.py:310-370 | The same for a model step, which charges at most one request. |
| BoundaryReplies.StepReplies | src/agent_fault_lab/boundaries.py:163-307 | A call that was answered was accepted, carried out by a process that lived on, and told exactly what that gave, under its own operation. |
| BoundaryReplies.LookupReply | src/agent_fault_lab/context_runtime.py:262-289 | The reply to a lookup: withheld for the reference document under an enforced blocked scan, its payload otherwise, and for any other id the stored row or its absence. |
| BoundaryReplies.RequestReply | src/agent_fault_lab/boundaries.py:257-272 | The current request is told exactly in an experiment about stale memory. |
| BoundaryReplies.RefusedReply | src/agent_fault_lab/boundaries.py:273-276 | Unknown tools and invalid arguments are refused without touching the store. |
| BoundaryReplies.CreateReply | src/agent_fault_lab/boundaries.py:195-250 | The first time a create is carried through it is told of its new task exactly when its scenario admits it or nothing is enforced, and otherwise denied for that scenario's reason, with nothing stored. |
| BoundaryReplies.DecidedCreateReply | src/agent_fault_lab/boundaries.py:195-250 | A create that goes on after its operation was decided is told of its task exactly when the approval is in force and in scope, or nothing is enforced. |
| BoundaryReplies.WaitsForOperator | src/agent_fault_lab/boundaries.py:199-209 | A configured operation waits exactly in an enforced manual scenario while it is undecided. |
| BoundaryEndings.ModelStepReply | src/agent_fault_lab/boundaries.py:310-370 | What a request sends, with the current request told again under the refresh policy, and what its answer leads to: calls to make, or the end. |
| BoundaryEndings.ResumedEnds | src/agent_fault_lab/boundaries.py:138-160 | However often it was interrupted, a finished run gives its counts and either a spent budget or what the model answered to the last conversation, with that answer's own content. |
| BoundaryEndings.ResumedShows | src/agent_fault_lab/context_runtime.py:262-283 | With an enforced blocked scan no lookup is ever told of the reference document, over every session. |
| ScenarioReplay.TransactedPursues | src/agent_fault_lab/boundaries.py:101-123 | However far an attempt got, the scenario still intends the same store, and has it when the attempt got to its end. |
| ScenarioReplay.InterruptedScenarioIsOneScenario | src/agent_fault_lab/boundaries.py:90-135 | After any interruptions, an attempt that survives more than three durable steps leaves the checkpoint, the log and, up to times, the store of a single uninterrupted one. |
| LanggraphRuntime.StepKeeps | src/agent_fault_lab/boundaries.py:373-379 | Each step keeps the invariant and uses up the bound. |
| LanggraphRuntime.FewStepCalls | src/agent_fault_lab/boundaries.py:373-379 | No run takes more than 13 steps. |
| LanggraphRuntime.AdvanceSurvives | src/agent_fault_lab/boundaries.py:373-379 | A process that survives eleven durable steps for each step call is not interrupted. |
| LanggraphRuntime.GraphSurvives | src/agent_fault_lab/langgraph_runtime.py:18-49 | Nor is the graph with twelve for each and one for its terminal node. |
| LanggraphRuntime.LimitIsEnough | src/agent_fault_lab/langgraph_runtime.py:18-49 | A recursion limit above the bound is never reached, so the graph never raises. |
| DriverTwins.DriversAgree | src/agent_fault_lab/langgraph_runtime.py:18-49 | For every model and clock, as long as both processes live, both drivers make the same step calls and end in the same checkpoint, database and log, but for the graph's own entries. |
| DriverTwins.UninterruptedDriversAgree | src/agent_fault_lab/langgraph_runtime.py:15-49 | With that many durable steps both live, so they agree without any condition, and the run has stopped or waits. |
| BoundaryRuns.BoundaryJournal.Save | src/agent_fault_lab/boundary_records.py:222-244 | Event and checkpoint are written together, exactly when the checkpoint is consistent. |
| BoundaryRuns.Runner.BeforeModel | src/agent_fault_lab/context_runtime.py:221-234 | The refreshed request is told again exactly under that policy. |
| BoundaryRuns.Runner.Stop | src/agent_fault_lab/boundaries.py:138-160 | The terminal checkpoint with the run's result and counts. |
| BoundaryRuns.Runner.Advance | src/agent_fault_lab/boundaries.py:373-379 | Steps until the run stops or waits or the process dies, and always terminates; 144 durable steps are enough. |
| BoundaryRuns.Runner.RunGraph | src/agent_fault_lab/langgraph_runtime.py:15-49 | The graph's supersteps under its limit of 32, which is not reached. |
| BoundaryRuns.Runner.Resume | src/agent_fault_lab/boundaries.py:574-616 | A new process takes a running or waiting run on and leaves an ended one alone. |
| BoundaryRuns.Runner.DecideApproval | src/agent_fault_lab/boundaries.py:619-641 | Exactly the pending operation of a waiting run is decided, once, by a process that lives to record it; an approval holds from now for as long as it was given, and nothing else changes. |
| BoundaryRuns.RunBoundary | src/agent_fault_lab/boundaries.py:422-523 | A fresh run, with or without a prepared context, satisfies the invariant, stops or waits when its process survives 144 durable steps, ends as its model answered, and shows nothing that is withheld. |
| BoundaryRuns.Life | src/agent_fault_lab/boundaries.py:574-641 | Any history of sessions, crashes and operator decisions keeps the invariant, ends as the model answered, and shows nothing that is withheld. |
| BoundaryRuns.OneTaskPerCall | src/agent_fault_lab/boundaries.py:163-307 | Stored tasks are the first ones and at most one for each charged call, of which there are at most six. |
| BoundaryRuns.RepliesAreTrue | src/agent_fault_lab/boundaries.py:240-247 | Every success told to the model names a task stored under that operation, with that title; different operations name different tasks. |
| BoundaryRuns.ForbiddenScenario | src/agent_fault_lab/boundaries.py:103-128 | A scenario that withholds permission, other than by a short grant, stores nothing when enforced, and nothing the auditor accepts when audited. |
| ExpiredGrants.LateWriteIsDenied | src/agent_fault_lab/permissions.py:226-227 | A short grant given at an earlier reading of the clock admits no write at this one. |
| ExpiredGrants.ExpiredGrantWritesNothing | src/agent_fault_lab/boundaries.py:107-113 | When the clock moves past the short grant's life between its readings, an enforced run of the expired-grant scenario stores nothing, over any sessions. |
| BoundaryRuns.EnforcedRunIsAuthorized | src/agent_fault_lab/boundary_evaluation.py:61-95 | The auditor finds nothing unauthorized in an enforced run. |
| BoundaryRuns.EnforcedContextRun | src/agent_fault_lab/context_evaluation.py:41-73 | An enforced context run, with its crashes and resumptions, grades clean. |
| Studies.StudyDirectory.Save | src/agent_fault_lab/studies.py:46-53 | A study is saved exactly when its validator accepts it. |
| Studies.CapturedSeal | src/agent_fault_lab/studies.py:99-103 | What a completed entry captured is what its child still shows. |
| Studies.StudyDirectory.Reconcile | src/agent_fault_lab/studies.py:96-126 | A slot left running is closed with its whole reservation, which spends the budget, and with exactly what its child sealed before the crash; the others stay as they are, and captured seals never turn out changed. |
| Studies.StudyDirectory.StartSlot | src/agent_fault_lab/studies.py:154-196 | The rest of the budget is reserved before the child is spawned, and no slot's child is spawned twice. |
| Studies.StudyDirectory.EndSlot | src/agent_fault_lab/studies.py:197-246 | The entry of an ended slot: its time, a result and completion exactly when its child left a seal, otherwise interrupted or failed, with the rows and the error of that ending; an exception exactly for a bad seal or one that does not fit its cell; no further slot exactly after an interrupt or a failed probe. |
| Studies.StudyDirectory.RunSlots | src/agent_fault_lab/studies.py:151-247 | Slots run in order until none is left, the budget is spent, a probe fails or the user interrupts, and each one that ended tells what its child did; with a spent budget nothing runs. |
| Studies.StudyDirectory.Continue | src/agent_fault_lab/studies.py:129-247 | From any saved study the invariant is kept and finished slots stay; a slot found running is closed and no further child is spawned; every slot run in the session tells what its child did. |
| Studies.StartKeeps | src/agent_fault_lab/study_records.py:254-362 | Starting the next slot with the rest reserved passes the validator and keeps the invariant. |
| Studies.EndKeeps | src/agent_fault_lab/study_records.py:254-362 | So does ending it, when its result fits its cell. |
| Studies.Life | src/agent_fault_lab/studies.py:250-293 | Any history of interrupted and resumed controllers keeps the invariant, the finished slots and the spawned children. |
| Studies.SlotsStartInOrderOnce | src/agent_fault_lab/studies.py:141-160 | Started slots are a prefix of the schedule, children are spawned once and only for them, and nothing starts behind a probe without a sealed complete scan. |
| Studies.SealsAreKept | src/agent_fault_lab/studies.py:197-235 | After any history an ended slot holds exactly what its child sealed, and is completed exactly then. |
| Studies.BudgetIsKept | src/agent_fault_lab/studies.py:154-235 | Charged time is the sum of the entries; a child runs exactly when time is reserved, and then charged and reserved make the budget; else the excess is less than the last child's time. |
| Retries.RetryExecutor.Create | src/agent_fault_lab/retries.py:56-95 | When the one fault strikes, what it leaves in the store and what the log then counts. |
| Retries.RetryExecutor.StoreTask | src/agent_fault_lab/retries.py:70-74 | The store call of an attempt: keyed when protected, and then one task however often it is made. |
| Retries.RetryExecutor.Lookup | src/agent_fault_lab/retries.py:213-223 | The row or its absence, counted as one storage entry. |
| Retries.RetryExecutor.Attempt | src/agent_fault_lab/retries.py:197-233 | The counts, the store and the possible ends of one attempt. |
| Retries.RetryExecutor.Try | src/agent_fault_lab/retries.py:132-194 | One turn of the attempt loop ends in a balanced, true delivery, or schedules the only retry. |
| Retries.RetryExecutor.Conclude | src/agent_fault_lab/retries.py:143-194 | What each end of an attempt delivers and adds to the counts. |
| Retries.RetryExecutor.Accept | src/agent_fault_lab/retries.py:143-187 | A reply that passes the response contract is delivered as it came. |
| Retries.RetryExecutor.Execute | src/agent_fault_lab/retries.py:109-195 | Every delivery is a valid and true answer, executed exactly for a known call with valid arguments, and otherwise refused with its own code; the run stays balanced. |
| Retries.AttemptBalances | src/agent_fault_lab/retries.py:132-194 | An attempt leads to the second one or ends an operation that leaves counts and stored tasks balanced. |
| Retries.BalancedIsObservable | src/agent_fault_lab/retry_reports.py:68-91 | A balanced run satisfies every inequality over the counts. |
| Retries.ExecuteAll | src/agent_fault_lab/retries.py:109-195 | For any calls and storage errors, the log counts to a consistent observation, in which the fault alone decides retries, errors, entries and replays; without storage errors it strikes the first create, and stored tasks are the executed creates, one more for a lost reply retried unprotected, one less for an unretried fault before the write. |
| Workflow.DirectExecutor.Create | src/agent_fault_lab/faults.py:19-32 | A dropped write reports a task that is stored nowhere; otherwise exactly that task is stored. |
| Workflow.DirectExecutor.Execute | src/agent_fault_lab/tools.py:69-102 | Result and new table of a direct tool call with that fault. |
| Workflow.CallTool | src/agent_fault_lab/workflow.py:17-43 | The result of one call through either executor: what it says of the table, and when it succeeds without storage errors. |
| Workflow.RunWorkflow | src/agent_fault_lab/workflow.py:13-73 | A completion claim names a stored task with the title; non-completion is claimed only for a dropped write; without storage errors, which claim is made. |
| Workflow.Graded | src/agent_fault_lab/evaluation.py:80-140 | A report whose completion names a stored task is a false success exactly when the table holds more than that task. |
| Workflow.Ungraded | src/agent_fault_lab/evaluation.py:80-140 | Without rows the outcome is unknown, a completion neither true nor false, and nothing supported. |
| Workflow.RetryExperiment | src/agent_fault_lab/workflow.py:13-73 | Graded over an empty store: false success only for a lost reply retried unprotected, and without storage errors exactly then, if the table can be read; any other completion claim is supported. An unreadable table is never a false success. |
| Workflow.FaultExperiment | src/agent_fault_lab/workflow.py:13-73 | With no fault or a dropped write there is no false success, and without storage errors the claim is supported, if the table can be read. |
| ContextRuntime.TrimCompleteTurns | src/agent_fault_lab/context_runtime.py:43-73 | The loop computes the specified output, or raises the first specified error. |
| ContextRuntime.AcceptedWhen | src/agent_fault_lab/context_runtime.py:52-72 | A conversation is accepted exactly when it opens with a user message, if with any, and every request is followed by its replies in order and no others. |
| ContextRuntime.FirstFault | src/agent_fault_lab/context_runtime.py:52-72 | A conversation is refused for the first message that breaks an exchange, with the error for just that, or for replies missing at its end. |
| ContextRuntime.TrimKeepsWholeTurns | src/agent_fault_lab/context_runtime.py:43-73 | The output keeps all system messages and the last whole turns, and is itself accepted with just these. |
| ContextRuntime.TrimKeepsTheEnd | src/agent_fault_lab/context_runtime.py:43-73 | The output begins with all system messages and goes on with the end of the other messages, from the keep-th last user message. |
| ContextRuntime.TrimTwice | src/agent_fault_lab/context_runtime.py:43-73 | Trimming to k turns and then to j is trimming to the smaller. |
| StudyReports.WilsonHoldsProportion | src/agent_fault_lab/study_reports.py:84-94 | With an exact square root the result is the interval around the center, inside [0, 1] and around the observed proportion, so both clamps are redundant. |
| StudyReports.WilsonInvertsScoreTest | src/agent_fault_lab/study_reports.py:84-94 | It is exactly the set of proportions that the score test does not reject, and its endpoints are exactly the roots of (p - x)^2 = z^2 x (1 - x) / n. |
| StudyReports.WilsonReflects | src/agent_fault_lab/study_reports.py:84-94 | Counting failures instead of successes reflects the interval. |

## Left out

- JSON parsing, Pydantic coercion and Unicode are not modelled: values are already parsed, and bytes that do not parse are constructors of their own. Texts of errors are codes, and surrogate characters that cannot be encoded do not occur.
- SQLite is maps and atomic steps. Files that are missing, replaced by links or not databases, `recover_task_database`, ORDER BY and the checks of manifests, fingerprints and run directories do not occur; a missing task database reported by a worker is one of its storage errors.
- Call identifiers of the agent loops are a turn and an index, not text. Those of the boundary runner are the source's strings.
- The journal keeps its checkpoint and its tool requests and replies; other events, their sequence numbers and wall times, `read_events`, `trace.jsonl`, imported worker evidence, pause points and the counts of `process_reports.py` that are taken from them are not part of this model.
- Keyboard interrupts of the durable and boundary runners, which stop a worker or save an event and end the session, are like crashes at that point.
- The scripted clients, prompts, the Ollama adapter, live mode and preflights: the model is any function of the conversation.
- Supervision.Supervisor.StopWorker: a worker that ignores termination is gone after the grace period; how it is signalled, and its exit status, do not matter to any later step.
- Supervision.Supervisor.Backoff: a sleep during which the runner dies is counted in full.
- DurableRun.StopTurn: the source decides a truncated turn by its finish reason and an empty one by its pending calls in two places; here one method does both, after the save and on resumption.
- BoundaryRuns.Runner.ToolStep: the database read and every save may be interrupted but do not fail with SQLite errors, so the branch that records a harness error is proved unreachable for the remaining errors.
- BoundaryRuns.Runner.Resume: the evaluation that every session saves at its end is not part of it; grading is modelled by the auditor and the graders.
- BoundaryRuns.Runner.DecideApproval: the same of the evaluation saved after the decision.
- BoundaryRuns.RunBoundary: starts after scanning, with the status that the scan led to, and without the content admission event and the saved evaluation.
- Evaluation.InspectState: rows come in some order, not by identifier; no grade depends on it.
- Scanning, the content admission event, saved boundary evaluations and their reports; the counts of events in `assess`.
- Studies.StudyDirectory.EndSlot: whether a sealed result fits its scheduled cell is an arbitrary predicate of the plan; `schedule`, plan files, worker logs, `doctor` and the termination of the child's process group are not modelled.
- Retries.ExecuteAll: `RetryObservation` also compares its counts with an agent's metrics, which are copies of the same numbers.
- StudyReports.WilsonHoldsProportion: arithmetic is exact; rounding of floating-point numbers is not modelled.
- Subprocess, socket and signal handling, the scanners, semantic admission, command line, rendering, fixed corpora and the M04, M06, M07 and M08 schedules.
