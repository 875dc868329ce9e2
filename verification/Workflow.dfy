/** workflow.py and faults.py: the create, read, check workflow without a model, and what grading it shows. */
module Workflow {
  import opened Wrappers
  import opened Records
  import opened Tasks
  import opened Evaluation
  import opened Retries

  datatype FaultMode = NoFault | DroppedWrite

  /** tools.py `execute_tool` with a faults.py injector at its create boundary. */
  class DirectExecutor {
    const store: TaskStore
    const mode: FaultMode
    /** The injector's `fault_injected` entries. */
    var injected: nat

    constructor (store: TaskStore, mode: FaultMode)
      ensures this.store == store && this.mode == mode && injected == 0
    {
      this.store, this.mode, injected := store, mode, 0;
    }

    /** `FaultInjector.create_task`: a dropped write fabricates a task that is never stored. */
    method Create(title: string, fails: bool) returns (r: Result<Task, StoreError>)
      requires !Blank(title) && store.Contents().Valid()
      modifies this, store
      ensures store.Contents().Valid() && store.Contents().Extends(old(store.Contents()))
      ensures r.Success? ==> r.value.title == title && !Blank(r.value.id) && r.value.id !in old(store.tasks)
      ensures r.Success? <==> mode.DroppedWrite? || !fails
      ensures store.tasks == if r.Success? && mode.NoFault? then old(store.tasks)[r.value.id := title] else old(store.tasks)
      ensures injected == old(injected) + if mode.DroppedWrite? then 1 else 0
    {
      ghost var before := store.Contents();
      CreateKeeps(before, title);
      if mode.NoFault? {
        r := store.CreateTask(title, fails);
        return;
      }
      var task := Task(Uuid(store.issued), title);
      store.issued := store.issued + 1;
      injected := injected + 1;
      return Success(task);
    }

    /** `execute_tool` */
    method Execute(call: ToolCall, fails: bool) returns (r: ToolResult)
      requires store.Contents().Valid()
      modifies this, store
      ensures store.Contents().Valid() && store.Contents().Extends(old(store.Contents()))
      ensures r.executed <==> call.Known() && call.ValidArguments()
      ensures r.ok ==> r.executed && r.error.None?
      ensures !r.ok ==> r == Failed(if !call.Known() then UnknownToolName else if r.executed then StorageFailed else InvalidToolArguments,
                                    r.executed)
      ensures r.executed ==> (r.ok <==> !fails || (call.name.CreateTask? && mode.DroppedWrite?))
      ensures r.ok && call.name.GetTask? ==> r.value == ValueOf(Found(store.tasks, call.arguments.taskId))
      ensures r.ok && call.name.CreateTask? ==>
        && r.value.TaskValue? && r.value.task.title == call.arguments.title && !Blank(r.value.task.id)
        && r.value.task.id !in old(store.tasks)
      ensures store.tasks ==
        if r.ok && call.name.CreateTask? && mode.NoFault? then old(store.tasks)[r.value.task.id := call.arguments.title] else old(store.tasks)
    {
      if !call.Known() { return Failed(UnknownToolName, false); }
      if !call.ValidArguments() { return Failed(InvalidToolArguments, false); }
      if call.name.CreateTask? {
        var created := Create(call.arguments.title, fails);
        if created.Failure? { return Failed(StorageFailed, true); }
        return ToolResult(true, TaskValue(created.value), None, true);
      }
      var found := store.GetTask(call.arguments.taskId, fails);
      if found.Failure? { return Failed(StorageFailed, true); }
      return ToolResult(true, ValueOf(found.value), None, true);
    }
  }

  function Failed(error: ToolError, executed: bool): ToolResult { ToolResult(false, NoValue, Some(error), executed) }

  function ValueOf(task: Option<Task>): ToolValue { if task.Some? then TaskValue(task.value) else NoValue }

  // ---- The workflow -----------------------------------------------------------------

  datatype Executor = WithRetries(retry: RetryExecutor) | WithFault(direct: DirectExecutor)
  {
    ghost function Footprint(): set<object> {
      match this
      case WithRetries(x) => {x, x.store, x.recorder}
      case WithFault(x) => {x, x.store}
    }

    function Store(): TaskStore {
      match this
      case WithRetries(x) => x.store
      case WithFault(x) => x.store
    }

    predicate Drops() { WithFault? && direct.mode.DroppedWrite? }
  }

  /** `base` is how many tasks the store held when the executor's log began. */
  ghost predicate Ready(e: Executor, base: int)
    reads e.Footprint()
  {
    match e
    case WithRetries(x) => x.Valid() && Balanced(x.config, CountRetries(x.recorder.events), x.consumed, |x.store.tasks| - base)
    case WithFault(x) => x.store.Contents().Valid()
  }

  /** The creates a retry executor has entered, and whether its fault has happened. */
  ghost function Creates(e: Executor): nat
    reads e.Footprint()
  {
    match e
    case WithRetries(x) => CountRetries(x.recorder.events).creates
    case WithFault(x) => 0
  }

  ghost function StorageErrors(e: Executor): nat
    reads e.Footprint()
  {
    match e
    case WithRetries(x) => CountRetries(x.recorder.events).storageErrors
    case WithFault(x) => 0
  }

  ghost predicate Consumed(e: Executor)
    reads e.Footprint()
  {
    e.WithRetries? && e.retry.consumed
  }

  /** The nested `call`: ask, then turn the delivery into a result. A delivery that is not a valid answer would
      raise, but no executor makes one. */
  method CallTool(e: Executor, call: ToolCall, callId: CallId, fails: nat -> bool, ghost base: int) returns (r: ToolResult)
    requires Ready(e, base) && call.Known()
    modifies e.Footprint()
    ensures Ready(e, base) && e.Store().Contents().Extends(old(e.Store().Contents()))
    ensures r.ok ==> r.executed
    ensures r.executed <==> call.ValidArguments()
    ensures r.ok && call.name.GetTask? ==> r.value == ValueOf(Found(e.Store().tasks, call.arguments.taskId))
    ensures call.name.GetTask? || e.Drops() ==> e.Store().tasks == old(e.Store().tasks)
    ensures r.ok && call.name.CreateTask? ==>
      && r.value.TaskValue? && r.value.task.title == call.arguments.title && !Blank(r.value.task.id)
      && if e.Drops() then r.value.task.id !in e.Store().tasks else InStore(e.Store().Contents(), r.value.task)
    ensures e.WithFault? ==> |e.Store().tasks| <= |old(e.Store().tasks)| + 1
    ensures Creates(e) == old(Creates(e)) + if e.WithRetries? && r.executed && call.name.CreateTask? then 1 else 0
    ensures (forall n :: !fails(n)) ==> StorageErrors(e) == old(StorageErrors(e))
    ensures (forall n :: !fails(n)) && r.executed ==>
      && (call.name.CreateTask? && e.WithRetries? ==> Consumed(e) == (old(Consumed(e)) || !e.retry.config.fault.RetryHealthy?))
      && (call.name.GetTask? ==> Consumed(e) == old(Consumed(e)))
      && (r.ok <==> !(call.name.CreateTask? && e.WithRetries? && e.retry.config.policy.SingleAttempt? && Consumed(e) && !old(Consumed(e))))
  {
    hide Balanced, Tables.Valid, Tables.Extends, CountRetries, RetryExecutor.Valid, Blank;
    match e {
      case WithRetries(x) =>
        var delivery := x.Execute(call, callId, fails, base);
        var response := ValidateResponse(Json(delivery.content), call);
        r := ToolResult(response.value.ok, ValueOf(response.value.value), None, delivery.executed);
      case WithFault(x) =>
        r := x.Execute(call, fails(1));
    }
  }

  /** `run_workflow` */
  method RunWorkflow(e: Executor, title: string, fails: (nat, nat) -> bool, ghost base: int) returns (result: RunResult)
    requires Ready(e, base) && !Blank(title)
    modifies e.Footprint()
    ensures Ready(e, base) && Reports(result)
    ensures var claim := ClaimOf(result);
      && (claim.status.Completed? ==> InStore(e.Store().Contents(), Task(claim.taskId.value, title)))
      && (claim.status.NotCompleted? ==> e.Drops())
    ensures e.Drops() ==> e.Store().tasks == old(e.Store().tasks)
    ensures e.WithRetries? ==> Creates(e) == old(Creates(e)) + 1
    ensures e.WithFault? ==> |e.Store().tasks| <= |old(e.Store().tasks)| + 1
    ensures (forall c, n :: !fails(c, n)) ==>
      && StorageErrors(e) == old(StorageErrors(e))
      && (e.WithRetries? ==> Consumed(e) == (old(Consumed(e)) || !e.retry.config.fault.RetryHealthy?))
      && ClaimOf(result).status ==
           if e.Drops() then NotCompleted
           else if e.WithRetries? && e.retry.config.policy.SingleAttempt? && Consumed(e) && !old(Consumed(e)) then Unknown
           else Completed
  {
    hide Balanced, Tables.Valid, Tables.Extends, CountRetries, RetryExecutor.Valid, Blank, Ready;
    var calls, executions := 1, 0;
    var claim := TerminalClaim(Unknown, None);
    var create := ToolCall(CreateTask, TitleArgument(title));
    assert (forall c, n :: !fails(c, n)) ==> forall n: nat :: !fails(1, n) && !fails(2, n);
    var created := CallTool(e, create, NamedCall("workflow-1"), (n: nat) => fails(1, n), base);
    assert created.executed;
    assert e.WithRetries? ==> Creates(e) == old(Creates(e)) + 1;
    executions := executions + if created.executed then 1 else 0;
    if created.ok && created.value.TaskValue? && !Blank(created.value.task.id) && created.value.task.title == title {
      var id := created.value.task.id;
      calls := calls + 1;
      var read := CallTool(e, ToolCall(GetTask, IdArgument(id)), NamedCall("workflow-2"), (n: nat) => fails(2, n), base);
      executions := executions + if read.executed then 1 else 0;
      if read.ok && read.value.TaskValue? {
        if read.value.task == Task(id, title) { claim := TerminalClaim(Completed, Some(id)); }
      } else if read.ok && read.value.NoValue? {
        claim := TerminalClaim(NotCompleted, None);
      }
    }
    result := RunResult(Finished, Some(ClaimJson(claim)), 0, calls, executions, None);
  }

  /** A finished run with a valid claim and no model calls. */
  predicate Reports(result: RunResult) {
    && result.status.Finished? && result.finalContent.Some? && result.finalContent.value.ClaimJson?
    && result.finalContent.value.claim.Valid() && result.modelCalls == 0 && result.error.None?
    && result.toolExecutions == result.toolCalls && 1 <= result.toolCalls <= 2
    && (!result.finalContent.value.claim.status.Unknown? ==> result.toolCalls == 2)
  }

  function ClaimOf(result: RunResult): TerminalClaim
    requires Reports(result)
  {
    result.finalContent.value.claim
  }

  // ---- The experiments ----------------------------------------------------------------------

  lemma OneRow(rows: seq<Task>, tasks: map<string, string>, task: Task)
    requires Lists(rows, tasks) && |tasks| <= 1 && Has(tasks, task.id, task.title)
    ensures rows == [task]
  {
    assert tasks.Keys == {task.id} by {
      assert {task.id} <= tasks.Keys;
      SubsetSize({task.id}, tasks.Keys);
      assert |tasks.Keys| == |tasks|;
    }
    assert |rows| == 1;
    assert rows[0].id in tasks;
  }

  /** Grading a report whose completion names a stored task and whose non-completion means an empty table. */
  lemma Graded(rows: seq<Task>, tasks: map<string, string>, title: string, result: RunResult)
    requires Reports(result) && Lists(rows, tasks)
    requires var claim := ClaimOf(result);
      (claim.status.Completed? ==> Has(tasks, claim.taskId.value, title)) && (claim.status.NotCompleted? ==> tasks == map[])
    ensures var e, claim := EvaluateRun(Some(rows), title, result), ClaimOf(result);
      && e.report == ValidClaim(claim) && e.rows == Some(rows) && e.expectedTitle == title
      && e.falseSuccess == Some(claim.status.Completed? && |tasks| > 1) && (claim.status.Completed? ==> |tasks| >= 1)
      && (e.claimSupport.Supported? <==> claim.status.NotCompleted? || (claim.status.Completed? && |tasks| == 1))
  {
    var claim := ClaimOf(result);
    GradesMean(Some(rows), title, result);
    if claim.status.Completed? && |tasks| <= 1 { OneRow(rows, tasks, Task(claim.taskId.value, title)); }
  }

  /** Without rows a completion is neither true nor false, and nothing is supported. */
  lemma Ungraded(title: string, result: RunResult)
    requires Reports(result)
    ensures var e, claim := EvaluateRun(None, title, result), ClaimOf(result);
      && e.report == ValidClaim(claim) && e.rows.None? && e.expectedTitle == title && e.taskOutcome.TaskUnknown?
      && e.falseSuccess == (if claim.status.Completed? then None else Some(false)) && !e.claimSupport.Supported?
  {
  }

  /** The workflow over an empty store: what it reports, and the table it leaves. */
  method RetryRun(config: RetryConfig, title: string, fails: (nat, nat) -> bool) returns (result: RunResult, tasks: map<string, string>)
    requires !Blank(title)
    ensures Reports(result) && ClaimOf(result).status != NotCompleted
    ensures ClaimOf(result).status.Completed? ==> Has(tasks, ClaimOf(result).taskId.value, title)
    ensures |tasks| > 1 ==> config == RetryConfig(LostReplyOnce, RetryUnprotected)
    ensures (forall c, n :: !fails(c, n)) ==>
      && (|tasks| > 1 <==> config == RetryConfig(LostReplyOnce, RetryUnprotected))
      && (ClaimOf(result).status.Completed? <==> !(config.policy.SingleAttempt? && !config.fault.RetryHealthy?))
  {
    hide Balanced, Tables.Extends, CountRetries, Blank, Reports;
    var store := new TaskStore();
    var executor := new RetryExecutor(store, config);
    NothingIsBalanced(config);
    CountsOfNothing();
    result := RunWorkflow(WithRetries(executor), title, fails, 0);
    BalancedFacts(config, CountRetries(executor.recorder.events), executor.consumed, |store.tasks|);
    tasks := store.tasks;
  }

  predicate Has(tasks: map<string, string>, id: string, title: string) { id in tasks && tasks[id] == title }

  /** The workflow, with retries, graded: it reports a false success only for a lost reply retried without
      protection, whatever storage errors occur; and without storage errors always then, if the table can be read. */
  method RetryExperiment(config: RetryConfig, title: string, fails: (nat, nat) -> bool, unreadable: bool) returns (e: Evaluation)
    requires !Blank(title)
    ensures e.expectedTitle == title && e.report.ValidClaim? && (e.rows.None? <==> unreadable)
    ensures unreadable ==> e.taskOutcome.TaskUnknown? && e.falseSuccess != Some(true) && !e.claimSupport.Supported?
    ensures e.falseSuccess == Some(true) ==> config == RetryConfig(LostReplyOnce, RetryUnprotected)
    ensures !unreadable && e.report.claim.status.Completed? && e.falseSuccess != Some(true) ==> e.claimSupport.Supported?
    ensures (forall c, n :: !fails(c, n)) ==>
      && (e.falseSuccess == Some(true) <==> config == RetryConfig(LostReplyOnce, RetryUnprotected) && !unreadable)
      && (e.report.claim.status.Completed? <==> !(config.policy.SingleAttempt? && !config.fault.RetryHealthy?))
  {
    hide EvaluateRun, Reports, Lists, Blank;
    var result, tasks := RetryRun(config, title, fails);
    var rows := InspectState(tasks, unreadable);
    e := EvaluateRun(rows, title, result);
    if rows.Some? { Graded(rows.value, tasks, title, result); } else { Ungraded(title, result); }
  }

  method FaultRun(mode: FaultMode, title: string, fails: (nat, nat) -> bool) returns (result: RunResult, tasks: map<string, string>)
    requires !Blank(title)
    ensures Reports(result) && |tasks| <= 1 && (ClaimOf(result).status.NotCompleted? ==> tasks == map[])
    ensures ClaimOf(result).status.Completed? ==> Has(tasks, ClaimOf(result).taskId.value, title)
    ensures (forall c, n :: !fails(c, n)) ==> ClaimOf(result).status == if mode.DroppedWrite? then NotCompleted else Completed
  {
    hide Tables.Extends, Blank, Reports;
    var store := new TaskStore();
    var executor := new DirectExecutor(store, mode);
    result := RunWorkflow(WithFault(executor), title, fails, 0);
    tasks := store.tasks;
  }

  /** The workflow over an empty store with a dropped write or none: its claim is supported, unless storage
      errors left it without one or the table cannot be read. */
  method FaultExperiment(mode: FaultMode, title: string, fails: (nat, nat) -> bool, unreadable: bool) returns (e: Evaluation)
    requires !Blank(title)
    ensures e.expectedTitle == title && e.report.ValidClaim? && (e.rows.None? <==> unreadable)
    ensures unreadable ==> e.taskOutcome.TaskUnknown? && e.falseSuccess != Some(true) && !e.claimSupport.Supported?
    ensures !unreadable ==> e.falseSuccess == Some(false) && (e.claimSupport.Supported? || e.report.claim.status.Unknown?)
    ensures (forall c, n :: !fails(c, n)) ==>
      && e.report.claim.status == (if mode.DroppedWrite? then NotCompleted else Completed)
      && (!unreadable ==> e.claimSupport.Supported?)
  {
    hide EvaluateRun, Reports, Lists, Blank;
    var result, tasks := FaultRun(mode, title, fails);
    var rows := InspectState(tasks, unreadable);
    e := EvaluateRun(rows, title, result);
    if rows.Some? { Graded(rows.value, tasks, title, result); } else { Ungraded(title, result); }
  }
}
