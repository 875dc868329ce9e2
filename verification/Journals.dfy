/** journal.py: the checkpointed state of a durable run, and the transactions that replace it. */
module Journals {
  import opened Wrappers
  import opened Records
  import opened ExecutionTypes
  import opened Agent
  import opened Evaluation

  datatype Phase = ModelPhase | ToolsPhase | TerminalPhase

  datatype RunState = RunState(
    config: ProcessConfig, offline: bool, limits: Limits, executionLimits: ExecutionLimits, expectedTitle: string,
    scriptCursor: nat, messages: seq<Message>, lastTurn: Option<ModelTurn>, phase: Phase,
    pending: seq<ToolCall>, toolCursor: nat, toolReserved: bool,
    modelCalls: nat, toolCalls: nat, toolExecutions: nat,
    execution: ExecutionState, terminal: Option<RunResult>, evaluation: Option<Evaluation>, finalized: bool)
  {
    /** The field bounds that `model_validate_json` checks. */
    predicate FieldsInRange() {
      && limits.Valid() && executionLimits.Valid() && config.Supported()
      && scriptCursor <= 6 && modelCalls <= 6 && toolCalls <= 6 && toolExecutions <= 6
      && execution.totalAttempts <= 18 && execution.faultCursor <= 18
      && (execution.active.Some? ==>
           var op := execution.active.value;
           op.attempts <= 3 && 0.0 <= op.remaining <= 8.0 && 0.0 <= op.reserved <= 8.0)
    }

    predicate BudgetsHold() {
      && toolExecutions <= toolCalls
      && modelCalls <= limits.maxModelCalls && toolCalls <= limits.maxToolCalls
      && execution.totalAttempts <= executionLimits.totalAttempts
      && (execution.active.Some? ==>
           var op := execution.active.value;
           && op.attempts <= executionLimits.maxAttempts && op.attempts <= execution.totalAttempts
           && op.reserved <= op.remaining <= executionLimits.operationSeconds)
    }

    predicate TerminalAgrees() {
      && (phase.TerminalPhase? <==> terminal.Some?)
      && (finalized ==> terminal.Some? && evaluation.Some?)
      && (terminal.Some? ==>
           && terminal.value.modelCalls == modelCalls && terminal.value.toolCalls == toolCalls
           && terminal.value.toolExecutions == toolExecutions)
      && (evaluation.Some? ==> Some(evaluation.value.execution) == terminal)
    }

    /** The validator a checkpoint must pass before it is written. */
    predicate Consistent() {
      && FieldsInRange()
      && toolCursor <= |pending|
      && (phase.ToolsPhase? ==> lastTurn.Some? && pending == lastTurn.value.calls)
      && (toolReserved ==> phase.ToolsPhase? && toolCursor < |pending| && toolCalls != 0)
      && BudgetsHold()
      && TerminalAgrees()
    }

    function CurrentCall(): CallId { TurnCall(modelCalls, toolCursor + 1) }
  }

  /** The journal events that carry a new checkpoint. */
  datatype Event =
    | ModelRequested | ModelReturned | ModelReady
    | ToolRequested(callId: CallId, call: ToolCall) | ToolReturned(callId: CallId, delivery: ToolDelivery)
    | ExecutionCheckpoint | RunStopped | EvaluationCompleted | ArtifactsFinalized

  datatype Owner = Owner(callId: CallId, call: ToolCall)

  /** Bookkeeping of the proof, kept beside the journal: the operations ever checkpointed, the model
      requests that died unanswered, the requests and workers actually made, and the true time that
      the active operation has taken over all sessions. */
  datatype Books = Books(owners: map<string, Owner>, lost: set<nat>, asked: nat, dispatched: nat, spent: real)

  /** Everything the journal holds; `requests` and `replies` are its tool rows by call id,
      `issued` counts the operation ids drawn. */
  datatype Saved = Saved(
    state: RunState, requests: map<CallId, ToolCall>, replies: map<CallId, ToolDelivery>, issued: nat, books: Books)
  {
    /** The effect of one committed transition. */
    function After(event: Event, next: RunState): Saved {
      Saved(
        next,
        if event.ToolRequested? then requests[event.callId := event.call] else requests,
        if event.ToolReturned? then replies[event.callId := event.delivery] else replies,
        issued,
        books.(
          owners := OwnersWith(books.owners, next.execution.active),
          lost := LostAfter(books.lost, event, next),
          spent := if SameOperation(state.execution.active, next.execution.active) then books.spent else 0.0))
    }
  }

  function OwnersWith(owners: map<string, Owner>, active: Option<Operation>): map<string, Owner> {
    if active.None? then owners else owners[active.value.operationId := Owner(active.value.callId, active.value.call)]
  }

  function LostAfter(lost: set<nat>, event: Event, next: RunState): set<nat> {
    if event.ModelRequested? then lost + {next.modelCalls}
    else if event.ModelReturned? || (event.RunStopped? && next.terminal.Some? && next.terminal.value.status.ProviderFailed?)
    then lost - {next.modelCalls}
    else lost
  }

  predicate SameOperation(a: Option<Operation>, b: Option<Operation>) {
    a.Some? && b.Some? && a.value.operationId == b.value.operationId
  }

  datatype CommitResult = Committed | Rejected | Died

  class Journal {
    var state: RunState
    var requests: map<CallId, ToolCall>
    var replies: map<CallId, ToolDelivery>
    var issued: nat
    /** The durable steps this process still completes before it is killed. */
    var fuel: nat
    /** The number of events written, in whatever session. */
    var sequence: nat
    ghost var books: Books

    ghost function Contents(): Saved reads this { Saved(state, requests, replies, issued, books) }

    constructor (initial: RunState)
      ensures Contents() == Saved(initial, map[], map[], 0, Books(OwnersWith(map[], initial.execution.active), {}, 0, 0, 0.0))
      ensures fuel == 0
    {
      state, requests, replies, issued, fuel, sequence := initial, map[], map[], 0, 0, 0;
      books := Books(OwnersWith(map[], initial.execution.active), {}, 0, 0, 0.0);
    }

    /** Validate, then write the event and the checkpoint in one transaction. */
    method Commit(event: Event, next: RunState) returns (r: CommitResult)
      modifies this
      ensures old(fuel) == 0 ==> r.Died?
      ensures old(fuel) > 0 ==> (if next.Consistent() then r.Committed? else r.Rejected?)
      ensures Contents() == if r.Committed? then old(Contents()).After(event, next) else old(Contents())
      ensures fuel == if old(fuel) == 0 then 0 else old(fuel) - 1
    {
      if fuel == 0 { return Died; }
      fuel := fuel - 1;
      if !next.Consistent() { return CommitResult.Rejected; }
      match event {
        case ToolRequested(id, call) => requests := requests[id := call];
        case ToolReturned(id, delivery) => replies := replies[id := delivery];
        case _ =>
      }
      books := books.(
        owners := OwnersWith(books.owners, next.execution.active),
        lost := LostAfter(books.lost, event, next),
        spent := if SameOperation(state.execution.active, next.execution.active) then books.spent else 0.0);
      state, sequence := next, sequence + 1;
      return Committed;
    }

    /** A durable or external step other than a commit; false when the process dies before it. */
    method Live() returns (alive: bool)
      modifies this`fuel
      ensures alive <==> old(fuel) > 0
      ensures fuel == if alive then old(fuel) - 1 else 0
    {
      alive := fuel > 0;
      if alive { fuel := fuel - 1; }
    }
  }
}
