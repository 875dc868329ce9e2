/** worker.py: one tool attempt in its own process, which may be stopped before or after its transaction. */
module Worker {
  import opened Wrappers
  import opened Records
  import opened Tasks
  import opened ExecutionTypes

  datatype Job = Job(operationId: string, call: ToolCall, fault: WorkerFault)

  /** How far the process gets. A transaction is atomic, so dying inside it is `BeforeStorage`. */
  datatype Halt = BeforeStorage | AfterStorage | Never

  /** What a job may leave in the database, however it ends: nothing, or its one keyed create. */
  ghost predicate Effect(job: Job, before: Tables, after: Tables) {
    || after == before
    || (job.call.name.CreateTask? && job.call.ValidArguments()
        && after == CreateKeyed(before, job.call.arguments.title, job.operationId).1)
  }

  /** A success reply is backed by storage. */
  ghost predicate Backed(call: ToolCall, reply: Envelope, tasks: map<string, string>) {
    reply.ok ==>
      match call.name
      case CreateTask =>
        && call.ValidArguments() && reply.value.Some? && reply.value.value.title == call.arguments.title
        && reply.value.value.id in tasks && tasks[reply.value.value.id] == call.arguments.title
      case GetTask =>
        reply.value.Some? ==>
          && call.ValidArguments() && reply.value.value.id == call.arguments.taskId
          && reply.value.value.id in tasks && tasks[reply.value.value.id] == reply.value.value.title
      case _ => false
  }

  lemma BackedPersists(call: ToolCall, reply: Envelope, before: Tables, after: Tables)
    requires Backed(call, reply, before.tasks) && after.Extends(before)
    ensures Backed(call, reply, after.tasks)
  {
  }

  lemma EffectKeeps(job: Job, before: Tables, after: Tables)
    requires before.Valid() && Effect(job, before, after)
    ensures after.Valid() && after.Extends(before) && (before.AllKeyed() ==> after.AllKeyed())
    ensures forall o | o in after.ledger && o !in before.ledger ::
      o == job.operationId && job.call.name.CreateTask? && job.call.ValidArguments()
      && after.ledger[o].title == job.call.arguments.title
  {
    if after != before {
      KeyedCreateKeeps(before, job.call.arguments.title, job.operationId);
    }
  }

  /** The errors a worker reports by itself. */
  predicate Refuses(reply: Envelope) {
    reply.error.Some? && reply.error.value in {UnknownTool, TransientError, StorageError, OperationConflict}
  }

  /** A create is committed under its operation, as requested. */
  ghost predicate Stored(call: ToolCall, operation: string, t: Tables) {
    call.name.CreateTask? ==>
      && call.arguments.TitleArgument? && operation in t.ledger && t.ledger[operation].title == call.arguments.title
      && t.ledger[operation].taskId in t.tasks && t.tasks[t.ledger[operation].taskId] == call.arguments.title
  }

  /** The success that a call earns: the task committed under its operation, or the row looked for, if there is one. */
  ghost predicate Served(call: ToolCall, operation: string, reply: Envelope, t: Tables) {
    && reply.ok && reply.error.None? && Stored(call, operation, t)
    && match call.name
       case CreateTask => reply.value == Some(Task(t.ledger[operation].taskId, call.arguments.title))
       case GetTask =>
         && call.arguments.IdArgument?
         && reply.value == if call.arguments.taskId in t.tasks
                           then Some(Task(call.arguments.taskId, t.tasks[call.arguments.taskId])) else None
       case _ => false
  }

  /** What a process that runs to its end replies to a valid call, fault by fault. */
  ghost predicate Replies(job: Job, fails: bool, reply: Option<Raw>, t: Tables) {
    match job.fault
    case Transient => reply == Some(Json(ErrorReply(TransientError)))
    case Permanent => reply == Some(Json(ErrorReply(StorageError)))
    case _ =>
      if fails then reply == Some(Json(ErrorReply(StorageError)))
      else match job.fault
        case Exit => reply.None? && Stored(job.call, job.operationId, t)
        case Malformed => reply == Some(NotJson) && Stored(job.call, job.operationId, t)
        case _ =>
          match reply
          case Some(Json(e)) => Served(job.call, job.operationId, e, t)
          case _ => false
  }

  /** The operation was not used for anything but this create. */
  predicate OwnReceipt(job: Job, t: Tables) {
    && !Blank(job.operationId)
    && (job.operationId in t.ledger ==>
         job.call.name.CreateTask? && job.call.ValidArguments() && t.ledger[job.operationId].title == job.call.arguments.title)
  }

  /** A success is a valid answer. */
  lemma ServedAnswers(call: ToolCall, operation: string, reply: Envelope, t: Tables)
    requires t.Valid() && call.ValidArguments() && Served(call, operation, reply, t)
    ensures Answers(reply, call)
  {
  }

  /** `perform` up to `halt`; None is a process that ended without a complete reply. */
  method Perform(store: TaskStore, job: Job, halt: Halt, fails: bool) returns (reply: Option<Raw>)
    requires store.Contents().Valid()
    modifies store
    ensures Effect(job, old(store.Contents()), store.Contents())
    ensures halt.BeforeStorage? || fails || job.fault.Transient? || job.fault.Permanent? || !job.call.name.CreateTask?
      ==> store.Contents() == old(store.Contents())
    ensures !halt.BeforeStorage? && !fails && !job.fault.Transient? && !job.fault.Permanent?
      && job.call.ValidArguments() && OwnReceipt(job, old(store.Contents()))
      ==> Stored(job.call, job.operationId, store.Contents())
    ensures !halt.Never? ==> reply.None?
    ensures halt.Never? && job.call.ValidArguments() && OwnReceipt(job, old(store.Contents()))
      ==> Replies(job, fails, reply, store.Contents())
    ensures halt.Never? && !job.call.Known() ==> reply == Some(Json(ErrorReply(UnknownTool)))
    ensures reply.Some? && reply.value.Json? ==> Backed(job.call, reply.value.envelope, store.tasks)
    ensures reply.Some? && reply.value.Json? && !reply.value.envelope.ok ==> Refuses(reply.value.envelope)
  {
    if !job.call.Known() { return Reply(halt, ErrorReply(UnknownTool)); }
    if !job.call.ValidArguments() { return None; } // an uncaught validation error ends the process
    if job.fault.Transient? { return Reply(halt, ErrorReply(TransientError)); }
    if job.fault.Permanent? { return Reply(halt, ErrorReply(StorageError)); }
    if halt.BeforeStorage? { return None; }
    var task: Option<Task>;
    if job.call.name.CreateTask? {
      KeyedCreateKeeps(store.Contents(), job.call.arguments.title, job.operationId);
      var receipt := store.CreateTaskIdempotent(job.call.arguments.title, job.operationId, fails);
      match receipt {
        case Failure(Conflict) => return Reply(halt, ErrorReply(OperationConflict));
        case Failure(Sqlite) => return Reply(halt, ErrorReply(StorageError));
        case Failure(BlankArgument) => return None;
        case Success(created) => task := Some(created.task);
      }
    } else {
      var found := store.GetTask(job.call.arguments.taskId, fails);
      if found.Failure? { return Reply(halt, ErrorReply(StorageError)); }
      task := found.value;
    }
    if job.fault.Exit? { return None; }
    if job.fault.Malformed? { return if halt.Never? then Some(NotJson) else None; }
    return Reply(halt, Envelope(true, task, None));
  }

  function Reply(halt: Halt, envelope: Envelope): Option<Raw> {
    if halt.Never? then Some(Json(envelope)) else None
  }
}
