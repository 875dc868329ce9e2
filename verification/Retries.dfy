/** retries.py and retry_reports.py: bounded retries of one operation, one once-only fault, and what the event
    log of any sequence of calls adds up to. */
module Retries {
  import opened Wrappers
  import opened Records
  import opened Tasks

  datatype RetryCase = RetryHealthy | BeforeWriteOnce | LostReplyOnce

  datatype RetryPolicy = SingleAttempt | RetryUnprotected | RetryIdempotent

  datatype RetryConfig = RetryConfig(fault: RetryCase, policy: RetryPolicy)
  {
    function MaxAttempts(): nat { if policy.SingleAttempt? then 1 else 2 }
  }

  // ---- The event log ----------------------------------------------------------------

  datatype Event =
    | OperationStarted(callId: CallId, operation: string, call: ToolCall)
    | AttemptStarted(operation: string, number: nat)
    | StorageEntered(operation: string, number: nat)
    | StorageReturned(operation: string, number: nat, replayed: bool, task: Option<Task>)
    | RetryFaultInjected(operation: string, number: nat, writeCommitted: bool)
    | ResponseCaptured(operation: string, number: nat, raw: Raw)
    | AttemptSucceeded(operation: string, number: nat)
    | AttemptFailed(operation: string, number: nat, reason: ErrorCode)
    | RetryScheduled(operation: string, afterAttempt: nat)
    | OperationError(callId: CallId, code: ErrorCode)

  /** The eight counts of `count_retries`, and two more that the stored tasks are compared with. */
  datatype RetryCounts = RetryCounts(
    operations: nat, attempts: nat, retries: nat, storageEntries: nat, replayedResults: nat,
    deliveryErrors: nat, contractErrors: nat, faultActivations: nat, creates: nat, storageErrors: nat)

  function One(flag: bool): nat { if flag then 1 else 0 }

  function CountsOf(e: Event): RetryCounts {
    RetryCounts(
      One(e.OperationStarted?), One(e.AttemptStarted?), One(e.RetryScheduled?), One(e.StorageEntered?),
      One(e.StorageReturned? && e.replayed),
      One(e.AttemptFailed? && e.reason.DeliveryError?), One(e.AttemptFailed? && e.reason.InvalidResult?),
      One(e.RetryFaultInjected?),
      One(e.OperationStarted? && e.call.name.CreateTask?), One(e.AttemptFailed? && e.reason.StorageError?))
  }

  function Plus(a: RetryCounts, b: RetryCounts): RetryCounts {
    RetryCounts(
      a.operations + b.operations, a.attempts + b.attempts, a.retries + b.retries, a.storageEntries + b.storageEntries,
      a.replayedResults + b.replayedResults, a.deliveryErrors + b.deliveryErrors, a.contractErrors + b.contractErrors,
      a.faultActivations + b.faultActivations, a.creates + b.creates, a.storageErrors + b.storageErrors)
  }

  const NoCounts := RetryCounts(0, 0, 0, 0, 0, 0, 0, 0, 0, 0)

  /** `count_retries` */
  function CountRetries(events: seq<Event>): RetryCounts {
    if events == [] then NoCounts else Plus(CountRetries(events[..|events| - 1]), CountsOf(events[|events| - 1]))
  }

  class Recorder {
    var events: seq<Event>

    constructor ()
      ensures events == []
    {
      events := [];
    }

    method Emit(e: Event)
      modifies this
      ensures events == old(events) + [e]
      ensures CountRetries(events) == Plus(CountRetries(old(events)), CountsOf(e))
    {
      events := events + [e];
      assert events[..|events| - 1] == old(events);
    }
  }

  // ---- What the counts of any log satisfy ------------------------------------------------

  /** The inequalities of `RetryObservation.consistent` over the counts, and the run's tool accounting. */
  predicate Observable(config: RetryConfig, r: RetryCounts, toolCalls: nat, toolExecutions: nat) {
    && r.operations == toolExecutions && r.operations <= toolCalls
    && r.attempts == r.operations + r.retries
    && r.operations <= r.attempts <= config.MaxAttempts() * r.operations
    && r.replayedResults <= r.storageEntries <= r.attempts
    && r.deliveryErrors + r.contractErrors <= r.attempts
    && r.faultActivations <= r.deliveryErrors && r.faultActivations <= 1
    && (config.fault.RetryHealthy? ==> r.faultActivations == 0)
    && (!config.policy.RetryIdempotent? ==> r.replayedResults == 0)
  }

  /** What the fault has added to, or kept from, one task for each executed create. */
  function FaultEffect(config: RetryConfig, consumed: bool): int {
    if !consumed then 0
    else match config.fault
      case LostReplyOnce => if config.policy.RetryUnprotected? then 1 else 0
      case BeforeWriteOnce => if config.policy.SingleAttempt? then -1 else 0
      case RetryHealthy => 0
  }

  // ---- The executor ------------------------------------------------------------------------

  /** How one attempt ends: with a reply, without one, or with an error that is not retried. */
  datatype AttemptEnd = Replied(task: Option<Task>) | Unavailable | Broke(code: ErrorCode)

  class RetryExecutor {
    const store: TaskStore
    const recorder: Recorder
    const config: RetryConfig
    /** The injector's flag: its one fault has happened. */
    var consumed: bool
    /** Identifiers drawn for operations. */
    var drawn: nat

    ghost predicate Valid()
      reads this, store
    {
      && store.Contents().Valid()
      && (forall o | o in store.ledger :: |o| <= drawn)
      && (config.fault.RetryHealthy? ==> !consumed)
    }

    constructor (store: TaskStore, config: RetryConfig)
      requires store.Contents().Valid() && store.ledger == map[]
      ensures Valid() && this.store == store && this.config == config && fresh(recorder) && recorder.events == []
      ensures !consumed
    {
      this.store, this.config, consumed, drawn := store, config, false, 0;
      recorder := new Recorder();
    }

    /** The store call of one attempt, keyed when the policy protects it. */
    method StoreTask(title: string, operation: string, fails: bool) returns (r: Option<Created>)
      requires Valid() && !Blank(title) && !Blank(operation) && |operation| <= drawn
      requires operation in store.ledger ==> store.ledger[operation].title == title
      modifies store
      ensures Valid() && store.Contents().Extends(old(store.Contents()))
      ensures r.None? <==> fails
      ensures r.None? ==> store.Contents() == old(store.Contents())
      ensures r.Some? ==> r.value.task.title == title && InStore(store.Contents(), r.value.task)
      ensures r.Some? ==> (r.value.replayed <==> config.policy.RetryIdempotent? && old(operation in store.ledger))
      ensures r.Some? ==> |store.tasks| == |old(store.tasks)| + One(!r.value.replayed)
      ensures operation in store.ledger <==> old(operation in store.ledger) || (r.Some? && config.policy.RetryIdempotent?)
      ensures operation in store.ledger ==> store.ledger[operation].title == title
    {
      hide Tables.Valid, Tables.Extends, Blank;
      ghost var before := store.Contents();
      ExtendsSelf(before);
      if config.policy.RetryIdempotent? {
        KeyedCreateKeeps(before, title, operation);
        KeyedCreateCounts(before, title, operation);
        var keyed := store.CreateTaskIdempotent(title, operation, fails);
        assert keyed != Failure(Conflict);
        r := if keyed.Success? then Some(keyed.value) else None;
      } else {
        CreateKeeps(before, title);
        var created := store.CreateTask(title, fails);
        r := if created.Success? then Some(Created(created.value, false)) else None;
      }
    }

    /** `RetryFaultInjector.create` */
    method Create(title: string, operation: string, number: nat, fails: bool) returns (a: AttemptEnd)
      requires Valid() && !Blank(title) && !Blank(operation) && |operation| <= drawn
      requires operation in store.ledger ==> store.ledger[operation].title == title
      modifies this`consumed, store, recorder
      ensures Valid() && store.Contents().Extends(old(store.Contents()))
      ensures CountRetries(recorder.events) == Plus(old(CountRetries(recorder.events)), CreateCounts(config, a, old(operation in store.ledger)))
      ensures Attempted(config, title, old(consumed), consumed, a, fails)
      ensures a.Replied? ==> InStore(store.Contents(), a.task.value)
      ensures a.Broke? ==> store.Contents() == old(store.Contents())
      ensures |store.tasks| == |old(store.tasks)| + One(Writes(config, a, old(operation in store.ledger)))
      ensures operation in store.ledger <==>
        old(operation in store.ledger) || (config.policy.RetryIdempotent? && Writes(config, a, old(operation in store.ledger)))
      ensures operation in store.ledger ==> store.ledger[operation].title == title
    {
      hide Tables.Valid, Tables.Extends, InStore, CountRetries, CountsOf, CreateCounts, Plus;
      ExtendsSelf(store.Contents());
      CreateTraces(CountRetries(recorder.events), config, operation, number, operation in store.ledger);
      if config.fault.BeforeWriteOnce? && !consumed {
        consumed := true;
        recorder.Emit(RetryFaultInjected(operation, number, false));
        return Unavailable;
      }
      recorder.Emit(StorageEntered(operation, number));
      var receipt := StoreTask(title, operation, fails);
      if receipt.None? { return Broke(StorageError); }
      recorder.Emit(StorageReturned(operation, number, receipt.value.replayed, Some(receipt.value.task)));
      if config.fault.LostReplyOnce? && !consumed {
        consumed := true;
        recorder.Emit(RetryFaultInjected(operation, number, true));
        return Unavailable;
      }
      return Replied(Some(receipt.value.task));
    }

    /** `_attempt` of a lookup, which no fault touches. */
    method Lookup(id: string, operation: string, number: nat, fails: bool) returns (a: AttemptEnd)
      requires !Blank(id)
      modifies recorder
      ensures CountRetries(recorder.events) == Plus(old(CountRetries(recorder.events)), NoCounts.(storageEntries := 1))
      ensures if fails then a == Broke(StorageError)
              else a == Replied(Found(store.tasks, id))
    {
      hide CountRetries, CountsOf, Plus, Blank;
      LookupTraces(CountRetries(recorder.events), operation, number);
      recorder.Emit(StorageEntered(operation, number));
      var found := store.GetTask(id, fails);
      if found.Failure? { return Broke(StorageError); }
      recorder.Emit(StorageReturned(operation, number, false, found.value));
      return Replied(found.value);
    }

    /** `_attempt` */
    method Attempt(call: ToolCall, operation: string, number: nat, fails: bool) returns (a: AttemptEnd)
      requires Valid() && call.Known() && call.ValidArguments() && !Blank(operation) && |operation| <= drawn
      requires operation in store.ledger ==> call.name.CreateTask? && store.ledger[operation].title == call.arguments.title
      modifies this`consumed, store, recorder
      ensures Valid() && store.Contents().Extends(old(store.Contents()))
      ensures CountRetries(recorder.events)
        == Plus(old(CountRetries(recorder.events)), AttemptCounts(config, call, a, old(operation in store.ledger)))
      ensures Ended(config, call, old(consumed), consumed, a, fails, store.tasks)
      ensures a.Replied? && a.task.Some? ==> InStore(store.Contents(), a.task.value)
      ensures call.name.GetTask? ==> store.Contents() == old(store.Contents())
      ensures |store.tasks| == |old(store.tasks)| + One(call.name.CreateTask? && Writes(config, a, old(operation in store.ledger)))
      ensures operation in store.ledger <==>
        old(operation in store.ledger)
        || (config.policy.RetryIdempotent? && call.name.CreateTask? && Writes(config, a, old(operation in store.ledger)))
      ensures operation in store.ledger ==> call.name.CreateTask? && store.ledger[operation].title == call.arguments.title
    {
      hide CountRetries, CreateCounts, Attempted, Writes, Tables.Valid, Plus;
      ExtendsSelf(store.Contents());
      if call.name.CreateTask? {
        a := Create(call.arguments.title, operation, number, fails);
      } else {
        a := Lookup(call.arguments.taskId, operation, number, fails);
      }
    }

    method Error(code: ErrorCode, callId: CallId, executed: bool) returns (d: ToolDelivery)
      modifies recorder
      ensures d == ToolDelivery(ErrorReply(code), executed)
      ensures CountRetries(recorder.events) == old(CountRetries(recorder.events))
    {
      hide CountRetries, CountsOf, Plus;
      Uncounted(CountRetries(recorder.events), OperationError(callId, code));
      recorder.Emit(OperationError(callId, code));
      return ToolDelivery(ErrorReply(code), executed);
    }

    /** `execute`: one operation, at most two attempts, retried only when no reply came. `fails` says which
        attempts meet a storage error. */
    method Execute(call: ToolCall, callId: CallId, fails: nat -> bool, ghost base: int) returns (d: ToolDelivery)
      requires Valid() && Balanced(config, CountRetries(recorder.events), consumed, |store.tasks| - base)
      modifies this`consumed, this`drawn, store, recorder
      ensures Valid() && store.Contents().Extends(old(store.Contents()))
      ensures Balanced(config, CountRetries(recorder.events), consumed, |store.tasks| - base)
      ensures CountRetries(recorder.events).operations == old(CountRetries(recorder.events).operations) + One(d.executed)
      ensures d.executed <==> call.Known() && call.ValidArguments()
      ensures Answers(d.content, call)
      ensures d.content.ok && d.content.value.Some? ==> InStore(store.Contents(), d.content.value.value)
      ensures d.content.ok ==> d.executed
      ensures !d.executed ==> consumed == old(consumed) && d.content == ErrorReply(if call.Known() then InvalidArguments else UnknownTool)
      ensures d.executed && !d.content.ok ==> d.content in {ErrorReply(StorageError), ErrorReply(DeliveryError)}
      ensures (forall n :: !fails(n)) ==> d.content != ErrorReply(StorageError)
      ensures CountRetries(recorder.events).creates == old(CountRetries(recorder.events).creates) + One(d.executed && call.name.CreateTask?)
      ensures (forall n :: !fails(n)) ==>
        CountRetries(recorder.events).storageErrors == old(CountRetries(recorder.events).storageErrors)
      ensures (forall n :: !fails(n)) && d.executed ==> Delivered(config, call, old(consumed), consumed, d.content, store.tasks)
      ensures call.name.GetTask? ==> store.Contents() == old(store.Contents())
      ensures call.name.GetTask? && d.content.ok ==> Shows(call, d.content, store.tasks)
    {
      hide CountRetries, CountsOf, Plus, Blank, Tables.Valid, Tables.Extends, Balanced, InStore, Head, Named;
      ghost var c0, consumed0, stored0, before := CountRetries(recorder.events), consumed, |store.tasks|, store.Contents();
      ExtendsSelf(before);
      if !call.Known() {
        d := Error(UnknownTool, callId, false);
        return;
      }
      if !call.ValidArguments() {
        d := Error(InvalidArguments, callId, false);
        return;
      }
      var operation := Uuid(drawn);
      NewOperation(before, drawn);
      drawn := drawn + 1;
      OperationTraces(c0, config, callId, operation, call);
      recorder.Emit(OperationStarted(callId, operation, call));
      var limit, number := if config.policy.SingleAttempt? then 1 else 2, 1;
      while true
        invariant 1 <= number <= limit && Valid() && store.Contents().Extends(before) && |operation| <= drawn
        invariant CountRetries(recorder.events) == Plus(c0, Head(config, call, number))
        invariant Retrying(config, call, number, consumed0, consumed, |store.tasks| - stored0, operation in store.ledger)
        invariant operation in store.ledger ==> call.name.CreateTask? && store.ledger[operation].title == call.arguments.title
        invariant call.name.GetTask? ==> store.Contents() == before
        decreases limit - number
      {
        ghost var now := store.Contents();
        var delivery := Try(call, callId, operation, number, fails(number), c0, consumed0, stored0, base);
        ExtendsTransitive(before, now, store.Contents());
        if delivery.Some? {
          DeliveredLater(config, call, number, consumed0, consumed, delivery.value.content, store.tasks);
          return delivery.value;
        }
        number := number + 1;
      }
    }

    /** One turn of the attempt loop: a delivery, or None when a retry was scheduled. */
    method Try(
      call: ToolCall, callId: CallId, operation: string, number: nat, fails: bool,
      ghost c0: RetryCounts, ghost consumed0: bool, ghost stored0: int, ghost base: int)
      returns (d: Option<ToolDelivery>)
      requires Valid() && call.Known() && call.ValidArguments() && !Blank(operation) && |operation| <= drawn
      requires 1 <= number <= config.MaxAttempts()
      requires CountRetries(recorder.events) == Plus(c0, Head(config, call, number))
      requires Retrying(config, call, number, consumed0, consumed, |store.tasks| - stored0, operation in store.ledger)
      requires operation in store.ledger ==> call.name.CreateTask? && store.ledger[operation].title == call.arguments.title
      requires Balanced(config, c0, consumed0, stored0 - base)
      modifies this`consumed, store, recorder
      ensures Valid() && store.Contents().Extends(old(store.Contents()))
      ensures call.name.GetTask? ==> store.Contents() == old(store.Contents())
      ensures d.None? ==>
        && number == 1 && config.MaxAttempts() == 2 && CountRetries(recorder.events) == Plus(c0, Head(config, call, 2))
        && Retrying(config, call, 2, consumed0, consumed, |store.tasks| - stored0, operation in store.ledger)
        && (operation in store.ledger ==> call.name.CreateTask? && store.ledger[operation].title == call.arguments.title)
      ensures d.Some? ==>
        && Balanced(config, CountRetries(recorder.events), consumed, |store.tasks| - base)
        && CountRetries(recorder.events).operations == c0.operations + 1
        && CountRetries(recorder.events).creates == c0.creates + One(call.name.CreateTask?)
        && (!fails ==> CountRetries(recorder.events).storageErrors == c0.storageErrors)
        && (!fails ==> DeliveredAt(config, call, number, old(consumed), consumed, d.value.content, store.tasks))
        && d.value.executed && Answers(d.value.content, call)
        && (!d.value.content.ok ==> d.value.content == ErrorReply(DeliveryError) || (fails && d.value.content == ErrorReply(StorageError)))
        && (d.value.content.ok && d.value.content.value.Some? ==> InStore(store.Contents(), d.value.content.value.value))
        && (call.name.GetTask? && d.value.content.ok ==> Shows(call, d.value.content, store.tasks))
    {
      hide Valid, CountRetries, CountsOf, Plus, Blank, Tables.Extends, Balanced, Writes, AttemptCounts, Head, Added,
        Tried, Named, Retrying, DeliveredAt, Ended, Found, InStore, Answers, Shows;
      ghost var keyed, consumed1 := operation in store.ledger, consumed;
      recorder.Emit(AttemptStarted(operation, number));
      var a := Attempt(call, operation, number, fails);
      TriedTraces(c0, config, call, operation, number, a, keyed);
      AttemptBalances(config, c0, call, number, a, consumed0, consumed1, consumed, keyed, fails, stored0 - base, |store.tasks| - base);
      NoReplyDelivered(config, call, number, a, consumed1, consumed, fails, store.tasks);
      if a.Replied? {
        TitlesAreNamed();
        ReplyAnswers(config, call, number, a.task, consumed1, consumed, fails, store.Contents());
      }
      d := Conclude(call, callId, operation, number, a, c0, keyed);
    }

    /** What follows an attempt: its delivery, or a scheduled retry. */
    method Conclude(call: ToolCall, callId: CallId, operation: string, number: nat, a: AttemptEnd, ghost c0: RetryCounts, ghost keyed: bool)
      returns (d: Option<ToolDelivery>)
      requires 1 <= number <= config.MaxAttempts()
      requires CountRetries(recorder.events) == Plus(c0, Tried(config, call, number, a, keyed))
      requires a.Replied? ==> Answers(Envelope(true, a.task, None), call)
      requires a.Unavailable? ==> call.name.CreateTask?
      requires a.Unavailable? && number < config.MaxAttempts() ==> number == 1 && !keyed && !config.fault.RetryHealthy?
      requires a.Broke? ==> a.code.StorageError?
      modifies recorder
      ensures d.None? <==> a.Unavailable? && number < config.MaxAttempts()
      ensures d.None? ==> CountRetries(recorder.events) == Plus(c0, Head(config, call, 2))
      ensures d.Some? ==> CountRetries(recorder.events) == Plus(c0, Added(config, call, number, a, keyed))
      ensures d.Some? ==> d.value == ToolDelivery(
        if a.Replied? then Envelope(true, a.task, None) else ErrorReply(if a.Unavailable? then DeliveryError else a.code), true)
    {
      hide CountRetries, CountsOf, Plus, AttemptCounts, Head, Added, Tried, Answers;
      if a.Replied? {
        RepliedTraces(c0, config, call, number, a, keyed);
        var accepted := Accept(call, operation, number, a.task);
        return Some(accepted);
      }
      var code := if a.Unavailable? then DeliveryError else a.code;
      FailedTraces(c0, config, call, operation, number, a, keyed, code);
      recorder.Emit(AttemptFailed(operation, number, code));
      if a.Unavailable? && number < config.MaxAttempts() {
        recorder.Emit(RetryScheduled(operation, number));
        return None;
      }
      var failed := Error(code, callId, true);
      return Some(failed);
    }

    lemma TitlesAreNamed()
      requires Valid()
      ensures Named(store.tasks)
    {
    }

    /** The captured reply passes the response contract, so it is delivered as it came. */
    method Accept(call: ToolCall, operation: string, number: nat, task: Option<Task>) returns (d: ToolDelivery)
      requires Answers(Envelope(true, task, None), call)
      modifies recorder
      ensures d == ToolDelivery(Envelope(true, task, None), true)
      ensures CountRetries(recorder.events) == old(CountRetries(recorder.events))
    {
      hide CountRetries, CountsOf, Plus, Answers;
      var raw := Json(Envelope(true, task, None));
      Uncounted(CountRetries(recorder.events), ResponseCaptured(operation, number, raw));
      Uncounted(CountRetries(recorder.events), AttemptSucceeded(operation, number));
      recorder.Emit(ResponseCaptured(operation, number, raw));
      var valid := ValidateResponse(raw, call);
      recorder.Emit(AttemptSucceeded(operation, number));
      d := ToolDelivery(valid.value, true);
    }
  }

  /** Where the first or second attempt of an operation starts from: the second follows the one lost reply. */
  predicate Retrying(config: RetryConfig, call: ToolCall, number: nat, consumed0: bool, consumed: bool, written: int, keyed: bool) {
    if number == 1 then consumed == consumed0 && written == 0 && !keyed
    else
      && call.name.CreateTask? && !consumed0 && consumed && !config.fault.RetryHealthy? && !config.policy.SingleAttempt?
      && written == One(config.fault.LostReplyOnce?)
      && (keyed <==> config.fault.LostReplyOnce? && config.policy.RetryIdempotent?)
  }

  /** What an operation that met no storage error delivers: a lookup, the row; a create, success, unless its only
      attempt was the one that consumed the fault. */
  predicate Delivered(config: RetryConfig, call: ToolCall, consumed: bool, consumed': bool, e: Envelope, tasks: map<string, string>) {
    match call.name
    case CreateTask =>
      && consumed' == (consumed || !config.fault.RetryHealthy?)
      && (e.ok <==> !(config.policy.SingleAttempt? && consumed' && !consumed))
    case GetTask => call.arguments.IdArgument? && consumed' == consumed && e == Envelope(true, Found(tasks, call.arguments.taskId), None)
    case _ => false
  }

  /** The same of its last attempt. */
  predicate DeliveredAt(
    config: RetryConfig, call: ToolCall, number: nat, consumed: bool, consumed': bool, e: Envelope, tasks: map<string, string>)
  {
    match call.name
    case CreateTask =>
      && consumed' == (consumed || !config.fault.RetryHealthy?)
      && (e.ok <==> consumed' == consumed) && (!e.ok ==> number == config.MaxAttempts())
    case GetTask => call.arguments.IdArgument? && consumed' == consumed && e == Envelope(true, Found(tasks, call.arguments.taskId), None)
    case _ => false
  }

  lemma DeliveredLater(
    config: RetryConfig, call: ToolCall, number: nat, consumed0: bool, consumed: bool, e: Envelope, tasks: map<string, string>)
    requires 1 <= number <= config.MaxAttempts() && (number == 2 ==> !config.fault.RetryHealthy?)
    ensures forall consumed1 ::
      (if number == 1 then consumed1 == consumed0 else call.name.CreateTask? && !consumed0 && consumed1)
      && DeliveredAt(config, call, number, consumed1, consumed, e, tasks)
      ==> Delivered(config, call, consumed0, consumed, e, tasks)
  {
  }

  lemma NewOperation(t: Tables, drawn: nat)
    requires forall o | o in t.ledger :: |o| <= drawn
    ensures Uuid(drawn) !in t.ledger && |Uuid(drawn)| == drawn + 1
  {
  }

  /** How an attempt of a call may end. */
  predicate Ended(config: RetryConfig, call: ToolCall, consumed: bool, consumed': bool, a: AttemptEnd, fails: bool,
    tasks: map<string, string>) {
    if call.name.CreateTask? then
      call.arguments.TitleArgument? && Attempted(config, call.arguments.title, consumed, consumed', a, fails)
    else
      && call.arguments.IdArgument? && consumed' == consumed && !a.Unavailable? && (a.Broke? <==> fails) && (a.Broke? ==> a.code.StorageError?)
      && (a.Replied? ==> a.task == Found(tasks, call.arguments.taskId))
  }

  /** A received reply is a valid answer to the call, and the truth. */
  lemma ReplyAnswers(
    config: RetryConfig, call: ToolCall, number: nat, task: Option<Task>, consumed: bool, consumed': bool, fails: bool, t: Tables)
    requires call.Known() && call.ValidArguments() && Named(t.tasks)
    requires Ended(config, call, consumed, consumed', Replied(task), fails, t.tasks) && (task.Some? ==> InStore(t, task.value))
    ensures Answers(Envelope(true, task, None), call)
    ensures call.name.GetTask? ==> Shows(call, Envelope(true, task, None), t.tasks)
    ensures DeliveredAt(config, call, number, consumed, consumed', Envelope(true, task, None), t.tasks)
  {
  }

  lemma NoReplyDelivered(
    config: RetryConfig, call: ToolCall, number: nat, a: AttemptEnd, consumed: bool, consumed': bool, fails: bool,
    tasks: map<string, string>)
    requires call.Known() && Ended(config, call, consumed, consumed', a, fails, tasks)
    ensures a.Unavailable? && number == config.MaxAttempts() ==>
      DeliveredAt(config, call, number, consumed, consumed', ErrorReply(DeliveryError), tasks)
    ensures a.Broke? ==> fails && a.code.StorageError?
    ensures a.Unavailable? ==> call.name.CreateTask?
    ensures forall code :: Answers(ErrorReply(code), call)
  {
  }

  lemma OperationTraces(c: RetryCounts, config: RetryConfig, callId: CallId, operation: string, call: ToolCall)
    ensures Plus(c, CountsOf(OperationStarted(callId, operation, call))) == Plus(c, Head(config, call, 1))
  {
  }

  /** An operation's counts once the attempt of that number was made. */
  function Tried(config: RetryConfig, call: ToolCall, number: nat, a: AttemptEnd, keyed: bool): RetryCounts
    requires 1 <= number <= 2
  {
    var h, t := Head(config, call, number), AttemptCounts(config, call, a, keyed);
    h.(attempts := number, storageEntries := h.storageEntries + t.storageEntries, replayedResults := t.replayedResults,
       faultActivations := h.faultActivations + t.faultActivations)
  }

  lemma TriedTraces(c: RetryCounts, config: RetryConfig, call: ToolCall, operation: string, number: nat, a: AttemptEnd, keyed: bool)
    requires 1 <= number <= 2
    ensures Plus(Plus(Plus(c, Head(config, call, number)), CountsOf(AttemptStarted(operation, number))), AttemptCounts(config, call, a, keyed))
      == Plus(c, Tried(config, call, number, a, keyed))
  {
  }

  /** The entries that are not counted. */
  lemma Uncounted(c: RetryCounts, e: Event)
    requires e.ResponseCaptured? || e.AttemptSucceeded? || e.OperationError?
    ensures Plus(c, CountsOf(e)) == c
  {
  }

  lemma RepliedTraces(c: RetryCounts, config: RetryConfig, call: ToolCall, number: nat, a: AttemptEnd, keyed: bool)
    requires 1 <= number <= 2 && a.Replied?
    ensures Tried(config, call, number, a, keyed) == Added(config, call, number, a, keyed)
  {
  }

  lemma FailedTraces(
    c: RetryCounts, config: RetryConfig, call: ToolCall, operation: string, number: nat, a: AttemptEnd, keyed: bool, code: ErrorCode)
    requires 1 <= number <= 2 && if a.Unavailable? then code.DeliveryError? && call.name.CreateTask? else a == Broke(code) && code.StorageError?
    ensures Plus(Plus(c, Tried(config, call, number, a, keyed)), CountsOf(AttemptFailed(operation, number, code)))
      == Plus(c, Added(config, call, number, a, keyed))
    ensures a.Unavailable? && number == 1 && !keyed && !config.fault.RetryHealthy? ==>
      Plus(Plus(c, Added(config, call, number, a, keyed)), CountsOf(RetryScheduled(operation, 1))) == Plus(c, Head(config, call, 2))
  {
  }

  /** An attempt either leads to the second one, or ends an operation that leaves the run balanced. */
  lemma AttemptBalances(
    config: RetryConfig, c: RetryCounts, call: ToolCall, number: nat, a: AttemptEnd,
    consumed0: bool, consumed1: bool, consumed2: bool, keyed: bool, fails: bool, stored0: int, stored2: int)
    requires Balanced(config, c, consumed0, stored0) && call.Known() && call.ValidArguments()
    requires 1 <= number <= config.MaxAttempts()
    requires var wrote := One(call.name.CreateTask? && Writes(config, a, keyed));
      Retrying(config, call, number, consumed0, consumed1, stored2 - wrote - stored0, keyed)
    requires exists tasks :: Ended(config, call, consumed1, consumed2, a, fails, tasks)
    ensures a.Unavailable? && number < config.MaxAttempts() ==>
      number == 1 && call.name.CreateTask? && !keyed && !config.fault.RetryHealthy?
      && Retrying(config, call, 2, consumed0, consumed2, stored2 - stored0,
                  keyed || (config.policy.RetryIdempotent? && Writes(config, a, keyed)))
    ensures !(a.Unavailable? && number < config.MaxAttempts()) ==>
      Balanced(config, Plus(c, Added(config, call, number, a, keyed)), consumed2, stored2)
    ensures var c' := Plus(c, Added(config, call, number, a, keyed));
      && c'.operations == c.operations + 1 && c'.creates == c.creates + One(call.name.CreateTask?)
      && c'.storageErrors == c.storageErrors + One(a.Broke? && a.code.StorageError?)
  {
    hide Blank;
  }

  /** The standing of a run: the inequalities of a consistent observation; at most one stored task for each
      executed create and one more only for a lost reply retried without protection; and, if no storage call
      failed, exactly the tasks that the fault left. */
  predicate Balanced(config: RetryConfig, r: RetryCounts, consumed: bool, stored: int) {
    && r.attempts == r.operations + r.retries
    && r.retries == One(consumed && !config.policy.SingleAttempt?) && r.retries <= r.operations
    && r.storageEntries == r.attempts - One(consumed && config.fault.BeforeWriteOnce?)
    && r.deliveryErrors == r.faultActivations == One(consumed) && r.deliveryErrors <= r.attempts && r.contractErrors == 0
    && (config.fault.RetryHealthy? ==> !consumed)
    && r.replayedResults <= One(consumed && config == RetryConfig(LostReplyOnce, RetryIdempotent))
    && r.replayedResults <= r.storageEntries
    && (r.storageErrors == 0 ==> r.replayedResults == One(consumed && config == RetryConfig(LostReplyOnce, RetryIdempotent)))
    && stored <= r.creates + One(consumed && config == RetryConfig(LostReplyOnce, RetryUnprotected))
    && (r.storageErrors == 0 ==> stored == r.creates + FaultEffect(config, consumed))
  }

  /** What an operation has added before its first or second attempt. */
  function Head(config: RetryConfig, call: ToolCall, number: nat): RetryCounts
    requires 1 <= number <= 2
  {
    var again := number - 1;
    RetryCounts(1, again, again, if config.fault.LostReplyOnce? then again else 0, 0, again, 0, again, One(call.name.CreateTask?), 0)
  }

  /** What it has added when it ends with its attempt of that number. */
  function Added(config: RetryConfig, call: ToolCall, number: nat, a: AttemptEnd, keyed: bool): RetryCounts
    requires 1 <= number <= 2
  {
    var h, t := Head(config, call, number), AttemptCounts(config, call, a, keyed);
    h.(attempts := number, storageEntries := h.storageEntries + t.storageEntries, replayedResults := t.replayedResults,
       deliveryErrors := number - 1 + One(a.Unavailable?), faultActivations := number - 1 + One(a.Unavailable?),
       storageErrors := One(a.Broke? && a.code.StorageError?))
  }

  lemma LookupTraces(c: RetryCounts, operation: string, number: nat)
    ensures CountsOf(StorageEntered(operation, number)) == NoCounts.(storageEntries := 1)
    ensures forall task ::
      Plus(Plus(c, CountsOf(StorageEntered(operation, number))), CountsOf(StorageReturned(operation, number, false, task)))
      == Plus(c, NoCounts.(storageEntries := 1))
  {
  }

  function AttemptCounts(config: RetryConfig, call: ToolCall, a: AttemptEnd, keyed: bool): RetryCounts {
    if call.name.CreateTask? then CreateCounts(config, a, keyed) else NoCounts.(storageEntries := 1)
  }

  /** The logs of the four ways through a create attempt, counted. */
  lemma CreateTraces(c: RetryCounts, config: RetryConfig, operation: string, number: nat, keyed: bool)
    ensures config.fault.BeforeWriteOnce? ==>
      Plus(c, CountsOf(RetryFaultInjected(operation, number, false))) == Plus(c, CreateCounts(config, Unavailable, keyed))
    ensures Plus(c, CountsOf(StorageEntered(operation, number))) == Plus(c, CreateCounts(config, Broke(StorageError), keyed))
    ensures forall replayed, task | replayed <==> config.policy.RetryIdempotent? && keyed ::
      Plus(Plus(c, CountsOf(StorageEntered(operation, number))), CountsOf(StorageReturned(operation, number, replayed, task)))
        == Plus(c, CreateCounts(config, Replied(task), keyed))
    ensures forall replayed, task | !config.fault.BeforeWriteOnce? && (replayed <==> config.policy.RetryIdempotent? && keyed) ::
      Plus(Plus(Plus(c, CountsOf(StorageEntered(operation, number))), CountsOf(StorageReturned(operation, number, replayed, task))),
           CountsOf(RetryFaultInjected(operation, number, true))) == Plus(c, CreateCounts(config, Unavailable, keyed))
  {
  }

  /** How a create attempt may end: without a reply exactly when it is the one that consumes the fault. */
  predicate Attempted(config: RetryConfig, title: string, consumed: bool, consumed': bool, a: AttemptEnd, fails: bool) {
    match a
    case Unavailable => !consumed && consumed' && (config.fault.BeforeWriteOnce? || (config.fault.LostReplyOnce? && !fails))
    case Broke(code) => code.StorageError? && fails && consumed' == consumed && !(config.fault.BeforeWriteOnce? && !consumed)
    case Replied(task) =>
      && !fails && consumed' == consumed && task.Some? && task.value.title == title
      && !(config.fault.BeforeWriteOnce? && !consumed) && !(config.fault.LostReplyOnce? && !consumed)
  }

  function Found(tasks: map<string, string>, id: string): Option<Task> {
    if id in tasks then Some(Task(id, tasks[id])) else None
  }

  /** A lookup's reply is the row, or that there is none. */
  predicate Shows(call: ToolCall, e: Envelope, tasks: map<string, string>) {
    call.arguments.IdArgument? && e.value == Found(tasks, call.arguments.taskId)
  }

  predicate Named(tasks: map<string, string>) { forall id | id in tasks :: !Blank(id) && !Blank(tasks[id]) }

  predicate InStore(t: Tables, task: Task) { task.id in t.tasks && t.tasks[task.id] == task.title }

  /** A write happened: not before the fault, not in a failed transaction, and not for a keyed repetition. */
  predicate Writes(config: RetryConfig, a: AttemptEnd, keyed: bool) {
    && !a.Broke? && !(a.Unavailable? && config.fault.BeforeWriteOnce?)
    && !(config.policy.RetryIdempotent? && keyed)
  }

  /** What one create attempt adds to the counts. */
  function CreateCounts(config: RetryConfig, a: AttemptEnd, keyed: bool): RetryCounts {
    var entered := !(a.Unavailable? && config.fault.BeforeWriteOnce?);
    NoCounts.(
      storageEntries := One(entered), faultActivations := One(a.Unavailable?),
      replayedResults := One(config.policy.RetryIdempotent? && keyed && entered && !a.Broke?))
  }

  lemma KeyedCreateCounts(t: Tables, title: string, operation: string)
    requires t.Valid()
    ensures var (r, t') := CreateKeyed(t, title, operation);
      r.Success? ==>
        && (r.value.replayed <==> operation in t.ledger)
        && |t'.tasks| == |t.tasks| + One(operation !in t.ledger)
        && InStore(t', r.value.task)
  {
    if operation !in t.ledger { assert Uuid(t.issued) !in t.tasks; }
  }

  // ---- Whole runs ------------------------------------------------------------------------------

  /** What the event log of a balanced run counts is always a consistent observation. */
  lemma BalancedIsObservable(config: RetryConfig, r: RetryCounts, consumed: bool, stored: int, toolCalls: nat)
    requires Balanced(config, r, consumed, stored) && r.operations <= toolCalls
    ensures Observable(config, r, toolCalls, r.operations)
  {
  }

  lemma NothingIsBalanced(config: RetryConfig)
    ensures Balanced(config, NoCounts, false, 0)
  {
  }

  function Executed(deliveries: seq<ToolDelivery>): nat {
    if deliveries == [] then 0 else Executed(deliveries[..|deliveries| - 1]) + One(deliveries[|deliveries| - 1].executed)
  }

  lemma {:induction false} ExecutedBound(deliveries: seq<ToolDelivery>)
    ensures Executed(deliveries) <= |deliveries|
  {
    if deliveries != [] { ExecutedBound(deliveries[..|deliveries| - 1]); }
  }

  /** Any sequence of calls through one executor, whichever attempts meet a storage error: the counts of its log
      satisfy every clause of a consistent observation, and without storage errors the stored tasks are the
      executed creates, one more for a lost reply retried without protection, one less for a write that never
      happened and was not retried. */
  method ExecuteAll(executor: RetryExecutor, calls: seq<(ToolCall, CallId)>, fails: (nat, nat) -> bool)
    returns (deliveries: seq<ToolDelivery>)
    requires executor.Valid() && executor.recorder.events == [] && !executor.consumed
    modifies executor, executor.store, executor.recorder
    ensures |deliveries| == |calls| && AllAnswer(deliveries, calls) && AllTrue(deliveries, executor.store.Contents())
    ensures Observable(executor.config, CountRetries(executor.recorder.events), |calls|, Executed(deliveries))
    ensures Determined(executor.config, CountRetries(executor.recorder.events), executor.consumed)
    ensures (forall k, n :: !fails(k, n)) ==>
      CountRetries(executor.recorder.events).storageErrors == 0
      && (executor.consumed <==> !executor.config.fault.RetryHealthy? && CountRetries(executor.recorder.events).creates > 0)
    ensures CountRetries(executor.recorder.events).storageErrors == 0 ==>
      |executor.store.tasks| == |old(executor.store.tasks)| + CountRetries(executor.recorder.events).creates
        + FaultEffect(executor.config, executor.consumed)
    ensures executor.store.Contents().Extends(old(executor.store.Contents()))
  {
    hide Balanced, Observable, Answers, Tables.Extends, Tables.Valid, FaultEffect, AllTrue, AllAnswer, CountRetries, RetryExecutor.Valid;
    ghost var base, before := |executor.store.tasks|, executor.store.Contents();
    NothingIsBalanced(executor.config);
    assert CountRetries(executor.recorder.events) == NoCounts by { CountsOfNothing(); }
    ExtendsSelf(before);
    deliveries := [];
    NothingSaid(calls, before);
    for i := 0 to |calls|
      invariant executor.Valid() && |deliveries| == i && executor.store.Contents().Extends(before)
      invariant Balanced(executor.config, CountRetries(executor.recorder.events), executor.consumed, |executor.store.tasks| - base)
      invariant CountRetries(executor.recorder.events).operations == Executed(deliveries)
      invariant AllAnswer(deliveries, calls) && AllTrue(deliveries, executor.store.Contents())
      invariant (forall k, n :: !fails(k, n)) ==>
        CountRetries(executor.recorder.events).storageErrors == 0
        && (executor.consumed <==> !executor.config.fault.RetryHealthy? && CountRetries(executor.recorder.events).creates > 0)
    {
      ghost var now, sofar := executor.store.Contents(), deliveries;
      var k: nat := i;
      var d := executor.Execute(calls[k].0, calls[k].1, (n: nat) => fails(k, n), base);
      ExtendsTransitive(before, now, executor.store.Contents());
      OneMore(deliveries, calls, d, now, executor.store.Contents());
      deliveries := deliveries + [d];
      assert deliveries[..|deliveries| - 1] == sofar;
    }
    ExecutedBound(deliveries);
    BalancedIsObservable(executor.config, CountRetries(executor.recorder.events), executor.consumed,
      |executor.store.tasks| - base, |calls|);
    BalancedFacts(executor.config, CountRetries(executor.recorder.events), executor.consumed, |executor.store.tasks| - base);
  }

  /** The counts that the fault alone decides: one more attempt if it struck and was retried, one delivery error, one
      entry less if it struck before the write, one replay if the reply was lost behind a protected one. */
  predicate Determined(config: RetryConfig, r: RetryCounts, consumed: bool) {
    && r.attempts == r.operations + r.retries && r.retries == (if consumed && !config.policy.SingleAttempt? then 1 else 0)
    && r.faultActivations == r.deliveryErrors == (if consumed then 1 else 0) && r.contractErrors == 0
    && r.storageEntries == r.attempts - (if consumed && config.fault.BeforeWriteOnce? then 1 else 0)
    && (r.storageErrors == 0 ==>
         r.replayedResults == if consumed && config.fault.LostReplyOnce? && config.policy.RetryIdempotent? then 1 else 0)
  }

  /** Each delivery is a valid answer to its call. */
  predicate AllAnswer(deliveries: seq<ToolDelivery>, calls: seq<(ToolCall, CallId)>) {
    |deliveries| <= |calls| && forall i | 0 <= i < |deliveries| :: Answers(deliveries[i].content, calls[i].0)
  }

  /** Each task reported by a success is stored, as reported. */
  predicate AllTrue(deliveries: seq<ToolDelivery>, t: Tables) {
    forall d | d in deliveries && d.content.ok && d.content.value.Some? :: InStore(t, d.content.value.value)
  }

  lemma NothingSaid(calls: seq<(ToolCall, CallId)>, t: Tables)
    ensures AllAnswer([], calls) && AllTrue([], t)
  {
  }

  lemma CountsOfNothing()
    ensures CountRetries([]) == NoCounts
  {
  }

  lemma OneMore(deliveries: seq<ToolDelivery>, calls: seq<(ToolCall, CallId)>, d: ToolDelivery, a: Tables, b: Tables)
    requires AllAnswer(deliveries, calls) && AllTrue(deliveries, a) && b.Extends(a) && |deliveries| < |calls|
    requires Answers(d.content, calls[|deliveries|].0)
    requires d.content.ok && d.content.value.Some? ==> InStore(b, d.content.value.value)
    ensures AllAnswer(deliveries + [d], calls) && AllTrue(deliveries + [d], b)
  {
    hide Answers;
  }

  lemma BalancedFacts(config: RetryConfig, r: RetryCounts, consumed: bool, stored: int)
    requires Balanced(config, r, consumed, stored)
    ensures Determined(config, r, consumed)
    ensures stored <= r.creates + One(consumed && config == RetryConfig(LostReplyOnce, RetryUnprotected))
    ensures r.storageErrors == 0 ==> stored == r.creates + FaultEffect(config, consumed)
  {
  }
}
