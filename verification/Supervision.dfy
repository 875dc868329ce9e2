/** supervision.py: one operation under bounded attempts, deadlines and saved reservations. */
module Supervision {
  import opened Wrappers
  import opened Records
  import opened Tasks
  import opened ExecutionTypes
  import opened Worker
  import opened Agent
  import opened Journals
  import opened RunInvariant

  /** run.lock: the worker process, if one is alive, that inherited the runner's descriptor. */
  class RunLock {
    var worker: Option<Job>

    constructor ()
      ensures worker.None?
    {
      worker := None;
    }
  }

  /** How `execute` ends: a delivery, one of its two ValueErrors, or the death of the runner. */
  datatype Executed = Delivery(d: ToolDelivery) | Raised | RunnerDied

  /** Why an operation may end with this delivery: a success or a refusal was received by an attempt; a retryable
      failure only after the last one; exhaustion only when attempts or time had run out. */
  predicate Ended(s: RunState, d: ToolDelivery) {
    var limits := s.executionLimits;
    && s.execution.active.Some? && d.executed && (d.content.ok || d.content.error.Some?)
    && var op := s.execution.active.value;
       if d.content.ok then op.attempts > 0
       else match d.content.error.value
         case ExecutionLimit =>
           || op.attempts >= limits.Attempts(s.config.policy) || s.execution.totalAttempts >= limits.totalAttempts
           || op.remaining <= (if op.attempts > 0 then limits.Backoff(op.attempts) else 0.0) + limits.graceSeconds
           || (op.attempts > 0 && op.remaining <= limits.graceSeconds)
         case TransientError => op.attempts >= limits.Attempts(s.config.policy)
         case DeliveryError => op.attempts >= limits.Attempts(s.config.policy)
         case DeadlineExceeded => op.attempts >= limits.Attempts(s.config.policy)
         case _ => op.attempts > 0
  }

  /** The worker's exit is seen within the attempt's timeout or, when only observing, before the grace period of what
      is left of the operation. */
  predicate InTime(config: ProcessConfig, limits: ExecutionLimits, now: Attempt, timeout: real, remaining: real) {
    || now.finishAt <= timeout
    || (config.policy.Observe? && now.finishAt - timeout <= Max(0.0, remaining - timeout - now.lag - limits.graceSeconds))
  }

  /** What the supervisor hears of an attempt: nothing by the deadline, nothing from a process that was stopped, or
      what such a process replies. */
  ghost predicate Heard(job: Job, now: Attempt, inTime: bool, raw: Option<Raw>, failure: ErrorCode, t: Tables) {
    if !inTime then raw.None? && failure.DeadlineExceeded?
    else if !now.halt.Never? then raw.None? && failure.DeliveryError?
    else Replies(job, now.storageFails, raw, t) && (raw.None? ==> failure.DeliveryError?)
  }

  function Refusal(code: ErrorCode): Option<ToolDelivery> { Some(ToolDelivery(ErrorReply(code), true)) }

  /** The delivery that what was heard leads to; None to try again. */
  predicate Judged(call: ToolCall, raw: Option<Raw>, failure: ErrorCode, last: bool, d: Option<ToolDelivery>) {
    match raw
    case None => d == if last then Refusal(failure) else None
    case Some(Json(e)) =>
      if !Answers(e, call) then d == Refusal(InvalidResult)
      else if e.ok then d == Some(ToolDelivery(e, true))
      else d == if (e.error == Some(TransientError) || e.error == Some(DeliveryError) || e.error == Some(DeadlineExceeded)) && !last
                then None else Refusal(e.error.value)
    case Some(_) => d == Refusal(InvalidResult)
  }

  /** What one attempt leads to. */
  ghost predicate Concluded(job: Job, now: Attempt, inTime: bool, last: bool, d: Option<ToolDelivery>, t: Tables) {
    exists raw, failure :: Heard(job, now, inTime, raw, failure, t) && Judged(job.call, raw, failure, last, d)
  }

  /** One attempt was made, with `rem` seconds left: it is counted and charged, and led to this. */
  ghost predicate Tried(
    config: ProcessConfig, limits: ExecutionLimits, before: ExecutionState, rem: real, env: Env,
    after: ExecutionState, d: Option<ToolDelivery>, t: Tables)
  {
    && before.active.Some? && after.active.Some?
    && var op, now := before.active.value, env.attempt(before.totalAttempts + 1);
       var inTime := InTime(config, limits, now, Timeout(limits, rem), rem);
       && after.active.value.operationId == op.operationId && after.active.value.call == op.call
       && after.active.value.attempts == op.attempts + 1
       && after.totalAttempts == before.totalAttempts + 1
       && after.faultCursor == before.faultCursor + (if op.call.name.CreateTask? then 1 else 0)
       && (inTime ==> after.active.value.remaining == Max(0.0, rem - (now.finishAt + now.lag)))
       && Concluded(Job(op.operationId, op.call, FaultFor(config, before.faultCursor, op.call)), now, inTime,
                    after.active.value.attempts >= limits.Attempts(config.policy), d, t)
  }

  // ---- Operations in a steady environment -------------------------------------

  /** Every wait honours its timeout, storage works, and every worker runs to its end in the time it is given. */
  ghost predicate Steady(env: Env, config: ProcessConfig, limits: ExecutionLimits) {
    Punctual(env) && forall n: nat :: SteadyAt(env.attempt(n), config, limits)
  }

  predicate SteadyAt(now: Attempt, config: ProcessConfig, limits: ExecutionLimits) {
    && now.halt.Never? && !now.storageFails && now.lag == 0.0
    && now.finishAt <= if config.policy.Observe? then limits.operationSeconds - limits.graceSeconds else limits.attemptSeconds
  }

  /** The most that so many attempts and the backoffs between them take. */
  function TimeFor(limits: ExecutionLimits, attempts: nat): real {
    match attempts
    case 0 => 0.0
    case 1 => limits.attemptSeconds
    case 2 => 2.0 * limits.attemptSeconds + limits.backoff0
    case _ => 3.0 * limits.attemptSeconds + limits.backoff0 + limits.backoff1
  }

  /** The attempts that a policy allows fit into the operation's time and the run's budget. */
  predicate Room(config: ProcessConfig, limits: ExecutionLimits, totalAttempts: nat) {
    var maximum := if config.policy.BoundedRetry? then limits.maxAttempts else 1;
    && 0 <= maximum && TimeFor(limits, maximum) + limits.graceSeconds <= limits.operationSeconds
    && totalAttempts + maximum <= limits.totalAttempts
  }

  /** A delivery of the success that the call earns, after so many attempts. */
  ghost predicate Succeeds(call: ToolCall, op: Operation, d: ToolDelivery, attempts: nat, t: Tables) {
    op.attempts == attempts && d.executed && Served(call, op.operationId, d.content, t)
  }

  predicate GivesUp(op: Operation, d: ToolDelivery, attempts: int, code: ErrorCode) {
    op.attempts == attempts && Some(d) == Refusal(code)
  }

  /** How a new operation ends in a steady environment, case by case: `lost` attempts fail before one can succeed. */
  ghost predicate Foreseen(
    config: ProcessConfig, cursor: nat, limits: ExecutionLimits, call: ToolCall, op: Operation, d: ToolDelivery, before: Tables, t: Tables)
  {
    var maximum := if config.policy.BoundedRetry? then limits.maxAttempts else 1;
    if call.name.GetTask? then Succeeds(call, op, d, 1, t)
    else match config.case_
      case TransientOnce =>
        var lost := if cursor < 1 then 1 else 0;
        if lost < maximum then Succeeds(call, op, d, lost + 1, t) else GivesUp(op, d, maximum, TransientError)
      case TransientTwice =>
        var lost := if cursor < 2 then 2 - cursor else 0;
        if lost < maximum then Succeeds(call, op, d, lost + 1, t) else GivesUp(op, d, maximum, TransientError)
      case TransientAlways => GivesUp(op, d, maximum, TransientError) && t == before
      case ExitBeforeReply =>
        var lost := if cursor < 1 then 1 else 0;
        && Stored(call, op.operationId, t)
        && if lost < maximum then Succeeds(call, op, d, lost + 1, t) else GivesUp(op, d, maximum, DeliveryError)
      case PermanentError =>
        if cursor < 1 then GivesUp(op, d, 1, StorageError) && t == before else Succeeds(call, op, d, 1, t)
      case MalformedWorker =>
        if cursor < 1 then GivesUp(op, d, 1, InvalidResult) && Stored(call, op.operationId, t) else Succeeds(call, op, d, 1, t)
      case _ => Succeeds(call, op, d, 1, t)
  }

  predicate Again(config: ProcessConfig, cursor: nat, call: ToolCall) { FaultFor(config, cursor, call) in {Transient, Exit} }

  function Cursor(cursor: nat, attempts: nat, call: ToolCall): nat { if call.name.CreateTask? then cursor + attempts else cursor }

  /** A new operation between its attempts, all of which failed in a way that is tried again. */
  ghost predicate Underway(
    config: ProcessConfig, limits: ExecutionLimits, call: ToolCall, s0: ExecutionState, s: ExecutionState, before: Tables, t: Tables)
  {
    && s0.active.Some? && s.active.Some?
    && var op := s.active.value;
       && op.call == call && op.operationId == s0.active.value.operationId && op.attempts < limits.Attempts(config.policy)
       && s.totalAttempts == s0.totalAttempts + op.attempts && s.faultCursor == Cursor(s0.faultCursor, op.attempts, call)
       && op.remaining >= limits.operationSeconds - TimeFor(limits, op.attempts)
       && (op.attempts == 0 || (config.case_.TransientAlways? && call.name.CreateTask?) ==> t == before)
       && forall j: nat | j < op.attempts :: Again(config, Cursor(s0.faultCursor, j, call), call)
  }

  lemma ConcludedIs(job: Job, now: Attempt, last: bool, d: Option<ToolDelivery>, t: Tables)
    requires Concluded(job, now, true, last, d, t) && now.halt.Never? && !now.storageFails
    requires t.Valid() && job.call.ValidArguments()
    ensures match job.fault
      case Transient => d == if last then Refusal(TransientError) else None
      case Permanent => d == Refusal(StorageError)
      case Exit => Stored(job.call, job.operationId, t) && d == if last then Refusal(DeliveryError) else None
      case Malformed => Stored(job.call, job.operationId, t) && d == Refusal(InvalidResult)
      case _ => d.Some? && d.value.executed && Served(job.call, job.operationId, d.value.content, t)
  {
    hide Stored, Answers, Tables.Valid;
    var raw, failure :| Heard(job, now, true, raw, failure, t) && Judged(job.call, raw, failure, last, d);
    if raw.Some? && raw.value.Json? && raw.value.envelope.ok {
      ServedAnswers(job.call, job.operationId, raw.value.envelope, t);
    }
    RefusalsAnswer(job.call);
  }

  /** What is left of the operation when its next attempt starts. */
  function Left(limits: ExecutionLimits, op: Operation): real {
    op.remaining - if op.attempts > 0 then limits.Backoff(op.attempts) else 0.0
  }

  lemma HasTime(config: ProcessConfig, limits: ExecutionLimits, totalAttempts: nat, op: Operation, now: Attempt)
    requires limits.Valid() && Room(config, limits, totalAttempts) && SteadyAt(now, config, limits)
    requires op.attempts < limits.Attempts(config.policy) && op.remaining >= limits.operationSeconds - TimeFor(limits, op.attempts)
    ensures var rem := Left(limits, op);
      && rem > limits.graceSeconds && InTime(config, limits, now, Timeout(limits, rem), rem)
      && (op.attempts + 1 < limits.Attempts(config.policy) ==>
           rem - now.finishAt >= limits.operationSeconds - TimeFor(limits, op.attempts + 1) >= 0.0)
  {
  }

  /** An operation that was never attempted. */
  predicate New(limits: ExecutionLimits, s: ExecutionState) {
    s.active.Some? && s.active.value.attempts == 0 && s.active.value.remaining == limits.operationSeconds
  }

  /** The call in hand has no operation yet, or one that was never attempted. */
  predicate Untried(s: RunState) {
    InFlight(s) ==>
      New(s.executionLimits, s.execution) && s.execution.active.value.result.None? && s.execution.active.value.reserved == 0.0
  }

  /** Where the loop stands: a new operation in a steady environment is under way, and one that has a single attempt
      has not made it. */
  ghost predicate Progress(
    config: ProcessConfig, limits: ExecutionLimits, call: ToolCall, s0: ExecutionState, s: ExecutionState, env: Env,
    before: Tables, t: Tables)
  {
    && (New(limits, s0) && Steady(env, config, limits) && Room(config, limits, s0.totalAttempts) ==>
         Underway(config, limits, call, s0, s, before, t))
    && (New(limits, s0) && limits.Attempts(config.policy) == 1 ==> s == s0)
  }

  /** What is known of the delivery: of a new operation in a steady environment, everything; of one that has a single
      attempt, that the attempt led to it. */
  ghost predicate Justified(
    config: ProcessConfig, limits: ExecutionLimits, call: ToolCall, s0: ExecutionState, s: ExecutionState, env: Env,
    d: ToolDelivery, before: Tables, t: Tables)
  {
    && (New(limits, s0) && Steady(env, config, limits) && Room(config, limits, s0.totalAttempts) ==>
         s.active.Some? && Foreseen(config, s0.faultCursor, limits, call, s.active.value, d, before, t))
    && (New(limits, s0) && limits.Attempts(config.policy) == 1 && limits.graceSeconds < limits.operationSeconds
        && s0.totalAttempts < limits.totalAttempts ==>
         Tried(config, limits, s0, limits.operationSeconds, env, s, Some(d), t))
  }

  lemma ProgressStarts(config: ProcessConfig, limits: ExecutionLimits, call: ToolCall, s: ExecutionState, env: Env, t: Tables)
    requires s.active.Some? && s.active.value.call == call && limits.Valid()
    ensures Progress(config, limits, call, s, s, env, t, t)
  {
  }

  lemma RoundEnds(
    config: ProcessConfig, limits: ExecutionLimits, call: ToolCall, s0: ExecutionState, s: ExecutionState, env: Env,
    s': ExecutionState, d: Option<ToolDelivery>, before: Tables, t: Tables, t': Tables)
    requires limits.Valid() && Steady(env, config, limits) && Room(config, limits, s0.totalAttempts) && call.ValidArguments() && t'.Valid()
    requires Underway(config, limits, call, s0, s, before, t)
    requires Tried(config, limits, s, Left(limits, s.active.value), env, s', d, t')
    requires FaultFor(config, s.faultCursor, call) in {Transient, Permanent} ==> t' == t
    ensures d.None? && s'.active.value.attempts < limits.Attempts(config.policy) ==> Underway(config, limits, call, s0, s', before, t')
    ensures d.Some? ==> Foreseen(config, s0.faultCursor, limits, call, s'.active.value, d.value, before, t')
  {
    hide Concluded, InTime, Stored, Tables.Valid, TimeFor, Room, ToolCall.ValidArguments;
    var op, now := s.active.value, env.attempt(s.totalAttempts + 1);
    assert SteadyAt(now, config, limits);
    HasTime(config, limits, s0.totalAttempts, op, now);
    var job := Job(op.operationId, op.call, FaultFor(config, s.faultCursor, op.call));
    ConcludedIs(job, now, s'.active.value.attempts >= limits.Attempts(config.policy), d, t');
    assert op.attempts > 0 ==> Again(config, Cursor(s0.faultCursor, 0, call), call);
    assert op.attempts > 1 ==> Again(config, Cursor(s0.faultCursor, 1, call), call);
  }

  lemma UnderwayHasTime(
    config: ProcessConfig, limits: ExecutionLimits, call: ToolCall, s0: ExecutionState, s: ExecutionState, before: Tables, t: Tables,
    env: Env)
    requires limits.Valid() && Steady(env, config, limits) && Room(config, limits, s0.totalAttempts)
    requires Underway(config, limits, call, s0, s, before, t)
    ensures Punctual(env) && s.active.Some? && Left(limits, s.active.value) > limits.graceSeconds
  {
    hide Room, TimeFor, InTime, Again;
    assert SteadyAt(env.attempt(0), config, limits);
    HasTime(config, limits, s0.totalAttempts, s.active.value, env.attempt(0));
  }

  /** What a round says of the attempt it made. */
  ghost predicate Made(
    config: ProcessConfig, limits: ExecutionLimits, call: ToolCall, s: ExecutionState, env: Env, s': ExecutionState,
    d: Option<ToolDelivery>, t: Tables, t': Tables)
  {
    && s.active.Some? && s.active.value.call == call
    && (s.active.value.attempts == 0 || Punctual(env) ==>
         Left(limits, s.active.value) > limits.graceSeconds ==>
           Tried(config, limits, s, Left(limits, s.active.value), env, s', d, t'))
    && (FaultFor(config, s.faultCursor, call) in {Transient, Permanent} ==> t' == t)
  }

  lemma RoundGoesOn(
    config: ProcessConfig, limits: ExecutionLimits, call: ToolCall, s0: ExecutionState, s: ExecutionState, env: Env,
    s': ExecutionState, before: Tables, t: Tables, t': Tables)
    requires limits.Valid() && call.ValidArguments() && t'.Valid() && Progress(config, limits, call, s0, s, env, before, t)
    requires Made(config, limits, call, s, env, s', None, t, t')
    requires s'.active.Some? && 0 < s'.active.value.attempts < limits.Attempts(config.policy)
    ensures Progress(config, limits, call, s0, s', env, before, t')
  {
    hide Steady, Room, Underway, Tables.Valid, ToolCall.ValidArguments, FaultFor, Tried, Punctual;
    if New(limits, s0) && Steady(env, config, limits) && Room(config, limits, s0.totalAttempts) {
      UnderwayHasTime(config, limits, call, s0, s, before, t, env);
      RoundEnds(config, limits, call, s0, s, env, s', None, before, t, t');
    }
  }

  lemma RoundDelivers(
    config: ProcessConfig, limits: ExecutionLimits, call: ToolCall, s0: ExecutionState, s: ExecutionState, env: Env,
    s': ExecutionState, d: ToolDelivery, before: Tables, t: Tables, t': Tables)
    requires limits.Valid() && call.ValidArguments() && t'.Valid() && Progress(config, limits, call, s0, s, env, before, t)
    requires Made(config, limits, call, s, env, s', Some(d), t, t') && s'.active.Some?
    ensures Justified(config, limits, call, s0, s', env, d, before, t')
  {
    hide Steady, Room, Underway, Tables.Valid, ToolCall.ValidArguments, FaultFor, Tried, Punctual, Foreseen;
    if New(limits, s0) && Steady(env, config, limits) && Room(config, limits, s0.totalAttempts) {
      UnderwayHasTime(config, limits, call, s0, s, before, t, env);
      RoundEnds(config, limits, call, s0, s, env, s', Some(d), before, t, t');
    }
  }

  /** The loop does not end by itself under way. */
  lemma LoopEnds(
    config: ProcessConfig, limits: ExecutionLimits, call: ToolCall, s0: ExecutionState, s: ExecutionState, env: Env,
    s': ExecutionState, d: ToolDelivery, before: Tables, t: Tables)
    requires Progress(config, limits, call, s0, s, env, before, t) && s.active.Some?
    requires s.active.value.attempts >= limits.Attempts(config.policy) || s.totalAttempts >= limits.totalAttempts
    ensures Justified(config, limits, call, s0, s', env, d, before, t)
  {
    hide Steady, Foreseen, Tried;
  }

  /** How a new operation ends, by its own attempts: in a steady environment as foreseen; under a policy of one
      attempt as that attempt went, and with a missed deadline if its worker was too slow. */
  ghost predicate NewOperationEnds(
    config: ProcessConfig, limits: ExecutionLimits, call: ToolCall, s: ExecutionState, env: Env, op: Operation,
    d: ToolDelivery, before: Tables, t: Tables)
  {
    var now := env.attempt(s.totalAttempts + 1);
    && (Steady(env, config, limits) && Room(config, limits, s.totalAttempts) ==>
         Foreseen(config, s.faultCursor, limits, call, op, d, before, t))
    && (!config.policy.BoundedRetry? && limits.graceSeconds < limits.operationSeconds && s.totalAttempts < limits.totalAttempts ==>
         && Concluded(Job(op.operationId, call, FaultFor(config, s.faultCursor, call)), now,
              InTime(config, limits, now, Timeout(limits, limits.operationSeconds), limits.operationSeconds), true, Some(d), t)
         && (now.finishAt > (if config.policy.Observe? then limits.operationSeconds - limits.graceSeconds else limits.attemptSeconds)
             ==> Some(d) == Refusal(DeadlineExceeded)))
  }

  lemma NewOperationJustified(
    config: ProcessConfig, limits: ExecutionLimits, call: ToolCall, s0: ExecutionState, s1: ExecutionState, env: Env,
    s: ExecutionState, d: ToolDelivery, before: Tables, t: Tables)
    requires Justified(config, limits, call, s1, s, env, d, before, t) && New(limits, s1) && s1 == s0.(active := s1.active)
    requires s1.active.value.call == call && s.active.Some?
    ensures NewOperationEnds(config, limits, call, s0, env, s.active.value, d, before, t)
  {
    hide Steady, Room, Foreseen, Replies, Answers, FaultFor;
  }

  lemma RefusalsAnswer(call: ToolCall)
    ensures forall code :: Answers(ErrorReply(code), call)
  {
  }

  /** The longest that one dispatch takes when every wait honours its timeout. */
  function Timeout(limits: ExecutionLimits, remaining: real): real {
    Min(limits.attemptSeconds, remaining - limits.graceSeconds)
  }

  function Reservation(config: ProcessConfig, limits: ExecutionLimits, remaining: real): real {
    if config.policy.Observe? then remaining
    else Min(remaining, Timeout(limits, remaining) + limits.graceSeconds)
  }

  /** The durable steps that one call of `execute` takes at most: a new operation or the charge for an interrupted
      one, three rounds of backoff, reservation, worker and charge, and the saved result. */
  const ExecuteSteps: nat := 21

  class Supervisor {
    const journal: Journal
    const store: TaskStore
    const lock: RunLock
    const config: ProcessConfig
    const limits: ExecutionLimits
    var state: ExecutionState
    var worker: Option<Job>

    ghost function World(): World
      reads journal, store, lock
    {
      RunInvariant.World(journal.Contents(), store.Contents(), lock.worker)
    }

    /** This session's view agrees with the durable one. */
    ghost predicate Valid()
      reads this, journal, lock
    {
      && state == journal.state.execution && worker == lock.worker
      && config == journal.state.config && limits == journal.state.executionLimits
    }

    constructor (journal: Journal, store: TaskStore, lock: RunLock)
      requires lock.worker.None?
      ensures Valid() && this.journal == journal && this.store == store && this.lock == lock
    {
      this.journal, this.store, this.lock := journal, store, lock;
      config, limits := journal.state.config, journal.state.executionLimits;
      state, worker := journal.state.execution, None;
    }

    /** `save`: adopt the state, then checkpoint it with the rest of the run. */
    method Save(next: ExecutionState) returns (r: CommitResult)
      modifies this`state, journal
      ensures state == next
      ensures old(journal.fuel) == 0 ==> r.Died?
      ensures old(journal.fuel) > 0 ==>
        (if old(journal.state).(execution := next).Consistent() then r.Committed? else r.Rejected?)
      ensures journal.Contents() ==
        if r.Committed? then old(journal.Contents()).After(ExecutionCheckpoint, old(journal.state).(execution := next))
        else old(journal.Contents())
      ensures journal.fuel <= old(journal.fuel) <= journal.fuel + 1
    {
      state := next;
      r := journal.Commit(ExecutionCheckpoint, journal.state.(execution := next));
    }

    /** `stop_worker`: terminate and, after the grace period, kill the worker if it still runs. After it, no
        worker of this session is alive. */
    method StopWorker(exited: bool, stopTakes: Seconds) returns (took: real)
      modifies this`worker, lock
      ensures worker.None? && (old(worker) == old(lock.worker) ==> lock.worker.None?)
      ensures took == if old(worker).None? || exited then 0.0 else Min(stopTakes, limits.graceSeconds)
    {
      if worker.None? { return 0.0; }
      took := if exited then 0.0 else Min(stopTakes, limits.graceSeconds);
      lock.worker, worker := None, None;
    }

    /** The waits of `dispatch`: one for the attempt's timeout and, when only observing, a second one that
        keeps the grace period back. */
    method Communicate(timeout: real, remaining: real, now: Attempt) returns (exited: bool, took: real)
      requires 0.0 < timeout <= remaining - limits.graceSeconds
      ensures took >= 0.0 && (exited ==> took == now.finishAt + now.lag)
      ensures now.lag == 0.0 ==> took <= if config.policy.Observe? then remaining - limits.graceSeconds else timeout
      ensures exited <==> InTime(config, limits, now, timeout, remaining)
    {
      took := Min(now.finishAt, timeout) + now.lag;
      exited := now.finishAt <= timeout;
      if !exited && config.policy.Observe? {
        var available := Max(0.0, remaining - took - limits.graceSeconds);
        exited := now.finishAt - timeout <= available;
        took := took + Min(now.finishAt - timeout, available);
      }
    }

    /** From the spawned worker to its confirmed exit: its reply, or why there is none, and the time it took. */
    method Await(job: Job, timeout: real, remaining: real, now: RunInvariant.Attempt, env: Env, ghost prompt: seq<Message>)
      returns (raw: Option<Raw>, failure: ErrorCode, took: real)
      requires Valid() && worker == Some(job) && Sound(World(), env, prompt) && store.Contents().Valid()
      requires 0.0 < timeout <= remaining - limits.graceSeconds && 0.0 < limits.graceSeconds
      modifies this`worker, store, lock
      ensures Sound(World(), env, prompt) && Valid() && worker.None?
      ensures store.Contents().Extends(old(store.Contents()))
      ensures took >= 0.0
      ensures now.lag == 0.0 ==> took <= if config.policy.Observe? then remaining else timeout + limits.graceSeconds
      ensures InTime(config, limits, now, timeout, remaining) ==> took == now.finishAt + now.lag
      ensures Heard(job, now, InTime(config, limits, now, timeout, remaining), raw, failure, store.Contents())
      ensures job.fault.Transient? || job.fault.Permanent? ==> store.Contents() == old(store.Contents())
      ensures raw.None? ==> failure.DeadlineExceeded? || failure.DeliveryError?
      ensures raw.Some? && raw.value.Json? ==> Backed(job.call, raw.value.envelope, store.tasks)
      ensures raw.Some? && raw.value.Json? && !raw.value.envelope.ok ==> Refuses(raw.value.envelope)
    {
      hide Sound, Effect, Backed, Punctual, InFlight, Replies, InTime, OwnReceipt, Stored;
      ghost var w0 := World();
      OwnJob(w0, env, prompt);
      var reply := Perform(store, job, now.halt, now.storageFails);
      WorkerKeeps(w0, store.Contents(), env, prompt);
      var exited;
      exited, took := Communicate(timeout, remaining, now);
      raw, failure := if exited then reply else None, if exited then DeliveryError else DeadlineExceeded;
      var stopping := StopWorker(exited, now.stopTakes);
      took := took + stopping;
      ExitKeeps(w0.(tables := store.Contents()), env, prompt);
    }

    /** One worker, spawned and awaited. The runner may die before the spawn, or while it waits, leaving the
        worker alone with the lock. */
    method Dispatch(call: ToolCall, fault: WorkerFault, timeout: real, remaining: real,
                    env: Env, ghost prompt: seq<Message>)
      returns (alive: bool, raw: Option<Raw>, failure: ErrorCode, took: real)
      requires Valid() && worker.None? && Sound(World(), env, prompt)
      requires InFlight(journal.state) && state.active.Some? && state.active.value.result.None? && state.active.value.call == call
      requires journal.books.dispatched < journal.state.execution.totalAttempts
      requires 0.0 < timeout <= remaining - limits.graceSeconds && 0.0 < limits.graceSeconds
      requires Punctual(env) ==>
        journal.books.spent + remaining <= limits.operationSeconds
        && (if config.policy.Observe? then remaining else timeout + limits.graceSeconds) <= state.active.value.reserved
        && state.active.value.remaining == remaining
      modifies this`worker, journal`fuel, journal`books, store, lock
      ensures old(journal.fuel) <= journal.fuel + 2
      ensures Sound(World(), env, prompt)
      ensures store.Contents().Extends(old(store.Contents()))
      ensures journal.Contents() == old(journal.Contents()).(books := journal.books)
      ensures journal.books == old(journal.books).(dispatched := journal.books.dispatched, spent := journal.books.spent)
      ensures !alive ==> journal.fuel == 0
      ensures alive ==> journal.books.dispatched == old(journal.books.dispatched) + 1
      ensures alive ==> Valid() && worker.None? && took >= 0.0 && journal.books.spent == old(journal.books.spent) + took
      ensures alive && Punctual(env) ==> took <= if config.policy.Observe? then remaining else timeout + limits.graceSeconds
      ensures alive ==>
        var now := env.attempt(old(state.totalAttempts)); var inTime := InTime(config, limits, now, timeout, remaining);
        && (inTime ==> took == now.finishAt + now.lag)
        && Heard(Job(state.active.value.operationId, call, fault), now, inTime, raw, failure, store.Contents())
      ensures fault.Transient? || fault.Permanent? ==> store.Contents() == old(store.Contents())
      ensures alive && raw.None? ==> failure.DeadlineExceeded? || failure.DeliveryError?
      ensures alive && raw.Some? && raw.value.Json? ==> Backed(call, raw.value.envelope, store.tasks)
      ensures alive && raw.Some? && raw.value.Json? && !raw.value.envelope.ok ==> Refuses(raw.value.envelope)
    {
      hide Sound, Backed, Punctual, InFlight, Refuses, Heard, InTime;
      var now := env.attempt(state.totalAttempts);
      if Punctual(env) { PunctualAt(env, state.totalAttempts); }
      alive, raw, failure, took := false, None, DeliveryError, 0.0;
      var spawns := journal.Live();
      if !spawns { return; }
      var job := Job(state.active.value.operationId, call, fault);
      SpawnKeeps(World(), job, env, prompt);
      worker, lock.worker := Some(job), Some(job);
      journal.books := journal.books.(dispatched := journal.books.dispatched + 1);
      var watches := journal.Live();
      if !watches {
        var watched := Min(now.watchedFor, if config.policy.Observe? then remaining else timeout + limits.graceSeconds);
        SpentKeeps(World(), watched, env, prompt);
        journal.books := journal.books.(spent := journal.books.spent + watched);
        return;
      }
      ExitKeeps(World(), env, prompt);
      raw, failure, took := Await(job, timeout, remaining, now, env, prompt);
      SpentKeeps(World(), took, env, prompt);
      journal.books := journal.books.(spent := journal.books.spent + took);
      alive := true;
    }

    /** Save a step of the operation in flight; a checkpoint is never rejected. */
    method Checkpoint(next: ExecutionState, env: Env, ghost prompt: seq<Message>) returns (alive: bool)
      requires Valid() && worker.None? && Sound(World(), env, prompt)
      requires Advances(World(), journal.state.(execution := next), env)
      modifies this`state, journal
      ensures old(journal.fuel) <= journal.fuel + 1
      ensures Sound(World(), env, prompt) && journal.fuel <= old(journal.fuel)
      ensures alive ==> Valid() && InFlight(journal.state) && state == next
      ensures alive ==> journal.books == old(journal.books)
      ensures alive ==> journal.Contents() == old(journal.Contents()).(state := old(journal.state).(execution := next), books := journal.books)
      ensures !alive ==> journal.fuel == 0 && journal.Contents() == old(journal.Contents())
    {
      hide Sound;
      OperationKeeps(World(), journal.state.(execution := next), env, prompt);
      assert OwnersWith(journal.books.owners, next.active) == journal.books.owners by { KnownOwner(World(), env, prompt); }
      var r := Save(next);
      assert !r.Rejected?;
      alive := r.Committed?;
    }

    /** `finish`: save an error as the operation's result. */
    method Finish(code: ErrorCode, env: Env, ghost prompt: seq<Message>) returns (r: Executed)
      requires Valid() && worker.None? && Sound(World(), env, prompt)
      requires InFlight(journal.state)
      modifies this`state, journal
      ensures old(journal.fuel) <= journal.fuel + 1
      ensures Sound(World(), env, prompt) && Quiet(old(journal.Contents()), journal.Contents())
      ensures match r
        case Delivery(d) =>
          && d == ToolDelivery(ErrorReply(code), true) && Valid() && Deliverable(journal.state, d)
          && state == old(state).(active := Some(old(state.active.value).(result := Some(d))))
        case RunnerDied => journal.fuel == 0
        case Raised => false
    {
      hide Sound;
      var result := ToolDelivery(ErrorReply(code), true);
      var next := state.(active := Some(state.active.value.(result := Some(result))));
      InFlightFacts(World(), env, prompt);
      var alive := Checkpoint(next, env, prompt);
      return if alive then Delivery(result) else RunnerDied;
    }

    /** Reserve the wait, sleep it, and charge what it took; false when the runner died on the way. */
    method Backoff(wait: real, env: Env, ghost prompt: seq<Message>) returns (alive: bool)
      requires Valid() && worker.None? && Sound(World(), env, prompt)
      requires Ready() && 0.0 <= wait < state.active.value.remaining
      modifies this`state, journal
      ensures old(journal.fuel) <= journal.fuel + 2
      ensures Sound(World(), env, prompt) && Quiet(old(journal.Contents()), journal.Contents())
      ensures alive ==> Valid() && Ready()
      ensures alive && Punctual(env) ==> state.active.value.remaining == old(state.active.value.remaining) - wait
      ensures alive ==> state.active.value == old(state.active.value).(remaining := state.active.value.remaining)
      ensures alive ==> state == old(state).(active := state.active)
      ensures alive ==>
        state.active.value.remaining == Max(0.0, old(state.active.value.remaining) - (journal.books.spent - old(journal.books.spent)))
      ensures !alive ==> journal.fuel == 0
    {
      hide Sound, Punctual;
      InFlightFacts(World(), env, prompt);
      var op := state.active.value;
      alive := Checkpoint(state.(active := Some(op.(reserved := wait))), env, prompt);
      if !alive { return; }
      var slept := wait + env.oversleep(journal.sequence);
      assert Punctual(env) ==> slept == wait by { if Punctual(env) { PunctualAt(env, journal.sequence); } }
      SpentKeeps(World(), slept, env, prompt);
      journal.books := journal.books.(spent := journal.books.spent + slept);
      op := op.(remaining := Max(0.0, op.remaining - Max(wait, slept)));
      alive := Checkpoint(state.(active := Some(op)), env, prompt);
    }

    /** An unfinished operation with nothing reserved: the point where the attempt loop starts a round. */
    ghost predicate Ready()
      reads this, journal
    {
      && InFlight(journal.state) && state == journal.state.execution
      && state.active.value.result.None? && state.active.value.reserved == 0.0
    }

    /** Reserve one attempt, dispatch it, and charge its time; false when the runner died on the way. */
    method Attempt(call: ToolCall, env: Env, ghost prompt: seq<Message>)
      returns (alive: bool, raw: Option<Raw>, failure: ErrorCode)
      requires Valid() && worker.None? && Sound(World(), env, prompt)
      requires Ready() && state.active.value.call == call
      requires state.active.value.attempts < limits.Attempts(config.policy) && state.totalAttempts < limits.totalAttempts
      requires limits.graceSeconds < state.active.value.remaining
      modifies this`state, this`worker, journal, store, lock
      ensures old(journal.fuel) <= journal.fuel + 4
      ensures Sound(World(), env, prompt) && Quiet(old(journal.Contents()), journal.Contents())
      ensures store.Contents().Extends(old(store.Contents()))
      ensures alive ==> Valid() && worker.None? && Ready() && state.totalAttempts == old(state.totalAttempts) + 1
      ensures alive ==> journal.books.dispatched == old(journal.books.dispatched) + 1
      ensures alive ==> state.active.value.call == call && state.active.value.attempts == old(state.active.value.attempts) + 1
      ensures alive && raw.None? ==> failure.DeadlineExceeded? || failure.DeliveryError?
      ensures alive && raw.Some? && raw.value.Json? ==> Backed(call, raw.value.envelope, store.tasks)
      ensures alive && raw.Some? && raw.value.Json? && !raw.value.envelope.ok ==> Refuses(raw.value.envelope)
      ensures alive ==> state.active.value.operationId == old(state.active.value.operationId)
      ensures alive ==>
        state.active.value.remaining == Max(0.0, old(state.active.value.remaining) - (journal.books.spent - old(journal.books.spent)))
      ensures alive ==> state.faultCursor == old(state.faultCursor) + if call.name.CreateTask? then 1 else 0
      ensures alive ==>
        var rem, now := old(state.active.value.remaining), env.attempt(old(state.totalAttempts) + 1);
        var inTime := InTime(config, limits, now, Timeout(limits, rem), rem);
        var job := Job(state.active.value.operationId, call, FaultFor(config, old(state.faultCursor), call));
        && (inTime ==> state.active.value.remaining == Max(0.0, rem - (now.finishAt + now.lag)))
        && Heard(job, now, inTime, raw, failure, store.Contents())
      ensures FaultFor(config, old(state.faultCursor), call) in {Transient, Permanent} ==> store.Contents() == old(store.Contents())
      ensures !alive ==> journal.fuel == 0
    {
      hide Sound, Punctual, Backed, Heard, InTime, FaultFor, Refuses;
      raw, failure := None, DeliveryError;
      InFlightFacts(World(), env, prompt);
      var op := state.active.value;
      var timeout := Timeout(limits, op.remaining);
      var reservation := Reservation(config, limits, op.remaining);
      var fault := FaultFor(config, state.faultCursor, call);
      op := op.(attempts := op.attempts + 1, reserved := reservation);
      alive := Checkpoint(
        ExecutionState(state.totalAttempts + 1, state.faultCursor + (if call.name.CreateTask? then 1 else 0), Some(op)),
        env, prompt);
      if !alive { return; }
      var took;
      alive, raw, failure, took := Dispatch(call, fault, timeout, op.remaining, env, prompt);
      if !alive { return; }
      op := op.(remaining := Max(0.0, op.remaining - took), reserved := 0.0);
      alive := Checkpoint(state.(active := Some(op)), env, prompt);
    }

    /** `execute`: deliver the saved result of this call's operation, or bring the operation to an end. */
    method Execute(call: ToolCall, callId: CallId, env: Env, ghost prompt: seq<Message>) returns (r: Executed)
      requires Valid() && worker.None? && Sound(World(), env, prompt) && ControlHolds(journal.state)
      requires journal.state.toolReserved && callId == journal.state.CurrentCall()
      requires call == journal.state.pending[journal.state.toolCursor]
      modifies this`state, this`worker, journal, store, lock
      ensures old(journal.fuel) <= journal.fuel + ExecuteSteps
      ensures Sound(World(), env, prompt) && Quiet(old(journal.Contents()), journal.Contents())
      ensures store.Contents().Extends(old(store.Contents()))
      ensures match r
        case Delivery(d) => Valid() && worker.None? && Deliverable(journal.state, d)
        case RunnerDied => journal.fuel == 0
        case Raised => false
      ensures r.Delivery? && r.d.executed && !(old(InFlight(journal.state)) && old(state.active.value.result).Some?)
        ==> Ended(journal.state, r.d)
      ensures !call.Known() || !call.ValidArguments() ==>
        && r == Delivery(ToolDelivery(ErrorReply(if call.Known() then InvalidArguments else UnknownTool), false))
        && World() == old(World())
      ensures r.Delivery? && old(InFlight(journal.state)) && old(state.active.value.result).Some? ==>
        Some(r.d) == old(state.active.value.result) && World() == old(World())
      ensures r.Delivery? && call.Known() && call.ValidArguments() && old(Untried(journal.state)) ==>
        state.active.Some? && NewOperationEnds(config, limits, call, old(state), env, state.active.value, r.d,
                                               old(store.Contents()), store.Contents())
    {
      hide Sound, Backed, Punctual, Blank, Justified, NewOperationEnds, ToolCall.ValidArguments, Ended, Quiet, Tables.Extends;
      QuietSelf(journal.Contents());
      ExtendsSelf(store.Contents());
      ghost var w0, s0 := World(), state;
      CallFacts(w0, env, prompt);
      if !call.Known() { return Delivery(ToolDelivery(ErrorReply(UnknownTool), false)); }
      if !call.ValidArguments() { return Delivery(ToolDelivery(ErrorReply(InvalidArguments), false)); }
      var alive := true;
      if state.active.None? || state.active.value.callId != callId {
        if state.active.Some? && state.active.value.result.None? { return Raised; }
        alive := Start(call, callId, env, prompt);
      } else if state.active.value.call != call {
        return Raised;
      } else if state.active.value.result.Some? {
        return Delivery(state.active.value.result.value);
      } else if state.active.value.reserved != 0.0 {
        alive := ChargeReservation(env, prompt);
      }
      if !alive { return RunnerDied; }
      ghost var w1, s1 := journal.Contents(), state;
      r := AttemptLoop(call, env, prompt);
      QuietTransitive(w0.saved, w1, journal.Contents());
      if r.Delivery? && New(limits, s1) {
        NewOperationJustified(config, limits, call, s0, s1, env, state, r.d, w0.tables, store.Contents());
      }
    }

    /** A new operation is saved before anything is done for it. */
    method Start(call: ToolCall, callId: CallId, env: Env, ghost prompt: seq<Message>) returns (alive: bool)
      requires Valid() && worker.None? && Sound(World(), env, prompt) && ControlHolds(journal.state)
      requires journal.state.toolReserved && callId == journal.state.CurrentCall() && !InFlight(journal.state)
      requires call == journal.state.pending[journal.state.toolCursor] && call.Known() && call.ValidArguments()
      modifies this`state, journal
      ensures old(journal.fuel) <= journal.fuel + 1
      ensures Sound(World(), env, prompt) && Quiet(old(journal.Contents()), journal.Contents())
      ensures alive ==> Valid() && Ready() && New(limits, state) && state.active.value.call == call && state == old(state).(active := state.active)
      ensures !alive ==> journal.fuel == 0
    {
      hide Sound, Blank, ToolCall.ValidArguments;
      ghost var w0 := World();
      var op := Operation(Uuid(journal.issued), callId, call, 0, limits.operationSeconds, 0.0, None);
      NewOperationKeeps(w0, env, prompt);
      IssuedKeeps(w0, env, prompt);
      journal.issued := journal.issued + 1;
      var saved := Save(state.(active := Some(op)));
      assert !saved.Rejected?;
      alive := saved.Committed?;
    }

    /** No clock survives a crash: the whole reservation is charged. */
    method ChargeReservation(env: Env, ghost prompt: seq<Message>) returns (alive: bool)
      requires Valid() && worker.None? && Sound(World(), env, prompt) && InFlight(journal.state)
      requires state.active.value.result.None?
      modifies this`state, journal
      ensures old(journal.fuel) <= journal.fuel + 1
      ensures Sound(World(), env, prompt) && Quiet(old(journal.Contents()), journal.Contents())
      ensures alive ==> Valid() && Ready() && state == old(state).(active := Some(old(state.active.value).(
        remaining := old(state.active.value.remaining - state.active.value.reserved), reserved := 0.0)))
      ensures !alive ==> journal.fuel == 0
    {
      hide Sound;
      InFlightFacts(World(), env, prompt);
      var op := state.active.value;
      alive := Checkpoint(
        state.(active := Some(op.(remaining := Max(0.0, op.remaining - op.reserved), reserved := 0.0))), env, prompt);
    }

    /** The bounded attempts of `execute`, with backoff between them. */
    method AttemptLoop(call: ToolCall, env: Env, ghost prompt: seq<Message>) returns (r: Executed)
      requires Valid() && worker.None? && Sound(World(), env, prompt)
      requires Ready() && state.active.value.call == call && call.ValidArguments()
      modifies this`state, this`worker, journal, store, lock
      ensures old(journal.fuel) <= journal.fuel + 1 + 6 * (limits.Attempts(config.policy) - old(state.active.value.attempts))
      ensures Sound(World(), env, prompt) && Quiet(old(journal.Contents()), journal.Contents())
      ensures store.Contents().Extends(old(store.Contents()))
      ensures match r
        case Delivery(d) =>
          Valid() && worker.None? && state.active.Some? && Deliverable(journal.state, d) && Ended(journal.state, d)
        case RunnerDied => journal.fuel == 0
        case Raised => false
      ensures r.Delivery? ==>
        Justified(config, limits, call, old(state), state, env, r.d, old(store.Contents()), store.Contents())
    {
      hide Sound, Backed, Punctual, Blank, Deliverable, Tables.Extends, Quiet, Tried, Progress, Justified, ToolCall.ValidArguments;
      var maximum := limits.Attempts(config.policy);
      InFlightFacts(World(), env, prompt);
      QuietSelf(journal.Contents());
      ExtendsSelf(store.Contents());
      ghost var s0, t0 := state, store.Contents();
      ProgressStarts(config, limits, call, s0, env, t0);
      while state.active.value.attempts < maximum && state.totalAttempts < limits.totalAttempts
        invariant Valid() && worker.None? && Sound(World(), env, prompt)
        invariant Ready() && state.active.value.call == call && state.active.value.attempts <= maximum
        invariant Quiet(old(journal.Contents()), journal.Contents())
        invariant store.Contents().Extends(old(store.Contents()))
        invariant old(journal.fuel) + 6 * (maximum - state.active.value.attempts)
          <= journal.fuel + 6 * (maximum - old(state.active.value.attempts))
        invariant Progress(config, limits, call, s0, state, env, t0, store.Contents())
        decreases maximum - state.active.value.attempts
      {
        ghost var before, stored, was := journal.Contents(), store.Contents(), state;
        var ended := Round(call, env, prompt);
        QuietTransitive(old(journal.Contents()), before, journal.Contents());
        ExtendsTransitive(old(store.Contents()), stored, store.Contents());
        StoreIsValid(World(), env, prompt);
        if ended.None? {
          RoundGoesOn(config, limits, call, s0, was, env, state, t0, stored, store.Contents());
        } else {
          if ended.value.Delivery? {
            RoundDelivers(config, limits, call, s0, was, env, state, ended.value.d, t0, stored, store.Contents());
          }
          return ended.value;
        }
      }
      ghost var before, last := journal.Contents(), state;
      r := Finish(ExecutionLimit, env, prompt);
      QuietTransitive(old(journal.Contents()), before, journal.Contents());
      if r.Delivery? { LoopEnds(config, limits, call, s0, last, env, state, r.d, t0, store.Contents()); }
    }

    /** One round of the loop: backoff, budget check, attempt, verdict; None to go on. */
    method Round(call: ToolCall, env: Env, ghost prompt: seq<Message>) returns (r: Option<Executed>)
      requires Valid() && worker.None? && Sound(World(), env, prompt)
      requires Ready() && state.active.value.call == call
      requires state.active.value.attempts < limits.Attempts(config.policy) && state.totalAttempts < limits.totalAttempts
      modifies this`state, this`worker, journal, store, lock
      ensures old(journal.fuel) <= journal.fuel + (if r.None? then 6 else 7)
      ensures Sound(World(), env, prompt) && Quiet(old(journal.Contents()), journal.Contents())
      ensures store.Contents().Extends(old(store.Contents()))
      ensures r.None? ==>
        && Valid() && worker.None? && Ready() && state.active.value.call == call
        && state.active.value.attempts == old(state.active.value.attempts) + 1 < limits.Attempts(config.policy)
      ensures r.None? || r.value.Delivery? ==>
        Made(config, limits, call, old(state), env, state, if r.None? then None else Some(r.value.d), old(store.Contents()), store.Contents())
      ensures r.Some? ==>
        match r.value
        case Delivery(d) =>
          Valid() && worker.None? && state.active.Some? && Deliverable(journal.state, d) && Ended(journal.state, d)
        case RunnerDied => journal.fuel == 0
        case Raised => false
    {
      hide Sound, Backed, Punctual, Blank, Heard, Judged, InTime, FaultFor, Deliverable, Ended, Tables.Extends, Quiet;
      ghost var w0 := journal.Contents();
      ExtendsSelf(store.Contents());
      r := Rest(call, env, prompt);
      if r.Some? { return; }
      ghost var w1 := journal.Contents();
      QuietHolds(w0, w1);
      var alive, raw, failure := Attempt(call, env, prompt);
      QuietTransitive(w0, w1, journal.Contents());
      if !alive { return Some(RunnerDied); }
      w1 := journal.Contents();
      r := Judge(call, raw, failure, limits.Attempts(config.policy), env, prompt);
      QuietTransitive(w0, w1, journal.Contents());
    }

    /** Before an attempt: the backoff since the last one, and the check that there is time for another; None to go on. */
    method Rest(call: ToolCall, env: Env, ghost prompt: seq<Message>) returns (r: Option<Executed>)
      requires Valid() && worker.None? && Sound(World(), env, prompt)
      requires Ready() && state.active.value.call == call
      requires state.active.value.attempts < limits.Attempts(config.policy) && state.totalAttempts < limits.totalAttempts
      modifies this`state, journal
      ensures old(journal.fuel) <= journal.fuel + (if r.None? then 2 else 3)
      ensures Sound(World(), env, prompt) && Quiet(old(journal.Contents()), journal.Contents())
      ensures r.None? ==>
        && Valid() && Ready() && limits.graceSeconds < state.active.value.remaining
        && state == old(state).(active := Some(old(state.active.value).(remaining := state.active.value.remaining)))
      ensures old(state.active.value.attempts) == 0 || Punctual(env) ==>
        var rem := Left(limits, old(state.active.value));
        && (r.None? ==> state.active.value.remaining == rem)
        && (r.Some? && r.value.Delivery? ==> rem <= limits.graceSeconds)
      ensures r.Some? ==>
        match r.value
        case Delivery(d) => Valid() && state.active.Some? && Deliverable(journal.state, d) && Ended(journal.state, d)
        case RunnerDied => journal.fuel == 0
        case Raised => false
    {
      hide Sound, Punctual;
      var end := RunnerDied;
      InFlightFacts(World(), env, prompt);
      if state.active.value.attempts > 0 {
        var wait := limits.Backoff(state.active.value.attempts);
        if state.active.value.remaining <= wait + limits.graceSeconds {
          end := Finish(ExecutionLimit, env, prompt);
          return Some(end);
        }
        var rested := Backoff(wait, env, prompt);
        if !rested { return Some(RunnerDied); }
      }
      if state.active.value.remaining <= limits.graceSeconds {
        end := Finish(ExecutionLimit, env, prompt);
        return Some(end);
      }
      return None;
    }

    /** What one attempt's outcome means: an end of the operation, or, for a retryable failure with attempts
        left, None. */
    method Judge(call: ToolCall, raw: Option<Raw>, failed: ErrorCode, maximum: nat, env: Env, ghost prompt: seq<Message>)
      returns (r: Option<Executed>)
      requires Valid() && worker.None? && Sound(World(), env, prompt)
      requires Ready() && state.active.value.call == call && state.active.value.attempts > 0
      requires maximum == limits.Attempts(config.policy)
      requires raw.None? ==> failed.DeadlineExceeded? || failed.DeliveryError?
      requires raw.Some? && raw.value.Json? ==> Backed(call, raw.value.envelope, store.tasks)
      requires raw.Some? && raw.value.Json? && !raw.value.envelope.ok ==> Refuses(raw.value.envelope)
      modifies this`state, journal
      ensures old(journal.fuel) <= journal.fuel + 1
      ensures Sound(World(), env, prompt) && Quiet(old(journal.Contents()), journal.Contents())
      ensures r.None? ==> Valid() && Ready() && state == old(state) && journal.Contents() == old(journal.Contents())
      ensures r.None? ==> journal.fuel == old(journal.fuel) && state.active.value.attempts < maximum
      ensures r.None? || r.value.Delivery? ==>
        Judged(call, raw, failed, old(state.active.value.attempts) >= maximum, if r.None? then None else Some(r.value.d))
      ensures r.Some? ==>
        match r.value
        case Delivery(d) =>
          && Valid() && Deliverable(journal.state, d) && Ended(journal.state, d)
          && state == old(state).(active := Some(old(state.active.value).(result := Some(d))))
        case RunnerDied => journal.fuel == 0
        case Raised => false
    {
      hide Sound, Backed, Answers, Quiet, Deliverable, Punctual;
      QuietSelf(journal.Contents());
      var failure, end := failed, RunnerDied;
      if raw.Some? {
        var response := ValidateResponse(raw.value, call);
        if response.Failure? {
          end := Finish(InvalidResult, env, prompt);
          return Some(end);
        }
        if response.value.ok {
          end := Succeed(response.value, env, prompt);
          return Some(end);
        }
        failure := response.value.error.value;
      }
      if (!failure.TransientError? && !failure.DeliveryError? && !failure.DeadlineExceeded?) || state.active.value.attempts >= maximum {
        end := Finish(failure, env, prompt);
        return Some(end);
      }
      return None;
    }

    /** Save a validated reply as the operation's result. */
    method Succeed(response: Envelope, env: Env, ghost prompt: seq<Message>) returns (r: Executed)
      requires Valid() && worker.None? && Sound(World(), env, prompt)
      requires Ready() && Backed(state.active.value.call, response, store.tasks)
      modifies this`state, journal
      ensures old(journal.fuel) <= journal.fuel + 1
      ensures Sound(World(), env, prompt) && Quiet(old(journal.Contents()), journal.Contents())
      ensures match r
        case Delivery(d) =>
          && d == ToolDelivery(response, true) && Valid() && Deliverable(journal.state, d)
          && state == old(state).(active := Some(old(state.active.value).(result := Some(d))))
        case RunnerDied => journal.fuel == 0
        case Raised => false
    {
      hide Sound, Backed;
      InFlightFacts(World(), env, prompt);
      var result := ToolDelivery(response, true);
      var alive := Checkpoint(state.(active := Some(state.active.value.(result := Some(result)))), env, prompt);
      return if alive then Delivery(result) else RunnerDied;
    }
  }
}
