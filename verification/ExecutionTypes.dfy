/** execution_types.py: process cases, limits and the durable record of one operation. */
module ExecutionTypes {
  import opened Wrappers
  import opened Records

  type Seconds = r: real | r >= 0.0

  datatype ProcessCase =
    | ProcessHealthy | TransientOnce | TransientTwice | TransientAlways | PermanentError
    | DelayBeforeWrite | DelayAfterCommit | IgnoreTermination | ExitBeforeReply | MalformedWorker | RestartHealthy

  datatype ProcessPolicy = ProcessSingle | BoundedRetry | Observe | Terminate

  function PoliciesFor(c: ProcessCase): set<ProcessPolicy> {
    if c.DelayBeforeWrite? || c.DelayAfterCommit? || c.IgnoreTermination?
    then {Observe, Terminate} else {ProcessSingle, BoundedRetry}
  }

  datatype ProcessConfig = ProcessConfig(case_: ProcessCase, policy: ProcessPolicy)
  {
    predicate Supported() { policy in PoliciesFor(case_) }
  }

  datatype ExecutionLimits = ExecutionLimits(
    attemptSeconds: real, operationSeconds: real, maxAttempts: int,
    backoff0: real, backoff1: real, graceSeconds: real, totalAttempts: int, delaySeconds: real)
  {
    /** The field bounds and `valid_backoff`. */
    predicate Valid() {
      && 0.0 < attemptSeconds <= 2.0 && 0.0 < operationSeconds <= 8.0 && 1 <= maxAttempts <= 3
      && 0.0 <= backoff0 <= 0.2 && 0.0 <= backoff1 <= 0.2
      && 0.0 < graceSeconds <= 0.5 && 1 <= totalAttempts <= 18 && 0.0 < delaySeconds <= 3.0
    }

    function Backoff(attempts: nat): real { if attempts <= 1 then backoff0 else backoff1 }

    /** The attempts one operation may use under a policy. */
    function Attempts(policy: ProcessPolicy): int { if policy.BoundedRetry? then maxAttempts else 1 }
  }

  datatype Operation = Operation(
    operationId: string, callId: CallId, call: ToolCall, attempts: nat,
    remaining: real, reserved: real, result: Option<ToolDelivery>)

  datatype ExecutionState = ExecutionState(totalAttempts: nat, faultCursor: nat, active: Option<Operation>)

  datatype WorkerFault =
    | NoFault | Transient | Permanent | DelayBefore | DelayAfter | IgnoreTerm | Exit | Malformed

  /** `Supervisor.fault_for`. */
  function FaultFor(config: ProcessConfig, faultCursor: nat, call: ToolCall): WorkerFault {
    if !call.name.CreateTask? then NoFault
    else match config.case_
      case TransientAlways => Transient
      case TransientOnce => if faultCursor < 1 then Transient else NoFault
      case TransientTwice => if faultCursor < 2 then Transient else NoFault
      case PermanentError => if faultCursor > 0 then NoFault else Permanent
      case DelayBeforeWrite => if faultCursor > 0 then NoFault else DelayBefore
      case DelayAfterCommit => if faultCursor > 0 then NoFault else DelayAfter
      case IgnoreTermination => if faultCursor > 0 then NoFault else IgnoreTerm
      case ExitBeforeReply => if faultCursor > 0 then NoFault else Exit
      case MalformedWorker => if faultCursor > 0 then NoFault else Malformed
      case ProcessHealthy => NoFault
      case RestartHealthy => NoFault
  }

  function Min(a: real, b: real): real { if a <= b then a else b }
  function Max(a: real, b: real): real { if a >= b then a else b }
}
