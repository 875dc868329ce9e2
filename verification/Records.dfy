/** Messages, tool calls and response contracts shared by every runner
    (model.py, tools.py, contracts.py, claims.py). JSON is modelled after parsing. */
module Records {
  import opened Wrappers

  // ---- Strings -------------------------------------------------------------

  /** The characters Python's `str.strip` removes. */
  predicate IsSpace(c: char) {
    var n := c as int;
    || 9 <= n <= 13 || 28 <= n <= 32 || n == 0x85 || n == 0xA0 || n == 0x1680
    || 0x2000 <= n <= 0x200A || n == 0x2028 || n == 0x2029 || n == 0x202F || n == 0x205F || n == 0x3000
  }

  predicate Blank(s: string) {
    forall i | 0 <= i < |s| :: IsSpace(s[i])
  }

  /** The n-th identifier of a supply that never repeats one, standing for `uuid4`. */
  function Uuid(n: nat): (id: string)
    ensures |id| == n + 1 && !Blank(id)
  {
    var id := seq(n + 1, _ => 'u');
    assert !IsSpace(id[0]);
    id
  }

  // ---- Tasks and tool calls ------------------------------------------------

  datatype Task = Task(id: string, title: string)

  datatype ToolName = CreateTask | GetTask | GetRequestState | OtherTool(name: string)

  /** A call's argument object: exactly one string field, none, or some other JSON value. */
  datatype Arguments = TitleArgument(title: string) | IdArgument(taskId: string) | NoArguments | OtherJson(raw: string)

  datatype ToolCall = ToolCall(name: ToolName, arguments: Arguments)
  {
    predicate Known() { name.CreateTask? || name.GetTask? }

    predicate ValidArguments() {
      match name
      case CreateTask => arguments.TitleArgument? && !Blank(arguments.title)
      case GetTask => arguments.IdArgument? && !Blank(arguments.taskId)
      case _ => false
    }
  }

  // ---- Responses -----------------------------------------------------------

  datatype ErrorCode =
    | InvalidArguments | UnknownTool | StorageError | InvalidResult | DeliveryError
    | OperationConflict | TransientError | DeadlineExceeded | ExecutionLimit

  datatype Envelope = Envelope(ok: bool, value: Option<Task>, error: Option<ErrorCode>)
  {
    predicate Consistent() {
      && (ok ==> error.None?)
      && (!ok ==> error.Some? && value.None?)
      && (value.Some? ==> !Blank(value.value.id) && !Blank(value.value.title))
    }
  }

  function ErrorReply(code: ErrorCode): Envelope { Envelope(false, None, Some(code)) }

  /** The bytes of a reply, by what parsing makes of them. */
  datatype Raw = NotJson | NotEnvelope | Json(envelope: Envelope)

  datatype Stage = Syntax | Schema | Request

  /** A response that agrees with the request it answers. */
  predicate Answers(response: Envelope, call: ToolCall) {
    && response.Consistent()
    && (response.ok ==>
      match call.name
      case CreateTask => call.ValidArguments() && response.value.Some? && response.value.value.title == call.arguments.title
      case GetTask => call.ValidArguments() && (response.value.Some? ==> response.value.value.id == call.arguments.taskId)
      case _ => false)
  }

  /** `validate_response`: the first of three stages that rejects the bytes, or the envelope. */
  function ValidateResponse(raw: Raw, call: ToolCall): (r: Result<Envelope, Stage>)
    ensures r.Success? <==> raw.Json? && Answers(raw.envelope, call)
    ensures r.Success? ==> r.value == raw.envelope
    ensures r == Failure(Syntax) <==> raw.NotJson?
    ensures r == Failure(Request) ==> raw.Json? && raw.envelope.Consistent() && raw.envelope.ok
  {
    match raw
    case NotJson => Failure(Syntax)
    case NotEnvelope => Failure(Schema)
    case Json(e) =>
      if !e.Consistent() then Failure(Schema)
      else if !e.ok then Success(e)
      else match call.name
        case CreateTask =>
          if !call.ValidArguments() || e.value.None? || e.value.value.title != call.arguments.title
          then Failure(Request) else Success(e)
        case GetTask =>
          if !call.ValidArguments() || (e.value.Some? && e.value.value.id != call.arguments.taskId)
          then Failure(Request) else Success(e)
        case _ => Failure(Request)
  }

  /** The replies that are accepted: a bare error code; for a create of a usable title, a task of just that title under
      a usable id; for a lookup of a usable id, nothing, or a usable task of just that id. */
  lemma AcceptedReplies(raw: Raw, call: ToolCall)
    ensures ValidateResponse(raw, call).Success? <==>
      || (exists code :: raw == Json(Envelope(false, None, Some(code))))
      || (exists id, title :: call == ToolCall(CreateTask, TitleArgument(title)) && !Blank(title) && !Blank(id)
            && raw == Json(Envelope(true, Some(Task(id, title)), None)))
      || (exists id :: call == ToolCall(GetTask, IdArgument(id)) && !Blank(id)
            && (raw == Json(Envelope(true, None, None))
                || exists title :: !Blank(title) && raw == Json(Envelope(true, Some(Task(id, title)), None))))
  {
    if raw.Json? && raw.envelope.Consistent() {
      var e := raw.envelope;
      if !e.ok {
        assert e == Envelope(false, None, Some(e.error.value));
      } else if e.value.Some? {
        assert e == Envelope(true, Some(Task(e.value.value.id, e.value.value.title)), None);
      }
    }
  }

  datatype ToolDelivery = ToolDelivery(content: Envelope, executed: bool)

  // ---- Boundary-runner results ---------------------------------------------

  datatype Decision = Pending | Approved | Rejected

  /** Why a write was or was not admitted. */
  datatype Reason =
    | Granted | Mismatch | RevisionChanged | NotApproved(decision: Decision) | NoInterval | OutsideInterval
    | AlreadyConsumed | OutOfScope | CommittedReplay

  datatype ToolError = InvalidToolArguments | UnknownToolName | PermissionDenied(reason: Reason) | ReferenceUnavailable | StorageFailed

  datatype ToolValue =
    | NoValue
    | TaskValue(task: Task)
    | RequestValue(title: string, requestRevision: int, policyRevision: int, writeAllowed: bool)

  /** `executed` says that a validated operation was entered. */
  datatype ToolResult = ToolResult(ok: bool, value: ToolValue, error: Option<ToolError>, executed: bool)

  // ---- Conversation --------------------------------------------------------

  /** `m{turn}-t{index}` of the agent loops, or a name given by another caller. */
  datatype CallId = TurnCall(turn: nat, index: nat) | NamedCall(name: string)

  datatype ClaimStatus = Completed | NotCompleted | Unknown

  datatype TerminalClaim = TerminalClaim(status: ClaimStatus, taskId: Option<string>)
  {
    predicate Valid() {
      if status.Completed? then taskId.Some? && !Blank(taskId.value) else taskId.None?
    }
  }

  /** Assistant text: a JSON object with the fields of a claim, or anything else. */
  datatype Content = Plain(text: string) | ClaimJson(claim: TerminalClaim)
  {
    predicate Empty() { Plain? && Blank(text) }
  }

  /** A tool message answers a call of an agent loop, or an operation of the boundary runner. */
  datatype Message =
    | System(content: Content)
    | User(content: Content)
    | Assistant(content: Content, calls: seq<ToolCall>)
    | Tool(callId: CallId, toolName: ToolName, reply: Envelope)
    | OperationReply(operation: string, toolName: ToolName, result: ToolResult)

  /** `truncated` is `finish_reason == "length"`. */
  datatype ModelTurn = ModelTurn(content: Content, calls: seq<ToolCall>, truncated: bool)

  datatype ExecutionStatus = Finished | ModelLimit | ToolLimit | ProviderFailed | ProtocolError

  datatype StopReason = ModelBudget | ToolBudget | Provider(error: string) | OutputLimit | EmptyResponse

  datatype RunResult = RunResult(
    status: ExecutionStatus, finalContent: Option<Content>,
    modelCalls: nat, toolCalls: nat, toolExecutions: nat, error: Option<StopReason>)
}
