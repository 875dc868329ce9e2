/** boundaries.py: one experiment's resumable steps. Each saved checkpoint and each transaction of the
    authorization database is one durable step, and the process may die before any of them. */
module Boundaries {
  import opened Wrappers
  import opened Records
  import opened Permissions
  import opened Agent
  import opened ContextEvaluation
  import opened OperationNames

  // ---- Records (boundary_records.py) -----------------------------------------

  datatype Case =
    | ManualApproval | ApprovedGrant | MissingGrant | RejectedGrant | ExpiredGrant | ChangedArguments
    | ChangedRevision | CrossOperation | ReplayedWrite | ContextCase(staleApproval: bool)

  datatype BoundaryConfig = BoundaryConfig(scenario: Case, enforce: bool, enforceScan: bool, refresh: bool)

  datatype Status = Running | AwaitingApproval | BlockedByScan | Done | Error

  datatype BoundaryState = BoundaryState(
    runId: string, config: BoundaryConfig, expectedTitle: string, scanBlocked: bool, context: Option<Setup>,
    messages: seq<Message>, status: Status, pending: seq<ToolCall>, cursor: nat, reserved: bool,
    operation: Option<string>, configured: seq<string>,
    modelCalls: nat, toolCalls: nat, toolExecutions: nat, terminal: Option<RunResult>)
  {
    /** The validator a checkpoint must pass before it is saved. */
    predicate Consistent() {
      && modelCalls <= 6 && toolCalls <= 6 && toolExecutions <= 6
      && (context.Some? <==> config.scenario.ContextCase?)
      && (context.Some? ==> context.value.expectedTitle == expectedTitle)
      && cursor <= |pending| && toolExecutions <= toolCalls
      && (reserved ==> cursor < |pending| && operation.Some? && operation.value != "")
      && (status.AwaitingApproval? ==> reserved)
      && (status.Done? <==> terminal.Some?)
    }
  }

  datatype Node = ModelNode | ToolsNode | TerminalNode

  datatype Event =
    | ModelRequested | ModelReturned(turn: ModelTurn) | AssistantCheckpoint | AuthoritativeRefresh
    | ToolRequested(operation: string, call: ToolCall) | ToolReturned(operation: string, result: ToolResult)
    | ScenarioApplied(operation: string) | ScopedGrant(operation: string, stale: bool)
    | ApprovalWaiting(operation: string) | ApprovalDecided(operation: string)
    | WriteAttempted(operation: string, title: string)
    | WriteReturned(operation: string, decision: WriteDecision)
    | WriteReplayed(operation: string, task: Option<Task>)
    | ReferenceRequested | ContextBlocked | AuthoritativeRead
    | RunStopped | RunResumed | HarnessError | RuntimeNode(node: Node)

  /** What is arbitrary: the model, the clock, and how the current request is put into words. */
  datatype Env = Env(client: Client, clock: nat -> real, describe: ToolValue -> string)

  /** The durable state of a run and the process that works on it. `fuel` is the number of durable steps the
      process still survives; with none left it has died and changes nothing more. `raised` says that an
      exception is on its way to the driver. `drawn` counts the clock readings and identifiers drawn. */
  datatype World = World(
    state: BoundaryState, events: seq<Event>, authority: Authority, fuel: nat, raised: bool, drawn: nat)
  {
    predicate Live() { fuel > 0 && !raised }
  }

  // ---- Durable steps; every function bounds how many it takes -------------------

  function Raise(w: World): (r: World)
    ensures r.fuel <= w.fuel <= r.fuel
  {
    if w.fuel == 0 then w else w.(raised := true)
  }

  /** `BoundaryJournal.save`: the event and the validated checkpoint, in one transaction. */
  function Saved(w: World, event: Event, next: BoundaryState): (r: World)
    ensures r.fuel <= w.fuel <= r.fuel + 1
  {
    if !w.Live() then w
    else if !next.Consistent() then Raise(w)
    else w.(state := next, events := w.events + [event], fuel := w.fuel - 1)
  }

  predicate Refused(t: Authority, step: Step) {
    match step
    case Propose(op, title) => Proposed(t, op, title).0.Failure?
    case Decide(op, approve, ttl, now) => Decided(t, op, approve, ttl, now).0.Failure?
    case ChangeRevision => false
    case Write(op, title, enforce, now, id) => Written(t, op, title, enforce, now, id).0.Failure?
    case ConfigureRequest(title, allowed, revision) => Configured(t, title, allowed, revision).0.Failure?
    case AddSeed(seed) => Seeded(t, seed).0.Failure?
    case ScenarioGrant(op, stale, now, done) => ScenarioGranted(t, op, stale, now, done).0.Failure?
  }

  /** One transaction of the authorization database; a refusal raises and changes nothing. */
  function Transacted(w: World, step: Step): (r: World)
    ensures r.fuel <= w.fuel <= r.fuel + 1
  {
    if !w.Live() then w
    else w.(authority := Apply(w.authority, step), fuel := w.fuel - 1, raised := Refused(w.authority, step), drawn := w.drawn + 1)
  }

  // ---- Approval scenarios --------------------------------------------------------

  function Waits(scenario: Case): bool { scenario.ManualApproval? || scenario.MissingGrant? || scenario.CrossOperation? }

  /** `_configure_proposal` and `configure_grant`: the scenario's decision about one operation, made once. */
  function ScenarioConfigured(w: World, op: string, env: Env): (r: World)
    ensures r.fuel <= w.fuel <= r.fuel + 3
  {
    var s := w.state;
    if !w.Live() || op in s.configured then w
    else if op !in w.authority.proposals then Raise(w)
    else
      Saved(ScenarioTransacted(w, op, env), if s.context.Some? then ScopedGrant(op, Stale(s, w.authority, op)) else ScenarioApplied(op),
            s.(configured := s.configured + [op]))
  }

  predicate Stale(s: BoundaryState, t: Authority, op: string)
    requires op in t.proposals
  {
    s.config.scenario == ContextCase(true) && s.context.Some? && t.proposals[op].title == s.context.value.cachedTitle
  }

  /** The transactions of a scenario, each skipped when an interrupted attempt has already made it. */
  function ScenarioTransacted(w: World, op: string, env: Env): (r: World)
    requires op in w.authority.proposals
    ensures r.fuel <= w.fuel <= r.fuel + 2
  {
    var s := w.state;
    if s.context.Some? then ScenarioGrantMade(w, op, Stale(s, w.authority, op), env)
    else
      var w1 := ScenarioDecided(w, op, env);
      var w2 := if s.config.scenario.CrossOperation? then OtherApproved(w1, op, w.authority.proposals[op].title, env) else w1;
      if s.config.scenario.ChangedRevision? && w2.authority.policyRevision == w.authority.proposals[op].policyRevision
      then Transacted(w2, ChangeRevision) else w2
  }

  /** The decision itself, unless the scenario leaves it to somebody else or it was made before. */
  function ScenarioDecided(w: World, op: string, env: Env): (r: World)
    requires op in w.authority.proposals
    ensures r.fuel <= w.fuel <= r.fuel + 1
  {
    if Waits(w.state.config.scenario) || !w.authority.proposals[op].decision.Pending? then w
    else
      Transacted(w, Decide(op, !w.state.config.scenario.RejectedGrant?, ScenarioTtl(w.state.config.scenario), env.clock(w.drawn)))
  }

  function ScenarioTtl(scenario: Case): real { if scenario.ExpiredGrant? then 0.001 else 300.0 }

  /** A second operation with the same title is proposed and approved. */
  function OtherApproved(w: World, op: string, title: string, env: Env): (r: World)
    ensures r.fuel <= w.fuel <= r.fuel + 2
  {
    var w1 := Transacted(w, Propose(Other(op), title));
    if w1.Live() && Other(op) in w1.authority.proposals && w1.authority.proposals[Other(op)].decision.Pending?
    then Transacted(w1, Decide(Other(op), true, 300.0, env.clock(w1.drawn))) else w1
  }

  /** `scenario_grant` is up to two transactions. */
  function ScenarioGrantMade(w: World, op: string, stale: bool, env: Env): (r: World)
    ensures r.fuel <= w.fuel <= r.fuel + 2
  {
    if !w.Live() then w
    else
      var grant := ScenarioGrant(op, stale, env.clock(w.drawn), w.fuel);
      var transactions := GrantTransactions(w.authority, op, stale);
      w.(authority := Apply(w.authority, grant), fuel := if w.fuel < transactions then 0 else w.fuel - transactions,
         raised := Refused(w.authority, grant), drawn := w.drawn + 1)
  }

  function GrantTransactions(t: Authority, op: string, stale: bool): nat {
    if t.policy.None? || op !in t.proposals || !t.proposals[op].decision.Pending? then 0 else if stale then 2 else 1
  }

  // ---- tool_step -----------------------------------------------------------------

  /** `_finish` */
  function Finish(w: World, status: ExecutionStatus, content: Option<Content>, error: Option<StopReason>): (r: World)
    ensures r.fuel <= w.fuel <= r.fuel + 1
  {
    var s := w.state;
    var result := RunResult(status, content, s.modelCalls, s.toolCalls, s.toolExecutions, error);
    Saved(w, RunStopped, s.(status := Done, terminal := Some(result)))
  }

  function CurrentOperation(s: BoundaryState): string {
    if s.reserved && s.operation.Some? then s.operation.value else OperationId(s.runId, s.modelCalls, s.cursor)
  }

  function WrittenTitle(scenario: Case, title: string): string {
    if scenario.ChangedArguments? then title + " changed" else title
  }

  function Denial(error: ToolError, executed: bool): ToolResult { ToolResult(false, NoValue, Some(error), executed) }

  /** The create branch: propose, let the scenario decide, perhaps wait for an operator, then write. */
  function CreatePerformed(w: World, op: string, title: string, env: Env): (r: (ToolResult, World))
    ensures r.1.fuel <= w.fuel <= r.1.fuel + 9
  {
    var none := Denial(InvalidToolArguments, false);
    var w1 := ScenarioConfigured(Transacted(w, Propose(op, title)), op, env);
    if !w1.Live() then (none, w1)
    else if op !in w1.authority.proposals then (none, Raise(w1))
    else
      var s := w1.state;
      if s.config.scenario.ManualApproval? && w1.authority.proposals[op].decision.Pending? && s.config.enforce then
        (none, Saved(w1, ApprovalWaiting(op), s.(status := AwaitingApproval)))
      else
        WritePerformed(w1, op, WrittenTitle(s.config.scenario, title), env)
  }

  function WriteStep(w: World, op: string, title: string, env: Env): Step {
    Write(op, title, w.state.config.enforce, env.clock(w.drawn), Uuid(w.drawn))
  }

  function WritePerformed(w: World, op: string, title: string, env: Env): (r: (ToolResult, World))
    ensures r.1.fuel <= w.fuel <= r.1.fuel + 5
  {
    var w1 := Saved(w, WriteAttempted(op, title), w.state);
    var write := WriteStep(w1, op, title, env);
    var written := Written(w1.authority, op, title, write.enforce, write.now, write.id).0;
    var w2 := Transacted(w1, write);
    if !w2.Live() || written.Failure? then (Denial(InvalidToolArguments, false), w2)
    else
      var decision := written.value;
      var w3 := Saved(w2, WriteReturned(op, decision), w2.state);
      var w4 := if w.state.config.scenario.ReplayedWrite? && decision.task.Some? then WriteRepeated(w3, op, title, env) else w3;
      (if decision.task.Some? then ToolResult(true, TaskValue(decision.task.value), None, true)
       else Denial(PermissionDenied(decision.reason), false), w4)
  }

  function WriteRepeated(w: World, op: string, title: string, env: Env): (r: World)
    ensures r.fuel <= w.fuel <= r.fuel + 2
  {
    var write := WriteStep(w, op, title, env);
    var written := Written(w.authority, op, title, write.enforce, write.now, write.id).0;
    var w1 := Transacted(w, write);
    if written.Failure? then w1 else Saved(w1, WriteReplayed(op, written.value.task), w1.state)
  }

  /** The lookup branch; a reference document may be withheld or replaced by the experiment's payload. */
  function GetPerformed(w: World, id: string): (r: (ToolResult, World))
    ensures r.1.fuel <= w.fuel <= r.1.fuel + 2
  {
    var t := w.authority.tasks;
    var found := ToolResult(true, if id in t then TaskValue(Task(id, t[id])) else NoValue, None, true);
    if w.state.context.Some? then ReferenceDelivered(w, w.state.context.value, id, found) else (found, w)
  }

  /** `deliver_reference` */
  function ReferenceDelivered(w: World, setup: Setup, id: string, found: ToolResult): (r: (ToolResult, World))
    ensures r.1.fuel <= w.fuel <= r.1.fuel + 2
  {
    if !setup.milestone.M12? || setup.surface.SkillSurface? || id != SourceId then (found, w)
    else
      var w1 := Saved(w, ReferenceRequested, w.state);
      if w.state.scanBlocked && w.state.config.enforceScan then
        (Denial(ReferenceUnavailable, true), Saved(w1, ContextBlocked, w1.state))
      else if !found.value.TaskValue? then (found, w1)
      else if setup.surface.TaskSurface? && found.value.task.title != setup.payload then (found, Raise(w1))
      else (found.(value := TaskValue(found.value.task.(title := setup.payload))), w1)
  }

  function RequestRead(w: World): (r: (ToolResult, World))
    ensures r.1.fuel <= w.fuel <= r.1.fuel + 1
  {
    var t := w.authority;
    if t.policy.None? then (Denial(InvalidToolArguments, false), Raise(w))
    else
      (ToolResult(true, RequestState(t), None, true), Saved(w, AuthoritativeRead, w.state))
  }

  function RequestState(t: Authority): ToolValue
    requires t.policy.Some?
  {
    RequestValue(t.expectedTitle, t.requestRevision, t.policyRevision, t.policy.value)
  }

  function Performed(w: World, op: string, call: ToolCall, env: Env): (r: (ToolResult, World))
    ensures r.1.fuel <= w.fuel <= r.1.fuel + 9
  {
    match call.name
    case CreateTask =>
      if call.ValidArguments() then CreatePerformed(w, op, call.arguments.title, env)
      else (Denial(InvalidToolArguments, false), w)
    case GetTask =>
      if call.ValidArguments() then GetPerformed(w, call.arguments.taskId)
      else (Denial(InvalidToolArguments, false), w)
    case GetRequestState =>
      if w.state.context.None? || !w.state.context.value.milestone.M13? then (Denial(UnknownToolName, false), w)
      else if !call.arguments.NoArguments? then (Denial(InvalidToolArguments, false), w)
      else RequestRead(w)
    case OtherTool(_) => (Denial(UnknownToolName, false), w)
  }

  function Reserved(s: BoundaryState): BoundaryState {
    s.(reserved := true, operation := Some(CurrentOperation(s)), toolCalls := s.toolCalls + 1)
  }

  function Replied(s: BoundaryState, op: string, name: ToolName, r: ToolResult): BoundaryState {
    s.(messages := s.messages + [OperationReply(op, name, r)], cursor := s.cursor + 1, reserved := false,
       operation := None, toolExecutions := s.toolExecutions + if r.executed then 1 else 0)
  }

  /** `tool_step`: the pending call, charged once however often it is tried. */
  function ToolStepped(w: World, env: Env): (r: World)
    requires w.state.cursor < |w.state.pending|
    ensures r.fuel <= w.fuel <= r.fuel + 11
  {
    var s := w.state;
    var call, op := s.pending[s.cursor], CurrentOperation(s);
    if !s.reserved && s.toolCalls >= 6 then Finish(w, ToolLimit, None, Some(ToolBudget))
    else
      var w1 := if s.reserved then w else Saved(w, ToolRequested(op, call), Reserved(s));
      var (r, w2) := Performed(w1, op, call, env);
      if w2.state.status.AwaitingApproval? then w2
      else Saved(w2, ToolReturned(op, r), Replied(w2.state, op, call.name, r))
  }

  // ---- model_step ------------------------------------------------------------------

  /** `before_model`: under the refresh policy the current request is told again. */
  function Refreshed(w: World, env: Env): (r: World)
    ensures r.fuel <= w.fuel <= r.fuel + 1
  {
    var s, t := w.state, w.authority;
    if s.context.None? || !s.config.refresh then w
    else if t.policy.None? then Raise(w)
    else Saved(w, AuthoritativeRefresh, s.(messages := s.messages + [System(Plain(env.describe(RequestState(t))))]))
  }

  function ModelStepped(w: World, env: Env): (r: World)
    ensures r.fuel <= w.fuel <= r.fuel + 4
  {
    if w.state.modelCalls >= 6 then Finish(w, ModelLimit, None, Some(ModelBudget))
    else
      var w1 := Refreshed(w, env);
      var w2 := Saved(w1, ModelRequested, w1.state.(modelCalls := w1.state.modelCalls + 1));
      var s := w2.state;
      AnswerTaken(w2, env.client(s.messages, s.modelCalls))
  }

  /** What the model's answer leads to: an end of the run, or pending calls saved before any is executed. */
  function AnswerTaken(w: World, answer: ClientReply): (r: World)
    ensures r.fuel <= w.fuel <= r.fuel + 2
  {
    var s := w.state;
    match answer
    case ProviderError(error) => Finish(w, ProviderFailed, None, Some(Provider(error)))
    case Answered(turn) =>
      var w1 := Saved(w, ModelReturned(turn), s);
      if turn.truncated then Finish(w1, ProtocolError, Some(turn.content), Some(OutputLimit))
      else if turn.calls == [] then
        if turn.content.Empty() then Finish(w1, ProtocolError, Some(turn.content), Some(EmptyResponse))
        else Finish(w1, Finished, Some(turn.content), None)
      else
        Saved(w1, AssistantCheckpoint, s.(
          messages := s.messages + [Assistant(turn.content, turn.calls)], pending := turn.calls, cursor := 0))
  }
}
