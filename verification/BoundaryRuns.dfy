/** The boundary runner itself, and everything that can happen to one of its runs. */
module BoundaryRuns {
  import opened Wrappers
  import opened Records
  import opened Tasks
  import opened Permissions
  import opened Agent
  import opened Evaluation
  import opened BoundaryEvaluation
  import opened ContextEvaluation
  import opened OperationNames
  import opened Boundaries
  import opened BoundaryInvariant
  import opened LanggraphRuntime
  import opened BoundaryReplies
  import opened BoundaryEndings

  /** boundary_records.py: the checkpoint and the event log, written together. */
  class BoundaryJournal {
    var state: BoundaryState
    var events: seq<Event>
    var fuel: nat

    constructor (initial: BoundaryState)
      ensures state == initial && events == []
    {
      state, events, fuel := initial, [], 0;
    }

    /** `save`; false when the checkpoint does not pass its validator. */
    method Save(event: Event, next: BoundaryState) returns (accepted: bool)
      requires fuel > 0
      modifies this
      ensures accepted <==> next.Consistent()
      ensures accepted ==> state == next && events == old(events) + [event] && fuel == old(fuel) - 1
      ensures !accepted ==> state == old(state) && events == old(events) && fuel == old(fuel)
    {
      if !next.Consistent() { return false; }
      state, events, fuel := next, events + [event], fuel - 1;
      return true;
    }
  }

  class Runner {
    const journal: BoundaryJournal
    const store: PermissionStore
    var raised: bool
    var drawn: nat

    ghost function World(): Boundaries.World
      reads this, journal, store
    {
      Boundaries.World(journal.state, journal.events, store.Contents(), journal.fuel, raised, drawn)
    }

    constructor (journal: BoundaryJournal, store: PermissionStore)
      ensures this.journal == journal && this.store == store && !raised && drawn == |SourceId|
    {
      this.journal, this.store, raised, drawn := journal, store, false, |SourceId|;
    }

    predicate Alive()
      reads this, journal
    {
      journal.fuel > 0 && !raised
    }

    // ---- Durable steps ------------------------------------------------------------

    method Raise()
      modifies this
      ensures World() == Boundaries.Raise(old(World()))
    {
      raised := raised || journal.fuel > 0;
    }

    method Save(event: Event, next: BoundaryState)
      modifies this, journal
      ensures World() == Saved(old(World()), event, next)
    {
      if !Alive() { return; }
      var accepted := journal.Save(event, next);
      raised := !accepted;
    }

    /** What every transaction costs its process. */
    method Spend(refused: bool)
      requires Alive()
      modifies this, journal`fuel
      ensures journal.fuel == old(journal.fuel) - 1 && drawn == old(drawn) + 1 && raised == refused
    {
      journal.fuel, drawn, raised := journal.fuel - 1, drawn + 1, refused;
    }

    method Propose(op: string, title: string)
      modifies this, journal, store
      ensures World() == Transacted(old(World()), Step.Propose(op, title))
    {
      if !Alive() { return; }
      var r := store.Propose(op, title);
      Spend(r.Failure?);
    }

    method Decide(op: string, approve: bool, ttl: real, now: real)
      modifies this, journal, store
      ensures World() == Transacted(old(World()), Step.Decide(op, approve, ttl, now))
    {
      if !Alive() { return; }
      var r := store.Decide(op, approve, ttl, now);
      Spend(r.Failure?);
    }

    method ChangeRevision()
      modifies this, journal, store
      ensures World() == Transacted(old(World()), Step.ChangeRevision)
    {
      if !Alive() { return; }
      store.ChangeRevision();
      Spend(false);
    }

    method WriteTask(op: string, title: string, env: Env) returns (r: Result<WriteDecision, Refusal>)
      modifies this, journal, store
      ensures World() == Transacted(old(World()), WriteStep(old(World()), op, title, env))
      ensures var step := WriteStep(old(World()), op, title, env);
        old(Alive()) ==> r == Written(old(store.Contents()), op, title, step.enforce, step.now, step.id).0
      ensures !old(Alive()) ==> r.Failure?
    {
      if !Alive() { return Failure(Integrity); }
      r := store.Write(op, title, journal.state.config.enforce, env.clock(drawn), Uuid(drawn));
      Spend(r.Failure?);
    }

    // ---- Approval scenarios --------------------------------------------------------

    method ApproveOther(op: string, title: string, env: Env)
      modifies this, journal, store
      ensures World() == OtherApproved(old(World()), op, title, env)
    {
      Propose(Other(op), title);
      if Alive() && Other(op) in store.proposals && store.proposals[Other(op)].decision.Pending? {
        Decide(Other(op), true, 300.0, env.clock(drawn));
      }
    }

    method GrantScenario(op: string, stale: bool, env: Env)
      modifies this, journal, store
      ensures World() == ScenarioGrantMade(old(World()), op, stale, env)
    {
      if !Alive() { return; }
      var transactions := GrantTransactions(store.Contents(), op, stale);
      var r := store.ScenarioGrant(op, stale, env.clock(drawn), journal.fuel);
      journal.fuel := if journal.fuel < transactions then 0 else journal.fuel - transactions;
      drawn, raised := drawn + 1, r.Failure?;
    }

    /** `_configure_proposal` and `configure_grant` */
    method ConfigureProposal(op: string, env: Env)
      modifies this, journal, store
      ensures World() == ScenarioConfigured(old(World()), op, env)
    {
      hide Apply, Refused, BoundaryState.Consistent;
      var s := journal.state;
      if !Alive() || op in s.configured { return; }
      if op !in store.proposals { Raise(); return; }
      var proposal := store.proposals[op];
      if s.context.Some? {
        var stale := s.config.scenario == ContextCase(true) && proposal.title == s.context.value.cachedTitle;
        GrantScenario(op, stale, env);
        Save(ScopedGrant(op, stale), s.(configured := s.configured + [op]));
        return;
      }
      if !Waits(s.config.scenario) && proposal.decision.Pending? {
        Decide(op, !s.config.scenario.RejectedGrant?, ScenarioTtl(s.config.scenario), env.clock(drawn));
      }
      if s.config.scenario.CrossOperation? { ApproveOther(op, proposal.title, env); }
      if s.config.scenario.ChangedRevision? && store.policyRevision == proposal.policyRevision { ChangeRevision(); }
      Save(ScenarioApplied(op), s.(configured := s.configured + [op]));
    }

    // ---- tool_step -------------------------------------------------------------------

    method Stop(status: ExecutionStatus, content: Option<Content>, error: Option<StopReason>)
      modifies this, journal
      ensures World() == Finish(old(World()), status, content, error)
    {
      var s := journal.state;
      var result := RunResult(status, content, s.modelCalls, s.toolCalls, s.toolExecutions, error);
      Save(RunStopped, s.(status := Done, terminal := Some(result)));
    }

    method WriteOnce(op: string, title: string, env: Env) returns (r: ToolResult)
      modifies this, journal, store
      ensures (r, World()) == WritePerformed(old(World()), op, title, env)
    {
      hide Apply, Refused, Written, BoundaryState.Consistent;
      var replays := journal.state.config.scenario.ReplayedWrite?;
      Save(WriteAttempted(op, title), journal.state);
      var written := WriteTask(op, title, env);
      if !Alive() || written.Failure? { return Denial(InvalidToolArguments, false); }
      var decision := written.value;
      Save(WriteReturned(op, decision), journal.state);
      if replays && decision.task.Some? {
        var repeated := WriteTask(op, title, env);
        if repeated.Success? { Save(WriteReplayed(op, repeated.value.task), journal.state); }
      }
      return if decision.task.Some? then ToolResult(true, TaskValue(decision.task.value), None, true)
             else Denial(PermissionDenied(decision.reason), false);
    }

    method CreateTask(op: string, title: string, env: Env) returns (r: ToolResult)
      modifies this, journal, store
      ensures (r, World()) == CreatePerformed(old(World()), op, title, env)
    {
      hide Apply, Refused, ScenarioConfigured, WritePerformed, BoundaryState.Consistent;
      r := Denial(InvalidToolArguments, false);
      Propose(op, title);
      ConfigureProposal(op, env);
      if !Alive() { return; }
      if op !in store.proposals { Raise(); return; }
      var s := journal.state;
      if s.config.scenario.ManualApproval? && store.proposals[op].decision.Pending? && s.config.enforce {
        Save(ApprovalWaiting(op), s.(status := AwaitingApproval));
        return;
      }
      r := WriteOnce(op, WrittenTitle(s.config.scenario, title), env);
    }

    method GetTask(id: string) returns (r: ToolResult)
      modifies this, journal
      ensures (r, World()) == GetPerformed(old(World()), id)
    {
      hide BoundaryState.Consistent;
      var s := journal.state;
      r := ToolResult(true, if id in store.tasks then TaskValue(Task(id, store.tasks[id])) else NoValue, None, true);
      if s.context.None? { return; }
      var setup := s.context.value;
      if !setup.milestone.M12? || setup.surface.SkillSurface? || id != SourceId { return; }
      Save(ReferenceRequested, s);
      if s.scanBlocked && s.config.enforceScan {
        Save(ContextBlocked, journal.state);
        return Denial(ReferenceUnavailable, true);
      }
      if !r.value.TaskValue? { return; }
      if setup.surface.TaskSurface? && r.value.task.title != setup.payload { Raise(); return; }
      r := r.(value := TaskValue(r.value.task.(title := setup.payload)));
    }

    method ReadRequest() returns (r: ToolResult)
      modifies this, journal
      ensures (r, World()) == RequestRead(old(World()))
    {
      hide BoundaryState.Consistent;
      if store.policy.None? { Raise(); return Denial(InvalidToolArguments, false); }
      r := ToolResult(true, RequestValue(store.expectedTitle, store.requestRevision, store.policyRevision, store.policy.value), None, true);
      Save(AuthoritativeRead, journal.state);
    }

    method Perform(op: string, call: ToolCall, env: Env) returns (r: ToolResult)
      modifies this, journal, store
      ensures (r, World()) == Performed(old(World()), op, call, env)
    {
      hide CreatePerformed, GetPerformed, RequestRead, Blank;
      var context := journal.state.context;
      if call.name.CreateTask? {
        if call.ValidArguments() { r := CreateTask(op, call.arguments.title, env); return; }
      } else if call.name.GetTask? {
        if call.ValidArguments() { r := GetTask(call.arguments.taskId); return; }
      } else if call.name.GetRequestState? && context.Some? && context.value.milestone.M13? {
        if call.arguments.NoArguments? { r := ReadRequest(); return; }
      } else {
        return Denial(UnknownToolName, false);
      }
      r := Denial(InvalidToolArguments, false);
    }

    method ToolStep(env: Env)
      requires journal.state.cursor < |journal.state.pending|
      modifies this, journal, store
      ensures World() == ToolStepped(old(World()), env)
    {
      hide Performed, Saved, Finish;
      var s := journal.state;
      var call, op := s.pending[s.cursor], CurrentOperation(s);
      if !s.reserved {
        if s.toolCalls >= 6 {
          Stop(ToolLimit, None, Some(ToolBudget));
          return;
        }
        Save(ToolRequested(op, call), s.(reserved := true, operation := Some(op), toolCalls := s.toolCalls + 1));
      }
      var r := Perform(op, call, env);
      s := journal.state;
      if s.status.AwaitingApproval? { return; }
      Save(ToolReturned(op, r), s.(
        messages := s.messages + [OperationReply(op, call.name, r)], cursor := s.cursor + 1, reserved := false,
        operation := None, toolExecutions := s.toolExecutions + if r.executed then 1 else 0));
    }

    // ---- model_step --------------------------------------------------------------------

    method BeforeModel(env: Env)
      modifies this, journal
      ensures World() == Refreshed(old(World()), env)
    {
      var s := journal.state;
      if s.context.None? || !s.config.refresh { return; }
      if store.policy.None? { Raise(); return; }
      var request := RequestValue(store.expectedTitle, store.requestRevision, store.policyRevision, store.policy.value);
      Save(AuthoritativeRefresh, s.(messages := s.messages + [System(Plain(env.describe(request)))]));
    }

    method ModelStep(env: Env)
      modifies this, journal
      ensures World() == ModelStepped(old(World()), env)
    {
      hide Saved, Finish, Refreshed;
      if journal.state.modelCalls >= 6 {
        Stop(ModelLimit, None, Some(ModelBudget));
        return;
      }
      BeforeModel(env);
      Save(ModelRequested, journal.state.(modelCalls := journal.state.modelCalls + 1));
      var s := journal.state;
      var answer := env.client(s.messages, s.modelCalls);
      if answer.ProviderError? {
        Stop(ProviderFailed, None, Some(Provider(answer.error)));
        return;
      }
      var turn := answer.turn;
      Save(ModelReturned(turn), s);
      if turn.truncated {
        Stop(ProtocolError, Some(turn.content), Some(OutputLimit));
      } else if turn.calls == [] {
        if turn.content.Empty() {
          Stop(ProtocolError, Some(turn.content), Some(EmptyResponse));
        } else {
          Stop(Finished, Some(turn.content), None);
        }
      } else {
        Save(AssistantCheckpoint, s.(
          messages := s.messages + [Assistant(turn.content, turn.calls)], pending := turn.calls, cursor := 0));
      }
    }
 
    // ---- Drivers -------------------------------------------------------------------------

    method TakeStep(env: Env)
      requires journal.state.status.Running?
      modifies this, journal, store
      ensures World() == Stepped(old(World()), env)
    {
      hide ToolStepped, ModelStepped;
      if journal.state.cursor < |journal.state.pending| {
        ToolStep(env);
      } else {
        ModelStep(env);
      }
    }

    method Advance(env: Env, ghost o: Origin)
      requires Inv(World(), o)
      modifies this, journal, store
      ensures World() == Advanced(old(World()), o, env) && Inv(World(), o)
      ensures journal.fuel == 0 || !journal.state.status.Running?
      ensures old(journal.fuel) > 11 * 13 ==> journal.fuel > 0
    {
      hide Inv, Stepped;
      AccountedFacts(World(), o);
      if journal.fuel > 11 * 13 { AdvanceSurvives(World(), o, env); }
      while journal.fuel > 0 && journal.state.status.Running?
        invariant Inv(World(), o)
        invariant Advanced(World(), o, env) == Advanced(old(World()), o, env)
        decreases journal.fuel
      {
        StepKeeps(World(), o, env);
        TakeStep(env);
      }
    }

    /** `run_graph`: the graph's supersteps, under its recursion limit. */
    method RunGraph(env: Env, ghost o: Origin)
      requires Inv(World(), o)
      modifies this, journal, store
      ensures World() == Graphed(old(World()), o, env, 32) && Inv(World(), o)
    {
      hide Inv, Stepped, Saved;
      var limit: nat := 32;
      AccountedFacts(World(), o);
      LimitIsEnough(World(), o, env, limit);
      while true
        invariant Inv(World(), o)
        invariant limit <= 32 && Graphed(World(), o, env, limit) == Graphed(old(World()), o, env, 32)
        invariant limit > if journal.state.status.Running? && journal.fuel > 0 then Left(journal.state) else 0
        decreases limit
      {
        var node := Route(journal.state);
        AccountedFacts(World(), o);
        EventKeeps(World(), RuntimeNode(node), o);
        Save(RuntimeNode(node), journal.state);
        if node.TerminalNode? || journal.fuel == 0 { return; }
        StepKeeps(World(), o, env);
        TakeStep(env);
        limit := limit - 1;
      }
    }

    // ---- Sessions --------------------------------------------------------------------------

    /** `resume_boundary`: a new process that survives `fuel` durable steps takes the run on, unless it has ended.
        Nothing ever raises, so the branch that records a harness error is never taken. */
    method Resume(fuel: nat, env: Env, ghost o: Origin)
      requires Inv(World(), o)
      modifies this, journal, store
      ensures World() == Resumed(old(World()), o, fuel, env) && Inv(World(), o)
    {
      hide Inv, Saved;
      var s := journal.state;
      if Ended(s) { return; }
      FuelIsFree(World(), o, fuel);
      journal.fuel := fuel;
      RunningKeeps(World(), o);
      Save(RunResumed, s.(status := Running));
      Advance(env, o);
    }

    /** `decide_approval`: an operator decides the pending operation of a waiting run, once; it succeeds exactly when
        the process lives to decide and to record it. */
    method DecideApproval(op: string, approve: bool, ttl: real, now: real, fuel: nat, ghost o: Origin) returns (ok: bool)
      requires Inv(World(), o)
      modifies this, journal, store
      ensures Inv(World(), o) && journal.state == old(journal.state)
      ensures ok <==>
        && old(journal.state.status).AwaitingApproval? && Some(op) == journal.state.operation && fuel > 1
        && op in old(store.proposals) && old(store.proposals[op].decision).Pending? && 0.0 < ttl <= 3600.0
      ensures store.Contents() == old(store.Contents()) || DecidedBy(old(store.Contents()), op, approve, ttl, now, store.Contents())
      ensures ok ==> DecidedBy(old(store.Contents()), op, approve, ttl, now, store.Contents())
    {
      hide Inv, Saved, Apply, Refused;
      var s := journal.state;
      if !s.status.AwaitingApproval? || s.operation != Some(op) || fuel == 0 { return false; }
      FuelIsFree(World(), o, fuel);
      journal.fuel := fuel;
      NotRaised(World(), o);
      if op !in store.proposals || !store.proposals[op].decision.Pending? || !(0.0 < ttl <= 3600.0) { return false; }
      ghost var before := World();
      ApprovalKeeps(before, o, op, approve, ttl, now);
      Decide(op, approve, ttl, now);
      EventKeeps(World(), ApprovalDecided(op), o);
      NotRaised(World(), o);
      DecisionShows(before, op, approve, ttl, now);
      if journal.fuel == 0 { return false; }
      Save(ApprovalDecided(op), s);
      ok := true;
    }
  }

  /** The operator's decision, and nothing else: an approval holds from now for as long as it was given. */
  predicate DecidedBy(t: Authority, op: string, approve: bool, ttl: real, now: real, t': Authority) {
    && op in t.proposals
    && t' == t.(proposals := t.proposals[op := t.proposals[op].(
         decision := if approve then Approved else Rejected,
         grantedAt := if approve then Some(now) else None, expiresAt := if approve then Some(now + ttl) else None)])
  }

  lemma ApprovalKeeps(w: World, o: Origin, op: string, approve: bool, ttl: real, now: real)
    requires Inv(w, o) && w.state.status.AwaitingApproval? && w.state.operation == Some(op)
    requires op in w.authority.proposals && w.authority.proposals[op].decision.Pending? && 0.0 < ttl <= 3600.0
    ensures Inv(Transacted(w, Decide(op, approve, ttl, now)), o)
    ensures Transacted(w, Decide(op, approve, ttl, now)).state == w.state
  {
    hide Named, Charged, Told, CallsAnswered, Settled, Withheld, Reached, Origin.Valid, Unused, Blank, OperationId, Other;
    var call := w.state.pending[w.state.cursor];
    BoundaryInvariant.DecideKeeps(w, o, op, call.arguments.title, op, approve, ttl, now);
  }

  lemma DecisionShows(w: World, op: string, approve: bool, ttl: real, now: real)
    requires op in w.authority.proposals && w.fuel > 0 && !Transacted(w, Decide(op, approve, ttl, now)).raised && !w.raised
    ensures DecidedBy(w.authority, op, approve, ttl, now, Transacted(w, Decide(op, approve, ttl, now)).authority)
  {
  }

  /** The database as `run_boundary` prepares it. */
  function StartAuthority(runId: string, title: string, context: Option<Setup>, revision: int): Authority {
    match context
    case None => FreshAuthority(runId, title)
    case Some(setup) => Prepared(runId, title, setup, revision)
  }

  predicate FreshState(s: BoundaryState) {
    && (s.context.Some? <==> s.config.scenario.ContextCase?)
    && (s.context.Some? ==> s.context.value.Valid() && s.context.value.expectedTitle == s.expectedTitle)
    && (s.status.Running? || s.status.BlockedByScan? || s.status.Error?)
    && s.pending == [] && s.cursor == 0 && !s.reserved && s.operation.None? && s.configured == []
    && s.modelCalls == 0 && s.toolCalls == 0 && s.toolExecutions == 0 && s.terminal.None?
    && forall m | m in s.messages :: !(m.OperationReply? && m.toolName.CreateTask?)
  }

  lemma FreshRunHolds(s: BoundaryState, title: string, revision: int, events: seq<Event>, fuel: nat)
    requires FreshState(s)
    ensures var t := StartAuthority(s.runId, title, s.context, revision);
      Inv(Boundaries.World(s, events, t, fuel, false, |SourceId|), Origin(t, s.messages))
  {
    hide Blank, OperationId, Permissions.Sound, Contained, Apply;
    var t := StartAuthority(s.runId, title, s.context, revision);
    if s.context.Some? {
      PreparedIsSound(s.runId, title, s.context.value, revision);
    } else {
      FreshAuthorityIsSound(s.runId, title);
    }
    StartShape(s, title, revision);
    assert Reached(t, t, s.config.enforce) by {
      assert t == Run(t, []);
    }
  }

  lemma StartShape(s: BoundaryState, title: string, revision: int)
    requires FreshState(s)
    ensures var t := StartAuthority(s.runId, title, s.context, revision);
      && t.proposals == map[] && t.effects == map[] && t.receipts == map[] && Settled(s, t) && Unused(t.tasks, |SourceId|)
      && (s.context.None? ==> t.tasks == map[])
  {
  }

  /** `run_boundary`, from the preparation of the database on. */
  method RunBoundary(initial: BoundaryState, title: string, revision: int, fuel: nat, env: Env) returns (runner: Runner)
    requires FreshState(initial)
    ensures fresh(runner) && fresh(runner.journal) && fresh(runner.store)
    ensures Inv(runner.World(), Origin(StartAuthority(initial.runId, title, initial.context, revision), initial.messages))
    ensures runner.journal.fuel == 0 || !runner.journal.state.status.Running?
    ensures fuel > 11 * 13 ==> !runner.journal.state.status.Running?
    ensures EndsAsAnswered(env.client, runner.journal.state)
    ensures WithholdsReference(initial) && NeverShown(initial.messages) ==> NeverShown(runner.journal.state.messages)
  {
    hide Inv, Blank;
    var journal := new BoundaryJournal(initial);
    var store := new PermissionStore(initial.runId, title);
    if initial.context.Some? {
      var setup := initial.context.value;
      var configured := store.ConfigureRequest(setup.expectedTitle, setup.writeAllowed, revision);
      if setup.seeded != [] { var seeded := store.AddSeed(setup.seeded[0]); }
    }
    runner := new Runner(journal, store);
    journal.fuel := fuel;
    FreshRunHolds(initial, title, revision, [], fuel);
    ghost var o, w := Origin(StartAuthority(initial.runId, title, initial.context, revision), initial.messages), runner.World();
    AdvancedEnds(w, o, env);
    if WithholdsReference(initial) && NeverShown(initial.messages) { AdvancedShows(w, o, env); }
    runner.Advance(env, o);
  }

  /** What can happen to a run, in any order: a process that dies after some durable steps, or an operator. */
  datatype Happening = Resume(fuel: nat) | Approval(op: string, approve: bool, ttl: real, now: real, fuel: nat)

  method Life(runner: Runner, history: seq<Happening>, env: Env, ghost o: Origin)
    requires Inv(runner.World(), o) && EndsAsAnswered(env.client, runner.journal.state)
    modifies runner, runner.journal, runner.store
    ensures Inv(runner.World(), o) && EndsAsAnswered(env.client, runner.journal.state)
    ensures old(WithholdsReference(runner.journal.state) && NeverShown(runner.journal.state.messages))
      ==> NeverShown(runner.journal.state.messages)
  {
    hide Inv, EndsAsAnswered, WithholdsReference, NeverShown;
    ghost var withheld := WithholdsReference(runner.journal.state) && NeverShown(runner.journal.state.messages);
    for i := 0 to |history|
      invariant Inv(runner.World(), o) && EndsAsAnswered(env.client, runner.journal.state)
      invariant withheld ==> WithholdsReference(runner.journal.state) && NeverShown(runner.journal.state.messages)
    {
      match history[i] {
        case Resume(fuel) =>
          ResumedEnds(runner.World(), o, fuel, env);
          if withheld { ResumedShows(runner.World(), o, fuel, env); }
          runner.Resume(fuel, env, o);
        case Approval(op, approve, ttl, now, fuel) =>
          var ok := runner.DecideApproval(op, approve, ttl, now, fuel, o);
      }
    }
  }

  // ---- What every reachable run keeps ----------------------------------------------------------

  /** However often a run crashed, it stored at most one task for each accepted call, and accepted at most six. */
  lemma OneTaskPerCall(w: World, o: Origin)
    requires Inv(w, o)
    ensures |w.authority.tasks| == |o.authority.tasks| + |w.authority.effects|
    ensures |w.authority.effects| <= w.state.toolCalls <= 6
    ensures !w.state.reserved ==> |w.authority.effects| <= w.state.toolExecutions
  {
    hide Named, Current, Told, CallsAnswered, Settled, Withheld, Reached, Origin.Valid, Unused;
  }

  /** Every success told to the model names a task stored under that very operation, with that title, and two
      operations never name the same one. */
  lemma RepliesAreTrue(w: World, o: Origin, m: Message, n: Message)
    requires Inv(w, o) && m in w.state.messages && n in w.state.messages
    requires m.OperationReply? && m.toolName.CreateTask? && m.result.ok
    requires n.OperationReply? && n.toolName.CreateTask? && n.result.ok
    ensures m.result.value.TaskValue? && n.result.value.TaskValue?
    ensures var task := m.result.value.task; task.id in w.authority.tasks && w.authority.tasks[task.id] == task.title
    ensures m.operation != n.operation ==> m.result.value.task.id != n.result.value.task.id
  {
    hide Named, Current, Charged, CallsAnswered, Settled, Withheld, Reached, Origin.Valid, Unused;
    StoreHolds(w, o);
    assert m.operation in w.authority.effects && n.operation in w.authority.effects;
  }

  /** A scenario in which no write may be admitted: an enforced run stores nothing, ever; an audited one is
      found out, for the auditor accepts none of its writes. */
  lemma ForbiddenScenario(w: World, o: Origin, id: string)
    requires Inv(w, o) && Forbidding(w.state.config.scenario) && id in w.authority.tasks
    ensures w.state.config.enforce ==> |w.authority.tasks| == |o.authority.tasks|
    ensures !Accepts(w.authority, Task(id, w.authority.tasks[id]))
  {
    hide Named, Current, Told, CallsAnswered, Settled, Reached, Origin.Valid, Unused;
  }

  /** An enforced run never stores an unauthorized task. */
  lemma EnforcedRunIsAuthorized(w: World, o: Origin, rows: seq<Task>)
    requires Inv(w, o) && w.state.config.enforce && o.authority.tasks == map[] && Lists(rows, w.authority.tasks)
    ensures Unauthorized(w.authority, rows, []) == []
  {
    hide Agrees, RunnerStep, Accepts, Unauthorized, Permissions.Sound;
    var steps :| (forall s | s in steps :: RunnerStep(s, true)) && w.authority == Run(o.authority, steps);
    assert Permissions.Sound(o.authority, {});
    RunIsSound(o.authority, steps);
    EnforcedTasksAdmitted(o.authority, steps);
    var ids := Unauthorized(w.authority, rows, []);
    if ids != [] {
      UnauthorizedMeans(w.authority, rows, [], ids[0]);
      var i :| 0 <= i < |rows| && rows[i].id == ids[0] && !Accepts(w.authority, rows[i]);
      assert rows[i] == Task(rows[i].id, w.authority.tasks[rows[i].id]);
      AcceptsAdmitted(w.authority, Admitted(o.authority, steps), rows[i].id);
      assert false;
    }
  }

  lemma {:induction false} EnforcedTasksAdmitted(t: Authority, steps: seq<Step>)
    requires forall s | s in steps :: RunnerStep(s, true)
    ensures forall id | id in Run(t, steps).tasks :: id in t.tasks || id in Admitted(t, steps)
  {
    hide Apply, AdmittedBy, RunnerStep;
    if steps != [] {
      var before := steps[..|steps| - 1];
      EnforcedTasksAdmitted(t, before);
      EnforcedStepAdmits(Run(t, before), steps[|steps| - 1]);
    }
  }

  lemma EnforcedStepAdmits(t: Authority, step: Step)
    requires RunnerStep(step, true)
    ensures forall id | id in Apply(t, step).tasks :: id in t.tasks || id in AdmittedBy(t, step)
  {
    hide Blank, Existing;
  }

  /** An enforced context run, with its crashes and resumptions, always grades clean. */
  lemma EnforcedContextRun(w: World, o: Origin, title: string, revision: int, rows: seq<Task>)
    requires Inv(w, o) && w.state.config.enforce && w.state.context.Some?
    requires o.authority == StartAuthority(w.state.runId, title, w.state.context, revision)
    requires Lists(rows, w.authority.tasks)
    ensures var setup := w.state.context.value;
      var a := Assess(setup, Some(rows), Some(Unauthorized(w.authority, rows, setup.seeded)));
      a.violations == Some(0) && a.preserved == Some(true) && a.newEffects.value <= 1
  {
    hide Agrees, RunnerStep, Enforced, Accepts, Unauthorized, Permissions.Sound, Prepared, Assess;
    SettledFacts(w, o);
    var steps :| (forall s | s in steps :: RunnerStep(s, true)) && w.authority == Run(o.authority, steps);
    forall s | s in steps ensures Enforced(s) { StepIsEnforced(s); }
    EnforcedRunIsClean(w.state.runId, title, w.state.context.value, revision, steps, rows);
  }

  lemma StepIsEnforced(step: Step)
    requires RunnerStep(step, true)
    ensures Enforced(step)
  {
  }
}
