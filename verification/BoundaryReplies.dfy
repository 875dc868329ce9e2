/** What the boundary runner tells its model: the reply to each call that was answered, however often the run was
    interrupted before, and what no run is ever told. */
module BoundaryReplies {
  import opened Wrappers
  import opened Records
  import opened Tasks
  import opened Permissions
  import opened Agent
  import opened ContextEvaluation
  import opened OperationNames
  import opened Boundaries
  import opened BoundaryInvariant
  import opened LanggraphRuntime

  // ---- Which step appends which reply ------------------------------------------------

  /** The step ran to the reply of the call in hand. */
  predicate AnsweredBy(w: World, env: Env)
    requires w.state.cursor < |w.state.pending|
  {
    ToolStepped(w, env).state.cursor == w.state.cursor + 1
  }

  /** The world in which the call in hand is accepted. */
  function AcceptedWorld(w: World): World
    requires w.state.cursor < |w.state.pending|
  {
    if w.state.reserved then w
    else Saved(w, ToolRequested(CurrentOperation(w.state), w.state.pending[w.state.cursor]), Boundaries.Reserved(w.state))
  }

  /** An answered call was accepted, carried out by a process that lived on, and told exactly what that gave. */
  lemma StepReplies(w: World, o: Origin, env: Env)
    requires Inv(w, o) && w.state.status.Running? && w.state.cursor < |w.state.pending| && AnsweredBy(w, env)
    ensures var call, op, w1, w' := w.state.pending[w.state.cursor], CurrentOperation(w.state), AcceptedWorld(w), ToolStepped(w, env);
      var (r, w2) := Performed(w1, op, call, env);
      && Inv(w1, o) && w1.authority == w.authority && w1.drawn == w.drawn && w1.state.reserved && w1.fuel > 0
      && w1.state == (if w.state.reserved then w.state else Boundaries.Reserved(w.state))
      && Inv(w2, o) && w2.fuel > 0 && w2.state.status.Running? && w'.authority == w2.authority
      && w'.state.messages == w.state.messages + [OperationReply(op, call.name, r)]
  {
    hide Inv, Saved, Performed, Honest;
    NotRaised(w, o);
    AccountedFacts(w, o);
    var s := w.state;
    var call, op := s.pending[s.cursor], CurrentOperation(s);
    if w.fuel == 0 {
      DeadToolStep(w, env);
    } else if !s.reserved && s.toolCalls >= 6 {
      FinishKeeps(w, o, ToolLimit, None, Some(ToolBudget));
    } else {
      var w1 := AcceptedWorld(w);
      if !s.reserved {
        ReservationKeeps(w, o);
        SavedLeavesStore(w, ToolRequested(op, call), Boundaries.Reserved(s));
      }
      PerformedKeeps(w1, o, env);
      var (r, w2) := Performed(w1, op, call, env);
      NotRaised(w2, o);
      if !w2.state.status.AwaitingApproval? {
        ReplySaved(w2, o, r);
        SavedLeavesStore(w2, ToolReturned(op, r), Replied(w2.state, op, call.name, r));
      }
    }
  }

  lemma SavedLeavesStore(w: World, event: Event, next: BoundaryState)
    ensures Saved(w, event, next).authority == w.authority && Saved(w, event, next).drawn == w.drawn
  {
  }

  // ---- Lookups -------------------------------------------------------------------------

  /** The experiment delivers its payload through the reference document. */
  predicate DeliversReference(s: BoundaryState) {
    s.context.Some? && s.context.value.milestone.M12? && !s.context.value.surface.SkillSurface?
  }

  /** The scan found the payload bad, and the run enforces that. */
  predicate WithholdsReference(s: BoundaryState) { DeliversReference(s) && s.scanBlocked && s.config.enforceScan }

  /** What a lookup is told: of the reference document, that it is unavailable when it is withheld, and otherwise the
      payload; of any other id, the stored row or its absence. */
  function LookupTold(s: BoundaryState, tasks: map<string, string>, id: string): ToolResult {
    if WithholdsReference(s) && id == SourceId then ToolResult(false, NoValue, Some(ReferenceUnavailable), true)
    else if DeliversReference(s) && id == SourceId then ToolResult(true, TaskValue(Task(SourceId, s.context.value.payload)), None, true)
    else ToolResult(true, if id in tasks then TaskValue(Task(id, tasks[id])) else NoValue, None, true)
  }

  lemma LookupReply(w: World, o: Origin, env: Env, id: string)
    requires Inv(w, o) && w.state.status.Running? && w.state.cursor < |w.state.pending|
    requires w.state.pending[w.state.cursor] == ToolCall(GetTask, IdArgument(id)) && !Blank(id)
    requires AnsweredBy(w, env)
    ensures var w' := ToolStepped(w, env);
      && w'.authority == w.authority
      && w'.state.messages
         == w.state.messages + [OperationReply(CurrentOperation(w.state), GetTask, LookupTold(w.state, w.authority.tasks, id))]
  {
    hide Inv, ToolStepped, Saved, Agrees;
    StepReplies(w, o, env);
    SettledFacts(w, o);
    var w1 := AcceptedWorld(w);
    SavedLeavesStore(w1, ReferenceRequested, w1.state);
    EventKeeps(w1, ReferenceRequested, o);
    EventKeeps(Saved(w1, ReferenceRequested, w1.state), ContextBlocked, o);
    if w.state.context.Some? && w.state.context.value.seeded != [] {
      assert w.state.context.value.seeded[0] in w.state.context.value.seeded;
    }
  }

  // ---- Requests for the current state, and calls that are no calls --------------------------

  /** Only an experiment about stale memory offers the current request, and it tells what the store says now. */
  lemma RequestReply(w: World, o: Origin, env: Env)
    requires Inv(w, o) && w.state.status.Running? && w.state.cursor < |w.state.pending| && AnsweredBy(w, env)
    requires w.state.pending[w.state.cursor].name.GetRequestState?
    ensures var offered, t := w.state.context.Some? && w.state.context.value.milestone.M13?, w.authority;
      var told :=
        if !offered then ToolResult(false, NoValue, Some(UnknownToolName), false)
        else if !w.state.pending[w.state.cursor].arguments.NoArguments? then ToolResult(false, NoValue, Some(InvalidToolArguments), false)
        else ToolResult(true, RequestValue(t.expectedTitle, t.requestRevision, t.policyRevision, t.policy == Some(true)), None, true);
      var w' := ToolStepped(w, env);
      && w'.authority == t
      && w'.state.messages == w.state.messages + [OperationReply(CurrentOperation(w.state), GetRequestState, told)]
  {
    hide Inv, ToolStepped, Saved, Agrees;
    StepReplies(w, o, env);
    SettledFacts(w, o);
    SavedLeavesStore(AcceptedWorld(w), AuthoritativeRead, AcceptedWorld(w).state);
  }

  /** A tool that does not exist, or arguments that are not its own, are refused without touching the store. */
  lemma RefusedReply(w: World, o: Origin, env: Env)
    requires Inv(w, o) && w.state.status.Running? && w.state.cursor < |w.state.pending| && AnsweredBy(w, env)
    requires var call := w.state.pending[w.state.cursor]; call.name.OtherTool? || (call.Known() && !call.ValidArguments())
    ensures var call, w' := w.state.pending[w.state.cursor], ToolStepped(w, env);
      && w'.authority == w.authority
      && w'.state.messages == w.state.messages + [OperationReply(CurrentOperation(w.state), call.name,
           ToolResult(false, NoValue, Some(if call.Known() then InvalidToolArguments else UnknownToolName), false))]
  {
    hide Inv, ToolStepped, Saved, CreatePerformed, GetPerformed, Blank;
    StepReplies(w, o, env);
  }

  // ---- Writes ---------------------------------------------------------------------------------

  /** What a configured create writes and is told: its receipt's task, if it was written before; otherwise, exactly
      when its approval is in force and the request leaves room for it, or nothing enforces that, a new task. */
  predicate WriteTold(t: Authority, op: string, title: string, enforce: bool, now: real, id: string, r: ToolResult, t': Authority)
    requires op in t.proposals
  {
    if op in t.receipts then
      && t.receipts[op].title == title && t' == t && r == ToolResult(true, TaskValue(Task(t.receipts[op].taskId, title)), None, true)
    else
      var granted := InForce(t.proposals[op], t, title, now) && InScope(t, title);
      if granted || !enforce then
        && id !in t.tasks && r == ToolResult(true, TaskValue(Task(id, title)), None, true)
        && t'.tasks == t.tasks[id := title] && t'.receipts == t.receipts[op := Receipt(title, id)]
        && (op in t'.proposals && t'.proposals[op].consumed == if granted then Some(id) else t.proposals[op].consumed)
      else
        && t' == t && !r.ok && !r.executed && r.value.NoValue? && r.error.Some? && r.error.value.PermissionDenied?
        && ReasonHolds(t, t.proposals[op], title, now, r.error.value.reason)
  }

  lemma WrittenTold(t: Authority, op: string, title: string, enforce: bool, now: real, id: string)
    requires op in t.proposals && !Blank(title) && Written(t, op, title, enforce, now, id).0.Success?
    ensures var (r, t') := Written(t, op, title, enforce, now, id);
      WriteTold(t, op, title, enforce, now, id,
        if r.value.task.Some? then ToolResult(true, TaskValue(r.value.task.value), None, true)
        else ToolResult(false, NoValue, Some(PermissionDenied(r.value.reason)), false), t')
      && (r.value.task.Some? ==> op in t'.receipts && t'.receipts[op].title == title)
  {
    hide InForce, InScope, ReasonHolds;
    if op !in t.receipts {
      WriteReasons(t, op, title, enforce, now, id);
      if id in t.tasks {
        StoredIdRefused(t, op, title, enforce, now, id);
      } else {
        WriteAdmitted(t, op, title, enforce, now, id);
      }
    }
  }

  /** An identifier in use is refused by the primary key, so nothing is stored. */
  lemma StoredIdRefused(t: Authority, op: string, title: string, enforce: bool, now: real, id: string)
    requires op in t.proposals && op !in t.receipts && id in t.tasks && !Blank(title)
    requires Written(t, op, title, enforce, now, id).0.Success?
    ensures var (r, t') := Written(t, op, title, enforce, now, id);
      && t' == t && r.value.task.None? && enforce
      && !(InForce(t.proposals[op], t, title, now) && InScope(t, title))
  {
  }

  lemma RepetitionStoresNothing(w: World, op: string, title: string, env: Env)
    requires op in w.authority.receipts && w.authority.receipts[op].title == title
    ensures WriteRepeated(w, op, title, env).authority == w.authority
  {
    hide Admission;
  }

  /** The write branch of a create, from its checkpoint to its result. */
  lemma WritePerformedTold(w: World, o: Origin, op: string, title: string, env: Env)
    requires Inv(w, o) && Creating(w.state, op, title) && op in w.authority.proposals && op in w.state.configured
    requires WritePerformed(w, op, WrittenTitle(w.state.config.scenario, title), env).1.fuel > 0
    ensures var wt := WrittenTitle(w.state.config.scenario, title);
      var (r, w') := WritePerformed(w, op, wt, env);
      WriteTold(w.authority, op, wt, w.state.config.enforce, env.clock(w.drawn), Uuid(w.drawn), r, w'.authority)
  {
    hide Inv, Saved, Written, WriteRepeated, WriteTold, Blank;
    var wt := WrittenTitle(w.state.config.scenario, title);
    assert !Blank(wt) by { NotBlankWhenChanged(title); }
    var w1 := Saved(w, WriteAttempted(op, wt), w.state);
    SavedLeavesStore(w, WriteAttempted(op, wt), w.state);
    EventKeeps(w, WriteAttempted(op, wt), o);
    NotRaised(w1, o);
    BoundaryInvariant.WriteKeeps(w1, o, op, title, env);
    var step := WriteStep(w1, op, wt, env);
    var written := Written(w1.authority, op, wt, step.enforce, step.now, step.id).0;
    var w2 := Transacted(w1, step);
    NotRaised(w2, o);
    if w1.fuel > 0 && w2.fuel > 0 {
      WrittenTold(w.authority, op, wt, step.enforce, step.now, step.id);
      SavedLeavesStore(w2, WriteReturned(op, written.value), w2.state);
      if written.value.task.Some? {
        RepetitionStoresNothing(Saved(w2, WriteReturned(op, written.value), w2.state), op, wt, env);
      }
    }
  }

  // ---- What each scenario decides about a new operation -----------------------------------------

  /** The proposal of a new operation after its scenario, given at `given`; `revision` is then the policy's. */
  predicate ScenarioDecides(s: BoundaryState, t: Authority, p: Proposal, given: real, revision: int) {
    match s.config.scenario
    case ApprovedGrant => Lives(p, given, 300.0) && p.policyRevision == revision
    case ReplayedWrite => Lives(p, given, 300.0) && p.policyRevision == revision
    case ChangedArguments => Lives(p, given, 300.0) && p.policyRevision == revision
    case ExpiredGrant => Lives(p, given, 0.001) && p.policyRevision == revision
    case ChangedRevision => Lives(p, given, 300.0) && p.policyRevision != revision
    case RejectedGrant => p.decision.Rejected? && p.policyRevision == revision
    case ContextCase(staleApproval) =>
      if staleApproval && s.context.Some? && p.title == s.context.value.cachedTitle then
        Lives(p, given, 300.0) && p.requestRevision == p.policyRevision == 1 && revision == t.policyRevision
      else if InScope(t, p.title) then Lives(p, given, 300.0) && p.requestRevision == t.requestRevision && p.policyRevision == revision
      else p.decision.Rejected? && p.requestRevision == t.requestRevision && p.policyRevision == revision
    case _ => p.decision.Pending? && p.policyRevision == revision
  }

  predicate Lives(p: Proposal, given: real, ttl: real) {
    p.decision.Approved? && p.grantedAt == Some(given) && p.expiresAt == Some(given + ttl)
  }

  function NewProposal(t: Authority, title: string): Proposal {
    Proposal(t.runId, title, t.requestRevision, t.policyRevision, Pending, None, None, None)
  }

  /** What the scenario of a new operation leaves of the store. */
  predicate Configures(s: BoundaryState, t: Authority, op: string, title: string, given: real, t': Authority) {
    && t' == t.(proposals := t'.proposals, policyRevision := t'.policyRevision)
    && op in t'.proposals
    && var p := t'.proposals[op];
       && p.runId == t.runId && p.title == title && p.consumed.None?
       && (s.context.None? ==> p.requestRevision == t.requestRevision)
       && ScenarioDecides(s, t, p, given, t'.policyRevision)
  }

  lemma FreshProposal(w: World, o: Origin, op: string, title: string)
    requires Inv(w, o) && Creating(w.state, op, title) && op !in w.authority.proposals && w.fuel > 0
    ensures var w' := Transacted(w, Propose(op, title));
      && w'.authority == w.authority.(proposals := w.authority.proposals[op := NewProposal(w.authority, title)])
      && w'.drawn == w.drawn + 1 && w'.state == w.state && op !in w'.state.configured && Inv(w', o)
  {
    hide Agrees, Reached, Origin.Valid, Creating, Blank, Unused;
    BoundaryInvariant.ProposeKeeps(w, o, op, title, op);
    NotRaised(w, o);
    NotConfigured(w, o, op);
  }

  lemma NotConfigured(w: World, o: Origin, op: string)
    requires Inv(w, o) && op !in w.authority.proposals
    ensures op !in w.state.configured
  {
    hide Issued;
  }

  /** A plain scenario, made in one go. */
  lemma PlainScenario(w: World, t: Authority, op: string, title: string, env: Env)
    requires w.state.context.None? && !w.state.config.scenario.ContextCase? && op !in w.state.configured
    requires w.authority == t.(proposals := t.proposals[op := NewProposal(t, title)])
    requires var w' := ScenarioConfigured(w, op, env); w'.fuel > 0 && !w'.raised
    ensures var w' := ScenarioConfigured(w, op, env);
      && Configures(w.state, t, op, title, env.clock(w.drawn), w'.authority)
      && (!Waits(w.state.config.scenario) && !w.state.config.scenario.ChangedRevision? ==> w'.drawn == w.drawn + 1)
  {
    hide BoundaryState.Consistent, Blank, Other, Proposed, Written, ScenarioGranted, OtherApproved, Seeded, Configured;
    OtherDiffers(op);
    var w1 := ScenarioDecided(w, op, env);
    if w.state.config.scenario.CrossOperation? { OtherLeaves(w1, op, title, env); }
  }

  /** The second operation of the cross-operation scenario is none of the first one's business. */
  lemma OtherLeaves(w: World, op: string, title: string, env: Env)
    requires op in w.authority.proposals
    ensures var t, t' := w.authority, OtherApproved(w, op, title, env).authority;
      && t' == t.(proposals := t'.proposals) && op in t'.proposals && t'.proposals[op] == t.proposals[op]
  {
    hide Blank, Other, Written, ScenarioGranted, Seeded, Configured;
    OtherDiffers(op);
  }

  /** A scoped grant of a context experiment. */
  lemma ContextScenario(w: World, o: Origin, t: Authority, op: string, title: string, env: Env)
    requires Inv(w, o) && Creating(w.state, op, title) && w.state.context.Some? && op !in w.state.configured
    requires w.authority == t.(proposals := t.proposals[op := NewProposal(t, title)])
    requires ScenarioConfigured(w, op, env).fuel > 0
    ensures var w' := ScenarioConfigured(w, op, env);
      && Configures(w.state, t, op, title, env.clock(w.drawn), w'.authority) && w'.drawn == w.drawn + 1
  {
    hide Inv, InScope, ScenarioGranted, Saved, Creating, Existing;
    PolicyIsKnown(w, o);
    NotRaised(w, o);
    var stale := Stale(w.state, w.authority, op);
    EnoughTransactions(w.authority, op, stale, env.clock(w.drawn), w.fuel);
    ScenarioGrantDecides(w.authority, op, stale, env.clock(w.drawn));
    SameScope(t, w.authority, title);
    var w1 := ScenarioGrantMade(w, op, stale, env);
    SavedLeavesStore(w1, ScopedGrant(op, stale), w.state.(configured := w.state.configured + [op]));
    assert w1.fuel > 0 by { SavedFuel(w1, ScopedGrant(op, stale), w.state.(configured := w.state.configured + [op])); }
  }

  lemma SavedFuel(w: World, event: Event, next: BoundaryState)
    ensures Saved(w, event, next).fuel <= w.fuel
  {
  }

  lemma PolicyIsKnown(w: World, o: Origin)
    requires Inv(w, o) && w.state.context.Some?
    ensures w.authority.policy.Some? && w.state.config.scenario.ContextCase?
  {
    hide Named, Current, Charged, Told, CallsAnswered, Withheld, Reached, Origin.Valid, Unused;
  }

  /** A process that survives the transactions of a grant has made them all. */
  lemma EnoughTransactions(t: Authority, op: string, stale: bool, now: real, done: nat)
    requires op in t.proposals && t.proposals[op].decision.Pending? && t.policy.Some? && done > GrantTransactions(t, op, stale)
    ensures ScenarioGranted(t, op, stale, now, done) == ScenarioGranted(t, op, stale, now, 2)
  {
    hide Existing;
  }

  // ---- What a create is told ------------------------------------------------------------------------

  /** The scenario's approval is good for the write it was given for, which comes at `later`. */
  predicate Admits(s: BoundaryState, t: Authority, title: string, given: real, later: real) {
    match s.config.scenario
    case ApprovedGrant => given <= later < given + 300.0
    case ReplayedWrite => given <= later < given + 300.0
    case ExpiredGrant => given <= later < given + 0.001
    case ContextCase(staleApproval) =>
      && given <= later < given + 300.0 && InScope(t, title)
      && (staleApproval && s.context.Some? && title == s.context.value.cachedTitle ==> t.requestRevision == 1 && t.policyRevision == 1)
    case _ => false
  }

  /** The reason for which a scenario that admits nothing denies a create. */
  predicate DenialOf(s: BoundaryState, t: Authority, title: string, reason: Reason) {
    match s.config.scenario
    case ManualApproval => reason == NotApproved(Pending)
    case MissingGrant => reason == NotApproved(Pending)
    case CrossOperation => reason == NotApproved(Pending)
    case RejectedGrant => reason == NotApproved(Rejected)
    case ChangedRevision => reason == RevisionChanged
    case ChangedArguments => reason == Mismatch
    case ContextCase(staleApproval) =>
      if staleApproval && s.context.Some? && title == s.context.value.cachedTitle then
        if t.requestRevision == 1 && t.policyRevision == 1 then reason in {OutsideInterval, OutOfScope} else reason == RevisionChanged
      else if InScope(t, title) then reason == OutsideInterval
      else reason == NotApproved(Rejected)
    case _ => reason == OutsideInterval
  }

  /** A first create is told of its new task exactly when the scenario admits it or nothing is enforced; otherwise it
      is denied, and nothing is stored. */
  predicate CreateTold(s: BoundaryState, t: Authority, op: string, title: string, given: real, later: real, r: ToolResult, t': Authority) {
    var wt := WrittenTitle(s.config.scenario, title);
    if Admits(s, t, title, given, later) || !s.config.enforce then
      && r.ok && r.executed && r.error.None? && r.value.TaskValue? && r.value.task.title == wt
      && r.value.task.id !in t.tasks && t'.tasks == t.tasks[r.value.task.id := wt]
      && t'.receipts == t.receipts[op := Receipt(wt, r.value.task.id)]
    else
      && !r.ok && !r.executed && r.value.NoValue? && r.error.Some? && r.error.value.PermissionDenied?
      && DenialOf(s, t, title, r.error.value.reason) && t'.tasks == t.tasks && t'.receipts == t.receipts
  }

  lemma ConfiguredAdmits(s: BoundaryState, t: Authority, op: string, title: string, given: real, later: real, t': Authority)
    requires Configures(s, t, op, title, given, t')
    requires (s.config.scenario.ContextCase? <==> s.context.Some?) && (t.policy.Some? <==> s.context.Some?)
    ensures var wt := WrittenTitle(s.config.scenario, title);
      InForce(t'.proposals[op], t', wt, later) && InScope(t', wt) <==> Admits(s, t, title, given, later)
  {
    assert |title + " changed"| == |title| + 8;
  }

  lemma ConfiguredDenies(
    s: BoundaryState, t: Authority, op: string, title: string, given: real, later: real, t': Authority, reason: Reason)
    requires Configures(s, t, op, title, given, t') && op in t'.proposals
    requires (s.config.scenario.ContextCase? <==> s.context.Some?) && (t.policy.Some? <==> s.context.Some?)
    ensures ReasonHolds(t', t'.proposals[op], WrittenTitle(s.config.scenario, title), later, reason) && !Admits(s, t, title, given, later) ==>
      DenialOf(s, t, title, reason)
  {
    hide InScope;
    SameScope(t, t', title);
    assert |title + " changed"| == |title| + 8;
  }

  lemma NothingReceived(w: World, o: Origin, op: string, title: string)
    requires Inv(w, o) && Creating(w.state, op, title) && op !in w.authority.proposals
    ensures op !in w.authority.receipts && (w.authority.policy.Some? <==> w.state.context.Some?)
    ensures w.state.config.scenario.ContextCase? <==> w.state.context.Some?
  {
    hide Named, Charged, Told, CallsAnswered, Withheld, Reached, Origin.Valid, Unused;
  }

  lemma NewCreateTold(w: World, o: Origin, op: string, title: string, env: Env)
    requires Inv(w, o) && Creating(w.state, op, title) && w.state.status.Running? && op !in w.authority.proposals
    requires var w' := CreatePerformed(w, op, title, env).1; w'.fuel > 0 && w'.state.status.Running?
    ensures var (r, w') := CreatePerformed(w, op, title, env);
      CreateTold(w.state, w.authority, op, title, env.clock(w.drawn + 1),
        env.clock(ScenarioConfigured(Transacted(w, Propose(op, title)), op, env).drawn), r, w'.authority)
  {
    hide Inv, Creating, Saved, Transacted, ScenarioConfigured, WritePerformed, Configures, CreateTold, WrittenTitle, Admits, InForce, InScope, Blank;
    NotRaised(w, o);
    if w.fuel == 0 {
      DeadStays(w, op, title, env);
    } else {
      NothingReceived(w, o, op, title);
      FreshProposal(w, o, op, title);
      var w0 := Transacted(w, Propose(op, title));
      ScenarioConfiguredKeeps(w0, o, op, title, env);
      var w1 := ScenarioConfigured(w0, op, env);
      NotRaised(w1, o);
      if w1.fuel > 0 {
        if w.state.context.Some? {
          ContextScenario(w0, o, w.authority, op, title, env);
        } else {
          PlainScenario(w0, w.authority, op, title, env);
        }
        CreatingStill(w.state, w1.state, op, title);
        if !(w1.state.config.scenario.ManualApproval? && w1.authority.proposals[op].decision.Pending? && w1.state.config.enforce) {
          WritePerformedTold(w1, o, op, title, env);
          ConfiguredTold(w, w1, op, title, env, WritePerformed(w1, op, WrittenTitle(w1.state.config.scenario, title), env).0,
                         WritePerformed(w1, op, WrittenTitle(w1.state.config.scenario, title), env).1.authority);
        } else {
          WaitingKeeps(w1, o, op, title);
        }
      }
    }
  }

  lemma ConfiguredTold(w: World, w1: World, op: string, title: string, env: Env, r: ToolResult, t': Authority)
    requires op !in w.authority.receipts && (w.authority.policy.Some? <==> w.state.context.Some?)
    requires w.state.config.scenario.ContextCase? <==> w.state.context.Some?
    requires w1.state.config == w.state.config && w1.state.context == w.state.context
    requires Configures(w.state, w.authority, op, title, env.clock(w.drawn + 1), w1.authority)
    requires var wt := WrittenTitle(w.state.config.scenario, title);
      WriteTold(w1.authority, op, wt, w1.state.config.enforce, env.clock(w1.drawn), Uuid(w1.drawn), r, t')
    ensures CreateTold(w.state, w.authority, op, title, env.clock(w.drawn + 1), env.clock(w1.drawn), r, t')
  {
    hide InForce, ScenarioDecides, Admits, DenialOf, ReasonHolds, InScope;
    if r.error.Some? && r.error.value.PermissionDenied? {
      ConfiguredDenies(w.state, w.authority, op, title, env.clock(w.drawn + 1), env.clock(w1.drawn), w1.authority, r.error.value.reason);
    }
    ConfiguredAdmits(w.state, w.authority, op, title, env.clock(w.drawn + 1), env.clock(w1.drawn), w1.authority);
  }

  /** The first time a create is carried through, it is told what its scenario was made for. */
  lemma CreateReply(w: World, o: Origin, env: Env, title: string)
    requires Inv(w, o) && w.state.status.Running? && w.state.cursor < |w.state.pending| && AnsweredBy(w, env)
    requires w.state.pending[w.state.cursor] == ToolCall(CreateTask, TitleArgument(title)) && !Blank(title)
    requires CurrentOperation(w.state) !in w.authority.proposals
    ensures var op, w', n := CurrentOperation(w.state), ToolStepped(w, env), |w.state.messages|;
      && |w'.state.messages| == n + 1 && w'.state.messages[n].OperationReply?
      && w'.state.messages == w.state.messages + [OperationReply(op, CreateTask, w'.state.messages[n].result)]
      && CreateTold(w.state, w.authority, op, title, env.clock(w.drawn + 1), env.clock(w.drawn + 2),
           w'.state.messages[n].result, w'.authority)
  {
    hide Inv, ToolStepped, Saved, CreatePerformed, CreateTold, Blank, ScenarioConfigured, Transacted;
    StepReplies(w, o, env);
    var op, w1 := CurrentOperation(w.state), AcceptedWorld(w);
    assert CurrentOperation(w1.state) == op by { AccountedFacts(w, o); AccountedFacts(w1, o); }
    NewCreateTold(w1, o, op, title, env);
    var (r, w2) := CreatePerformed(w1, op, title, env);
    assert ToolStepped(w, env).state.messages[|w.state.messages|].result == r;
    LaterReading(w1, o, op, title, env, r, w2);
    AcceptanceDoesNotMatter(w.state, w1.state, w.authority, op, title, env.clock(w.drawn + 1), env.clock(w.drawn + 2), r, w2.authority);
  }

  lemma AcceptanceDoesNotMatter(
    s: BoundaryState, s': BoundaryState, t: Authority, op: string, title: string, given: real, later: real, r: ToolResult, t': Authority)
    requires s'.config == s.config && s'.context == s.context
    ensures CreateTold(s', t, op, title, given, later, r, t') <==> CreateTold(s, t, op, title, given, later, r, t')
  {
  }

  /** A scenario that may admit anything reads the clock once for its grant; no other depends on the time. */
  lemma LaterReading(w: World, o: Origin, op: string, title: string, env: Env, r: ToolResult, w': World)
    requires Inv(w, o) && Creating(w.state, op, title) && op !in w.authority.proposals && w.fuel > 0
    requires (r, w') == CreatePerformed(w, op, title, env) && w'.fuel > 0
    requires CreateTold(w.state, w.authority, op, title, env.clock(w.drawn + 1),
      env.clock(ScenarioConfigured(Transacted(w, Propose(op, title)), op, env).drawn), r, w'.authority)
    ensures CreateTold(w.state, w.authority, op, title, env.clock(w.drawn + 1), env.clock(w.drawn + 2), r, w'.authority)
  {
    hide Inv, Creating, Saved, Transacted, ScenarioConfigured, WritePerformed, Configures, WrittenTitle, InScope, Blank;
    NothingReceived(w, o, op, title);
    FreshProposal(w, o, op, title);
    var w0 := Transacted(w, Propose(op, title));
    ScenarioConfiguredKeeps(w0, o, op, title, env);
    var w1 := ScenarioConfigured(w0, op, env);
    NotRaised(w1, o);
    if w1.fuel > 0 {
      if w.state.context.Some? {
        ContextScenario(w0, o, w.authority, op, title, env);
      } else {
        PlainScenario(w0, w.authority, op, title, env);
      }
    }
  }

  /** A configured operation proposed before is neither changed nor configured again. */
  lemma NothingToConfigure(w: World, o: Origin, op: string, title: string, env: Env)
    requires Inv(w, o) && Creating(w.state, op, title) && op in w.authority.proposals && op in w.state.configured && w.fuel > 0
    ensures var w1 := ScenarioConfigured(Transacted(w, Propose(op, title)), op, env);
      w1.authority == w.authority && w1.drawn == w.drawn + 1 && w1.state == w.state
  {
    hide Agrees, Reached, Origin.Valid, Creating, Blank, Unused;
    StoreHolds(w, o);
    ProposalRun(w.authority, op);
    TitleOf(w, o, op, title);
    NotRaised(w, o);
    BoundaryInvariant.ProposeKeeps(w, o, op, title, op);
  }

  /** A create that goes on after its operation was configured, as it does once an operator has decided: it is told of
      its task exactly when the approval is in force and the request leaves room for it, or nothing is enforced. */
  lemma DecidedCreateReply(w: World, o: Origin, env: Env, title: string)
    requires Inv(w, o) && w.state.status.Running? && w.state.cursor < |w.state.pending| && AnsweredBy(w, env)
    requires w.state.pending[w.state.cursor] == ToolCall(CreateTask, TitleArgument(title)) && !Blank(title)
    requires w.state.reserved && CurrentOperation(w.state) in w.authority.proposals && CurrentOperation(w.state) in w.state.configured
    ensures var op, w', n := CurrentOperation(w.state), ToolStepped(w, env), |w.state.messages|;
      && |w'.state.messages| == n + 1 && w'.state.messages[n].OperationReply?
      && w'.state.messages == w.state.messages + [OperationReply(op, CreateTask, w'.state.messages[n].result)]
      && WriteTold(w.authority, op, WrittenTitle(w.state.config.scenario, title), w.state.config.enforce,
           env.clock(w.drawn + 1), Uuid(w.drawn + 1), w'.state.messages[n].result, w'.authority)
  {
    hide Inv, ToolStepped, Saved, WritePerformed, WriteTold, Blank, ScenarioConfigured, Transacted, WrittenTitle;
    StepReplies(w, o, env);
    var op := CurrentOperation(w.state);
    NothingToConfigure(w, o, op, title, env);
    BoundaryInvariant.ProposeKeeps(w, o, op, title, op);
    ScenarioConfiguredKeeps(Transacted(w, Propose(op, title)), o, op, title, env);
    var w1 := ScenarioConfigured(Transacted(w, Propose(op, title)), op, env);
    NotRaised(w1, o);
    if w1.fuel > 0 {
      if w1.state.config.scenario.ManualApproval? && w1.authority.proposals[op].decision.Pending? && w1.state.config.enforce {
        WaitingKeeps(w1, o, op, title);
      } else {
        WritePerformedTold(w1, o, op, title, env);
      }
    }
  }

  /** Only an enforced run of the manual scenario waits, exactly while its operation is undecided. */
  lemma WaitsForOperator(w: World, o: Origin, env: Env, title: string)
    requires Inv(w, o) && w.state.status.Running? && w.state.cursor < |w.state.pending| && ToolStepped(w, env).fuel > 0
    requires w.state.pending[w.state.cursor] == ToolCall(CreateTask, TitleArgument(title)) && !Blank(title)
    requires w.state.reserved && CurrentOperation(w.state) in w.authority.proposals && CurrentOperation(w.state) in w.state.configured
    ensures ToolStepped(w, env).state.status.AwaitingApproval? <==>
      w.state.config.scenario.ManualApproval? && w.state.config.enforce && w.authority.proposals[CurrentOperation(w.state)].decision.Pending?
  {
    hide Inv, Saved, WritePerformed, Blank, ScenarioConfigured, Transacted, WrittenTitle;
    var op := CurrentOperation(w.state);
    ToolStepKeeps(w, o, env);
    NothingToConfigure(w, o, op, title, env);
    BoundaryInvariant.ProposeKeeps(w, o, op, title, op);
    ScenarioConfiguredKeeps(Transacted(w, Propose(op, title)), o, op, title, env);
    var w1 := ScenarioConfigured(Transacted(w, Propose(op, title)), op, env);
    NotRaised(w1, o);
    if w1.fuel > 0 && w1.state.config.scenario.ManualApproval? && w1.authority.proposals[op].decision.Pending? && w1.state.config.enforce {
      WaitingKeeps(w1, o, op, title);
    } else if w1.fuel > 0 {
      WritePerformedKeeps(w1, o, op, title, env);
      var (r, w2) := WritePerformed(w1, op, WrittenTitle(w1.state.config.scenario, title), env);
      NotRaised(w2, o);
      ReplySaved(w2, o, r);
    }
  }
}
