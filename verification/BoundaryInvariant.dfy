/** What every durable step of a boundary run keeps, whatever the model, the clock and the crashes. */
module BoundaryInvariant {
  import opened Wrappers
  import opened Records
  import opened Tasks
  import opened Permissions
  import opened Agent
  import opened Evaluation
  import opened BoundaryEvaluation
  import opened ContextEvaluation
  import opened OperationNames
  import opened Boundaries

  /** Where a run started: its prepared database and its first messages. */
  datatype Origin = Origin(authority: Authority, prompt: seq<Message>)
  {
    ghost predicate Valid() {
      && Permissions.Sound(authority, {})
      && authority.proposals == map[] && authority.effects == map[]
      && forall m | m in prompt :: !(m.OperationReply? && m.toolName.CreateTask?)
    }
  }

  // ---- The parts of the invariant ------------------------------------------------

  /** The steps a runner takes: never the preparation, and every write under its own policy. */
  predicate RunnerStep(step: Step, enforce: bool) {
    match step
    case Write(_, _, e, _, _) => e == enforce
    case ConfigureRequest(_, _, _) => false
    case AddSeed(_) => false
    case _ => true
  }

  ghost predicate Reached(start: Authority, t: Authority, enforce: bool) {
    exists steps: seq<Step> :: (forall s | s in steps :: RunnerStep(s, enforce)) && t == Run(start, steps)
  }

  predicate Accounted(s: BoundaryState) {
    && s.Consistent() && (s.status.AwaitingApproval? ==> s.config.scenario.ManualApproval?)
    && s.toolExecutions + (if s.reserved then 1 else 0) <= s.toolCalls
    && s.operation == if s.reserved then Some(OperationId(s.runId, s.modelCalls, s.cursor)) else None
  }

  /** The calls accepted so far, in the order of their turn and their place in it. */
  predicate Accepted(s: BoundaryState, turn: nat, index: nat) {
    turn < s.modelCalls || (turn == s.modelCalls && (index < s.cursor || (index == s.cursor && s.reserved)))
  }

  ghost predicate Issued(s: BoundaryState, op: string) {
    exists turn: nat, index: nat :: Names(s.runId, op, turn, index) && Accepted(s, turn, index)
  }

  predicate Names(run: string, op: string, turn: nat, index: nat) {
    op == OperationId(run, turn, index) || op == Other(OperationId(run, turn, index))
  }

  /** Only accepted calls have proposals, and only proposed operations were configured. */
  ghost predicate Named(s: BoundaryState, t: Authority) {
    && (forall op | op in t.proposals :: Issued(s, op))
    && (forall op | op in s.configured :: op in t.proposals)
  }

  /** What is stored under the operation in flight belongs to its call. */
  predicate Current(s: BoundaryState, t: Authority) {
    s.reserved && s.cursor < |s.pending| ==> Owned(s.config.scenario, s.pending[s.cursor], CurrentOperation(s), t.proposals, t.receipts)
  }

  predicate Owned(
    scenario: Case, call: ToolCall, op: string, proposals: map<string, Proposal>, receipts: map<string, Receipt>)
  {
    && (op in proposals ==> call.name.CreateTask? && call.ValidArguments() && proposals[op].title == call.arguments.title)
    && (Other(op) in proposals ==> op in proposals && proposals[Other(op)].title == proposals[op].title)
    && (op in receipts ==> op in proposals && receipts[op].title == WrittenTitle(scenario, proposals[op].title))
  }

  /** Every stored task beyond the first ones was paid for by an executed call, or by the one in flight. */
  predicate Charged(s: BoundaryState, t: Authority, start: Authority) {
    && |t.tasks| == |start.tasks| + |t.effects|
    && |t.effects| <= s.toolExecutions + if s.reserved && CurrentOperation(s) in t.effects then 1 else 0
  }

  /** Every successful create reply names the task its operation committed. */
  predicate Told(messages: seq<Message>, receipts: map<string, Receipt>) {
    forall m | m in messages && m.OperationReply? && m.toolName.CreateTask? && m.result.ok ::
      m.result.value.TaskValue? && m.operation in receipts
      && receipts[m.operation] == Receipt(m.result.value.task.title, m.result.value.task.id)
  }

  function Replies(messages: seq<Message>): nat {
    if messages == [] then 0
    else Replies(messages[..|messages| - 1]) + if messages[|messages| - 1].OperationReply? then 1 else 0
  }

  /** Each accepted call but the one in flight was answered, once. */
  predicate CallsAnswered(s: BoundaryState, prompt: seq<Message>) {
    Replies(s.messages) + (if s.reserved then 1 else 0) == Replies(prompt) + s.toolCalls
  }

  /** The request and the seeds are as prepared. */
  predicate Settled(s: BoundaryState, t: Authority) {
    && t.runId == s.runId && (t.policy.Some? <==> s.context.Some?)
    && (s.context.Some? ==>
      && s.context.value.Valid()
      && forall seed | seed in s.context.value.seeded :: seed.id in t.tasks && t.tasks[seed.id] == seed.title)
  }

  /** The scenarios in which no write may ever be admitted. */
  predicate Forbidding(scenario: Case) {
    || scenario.MissingGrant? || scenario.CrossOperation? || scenario.RejectedGrant?
    || scenario.ChangedRevision? || scenario.ChangedArguments?
  }

  predicate Withheld(s: BoundaryState, t: Authority) {
    && (Forbidding(s.config.scenario) ==> (forall op | op in t.proposals :: t.proposals[op].consumed.None?))
    && (s.config.enforce && Forbidding(s.config.scenario) ==> t.effects == map[])
    && (s.reserved && CurrentOperation(s) in t.proposals ==>
         Undecided(s.config.scenario, t.proposals[CurrentOperation(s)], CurrentOperation(s) in s.configured, t.policyRevision))
  }

  predicate Undecided(scenario: Case, p: Proposal, configured: bool, policyRevision: int) {
    match scenario
    case MissingGrant => p.decision.Pending?
    case CrossOperation => p.decision.Pending?
    case RejectedGrant => !p.decision.Approved?
    case ChangedRevision => configured ==> p.policyRevision != policyRevision
    case _ => true
  }

  predicate Unused(tasks: map<string, string>, drawn: nat) { forall id | id in tasks :: |id| <= drawn }

  ghost predicate Agrees(s: BoundaryState, t: Authority, o: Origin) {
    && Accounted(s) && Named(s, t) && Current(s, t) && Charged(s, t, o.authority) && Told(s.messages, t.receipts)
    && CallsAnswered(s, o.prompt) && Settled(s, t) && Withheld(s, t)
  }

  ghost predicate Inv(w: World, o: Origin) {
    && !w.raised && o.Valid() && Agrees(w.state, w.authority, o)
    && Unused(w.authority.tasks, w.drawn) && Reached(o.authority, w.authority, w.state.config.enforce)
  }

  // ---- The authorization database as the runner sees it -----------------------------

  lemma ReachedNext(start: Authority, t: Authority, enforce: bool, step: Step)
    requires Reached(start, t, enforce) && RunnerStep(step, enforce)
    ensures Reached(start, Apply(t, step), enforce)
  {
    hide Apply, RunnerStep;
    var steps :| (forall s | s in steps :: RunnerStep(s, enforce)) && t == Run(start, steps);
    var more := steps + [step];
    assert more[..|more| - 1] == steps;
    assert Apply(t, step) == Run(start, more);
  }

  lemma ReachedHolds(start: Authority, t: Authority, enforce: bool)
    requires Permissions.Sound(start, {}) && Reached(start, t, enforce)
    ensures ProposalsHold(t) && EffectsHold(t)
  {
    hide Permissions.Sound, RunnerStep;
    var steps :| (forall s | s in steps :: RunnerStep(s, enforce)) && t == Run(start, steps);
    RunIsSound(start, steps);
    SoundHolds(t, Admitted(start, steps));
  }

  lemma StoreHolds(w: World, o: Origin)
    requires Inv(w, o)
    ensures ProposalsHold(w.authority) && EffectsHold(w.authority)
  {
    ReachedHolds(o.authority, w.authority, w.state.config.enforce);
  }

  lemma SoundHolds(t: Authority, admitted: set<string>)
    requires Permissions.Sound(t, admitted)
    ensures ProposalsHold(t) && EffectsHold(t)
  {
  }

  // ---- Saved transitions ---------------------------------------------------------------

  lemma SavedKeeps(w: World, event: Event, next: BoundaryState, o: Origin)
    requires Inv(w, o) && Agrees(next, w.authority, o) && next.config == w.state.config
    ensures Inv(Saved(w, event, next), o)
    ensures w.fuel > 0 ==> Saved(w, event, next) == w.(state := next, events := w.events + [event], fuel := w.fuel - 1)
  {
    hide Named, Current, Charged, Told, CallsAnswered, Settled, Withheld, Reached, Unused, Origin.Valid;
  }

  /** A call not yet accepted has no proposal, receipt or scenario of its own. */
  lemma FreshOperation(s: BoundaryState, t: Authority)
    requires Named(s, t) && !s.reserved && EffectsHold(t)
    ensures var op := OperationId(s.runId, s.modelCalls, s.cursor);
      op !in t.proposals && Other(op) !in t.proposals && op !in t.receipts && op !in t.effects && op !in s.configured
  {
    hide OperationId, Other;
    var op := OperationId(s.runId, s.modelCalls, s.cursor);
    forall x | x == op || x == Other(op) ensures x !in t.proposals {
      if x in t.proposals {
        assert Issued(s, x);
        var turn: nat, index: nat :| Names(s.runId, x, turn, index) && Accepted(s, turn, index);
        NamesInjective(s.runId, x, turn, index, s.modelCalls, s.cursor);
      }
    }
  }

  lemma NamesInjective(run: string, op: string, turn: nat, index: nat, turn': nat, index': nat)
    requires Names(run, op, turn, index) && Names(run, op, turn', index')
    ensures turn == turn' && index == index'
  {
    hide OperationId, Other;
    var a, b := OperationId(run, turn, index), OperationId(run, turn', index');
    OtherIsNew(run, turn, index, b);
    OtherIsNew(run, turn', index', a);
    if op == Other(a) && op == Other(b) { OtherInjective(a, b); }
    OperationIdInjective(run, turn, index, turn', index');
  }

  lemma AcceptedLater(s: BoundaryState, next: BoundaryState, t: Authority)
    requires Named(s, t) && next.runId == s.runId && next.configured == s.configured
    requires forall turn: nat, index: nat :: Accepted(s, turn, index) ==> Accepted(next, turn, index)
    ensures Named(next, t)
  {
    hide OperationId, Other, Accepted;
    forall op | op in t.proposals ensures Issued(next, op) {
      assert Issued(s, op);
    }
  }

  lemma NamesAreNotBlank(run: string, turn: nat, index: nat)
    ensures !Blank(OperationId(run, turn, index)) && !Blank(Other(OperationId(run, turn, index)))
    ensures OperationId(run, turn, index) != ""
  {
    var op := OperationId(run, turn, index);
    assert op[|run|] == ':' && Other(op)[|run|] == ':';
  }

  lemma ReservedAgrees(s: BoundaryState, t: Authority, o: Origin)
    requires Agrees(s, t, o) && EffectsHold(t) && !s.reserved && s.cursor < |s.pending| && s.toolCalls < 6
    requires s.status.Running?
    ensures Agrees(Reserved(s), t, o)
  {
    hide OperationId, Other, Told, EffectsHold, Replies;
    FreshOperation(s, t);
    NamesAreNotBlank(s.runId, s.modelCalls, s.cursor);
    AcceptedLater(s, Reserved(s), t);
  }

  lemma ConfiguredAgrees(s: BoundaryState, t: Authority, o: Origin)
    requires Agrees(s, t, o) && s.reserved && CurrentOperation(s) in t.proposals
    requires s.config.scenario.ChangedRevision? ==> t.proposals[CurrentOperation(s)].policyRevision != t.policyRevision
    ensures Agrees(s.(configured := s.configured + [CurrentOperation(s)]), t, o)
  {
    hide OperationId, Other, Told, Owned, Names;
    var next := s.(configured := s.configured + [CurrentOperation(s)]);
    forall op | op in t.proposals ensures Issued(next, op) {
      assert Issued(s, op);
    }
  }

  lemma StatusAgrees(s: BoundaryState, t: Authority, o: Origin, status: Status)
    requires Agrees(s, t, o) && !s.status.Done? && !status.Done? && (status.AwaitingApproval? ==> s.reserved && s.config.scenario.ManualApproval?)
    ensures Agrees(s.(status := status), t, o)
  {
    hide OperationId, Other, Told, Owned;
    AcceptedLater(s, s.(status := status), t);
  }

  lemma FinishedAgrees(s: BoundaryState, t: Authority, o: Origin, result: RunResult)
    requires Agrees(s, t, o) && !s.reserved
    ensures Agrees(s.(status := Done, terminal := Some(result)), t, o)
  {
    hide OperationId, Other, Told, Owned;
    AcceptedLater(s, s.(status := Done, terminal := Some(result)), t);
  }

  lemma MessageAgrees(s: BoundaryState, t: Authority, o: Origin, m: Message)
    requires Agrees(s, t, o) && !m.OperationReply?
    ensures Agrees(s.(messages := s.messages + [m]), t, o)
  {
    hide OperationId, Other, Owned, Told, Replies;
    AcceptedLater(s, s.(messages := s.messages + [m]), t);
    MessageAdded(s.messages, t.receipts, m);
  }

  /** Proposals of earlier turns only: the state of a run whose next turn is being requested. */
  ghost predicate IssuedBefore(run: string, modelCalls: nat, t: Authority) {
    forall op | op in t.proposals :: exists turn: nat, index: nat :: Names(run, op, turn, index) && turn < modelCalls
  }

  lemma RequestedAgrees(s: BoundaryState, t: Authority, o: Origin)
    requires Agrees(s, t, o) && !s.reserved && s.modelCalls < 6
    ensures Agrees(s.(modelCalls := s.modelCalls + 1), t, o)
    ensures IssuedBefore(s.runId, s.modelCalls + 1, t)
  {
    hide OperationId, Other, Owned, Told, Names;
    AcceptedLater(s, s.(modelCalls := s.modelCalls + 1), t);
    forall op | op in t.proposals
      ensures exists turn: nat, index: nat :: Names(s.runId, op, turn, index) && turn < s.modelCalls + 1
    {
      assert Issued(s, op);
      var turn: nat, index: nat :| Names(s.runId, op, turn, index) && Accepted(s, turn, index);
    }
  }

  lemma PendingAgrees(s: BoundaryState, t: Authority, o: Origin, calls: seq<ToolCall>)
    requires Agrees(s, t, o) && !s.reserved && IssuedBefore(s.runId, s.modelCalls, t)
    ensures Agrees(s.(pending := calls, cursor := 0), t, o)
  {
    hide OperationId, Other, Owned, Told, Names;
    var next := s.(pending := calls, cursor := 0);
    forall op | op in t.proposals ensures Issued(next, op) {
      var turn: nat, index: nat :| Names(s.runId, op, turn, index) && turn < s.modelCalls;
      assert Accepted(next, turn, index);
    }
  }

  /** What a finished call has to show: a stored effect is an executed call, and a success is the truth. */
  predicate Honest(op: string, name: ToolName, r: ToolResult, t: Authority) {
    && (op in t.effects ==> r.executed)
    && (name.CreateTask? && r.ok ==>
      r.value.TaskValue? && op in t.receipts && t.receipts[op] == Receipt(r.value.task.title, r.value.task.id))
  }

  lemma RepliedAgrees(s: BoundaryState, t: Authority, o: Origin, r: ToolResult)
    requires Agrees(s, t, o) && s.reserved && s.status.Running?
    requires Honest(CurrentOperation(s), s.pending[s.cursor].name, r, t)
    ensures Agrees(Replied(s, CurrentOperation(s), s.pending[s.cursor].name, r), t, o)
  {
    hide OperationId, Other, Owned, Told, Replies;
    var op, name := CurrentOperation(s), s.pending[s.cursor].name;
    AcceptedLater(s, Replied(s, op, name, r), t);
    MessageAdded(s.messages, t.receipts, OperationReply(op, name, r));
  }

  lemma MessageAdded(messages: seq<Message>, receipts: map<string, Receipt>, m: Message)
    requires Told(messages, receipts)
    requires m.OperationReply? && m.toolName.CreateTask? && m.result.ok ==>
      m.result.value.TaskValue? && m.operation in receipts
      && receipts[m.operation] == Receipt(m.result.value.task.title, m.result.value.task.id)
    ensures Told(messages + [m], receipts)
    ensures Replies(messages + [m]) == Replies(messages) + if m.OperationReply? then 1 else 0
  {
    assert (messages + [m])[..|messages|] == messages;
  }

  // ---- Transactions -----------------------------------------------------------------------

  /** The accepted call in flight asks for a task with this title. */
  predicate Creating(s: BoundaryState, op: string, title: string) {
    && s.reserved && s.cursor < |s.pending| && op == CurrentOperation(s)
    && s.pending[s.cursor] == ToolCall(CreateTask, TitleArgument(title)) && !Blank(title)
  }

  lemma ProposalAgrees(s: BoundaryState, t: Authority, o: Origin, op: string, title: string, x: string, p: Proposal)
    requires Agrees(s, t, o) && Creating(s, op, title) && p.title == title
    requires p.consumed == if x in t.proposals then t.proposals[x].consumed else None
    requires if x == op then Undecided(s.config.scenario, p, op in s.configured, t.policyRevision)
             else x == Other(op) && op in t.proposals
    ensures Agrees(s, t.(proposals := t.proposals[x := p]), o)
  {
    hide OperationId, Told, Settled, Accounted, CallsAnswered, Undecided;
    assert |Other(op)| == |op| + 6;
    var t' := t.(proposals := t.proposals[x := p]);
    forall y | y in t'.proposals ensures Issued(s, y) {
      if y == x {
        assert Names(s.runId, x, s.modelCalls, s.cursor) by { OperationOf(s, t, o); }
        assert Accepted(s, s.modelCalls, s.cursor);
      } else {
        assert y in t.proposals;
      }
    }
    assert Settled(s, t') by { SettledProposals(s, t, x, p); }
  }

  lemma OperationOf(s: BoundaryState, t: Authority, o: Origin)
    requires Agrees(s, t, o) && s.reserved
    ensures CurrentOperation(s) == OperationId(s.runId, s.modelCalls, s.cursor)
  {
  }

  lemma SettledProposals(s: BoundaryState, t: Authority, x: string, p: Proposal)
    requires Settled(s, t)
    ensures Settled(s, t.(proposals := t.proposals[x := p]))
  {
  }

  /** A transaction that is not refused, keeps the agreement and stores no task but a new one keeps it all. */
  lemma TransactedKeeps(w: World, o: Origin, step: Step)
    requires Inv(w, o) && RunnerStep(step, w.state.config.enforce) && !Refused(w.authority, step)
    requires Agrees(w.state, Apply(w.authority, step), o)
    requires Unused(Apply(w.authority, step).tasks, w.drawn + 1)
    ensures Inv(Transacted(w, step), o)
    ensures w.fuel > 0 ==> Transacted(w, step) == w.(authority := Apply(w.authority, step), fuel := w.fuel - 1, drawn := w.drawn + 1)
  {
    hide Agrees, Apply, Refused, RunnerStep, Unused, Reached, Origin.Valid;
    ReachedNext(o.authority, w.authority, w.state.config.enforce, step);
  }

  lemma ProposeKeeps(w: World, o: Origin, op: string, title: string, x: string)
    requires Inv(w, o) && Creating(w.state, op, title)
    requires x == op || (x == Other(op) && op in w.authority.proposals)
    ensures Inv(Transacted(w, Propose(x, title)), o)
    ensures w.fuel > 0 ==> x in Transacted(w, Propose(x, title)).authority.proposals
    ensures Transacted(w, Propose(x, title)).state == w.state && Transacted(w, Propose(x, title)).fuel <= w.fuel
    ensures op in w.authority.proposals ==> op in Transacted(w, Propose(x, title)).authority.proposals
  {
    hide Agrees, Reached, Origin.Valid, Blank, ProposalsHold, EffectsHold, Owned, OperationId, Other;
    var s, t := w.state, w.authority;
    StoreHolds(w, o);
    OperationOf(s, t, o);
    NamesAreNotBlank(s.runId, s.modelCalls, s.cursor);
    if x !in t.proposals {
      NewProposalUndecided(s, t, o, x, Proposal(t.runId, title, t.requestRevision, t.policyRevision, Pending, None, None, None));
      ProposalAgrees(s, t, o, op, title, x, Proposal(t.runId, title, t.requestRevision, t.policyRevision, Pending, None, None, None));
    } else {
      ProposalRun(t, x);
      ProposalTitle(s, t, o, op, title, x);
    }
    TransactedKeeps(w, o, Propose(x, title));
  }

  lemma ProposalTitle(s: BoundaryState, t: Authority, o: Origin, op: string, title: string, x: string)
    requires Agrees(s, t, o) && Creating(s, op, title) && x in t.proposals && (x == op || x == Other(op))
    ensures t.proposals[x].title == title
  {
    hide OperationId, Other, Named, Charged, Told, CallsAnswered, Settled, Withheld, Accounted;
  }

  /** An operation is not configured before it is proposed. */
  lemma NewProposalUndecided(s: BoundaryState, t: Authority, o: Origin, op: string, p: Proposal)
    requires Agrees(s, t, o) && op !in t.proposals && p.decision.Pending?
    ensures Undecided(s.config.scenario, p, op in s.configured, t.policyRevision)
  {
    hide Charged, Told, CallsAnswered, Settled, Withheld, Accounted, Current;
  }

  lemma ProposalRun(t: Authority, x: string)
    requires ProposalsHold(t) && x in t.proposals
    ensures t.proposals[x].runId == t.runId
  {
  }

  lemma DecideKeeps(w: World, o: Origin, op: string, title: string, x: string, approve: bool, ttl: real, now: real)
    requires Inv(w, o) && Creating(w.state, op, title) && 0.0 < ttl <= 3600.0
    requires x in w.authority.proposals && w.authority.proposals[x].decision.Pending?
    requires if x == op then !(w.state.config.scenario.MissingGrant? || w.state.config.scenario.CrossOperation?)
                             && (w.state.config.scenario.RejectedGrant? ==> !approve)
             else x == Other(op)
    ensures Inv(Transacted(w, Decide(x, approve, ttl, now)), o)
    ensures w.fuel > 0 ==> Transacted(w, Decide(x, approve, ttl, now)).fuel == w.fuel - 1
    ensures Transacted(w, Decide(x, approve, ttl, now)).state == w.state
    ensures Transacted(w, Decide(x, approve, ttl, now)).authority.proposals.Keys == w.authority.proposals.Keys
  {
    hide OperationId, Told, Charged, Settled, CallsAnswered, Accounted, Reached, Origin.Valid, Blank, ProposalsHold, EffectsHold;
    var s, t := w.state, w.authority;
    StoreHolds(w, o);
    ProposalRun(t, x);
    var step := Decide(x, approve, ttl, now);
    ProposalAgrees(s, t, o, op, title, x, Apply(t, step).proposals[x]);
    TransactedKeeps(w, o, step);
  }

  lemma RevisionKeeps(w: World, o: Origin)
    requires Inv(w, o) && w.state.reserved && CurrentOperation(w.state) !in w.state.configured
    ensures Inv(Transacted(w, ChangeRevision), o)
    ensures w.fuel > 0 ==> Transacted(w, ChangeRevision).authority == Revised(w.authority)
    ensures Transacted(w, ChangeRevision).state == w.state
  {
    hide OperationId, Other, Told, CallsAnswered, Accounted, Reached, Origin.Valid, Owned, Issued;
    TransactedKeeps(w, o, ChangeRevision);
  }

  // ---- The scenario's decision ----------------------------------------------------------

  /** What a stage of `tool_step` leaves alone: the call in flight, and the proposal made for it. */
  predicate SameCall(a: World, b: World, op: string) {
    && b.state.(configured := a.state.configured) == a.state
    && (op in a.authority.proposals ==> op in b.authority.proposals)
    && b.fuel <= a.fuel
  }

  lemma OtherApprovedKeeps(w: World, o: Origin, op: string, title: string, env: Env)
    requires Inv(w, o) && Creating(w.state, op, title) && op in w.authority.proposals
    ensures Inv(OtherApproved(w, op, title, env), o) && SameCall(w, OtherApproved(w, op, title, env), op)
    ensures OtherApproved(w, op, title, env).state == w.state
  {
    hide Inv, Other, Apply, Refused;
    if w.Live() {
      ProposeKeeps(w, o, op, title, Other(op));
      var w1 := Transacted(w, Propose(Other(op), title));
      if w1.Live() && Other(op) in w1.authority.proposals && w1.authority.proposals[Other(op)].decision.Pending? {
        OtherDiffers(op);
        DecideKeeps(w1, o, op, title, Other(op), true, 300.0, env.clock(w1.drawn));
      }
    }
  }

  lemma OtherDiffers(op: string)
    ensures Other(op) != op
  {
    assert |Other(op)| == |op| + 6;
  }

  lemma GrantAgrees(s: BoundaryState, t: Authority, o: Origin, op: string, title: string, step: Step)
    requires Agrees(s, t, o) && Creating(s, op, title) && op in t.proposals && s.context.Some? && t.proposals[op].runId == t.runId
    requires step.ScenarioGrant? && step.op == op
    ensures !Refused(t, step) && Agrees(s, Apply(t, step), o) && op in Apply(t, step).proposals
    ensures Apply(t, step) == t.(proposals := Apply(t, step).proposals)
  {
    hide Agrees, Creating, OperationId, Other, Apply, Refused;
    PolicyKnown(s, t, o);
    GrantShape(t, step);
    ProposalTitle(s, t, o, op, title, op);
    ProposalAgrees(s, t, o, op, title, op, Apply(t, step).proposals[op]);
  }

  lemma GrantKeeps(w: World, o: Origin, op: string, title: string, stale: bool, env: Env)
    requires Inv(w, o) && Creating(w.state, op, title) && op in w.authority.proposals && w.state.context.Some?
    ensures Inv(ScenarioGrantMade(w, op, stale, env), o) && SameCall(w, ScenarioGrantMade(w, op, stale, env), op)
    ensures ScenarioGrantMade(w, op, stale, env).state == w.state
  {
    hide Agrees, Reached, Origin.Valid, Creating, ProposalsHold, EffectsHold, OperationId, Other, Unused, Apply, Refused;
    var s, t := w.state, w.authority;
    StoreHolds(w, o);
    ProposalRun(t, op);
    var step := ScenarioGrant(op, stale, env.clock(w.drawn), w.fuel);
    GrantAgrees(s, t, o, op, title, step);
    ReachedNext(o.authority, t, s.config.enforce, step);
    UnusedLater(t.tasks, w.drawn);
  }

  lemma PolicyKnown(s: BoundaryState, t: Authority, o: Origin)
    requires Agrees(s, t, o)
    ensures (t.policy.Some? <==> s.context.Some?) && (s.context.Some? <==> s.config.scenario.ContextCase?)
  {
  }

  /** A scenario grant for a known operation touches nothing but its proposal. */
  lemma GrantShape(t: Authority, step: Step)
    requires step.ScenarioGrant? && t.policy.Some? && step.op in t.proposals && t.proposals[step.op].runId == t.runId
    ensures !Refused(t, step)
    ensures var t' := Apply(t, step);
      && step.op in t'.proposals && t' == t.(proposals := t.proposals[step.op := t'.proposals[step.op]])
      && t'.proposals[step.op].title == t.proposals[step.op].title
      && t'.proposals[step.op].consumed == t.proposals[step.op].consumed
  {
    hide Existing;
    assert t.proposals == t.proposals[step.op := t.proposals[step.op]];
  }

  lemma UnusedLater(tasks: map<string, string>, drawn: nat)
    requires Unused(tasks, drawn)
    ensures Unused(tasks, drawn + 1)
  {
  }

  lemma ScenarioDecidedKeeps(w: World, o: Origin, op: string, title: string, env: Env)
    requires Inv(w, o) && Creating(w.state, op, title) && op in w.authority.proposals
    ensures var w' := ScenarioDecided(w, op, env);
      && Inv(w', o) && SameCall(w, w', op) && w'.state == w.state && w'.authority.policyRevision == w.authority.policyRevision
      && op in w'.authority.proposals && w'.authority.proposals[op].policyRevision == w.authority.proposals[op].policyRevision
  {
    hide Inv, Creating, Refused, Blank;
    var s := w.state;
    if !Waits(s.config.scenario) && w.authority.proposals[op].decision.Pending? {
      DecideKeeps(w, o, op, title, op, !s.config.scenario.RejectedGrant?, ScenarioTtl(s.config.scenario), env.clock(w.drawn));
    }
  }

  lemma ScenarioTransactedKeeps(w: World, o: Origin, op: string, title: string, env: Env)
    requires Inv(w, o) && Creating(w.state, op, title) && op in w.authority.proposals && op !in w.state.configured
    ensures var w' := ScenarioTransacted(w, op, env);
      && Inv(w', o) && SameCall(w, w', op) && w'.state == w.state && op in w'.authority.proposals
      && (w.state.config.scenario.ChangedRevision? && w'.fuel > 0 ==> w'.authority.proposals[op].policyRevision != w'.authority.policyRevision)
  {
    hide Inv, Creating, Transacted, OtherApproved, ScenarioGrantMade, ScenarioDecided;
    var s := w.state;
    if s.context.Some? {
      GrantKeeps(w, o, op, title, Stale(s, w.authority, op), env);
      NotChangedRevision(w, o);
    } else {
      var w1 := ScenarioDecided(w, op, env);
      ScenarioDecidedKeeps(w, o, op, title, env);
      TitleOf(w, o, op, title);
      if s.config.scenario.CrossOperation? { OtherApprovedKeeps(w1, o, op, title, env); }
      var w2 := if s.config.scenario.CrossOperation? then OtherApproved(w1, op, title, env) else w1;
      if s.config.scenario.ChangedRevision? {
        RevisionMoved(w2, o, op, title, w.authority.proposals[op].policyRevision);
      }
    }
  }

  lemma ScenarioConfiguredKeeps(w: World, o: Origin, op: string, title: string, env: Env)
    requires Inv(w, o) && Creating(w.state, op, title) && op in w.authority.proposals
    ensures var w' := ScenarioConfigured(w, op, env);
      Inv(w', o) && SameCall(w, w', op) && (w'.fuel > 0 ==> op in w'.state.configured)
  {
    hide Inv, Creating, Saved, ScenarioTransacted;
    NotRaised(w, o);
    var s := w.state;
    if w.Live() && op !in s.configured {
      ScenarioTransactedKeeps(w, o, op, title, env);
      var event := if s.context.Some? then ScopedGrant(op, Stale(s, w.authority, op)) else ScenarioApplied(op);
      ConfigurationSaved(ScenarioTransacted(w, op, env), o, op, title, event);
    }
  }

  lemma RevisionMoved(w: World, o: Origin, op: string, title: string, proposed: int)
    requires Inv(w, o) && Creating(w.state, op, title) && op !in w.state.configured
    requires op in w.authority.proposals && w.authority.proposals[op].policyRevision == proposed
    ensures var w' := if w.authority.policyRevision == proposed then Transacted(w, ChangeRevision) else w;
      && Inv(w', o) && SameCall(w, w', op) && w'.state == w.state && op in w'.authority.proposals
      && (w'.fuel > 0 ==> w'.authority.proposals[op].policyRevision != w'.authority.policyRevision)
  {
    hide Inv;
    RevisionKeeps(w, o);
  }

  lemma TitleOf(w: World, o: Origin, op: string, title: string)
    requires Inv(w, o) && Creating(w.state, op, title) && op in w.authority.proposals
    ensures w.authority.proposals[op].title == title
  {
    hide Agrees, Creating, Reached, Origin.Valid, Unused;
    ProposalTitle(w.state, w.authority, o, op, title, op);
  }

  lemma NotChangedRevision(w: World, o: Origin)
    requires Inv(w, o) && w.state.context.Some?
    ensures w.state.config.scenario.ContextCase?
  {
    hide Agrees, Reached, Origin.Valid, Unused;
    PolicyKnown(w.state, w.authority, o);
  }

  lemma ConfigurationSaved(w: World, o: Origin, op: string, title: string, event: Event)
    requires Inv(w, o) && Creating(w.state, op, title) && op in w.authority.proposals
    requires w.state.config.scenario.ChangedRevision? && w.fuel > 0 ==> w.authority.proposals[op].policyRevision != w.authority.policyRevision
    ensures var w' := Saved(w, event, w.state.(configured := w.state.configured + [op]));
      Inv(w', o) && SameCall(w, w', op) && (w'.fuel > 0 ==> op in w'.state.configured)
  {
    hide Agrees, Reached, Origin.Valid, Unused, BoundaryState.Consistent;
    if w.fuel > 0 {
      ConfiguredAgrees(w.state, w.authority, o);
      SavedKeeps(w, event, w.state.(configured := w.state.configured + [op]), o);
    }
  }

  lemma NotRaised(w: World, o: Origin)
    requires Inv(w, o)
    ensures !w.raised
  {
  }

  // ---- The write ----------------------------------------------------------------------------

  /** Under a forbidding scenario the admission check always finds a reason to deny. */
  lemma ForbiddenIsDenied(s: BoundaryState, t: Authority, o: Origin, op: string, title: string, now: real)
    requires Agrees(s, t, o) && Creating(s, op, title) && op in t.proposals && op in s.configured
    requires Forbidding(s.config.scenario)
    ensures !Admission(t, op, WrittenTitle(s.config.scenario, title), now).Granted?
  {
    hide Named, Charged, Told, CallsAnswered, Settled, Accounted, Existing, Blank, OperationId, Other;
    assert |title + " changed"| != |title|;
  }

  lemma EffectedAgrees(s: BoundaryState, t: Authority, o: Origin, op: string, title: string, now: real, id: string, authorized: bool)
    requires Agrees(s, t, o) && Creating(s, op, title) && op in t.proposals && op in s.configured
    requires op !in t.receipts && op !in t.effects && id !in t.tasks
    requires Forbidding(s.config.scenario) ==> !authorized && !s.config.enforce
    ensures Agrees(s, Effected(t, op, WrittenTitle(s.config.scenario, title), now, id, authorized), o)
  {
    hide OperationId, CallsAnswered, Accounted, Blank;
    var t' := Effected(t, op, WrittenTitle(s.config.scenario, title), now, id, authorized);
    forall x | x in t'.proposals ensures Issued(s, x) {
      assert x in t.proposals;
    }
  }

  lemma WriteKeeps(w: World, o: Origin, op: string, title: string, env: Env)
    requires Inv(w, o) && Creating(w.state, op, title) && op in w.authority.proposals && op in w.state.configured
    ensures var step := WriteStep(w, op, WrittenTitle(w.state.config.scenario, title), env);
      var w' := Transacted(w, step);
      var written := Written(w.authority, op, step.title, step.enforce, step.now, step.id).0;
      && Inv(w', o) && SameCall(w, w', op) && w'.state == w.state && op in w'.authority.proposals
      && written.Success?
      && (w'.fuel > 0 ==> Decides(written.value.task, op, w'.authority))
  {
    hide Agrees, Reached, Origin.Valid, Creating, Unused, Written, Decides, WrittenTitle, Apply, Refused, RunnerStep;
    StoreHolds(w, o);
    WrittenAgrees(w.state, w.authority, o, op, title, WriteStep(w, op, WrittenTitle(w.state.config.scenario, title), env), w.drawn);
    TransactedKeeps(w, o, WriteStep(w, op, WrittenTitle(w.state.config.scenario, title), env));
  }

  lemma WrittenAgrees(s: BoundaryState, t: Authority, o: Origin, op: string, title: string, step: Step, drawn: nat)
    requires Agrees(s, t, o) && EffectsHold(t) && Unused(t.tasks, drawn)
    requires Creating(s, op, title) && op in t.proposals && op in s.configured
    requires step.Write? && step.op == op && step.title == WrittenTitle(s.config.scenario, title)
    requires step.enforce == s.config.enforce && step.id == Uuid(drawn)
    ensures var t' := Apply(t, step);
      var written := Written(t, op, step.title, step.enforce, step.now, step.id).0;
      && RunnerStep(step, s.config.enforce) && !Refused(t, step) && Agrees(s, t', o) && Unused(t'.tasks, drawn + 1)
      && op in t'.proposals && written.Success? && Decides(written.value.task, op, t')
  {
    hide Agrees, OperationId, Other, Admission, Effected;
    NotBlankWhenChanged(title);
    if op in t.receipts {
      ReceiptTitle(s, t, o, op, title);
    } else {
      var reason := Admission(t, op, step.title, step.now);
      assert op !in t.effects;
      if Forbidding(s.config.scenario) { ForbiddenIsDenied(s, t, o, op, title, step.now); }
      if !s.config.enforce || reason.Granted? {
        EffectedAgrees(s, t, o, op, title, step.now, step.id, reason.Granted?);
        EffectedShows(t, op, step.title, step.now, step.id, reason.Granted?);
      }
    }
  }

  lemma EffectedShows(t: Authority, op: string, title: string, now: real, id: string, authorized: bool)
    requires op in t.proposals
    ensures var t' := Effected(t, op, title, now, id, authorized);
      && t'.tasks == t.tasks[id := title] && op in t'.proposals && op in t'.receipts && t'.receipts[op] == Receipt(title, id)
  {
  }

  /** The decision and the receipts say the same. */
  predicate Decides(task: Option<Task>, op: string, t: Authority) {
    && (op in t.effects ==> task.Some?)
    && (task.Some? ==> op in t.receipts && t.receipts[op] == Receipt(task.value.title, task.value.id))
  }

  lemma NotBlankWhenChanged(title: string)
    requires !Blank(title)
    ensures !Blank(title + " changed")
  {
    var i :| 0 <= i < |title| && !IsSpace(title[i]);
    assert (title + " changed")[i] == title[i];
  }

  lemma ReceiptTitle(s: BoundaryState, t: Authority, o: Origin, op: string, title: string)
    requires Agrees(s, t, o) && Creating(s, op, title) && op in t.receipts
    ensures t.receipts[op].title == WrittenTitle(s.config.scenario, title)
  {
    hide OperationId, Other, Named, Charged, Told, CallsAnswered, Settled, Withheld, Accounted;
  }

  lemma EventKeeps(w: World, event: Event, o: Origin)
    requires Inv(w, o)
    ensures Inv(Saved(w, event, w.state), o) && Saved(w, event, w.state).state == w.state
    ensures Saved(w, event, w.state).authority == w.authority && Saved(w, event, w.state).fuel <= w.fuel
    ensures w.fuel == 0 ==> Saved(w, event, w.state) == w
  {
    hide Agrees;
    SavedKeeps(w, event, w.state, o);
  }

  lemma WriteRepeatedKeeps(w: World, o: Origin, op: string, title: string, env: Env)
    requires Inv(w, o) && Creating(w.state, op, title) && op in w.authority.proposals && op in w.state.configured
    requires op in w.authority.receipts
    ensures var w' := WriteRepeated(w, op, WrittenTitle(w.state.config.scenario, title), env);
      Inv(w', o) && w'.state == w.state && w'.authority == w.authority && w'.fuel <= w.fuel
  {
    hide Inv, Creating, Saved, Admission, Effected, Existing, Blank;
    var step := WriteStep(w, op, WrittenTitle(w.state.config.scenario, title), env);
    WriteKeeps(w, o, op, title, env);
    var w1 := Transacted(w, step);
    var written := Written(w.authority, op, step.title, step.enforce, step.now, step.id).0;
    EventKeeps(w1, WriteReplayed(op, written.value.task), o);
  }

  lemma WritePerformedKeeps(w: World, o: Origin, op: string, title: string, env: Env)
    requires Inv(w, o) && Creating(w.state, op, title) && op in w.authority.proposals && op in w.state.configured
    ensures var (r, w') := WritePerformed(w, op, WrittenTitle(w.state.config.scenario, title), env);
      && Inv(w', o) && SameCall(w, w', op) && w'.state == w.state
      && (w'.fuel > 0 ==> Honest(op, CreateTask, r, w'.authority))
  {
    hide Inv, Creating, Saved, Transacted, Written, WrittenTitle, WriteRepeated;
    var wt := WrittenTitle(w.state.config.scenario, title);
    var w1 := Saved(w, WriteAttempted(op, wt), w.state);
    EventKeeps(w, WriteAttempted(op, wt), o);
    WriteKeeps(w1, o, op, title, env);
    var step := WriteStep(w1, op, wt, env);
    var written := Written(w1.authority, op, step.title, step.enforce, step.now, step.id).0;
    var w2 := Transacted(w1, step);
    NotRaised(w2, o);
    if w2.fuel > 0 {
      EventKeeps(w2, WriteReturned(op, written.value), o);
      if w.state.config.scenario.ReplayedWrite? && written.value.task.Some? {
        WriteRepeatedKeeps(Saved(w2, WriteReturned(op, written.value), w2.state), o, op, title, env);
      }
    }
  }

  lemma CreatePerformedKeeps(w: World, o: Origin, op: string, title: string, env: Env)
    requires Inv(w, o) && Creating(w.state, op, title) && w.state.status.Running?
    ensures var (r, w') := CreatePerformed(w, op, title, env);
      && Inv(w', o) && Continues(w.state, w'.state) && w'.fuel <= w.fuel
      && (w'.state.status.AwaitingApproval? ==> w'.fuel < w.fuel)
      && (w'.fuel > 0 && w'.state.status.Running? ==> Honest(op, CreateTask, r, w'.authority))
  {
    hide Inv, Creating, Saved, Transacted, ScenarioConfigured, WritePerformed;
    ProposeKeeps(w, o, op, title, op);
    var w0 := Transacted(w, Propose(op, title));
    NotRaised(w, o);
    if w.fuel > 0 {
      ScenarioConfiguredKeeps(w0, o, op, title, env);
      var w1 := ScenarioConfigured(w0, op, env);
      NotRaised(w1, o);
      if w1.fuel > 0 {
        var s := w1.state;
        CreatingStill(w.state, s, op, title);
        if s.config.scenario.ManualApproval? && w1.authority.proposals[op].decision.Pending? && s.config.enforce {
          WaitingKeeps(w1, o, op, title);
        } else {
          WritePerformedKeeps(w1, o, op, title, env);
        }
      }
    } else {
      DeadStays(w, op, title, env);
    }
  }

  /** The call in flight, the messages and the accounts are untouched; the run still runs, or waits. */
  predicate Continues(a: BoundaryState, b: BoundaryState) {
    && b.(configured := a.configured, status := a.status) == a
    && (b.status == a.status || b.status.AwaitingApproval?)
  }

  lemma CreatingStill(a: BoundaryState, b: BoundaryState, op: string, title: string)
    requires Creating(a, op, title) && b.(configured := a.configured) == a
    ensures Creating(b, op, title)
  {
    assert CurrentOperation(b) == CurrentOperation(a);
  }

  lemma WaitingKeeps(w: World, o: Origin, op: string, title: string)
    requires Inv(w, o) && Creating(w.state, op, title) && w.state.status.Running? && w.state.config.scenario.ManualApproval?
    ensures var w' := Saved(w, ApprovalWaiting(op), w.state.(status := AwaitingApproval));
      Inv(w', o) && Continues(w.state, w'.state) && w'.fuel <= w.fuel && (w.fuel > 0 ==> w'.state.status.AwaitingApproval? && w'.fuel < w.fuel)
  {
    hide Agrees, Reached, Origin.Valid, Unused;
    StatusAgrees(w.state, w.authority, o, AwaitingApproval);
    SavedKeeps(w, ApprovalWaiting(op), w.state.(status := AwaitingApproval), o);
  }

  lemma DeadStays(w: World, op: string, title: string, env: Env)
    requires w.fuel == 0
    ensures CreatePerformed(w, op, title, env).1 == w
  {
    hide Apply, Refused;
  }

  // ---- tool_step ------------------------------------------------------------------------------

  /** Only a valid create call has anything stored. */
  lemma OtherCallsStoreNothing(w: World, o: Origin)
    requires Inv(w, o) && w.state.reserved && w.state.cursor < |w.state.pending|
    requires var call := w.state.pending[w.state.cursor]; !(call.name.CreateTask? && call.ValidArguments())
    ensures CurrentOperation(w.state) !in w.authority.effects
  {
    hide OperationId, Other, Named, Charged, Told, CallsAnswered, Settled, Withheld, Accounted, Reached, Origin.Valid, Unused;
    StoreHolds(w, o);
  }

  /** The prepared document still reads as it did, so delivering it never fails. */
  lemma GetPerformedKeeps(w: World, o: Origin, id: string)
    requires Inv(w, o)
    ensures var (r, w') := GetPerformed(w, id);
      Inv(w', o) && w'.state == w.state && w'.fuel <= w.fuel && w'.authority == w.authority && r.executed
  {
    hide Agrees, Saved;
    SettledFacts(w, o);
    EventKeeps(w, ReferenceRequested, o);
    EventKeeps(Saved(w, ReferenceRequested, w.state), ContextBlocked, o);
  }

  lemma SettledFacts(w: World, o: Origin)
    requires Inv(w, o)
    ensures Settled(w.state, w.authority)
  {
  }

  lemma PerformedKeeps(w: World, o: Origin, env: Env)
    requires Inv(w, o) && w.state.reserved && w.state.cursor < |w.state.pending| && w.state.status.Running?
    ensures var call := w.state.pending[w.state.cursor];
      var (r, w') := Performed(w, CurrentOperation(w.state), call, env);
      && Inv(w', o) && Continues(w.state, w'.state) && w'.fuel <= w.fuel
      && (w'.state.status.AwaitingApproval? ==> w'.fuel < w.fuel)
      && (w'.fuel > 0 && w'.state.status.Running? ==> Honest(CurrentOperation(w.state), call.name, r, w'.authority))
  {
    hide Inv, Saved, Transacted, CreatePerformed, GetPerformed, Blank;
    var call := w.state.pending[w.state.cursor];
    var op := CurrentOperation(w.state);
    if call.name.CreateTask? && call.ValidArguments() {
      CreatePerformedKeeps(w, o, op, call.arguments.title, env);
    } else {
      OtherCallsStoreNothing(w, o);
      SettledFacts(w, o);
      if call.name.GetTask? && call.ValidArguments() { GetPerformedKeeps(w, o, call.arguments.taskId); }
      EventKeeps(w, AuthoritativeRead, o);
    }
  }

  /** What a run was set up with. */
  predicate SameSetting(a: BoundaryState, b: BoundaryState) {
    && b.runId == a.runId && b.config == a.config && b.context == a.context && b.scanBlocked == a.scanBlocked
    && b.expectedTitle == a.expectedTitle
  }

  /** What one tool step, however far it got, does to the checkpoint: the call was interrupted or waits, with its
      charge paid at most once; or it was answered; or the budget ended the run before it was accepted. */
  predicate ToolOutcome(a: BoundaryState, b: BoundaryState) {
    && b.modelCalls == a.modelCalls && b.pending == a.pending && SameSetting(a, b)
    && (|| (&& !b.status.Done? && b.cursor == a.cursor && b.messages == a.messages && b.toolExecutions == a.toolExecutions
            && (a.reserved ==> b.reserved) && CurrentOperation(b) == CurrentOperation(a)
            && b.toolCalls == a.toolCalls + (if b.reserved && !a.reserved then 1 else 0))
        || (&& b.status.Running? && b.cursor == a.cursor + 1 && !b.reserved
            && b.toolCalls == a.toolCalls + (if a.reserved then 0 else 1)
            && |b.messages| == |a.messages| + 1 && b.messages[..|a.messages|] == a.messages
            && b.messages[|a.messages|].OperationReply? && b.messages[|a.messages|].operation == CurrentOperation(a))
        || (b.status.Done? && !a.reserved && a.toolCalls == 6 && b == a.(status := Done, terminal := b.terminal)))
  }

  /** Nothing in a step rejects a checkpoint or raises, wherever the process dies. */
  lemma ToolStepKeeps(w: World, o: Origin, env: Env)
    requires Inv(w, o) && w.state.status.Running? && w.state.cursor < |w.state.pending|
    ensures var w' := ToolStepped(w, env);
      && Inv(w', o) && ToolOutcome(w.state, w'.state) && (w.fuel > 0 ==> w'.fuel < w.fuel)
      && (w'.fuel > 0 ==> w'.state.cursor == w.state.cursor + 1 || !w'.state.status.Running?)
  {
    hide Inv, Saved, Performed, Honest;
    NotRaised(w, o);
    var s := w.state;
    var call, op := s.pending[s.cursor], CurrentOperation(s);
    if w.fuel == 0 {
      DeadToolStep(w, env);
    } else if !s.reserved && s.toolCalls >= 6 {
      AccountedFacts(w, o);
      FinishKeeps(w, o, ToolLimit, None, Some(ToolBudget));
    } else {
      var w1 := if s.reserved then w else Saved(w, ToolRequested(op, call), Reserved(s));
      if !s.reserved { ReservationKeeps(w, o); }
      PerformedKeeps(w1, o, env);
      var (r, w2) := Performed(w1, op, call, env);
      NotRaised(w2, o);
      if !w2.state.status.AwaitingApproval? { ReplySaved(w2, o, r); }
    }
  }

  lemma FuelIsFree(w: World, o: Origin, fuel: nat)
    requires Inv(w, o)
    ensures Inv(w.(fuel := fuel), o)
  {
    hide Agrees, Reached, Origin.Valid, Unused;
  }

  lemma RunningKeeps(w: World, o: Origin)
    requires Inv(w, o) && !w.state.status.Done?
    ensures Inv(Saved(w, RunResumed, w.state.(status := Running)), o)
  {
    hide Agrees, Reached, Origin.Valid, Unused;
    StatusAgrees(w.state, w.authority, o, Running);
    SavedKeeps(w, RunResumed, w.state.(status := Running), o);
  }

  lemma AccountedFacts(w: World, o: Origin)
    requires Inv(w, o)
    ensures Accounted(w.state)
  {
  }

  lemma FinishKeeps(w: World, o: Origin, status: ExecutionStatus, content: Option<Content>, error: Option<StopReason>)
    requires Inv(w, o) && !w.state.reserved
    ensures var w' := Finish(w, status, content, error);
      && Inv(w', o) && (w.fuel == 0 ==> w' == w) && (w.fuel > 0 ==> w'.fuel == w.fuel - 1)
      && (w.fuel > 0 ==> w'.state == w.state.(status := Done, terminal := w'.state.terminal))
  {
    hide Agrees, Reached, Origin.Valid, Unused;
    var s := w.state;
    var result := RunResult(status, content, s.modelCalls, s.toolCalls, s.toolExecutions, error);
    FinishedAgrees(s, w.authority, o, result);
    SavedKeeps(w, RunStopped, s.(status := Done, terminal := Some(result)), o);
  }

  lemma ReservationKeeps(w: World, o: Origin)
    requires Inv(w, o) && w.state.status.Running? && !w.state.reserved && w.state.cursor < |w.state.pending|
    requires w.state.toolCalls < 6 && w.fuel > 0
    ensures var op, call := CurrentOperation(w.state), w.state.pending[w.state.cursor];
      var w' := Saved(w, ToolRequested(op, call), Reserved(w.state));
      Inv(w', o) && w'.fuel == w.fuel - 1 && w'.state == Reserved(w.state) && CurrentOperation(w'.state) == op
  {
    hide Agrees, Reached, Origin.Valid, Unused;
    StoreHolds(w, o);
    ReservedAgrees(w.state, w.authority, o);
    SavedKeeps(w, ToolRequested(CurrentOperation(w.state), w.state.pending[w.state.cursor]), Reserved(w.state), o);
  }

  lemma ReplySaved(w: World, o: Origin, r: ToolResult)
    requires Inv(w, o) && w.state.status.Running? && w.state.reserved && w.state.cursor < |w.state.pending|
    requires w.fuel > 0 ==> Honest(CurrentOperation(w.state), w.state.pending[w.state.cursor].name, r, w.authority)
    ensures var op, call := CurrentOperation(w.state), w.state.pending[w.state.cursor];
      var w' := Saved(w, ToolReturned(op, r), Replied(w.state, op, call.name, r));
      && Inv(w', o) && (w.fuel == 0 ==> w' == w)
      && (w.fuel > 0 ==> w'.state == Replied(w.state, op, call.name, r) && w'.fuel == w.fuel - 1)
  {
    hide Agrees, Reached, Origin.Valid, Unused, Honest, BoundaryState.Consistent;
    if w.fuel > 0 {
      RepliedAgrees(w.state, w.authority, o, r);
      SavedKeeps(w, ToolReturned(CurrentOperation(w.state), r),
                 Replied(w.state, CurrentOperation(w.state), w.state.pending[w.state.cursor].name, r), o);
    }
  }

  lemma DeadToolStep(w: World, env: Env)
    requires w.fuel == 0 && w.state.cursor < |w.state.pending| && w.state.status.Running?
    ensures ToolStepped(w, env) == w
  {
    hide Apply, Refused, CreatePerformed;
    var call, op := w.state.pending[w.state.cursor], CurrentOperation(w.state);
    if call.name.CreateTask? && call.ValidArguments() {
      DeadStays(w, op, call.arguments.title, env);
    }
  }

  // ---- model_step -------------------------------------------------------------------------------

  lemma RefreshedKeeps(w: World, o: Origin, env: Env)
    requires Inv(w, o)
    ensures var w' := Refreshed(w, env);
      && Inv(w', o) && w'.authority == w.authority && w'.state.(messages := w.state.messages) == w.state
  {
    hide Agrees, Reached, Origin.Valid, Unused;
    SettledFacts(w, o);
    if w.state.context.Some? {
      var m := System(Plain(env.describe(RequestState(w.authority))));
      MessageAgrees(w.state, w.authority, o, m);
      SavedKeeps(w, AuthoritativeRefresh, w.state.(messages := w.state.messages + [m]), o);
    }
  }

  lemma RequestKeeps(w: World, o: Origin)
    requires Inv(w, o) && !w.state.reserved && w.state.modelCalls < 6
    ensures var next := w.state.(modelCalls := w.state.modelCalls + 1);
      var w' := Saved(w, ModelRequested, next);
      && Inv(w', o) && w'.authority == w.authority && (w.fuel == 0 ==> w' == w)
      && (w.fuel > 0 ==> w'.state == next && w'.fuel == w.fuel - 1 && IssuedBefore(next.runId, next.modelCalls, w.authority))
  {
    hide Agrees, Reached, Origin.Valid, Unused, BoundaryState.Consistent;
    RequestedAgrees(w.state, w.authority, o);
    SavedKeeps(w, ModelRequested, w.state.(modelCalls := w.state.modelCalls + 1), o);
  }

  lemma TurnKeeps(w: World, o: Origin, m: Message, calls: seq<ToolCall>)
    requires Inv(w, o) && !w.state.reserved && !m.OperationReply?
    requires w.fuel > 0 ==> IssuedBefore(w.state.runId, w.state.modelCalls, w.authority)
    ensures var next := w.state.(messages := w.state.messages + [m], pending := calls, cursor := 0);
      var w' := Saved(w, AssistantCheckpoint, next);
      && Inv(w', o) && (w.fuel == 0 ==> w' == w) && (w.fuel > 0 ==> w'.state == next && w'.fuel == w.fuel - 1)
  {
    hide Agrees, Reached, Origin.Valid, Unused, BoundaryState.Consistent, IssuedBefore;
    if w.fuel > 0 {
      MessageAgrees(w.state, w.authority, o, m);
      PendingAgrees(w.state.(messages := w.state.messages + [m]), w.authority, o, calls);
      SavedKeeps(w, AssistantCheckpoint, w.state.(messages := w.state.messages + [m], pending := calls, cursor := 0), o);
    }
  }

  /** What one model step, however far it got, does to the checkpoint. */
  predicate ModelOutcome(a: BoundaryState, b: BoundaryState) {
    && SameSetting(a, b) && b.toolCalls == a.toolCalls && b.toolExecutions == a.toolExecutions
    && !b.reserved && a.modelCalls <= b.modelCalls <= a.modelCalls + 1
    && (|| (b.status.Running? && b.cursor == a.cursor && b.pending == a.pending)
        || (b.status.Running? && b.cursor == 0 && b.pending != [] && b.modelCalls == a.modelCalls + 1)
        || b.status.Done?)
  }

  lemma AnswerKeeps(w: World, o: Origin, answer: ClientReply)
    requires Inv(w, o) && w.state.status.Running? && w.state.cursor == |w.state.pending| && !w.state.reserved
    requires w.fuel > 0 ==> IssuedBefore(w.state.runId, w.state.modelCalls, w.authority)
    ensures var w' := AnswerTaken(w, answer);
      && Inv(w', o) && (w.fuel == 0 ==> w' == w) && (w'.fuel > 0 ==> w'.state.status.Done? || w'.state.cursor == 0)
      && w'.state.(messages := w.state.messages, status := Running, terminal := None, pending := w.state.pending, cursor := w.state.cursor)
         == w.state.(status := Running, terminal := None)
      && (|| w'.state == w.state || w'.state.status.Done?
          || (w'.state.status.Running? && w'.state.cursor == 0 && w'.state.pending != []))
  {
    hide Inv, Saved, Finish, IssuedBefore;
    match answer
    case ProviderError(error) => {
      FinishKeeps(w, o, ProviderFailed, None, Some(Provider(error)));
    }
    case Answered(turn) => {
      EventKeeps(w, ModelReturned(turn), o);
      var w1 := Saved(w, ModelReturned(turn), w.state);
      if turn.truncated {
        FinishKeeps(w1, o, ProtocolError, Some(turn.content), Some(OutputLimit));
      } else if turn.calls == [] {
        if turn.content.Empty() {
          FinishKeeps(w1, o, ProtocolError, Some(turn.content), Some(EmptyResponse));
        } else {
          FinishKeeps(w1, o, Finished, Some(turn.content), None);
        }
      } else {
        TurnKeeps(w1, o, Assistant(turn.content, turn.calls), turn.calls);
      }
    }
  }

  lemma ModelStepKeeps(w: World, o: Origin, env: Env)
    requires Inv(w, o) && w.state.status.Running? && w.state.cursor == |w.state.pending|
    ensures var w' := ModelStepped(w, env);
      && Inv(w', o) && ModelOutcome(w.state, w'.state) && (w.fuel > 0 ==> w'.fuel < w.fuel)
      && (w'.fuel > 0 ==> w'.state.status.Done? || w'.state.modelCalls == w.state.modelCalls + 1)
  {
    hide Inv, Saved, Finish, Refreshed, IssuedBefore, AnswerTaken;
    AccountedFacts(w, o);
    if w.state.modelCalls >= 6 {
      FinishKeeps(w, o, ModelLimit, None, Some(ModelBudget));
    } else {
      RefreshedKeeps(w, o, env);
      var w1 := Refreshed(w, env);
      RequestKeeps(w1, o);
      var w2 := Saved(w1, ModelRequested, w1.state.(modelCalls := w1.state.modelCalls + 1));
      AnswerKeeps(w2, o, env.client(w2.state.messages, w2.state.modelCalls));
    }
  }
}
