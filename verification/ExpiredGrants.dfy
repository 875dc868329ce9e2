/** The expired-grant scenario: once the clock has moved past a grant's short life, no write is admitted. */
module ExpiredGrants {
  import opened Wrappers
  import opened Records
  import opened Permissions
  import opened Agent
  import opened ContextEvaluation
  import opened OperationNames
  import opened Boundaries
  import opened BoundaryInvariant
  import opened LanggraphRuntime

  /** Between two readings of the clock passes at least the life of a short grant, as it does when the scenario
      sleeps after granting. */
  ghost predicate Lapsing(env: Env) {
    forall i: nat, j: nat :: i < j ==> env.clock(i) + 0.001 <= env.clock(j)
  }

  /** Every grant was given at an earlier reading and ends by the next one; nothing was written. */
  ghost predicate Unwritten(t: Authority, drawn: nat, env: Env) {
    && t.effects == map[] && t.receipts == map[]
    && forall op | op in t.proposals && t.proposals[op].decision.Approved? :: GivenBefore(t.proposals[op], drawn, env)
  }

  ghost predicate GivenBefore(p: Proposal, drawn: nat, env: Env) {
    exists k: nat :: k < drawn && p.expiresAt == Some(env.clock(k) + 0.001)
  }

  predicate ExpiredScenario(s: BoundaryState) {
    s.config.scenario.ExpiredGrant? && s.config.enforce && s.context.None?
  }

  ghost predicate Late(w: World, env: Env) {
    ExpiredScenario(w.state) && Unwritten(w.authority, w.drawn, env)
  }

  lemma GivenStill(p: Proposal, drawn: nat, env: Env)
    requires GivenBefore(p, drawn, env)
    ensures GivenBefore(p, drawn + 1, env)
  {
  }

  lemma SavedLate(w: World, event: Event, next: BoundaryState, env: Env)
    requires Late(w, env) && next.config == w.state.config && next.context == w.state.context
    ensures Late(Saved(w, event, next), env)
  {
    hide BoundaryState.Consistent;
  }

  lemma ProposedLate(w: World, op: string, title: string, env: Env)
    requires Late(w, env)
    ensures Late(Transacted(w, Propose(op, title)), env)
  {
    hide Blank, GivenBefore;
    forall x | x in w.authority.proposals && w.authority.proposals[x].decision.Approved?
      ensures GivenBefore(w.authority.proposals[x], w.drawn + 1, env)
    {
      GivenStill(w.authority.proposals[x], w.drawn, env);
    }
  }

  lemma DecidedLate(w: World, op: string, env: Env)
    requires Late(w, env) && op in w.authority.proposals
    ensures Late(ScenarioDecided(w, op, env), env)
  {
    hide Blank, GivenBefore;
    var t := w.authority;
    forall x | x in t.proposals && t.proposals[x].decision.Approved? ensures GivenBefore(t.proposals[x], w.drawn + 1, env) {
      GivenStill(t.proposals[x], w.drawn, env);
    }
    var p := t.proposals[op].(decision := Approved, grantedAt := Some(env.clock(w.drawn)), expiresAt := Some(env.clock(w.drawn) + 0.001));
    assert GivenBefore(p, w.drawn + 1, env) by { GivenNow(p, w.drawn, env); }
  }

  lemma GivenNow(p: Proposal, drawn: nat, env: Env)
    requires p.expiresAt == Some(env.clock(drawn) + 0.001)
    ensures GivenBefore(p, drawn + 1, env)
  {
  }

  lemma ScenarioLate(w: World, op: string, env: Env)
    requires Late(w, env)
    ensures Late(ScenarioConfigured(w, op, env), env)
  {
    hide Unwritten, Saved, ScenarioDecided;
    if w.Live() && op in w.authority.proposals && op !in w.state.configured {
      DecidedLate(w, op, env);
      var w1 := ScenarioDecided(w, op, env);
      assert w1.state == w.state by { DecisionKeepsState(w, op, env); }
      SavedLate(w1, ScenarioApplied(op), w.state.(configured := w.state.configured + [op]), env);
    }
  }

  lemma DecisionKeepsState(w: World, op: string, env: Env)
    requires op in w.authority.proposals
    ensures ScenarioDecided(w, op, env).state == w.state
  {
  }

  /** No grant given at an earlier reading admits a write at this one. */
  lemma LateWriteIsDenied(t: Authority, drawn: nat, env: Env, op: string, title: string)
    requires Lapsing(env) && Unwritten(t, drawn, env) && op in t.proposals
    ensures !Admission(t, op, title, env.clock(drawn)).Granted?
  {
    hide Existing;
    if t.proposals[op].decision.Approved? {
      assert GivenBefore(t.proposals[op], drawn, env);
      var k: nat :| k < drawn && t.proposals[op].expiresAt == Some(env.clock(k) + 0.001);
      assert env.clock(k) + 0.001 <= env.clock(drawn);
    }
  }

  lemma WriteLate(w: World, op: string, title: string, env: Env)
    requires Lapsing(env) && Late(w, env)
    ensures Late(Transacted(w, WriteStep(w, op, title, env)), env)
    ensures var step := WriteStep(w, op, title, env);
      var written := Written(w.authority, op, title, step.enforce, step.now, step.id).0;
      written.Success? ==> written.value.task.None?
  {
    hide Admission, GivenBefore, Blank;
    if op in w.authority.proposals { LateWriteIsDenied(w.authority, w.drawn, env, op, title); }
    forall x | x in w.authority.proposals && w.authority.proposals[x].decision.Approved?
      ensures GivenBefore(w.authority.proposals[x], w.drawn + 1, env)
    {
      GivenStill(w.authority.proposals[x], w.drawn, env);
    }
  }

  lemma WritePerformedLate(w: World, op: string, title: string, env: Env)
    requires Lapsing(env) && Late(w, env)
    ensures Late(WritePerformed(w, op, title, env).1, env)
  {
    hide Unwritten, Saved, Transacted, Written, WriteRepeated;
    var w1 := Saved(w, WriteAttempted(op, title), w.state);
    SavedLate(w, WriteAttempted(op, title), w.state, env);
    WriteLate(w1, op, title, env);
    var step := WriteStep(w1, op, title, env);
    var written := Written(w1.authority, op, title, step.enforce, step.now, step.id).0;
    if written.Success? {
      SavedLate(Transacted(w1, step), WriteReturned(op, written.value), Transacted(w1, step).state, env);
    }
  }

  lemma CreateLate(w: World, op: string, title: string, env: Env)
    requires Lapsing(env) && Late(w, env)
    ensures Late(CreatePerformed(w, op, title, env).1, env)
  {
    hide Unwritten, Saved, Transacted, ScenarioConfigured, WritePerformed;
    ProposedLate(w, op, title, env);
    ScenarioLate(Transacted(w, Propose(op, title)), op, env);
    var w1 := ScenarioConfigured(Transacted(w, Propose(op, title)), op, env);
    WritePerformedLate(w1, op, WrittenTitle(w1.state.config.scenario, title), env);
  }

  lemma ToolStepLate(w: World, env: Env)
    requires Lapsing(env) && Late(w, env) && w.state.cursor < |w.state.pending|
    ensures Late(ToolStepped(w, env), env)
  {
    hide Unwritten, Saved, CreatePerformed, Blank;
    var s := w.state;
    var call, op := s.pending[s.cursor], CurrentOperation(s);
    FinishLate(w, ToolLimit, None, Some(ToolBudget), env);
    SavedLate(w, ToolRequested(op, call), Boundaries.Reserved(s), env);
    var w1 := if s.reserved then w else Saved(w, ToolRequested(op, call), Boundaries.Reserved(s));
    if call.name.CreateTask? && call.ValidArguments() { CreateLate(w1, op, call.arguments.title, env); }
    var (r, w2) := Performed(w1, op, call, env);
    SavedLate(w2, ToolReturned(op, r), Replied(w2.state, op, call.name, r), env);
  }

  lemma FinishLate(w: World, status: ExecutionStatus, content: Option<Content>, error: Option<StopReason>, env: Env)
    requires Late(w, env)
    ensures Late(Finish(w, status, content, error), env)
  {
    hide Unwritten, Saved;
    var s := w.state;
    var result := RunResult(status, content, s.modelCalls, s.toolCalls, s.toolExecutions, error);
    SavedLate(w, RunStopped, s.(status := Done, terminal := Some(result)), env);
  }

  lemma ModelStepLate(w: World, env: Env)
    requires Late(w, env)
    ensures Late(ModelStepped(w, env), env)
  {
    hide Unwritten, BoundaryState.Consistent;
  }

  lemma {:induction false} AdvancedLate(w: World, o: Origin, env: Env)
    requires Inv(w, o) && Lapsing(env) && Late(w, env)
    ensures Late(Advanced(w, o, env), env)
    decreases w.fuel
  {
    hide Inv, Late, ToolStepped, ModelStepped;
    if w.fuel > 0 && w.state.status.Running? {
      StepKeeps(w, o, env);
      if w.state.cursor < |w.state.pending| { ToolStepLate(w, env); } else { ModelStepLate(w, env); }
      AdvancedLate(Stepped(w, env), o, env);
    }
  }

  /** However often it is interrupted and resumed, an enforced run of the expired-grant scenario writes nothing. */
  lemma {:induction false} ExpiredGrantWritesNothing(w: World, o: Origin, fuels: seq<nat>, env: Env)
    requires Inv(w, o) && Lapsing(env) && Late(w, env)
    ensures Late(Sessions(w, o, fuels, env), env)
    ensures |Sessions(w, o, fuels, env).authority.tasks| == |o.authority.tasks|
  {
    hide Inv, Late, Saved;
    if fuels != [] {
      var before := Sessions(w, o, fuels[..|fuels| - 1], env);
      ExpiredGrantWritesNothing(w, o, fuels[..|fuels| - 1], env);
      if !LanggraphRuntime.Ended(before.state) {
        var w1 := before.(fuel := fuels[|fuels| - 1]);
        FuelIsFree(before, o, w1.fuel);
        RunningKeeps(w1, o);
        ResumedLate(before, w1.fuel, env);
        AdvancedLate(Saved(w1, RunResumed, w1.state.(status := Running)), o, env);
      }
    }
    NothingStored(Sessions(w, o, fuels, env), o, env);
  }

  lemma ResumedLate(w: World, fuel: nat, env: Env)
    requires Late(w, env)
    ensures var w1 := w.(fuel := fuel); Late(Saved(w1, RunResumed, w1.state.(status := Running)), env)
  {
    hide Unwritten;
    var w1 := w.(fuel := fuel);
    SavedLate(w1, RunResumed, w1.state.(status := Running), env);
  }

  /** A run starts that way. */
  lemma StartsLate(w: World, o: Origin, env: Env)
    requires Inv(w, o) && ExpiredScenario(w.state) && w.authority == o.authority
    ensures Late(w, env)
  {
    hide Agrees, Reached, Unused;
    assert EffectsHold(w.authority);
  }

  lemma NothingStored(w: World, o: Origin, env: Env)
    requires Inv(w, o) && Late(w, env)
    ensures |w.authority.tasks| == |o.authority.tasks|
  {
    hide Named, Current, Told, CallsAnswered, Settled, Withheld, Reached, Origin.Valid, Unused, Accounted;
  }
}
