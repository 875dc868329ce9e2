/** The same step taken by two processes that differ only in their logs and in how long they live does the same. */
module DriverTwins {
  import opened Wrappers
  import opened Records
  import opened Permissions
  import opened Agent
  import opened Evaluation
  import opened ContextEvaluation
  import opened OperationNames
  import opened Boundaries
  import opened BoundaryInvariant
  import opened LanggraphRuntime

  /** The log without the graph's own entries. */
  function OwnEvents(events: seq<Event>): seq<Event> {
    if events == [] then []
    else OwnEvents(events[..|events| - 1]) + if events[|events| - 1].RuntimeNode? then [] else [events[|events| - 1]]
  }

  /** The nodes the graph noted. */
  function Nodes(events: seq<Event>): seq<Node> {
    if events == [] then []
    else Nodes(events[..|events| - 1]) + if events[|events| - 1].RuntimeNode? then [events[|events| - 1].node] else []
  }

  lemma LogAdded(events: seq<Event>, event: Event)
    ensures OwnEvents(events + [event]) == OwnEvents(events) + if event.RuntimeNode? then [] else [event]
    ensures Nodes(events + [event]) == Nodes(events) + if event.RuntimeNode? then [event.node] else []
  {
    assert (events + [event])[..|events|] == events;
  }

  /** Alive and alike; `nodes` is what the graph has noted in the second log. */
  predicate Twins(a: World, b: World, nodes: seq<Node>) {
    && a.fuel > 0 && b.fuel > 0 && a.state == b.state && a.authority == b.authority && a.drawn == b.drawn && a.raised == b.raised
    && OwnEvents(a.events) == OwnEvents(b.events) && Nodes(b.events) == nodes
  }

  predicate Survive(a: World, b: World) { a.fuel > 0 && b.fuel > 0 }

  lemma SavedTwins(a: World, b: World, nodes: seq<Node>, event: Event, next: BoundaryState)
    requires Twins(a, b, nodes) && !event.RuntimeNode?
    ensures Survive(Saved(a, event, next), Saved(b, event, next)) ==> Twins(Saved(a, event, next), Saved(b, event, next), nodes)
  {
    hide OwnEvents, Nodes, BoundaryState.Consistent;
    LogAdded(a.events, event);
    LogAdded(b.events, event);
  }

  lemma TransactedTwins(a: World, b: World, nodes: seq<Node>, step: Step)
    requires Twins(a, b, nodes)
    ensures Survive(Transacted(a, step), Transacted(b, step)) ==> Twins(Transacted(a, step), Transacted(b, step), nodes)
  {
    hide OwnEvents, Nodes, Apply, Refused;
  }

  lemma DecidedTwins(a: World, b: World, nodes: seq<Node>, op: string, env: Env)
    requires Twins(a, b, nodes) && op in a.authority.proposals
    ensures Survive(ScenarioDecided(a, op, env), ScenarioDecided(b, op, env))
      ==> Twins(ScenarioDecided(a, op, env), ScenarioDecided(b, op, env), nodes)
  {
    hide OwnEvents, Nodes, Transacted;
    TransactedTwins(a, b, nodes, Decide(op, !a.state.config.scenario.RejectedGrant?,
      ScenarioTtl(a.state.config.scenario), env.clock(a.drawn)));
  }

  lemma OtherTwins(a: World, b: World, nodes: seq<Node>, op: string, title: string, env: Env)
    requires Twins(a, b, nodes)
    ensures Survive(OtherApproved(a, op, title, env), OtherApproved(b, op, title, env))
      ==> Twins(OtherApproved(a, op, title, env), OtherApproved(b, op, title, env), nodes)
  {
    hide OwnEvents, Nodes, Transacted;
    TransactedTwins(a, b, nodes, Propose(Other(op), title));
    var a1, b1 := Transacted(a, Propose(Other(op), title)), Transacted(b, Propose(Other(op), title));
    if Survive(a1, b1) { TransactedTwins(a1, b1, nodes, Decide(Other(op), true, 300.0, env.clock(a1.drawn))); }
  }

  lemma GrantTwins(a: World, b: World, nodes: seq<Node>, op: string, stale: bool, env: Env)
    requires Twins(a, b, nodes) && op in a.authority.proposals
    ensures Survive(ScenarioGrantMade(a, op, stale, env), ScenarioGrantMade(b, op, stale, env))
      ==> Twins(ScenarioGrantMade(a, op, stale, env), ScenarioGrantMade(b, op, stale, env), nodes)
  {
    hide OwnEvents, Nodes, Existing, Decided, Backdated;
  }

  lemma ScenarioTwins(a: World, b: World, nodes: seq<Node>, op: string, env: Env)
    requires Twins(a, b, nodes)
    ensures Survive(ScenarioConfigured(a, op, env), ScenarioConfigured(b, op, env))
      ==> Twins(ScenarioConfigured(a, op, env), ScenarioConfigured(b, op, env), nodes)
  {
    hide OwnEvents, Nodes, Saved, ScenarioTransacted, BoundaryState.Consistent;
    if a.Live() && op !in a.state.configured && op in a.authority.proposals {
      ScenarioTransactedTwins(a, b, nodes, op, env);
      var event := if a.state.context.Some? then ScopedGrant(op, Stale(a.state, a.authority, op)) else ScenarioApplied(op);
      var a1, b1 := ScenarioTransacted(a, op, env), ScenarioTransacted(b, op, env);
      if Survive(a1, b1) { SavedTwins(a1, b1, nodes, event, a.state.(configured := a.state.configured + [op])); }
    }
  }

  lemma ScenarioTransactedTwins(a: World, b: World, nodes: seq<Node>, op: string, env: Env)
    requires Twins(a, b, nodes) && op in a.authority.proposals
    ensures Survive(ScenarioTransacted(a, op, env), ScenarioTransacted(b, op, env))
      ==> Twins(ScenarioTransacted(a, op, env), ScenarioTransacted(b, op, env), nodes)
  {
    hide OwnEvents, Nodes, ScenarioGrantMade, OtherApproved, Transacted, ScenarioDecided;
    var s := a.state;
    if s.context.Some? {
      GrantTwins(a, b, nodes, op, Stale(s, a.authority, op), env);
    } else {
      DecidedTwins(a, b, nodes, op, env);
      var a1, b1 := ScenarioDecided(a, op, env), ScenarioDecided(b, op, env);
      if Survive(a1, b1) {
        var title := a.authority.proposals[op].title;
        OtherTwins(a1, b1, nodes, op, title, env);
        var a2 := if s.config.scenario.CrossOperation? then OtherApproved(a1, op, title, env) else a1;
        var b2 := if s.config.scenario.CrossOperation? then OtherApproved(b1, op, title, env) else b1;
        if Survive(a2, b2) { TransactedTwins(a2, b2, nodes, ChangeRevision); }
      }
    }
  }

  lemma RepeatedTwins(a: World, b: World, nodes: seq<Node>, op: string, title: string, env: Env)
    requires Twins(a, b, nodes)
    ensures Survive(WriteRepeated(a, op, title, env), WriteRepeated(b, op, title, env))
      ==> Twins(WriteRepeated(a, op, title, env), WriteRepeated(b, op, title, env), nodes)
  {
    hide OwnEvents, Nodes, Saved, Transacted, Written;
    var write := WriteStep(a, op, title, env);
    TransactedTwins(a, b, nodes, write);
    var written := Written(a.authority, op, title, write.enforce, write.now, write.id).0;
    var a1, b1 := Transacted(a, write), Transacted(b, write);
    if Survive(a1, b1) && written.Success? { SavedTwins(a1, b1, nodes, WriteReplayed(op, written.value.task), a1.state); }
  }

  lemma WriteTwins(a: World, b: World, nodes: seq<Node>, op: string, title: string, env: Env)
    requires Twins(a, b, nodes)
    ensures var (x, a'), (y, b') := WritePerformed(a, op, title, env), WritePerformed(b, op, title, env);
      Survive(a', b') ==> Twins(a', b', nodes) && x == y
  {
    hide OwnEvents, Nodes, Saved, Transacted, Written, WriteRepeated;
    SavedTwins(a, b, nodes, WriteAttempted(op, title), a.state);
    var a1, b1 := Saved(a, WriteAttempted(op, title), a.state), Saved(b, WriteAttempted(op, title), b.state);
    if Survive(a1, b1) {
      var write := WriteStep(a1, op, title, env);
      TransactedTwins(a1, b1, nodes, write);
      var written := Written(a1.authority, op, title, write.enforce, write.now, write.id).0;
      var a2, b2 := Transacted(a1, write), Transacted(b1, write);
      if Survive(a2, b2) && written.Success? {
        SavedTwins(a2, b2, nodes, WriteReturned(op, written.value), a2.state);
        var a3, b3 := Saved(a2, WriteReturned(op, written.value), a2.state), Saved(b2, WriteReturned(op, written.value), b2.state);
        if Survive(a3, b3) { RepeatedTwins(a3, b3, nodes, op, title, env); }
      }
    }
  }

  lemma CreateTwins(a: World, b: World, nodes: seq<Node>, op: string, title: string, env: Env)
    requires Twins(a, b, nodes)
    ensures var (x, a'), (y, b') := CreatePerformed(a, op, title, env), CreatePerformed(b, op, title, env);
      Survive(a', b') ==> Twins(a', b', nodes) && x == y
  {
    hide OwnEvents, Nodes, Saved, Transacted, ScenarioConfigured, WritePerformed, BoundaryState.Consistent;
    TransactedTwins(a, b, nodes, Propose(op, title));
    var a1, b1 := Transacted(a, Propose(op, title)), Transacted(b, Propose(op, title));
    if Survive(a1, b1) {
      ScenarioTwins(a1, b1, nodes, op, env);
      var a2, b2 := ScenarioConfigured(a1, op, env), ScenarioConfigured(b1, op, env);
      if Survive(a2, b2) {
        SavedTwins(a2, b2, nodes, ApprovalWaiting(op), a2.state.(status := AwaitingApproval));
        WriteTwins(a2, b2, nodes, op, WrittenTitle(a2.state.config.scenario, title), env);
      }
    }
  }

  lemma GetTwins(a: World, b: World, nodes: seq<Node>, id: string)
    requires Twins(a, b, nodes)
    ensures var (x, a'), (y, b') := GetPerformed(a, id), GetPerformed(b, id);
      Survive(a', b') ==> Twins(a', b', nodes) && x == y
  {
    hide OwnEvents, Nodes, Saved;
    SavedTwins(a, b, nodes, ReferenceRequested, a.state);
    var a1, b1 := Saved(a, ReferenceRequested, a.state), Saved(b, ReferenceRequested, b.state);
    if Survive(a1, b1) { SavedTwins(a1, b1, nodes, ContextBlocked, a1.state); }
  }

  lemma PerformedTwins(a: World, b: World, nodes: seq<Node>, op: string, call: ToolCall, env: Env)
    requires Twins(a, b, nodes)
    ensures var (x, a'), (y, b') := Performed(a, op, call, env), Performed(b, op, call, env);
      Survive(a', b') ==> Twins(a', b', nodes) && x == y
  {
    hide OwnEvents, Nodes, Saved, CreatePerformed, GetPerformed, Blank;
    if call.name.CreateTask? && call.ValidArguments() { CreateTwins(a, b, nodes, op, call.arguments.title, env); }
    if call.name.GetTask? && call.ValidArguments() { GetTwins(a, b, nodes, call.arguments.taskId); }
    SavedTwins(a, b, nodes, AuthoritativeRead, a.state);
  }

  lemma ToolTwins(a: World, b: World, nodes: seq<Node>, env: Env)
    requires Twins(a, b, nodes) && a.state.cursor < |a.state.pending|
    ensures Survive(ToolStepped(a, env), ToolStepped(b, env)) ==> Twins(ToolStepped(a, env), ToolStepped(b, env), nodes)
  {
    hide OwnEvents, Nodes, Saved, Performed, Finish;
    var s := a.state;
    var call, op := s.pending[s.cursor], CurrentOperation(s);
    if !s.reserved && s.toolCalls >= 6 {
      FinishTwins(a, b, nodes, ToolLimit, None, Some(ToolBudget));
    } else {
      if !s.reserved { SavedTwins(a, b, nodes, ToolRequested(op, call), Reserved(s)); }
      var a1 := if s.reserved then a else Saved(a, ToolRequested(op, call), Reserved(s));
      var b1 := if s.reserved then b else Saved(b, ToolRequested(op, call), Reserved(s));
      if Survive(a1, b1) {
        PerformedTwins(a1, b1, nodes, op, call, env);
        var (r, a2) := Performed(a1, op, call, env);
        var b2 := Performed(b1, op, call, env).1;
        if Survive(a2, b2) { SavedTwins(a2, b2, nodes, ToolReturned(op, r), Replied(a2.state, op, call.name, r)); }
      }
    }
  }

  lemma FinishTwins(a: World, b: World, nodes: seq<Node>, status: ExecutionStatus, content: Option<Content>, error: Option<StopReason>)
    requires Twins(a, b, nodes)
    ensures Survive(Finish(a, status, content, error), Finish(b, status, content, error))
      ==> Twins(Finish(a, status, content, error), Finish(b, status, content, error), nodes)
  {
    hide OwnEvents, Nodes, Saved;
    var s := a.state;
    var result := RunResult(status, content, s.modelCalls, s.toolCalls, s.toolExecutions, error);
    SavedTwins(a, b, nodes, RunStopped, s.(status := Done, terminal := Some(result)));
  }

  lemma RefreshedTwins(a: World, b: World, nodes: seq<Node>, env: Env)
    requires Twins(a, b, nodes)
    ensures Survive(Refreshed(a, env), Refreshed(b, env)) ==> Twins(Refreshed(a, env), Refreshed(b, env), nodes)
  {
    hide OwnEvents, Nodes, Saved;
    if a.authority.policy.Some? {
      var m := System(Plain(env.describe(RequestState(a.authority))));
      SavedTwins(a, b, nodes, AuthoritativeRefresh, a.state.(messages := a.state.messages + [m]));
    }
  }

  lemma ModelTwins(a: World, b: World, nodes: seq<Node>, env: Env)
    requires Twins(a, b, nodes)
    ensures Survive(ModelStepped(a, env), ModelStepped(b, env)) ==> Twins(ModelStepped(a, env), ModelStepped(b, env), nodes)
  {
    hide OwnEvents, Nodes, Saved, Finish, Refreshed;
    if a.state.modelCalls >= 6 {
      FinishTwins(a, b, nodes, ModelLimit, None, Some(ModelBudget));
    } else {
      RefreshedTwins(a, b, nodes, env);
      var a1, b1 := Refreshed(a, env), Refreshed(b, env);
      if Survive(a1, b1) {
        var next := a1.state.(modelCalls := a1.state.modelCalls + 1);
        SavedTwins(a1, b1, nodes, ModelRequested, next);
        var a2, b2 := Saved(a1, ModelRequested, next), Saved(b1, ModelRequested, next);
        if Survive(a2, b2) { AnswerTwins(a2, b2, nodes, env.client(a2.state.messages, a2.state.modelCalls)); }
      }
    }
  }

  lemma AnswerTwins(a: World, b: World, nodes: seq<Node>, answer: ClientReply)
    requires Twins(a, b, nodes)
    ensures Survive(AnswerTaken(a, answer), AnswerTaken(b, answer)) ==> Twins(AnswerTaken(a, answer), AnswerTaken(b, answer), nodes)
  {
    hide OwnEvents, Nodes, Saved, Finish;
    match answer
    case ProviderError(error) => {
      FinishTwins(a, b, nodes, ProviderFailed, None, Some(Provider(error)));
    }
    case Answered(turn) => {
      SavedTwins(a, b, nodes, ModelReturned(turn), a.state);
      var a1, b1 := Saved(a, ModelReturned(turn), a.state), Saved(b, ModelReturned(turn), b.state);
      if Survive(a1, b1) {
        if turn.truncated {
          FinishTwins(a1, b1, nodes, ProtocolError, Some(turn.content), Some(OutputLimit));
        } else if turn.calls == [] {
          FinishTwins(a1, b1, nodes, ProtocolError, Some(turn.content), Some(EmptyResponse));
          FinishTwins(a1, b1, nodes, Finished, Some(turn.content), None);
        } else {
          SavedTwins(a1, b1, nodes, AssistantCheckpoint, a.state.(
            messages := a.state.messages + [Assistant(turn.content, turn.calls)], pending := turn.calls, cursor := 0));
        }
      }
    }
  }

  lemma SteppedTwins(a: World, b: World, nodes: seq<Node>, env: Env)
    requires Twins(a, b, nodes)
    ensures Survive(Stepped(a, env), Stepped(b, env)) ==> Twins(Stepped(a, env), Stepped(b, env), nodes)
  {
    hide OwnEvents, Nodes, ToolStepped, ModelStepped;
    if Route(a.state).ToolsNode? { ToolTwins(a, b, nodes, env); }
    ModelTwins(a, b, nodes, env);
  }

  /** For every model and clock, the two drivers that are not interrupted make the same step calls and end in
      the same checkpoint, the same database and, but for the graph's own entries, the same log. */
  lemma {:induction false} DriversAgree(a: World, b: World, o: Origin, env: Env, nodes: seq<Node>, limit: nat)
    requires Inv(a, o) && Inv(b, o) && Twins(a, b, nodes)
    requires limit > (if a.state.status.Running? then Left(a.state) else 0)
    ensures var a', b' := Advanced(a, o, env), Graphed(b, o, env, limit);
      Survive(a', b') ==> Twins(a', b', nodes + StepCalls(a, o, env) + [TerminalNode])
    decreases limit
  {
    hide Inv, OwnEvents, Nodes, Stepped, Saved;
    var node := Route(a.state);
    NodeNoted(a, b, nodes, node);
    EventKeeps(b, RuntimeNode(node), o);
    var b1 := Saved(b, RuntimeNode(node), b.state);
    NotRaised(b1, o);
    AccountedFacts(a, o);
    if !node.TerminalNode? && b1.fuel > 0 {
      StepKeeps(a, o, env);
      StepKeeps(b1, o, env);
      SteppedTwins(a, b1, nodes + [node], env);
      var a2, b2 := Stepped(a, env), Stepped(b1, env);
      if Survive(a2, b2) {
        DriversAgree(a2, b2, o, env, nodes + [node], limit - 1);
        assert nodes + [node] + StepCalls(a2, o, env) + [TerminalNode] == nodes + StepCalls(a, o, env) + [TerminalNode];
      } else if a2.fuel == 0 {
        assert Advanced(a2, o, env) == a2 && Advanced(a, o, env) == a2;
      } else {
        DeadGraph(b2, o, env, limit - 1);
      }
    } else if node.TerminalNode? && b1.fuel > 0 {
      assert Twins(a, b1, nodes + [node]);
      assert StepCalls(a, o, env) == [] && Advanced(a, o, env) == a && Graphed(b, o, env, limit) == b1;
      assert nodes + [] + [TerminalNode] == nodes + [TerminalNode];
    } else {
      assert Graphed(b, o, env, limit) == b1;
    }
  }

  /** Eleven durable steps for each step call, or twelve and one for the graph, are enough for both to get to
      their end, so then they agree without any condition. */
  lemma UninterruptedDriversAgree(a: World, b: World, o: Origin, env: Env, nodes: seq<Node>)
    requires Inv(a, o) && Inv(b, o) && Twins(a, b, nodes) && a.state.status.Running?
    requires a.fuel > 11 * Left(a.state) && b.fuel > 12 * Left(b.state) + 1
    ensures Twins(Advanced(a, o, env), Graphed(b, o, env, 32), nodes + StepCalls(a, o, env) + [TerminalNode])
    ensures !Advanced(a, o, env).state.status.Running?
  {
    hide Inv, Stepped;
    AccountedFacts(a, o);
    AdvanceSurvives(a, o, env);
    GraphSurvives(b, o, env, 32);
    DriversAgree(a, b, o, env, nodes, 32);
  }

  lemma NodeNoted(a: World, b: World, nodes: seq<Node>, node: Node)
    requires Twins(a, b, nodes)
    ensures var b' := Saved(b, RuntimeNode(node), b.state);
      b'.fuel > 0 ==> b'.raised || Twins(a, b', nodes + [node])
  {
    hide OwnEvents, Nodes, BoundaryState.Consistent;
    LogAdded(b.events, RuntimeNode(node));
  }
}
