/** What the boundary runner asks its model, how its runs end, and what they never show. */
module BoundaryEndings {
  import opened Wrappers
  import opened Records
  import opened Permissions
  import opened Agent
  import opened ContextEvaluation
  import opened OperationNames
  import opened Boundaries
  import opened BoundaryInvariant
  import opened LanggraphRuntime
  import opened BoundaryReplies

  // ---- Model turns ------------------------------------------------------------------------------------

  /** What the next request sends: the conversation, and the current request if it is to be told again. */
  function Sent(w: World, env: Env): seq<Message> {
    var t := w.authority;
    w.state.messages
    + if w.state.context.Some? && w.state.config.refresh
      then [System(Plain(env.describe(RequestValue(t.expectedTitle, t.requestRevision, t.policyRevision, t.policy == Some(true)))))]
      else []
  }

  /** A finished run gives its counts and why it ended: a budget, or what the model answered to the last conversation,
      with that answer's own content. */
  predicate EndsAsAnswered(client: Client, s: BoundaryState) {
    s.terminal.Some? ==>
      var r := s.terminal.value;
      && r.modelCalls == s.modelCalls && r.toolCalls == s.toolCalls && r.toolExecutions == s.toolExecutions
      && match r.status
         case ModelLimit => s.modelCalls >= 6 && r.finalContent.None? && r.error == Some(ModelBudget)
         case ToolLimit => s.toolCalls >= 6 && s.cursor < |s.pending| && r.finalContent.None? && r.error == Some(ToolBudget)
         case _ =>
           match client(s.messages, s.modelCalls)
           case ProviderError(e) => r.status.ProviderFailed? && r.finalContent.None? && r.error == Some(Provider(e))
           case Answered(turn) =>
             && r.finalContent == Some(turn.content)
             && (if turn.truncated then r.status.ProtocolError? && r.error == Some(OutputLimit)
                 else if turn.content.Empty() then turn.calls == [] && r.status.ProtocolError? && r.error == Some(EmptyResponse)
                 else turn.calls == [] && r.status.Finished? && r.error.None?)
  }

  /** One request that was answered: its conversation, and what the answer leads to. */
  lemma ModelStepReply(w: World, o: Origin, env: Env)
    requires Inv(w, o) && w.state.status.Running? && w.state.cursor == |w.state.pending| && w.state.modelCalls < 6
    requires ModelStepped(w, env).fuel > 0
    ensures var s, answer := ModelStepped(w, env).state, env.client(Sent(w, env), w.state.modelCalls + 1);
      && s.modelCalls == w.state.modelCalls + 1
      && if answer.Answered? && !Ends(answer.turn) then
           && s.status.Running? && s.messages == Sent(w, env) + [Assistant(answer.turn.content, answer.turn.calls)]
           && s.pending == answer.turn.calls && s.cursor == 0
         else s.status.Done? && s.messages == Sent(w, env)
  {
    hide Inv, Saved, Finish, Refreshed, IssuedBefore, AnswerTaken;
    RefreshedKeeps(w, o, env);
    var w1 := Refreshed(w, env);
    RefreshedSends(w, o, env);
    AccountedFacts(w, o);
    RequestKeeps(w1, o);
    var w2 := Saved(w1, ModelRequested, w1.state.(modelCalls := w1.state.modelCalls + 1));
    BoundaryInvariant.AnswerKeeps(w2, o, env.client(w2.state.messages, w2.state.modelCalls));
    NotRaised(w2, o);
    if w2.fuel > 0 { AnswerLeads(w2, o, env.client(w2.state.messages, w2.state.modelCalls)); }
  }

  lemma RefreshedSends(w: World, o: Origin, env: Env)
    requires Inv(w, o)
    ensures Refreshed(w, env).fuel > 0 ==> Refreshed(w, env).state.messages == Sent(w, env)
  {
    hide Agrees, Reached, Origin.Valid, Unused;
    RefreshedKeeps(w, o, env);
    SettledFacts(w, o);
    NotRaised(w, o);
    NotRaised(Refreshed(w, env), o);
  }

  lemma AnswerLeads(w: World, o: Origin, answer: ClientReply)
    requires Inv(w, o) && w.state.status.Running? && w.state.cursor == |w.state.pending| && !w.state.reserved && w.fuel > 0
    requires IssuedBefore(w.state.runId, w.state.modelCalls, w.authority) && AnswerTaken(w, answer).fuel > 0
    ensures var s := AnswerTaken(w, answer).state;
      && s.modelCalls == w.state.modelCalls
      && if answer.Answered? && !Ends(answer.turn) then
           && s.status.Running? && s.messages == w.state.messages + [Assistant(answer.turn.content, answer.turn.calls)]
           && s.pending == answer.turn.calls && s.cursor == 0
         else s.status.Done? && s.messages == w.state.messages
  {
    hide Inv, Saved, Finish, IssuedBefore;
    match answer
    case ProviderError(error) => FinishKeeps(w, o, ProviderFailed, None, Some(Provider(error)));
    case Answered(turn) =>
      EventKeeps(w, ModelReturned(turn), o);
      var w1 := Saved(w, ModelReturned(turn), w.state);
      if turn.truncated {
        FinishKeeps(w1, o, ProtocolError, Some(turn.content), Some(OutputLimit));
      } else if turn.calls == [] {
        if turn.content.Empty() {
          FinishKeeps(w1, o, ProtocolError, Some(turn.content), Some(EmptyResponse));
        } else {
          FinishKeeps(w1, o, Finished, Some(turn.content), None);
        }
      } else {
        TurnKeeps(w1, o, Assistant(turn.content, turn.calls), turn.calls);
      }
  }

  // ---- How runs end --------------------------------------------------------------------------------------

  lemma FinishEnds(w: World, status: ExecutionStatus, content: Option<Content>, error: Option<StopReason>)
    requires w.state.terminal.None?
    ensures var s, s' := w.state, Finish(w, status, content, error).state;
      s' == s || s' == s.(status := Done, terminal := Some(RunResult(status, content, s.modelCalls, s.toolCalls, s.toolExecutions, error)))
  {
    hide BoundaryState.Consistent;
  }

  lemma AnswerEnds(w: World, client: Client)
    requires w.state.terminal.None? && w.state.modelCalls <= 6
    ensures EndsAsAnswered(client, AnswerTaken(w, client(w.state.messages, w.state.modelCalls)).state)
  {
    hide Finish, BoundaryState.Consistent;
    match client(w.state.messages, w.state.modelCalls)
    case ProviderError(error) => FinishEnds(w, ProviderFailed, None, Some(Provider(error)));
    case Answered(turn) =>
      var w1 := Saved(w, ModelReturned(turn), w.state);
      assert w1.state == w.state;
      FinishEnds(w1, ProtocolError, Some(turn.content), Some(OutputLimit));
      FinishEnds(w1, ProtocolError, Some(turn.content), Some(EmptyResponse));
      FinishEnds(w1, Finished, Some(turn.content), None);
  }

  lemma ModelStepEnds(w: World, o: Origin, env: Env)
    requires Inv(w, o) && w.state.status.Running? && w.state.cursor == |w.state.pending|
    ensures EndsAsAnswered(env.client, ModelStepped(w, env).state)
  {
    hide Inv, Finish, AnswerTaken, Saved, Refreshed;
    AccountedFacts(w, o);
    assert w.state.terminal.None? by { RunsOn(w, o); }
    if w.state.modelCalls >= 6 {
      FinishEnds(w, ModelLimit, None, Some(ModelBudget));
    } else {
      RefreshedKeeps(w, o, env);
      var w1 := Refreshed(w, env);
      AccountedFacts(w1, o);
      RequestKeeps(w1, o);
      var w2 := Saved(w1, ModelRequested, w1.state.(modelCalls := w1.state.modelCalls + 1));
      AnswerEnds(w2, env.client);
    }
  }

  lemma RunsOn(w: World, o: Origin)
    requires Inv(w, o) && w.state.status.Running?
    ensures w.state.terminal.None?
  {
    AccountedFacts(w, o);
  }

  lemma ToolStepEnds(w: World, o: Origin, env: Env)
    requires Inv(w, o) && w.state.status.Running? && w.state.cursor < |w.state.pending|
    ensures EndsAsAnswered(env.client, ToolStepped(w, env).state)
  {
    hide Inv, Performed, Saved;
    AccountedFacts(w, o);
    ToolStepKeeps(w, o, env);
    AccountedFacts(ToolStepped(w, env), o);
    if !w.state.reserved && w.state.toolCalls >= 6 { FinishEnds(w, ToolLimit, None, Some(ToolBudget)); }
  }

  /** However its driver goes on, and wherever it dies. */
  lemma {:induction false} AdvancedEnds(w: World, o: Origin, env: Env)
    requires Inv(w, o) && EndsAsAnswered(env.client, w.state)
    ensures EndsAsAnswered(env.client, Advanced(w, o, env).state)
    decreases w.fuel
  {
    hide Inv, EndsAsAnswered, ToolStepped, ModelStepped;
    AccountedFacts(w, o);
    if w.fuel > 0 && w.state.status.Running? {
      StepKeeps(w, o, env);
      if w.state.cursor < |w.state.pending| { ToolStepEnds(w, o, env); } else { ModelStepEnds(w, o, env); }
      AdvancedEnds(Stepped(w, env), o, env);
    }
  }

  lemma ResumedEnds(w: World, o: Origin, fuel: nat, env: Env)
    requires Inv(w, o) && EndsAsAnswered(env.client, w.state)
    ensures EndsAsAnswered(env.client, Resumed(w, o, fuel, env).state)
  {
    hide Inv, ToolStepped, ModelStepped;
    AccountedFacts(w, o);
    if !LanggraphRuntime.Ended(w.state) {
      var w1 := w.(fuel := fuel);
      FuelIsFree(w, o, fuel);
      RunningKeeps(w1, o);
      AdvancedEnds(Saved(w1, RunResumed, w1.state.(status := Running)), o, env);
    }
  }

  // ---- What an enforced scan withholds ---------------------------------------------------------------------

  /** No lookup was ever told of the reference document. */
  predicate NeverShown(messages: seq<Message>) {
    forall m | m in messages && m.OperationReply? && m.toolName.GetTask? && m.result.value.TaskValue? :: m.result.value.task.id != SourceId
  }

  lemma ToolStepShows(w: World, o: Origin, env: Env)
    requires Inv(w, o) && w.state.status.Running? && w.state.cursor < |w.state.pending|
    requires WithholdsReference(w.state) && NeverShown(w.state.messages)
    ensures WithholdsReference(ToolStepped(w, env).state) && NeverShown(ToolStepped(w, env).state.messages)
  {
    hide Inv, ToolStepped, Performed, Saved, Blank;
    ToolStepKeeps(w, o, env);
    AccountedFacts(ToolStepped(w, env), o);
    if AnsweredBy(w, env) {
      StepReplies(w, o, env);
      var call := w.state.pending[w.state.cursor];
      if call.name.GetTask? && call.ValidArguments() {
        LookupReply(w, o, env, call.arguments.taskId);
      } else if call.name.GetTask? {
        RefusedReply(w, o, env);
      }
    }
  }

  lemma ModelStepShows(w: World, o: Origin, env: Env)
    requires Inv(w, o) && w.state.status.Running? && w.state.cursor == |w.state.pending|
    requires WithholdsReference(w.state) && NeverShown(w.state.messages)
    ensures WithholdsReference(ModelStepped(w, env).state) && NeverShown(ModelStepped(w, env).state.messages)
  {
    hide Inv, ModelStepped;
    ModelStepKeeps(w, o, env);
    ModelSaysNoReply(w, env);
  }

  lemma ModelSaysNoReply(w: World, env: Env)
    ensures forall m | m in ModelStepped(w, env).state.messages :: m in w.state.messages || !m.OperationReply?
  {
    hide Refreshed, AnswerTaken, BoundaryState.Consistent;
    var w1 := Refreshed(w, env);
    RefreshSaysNoReply(w, env);
    var w2 := Saved(w1, ModelRequested, w1.state.(modelCalls := w1.state.modelCalls + 1));
    AnswerSaysNoReply(w2, env.client(w2.state.messages, w2.state.modelCalls));
  }

  lemma RefreshSaysNoReply(w: World, env: Env)
    ensures forall m | m in Refreshed(w, env).state.messages :: m in w.state.messages || !m.OperationReply?
  {
    hide BoundaryState.Consistent;
  }

  lemma AnswerSaysNoReply(w: World, answer: ClientReply)
    ensures forall m | m in AnswerTaken(w, answer).state.messages :: m in w.state.messages || !m.OperationReply?
  {
    hide BoundaryState.Consistent;
  }

  lemma {:induction false} AdvancedShows(w: World, o: Origin, env: Env)
    requires Inv(w, o) && WithholdsReference(w.state) && NeverShown(w.state.messages)
    ensures WithholdsReference(Advanced(w, o, env).state) && NeverShown(Advanced(w, o, env).state.messages)
    decreases w.fuel
  {
    hide Inv, WithholdsReference, NeverShown, ToolStepped, ModelStepped;
    AccountedFacts(w, o);
    if w.fuel > 0 && w.state.status.Running? {
      StepKeeps(w, o, env);
      if w.state.cursor < |w.state.pending| { ToolStepShows(w, o, env); } else { ModelStepShows(w, o, env); }
      AdvancedShows(Stepped(w, env), o, env);
    }
  }

  lemma ResumedShows(w: World, o: Origin, fuel: nat, env: Env)
    requires Inv(w, o) && WithholdsReference(w.state) && NeverShown(w.state.messages)
    ensures WithholdsReference(Resumed(w, o, fuel, env).state) && NeverShown(Resumed(w, o, fuel, env).state.messages)
  {
    hide Inv, NeverShown;
    if !LanggraphRuntime.Ended(w.state) {
      var w1 := w.(fuel := fuel);
      FuelIsFree(w, o, fuel);
      RunningKeeps(w1, o);
      AdvancedShows(Saved(w1, RunResumed, w1.state.(status := Running)), o, env);
    }
  }
}
