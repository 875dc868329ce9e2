/** durable_run.py: the journaled run, its recovery after a crash, and everything that can happen to it. */
module DurableRun {
  import opened Wrappers
  import opened Records
  import opened Tasks
  import opened ExecutionTypes
  import opened Worker
  import opened Agent
  import opened Evaluation
  import opened Journals
  import opened RunInvariant
  import opened Supervision

  ghost function WorldOf(journal: Journal, store: TaskStore, lock: RunLock): World
    reads journal, store, lock
  {
    World(journal.Contents(), store.Contents(), lock.worker)
  }

  /** The configuration a resumed run must agree with. */
  predicate SameRun(a: RunState, b: RunState) {
    && a.config == b.config && a.offline == b.offline && a.limits == b.limits
    && a.executionLimits == b.executionLimits && a.expectedTitle == b.expectedTitle
  }

  /** Only a request still unanswered when its session died is lost. */
  predicate LosesAtMostTheLast(before: Saved, after: Saved) {
    || after.books.lost == before.books.lost
    || (after.books.lost == before.books.lost + {after.state.modelCalls} && after.state.phase.ModelPhase?)
  }

  /** The durable steps that `_drive` takes at most from a checkpoint: three for each model request that is left,
      one call's for each tool call that is left or in flight, and the last ones. */
  function StepsLeft(s: RunState): int {
    if s.phase.TerminalPhase? then 0
    else
      3 * (s.limits.maxModelCalls - s.modelCalls)
      + CallSteps * (s.limits.maxToolCalls - s.toolCalls + (if s.toolReserved then 1 else 0))
      + (if s.phase.ToolsPhase? then 2 else 1)
  }

  /** To accept a call, execute it and save its reply. */
  const CallSteps: nat := ExecuteSteps + 2

  /** What a step cost is what it brought the run nearer to its end; one that died had no more than that left. */
  predicate Affords(fuel: nat, s: RunState, fuel': nat, s': RunState, alive: bool) {
    if alive then fuel + StepsLeft(s') <= fuel' + StepsLeft(s) else fuel <= StepsLeft(s)
  }

  /** Commit a transition that a lemma has shown to be consistent; false when the process died first. */
  method Transition(journal: Journal, event: Event, next: RunState) returns (alive: bool)
    requires next.Consistent()
    modifies journal
    ensures old(journal.fuel) <= journal.fuel + 1
    ensures alive ==> journal.Contents() == old(journal.Contents()).After(event, next)
    ensures !alive ==> journal.Contents() == old(journal.Contents()) && journal.fuel == 0
  {
    var r := journal.Commit(event, next);
    assert !r.Rejected?;
    alive := r.Committed?;
  }

  /** `stop` */
  method Stop(journal: Journal, status: ExecutionStatus, content: Option<Content>, error: Option<StopReason>)
    returns (alive: bool)
    requires Stopped(journal.state, status, content, error).Consistent()
    modifies journal
    ensures old(journal.fuel) <= journal.fuel + 1
    ensures alive ==>
      journal.Contents() == old(journal.Contents()).After(RunStopped, Stopped(old(journal.state), status, content, error))
    ensures !alive ==> journal.Contents() == old(journal.Contents()) && journal.fuel == 0
  {
    var s := journal.state;
    var result := RunResult(status, content, s.modelCalls, s.toolCalls, s.toolExecutions, error);
    alive := Transition(journal, RunStopped, s.(terminal := Some(result), phase := TerminalPhase));
  }

  /** One request to the model, charged before it is sent; its answer is saved before it is acted on. */
  method ModelStep(journal: Journal, store: TaskStore, lock: RunLock, env: Env, ghost prompt: seq<Message>)
    returns (alive: bool)
    requires Sound(WorldOf(journal, store, lock), env, prompt) && journal.state.phase.ModelPhase?
    modifies journal
    ensures Affords(old(journal.fuel), old(journal.state), journal.fuel, journal.state, alive)
    ensures Sound(WorldOf(journal, store, lock), env, prompt)
    ensures SameRun(old(journal.state), journal.state) && journal.state.execution == old(journal.state.execution)
    ensures !alive ==> journal.fuel == 0
    ensures alive ==> journal.books.lost == old(journal.books.lost)
    ensures LosesAtMostTheLast(old(journal.Contents()), journal.Contents())
    ensures alive ==>
      || journal.state.phase.TerminalPhase?
      || (journal.state.phase.ToolsPhase? && journal.state.modelCalls == old(journal.state.modelCalls) + 1 <= journal.state.limits.maxModelCalls)
  {
    hide Sound, ControlHolds, OperationHolds, RowsHold, PlacesHold, Refines, RunState.Consistent;
    ghost var w := WorldOf(journal, store, lock);
    LostFacts(w, env, prompt);
    ControlFacts(w, env, prompt);
    if journal.state.modelCalls >= journal.state.limits.maxModelCalls {
      VerdictKeeps(w, env, prompt);
      alive := Stop(journal, ModelLimit, None, Some(ModelBudget));
      return;
    }
    var reply;
    alive, reply := Ask(journal, store, lock, env, prompt);
    if !alive { return; }
    alive := TakeReply(journal, store, lock, reply, env, w, prompt);
  }

  /** Act on the model's reply to the request just charged. */
  method TakeReply(
    journal: Journal, store: TaskStore, lock: RunLock, reply: ClientReply, env: Env, ghost w: World, ghost prompt: seq<Message>)
    returns (alive: bool)
    requires Sound(w, env, prompt) && w.saved.state.phase.ModelPhase?
    requires w.saved.state.modelCalls < w.saved.state.limits.maxModelCalls
    requires WorldOf(journal, store, lock) == Asked(w) && Sound(Asked(w), env, prompt)
    requires reply == env.client(w.saved.state.messages, w.saved.state.modelCalls + 1)
    modifies journal
    ensures old(journal.fuel) <= journal.fuel + 1
    ensures Sound(WorldOf(journal, store, lock), env, prompt)
    ensures !alive ==> journal.fuel == 0 && journal.Contents() == old(journal.Contents())
    ensures alive ==> Replied(w.saved, journal.Contents())
  {
    hide Sound, ControlHolds, OperationHolds, RowsHold, PlacesHold, Refines, RunState.Consistent;
    var s := journal.state;
    if reply.ProviderError? {
      FailureKeeps(w, reply.error, env, prompt);
      alive := Stop(journal, ProviderFailed, None, Some(Provider(reply.error)));
      return;
    }
    var turn := reply.turn;
    AnswerKeeps(w, turn, env, prompt);
    alive := Transition(journal, ModelReturned, s.(
      messages := s.messages + [Assistant(turn.content, turn.calls)],
      scriptCursor := s.scriptCursor + (if s.offline then 1 else 0),
      pending := turn.calls, lastTurn := Some(turn), toolCursor := 0, phase := ToolsPhase));
  }

  /** A request was charged and its reply saved. */
  predicate Replied(before: Saved, after: Saved) {
    && SameRun(before.state, after.state) && after.state.execution == before.state.execution
    && after.state.toolCalls == before.state.toolCalls && after.state.toolReserved == before.state.toolReserved
    && after.state.modelCalls == before.state.modelCalls + 1
    && (after.state.phase.TerminalPhase? || after.state.phase.ToolsPhase?)
    && after.books.lost == before.books.lost + {before.state.modelCalls + 1} - {before.state.modelCalls + 1}
  }

  /** Charge one request, then send the conversation to the model. */
  method Ask(journal: Journal, store: TaskStore, lock: RunLock, env: Env, ghost prompt: seq<Message>)
    returns (alive: bool, reply: ClientReply)
    requires Sound(WorldOf(journal, store, lock), env, prompt) && journal.state.phase.ModelPhase?
    requires journal.state.modelCalls < journal.state.limits.maxModelCalls
    modifies journal
    ensures old(journal.fuel) <= journal.fuel + 1
    ensures Sound(WorldOf(journal, store, lock), env, prompt)
    ensures alive ==> WorldOf(journal, store, lock) == Asked(old(WorldOf(journal, store, lock)))
    ensures alive ==> reply == env.client(journal.state.messages, journal.state.modelCalls)
    ensures !alive ==> journal.fuel == 0 && journal.Contents() == old(journal.Contents())
  {
    hide Sound, ControlHolds, OperationHolds, RowsHold, PlacesHold, Refines, RunState.Consistent;
    ghost var w := WorldOf(journal, store, lock);
    reply := ProviderError("");
    ModelRequestedKeeps(w, env, prompt);
    alive := Transition(journal, ModelRequested, journal.state.(modelCalls := journal.state.modelCalls + 1));
    if !alive { return; }
    reply := env.client(journal.state.messages, journal.state.modelCalls);
    journal.books := journal.books.(asked := journal.books.asked + 1);
    AskedKeeps(w, env, prompt);
  }

  /** Interpret a saved turn that ends the run, whether it was saved by this session or before a crash. */
  method StopTurn(journal: Journal, store: TaskStore, lock: RunLock, env: Env, ghost prompt: seq<Message>)
    returns (alive: bool)
    requires Sound(WorldOf(journal, store, lock), env, prompt)
    requires journal.state.phase.ToolsPhase? && journal.state.lastTurn.Some? && Ends(journal.state.lastTurn.value)
    modifies journal
    ensures Affords(old(journal.fuel), old(journal.state), journal.fuel, journal.state, alive)
    ensures Sound(WorldOf(journal, store, lock), env, prompt)
    ensures SameRun(old(journal.state), journal.state) && journal.state.execution == old(journal.state.execution)
    ensures if alive then journal.state.phase.TerminalPhase? else journal.fuel == 0
    ensures journal.books.lost == old(journal.books.lost)
  {
    hide Sound, RunState.Consistent;
    ControlFacts(WorldOf(journal, store, lock), env, prompt);
    VerdictKeeps(WorldOf(journal, store, lock), env, prompt);
    var turn := journal.state.lastTurn.value;
    if turn.truncated {
      alive := Stop(journal, ProtocolError, if turn.calls == [] then Some(turn.content) else None, Some(OutputLimit));
    } else if turn.content.Empty() {
      alive := Stop(journal, ProtocolError, Some(turn.content), Some(EmptyResponse));
    } else {
      alive := Stop(journal, Finished, Some(turn.content), None);
    }
  }

  /** Accept the next call of the turn against the budget, or stop. */
  method AcceptCall(journal: Journal, store: TaskStore, lock: RunLock, env: Env, ghost prompt: seq<Message>)
    returns (alive: bool)
    requires Sound(WorldOf(journal, store, lock), env, prompt) && ControlHolds(journal.state)
    requires journal.state.phase.ToolsPhase? && journal.state.toolCursor < |journal.state.pending|
    requires !Ends(journal.state.lastTurn.value) && !journal.state.toolReserved
    modifies journal
    ensures old(journal.fuel) <= journal.fuel + 1
    ensures Sound(WorldOf(journal, store, lock), env, prompt)
    ensures SameRun(old(journal.state), journal.state)
    ensures !alive ==> journal.fuel == 0
    ensures alive ==>
      || (journal.state.phase.TerminalPhase? && journal.state.execution == old(journal.state.execution))
      || journal.state == Reserved(old(journal.state))
    ensures journal.books.lost == old(journal.books.lost)
  {
    hide Sound, RunState.Consistent;
    var s := journal.state;
    if s.toolCalls >= s.limits.maxToolCalls {
      VerdictKeeps(WorldOf(journal, store, lock), env, prompt);
      alive := Stop(journal, ToolLimit, None, Some(ToolBudget));
    } else {
      ToolRequestedKeeps(WorldOf(journal, store, lock), env, prompt);
      alive := Transition(journal, ToolRequested(TurnCall(s.modelCalls, s.toolCursor + 1), s.pending[s.toolCursor]),
                          s.(toolCalls := s.toolCalls + 1, toolReserved := true));
    }
  }

  /** One tool call of the saved turn: accepted and charged once, then executed until its reply is saved. */
  method ToolStep(journal: Journal, supervisor: Supervisor, env: Env, ghost prompt: seq<Message>)
    returns (alive: bool)
    requires supervisor.journal == journal && supervisor.Valid() && supervisor.worker.None?
    requires Sound(supervisor.World(), env, prompt) && ControlHolds(journal.state)
    requires journal.state.phase.ToolsPhase? && journal.state.toolCursor < |journal.state.pending|
    requires !Ends(journal.state.lastTurn.value)
    modifies journal, supervisor`state, supervisor`worker, supervisor.store, supervisor.lock
    ensures Affords(old(journal.fuel), old(journal.state), journal.fuel, journal.state, alive)
    ensures Sound(supervisor.World(), env, prompt)
    ensures SameRun(old(journal.state), journal.state)
    ensures supervisor.store.Contents().Extends(old(supervisor.store.Contents()))
    ensures !alive ==> journal.fuel == 0
    ensures alive ==> supervisor.Valid() && supervisor.worker.None?
    ensures alive ==>
      || journal.state.phase.TerminalPhase?
      || (&& journal.state.phase.ToolsPhase? && journal.state.modelCalls == old(journal.state.modelCalls)
          && journal.state.pending == old(journal.state.pending)
          && journal.state.toolCursor == old(journal.state.toolCursor) + 1 <= |journal.state.pending|)
    ensures journal.books.lost == old(journal.books.lost)
  {
    hide Sound, RunState.Consistent, Deliverable, Ended, Tables.Extends;
    ControlFacts(supervisor.World(), env, prompt);
    ExtendsSelf(supervisor.store.Contents());
    var s := journal.state;
    if !s.toolReserved {
      alive := AcceptCall(journal, supervisor.store, supervisor.lock, env, prompt);
      if !alive || journal.state.phase.TerminalPhase? { return; }
      ControlFacts(supervisor.World(), env, prompt);
    }
    alive := AnswerCall(journal, supervisor, env, prompt);
  }

  /** Execute the accepted call, then save its reply. */
  method AnswerCall(journal: Journal, supervisor: Supervisor, env: Env, ghost prompt: seq<Message>)
    returns (alive: bool)
    requires supervisor.journal == journal && supervisor.Valid() && supervisor.worker.None?
    requires Sound(supervisor.World(), env, prompt) && journal.state.toolReserved
    requires journal.state.phase.ToolsPhase? && journal.state.toolCursor < |journal.state.pending|
    modifies journal, supervisor`state, supervisor`worker, supervisor.store, supervisor.lock
    ensures old(journal.fuel) <= journal.fuel + ExecuteSteps + 1
    ensures Sound(supervisor.World(), env, prompt)
    ensures SameRun(old(journal.state), journal.state)
    ensures supervisor.store.Contents().Extends(old(supervisor.store.Contents()))
    ensures !alive ==> journal.fuel == 0
    ensures alive ==> supervisor.Valid() && supervisor.worker.None? && CallAnswered(old(journal.state), journal.state)
    ensures journal.books.lost == old(journal.books.lost)
  {
    hide Sound, RunState.Consistent;
    CallFacts(supervisor.World(), env, prompt);
    var s := journal.state;
    var call := s.pending[s.toolCursor];
    var callId := TurnCall(s.modelCalls, s.toolCursor + 1);
    var executed := supervisor.Execute(call, callId, env, prompt);
    assert !executed.Raised?;
    if executed.RunnerDied? { return false; }
    s := journal.state;
    ToolReturnedKeeps(supervisor.World(), executed.d, env, prompt);
    alive := Transition(journal, ToolReturned(callId, executed.d), s.(
      messages := s.messages + [Tool(callId, call.name, executed.d.content)],
      toolCursor := s.toolCursor + 1, toolReserved := false,
      toolExecutions := s.toolExecutions + (if executed.d.executed then 1 else 0)));
  }

  /** The call in hand was answered and the cursor moved on. */
  predicate CallAnswered(before: RunState, after: RunState) {
    && after.phase.ToolsPhase? && after.modelCalls == before.modelCalls && after.toolCalls == before.toolCalls
    && after.pending == before.pending && !after.toolReserved && after.lastTurn == before.lastTurn
    && after.toolCursor == before.toolCursor + 1 <= |after.pending|
  }

  /** `_drive`: from any checkpoint to the terminal one, unless the process dies first. */
  method Drive(journal: Journal, store: TaskStore, lock: RunLock, env: Env, ghost prompt: seq<Message>)
    returns (alive: bool)
    requires lock.worker.None? && Sound(WorldOf(journal, store, lock), env, prompt)
    modifies journal, store, lock
    ensures Affords(old(journal.fuel), old(journal.state), journal.fuel, journal.state, alive)
    ensures Sound(WorldOf(journal, store, lock), env, prompt)
    ensures SameRun(old(journal.state), journal.state)
    ensures store.Contents().Extends(old(store.Contents()))
    ensures old(journal.state.phase).TerminalPhase? ==> journal.state == old(journal.state)
    ensures if alive then journal.state.phase.TerminalPhase? && lock.worker.None? else journal.fuel == 0
    ensures alive ==> journal.books.lost == old(journal.books.lost)
    ensures LosesAtMostTheLast(old(journal.Contents()), journal.Contents())
  {
    hide Sound, RunState.Consistent;
    var supervisor := new Supervisor(journal, store, lock);
    while !journal.state.phase.TerminalPhase?
      invariant supervisor.journal == journal && supervisor.store == store && supervisor.lock == lock
      invariant supervisor.Valid() && supervisor.worker.None?
      invariant Sound(WorldOf(journal, store, lock), env, prompt)
      invariant SameRun(old(journal.state), journal.state)
      invariant store.Contents().Extends(old(store.Contents()))
      invariant old(journal.state.phase).TerminalPhase? ==> journal.state == old(journal.state)
      invariant journal.books.lost == old(journal.books.lost)
      invariant Affords(old(journal.fuel), old(journal.state), journal.fuel, journal.state, true)
      decreases if journal.state.phase.TerminalPhase? then 0 else 1,
        journal.state.limits.maxModelCalls - journal.state.modelCalls,
        if journal.state.phase.ToolsPhase? then |journal.state.pending| - journal.state.toolCursor + 1 else 0
    {
      ControlFacts(WorldOf(journal, store, lock), env, prompt);
      var s := journal.state;
      if s.phase.ModelPhase? {
        alive := ModelStep(journal, store, lock, env, prompt);
        if alive && journal.state.phase.ToolsPhase? {
          ControlFacts(WorldOf(journal, store, lock), env, prompt);
          if Ends(journal.state.lastTurn.value) {
            alive := StopTurn(journal, store, lock, env, prompt);
          }
        }
      } else if Ends(s.lastTurn.value) {
        alive := StopTurn(journal, store, lock, env, prompt);
      } else if s.toolCursor == |s.pending| {
        ModelReadyKeeps(WorldOf(journal, store, lock), env, prompt);
        alive := Transition(journal, ModelReady, s.(phase := ModelPhase, pending := [], toolCursor := 0));
      } else {
        alive := ToolStep(journal, supervisor, env, prompt);
      }
      if !alive { return; }
    }
    alive := true;
  }

  // ---- Sessions and crashes --------------------------------------------------

  /** `finalize`: grade the independent database once, save the grade, then seal the run. */
  method Finalize(journal: Journal, store: TaskStore, lock: RunLock, env: Env, ghost prompt: seq<Message>)
    returns (alive: bool)
    requires Sound(WorldOf(journal, store, lock), env, prompt) && journal.state.terminal.Some?
    modifies journal
    ensures old(journal.fuel) <= journal.fuel + 2
    ensures Sound(WorldOf(journal, store, lock), env, prompt)
    ensures SameRun(old(journal.state), journal.state) && journal.state.terminal == old(journal.state.terminal)
    ensures old(journal.state.evaluation).Some? ==> journal.state.evaluation == old(journal.state.evaluation)
    ensures if alive then journal.state.finalized && journal.state.evaluation.Some? else journal.fuel == 0
    ensures old(journal.state.evaluation).None? && journal.state.evaluation.Some? ==>
      exists rows :: GradedRows(rows, store.tasks, env.unreadable(old(journal.sequence))) && journal.state.evaluation.value
        == EvaluateRun(rows, journal.state.expectedTitle, journal.state.terminal.value)
    ensures journal.books.lost == old(journal.books.lost)
  {
    hide Sound, RunState.Consistent, Lists, EvaluateRun;
    alive := true;
    if journal.state.evaluation.None? {
      var rows := InspectState(store.tasks, env.unreadable(journal.sequence));
      var evaluation := EvaluateRun(rows, journal.state.expectedTitle, journal.state.terminal.value);
      EvaluationFields(rows, journal.state.expectedTitle, journal.state.terminal.value);
      EvaluatedKeeps(WorldOf(journal, store, lock), evaluation, env, prompt);
      alive := Transition(journal, EvaluationCompleted, journal.state.(evaluation := Some(evaluation)));
      if !alive { return; }
    }
    FinalizedKeeps(WorldOf(journal, store, lock), env, prompt);
    alive := Transition(journal, ArtifactsFinalized, journal.state.(finalized := true));
  }

  /** The rows a grade is made from: the whole table, or none when it could not be read. */
  ghost predicate GradedRows(rows: Option<seq<Task>>, tasks: map<string, string>, unreadable: bool) {
    (rows.None? <==> unreadable) && (rows.Some? ==> Lists(rows.value, tasks))
  }

  lemma EvaluationFields(rows: Option<seq<Task>>, expected: string, execution: RunResult)
    ensures var e := EvaluateRun(rows, expected, execution);
      e.rows == rows && e.execution == execution && e.expectedTitle == expected
  {
  }

  /** A terminal result and a grade are decided once. */
  predicate Final(a: RunState, b: RunState) {
    && (a.terminal.Some? ==> b.terminal == a.terminal)
    && (a.evaluation.Some? ==> b.evaluation == a.evaluation)
  }

  datatype SessionEnd = Refused | Crashed | Complete

  /** `resume_process`, also the body of `run_process`: refuse while a worker still holds the lock; otherwise
      drive and finalize, surviving `fuel` durable steps. */
  method Session(journal: Journal, store: TaskStore, lock: RunLock, fuel: nat, env: Env, ghost prompt: seq<Message>)
    returns (end: SessionEnd)
    requires Sound(WorldOf(journal, store, lock), env, prompt)
    modifies journal, store, lock
    ensures fuel > StepsLeft(old(journal.state)) + 2 ==> !end.Crashed?
    ensures Sound(WorldOf(journal, store, lock), env, prompt)
    ensures SameRun(old(journal.state), journal.state)
    ensures store.Contents().Extends(old(store.Contents()))
    ensures Final(old(journal.state), journal.state)
    ensures end.Refused? <==> old(lock.worker).Some?
    ensures end.Refused? || old(journal.state.finalized) ==>
      WorldOf(journal, store, lock) == old(WorldOf(journal, store, lock))
    ensures end.Complete? ==> journal.state.finalized && journal.state.terminal.Some? && journal.state.evaluation.Some?
    ensures end.Crashed? ==> journal.fuel == 0
    ensures !end.Crashed? ==> journal.books.lost == old(journal.books.lost)
    ensures LosesAtMostTheLast(old(journal.Contents()), journal.Contents())
  {
    hide Sound, RunState.Consistent;
    if lock.worker.Some? { return Refused; }
    ControlFacts(WorldOf(journal, store, lock), env, prompt);
    if journal.state.finalized { return Complete; }
    journal.fuel, journal.sequence := fuel, journal.sequence + 1;
    var driven := Drive(journal, store, lock, env, prompt);
    if !driven { return Crashed; }
    ControlFacts(WorldOf(journal, store, lock), env, prompt);
    var sealed := Finalize(journal, store, lock, env, prompt);
    end := if sealed then Complete else Crashed;
  }

  /** `run_process`: a fresh directory and one session. If it is not interrupted, it ends exactly as the
      simple loop does with the same model and the same deliveries. */
  method RunProcess(initial: RunState, fuel: nat, env: Env)
    returns (journal: Journal, store: TaskStore, lock: RunLock, end: SessionEnd)
    requires initial.Consistent() && initial.phase.ModelPhase? && initial.pending == [] && initial.terminal.None?
    requires initial.evaluation.None? && initial.execution == ExecutionState(0, 0, None)
    requires initial.scriptCursor == 0 && initial.modelCalls == 0 && initial.toolCalls == 0 && initial.toolExecutions == 0
    requires forall m | m in initial.messages :: !m.Tool?
    ensures fuel > StepsLeft(initial) + 2 ==> end.Complete?
    ensures end.Complete? || (end.Crashed? && journal.fuel == 0)
    ensures Sound(WorldOf(journal, store, lock), env, initial.messages)
    ensures fresh(journal) && fresh(store) && fresh(lock) && SameRun(initial, journal.state)
    ensures end.Complete? ==>
      journal.state.terminal == Some(Outcome(Start(initial.messages), Oracle(env.client, {}, journal.replies), initial.limits))
    ensures end.Complete? ==> journal.state.terminal.Some?
    ensures end.Complete? ==>
      HasTranscript(journal.state.terminal.value, initial.messages, Oracle(env.client, {}, journal.replies), initial.limits)
  {
    hide Sound, RunState.Consistent, Outcome, HasTranscript;
    journal := new Journal(initial);
    store := new TaskStore();
    lock := new RunLock();
    FreshRunSound(initial, env);
    end := Session(journal, store, lock, fuel, env, initial.messages);
    if end.Complete? {
      EndsAsTheSimpleLoop(WorldOf(journal, store, lock), env, initial.messages);
      OutcomeIs(initial.messages, Oracle(env.client, {}, journal.replies), initial.limits);
    }
  }

  /** What may happen to a run: a session that dies after some durable steps, or the process left over from a
      crash reaching its transaction, or that process ending. */
  datatype Happening = Resume(fuel: nat) | OrphanStores(storageFails: bool) | OrphanExits

  /** Any history whatsoever keeps the invariant, loses nothing that was stored, and never grades again. */
  method Life(journal: Journal, store: TaskStore, lock: RunLock, history: seq<Happening>, env: Env, ghost prompt: seq<Message>)
    requires Sound(WorldOf(journal, store, lock), env, prompt)
    modifies journal, store, lock
    ensures Sound(WorldOf(journal, store, lock), env, prompt)
    ensures SameRun(old(journal.state), journal.state)
    ensures store.Contents().Extends(old(store.Contents()))
    ensures Final(old(journal.state), journal.state)
    ensures old(journal.state.finalized) ==> WorldOf(journal, store, lock) == old(WorldOf(journal, store, lock))
  {
    hide Sound, Effect, Backed;
    for i := 0 to |history|
      invariant Sound(WorldOf(journal, store, lock), env, prompt)
      invariant SameRun(old(journal.state), journal.state)
      invariant store.Contents().Extends(old(store.Contents()))
      invariant Final(old(journal.state), journal.state)
      invariant old(journal.state.finalized) ==> WorldOf(journal, store, lock) == old(WorldOf(journal, store, lock))
    {
      ghost var w := WorldOf(journal, store, lock);
      ControlFacts(w, env, prompt);
      ExitKeeps(w, env, prompt);
      match history[i] {
        case Resume(fuel) =>
          var end := Session(journal, store, lock, fuel, env, prompt);
        case OrphanStores(fails) =>
          if lock.worker.Some? {
            var reply := Perform(store, lock.worker.value, AfterStorage, fails);
            WorkerKeeps(w, store.Contents(), env, prompt);
          }
        case OrphanExits =>
          lock.worker := None;
      }
    }
  }
}
