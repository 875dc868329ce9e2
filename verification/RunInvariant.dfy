/** What holds of a durable run at every instant, in whatever session, alive or crashed. */
module RunInvariant {
  import opened Wrappers
  import opened Records
  import opened Tasks
  import opened ExecutionTypes
  import opened Worker
  import opened Agent
  import opened Evaluation
  import opened Journals

  /** How one worker attempt goes, whatever the cause: how far it gets, when it would end by itself, how
      long it takes to stop when asked, how late the runner's clock is read, and how long the runner
      watches it if the runner dies first. */
  datatype Attempt = Attempt(
    halt: Halt, storageFails: bool, finishAt: Seconds, stopTakes: Seconds, lag: Seconds, watchedFor: Seconds)

  /** The environment of a run: an arbitrary model, the fate of its n-th attempt, how much too long a backoff sleep
      lasts that starts after n events, and whether the task database can then be read for grading. */
  datatype Env = Env(client: Client, attempt: nat -> Attempt, oversleep: nat -> Seconds, unreadable: nat -> bool)

  /** Waits last no longer than their timeouts. */
  ghost predicate Punctual(env: Env) {
    forall n: nat :: env.attempt(n).lag == 0.0 && env.oversleep(n) == 0.0
  }

  lemma PunctualAt(env: Env, n: nat)
    requires Punctual(env)
    ensures env.attempt(n).lag == 0.0 && env.oversleep(n) == 0.0
  {
  }

  /** The two databases and the process, if any, that still holds the inherited run lock. */
  datatype World = World(saved: Saved, tables: Tables, worker: Option<Job>)

  /** A call id that the run has left behind. */
  predicate PastCall(id: CallId, s: RunState) {
    && id.TurnCall? && 1 <= id.index
    && (id.turn < s.modelCalls || (id.turn == s.modelCalls && (s.phase.ToolsPhase? ==> id.index <= s.toolCursor)))
  }

  /** The active operation serves the reserved tool call. */
  predicate InFlight(s: RunState) {
    s.toolReserved && s.execution.active.Some? && s.execution.active.value.callId == s.CurrentCall()
  }

  predicate ControlHolds(s: RunState) {
    && s.Consistent()
    && (s.phase.ModelPhase? ==> s.pending == [] && s.toolCursor == 0)
    && (s.toolReserved ==> !s.lastTurn.value.truncated)
    && s.toolExecutions + (if s.toolReserved then 1 else 0) <= s.toolCalls
    && s.scriptCursor <= s.modelCalls
    && s.execution.faultCursor <= s.execution.totalAttempts
  }

  predicate OperationHolds(s: RunState)
    requires ControlHolds(s)
  {
    s.execution.active.Some? ==>
      var op := s.execution.active.value;
      && op.call.Known() && op.call.ValidArguments()
      && op.attempts <= s.executionLimits.Attempts(s.config.policy)
      && (if InFlight(s) then op.call == s.pending[s.toolCursor] else op.result.Some? && PastCall(op.callId, s))
      && (op.result.Some? ==> op.result.value.executed)
  }

  /** A tool row is written for an accepted call; a reply only for a call left behind. */
  predicate RowsHold(s: RunState, requests: map<CallId, ToolCall>, replies: map<CallId, ToolDelivery>)
    requires ControlHolds(s)
  {
    && (forall id | id in requests :: PastCall(id, s) || (s.toolReserved && id == s.CurrentCall()))
    && (s.toolReserved ==> s.CurrentCall() in requests && requests[s.CurrentCall()] == s.pending[s.toolCursor])
    && (forall id | id in replies :: id in requests && PastCall(id, s))
  }

  /** Every recorded success reply is backed by storage. */
  ghost predicate RepliesBacked(
    requests: map<CallId, ToolCall>, replies: map<CallId, ToolDelivery>, tasks: map<string, string>)
  {
    forall id | id in replies :: id in requests && Backed(requests[id], replies[id].content, tasks)
  }

  /** Every tool message of the saved conversation is the recorded reply to its recorded request. */
  predicate ConversationHolds(messages: seq<Message>, requests: map<CallId, ToolCall>, replies: map<CallId, ToolDelivery>) {
    forall i | 0 <= i < |messages| && messages[i].Tool? ::
      && messages[i].callId in replies && messages[i].callId in requests
      && replies[messages[i].callId].content == messages[i].reply
      && requests[messages[i].callId].name == messages[i].toolName
  }

  /** An operation belongs to one accepted call for good. */
  ghost predicate OwnersHold(owners: map<string, Owner>, requests: map<CallId, ToolCall>, issued: nat) {
    && (forall o | o in owners ::
         |o| <= issued && !Blank(o) && owners[o].callId in requests && requests[owners[o].callId] == owners[o].call)
    && (forall o, p | o in owners && p in owners && owners[o].callId == owners[p].callId :: o == p)
  }

  /** Tasks and receipts are in bijection, and every receipt is of an owned create with its exact title. */
  ghost predicate LedgerOwned(t: Tables, owners: map<string, Owner>) {
    && t.Valid() && t.AllKeyed()
    && (forall o | o in t.ledger :: o in owners && Creates(owners[o].call, t.ledger[o].title))
  }

  predicate Creates(call: ToolCall, title: string) {
    call.name.CreateTask? && call.ValidArguments() && call.arguments.title == title
  }

  ghost predicate ActiveHolds(active: Option<Operation>, owners: map<string, Owner>, tasks: map<string, string>) {
    active.Some? ==>
      var op := active.value;
      && op.operationId in owners && owners[op.operationId] == Owner(op.callId, op.call)
      && (op.result.Some? ==> Backed(op.call, op.result.value.content, tasks))
  }

  /** Each operation belongs to a call left behind or in flight, one for each executed call. */
  predicate PlacesHold(s: RunState, owners: map<string, Owner>) {
    && (forall o | o in owners :: PastCall(owners[o].callId, s) || (InFlight(s) && owners[o].callId == s.CurrentCall()))
    && |owners| == s.toolExecutions + (if InFlight(s) then 1 else 0)
  }

  /** A worker is alive only for the unfinished operation in flight, and grading saw the final table. */
  ghost predicate LockHolds(s: RunState, worker: Option<Job>, tasks: map<string, string>) {
    && (worker.Some? ==>
         && InFlight(s) && s.execution.active.value.result.None?
         && worker.value.operationId == s.execution.active.value.operationId
         && worker.value.call == s.execution.active.value.call)
    && (s.terminal.Some? ==> worker.None?)
    && (s.evaluation.Some? && s.evaluation.value.rows.Some? ==> Lists(s.evaluation.value.rows.value, tasks))
  }

  /** Budgets bound what was really done, not only what was recorded. */
  ghost predicate BooksHold(s: RunState, books: Books, env: Env) {
    && books.asked <= s.modelCalls && (forall n | n in books.lost :: n <= s.modelCalls)
    && books.dispatched <= s.execution.totalAttempts
    && books.spent >= 0.0
    && (Punctual(env) && s.execution.active.Some? ==>
         var op := s.execution.active.value;
         books.spent + op.remaining - op.reserved <= s.executionLimits.operationSeconds)
  }

  // ---- The simple loop inside the durable one -------------------------------

  /** How the run would end from a checkpoint, if the simple loop took over. */
  function Remaining(s: RunState, o: Oracle): RunResult
    requires ControlHolds(s)
  {
    match s.phase
    case TerminalPhase => s.terminal.value
    case ModelPhase =>
      Outcome(Control(s.messages, s.modelCalls, s.toolCalls, s.toolExecutions, false, [], 0), o, s.limits)
    case ToolsPhase =>
      var accepted := if s.toolReserved then s.toolCalls - 1 else s.toolCalls;
      var c := Control(s.messages, s.modelCalls, accepted, s.toolExecutions, true, s.pending, s.toolCursor);
      if Ends(s.lastTurn.value) then EndOf(c, s.lastTurn.value) else Outcome(c, o, s.limits)
  }

  /** The oracle agrees with everything this run has recorded. */
  predicate Explains(s: RunState, lost: set<nat>, replies: map<CallId, ToolDelivery>, o: Oracle) {
    && (forall n | 1 <= n <= s.modelCalls :: n in o.lost <==> n in lost)
    && (forall id | id in replies :: id in o.deliveries && o.deliveries[id] == replies[id])
  }

  /** For every such oracle the run still ends as the simple loop would have from its first request. */
  ghost predicate Refines(s: RunState, lost: set<nat>, replies: map<CallId, ToolDelivery>, client: Client, prompt: seq<Message>)
    requires ControlHolds(s)
  {
    forall l: set<nat>, d: map<CallId, ToolDelivery> :: Explains(s, lost, replies, Oracle(client, l, d)) ==>
      Remaining(s, Oracle(client, l, d)) == Outcome(Start(prompt), Oracle(client, l, d), s.limits)
  }

  ghost predicate Sound(w: World, env: Env, prompt: seq<Message>) {
    var s, d := w.saved.state, w.saved;
    && ControlHolds(s) && OperationHolds(s)
    && RowsHold(s, d.requests, d.replies) && RepliesBacked(d.requests, d.replies, w.tables.tasks)
    && ConversationHolds(s.messages, d.requests, d.replies)
    && OwnersHold(d.books.owners, d.requests, d.issued) && LedgerOwned(w.tables, d.books.owners)
    && ActiveHolds(s.execution.active, d.books.owners, w.tables.tasks) && PlacesHold(s, d.books.owners)
    && LockHolds(s, w.worker, w.tables.tasks) && BooksHold(s, d.books, env)
    && Refines(s, d.books.lost, d.replies, env.client, prompt)
  }

  // ---- Every committed transition keeps it ----------------------------------

  function Save(w: World, event: Event, next: RunState): World {
    w.(saved := w.saved.After(event, next))
  }

  lemma SameOwners(owners: map<string, Owner>, active: Option<Operation>, tasks: map<string, string>)
    requires ActiveHolds(active, owners, tasks)
    ensures OwnersWith(owners, active) == owners
  {
  }

  function Requested(s: RunState): RunState { s.(modelCalls := s.modelCalls + 1) }

  /** The unanswered request is charged, and counted as lost until its answer is saved. */
  lemma ModelRequestedKeeps(w: World, env: Env, prompt: seq<Message>)
    requires Sound(w, env, prompt) && w.saved.state.phase.ModelPhase?
    requires w.saved.state.modelCalls < w.saved.state.limits.maxModelCalls
    ensures Requested(w.saved.state).Consistent()
    ensures Sound(Save(w, ModelRequested, Requested(w.saved.state)), env, prompt)
  {
    hide OwnersHold, LedgerOwned, ActiveHolds, RepliesBacked, ConversationHolds, Refines;
    hide RunState.Consistent, ControlHolds, OperationHolds, RowsHold, PlacesHold;
    RequestedState(w.saved.state, w.saved.requests, w.saved.replies, w.saved.books.owners);
    SameOwners(w.saved.books.owners, w.saved.state.execution.active, w.tables.tasks);
    RequestRefines(w.saved.state, w.saved.books.lost, w.saved.replies, env.client, prompt);
  }

  lemma RequestedState(s: RunState, requests: map<CallId, ToolCall>, replies: map<CallId, ToolDelivery>, owners: map<string, Owner>)
    requires ControlHolds(s) && OperationHolds(s) && RowsHold(s, requests, replies) && PlacesHold(s, owners)
    requires s.phase.ModelPhase? && s.modelCalls < s.limits.maxModelCalls
    ensures var next := Requested(s);
      && next.Consistent() && ControlHolds(next) && OperationHolds(next) && RowsHold(next, requests, replies) && PlacesHold(next, owners)
      && !InFlight(s) && !InFlight(next)
  {
  }

  lemma RequestRefines(s: RunState, lost: set<nat>, replies: map<CallId, ToolDelivery>, client: Client, prompt: seq<Message>)
    requires ControlHolds(s) && s.phase.ModelPhase? && s.modelCalls < s.limits.maxModelCalls
    requires Refines(s, lost, replies, client, prompt)
    ensures ControlHolds(Requested(s)) && Refines(Requested(s), lost + {s.modelCalls + 1}, replies, client, prompt)
  {
    var next := Requested(s);
    forall l: set<nat>, d: map<CallId, ToolDelivery>
      | Explains(next, lost + {next.modelCalls}, replies, Oracle(client, l, d))
      ensures Remaining(next, Oracle(client, l, d)) == Outcome(Start(prompt), Oracle(client, l, d), next.limits)
    {
      var o := Oracle(client, l, d);
      assert next.modelCalls in o.lost;
      assert Explains(s, lost, replies, o);
    }
  }

  function Answered(s: RunState, turn: ModelTurn): RunState {
    s.(messages := s.messages + [Message.Assistant(turn.content, turn.calls)],
       scriptCursor := s.scriptCursor + (if s.offline then 1 else 0),
       pending := turn.calls, lastTurn := Some(turn), toolCursor := 0, phase := ToolsPhase)
  }

  /** `before` is the checkpoint the answered request was made from. */
  lemma ModelReturnedKeeps(before: RunState, lost: set<nat>, w: World, turn: ModelTurn, env: Env, prompt: seq<Message>)
    requires Sound(w, env, prompt) && w.saved.state.phase.ModelPhase? && w.saved.state == Requested(before)
    requires before.modelCalls < before.limits.maxModelCalls && before.scriptCursor <= before.modelCalls
    requires ControlHolds(before) && Refines(before, lost, w.saved.replies, env.client, prompt)
    requires OperationHolds(before) && RowsHold(before, w.saved.requests, w.saved.replies) && PlacesHold(before, w.saved.books.owners)
    requires w.saved.books.lost == lost + {w.saved.state.modelCalls}
    requires env.client(before.messages, w.saved.state.modelCalls) == ClientReply.Answered(turn)
    ensures Answered(w.saved.state, turn).Consistent()
    ensures Sound(Save(w, ModelReturned, Answered(w.saved.state, turn)), env, prompt)
  {
    hide OwnersHold, LedgerOwned, ActiveHolds, RepliesBacked, ConversationHolds, Refines;
    hide RunState.Consistent, ControlHolds, OperationHolds, RowsHold, PlacesHold;
    var next := Answered(w.saved.state, turn);
    AnsweredState(before, turn, w.saved.requests, w.saved.replies, w.saved.books.owners);
    SaidKeeps(w.saved.state.messages, Message.Assistant(turn.content, turn.calls), w.saved.requests, w.saved.replies);
    SameOwners(w.saved.books.owners, next.execution.active, w.tables.tasks);
    AnswerRefines(before, lost, w.saved.books.lost - {next.modelCalls}, w.saved.replies, turn, env.client, prompt);
  }

  lemma AnsweredState(
    before: RunState, turn: ModelTurn, requests: map<CallId, ToolCall>, replies: map<CallId, ToolDelivery>, owners: map<string, Owner>)
    requires ControlHolds(before) && before.scriptCursor <= before.modelCalls
    requires OperationHolds(before) && RowsHold(before, requests, replies) && PlacesHold(before, owners)
    requires before.phase.ModelPhase? && before.modelCalls < before.limits.maxModelCalls
    ensures var next := Answered(Requested(before), turn);
      && next.Consistent() && ControlHolds(next) && OperationHolds(next) && RowsHold(next, requests, replies) && PlacesHold(next, owners)
      && !InFlight(next) && next.terminal.None? && next.evaluation.None?
  {
  }

  lemma SaidKeeps(messages: seq<Message>, m: Message, requests: map<CallId, ToolCall>, replies: map<CallId, ToolDelivery>)
    requires ConversationHolds(messages, requests, replies)
    requires m.Tool? ==>
      m.callId in replies && m.callId in requests && replies[m.callId].content == m.reply && requests[m.callId].name == m.toolName
    ensures ConversationHolds(messages + [m], requests, replies)
  {
  }

  lemma AnswerRefines(
    before: RunState, lost: set<nat>, after: set<nat>, replies: map<CallId, ToolDelivery>, turn: ModelTurn,
    client: Client, prompt: seq<Message>)
    requires ControlHolds(before) && before.phase.ModelPhase? && before.modelCalls < before.limits.maxModelCalls
    requires Refines(before, lost, replies, client, prompt)
    requires after == lost + {before.modelCalls + 1} - {before.modelCalls + 1}
    requires client(before.messages, before.modelCalls + 1) == ClientReply.Answered(turn)
    ensures var next := Answered(Requested(before), turn);
      ControlHolds(next) && Refines(next, after, replies, client, prompt)
  {
    var next := Answered(Requested(before), turn);
    assert ControlHolds(next);
    forall l: set<nat>, d: map<CallId, ToolDelivery> | Explains(next, after, replies, Oracle(client, l, d))
      ensures Remaining(next, Oracle(client, l, d)) == Outcome(Start(prompt), Oracle(client, l, d), next.limits)
    {
      var o := Oracle(client, l, d);
      assert next.modelCalls !in o.lost;
      assert Explains(before, lost, replies, o);
    }
  }

  function Stopped(s: RunState, status: ExecutionStatus, content: Option<Content>, error: Option<StopReason>): RunState {
    s.(terminal := Some(RunResult(status, content, s.modelCalls, s.toolCalls, s.toolExecutions, error)), phase := TerminalPhase)
  }

  lemma StoppedKeeps(w: World, next: RunState, env: Env, prompt: seq<Message>)
    requires Sound(w, env, prompt) && !w.saved.state.toolReserved && w.saved.state.terminal.None?
    requires next.terminal.Some?
    requires next == Stopped(w.saved.state, next.terminal.value.status, next.terminal.value.finalContent, next.terminal.value.error)
    requires next.Consistent() && ControlHolds(next)
    requires Refines(next, LostAfter(w.saved.books.lost, RunStopped, next), w.saved.replies, env.client, prompt)
    ensures Sound(Save(w, RunStopped, next), env, prompt)
  {
    hide OwnersHold, LedgerOwned, ActiveHolds, RepliesBacked, ConversationHolds, Refines;
    SameOwners(w.saved.books.owners, next.execution.active, w.tables.tasks);
  }

  /** Stopping at a checkpoint with the very result that remained. */
  lemma StopRefines(s: RunState, next: RunState, lost: set<nat>, replies: map<CallId, ToolDelivery>, client: Client, prompt: seq<Message>)
    requires ControlHolds(s) && Refines(s, lost, replies, client, prompt)
    requires ControlHolds(next) && next.terminal.Some? && next.phase.TerminalPhase?
    requires next.modelCalls == s.modelCalls && next.limits == s.limits
    requires forall o: Oracle | o.client == client :: Remaining(s, o) == next.terminal.value
    ensures Refines(next, lost, replies, client, prompt)
  {
    forall l: set<nat>, d: map<CallId, ToolDelivery> | Explains(next, lost, replies, Oracle(client, l, d))
      ensures Remaining(next, Oracle(client, l, d)) == Outcome(Start(prompt), Oracle(client, l, d), next.limits)
    {
      assert Explains(s, lost, replies, Oracle(client, l, d));
    }
  }

  /** The checkpoints at which the run must stop, and with what. */
  function Verdict(s: RunState): Option<RunResult> {
    var c := Control(s.messages, s.modelCalls, s.toolCalls, s.toolExecutions, false, [], 0);
    match s.phase
    case ModelPhase =>
      if s.modelCalls >= s.limits.maxModelCalls then Some(c.Stop(ModelLimit, None, Some(ModelBudget))) else None
    case ToolsPhase =>
      if s.lastTurn.Some? && Ends(s.lastTurn.value) then Some(EndOf(c, s.lastTurn.value))
      else if s.toolCursor < |s.pending| && !s.toolReserved && s.toolCalls >= s.limits.maxToolCalls
      then Some(c.Stop(ToolLimit, None, Some(ToolBudget)))
      else None
    case TerminalPhase => None
  }

  lemma VerdictKeeps(w: World, env: Env, prompt: seq<Message>)
    requires Sound(w, env, prompt) && Verdict(w.saved.state).Some?
    ensures var v := Verdict(w.saved.state).value;
      var next := Stopped(w.saved.state, v.status, v.finalContent, v.error);
      && next.terminal == Some(v) && !v.status.ProviderFailed?
      && next.Consistent() && Sound(Save(w, RunStopped, next), env, prompt)
  {
    hide OwnersHold, LedgerOwned, ActiveHolds, RepliesBacked, ConversationHolds, Refines, RowsHold, PlacesHold, BooksHold;
    var s := w.saved.state;
    var v := Verdict(s).value;
    var next := Stopped(s, v.status, v.finalContent, v.error);
    StopRefines(s, next, w.saved.books.lost, w.saved.replies, env.client, prompt);
    StoppedKeeps(w, next, env, prompt);
  }

  /** A provider failure ends the run as it ends the simple loop. */
  lemma ProviderRefines(
    before: RunState, lost: set<nat>, after: set<nat>, replies: map<CallId, ToolDelivery>, error: string,
    client: Client, prompt: seq<Message>)
    requires ControlHolds(before) && before.phase.ModelPhase? && before.modelCalls < before.limits.maxModelCalls
    requires Refines(before, lost, replies, client, prompt)
    requires after == lost + {before.modelCalls + 1} - {before.modelCalls + 1}
    requires client(before.messages, before.modelCalls + 1) == ProviderError(error)
    ensures var next := Stopped(Requested(before), ProviderFailed, None, Some(Provider(error)));
      ControlHolds(next) && Refines(next, after, replies, client, prompt)
  {
    var next := Stopped(Requested(before), ProviderFailed, None, Some(Provider(error)));
    assert ControlHolds(next);
    forall l: set<nat>, d: map<CallId, ToolDelivery> | Explains(next, after, replies, Oracle(client, l, d))
      ensures Remaining(next, Oracle(client, l, d)) == Outcome(Start(prompt), Oracle(client, l, d), next.limits)
    {
      var o := Oracle(client, l, d);
      assert next.modelCalls !in o.lost;
      assert Explains(before, lost, replies, o);
    }
  }

  /** A transition that changes neither the request counter nor the recorded replies, and after which the
      run ends the same for every oracle. */
  lemma SilentRefines(s: RunState, next: RunState, lost: set<nat>, replies: map<CallId, ToolDelivery>, client: Client, prompt: seq<Message>)
    requires ControlHolds(s) && ControlHolds(next) && Refines(s, lost, replies, client, prompt)
    requires next.modelCalls == s.modelCalls && next.limits == s.limits
    requires forall o: Oracle :: Remaining(next, o) == Remaining(s, o)
    ensures Refines(next, lost, replies, client, prompt)
  {
    forall l: set<nat>, d: map<CallId, ToolDelivery> | Explains(next, lost, replies, Oracle(client, l, d))
      ensures Remaining(next, Oracle(client, l, d)) == Outcome(Start(prompt), Oracle(client, l, d), next.limits)
    {
      assert Explains(s, lost, replies, Oracle(client, l, d));
    }
  }

  /** The world in which the request made from `w` has been charged, saved and sent. */
  function Asked(w: World): World {
    var w' := Save(w, ModelRequested, Requested(w.saved.state));
    w'.(saved := w'.saved.(books := w'.saved.books.(asked := w'.saved.books.asked + 1)))
  }

  lemma AskedKeeps(w: World, env: Env, prompt: seq<Message>)
    requires Sound(w, env, prompt) && w.saved.state.phase.ModelPhase?
    requires w.saved.state.modelCalls < w.saved.state.limits.maxModelCalls
    ensures Sound(Asked(w), env, prompt)
    ensures var s := w.saved.state; ControlHolds(s) && OperationHolds(s) && s.scriptCursor <= s.modelCalls
    ensures var s, d := w.saved.state, Asked(w).saved;
      && RowsHold(s, d.requests, d.replies) && PlacesHold(s, d.books.owners)
      && Refines(s, w.saved.books.lost, d.replies, env.client, prompt)
  {
    hide OwnersHold, LedgerOwned, ActiveHolds, RepliesBacked, ConversationHolds, Refines, RowsHold, PlacesHold, OperationHolds, LockHolds;
    ModelRequestedKeeps(w, env, prompt);
    KeptOwners(w, env, prompt);
  }

  lemma KeptOwners(w: World, env: Env, prompt: seq<Message>)
    requires Sound(w, env, prompt)
    ensures OwnersWith(w.saved.books.owners, w.saved.state.execution.active) == w.saved.books.owners
  {
    hide OwnersHold, LedgerOwned, ActiveHolds, RepliesBacked, ConversationHolds, Refines, RowsHold, PlacesHold,
      OperationHolds, LockHolds, BooksHold;
    SameOwners(w.saved.books.owners, w.saved.state.execution.active, w.tables.tasks);
  }

  lemma LostFacts(w: World, env: Env, prompt: seq<Message>)
    requires Sound(w, env, prompt)
    ensures forall n | n in w.saved.books.lost :: n <= w.saved.state.modelCalls
  {
    hide OwnersHold, LedgerOwned, ActiveHolds, RepliesBacked, ConversationHolds, Refines, RowsHold, PlacesHold, OperationHolds, LockHolds;
  }

  /** The answer, or the provider's failure, is interpreted from the checkpoint the request was made from. */
  lemma AnswerKeeps(w: World, turn: ModelTurn, env: Env, prompt: seq<Message>)
    requires Sound(w, env, prompt) && w.saved.state.phase.ModelPhase?
    requires w.saved.state.modelCalls < w.saved.state.limits.maxModelCalls
    requires env.client(w.saved.state.messages, w.saved.state.modelCalls + 1) == ClientReply.Answered(turn)
    ensures var next := Answered(Requested(w.saved.state), turn);
      next.Consistent() && Sound(Save(Asked(w), ModelReturned, next), env, prompt)
  {
    hide Sound, OperationHolds, RowsHold, PlacesHold, Refines;
    AskedKeeps(w, env, prompt);
    ModelReturnedKeeps(w.saved.state, w.saved.books.lost, Asked(w), turn, env, prompt);
  }

  lemma FailureKeeps(w: World, error: string, env: Env, prompt: seq<Message>)
    requires Sound(w, env, prompt) && w.saved.state.phase.ModelPhase?
    requires w.saved.state.modelCalls < w.saved.state.limits.maxModelCalls
    requires env.client(w.saved.state.messages, w.saved.state.modelCalls + 1) == ProviderError(error)
    ensures var next := Stopped(Requested(w.saved.state), ProviderFailed, None, Some(Provider(error)));
      next.Consistent() && Sound(Save(Asked(w), RunStopped, next), env, prompt)
  {
    hide Sound, OperationHolds, RowsHold, PlacesHold, Refines;
    AskedKeeps(w, env, prompt);
    ProviderRefines(w.saved.state, w.saved.books.lost, Asked(w).saved.books.lost - {w.saved.state.modelCalls + 1},
                    w.saved.replies, error, env.client, prompt);
    StoppedKeeps(Asked(w), Stopped(Requested(w.saved.state), ProviderFailed, None, Some(Provider(error))), env, prompt);
  }

  function Ready(s: RunState): RunState { s.(phase := ModelPhase, pending := [], toolCursor := 0) }

  lemma ModelReadyKeeps(w: World, env: Env, prompt: seq<Message>)
    requires Sound(w, env, prompt)
    requires var s := w.saved.state;
      s.phase.ToolsPhase? && s.toolCursor == |s.pending| && s.pending != [] && !s.lastTurn.value.truncated
    ensures Ready(w.saved.state).Consistent() && Sound(Save(w, ModelReady, Ready(w.saved.state)), env, prompt)
  {
    hide OwnersHold, LedgerOwned, ActiveHolds, RepliesBacked, ConversationHolds, Refines;
    var s := w.saved.state;
    SameOwners(w.saved.books.owners, s.execution.active, w.tables.tasks);
    SilentRefines(s, Ready(s), w.saved.books.lost, w.saved.replies, env.client, prompt);
  }

  function Reserved(s: RunState): RunState { s.(toolCalls := s.toolCalls + 1, toolReserved := true) }

  lemma ToolRequestedKeeps(w: World, env: Env, prompt: seq<Message>)
    requires Sound(w, env, prompt)
    requires var s := w.saved.state;
      && s.phase.ToolsPhase? && s.toolCursor < |s.pending| && !s.toolReserved
      && !s.lastTurn.value.truncated && s.toolCalls < s.limits.maxToolCalls
    ensures var s := w.saved.state;
      Reserved(s).Consistent() && Sound(Save(w, ToolRequested(s.CurrentCall(), s.pending[s.toolCursor]), Reserved(s)), env, prompt)
  {
    hide OwnersHold, LedgerOwned, ActiveHolds, RepliesBacked, ConversationHolds, Refines;
    var s := w.saved.state;
    assert s.CurrentCall() !in w.saved.requests;
    RequestRowKeeps(w.saved, w.tables.tasks, s.CurrentCall(), s.pending[s.toolCursor]);
    SameOwners(w.saved.books.owners, s.execution.active, w.tables.tasks);
    SilentRefines(s, Reserved(s), w.saved.books.lost, w.saved.replies, env.client, prompt);
  }

  lemma RequestRowKeeps(d: Saved, tasks: map<string, string>, id: CallId, call: ToolCall)
    requires id !in d.requests
    requires OwnersHold(d.books.owners, d.requests, d.issued) && RepliesBacked(d.requests, d.replies, tasks)
    requires ConversationHolds(d.state.messages, d.requests, d.replies)
    ensures OwnersHold(d.books.owners, d.requests[id := call], d.issued)
    ensures RepliesBacked(d.requests[id := call], d.replies, tasks)
    ensures ConversationHolds(d.state.messages, d.requests[id := call], d.replies)
  {
    hide Backed;
  }

  function Delivered(s: RunState, d: ToolDelivery): RunState
    requires s.toolCursor < |s.pending|
  {
    s.(messages := s.messages + [Message.Tool(s.CurrentCall(), s.pending[s.toolCursor].name, d.content)],
       toolCursor := s.toolCursor + 1, toolReserved := false,
       toolExecutions := s.toolExecutions + (if d.executed then 1 else 0))
  }

  /** A delivery the supervisor may make: the saved result of the operation in flight, or a refusal that
      never started one. */
  ghost predicate Deliverable(s: RunState, d: ToolDelivery) {
    if InFlight(s) then s.execution.active.value.result == Some(d) else !d.executed && !d.content.ok
  }

  lemma ToolReturnedKeeps(w: World, d: ToolDelivery, env: Env, prompt: seq<Message>)
    requires Sound(w, env, prompt) && w.worker.None?
    requires w.saved.state.toolReserved && Deliverable(w.saved.state, d)
    ensures var s := w.saved.state;
      Delivered(s, d).Consistent() && Sound(Save(w, ToolReturned(s.CurrentCall(), d), Delivered(s, d)), env, prompt)
  {
    hide OwnersHold, LedgerOwned, RepliesBacked, ConversationHolds, Refines, Backed, ActiveHolds, RowsHold, PlacesHold;
    var s := w.saved.state;
    SameOwners(w.saved.books.owners, s.execution.active, w.tables.tasks);
    DeliveryPlaces(w.saved, d);
    assert Backed(s.pending[s.toolCursor], d.content, w.tables.tasks) by { BackedDelivery(w, d); }
    ReplyRowKeeps(w.saved, w.tables.tasks, s.CurrentCall(), d);
    SaidKeeps(s.messages, Message.Tool(s.CurrentCall(), s.pending[s.toolCursor].name, d.content),
              w.saved.requests, w.saved.replies[s.CurrentCall() := d]);
    ReplyRefines(s, w.saved.books.lost, w.saved.replies, d, env.client, prompt);
  }

  lemma DeliveryPlaces(d: Saved, delivery: ToolDelivery)
    requires ControlHolds(d.state) && OperationHolds(d.state)
    requires RowsHold(d.state, d.requests, d.replies) && PlacesHold(d.state, d.books.owners)
    requires d.state.toolReserved && Deliverable(d.state, delivery)
    ensures var next, id := Delivered(d.state, delivery), d.state.CurrentCall();
      && id in d.requests && d.requests[id] == d.state.pending[d.state.toolCursor] && id !in d.replies
      && ControlHolds(next) && OperationHolds(next)
      && RowsHold(next, d.requests, d.replies[id := delivery]) && PlacesHold(next, d.books.owners)
  {
  }

  lemma BackedDelivery(w: World, d: ToolDelivery)
    requires ControlHolds(w.saved.state) && OperationHolds(w.saved.state)
    requires ActiveHolds(w.saved.state.execution.active, w.saved.books.owners, w.tables.tasks)
    requires w.saved.state.toolReserved && Deliverable(w.saved.state, d)
    ensures Backed(w.saved.state.pending[w.saved.state.toolCursor], d.content, w.tables.tasks)
  {
  }

  lemma ReplyRowKeeps(d: Saved, tasks: map<string, string>, id: CallId, delivery: ToolDelivery)
    requires id in d.requests && id !in d.replies && Backed(d.requests[id], delivery.content, tasks)
    requires RepliesBacked(d.requests, d.replies, tasks)
    requires ConversationHolds(d.state.messages, d.requests, d.replies)
    ensures RepliesBacked(d.requests, d.replies[id := delivery], tasks)
    ensures ConversationHolds(d.state.messages, d.requests, d.replies[id := delivery])
  {
    hide Backed;
  }

  lemma ReplyRefines(
    s: RunState, lost: set<nat>, replies: map<CallId, ToolDelivery>, delivery: ToolDelivery, client: Client, prompt: seq<Message>)
    requires ControlHolds(s) && s.toolReserved && Refines(s, lost, replies, client, prompt)
    requires s.CurrentCall() !in replies
    requires ControlHolds(Delivered(s, delivery))
    ensures Refines(Delivered(s, delivery), lost, replies[s.CurrentCall() := delivery], client, prompt)
  {
    var next, after := Delivered(s, delivery), replies[s.CurrentCall() := delivery];
    forall l: set<nat>, d: map<CallId, ToolDelivery> | Explains(next, lost, after, Oracle(client, l, d))
      ensures Remaining(next, Oracle(client, l, d)) == Outcome(Start(prompt), Oracle(client, l, d), next.limits)
    {
      var o := Oracle(client, l, d);
      assert Explains(s, lost, replies, o);
      assert Deliver(d, s.CurrentCall()) == delivery by { assert s.CurrentCall() in after; }
    }
  }

  function Graded(s: RunState, e: Evaluation): RunState { s.(evaluation := Some(e)) }

  lemma EvaluatedKeeps(w: World, e: Evaluation, env: Env, prompt: seq<Message>)
    requires Sound(w, env, prompt) && w.saved.state.terminal == Some(e.execution)
    requires w.saved.state.evaluation.None? && (e.rows.Some? ==> Lists(e.rows.value, w.tables.tasks))
    ensures Graded(w.saved.state, e).Consistent() && Sound(Save(w, EvaluationCompleted, Graded(w.saved.state, e)), env, prompt)
  {
    hide OwnersHold, LedgerOwned, ActiveHolds, RepliesBacked, ConversationHolds, Refines, Lists;
    var s := w.saved.state;
    SameOwners(w.saved.books.owners, s.execution.active, w.tables.tasks);
    SilentRefines(s, Graded(s, e), w.saved.books.lost, w.saved.replies, env.client, prompt);
  }

  function Sealed(s: RunState): RunState { s.(finalized := true) }

  lemma FinalizedKeeps(w: World, env: Env, prompt: seq<Message>)
    requires Sound(w, env, prompt) && w.saved.state.terminal.Some? && w.saved.state.evaluation.Some?
    ensures Sealed(w.saved.state).Consistent() && Sound(Save(w, ArtifactsFinalized, Sealed(w.saved.state)), env, prompt)
  {
    hide OwnersHold, LedgerOwned, ActiveHolds, RepliesBacked, ConversationHolds, Refines, Lists;
    var s := w.saved.state;
    SameOwners(w.saved.books.owners, s.execution.active, w.tables.tasks);
    SilentRefines(s, Sealed(s), w.saved.books.lost, w.saved.replies, env.client, prompt);
  }

  // ---- Checkpoints of the supervisor ---------------------------------------

  function WithOperation(s: RunState, op: Operation): RunState {
    s.(execution := s.execution.(active := Some(op)))
  }

  function NewOperation(s: RunState, issued: nat): Operation
    requires s.toolCursor < |s.pending|
  {
    Operation(Uuid(issued), s.CurrentCall(), s.pending[s.toolCursor], 0, s.executionLimits.operationSeconds, 0.0, None)
  }

  /** A new operation id is drawn and saved before anything is dispatched for it. */
  lemma NewOperationKeeps(w: World, env: Env, prompt: seq<Message>)
    requires Sound(w, env, prompt) && w.worker.None?
    requires w.saved.state.toolReserved && !InFlight(w.saved.state)
    requires var call := w.saved.state.pending[w.saved.state.toolCursor]; call.Known() && call.ValidArguments()
    ensures var s := w.saved.state; var next := WithOperation(s, NewOperation(s, w.saved.issued));
      && next.Consistent() && InFlight(next)
      && Sound(Save(w.(saved := w.saved.(issued := w.saved.issued + 1)), ExecutionCheckpoint, next), env, prompt)
  {
    hide LedgerOwned, RepliesBacked, ConversationHolds, Refines, OwnersHold, Blank;
    hide RunState.Consistent, ControlHolds, OperationHolds, RowsHold, PlacesHold;
    var s := w.saved.state;
    var owners := w.saved.books.owners;
    ReservedCall(s);
    var op := NewOperation(s, w.saved.issued);
    var next := WithOperation(s, op);
    FreshOwner(owners, w.saved.requests, w.saved.issued, op);
    NewOperationState(s, w.saved.issued, w.saved.requests, w.saved.replies, owners);
    NewOwnerKeeps(owners, w.saved.requests, w.saved.issued, w.tables, op);
    SilentRefines(s, next, w.saved.books.lost, w.saved.replies, env.client, prompt);
  }

  lemma ReservedCall(s: RunState)
    requires ControlHolds(s) && s.toolReserved
    ensures s.toolCursor < |s.pending| && s.phase.ToolsPhase?
  {
  }

  lemma NewOperationState(
    s: RunState, issued: nat, requests: map<CallId, ToolCall>, replies: map<CallId, ToolDelivery>, owners: map<string, Owner>)
    requires ControlHolds(s) && OperationHolds(s) && RowsHold(s, requests, replies) && PlacesHold(s, owners)
    requires s.toolReserved && !InFlight(s) && Uuid(issued) !in owners
    requires s.pending[s.toolCursor].Known() && s.pending[s.toolCursor].ValidArguments()
    ensures var op := NewOperation(s, issued); var next := WithOperation(s, op);
      && next.Consistent() && ControlHolds(next) && OperationHolds(next) && InFlight(next)
      && RowsHold(next, requests, replies) && PlacesHold(next, OwnersWith(owners, Some(op)))
      && op.callId in requests && requests[op.callId] == op.call && (forall o | o in owners :: owners[o].callId != op.callId)
  {
    hide Blank;
  }

  lemma IssuedKeeps(w: World, env: Env, prompt: seq<Message>)
    requires Sound(w, env, prompt)
    ensures Sound(w.(saved := w.saved.(issued := w.saved.issued + 1)), env, prompt)
  {
    hide LedgerOwned, ActiveHolds, RepliesBacked, ConversationHolds, RowsHold, PlacesHold, OperationHolds, Refines, LockHolds, BooksHold;
  }

  lemma FreshOwner(owners: map<string, Owner>, requests: map<CallId, ToolCall>, issued: nat, op: Operation)
    requires OwnersHold(owners, requests, issued) && op.operationId == Uuid(issued)
    ensures op.operationId !in owners
  {
  }

  lemma NewOwnerKeeps(owners: map<string, Owner>, requests: map<CallId, ToolCall>, issued: nat, t: Tables, op: Operation)
    requires OwnersHold(owners, requests, issued) && LedgerOwned(t, owners)
    requires op.operationId == Uuid(issued) && op.callId in requests && requests[op.callId] == op.call
    requires forall o | o in owners :: owners[o].callId != op.callId
    ensures OwnersHold(OwnersWith(owners, Some(op)), requests, issued + 1)
    ensures LedgerOwned(t, OwnersWith(owners, Some(op)))
  {
    hide Tables.Valid, ToolCall.ValidArguments, Blank;
    FreshOwner(owners, requests, issued, op);
  }

  /** The in-flight operation `op` may be saved with these budgets and, at its end, this result. */
  ghost predicate Advances(w: World, next: RunState, env: Env) {
    var s := w.saved.state;
    && InFlight(s) && w.worker.None? && next.execution.active.Some?
    && next == s.(execution := next.execution)
    && (var old_, op := s.execution.active.value, next.execution.active.value;
        && op.operationId == old_.operationId && op.callId == old_.callId && op.call == old_.call
        && op.attempts <= s.executionLimits.Attempts(s.config.policy) && op.attempts <= next.execution.totalAttempts
        && 0.0 <= op.reserved <= op.remaining <= s.executionLimits.operationSeconds
        && (op.result.Some? ==> op.result.value.executed && Backed(op.call, op.result.value.content, w.tables.tasks))
        && (Punctual(env) ==> w.saved.books.spent + op.remaining - op.reserved <= s.executionLimits.operationSeconds))
    && s.execution.totalAttempts <= next.execution.totalAttempts <= s.executionLimits.totalAttempts
    && next.execution.faultCursor <= next.execution.totalAttempts
  }

  lemma OperationKeeps(w: World, next: RunState, env: Env, prompt: seq<Message>)
    requires Sound(w, env, prompt) && Advances(w, next, env)
    ensures next.Consistent() && InFlight(next) && Sound(Save(w, ExecutionCheckpoint, next), env, prompt)
  {
    hide OwnersHold, LedgerOwned, RepliesBacked, ConversationHolds, Refines, Backed;
    assert OwnersWith(w.saved.books.owners, next.execution.active) == w.saved.books.owners;
    SilentRefines(w.saved.state, next, w.saved.books.lost, w.saved.replies, env.client, prompt);
  }

  lemma KnownOwner(w: World, env: Env, prompt: seq<Message>)
    requires Sound(w, env, prompt) && w.saved.state.execution.active.Some?
    ensures var op := w.saved.state.execution.active.value;
      op.operationId in w.saved.books.owners && w.saved.books.owners[op.operationId] == Owner(op.callId, op.call)
  {
    hide OwnersHold, LedgerOwned, RepliesBacked, ConversationHolds, RowsHold, PlacesHold, OperationHolds, Refines, LockHolds, BooksHold;
  }

  lemma ControlFacts(w: World, env: Env, prompt: seq<Message>)
    requires Sound(w, env, prompt)
    ensures var s := w.saved.state;
      && ControlHolds(s) && s.modelCalls <= s.limits.maxModelCalls && s.toolCursor <= |s.pending|
      && s.toolCalls <= s.limits.maxToolCalls && (s.toolReserved ==> s.phase.ToolsPhase? && s.toolCalls > 0)
      && (s.phase.ToolsPhase? ==> s.lastTurn.Some? && s.pending == s.lastTurn.value.calls)
      && (s.terminal.Some? <==> s.phase.TerminalPhase?) && (s.terminal.Some? ==> w.worker.None?)
      && (s.evaluation.Some? ==> s.terminal.Some?) && (s.finalized ==> s.evaluation.Some?)
  {
    hide OwnersHold, LedgerOwned, RepliesBacked, ConversationHolds, RowsHold, PlacesHold, Refines, ActiveHolds, BooksHold, OperationHolds;
  }

  /** What `execute` finds when the loop hands it a reserved call: the active operation is this call's own, or
      finished. So neither of its consistency errors can be raised. */
  lemma CallFacts(w: World, env: Env, prompt: seq<Message>)
    requires Sound(w, env, prompt) && w.saved.state.toolReserved
    ensures var s := w.saved.state;
      && ControlHolds(s)
      && (InFlight(s) ==> s.execution.active.value.call == s.pending[s.toolCursor])
      && (InFlight(s) ==> s.execution.active.value.call.Known() && s.execution.active.value.call.ValidArguments())
      && (s.execution.active.Some? && !InFlight(s) ==> s.execution.active.value.result.Some?)
      && (s.execution.active.Some? && s.execution.active.value.result.Some? ==> s.execution.active.value.result.value.executed)
  {
    hide OwnersHold, LedgerOwned, RepliesBacked, ConversationHolds, RowsHold, PlacesHold, Refines, LockHolds, ActiveHolds, BooksHold;
  }

  /** What a supervisor may rely on about the operation in flight. */
  lemma InFlightFacts(w: World, env: Env, prompt: seq<Message>)
    requires Sound(w, env, prompt) && InFlight(w.saved.state)
    ensures var s := w.saved.state; var op := s.execution.active.value;
      && s.executionLimits.Valid() && op.call.Known() && op.call.ValidArguments()
      && op.attempts <= s.executionLimits.Attempts(s.config.policy)
      && op.attempts <= s.execution.totalAttempts <= s.executionLimits.totalAttempts
      && 0.0 <= op.reserved <= op.remaining <= s.executionLimits.operationSeconds
      && s.execution.faultCursor <= s.execution.totalAttempts
      && w.saved.books.dispatched <= s.execution.totalAttempts && w.saved.books.spent >= 0.0
      && (Punctual(env) ==> w.saved.books.spent + op.remaining - op.reserved <= s.executionLimits.operationSeconds)
  {
    hide OwnersHold, LedgerOwned, RepliesBacked, ConversationHolds, RowsHold, PlacesHold, Refines, LockHolds, ActiveHolds;
  }

  /** Only the execution record and the bookkeeping of the active operation may differ. */
  predicate Quiet(before: Saved, after: Saved) {
    && after.state == before.state.(execution := after.state.execution)
    && after.requests == before.requests && after.replies == before.replies
    && after.books.lost == before.books.lost && after.books.asked == before.books.asked
  }

  lemma QuietSelf(a: Saved)
    ensures Quiet(a, a)
  {
  }

  lemma QuietHolds(a: Saved, b: Saved)
    requires Quiet(a, b)
    ensures b.state == a.state.(execution := b.state.execution)
  {
  }

  lemma QuietTransitive(a: Saved, b: Saved, c: Saved)
    requires Quiet(a, b) && Quiet(b, c)
    ensures Quiet(a, c)
  {
  }

  // ---- The worker process ---------------------------------------------------

  function Spent(w: World, seconds: real): World {
    w.(saved := w.saved.(books := w.saved.books.(spent := w.saved.books.spent + seconds)))
  }

  lemma SpentKeeps(w: World, seconds: real, env: Env, prompt: seq<Message>)
    requires Sound(w, env, prompt) && seconds >= 0.0
    requires Punctual(env) && w.saved.state.execution.active.Some? ==>
      var op := w.saved.state.execution.active.value;
      w.saved.books.spent + seconds + op.remaining - op.reserved <= w.saved.state.executionLimits.operationSeconds
    ensures Sound(Spent(w, seconds), env, prompt)
  {
    hide OwnersHold, LedgerOwned, ActiveHolds, RepliesBacked, ConversationHolds, RowsHold, PlacesHold, OperationHolds, Refines, LockHolds;
  }

  function Spawned(w: World, job: Job): World {
    w.(saved := w.saved.(books := w.saved.books.(dispatched := w.saved.books.dispatched + 1)), worker := Some(job))
  }

  lemma SpawnKeeps(w: World, job: Job, env: Env, prompt: seq<Message>)
    requires Sound(w, env, prompt) && w.worker.None? && InFlight(w.saved.state)
    requires var op := w.saved.state.execution.active.value;
      op.result.None? && job.operationId == op.operationId && job.call == op.call
    requires w.saved.books.dispatched < w.saved.state.execution.totalAttempts
    ensures Sound(Spawned(w, job), env, prompt)
  {
    hide OwnersHold, LedgerOwned, ActiveHolds, RepliesBacked, ConversationHolds, RowsHold, PlacesHold, OperationHolds, Refines;
  }

  lemma ExitKeeps(w: World, env: Env, prompt: seq<Message>)
    requires Sound(w, env, prompt)
    ensures Sound(w.(worker := None), env, prompt) && w.tables.Valid()
  {
    hide OwnersHold, ActiveHolds, RepliesBacked, ConversationHolds, RowsHold, PlacesHold, OperationHolds, Refines;
  }

  lemma StoreIsValid(w: World, env: Env, prompt: seq<Message>)
    requires Sound(w, env, prompt)
    ensures w.tables.Valid()
  {
    hide OwnersHold, ActiveHolds, RepliesBacked, ConversationHolds, RowsHold, PlacesHold, OperationHolds, Refines;
  }

  /** The process that holds the lock works for a valid call, under an operation of no other. */
  lemma OwnJob(w: World, env: Env, prompt: seq<Message>)
    requires Sound(w, env, prompt) && w.worker.Some?
    ensures w.worker.value.call.ValidArguments() && OwnReceipt(w.worker.value, w.tables)
  {
    hide Refines, RepliesBacked, ConversationHolds, RowsHold, BooksHold, PlacesHold, Blank;
  }

  /** Whatever the process that holds the lock does to the database. */
  lemma WorkerKeeps(w: World, after: Tables, env: Env, prompt: seq<Message>)
    requires Sound(w, env, prompt) && w.worker.Some? && Effect(w.worker.value, w.tables, after)
    ensures Sound(w.(tables := after), env, prompt) && after.Extends(w.tables)
  {
    hide OwnersHold, ConversationHolds, Refines, LedgerOwned, RepliesBacked, Effect, Backed;
    var s := w.saved.state;
    TablesKeep(w.worker.value, w.tables, after, w.saved.books.owners, w.saved.requests, w.saved.replies);
  }

  lemma TablesKeep(
    job: Job, t: Tables, after: Tables, owners: map<string, Owner>,
    requests: map<CallId, ToolCall>, replies: map<CallId, ToolDelivery>)
    requires LedgerOwned(t, owners) && RepliesBacked(requests, replies, t.tasks) && Effect(job, t, after)
    requires job.operationId in owners && owners[job.operationId].call == job.call
    ensures LedgerOwned(after, owners) && RepliesBacked(requests, replies, after.tasks) && after.Extends(t)
  {
    EffectKeeps(job, t, after);
    forall id | id in replies ensures Backed(requests[id], replies[id].content, after.tasks) {
      BackedPersists(requests[id], replies[id].content, t, after);
    }
  }

  /** A fresh run directory. */
  lemma FreshRunSound(initial: RunState, env: Env)
    requires initial.Consistent() && initial.phase.ModelPhase? && initial.pending == [] && initial.terminal.None?
    requires initial.evaluation.None? && initial.execution == ExecutionState(0, 0, None)
    requires initial.scriptCursor == 0 && initial.modelCalls == 0 && initial.toolCalls == 0 && initial.toolExecutions == 0
    requires forall m | m in initial.messages :: !m.Tool?
    ensures Sound(World(Saved(initial, map[], map[], 0, Books(map[], {}, 0, 0, 0.0)), Tables(map[], map[], 0), None),
                  env, initial.messages)
  {
    assert TaskIds(map[]) == {};
  }

  // ---- What the invariant gives a reader of the two databases ----------------

  /** The operations that left a task for one accepted call. */
  ghost function EffectsOf(w: World, id: CallId): set<string> {
    set o | o in w.tables.ledger && o in w.saved.books.owners && w.saved.books.owners[o].callId == id
  }

  /** However often it was delivered, an accepted call has left at most one task, and the task table holds
      nothing else: every task is the effect of one accepted create, with its exact title. */
  lemma OneEffectPerCall(w: World, env: Env, prompt: seq<Message>)
    requires Sound(w, env, prompt)
    ensures forall id :: |EffectsOf(w, id)| <= 1
    ensures forall t | t in w.tables.tasks :: exists o ::
      && o in w.tables.ledger && w.tables.ledger[o] == Receipt(w.tables.tasks[t], t)
      && o in w.saved.books.owners && w.saved.books.owners[o].callId in w.saved.requests
      && Creates(w.saved.requests[w.saved.books.owners[o].callId], w.tables.tasks[t])
  {
    hide Refines, RepliesBacked, ConversationHolds, ActiveHolds, RowsHold, LockHolds, BooksHold, OperationHolds, PlacesHold, ControlHolds, Blank;
    var owners := w.saved.books.owners;
    forall id ensures |EffectsOf(w, id)| <= 1 {
      var ops := EffectsOf(w, id);
      if o :| o in ops {
        assert ops == {o};
      }
    }
    forall t | t in w.tables.tasks ensures exists o ::
      && o in w.tables.ledger && w.tables.ledger[o] == Receipt(w.tables.tasks[t], t)
      && o in owners && owners[o].callId in w.saved.requests
      && Creates(w.saved.requests[owners[o].callId], w.tables.tasks[t])
    {
      assert t in TaskIds(w.tables.ledger);
      var o :| o in w.tables.ledger && w.tables.ledger[o].taskId == t;
      assert o in owners;
    }
  }

  lemma TasksAreCharged(w: World, env: Env, prompt: seq<Message>)
    requires Sound(w, env, prompt)
    ensures |w.tables.tasks| <= w.saved.state.toolCalls <= w.saved.state.limits.maxToolCalls
  {
    hide Refines, RepliesBacked, ConversationHolds, ActiveHolds, RowsHold, LockHolds, BooksHold, OperationHolds, OwnersHold;
    LedgerCounts(w.tables);
    var receipts, owned := w.tables.ledger.Keys, w.saved.books.owners.Keys;
    assert receipts <= owned;
    SubsetSize(receipts, owned);
    assert |w.tables.ledger| == |receipts| && |w.saved.books.owners| == |owned|;
  }

  /** Once graded, the table is the graded table for good, if it could be read, and no process can touch it. */
  lemma GradeIsFinal(w: World, env: Env, prompt: seq<Message>)
    requires Sound(w, env, prompt) && w.saved.state.evaluation.Some?
    ensures w.worker.None?
    ensures w.saved.state.evaluation.value.rows.Some? ==> Lists(w.saved.state.evaluation.value.rows.value, w.tables.tasks)
    ensures Some(w.saved.state.evaluation.value.execution) == w.saved.state.terminal
  {
    hide Refines, OwnersHold, LedgerOwned, ActiveHolds, PlacesHold, RowsHold, RepliesBacked, ConversationHolds, BooksHold;
  }

  /** Every success reply to a create in the saved conversation names a stored task with the title that
      the recorded request asked for, exactly. */
  lemma RepliesAreTrue(w: World, env: Env, prompt: seq<Message>)
    requires Sound(w, env, prompt)
    ensures forall m | m in w.saved.state.messages && m.Tool? && m.toolName.CreateTask? && m.reply.ok ::
      && m.callId in w.saved.requests && m.reply.value.Some?
      && Creates(w.saved.requests[m.callId], m.reply.value.value.title)
      && m.reply.value.value.id in w.tables.tasks
      && w.tables.tasks[m.reply.value.value.id] == m.reply.value.value.title
  {
    hide Refines, OwnersHold, LedgerOwned, ActiveHolds, LockHolds, BooksHold, PlacesHold, RowsHold, OperationHolds, ControlHolds;
  }

  /** Budgets bound the model requests, the workers dispatched and, when waits honour their timeouts, the
      true time of the operation in hand over all sessions. */
  lemma BudgetsBound(w: World, env: Env, prompt: seq<Message>)
    requires Sound(w, env, prompt)
    ensures var s, b := w.saved.state, w.saved.books;
      && b.asked <= s.limits.maxModelCalls && b.dispatched <= s.executionLimits.totalAttempts
      && (Punctual(env) && s.execution.active.Some? ==> b.spent <= s.executionLimits.operationSeconds)
      && (s.execution.active.Some? ==> s.execution.active.value.attempts <= s.executionLimits.Attempts(s.config.policy))
  {
    hide Refines, OwnersHold, LedgerOwned, ActiveHolds, LockHolds, PlacesHold, RowsHold, RepliesBacked, ConversationHolds;
  }

  /** A run that lost no answered request ends with the very result of the simple loop that talks to the
      same model and gets the same deliveries, in however many sessions it took. */
  lemma EndsAsTheSimpleLoop(w: World, env: Env, prompt: seq<Message>)
    requires Sound(w, env, prompt) && w.saved.state.terminal.Some?
    requires forall n | 1 <= n <= w.saved.state.modelCalls :: n !in w.saved.books.lost
    ensures w.saved.state.terminal.value
      == Outcome(Start(prompt), Oracle(env.client, {}, w.saved.replies), w.saved.state.limits)
  {
    hide OwnersHold, LedgerOwned, ActiveHolds, LockHolds, PlacesHold, RowsHold, RepliesBacked, ConversationHolds, Outcome;
    assert Explains(w.saved.state, w.saved.books.lost, w.saved.replies, Oracle(env.client, {}, w.saved.replies));
  }

  /** Every run that has ended, whatever it lost on the way, ended as its transcript says: with what its model answered
      to the conversations it was sent, and the replies recorded here. */
  lemma EndsAsTold(w: World, env: Env, prompt: seq<Message>)
    requires Sound(w, env, prompt) && w.saved.state.terminal.Some?
    ensures HasTranscript(w.saved.state.terminal.value, prompt, Oracle(env.client, w.saved.books.lost, w.saved.replies), w.saved.state.limits)
  {
    hide OwnersHold, LedgerOwned, ActiveHolds, LockHolds, PlacesHold, RowsHold, RepliesBacked, ConversationHolds, Outcome, HasTranscript;
    var o := Oracle(env.client, w.saved.books.lost, w.saved.replies);
    assert Explains(w.saved.state, w.saved.books.lost, w.saved.replies, o);
    OutcomeIs(prompt, o, w.saved.state.limits);
  }

  /** What a later session may still record agrees with what was. */
  predicate Within(replies: map<CallId, ToolDelivery>, deliveries: map<CallId, ToolDelivery>) {
    forall id | id in replies :: id in deliveries && deliveries[id] == replies[id]
  }

  /** A crash that loses nothing is a stutter: two runs with the same model, prompt and limits whose calls got the
      same deliveries end with the same result, in however many sessions each took. */
  lemma CrashesAreStutters(w: World, env: Env, w': World, env': Env, prompt: seq<Message>, deliveries: map<CallId, ToolDelivery>)
    requires Sound(w, env, prompt) && w.saved.state.terminal.Some? && Within(w.saved.replies, deliveries)
    requires Sound(w', env', prompt) && w'.saved.state.terminal.Some? && Within(w'.saved.replies, deliveries)
    requires forall n | 1 <= n <= w.saved.state.modelCalls :: n !in w.saved.books.lost
    requires forall n | 1 <= n <= w'.saved.state.modelCalls :: n !in w'.saved.books.lost
    requires env.client == env'.client && w.saved.state.limits == w'.saved.state.limits
    ensures w.saved.state.terminal == w'.saved.state.terminal
  {
    hide OwnersHold, LedgerOwned, ActiveHolds, LockHolds, PlacesHold, RowsHold, RepliesBacked, ConversationHolds, Outcome;
    assert Explains(w.saved.state, w.saved.books.lost, w.saved.replies, Oracle(env.client, {}, deliveries));
    assert Explains(w'.saved.state, w'.saved.books.lost, w'.saved.replies, Oracle(env.client, {}, deliveries));
  }
}
