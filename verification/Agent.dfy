/** agent.py: the small sequential tool-using loop, and what it computes as a function of its oracles. */
module Agent {
  import opened Wrappers
  import opened Records

  datatype Limits = Limits(maxModelCalls: nat, maxToolCalls: nat)
  {
    predicate Valid() { 1 <= maxModelCalls <= 6 && 1 <= maxToolCalls <= 6 }
  }

  datatype ClientReply = Answered(turn: ModelTurn) | ProviderError(error: string)

  /** An arbitrary model: its answer to a conversation sent as the n-th request of a run. */
  type Client = (seq<Message>, nat) -> ClientReply

  /** What is arbitrary in one run: the model, what each tool call delivers, and which requests were lost
      with the process that made them (none, in `run_agent`). */
  datatype Oracle = Oracle(client: Client, lost: set<nat>, deliveries: map<CallId, ToolDelivery>)

  function Deliver(deliveries: map<CallId, ToolDelivery>, id: CallId): ToolDelivery {
    if id in deliveries then deliveries[id] else ToolDelivery(ErrorReply(DeliveryError), true)
  }

  /** The loop's local variables: between turns, or inside one at `cursor` of its `pending` calls. */
  datatype Control = Control(
    messages: seq<Message>, modelCalls: nat, toolCalls: nat, toolExecutions: nat,
    inTurn: bool, pending: seq<ToolCall>, cursor: nat)
  {
    function Left(): nat { if !inTurn then 0 else if cursor < |pending| then |pending| - cursor + 1 else 1 }

    function Stop(status: ExecutionStatus, content: Option<Content>, error: Option<StopReason>): RunResult {
      RunResult(status, content, modelCalls, toolCalls, toolExecutions, error)
    }
  }

  function Start(messages: seq<Message>): Control { Control(messages, 0, 0, 0, false, [], 0) }

  /** A turn that ends the run: cut off, or without tool calls. */
  predicate Ends(turn: ModelTurn) { turn.truncated || turn.calls == [] }

  function EndOf(c: Control, turn: ModelTurn): RunResult
    requires Ends(turn)
  {
    if turn.truncated then
      c.Stop(ProtocolError, if turn.calls == [] then Some(turn.content) else None, Some(OutputLimit))
    else if turn.content.Empty() then c.Stop(ProtocolError, Some(turn.content), Some(EmptyResponse))
    else c.Stop(Finished, Some(turn.content), None)
  }

  function Took(c: Control, turn: ModelTurn): Control {
    c.(messages := c.messages + [Assistant(turn.content, turn.calls)], inTurn := true, pending := turn.calls, cursor := 0)
  }

  function Returned(c: Control, d: ToolDelivery): Control
    requires c.cursor < |c.pending|
  {
    c.(messages := c.messages + [Tool(TurnCall(c.modelCalls, c.cursor + 1), c.pending[c.cursor].name, d.content)],
       toolCalls := c.toolCalls + 1, toolExecutions := c.toolExecutions + (if d.executed then 1 else 0),
       cursor := c.cursor + 1)
  }

  /** How a run that has got as far as `c` ends. */
  function Outcome(c: Control, o: Oracle, limits: Limits): RunResult
    decreases limits.maxModelCalls - c.modelCalls, c.Left()
  {
    if !c.inTurn then
      if c.modelCalls >= limits.maxModelCalls then c.Stop(ModelLimit, None, Some(ModelBudget))
      else
        var c' := c.(modelCalls := c.modelCalls + 1);
        if c'.modelCalls in o.lost then Outcome(c', o, limits)
        else match o.client(c.messages, c'.modelCalls)
          case ProviderError(e) => c'.Stop(ProviderFailed, None, Some(Provider(e)))
          case Answered(turn) => if Ends(turn) then EndOf(c', turn) else Outcome(Took(c', turn), o, limits)
    else if c.cursor >= |c.pending| then Outcome(c.(inTurn := false, pending := [], cursor := 0), o, limits)
    else if c.toolCalls >= limits.maxToolCalls then c.Stop(ToolLimit, None, Some(ToolBudget))
    else Outcome(Returned(c, Deliver(o.deliveries, TurnCall(c.modelCalls, c.cursor + 1))), o, limits)
  }

  lemma {:induction false} OutcomeCounts(c: Control, o: Oracle, limits: Limits)
    requires c.toolExecutions <= c.toolCalls <= limits.maxToolCalls && c.modelCalls <= limits.maxModelCalls
    ensures var r := Outcome(c, o, limits);
      && c.modelCalls <= r.modelCalls <= limits.maxModelCalls
      && c.toolCalls <= r.toolCalls <= limits.maxToolCalls
      && c.toolExecutions <= r.toolExecutions <= r.toolCalls
      && (r.status.Finished? <==> r.error.None?)
      && (r.status.Finished? ==> r.finalContent.Some? && !r.finalContent.value.Empty())
    decreases limits.maxModelCalls - c.modelCalls, c.Left()
  {
    if !c.inTurn {
      if c.modelCalls < limits.maxModelCalls {
        var c' := c.(modelCalls := c.modelCalls + 1);
        if c'.modelCalls in o.lost {
          OutcomeCounts(c', o, limits);
        } else {
          match o.client(c.messages, c'.modelCalls)
          case ProviderError(_) =>
          case Answered(turn) => if !Ends(turn) { OutcomeCounts(Took(c', turn), o, limits); }
        }
      }
    } else if c.cursor >= |c.pending| {
      OutcomeCounts(c.(inTurn := false, pending := [], cursor := 0), o, limits);
    } else if c.toolCalls < limits.maxToolCalls {
      OutcomeCounts(Returned(c, Deliver(o.deliveries, TurnCall(c.modelCalls, c.cursor + 1))), o, limits);
    }
  }

  // ---- A run told by its transcript ---------------------------------------------

  /** The replies to the first `k` calls of the n-th turn, in order, each with what its call delivered. */
  function ToolReplies(turn: ModelTurn, n: nat, k: nat, deliveries: map<CallId, ToolDelivery>): seq<Message>
    requires k <= |turn.calls|
  {
    seq(k, i requires 0 <= i < k => Tool(TurnCall(n, i + 1), turn.calls[i].name, Deliver(deliveries, TurnCall(n, i + 1)).content))
  }

  /** What the next request sends when the earlier ones were answered, or lost, like this: the prompt, then each
      answered turn followed by the replies to its calls. */
  function Conversation(prompt: seq<Message>, turns: seq<Option<ModelTurn>>, deliveries: map<CallId, ToolDelivery>): seq<Message> {
    if turns == [] then prompt
    else
      var n := |turns|;
      var before := Conversation(prompt, turns[..n - 1], deliveries);
      match turns[n - 1]
      case None => before
      case Some(turn) => before + [Assistant(turn.content, turn.calls)] + ToolReplies(turn, n, |turn.calls|, deliveries)
  }

  function CallsOf(turn: Option<ModelTurn>): seq<ToolCall> { if turn.Some? then turn.value.calls else [] }

  function CallCount(turns: seq<Option<ModelTurn>>): nat {
    if turns == [] then 0 else CallCount(turns[..|turns| - 1]) + |CallsOf(turns[|turns| - 1])|
  }

  /** How many of the first `k` calls of the n-th turn were executed. */
  function ExecutedCalls(n: nat, k: nat, deliveries: map<CallId, ToolDelivery>): nat {
    if k == 0 then 0 else ExecutedCalls(n, k - 1, deliveries) + if Deliver(deliveries, TurnCall(n, k)).executed then 1 else 0
  }

  function Executions(turns: seq<Option<ModelTurn>>, deliveries: map<CallId, ToolDelivery>): nat {
    if turns == [] then 0
    else Executions(turns[..|turns| - 1], deliveries) + ExecutedCalls(|turns|, |CallsOf(turns[|turns| - 1])|, deliveries)
  }

  /** Every request up to here was lost, or answered with calls to make, on being sent its conversation. */
  predicate Transcript(turns: seq<Option<ModelTurn>>, prompt: seq<Message>, o: Oracle) {
    forall i | 0 <= i < |turns| ::
      if i + 1 in o.lost then turns[i].None?
      else
        && turns[i].Some? && !turns[i].value.truncated && turns[i].value.calls != []
        && o.client(Conversation(prompt, turns[..i], o.deliveries), i + 1) == Answered(turns[i].value)
  }

  /** All calls of these turns were made, within the budget. */
  predicate CallsMade(r: RunResult, turns: seq<Option<ModelTurn>>, o: Oracle, limits: Limits) {
    r.toolCalls == CallCount(turns) <= limits.maxToolCalls && r.toolExecutions == Executions(turns, o.deliveries)
  }

  /** How a run with this transcript ends. Out of requests: every one was made, and the calls of every turn. Out of
      tool calls: inside the calls of the last turn. Otherwise the last request was answered by a failure or by a
      turn that is cut off or asks for no call, and the result says which, with that turn's own content. */
  predicate Account(r: RunResult, turns: seq<Option<ModelTurn>>, prompt: seq<Message>, o: Oracle, limits: Limits) {
    var n := |turns|;
    && Transcript(turns, prompt, o) && n <= limits.maxModelCalls
    && match r.status
       case ModelLimit =>
         r.modelCalls == n == limits.maxModelCalls && CallsMade(r, turns, o, limits) && r.finalContent.None? && r.error == Some(ModelBudget)
       case ToolLimit =>
         && n > 0 && r.modelCalls == n && r.toolCalls == limits.maxToolCalls && r.finalContent.None? && r.error == Some(ToolBudget)
         && var before := CallCount(turns[..n - 1]);
            && before <= limits.maxToolCalls < CallCount(turns)
            && r.toolExecutions == Executions(turns[..n - 1], o.deliveries) + ExecutedCalls(n, limits.maxToolCalls - before, o.deliveries)
       case _ =>
         && r.modelCalls == n + 1 <= limits.maxModelCalls && n + 1 !in o.lost && CallsMade(r, turns, o, limits)
         && match o.client(Conversation(prompt, turns, o.deliveries), n + 1)
            case ProviderError(e) => r.status.ProviderFailed? && r.finalContent.None? && r.error == Some(Provider(e))
            case Answered(turn) =>
              if turn.truncated then
                && r.status.ProtocolError? && r.error == Some(OutputLimit)
                && r.finalContent == if turn.calls == [] then Some(turn.content) else None
              else
                && turn.calls == [] && r.finalContent == Some(turn.content)
                && (if turn.content.Empty() then r.status.ProtocolError? && r.error == Some(EmptyResponse)
                    else r.status.Finished? && r.error.None?)
  }

  ghost predicate HasTranscript(r: RunResult, prompt: seq<Message>, o: Oracle, limits: Limits) {
    exists turns :: Account(r, turns, prompt, o, limits)
  }

  /** The loop's variables after so many turns, or inside the last of them. */
  predicate Stands(c: Control, turns: seq<Option<ModelTurn>>, prompt: seq<Message>, o: Oracle, limits: Limits) {
    var n := |turns|;
    && Transcript(turns, prompt, o) && c.modelCalls == n <= limits.maxModelCalls && c.toolCalls <= limits.maxToolCalls
    && if !c.inTurn then
         && c.messages == Conversation(prompt, turns, o.deliveries)
         && c.toolCalls == CallCount(turns) && c.toolExecutions == Executions(turns, o.deliveries)
       else
         && n > 0 && turns[n - 1].Some? && c.pending == turns[n - 1].value.calls && c.cursor <= |c.pending|
         && var turn := turns[n - 1].value;
            && c.messages == Conversation(prompt, turns[..n - 1], o.deliveries)
                 + [Assistant(turn.content, turn.calls)] + ToolReplies(turn, n, c.cursor, o.deliveries)
            && c.toolCalls == CallCount(turns[..n - 1]) + c.cursor
            && c.toolExecutions == Executions(turns[..n - 1], o.deliveries) + ExecutedCalls(n, c.cursor, o.deliveries)
  }

  lemma TranscriptGrows(turns: seq<Option<ModelTurn>>, turn: Option<ModelTurn>, prompt: seq<Message>, o: Oracle)
    requires Transcript(turns, prompt, o)
    requires if |turns| + 1 in o.lost then turn.None?
      else turn.Some? && !Ends(turn.value) && o.client(Conversation(prompt, turns, o.deliveries), |turns| + 1) == Answered(turn.value)
    ensures Transcript(turns + [turn], prompt, o)
  {
    hide Conversation;
    var more := turns + [turn];
    forall i | 0 <= i < |more|
      ensures if i + 1 in o.lost then more[i].None?
        else
          && more[i].Some? && !more[i].value.truncated && more[i].value.calls != []
          && o.client(Conversation(prompt, more[..i], o.deliveries), i + 1) == Answered(more[i].value)
    {
      if i < |turns| { assert more[i] == turns[i] && more[..i] == turns[..i]; } else { assert more[..i] == turns; }
    }
  }

  lemma Asks(c: Control, turns: seq<Option<ModelTurn>>, prompt: seq<Message>, o: Oracle, limits: Limits, turn: Option<ModelTurn>)
    requires Stands(c, turns, prompt, o, limits) && !c.inTurn && c.modelCalls < limits.maxModelCalls
    requires if c.modelCalls + 1 in o.lost then turn.None?
      else turn.Some? && !Ends(turn.value) && o.client(c.messages, c.modelCalls + 1) == Answered(turn.value)
    ensures var c' := c.(modelCalls := c.modelCalls + 1);
      Stands(if turn.None? then c' else Took(c', turn.value), turns + [turn], prompt, o, limits)
  {
    hide Transcript;
    var more := turns + [turn];
    assert more[..|turns|] == turns;
    TranscriptGrows(turns, turn, prompt, o);
    if turn.Some? {
      assert ToolReplies(turn.value, |more|, 0, o.deliveries) == [];
      assert Took(c, turn.value).messages == c.messages + [Assistant(turn.value.content, turn.value.calls)] + [];
    }
  }

  lemma CallReplied(c: Control, turns: seq<Option<ModelTurn>>, prompt: seq<Message>, o: Oracle, limits: Limits)
    requires Stands(c, turns, prompt, o, limits) && c.inTurn && c.cursor < |c.pending| && c.toolCalls < limits.maxToolCalls
    ensures Stands(Returned(c, Deliver(o.deliveries, TurnCall(c.modelCalls, c.cursor + 1))), turns, prompt, o, limits)
  {
    var n, k := |turns|, c.cursor;
    var turn := turns[n - 1].value;
    assert ToolReplies(turn, n, k + 1, o.deliveries)
      == ToolReplies(turn, n, k, o.deliveries) + [Tool(TurnCall(n, k + 1), turn.calls[k].name, Deliver(o.deliveries, TurnCall(n, k + 1)).content)];
  }

  lemma TurnDone(c: Control, turns: seq<Option<ModelTurn>>, prompt: seq<Message>, o: Oracle, limits: Limits)
    requires Stands(c, turns, prompt, o, limits) && c.inTurn && c.cursor == |c.pending|
    ensures Stands(c.(inTurn := false, pending := [], cursor := 0), turns, prompt, o, limits)
  {
  }

  /** Where the loop stops, the result is accounted for. */
  lemma StopsHere(c: Control, turns: seq<Option<ModelTurn>>, prompt: seq<Message>, o: Oracle, limits: Limits)
    requires Stands(c, turns, prompt, o, limits)
    ensures !c.inTurn && c.modelCalls >= limits.maxModelCalls ==>
      Account(c.Stop(ModelLimit, None, Some(ModelBudget)), turns, prompt, o, limits)
    ensures c.inTurn && c.cursor < |c.pending| && c.toolCalls >= limits.maxToolCalls ==>
      Account(c.Stop(ToolLimit, None, Some(ToolBudget)), turns, prompt, o, limits)
  {
    hide Conversation, ToolReplies, Transcript, ExecutedCalls;
  }

  /** So is one that the last reply decides. */
  lemma StopsThere(c: Control, turns: seq<Option<ModelTurn>>, prompt: seq<Message>, o: Oracle, limits: Limits)
    requires Stands(c, turns, prompt, o, limits) && !c.inTurn && c.modelCalls < limits.maxModelCalls && c.modelCalls + 1 !in o.lost
    ensures var c' := c.(modelCalls := c.modelCalls + 1);
      match o.client(c.messages, c'.modelCalls)
      case ProviderError(e) => Account(c'.Stop(ProviderFailed, None, Some(Provider(e))), turns, prompt, o, limits)
      case Answered(turn) => Ends(turn) ==> Account(EndOf(c', turn), turns, prompt, o, limits)
  {
    hide Conversation, ToolReplies, Transcript, ExecutedCalls;
  }

  lemma {:induction false} OutcomeStands(c: Control, turns: seq<Option<ModelTurn>>, prompt: seq<Message>, o: Oracle, limits: Limits)
    returns (all: seq<Option<ModelTurn>>)
    requires Stands(c, turns, prompt, o, limits)
    ensures Account(Outcome(c, o, limits), all, prompt, o, limits)
    decreases limits.maxModelCalls - c.modelCalls, c.Left()
  {
    hide Conversation, ToolReplies, Transcript, ExecutedCalls, Account, EndOf;
    all := turns;
    StopsHere(c, turns, prompt, o, limits);
    if !c.inTurn {
      if c.modelCalls < limits.maxModelCalls {
        var c' := c.(modelCalls := c.modelCalls + 1);
        if c'.modelCalls in o.lost {
          Asks(c, turns, prompt, o, limits, None);
          all := OutcomeStands(c', turns + [None], prompt, o, limits);
        } else {
          StopsThere(c, turns, prompt, o, limits);
          var reply := o.client(c.messages, c'.modelCalls);
          if reply.Answered? && !Ends(reply.turn) {
            Asks(c, turns, prompt, o, limits, Some(reply.turn));
            all := OutcomeStands(Took(c', reply.turn), turns + [Some(reply.turn)], prompt, o, limits);
          }
        }
      }
    } else if c.cursor >= |c.pending| {
      TurnDone(c, turns, prompt, o, limits);
      all := OutcomeStands(c.(inTurn := false, pending := [], cursor := 0), turns, prompt, o, limits);
    } else if c.toolCalls < limits.maxToolCalls {
      CallReplied(c, turns, prompt, o, limits);
      all := OutcomeStands(Returned(c, Deliver(o.deliveries, TurnCall(c.modelCalls, c.cursor + 1))), turns, prompt, o, limits);
    }
  }

  lemma {:induction false} SameTurns(
    a: seq<Option<ModelTurn>>, b: seq<Option<ModelTurn>>, prompt: seq<Message>, o: Oracle, n: nat)
    requires Transcript(a, prompt, o) && Transcript(b, prompt, o) && n <= |a| && n <= |b|
    ensures a[..n] == b[..n]
  {
    if n > 0 {
      SameTurns(a, b, prompt, o, n - 1);
      assert a[n - 1] == b[n - 1];
      assert a[..n] == a[..n - 1] + [a[n - 1]] && b[..n] == b[..n - 1] + [b[n - 1]];
    }
  }

  lemma {:induction false} CallCountGrows(turns: seq<Option<ModelTurn>>, n: nat)
    requires n <= |turns|
    ensures CallCount(turns[..n]) <= CallCount(turns)
  {
    if n < |turns| {
      CallCountGrows(turns[..|turns| - 1], n);
      assert turns[..|turns| - 1][..n] == turns[..n];
    } else {
      assert turns[..n] == turns;
    }
  }

  lemma Longer(turns: seq<Option<ModelTurn>>, more: seq<Option<ModelTurn>>, prompt: seq<Message>, o: Oracle)
    requires Transcript(turns, prompt, o) && Transcript(more, prompt, o) && |turns| < |more|
    ensures CallCount(turns) <= CallCount(more[..|more| - 1])
    ensures |turns| + 1 !in o.lost ==>
      && more[|turns|].Some? && !Ends(more[|turns|].value)
      && o.client(Conversation(prompt, turns, o.deliveries), |turns| + 1) == Answered(more[|turns|].value)
  {
    var n := |turns|;
    SameTurns(turns, more, prompt, o, n);
    assert turns == turns[..n] && more[..n] == turns && more[..|more| - 1][..n] == turns;
    CallCountGrows(more[..|more| - 1], n);
  }

  /** A run that has come to its end has nothing more to say. */
  lemma NothingFollows(
    r: RunResult, turns: seq<Option<ModelTurn>>, r': RunResult, turns': seq<Option<ModelTurn>>, prompt: seq<Message>, o: Oracle, limits: Limits)
    requires Account(r, turns, prompt, o, limits) && Account(r', turns', prompt, o, limits)
    ensures |turns'| <= |turns|
  {
    hide Transcript, Conversation;
    if |turns| < |turns'| { Longer(turns, turns', prompt, o); }
  }

  /** The account leaves nothing open: each status is given exactly under its own condition. */
  lemma AccountDecides(
    r: RunResult, turns: seq<Option<ModelTurn>>, r': RunResult, turns': seq<Option<ModelTurn>>, prompt: seq<Message>, o: Oracle, limits: Limits)
    requires Account(r, turns, prompt, o, limits) && Account(r', turns', prompt, o, limits)
    ensures r == r' && turns == turns'
  {
    NothingFollows(r, turns, r', turns', prompt, o, limits);
    NothingFollows(r', turns', r, turns, prompt, o, limits);
    SameTurns(turns, turns', prompt, o, |turns|);
    assert turns == turns[..|turns|] && turns' == turns'[..|turns|];
  }

  /** The outcome is the one result that some transcript accounts for. */
  lemma OutcomeIs(prompt: seq<Message>, o: Oracle, limits: Limits)
    ensures forall r :: HasTranscript(r, prompt, o, limits) <==> r == Outcome(Start(prompt), o, limits)
  {
    hide Account;
    var all := OutcomeAccounted(prompt, o, limits);
    forall r | HasTranscript(r, prompt, o, limits) ensures r == Outcome(Start(prompt), o, limits) {
      var turns :| Account(r, turns, prompt, o, limits);
      AccountDecides(r, turns, Outcome(Start(prompt), o, limits), all, prompt, o, limits);
    }
  }

  lemma OutcomeAccounted(prompt: seq<Message>, o: Oracle, limits: Limits) returns (turns: seq<Option<ModelTurn>>)
    ensures Account(Outcome(Start(prompt), o, limits), turns, prompt, o, limits)
  {
    turns := OutcomeStands(Start(prompt), [], prompt, o, limits);
  }

  /** `run_agent`, with any model and any tool executor; None stands for the refusal of a blank request. */
  method RunAgent(system: Content, request: string, client: Client, deliveries: map<CallId, ToolDelivery>, limits: Limits)
    returns (r: Option<RunResult>)
    ensures r == if Blank(request) then None
      else Some(Outcome(Start([System(system), User(Plain(request))]), Oracle(client, {}, deliveries), limits))
    ensures r.Some? ==> HasTranscript(r.value, [System(system), User(Plain(request))], Oracle(client, {}, deliveries), limits)
  {
    hide HasTranscript;
    if Blank(request) { return None; }
    var messages := [System(system), User(Plain(request))];
    var modelCalls, toolCalls, toolExecutions := 0, 0, 0;
    ghost var o := Oracle(client, {}, deliveries);
    ghost var goal := Outcome(Start(messages), o, limits);
    OutcomeIs(messages, o, limits);
    while modelCalls < limits.maxModelCalls
      invariant Outcome(Control(messages, modelCalls, toolCalls, toolExecutions, false, [], 0), o, limits) == goal
    {
      var reply := client(messages, modelCalls + 1);
      modelCalls := modelCalls + 1;
      if reply.ProviderError? {
        return Some(RunResult(ProviderFailed, None, modelCalls, toolCalls, toolExecutions, Some(Provider(reply.error))));
      }
      var turn := reply.turn;
      if turn.truncated {
        return Some(RunResult(ProtocolError, if turn.calls == [] then Some(turn.content) else None,
                              modelCalls, toolCalls, toolExecutions, Some(OutputLimit)));
      }
      messages := messages + [Assistant(turn.content, turn.calls)];
      if turn.calls == [] {
        if turn.content.Empty() {
          return Some(RunResult(ProtocolError, Some(turn.content), modelCalls, toolCalls, toolExecutions, Some(EmptyResponse)));
        }
        return Some(RunResult(Finished, Some(turn.content), modelCalls, toolCalls, toolExecutions, None));
      }
      var index := 0;
      while index < |turn.calls|
        invariant index <= |turn.calls|
        invariant Outcome(Control(messages, modelCalls, toolCalls, toolExecutions, true, turn.calls, index), o, limits) == goal
      {
        var callId := TurnCall(modelCalls, index + 1);
        if toolCalls >= limits.maxToolCalls {
          return Some(RunResult(ToolLimit, None, modelCalls, toolCalls, toolExecutions, Some(ToolBudget)));
        }
        toolCalls := toolCalls + 1;
        var delivery := Deliver(deliveries, callId);
        toolExecutions := toolExecutions + (if delivery.executed then 1 else 0);
        messages := messages + [Tool(callId, turn.calls[index].name, delivery.content)];
        index := index + 1;
      }
    }
    return Some(RunResult(ModelLimit, None, modelCalls, toolCalls, toolExecutions, Some(ModelBudget)));
  }
}
