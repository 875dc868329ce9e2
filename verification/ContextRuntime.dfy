/** context_runtime.py: shortening a conversation to its last complete turns. */
module ContextRuntime {
  import opened Wrappers
  import opened Records

  datatype TrimError = KeepTooFew | IncompleteExchange | NoOpeningTurn | MissingReplies | OrphanReply | WrongReply

  /** What the loop has built: the turns so far, and the calls of the last one that still wait for a reply. */
  datatype Scan = Scan(turns: seq<seq<Message>>, pending: seq<ToolName>)

  predicate Reply(m: Message) { m.Tool? || m.OperationReply? }

  function Names(calls: seq<ToolCall>): seq<ToolName> {
    seq(|calls|, i requires 0 <= i < |calls| => calls[i].name)
  }

  function Added(turns: seq<seq<Message>>, m: Message): seq<seq<Message>>
    requires turns != []
  {
    turns[..|turns| - 1] + [turns[|turns| - 1] + [m]]
  }

  /** One turn of the loop. */
  function Step(s: Scan, m: Message): Result<Scan, TrimError> {
    if m.System? then Success(s)
    else if m.User? then
      if s.pending != [] then Failure(IncompleteExchange) else Success(Scan(s.turns + [[m]], []))
    else if s.turns == [] then Failure(NoOpeningTurn)
    else if m.Assistant? then
      if s.pending != [] then Failure(MissingReplies) else Success(Scan(Added(s.turns, m), Names(m.calls)))
    else if s.pending == [] then Failure(OrphanReply)
    else if m.toolName != s.pending[0] then Failure(WrongReply)
    else Success(Scan(Added(s.turns, m), s.pending[1..]))
  }

  function Scanned(s: Scan, messages: seq<Message>): Result<Scan, TrimError>
    decreases |messages|
  {
    if messages == [] then Success(s)
    else match Step(s, messages[0])
      case Failure(e) => Failure(e)
      case Success(s') => Scanned(s', messages[1..])
  }

  /** The turns of a conversation whose tool exchanges are all complete. */
  function Turns(messages: seq<Message>): Result<seq<seq<Message>>, TrimError> {
    match Scanned(Scan([], []), messages)
    case Failure(e) => Failure(e)
    case Success(s) => if s.pending != [] then Failure(IncompleteExchange) else Success(s.turns)
  }

  function Systems(messages: seq<Message>): seq<Message> {
    if messages == [] then [] else (if messages[0].System? then [messages[0]] else []) + Systems(messages[1..])
  }

  function Others(messages: seq<Message>): seq<Message> {
    if messages == [] then [] else (if messages[0].System? then [] else [messages[0]]) + Others(messages[1..])
  }

  function Flatten(turns: seq<seq<Message>>): seq<Message> {
    if turns == [] then [] else turns[0] + Flatten(turns[1..])
  }

  function Last<T>(s: seq<T>, n: nat): seq<T> { if n >= |s| then s else s[|s| - n..] }

  function Trimmed(messages: seq<Message>, keep: int): Result<seq<Message>, TrimError> {
    if keep < 1 then Failure(KeepTooFew)
    else match Turns(messages)
      case Failure(e) => Failure(e)
      case Success(turns) => Success(Systems(messages) + Flatten(Last(turns, keep)))
  }

  /** `trim_complete_turns` */
  method TrimCompleteTurns(messages: seq<Message>, keep: int) returns (r: Result<seq<Message>, TrimError>)
    ensures r == Trimmed(messages, keep)
  {
    if keep < 1 { return Failure(KeepTooFew); }
    var turns: seq<seq<Message>>, pending: seq<ToolName> := [], [];
    assert messages[0..] == messages;
    for i := 0 to |messages|
      invariant Scanned(Scan(turns, pending), messages[i..]) == Scanned(Scan([], []), messages)
    {
      var m := messages[i];
      assert messages[i..][0] == m && messages[i..][1..] == messages[i + 1..];
      if m.System? { continue; }
      ghost var before := turns;
      if m.User? {
        if pending != [] { return Failure(IncompleteExchange); }
        turns := turns + [[]];
      }
      if turns == [] { return Failure(NoOpeningTurn); }
      if m.Assistant? {
        if pending != [] { return Failure(MissingReplies); }
        pending := Names(m.calls);
      } else if Reply(m) {
        if pending == [] { return Failure(OrphanReply); }
        if m.toolName != pending[0] { return Failure(WrongReply); }
        pending := pending[1..];
      }
      turns := turns[|turns| - 1 := turns[|turns| - 1] + [m]];
      if m.User? {
        assert [] + [m] == [m];
        assert turns == before + [[m]];
      } else {
        assert turns == Added(before, m);
      }
    }
    if pending != [] { return Failure(IncompleteExchange); }
    return Success(Systems(messages) + Flatten(Last(turns, keep)));
  }

  // ---- What the turns are ---------------------------------------------------------------

  lemma {:induction false} ScannedConcat(s: Scan, a: seq<Message>, b: seq<Message>)
    ensures Scanned(s, a + b) ==
      match Scanned(s, a)
      case Failure(e) => Failure(e)
      case Success(s') => Scanned(s', b)
    decreases |a|
  {
    if a == [] {
      assert a + b == b;
    } else {
      assert (a + b)[0] == a[0] && (a + b)[1..] == a[1..] + b;
      if Step(s, a[0]).Success? { ScannedConcat(Step(s, a[0]).value, a[1..], b); }
    }
  }

  /** System messages play no part in the scan. */
  lemma {:induction false} ScannedOthers(s: Scan, messages: seq<Message>)
    ensures Scanned(s, messages) == Scanned(s, Others(messages))
    decreases |messages|
  {
    if messages != [] {
      if Step(s, messages[0]).Success? { ScannedOthers(Step(s, messages[0]).value, messages[1..]); }
      if messages[0].System? {
        assert Others(messages) == Others(messages[1..]);
      } else {
        assert Others(messages)[0] == messages[0] && Others(messages)[1..] == Others(messages[1..]);
      }
    }
  }

  lemma {:induction false} FlattenConcat(a: seq<seq<Message>>, b: seq<seq<Message>>)
    ensures Flatten(a + b) == Flatten(a) + Flatten(b)
  {
    if a == [] {
      assert a + b == b;
    } else {
      assert (a + b)[0] == a[0] && (a + b)[1..] == a[1..] + b;
      FlattenConcat(a[1..], b);
    }
  }

  /** A user turn on its own: it opens with its user message and scans to itself. */
  predicate Turn(t: seq<Message>, pending: seq<ToolName>) {
    && t != [] && t[0].User? && (forall i | 1 <= i < |t| :: !t[i].User?) && (forall i | 0 <= i < |t| :: !t[i].System?)
    && Scanned(Scan([], []), t) == Success(Scan([t], pending))
  }

  /** Whole turns, all but the last with every exchange complete. */
  predicate Whole(s: Scan) {
    && (forall i | 0 <= i < |s.turns| - 1 :: Turn(s.turns[i], []))
    && (if s.turns == [] then s.pending == [] else Turn(s.turns[|s.turns| - 1], s.pending))
  }

  lemma OpensTurn(s: Scan, m: Message)
    requires Whole(s) && m.User? && s.pending == []
    ensures Whole(Scan(s.turns + [[m]], [])) && Flatten(s.turns + [[m]]) == Flatten(s.turns) + [m]
  {
    hide Turn, Flatten;
    TurnOpens(m);
    FlattenLast(s.turns, [m]);
  }

  lemma GrowsTurn(s: Scan, m: Message)
    requires Whole(s) && s.turns != [] && !m.System? && !m.User? && Step(s, m).Success?
    ensures Whole(Step(s, m).value) && Flatten(Step(s, m).value.turns) == Flatten(s.turns) + [m]
  {
    hide Turn, Flatten;
    var s', k := Step(s, m).value, |s.turns| - 1;
    var t := s.turns[k];
    assert Added([t], m) == [t + [m]];
    TurnGrows(t, s.pending, m, s'.pending);
    assert s.turns == s.turns[..k] + [t] && s'.turns == s.turns[..k] + [t + [m]];
    FlattenLast(s.turns[..k], t);
    FlattenLast(s.turns[..k], t + [m]);
  }

  lemma StepKeepsWhole(s: Scan, m: Message)
    requires Whole(s) && Step(s, m).Success?
    ensures Whole(Step(s, m).value)
    ensures Flatten(Step(s, m).value.turns) == Flatten(s.turns) + if m.System? then [] else [m]
  {
    hide Turn, Flatten;
    if m.User? { OpensTurn(s, m); } else if !m.System? { GrowsTurn(s, m); }
  }

  lemma FlattenLast(turns: seq<seq<Message>>, t: seq<Message>)
    ensures Flatten(turns + [t]) == Flatten(turns) + t
  {
    FlattenConcat(turns, [t]);
    assert Flatten([t]) == t + Flatten([]);
  }

  lemma TurnOpens(m: Message)
    requires m.User?
    ensures Turn([m], [])
  {
    assert [] + [[m]] == [[m]];
    assert Scanned(Scan([[m]], []), []) == Success(Scan([[m]], []));
    assert Scanned(Scan([], []), [m]) == Scanned(Scan([[m]], []), [m][1..]);
  }

  lemma TurnGrows(t: seq<Message>, pending: seq<ToolName>, m: Message, pending': seq<ToolName>)
    requires Turn(t, pending) && !m.User? && !m.System?
    requires Step(Scan([t], pending), m) == Success(Scan([t + [m]], pending'))
    ensures Turn(t + [m], pending')
  {
    ScannedConcat(Scan([], []), t, [m]);
    assert Scanned(Scan([t], pending), [m]) == Scanned(Scan([t + [m]], pending'), [m][1..]);
  }

  lemma {:induction false} ScanKeepsWhole(s: Scan, messages: seq<Message>)
    requires Whole(s) && Scanned(s, messages).Success?
    ensures Whole(Scanned(s, messages).value)
    ensures Flatten(Scanned(s, messages).value.turns) == Flatten(s.turns) + Others(messages)
    decreases |messages|
  {
    hide Whole;
    if messages != [] {
      StepKeepsWhole(s, messages[0]);
      ScanKeepsWhole(Step(s, messages[0]).value, messages[1..]);
    }
  }

  /** Whole turns put one after the other scan to just these turns. */
  lemma {:induction false} ScanOfTurns(done: seq<seq<Message>>, turns: seq<seq<Message>>)
    requires forall i | 0 <= i < |turns| :: Turn(turns[i], [])
    ensures Scanned(Scan(done, []), Flatten(turns)) == Success(Scan(done + turns, []))
    decreases |turns|
  {
    if turns == [] {
      assert done + turns == done;
    } else {
      ScanBehind(done, turns[0], []);
      ScannedConcat(Scan(done, []), turns[0], Flatten(turns[1..]));
      ScanOfTurns(done + [turns[0]], turns[1..]);
      assert done + [turns[0]] + turns[1..] == done + turns;
    }
  }

  /** A turn scans to itself behind any other turns. */
  lemma ScanBehind(done: seq<seq<Message>>, t: seq<Message>, pending: seq<ToolName>)
    requires Turn(t, pending)
    ensures Scanned(Scan(done, []), t) == Success(Scan(done + [t], pending))
  {
    assert [] + [[t[0]]] == [[t[0]]];
    assert Scanned(Scan([], []), t) == Scanned(Scan([[t[0]]], []), t[1..]);
    ScanInTurn(done, Scan([[t[0]]], []), t[1..]);
    assert done + [[t[0]]] == done + Scan([[t[0]]], []).turns;
  }

  /** Inside a turn the scan never looks at the turns before it. */
  lemma {:induction false} ScanInTurn(done: seq<seq<Message>>, s: Scan, messages: seq<Message>)
    requires s.turns != [] && Scanned(s, messages).Success? && forall i | 0 <= i < |messages| :: !messages[i].User?
    ensures var s' := Scanned(s, messages).value;
      Scanned(Scan(done + s.turns, s.pending), messages) == Success(Scan(done + s'.turns, s'.pending))
    decreases |messages|
  {
    if messages != [] {
      var m := messages[0];
      var s1 := Step(s, m).value;
      assert (done + s.turns)[|done + s.turns| - 1] == s.turns[|s.turns| - 1];
      assert !m.System? ==> Added(done + s.turns, m) == done + Added(s.turns, m);
      assert Step(Scan(done + s.turns, s.pending), m) == Success(Scan(done + s1.turns, s1.pending));
      ScanInTurn(done, s1, messages[1..]);
    }
  }

  // ---- What trimming promises ------------------------------------------------------------

  /** Accepted conversations are their system messages and a list of whole turns. */
  lemma AcceptedTurns(messages: seq<Message>)
    requires Turns(messages).Success?
    ensures Flatten(Turns(messages).value) == Others(messages)
    ensures forall i | 0 <= i < |Turns(messages).value| :: Turn(Turns(messages).value[i], [])
  {
    ScanKeepsWhole(Scan([], []), messages);
  }

  /** The first `pending` messages answer pending calls in order, and complete exchanges follow. */
  predicate Answered(messages: seq<Message>, pending: seq<ToolName>)
    decreases |messages|, 1
  {
    && |messages| >= |pending|
    && (forall i | 0 <= i < |pending| :: Reply(messages[i]) && messages[i].toolName == pending[i])
    && Exchanges(messages[|pending|..])
  }

  /** Every tool request is followed by its replies, in order, and there are no other replies. */
  predicate Exchanges(messages: seq<Message>)
    decreases |messages|, 0
  {
    messages == []
    || (messages[0].User? && Exchanges(messages[1..]))
    || (messages[0].Assistant? && Answered(messages[1..], Names(messages[0].calls)))
  }

  lemma {:induction false} ScanAnswers(s: Scan, messages: seq<Message>)
    requires s.turns != [] && forall i | 0 <= i < |messages| :: !messages[i].System?
    ensures Scanned(s, messages).Success? && Scanned(s, messages).value.pending == [] <==> Answered(messages, s.pending)
    decreases |messages|
  {
    if messages != [] {
      var m, rest := messages[0], messages[1..];
      if s.pending == [] {
        assert messages[|s.pending|..] == messages;
        if Step(s, m).Success? { ScanAnswers(Step(s, m).value, rest); }
        if m.User? { assert rest[|Step(s, m).value.pending|..] == rest; }
      } else if Reply(m) && m.toolName == s.pending[0] {
        ScanAnswers(Step(s, m).value, rest);
        if |messages| >= |s.pending| { assert rest[|s.pending| - 1..] == messages[|s.pending|..]; }
        assert Answered(messages, s.pending) ==> Answered(rest, s.pending[1..]);
        assert Answered(rest, s.pending[1..]) ==> Answered(messages, s.pending) by {
          assert forall i | 1 <= i < |messages| :: messages[i] == rest[i - 1];
        }
      }
    }
  }

  lemma {:induction false} OthersAreNotSystems(messages: seq<Message>)
    ensures forall i | 0 <= i < |Others(messages)| :: !Others(messages)[i].System?
  {
    if messages != [] { OthersAreNotSystems(messages[1..]); }
  }

  /** Exactly the conversations that open with a user message, if with any, and whose tool exchanges are
      complete and in order are accepted. */
  lemma AcceptedWhen(messages: seq<Message>)
    ensures Turns(messages).Success? <==>
      (Others(messages) == [] || Others(messages)[0].User?) && Exchanges(Others(messages))
  {
    var others := Others(messages);
    ScannedOthers(Scan([], []), messages);
    OthersAreNotSystems(messages);
    if others != [] && others[0].User? {
      assert [] + [[others[0]]] == [[others[0]]];
      ScanAnswers(Scan([[others[0]]], []), others[1..]);
      assert others[1..][0..] == others[1..];
    }
  }

  lemma {:induction false} SystemsSplit(a: seq<Message>, b: seq<Message>)
    ensures Systems(a + b) == Systems(a) + Systems(b)
  {
    if a == [] {
      assert a + b == b;
    } else {
      assert (a + b)[0] == a[0] && (a + b)[1..] == a[1..] + b;
      SystemsSplit(a[1..], b);
    }
  }

  lemma {:induction false} OthersSplit(a: seq<Message>, b: seq<Message>)
    ensures Others(a + b) == Others(a) + Others(b)
  {
    if a == [] {
      assert a + b == b;
    } else {
      assert (a + b)[0] == a[0] && (a + b)[1..] == a[1..] + b;
      OthersSplit(a[1..], b);
    }
  }

  lemma Splits(a: seq<Message>, b: seq<Message>)
    ensures Systems(a + b) == Systems(a) + Systems(b) && Others(a + b) == Others(a) + Others(b)
  {
    SystemsSplit(a, b);
    OthersSplit(a, b);
  }

  lemma {:induction false} SystemsOnly(messages: seq<Message>)
    ensures Systems(Systems(messages)) == Systems(messages) && Others(Systems(messages)) == []
  {
    if messages != [] {
      SystemsOnly(messages[1..]);
      Splits(if messages[0].System? then [messages[0]] else [], Systems(messages[1..]));
    }
  }

  lemma {:induction false} NoSystems(messages: seq<Message>)
    requires forall i | 0 <= i < |messages| :: !messages[i].System?
    ensures Systems(messages) == [] && Others(messages) == messages
  {
    if messages != [] { NoSystems(messages[1..]); }
  }

  lemma {:induction false} TurnsHaveNoSystems(turns: seq<seq<Message>>)
    requires forall i | 0 <= i < |turns| :: Turn(turns[i], [])
    ensures forall i | 0 <= i < |Flatten(turns)| :: !Flatten(turns)[i].System?
  {
    if turns != [] {
      TurnsHaveNoSystems(turns[1..]);
      forall i | 0 <= i < |Flatten(turns)| ensures !Flatten(turns)[i].System? {
        if i >= |turns[0]| { assert Flatten(turns)[i] == Flatten(turns[1..])[i - |turns[0]|]; }
      }
    }
  }

  function Users(messages: seq<Message>): nat {
    if messages == [] then 0 else Users(messages[1..]) + if messages[0].User? then 1 else 0
  }

  lemma {:induction false} UsersConcat(a: seq<Message>, b: seq<Message>)
    ensures Users(a + b) == Users(a) + Users(b)
  {
    if a == [] {
      assert a + b == b;
    } else {
      assert (a + b)[0] == a[0] && (a + b)[1..] == a[1..] + b;
      UsersConcat(a[1..], b);
    }
  }

  lemma {:induction false} NoUsers(messages: seq<Message>)
    requires forall i | 0 <= i < |messages| :: !messages[i].User?
    ensures Users(messages) == 0
  {
    if messages != [] { NoUsers(messages[1..]); }
  }

  /** A turn has the one user message that opens it. */
  lemma {:induction false} UsersOfTurns(turns: seq<seq<Message>>)
    requires forall i | 0 <= i < |turns| :: Turn(turns[i], [])
    ensures Users(Flatten(turns)) == |turns|
    ensures turns != [] ==> Flatten(turns) != [] && Flatten(turns)[0].User?
  {
    if turns != [] {
      UsersOfTurns(turns[1..]);
      UsersConcat(turns[0], Flatten(turns[1..]));
      NoUsers(turns[0][1..]);
    }
  }

  predicate IsSuffix(a: seq<Message>, b: seq<Message>) { |a| <= |b| && b[|b| - |a|..] == a }

  /** The output is the system messages and the last whole turns, and is itself accepted, with those turns. */
  lemma TrimKeepsWholeTurns(messages: seq<Message>, keep: int)
    requires Trimmed(messages, keep).Success?
    ensures var out, turns := Trimmed(messages, keep).value, Turns(messages).value;
      && Systems(messages) <= out && Systems(out) == Systems(messages) && Others(out) == Flatten(Last(turns, keep))
      && Turns(out) == Success(Last(turns, keep))
  {
    hide Turn, Scanned;
    var turns := Turns(messages).value;
    var kept := Last(turns, keep);
    var out := Systems(messages) + Flatten(kept);
    AcceptedTurns(messages);
    assert forall i | 0 <= i < |kept| :: Turn(kept[i], []);
    TurnsHaveNoSystems(kept);
    NoSystems(Flatten(kept));
    SystemsOnly(messages);
    Splits(Systems(messages), Flatten(kept));
    ScannedOthers(Scan([], []), out);
    ScanOfTurns([], kept);
    assert [] + kept == kept;
    assert Others(out) == Flatten(kept);
  }

  /** The output begins with all system messages; the rest are the last of the other messages, from the opening of the
      turn with the keep-th last user message, or all of them. */
  lemma TrimKeepsTheEnd(messages: seq<Message>, keep: int)
    requires Trimmed(messages, keep).Success?
    ensures var out, n := Trimmed(messages, keep).value, |Systems(messages)|;
      && n <= |out| && out[..n] == Systems(messages)
      && IsSuffix(out[n..], Others(messages)) && (n < |out| ==> out[n].User?)
      && Users(out) == (if Users(messages) < keep then Users(messages) else keep)
  {
    hide Turn, Scanned;
    var turns := Turns(messages).value;
    var kept := Last(turns, keep);
    AcceptedTurns(messages);
    var dropped := turns[..|turns| - |kept|];
    assert turns == dropped + kept;
    FlattenConcat(dropped, kept);
    assert forall i | 0 <= i < |kept| :: Turn(kept[i], []);
    UsersOfTurns(turns);
    UsersOfTurns(kept);
    UsersOfOthers(messages);
    UsersConcat(Systems(messages), Flatten(kept));
    SystemsAreNoUsers(messages);
  }

  lemma {:induction false} UsersOfOthers(messages: seq<Message>)
    ensures Users(messages) == Users(Others(messages))
  {
    if messages != [] {
      UsersOfOthers(messages[1..]);
      UsersConcat(if messages[0].System? then [] else [messages[0]], Others(messages[1..]));
    }
  }

  lemma {:induction false} SystemsAreNoUsers(messages: seq<Message>)
    ensures Users(Systems(messages)) == 0
  {
    if messages != [] {
      SystemsAreNoUsers(messages[1..]);
      UsersConcat(if messages[0].System? then [messages[0]] else [], Systems(messages[1..]));
    }
  }

  // ---- What is refused ---------------------------------------------------------------------

  /** The tools whose replies are still to come at the end of a conversation. */
  function Waiting(messages: seq<Message>): seq<ToolName> {
    if messages == [] then []
    else
      var m, before := messages[|messages| - 1], messages[..|messages| - 1];
      if m.System? then Waiting(before)
      else if m.User? then []
      else if m.Assistant? then Names(m.calls)
      else if Waiting(before) == [] then [] else Waiting(before)[1..]
  }

  /** What is wrong with the k-th message after those before it: it opens a turn, or answers, while replies are missing;
      no user message opened a turn for it; or it is a reply that nothing, or another tool, waits for. */
  function FaultAt(messages: seq<Message>, k: nat): Option<TrimError>
    requires k < |messages|
  {
    var m, waiting := messages[k], Waiting(messages[..k]);
    if m.System? then None
    else if m.User? then if waiting != [] then Some(IncompleteExchange) else None
    else if forall i | 0 <= i < k :: !messages[i].User? then Some(NoOpeningTurn)
    else if m.Assistant? then if waiting != [] then Some(MissingReplies) else None
    else if waiting == [] then Some(OrphanReply)
    else if m.toolName != waiting[0] then Some(WrongReply)
    else None
  }

  lemma {:induction false} ScannedFaults(messages: seq<Message>, k: nat)
    requires k <= |messages| && forall j | 0 <= j < k :: FaultAt(messages, j).None?
    ensures var r := Scanned(Scan([], []), messages[..k]);
      && r.Success? && r.value.pending == Waiting(messages[..k])
      && (r.value.turns == [] <==> forall i | 0 <= i < k :: !messages[i].User?)
    decreases k
  {
    if k > 0 {
      ScannedFaults(messages, k - 1);
      var before, m := messages[..k - 1], messages[k - 1];
      assert messages[..k] == before + [m];
      ScannedConcat(Scan([], []), before, [m]);
      ScannedOne(Scanned(Scan([], []), before).value, m);
      assert messages[..k][..|messages[..k]| - 1] == before;
      assert FaultAt(messages, k - 1).None?;
      assert (forall i | 0 <= i < k :: !messages[i].User?) <==> (forall i | 0 <= i < k - 1 :: !messages[i].User?) && !m.User?;
    } else {
      assert messages[..k] == [];
    }
  }

  lemma ScannedOne(s: Scan, m: Message)
    ensures Scanned(s, [m]) == Step(s, m)
  {
    assert [m][1..] == [];
  }

  /** A conversation is refused for its first fault, or for replies missing at its end, and accepted without any. */
  lemma FirstFault(messages: seq<Message>)
    ensures forall k | 0 <= k < |messages| && FaultAt(messages, k).Some? && (forall j | 0 <= j < k :: FaultAt(messages, j).None?) ::
      Turns(messages) == Failure(FaultAt(messages, k).value)
    ensures (forall k | 0 <= k < |messages| :: FaultAt(messages, k).None?) ==>
      if Waiting(messages) == [] then Turns(messages).Success? else Turns(messages) == Failure(IncompleteExchange)
  {
    hide FaultAt, Waiting;
    forall k | 0 <= k < |messages| && FaultAt(messages, k).Some? && (forall j | 0 <= j < k :: FaultAt(messages, j).None?)
      ensures Turns(messages) == Failure(FaultAt(messages, k).value)
    {
      FaultRefuses(messages, k);
    }
    if forall k | 0 <= k < |messages| :: FaultAt(messages, k).None? {
      ScannedFaults(messages, |messages|);
      assert messages[..|messages|] == messages;
    }
  }

  lemma FaultRefuses(messages: seq<Message>, k: nat)
    requires k < |messages| && FaultAt(messages, k).Some? && forall j | 0 <= j < k :: FaultAt(messages, j).None?
    ensures Turns(messages) == Failure(FaultAt(messages, k).value)
  {
    ScannedFaults(messages, k);
    var before, m, rest := messages[..k], messages[k], messages[k + 1..];
    assert messages == before + ([m] + rest);
    ScannedConcat(Scan([], []), before, [m] + rest);
    var s := Scanned(Scan([], []), before).value;
    ScannedConcat(s, [m], rest);
    ScannedOne(s, m);
  }

  /** Trimming again is trimming once, to the shorter. */
  lemma TrimTwice(messages: seq<Message>, k: int, j: int)
    requires Trimmed(messages, k).Success? && j >= 1
    ensures Trimmed(Trimmed(messages, k).value, j) == Trimmed(messages, if j < k then j else k)
  {
    TrimKeepsWholeTurns(messages, k);
    var turns := Turns(messages).value;
    assert Last(Last(turns, k), j) == Last(turns, if j < k then j else k);
  }
}
