/** boundaries.py `advance` and langgraph_runtime.py `run_graph`: two drivers of the same steps. */
module LanggraphRuntime {
  import opened Wrappers
  import opened Records
  import opened Permissions
  import opened ContextEvaluation
  import opened OperationNames
  import opened Boundaries
  import opened BoundaryInvariant

  // ---- advance -----------------------------------------------------------------------

  function Route(s: BoundaryState): Node {
    if !s.status.Running? then TerminalNode else if s.cursor < |s.pending| then ToolsNode else ModelNode
  }

  function Stepped(w: World, env: Env): (r: World)
    ensures r.fuel <= w.fuel <= r.fuel + 11
  {
    match Route(w.state)
    case ToolsNode => ToolStepped(w, env)
    case ModelNode => ModelStepped(w, env)
    case TerminalNode => w
  }

  /** No run takes more steps than this before it stops or waits. */
  function Left(s: BoundaryState): int { 13 - s.modelCalls - s.toolCalls + if s.reserved then 1 else 0 }

  lemma StepKeeps(w: World, o: Origin, env: Env)
    requires Inv(w, o) && w.state.status.Running?
    ensures var w' := Stepped(w, env);
      && Inv(w', o) && (w.fuel > 0 ==> w'.fuel < w.fuel) && Left(w.state) >= 1
      && (w'.fuel > 0 && w'.state.status.Running? ==> Left(w'.state) < Left(w.state))
  {
    hide Inv, ToolStepped, ModelStepped;
    AccountedFacts(w, o);
    if w.state.cursor < |w.state.pending| {
      ToolStepKeeps(w, o, env);
      AccountedFacts(ToolStepped(w, env), o);
    } else {
      ModelStepKeeps(w, o, env);
    }
  }

  ghost function Advanced(w: World, o: Origin, env: Env): (r: World)
    requires Inv(w, o)
    ensures Inv(r, o) && (r.fuel == 0 || !r.state.status.Running?)
    decreases w.fuel
  {
    if w.fuel == 0 || !w.state.status.Running? then w
    else
      StepKeeps(w, o, env);
      Advanced(Stepped(w, env), o, env)
  }

  /** The step calls that `advance` makes. */
  ghost function StepCalls(w: World, o: Origin, env: Env): seq<Node>
    requires Inv(w, o)
    decreases w.fuel
  {
    if w.fuel == 0 || !w.state.status.Running? then []
    else
      StepKeeps(w, o, env);
      [Route(w.state)] + StepCalls(Stepped(w, env), o, env)
  }

  predicate Ended(s: BoundaryState) { s.status.Done? || s.status.BlockedByScan? || s.status.Error? }

  /** One session: a new process that survives `fuel` durable steps, unless the run has ended. */
  ghost function Resumed(w: World, o: Origin, fuel: nat, env: Env): (r: World)
    requires Inv(w, o)
    ensures Inv(r, o)
  {
    if Ended(w.state) then w
    else
      var w1 := w.(fuel := fuel);
      FuelIsFree(w, o, fuel);
      RunningKeeps(w1, o);
      Advanced(Saved(w1, RunResumed, w1.state.(status := Running)), o, env)
  }

  /** Session after session, each surviving so many durable steps. */
  ghost function Sessions(w: World, o: Origin, fuels: seq<nat>, env: Env): (r: World)
    requires Inv(w, o)
    ensures Inv(r, o)
  {
    if fuels == [] then w else Resumed(Sessions(w, o, fuels[..|fuels| - 1], env), o, fuels[|fuels| - 1], env)
  }

  // ---- run_graph -----------------------------------------------------------------------

  /** The compiled graph: a node is noted, then run; too many supersteps raise. */
  ghost function Graphed(w: World, o: Origin, env: Env, limit: nat): World
    requires Inv(w, o)
    decreases limit
  {
    if limit == 0 then Raise(w)
    else
      var node := Route(w.state);
      var w1 := Saved(w, RuntimeNode(node), w.state);
      EventKeeps(w, RuntimeNode(node), o);
      if node.TerminalNode? || w1.fuel == 0 then w1
      else
        StepKeeps(w1, o, env);
        Graphed(Stepped(w1, env), o, env, limit - 1)
  }

  // ---- The bounds ------------------------------------------------------------------------

  lemma {:induction false} FewStepCalls(w: World, o: Origin, env: Env)
    requires Inv(w, o)
    ensures w.state.status.Running? ==> |StepCalls(w, o, env)| <= Left(w.state)
    ensures |StepCalls(w, o, env)| <= 13
    decreases w.fuel
  {
    hide Inv, Stepped;
    AccountedFacts(w, o);
    if w.fuel > 0 && w.state.status.Running? {
      StepKeeps(w, o, env);
      FewStepCalls(Stepped(w, env), o, env);
    }
  }

  /** A process that survives eleven durable steps for each step call is not interrupted. */
  lemma {:induction false} AdvanceSurvives(w: World, o: Origin, env: Env)
    requires Inv(w, o) && w.fuel > (if w.state.status.Running? then 11 * Left(w.state) else 0)
    ensures Advanced(w, o, env).fuel > 0
    decreases w.fuel
  {
    hide Inv, Stepped;
    AccountedFacts(w, o);
    if w.state.status.Running? {
      StepKeeps(w, o, env);
      AdvanceSurvives(Stepped(w, env), o, env);
    }
  }

  /** The same for the graph, which notes each node first, and the terminal one. */
  lemma {:induction false} GraphSurvives(w: World, o: Origin, env: Env, limit: nat)
    requires Inv(w, o) && limit > (if w.state.status.Running? then Left(w.state) else 0)
    requires w.fuel > 1 + (if w.state.status.Running? then 12 * Left(w.state) else 0)
    ensures Graphed(w, o, env, limit).fuel > 0
    decreases limit
  {
    hide Inv, Stepped, Saved;
    AccountedFacts(w, o);
    EventKeeps(w, RuntimeNode(Route(w.state)), o);
    if w.state.status.Running? {
      var w1 := Saved(w, RuntimeNode(Route(w.state)), w.state);
      StepKeeps(w1, o, env);
      GraphSurvives(Stepped(w1, env), o, env, limit - 1);
    }
  }

  /** The recursion limit is never reached: a superstep for each step call, and one for the terminal node. */
  lemma {:induction false} LimitIsEnough(w: World, o: Origin, env: Env, limit: nat)
    requires Inv(w, o) && limit > (if w.state.status.Running? then Left(w.state) else 0)
    ensures Inv(Graphed(w, o, env, limit), o)
    decreases limit
  {
    hide Inv, Stepped, Saved;
    AccountedFacts(w, o);
    EventKeeps(w, RuntimeNode(Route(w.state)), o);
    var w1 := Saved(w, RuntimeNode(Route(w.state)), w.state);
    if w.state.status.Running? && w1.fuel > 0 {
      StepKeeps(w1, o, env);
      var w2 := Stepped(w1, env);
      if w2.fuel == 0 {
        DeadGraph(w2, o, env, limit - 1);
      } else {
        LimitIsEnough(w2, o, env, limit - 1);
      }
    }
  }

  lemma {:induction false} DeadGraph(w: World, o: Origin, env: Env, limit: nat)
    requires Inv(w, o) && w.fuel == 0
    ensures Graphed(w, o, env, limit) == w
  {
    hide Inv;
  }
}
