/** Re-applying a half-finished approval scenario gives the store that applying it once would have given. */
module ScenarioReplay {
  import opened Wrappers
  import opened Records
  import opened Permissions
  import opened Evaluation
  import opened ContextEvaluation
  import opened OperationNames
  import opened Boundaries
  import opened BoundaryInvariant

  // ---- Stores up to times -------------------------------------------------------------

  function Undated(p: Proposal): Proposal {
    p.(grantedAt := if p.grantedAt.Some? then Some(0.0) else None, expiresAt := if p.expiresAt.Some? then Some(0.0) else None)
  }

  /** The same store, but for when its grants were given and end. */
  predicate SameUpToTimes(a: Authority, b: Authority) {
    && a.(proposals := b.proposals) == b && a.proposals.Keys == b.proposals.Keys
    && forall op | op in a.proposals :: Undated(a.proposals[op]) == Undated(b.proposals[op])
  }

  function Grant(p: Proposal): Proposal { p.(decision := Approved, grantedAt := Some(0.0), expiresAt := Some(0.0)) }

  function Deny(p: Proposal): Proposal { p.(decision := Rejected, grantedAt := None, expiresAt := None) }

  function Put(t: Authority, op: string, p: Proposal): Authority { t.(proposals := t.proposals[op := p]) }

  /** What a scenario is for, as one step: which proposal ends up decided, how, and under which revision. */
  function Intended(s: BoundaryState, t: Authority, op: string): Authority
    requires op in t.proposals
  {
    var p := t.proposals[op];
    match s.config.scenario
    case ManualApproval => t
    case MissingGrant => t
    case CrossOperation =>
      var other := if Other(op) in t.proposals then t.proposals[Other(op)]
                   else Proposal(t.runId, p.title, t.requestRevision, t.policyRevision, Pending, None, None, None);
      Put(t, Other(op), if other.decision.Pending? then Grant(other) else other)
    case ChangedRevision =>
      Put(if t.policyRevision == p.policyRevision then Revised(t) else t, op, if p.decision.Pending? then Grant(p) else p)
    case RejectedGrant => Put(t, op, if p.decision.Pending? then Deny(p) else p)
    case ContextCase(staleApproval) =>
      if !p.decision.Pending? || s.context.None? || t.policy.None? then t
      else if staleApproval && p.title == s.context.value.cachedTitle then
        Put(t, op, Grant(p.(requestRevision := 1, policyRevision := 1)))
      else
        var eligible := t.policy.value && p.title == t.expectedTitle && !Existing(t.tasks, t.expectedTitle);
        Put(t, op, if eligible then Grant(p) else Deny(p))
    case _ => Put(t, op, if p.decision.Pending? then Grant(p) else p)
  }

  /** The facts of the runner's invariant that keep every transaction of a scenario from being refused. */
  predicate Ready(w: World, op: string) {
    && !w.raised && op in w.authority.proposals && w.state.Consistent() && op !in w.state.configured
    && w.authority.proposals[op].runId == w.authority.runId
    && !Blank(Other(op)) && !Blank(w.authority.proposals[op].title)
    && (Other(op) in w.authority.proposals ==>
         w.authority.proposals[Other(op)].runId == w.authority.runId
         && w.authority.proposals[Other(op)].title == w.authority.proposals[op].title)
    && (w.authority.policy.Some? <==> w.state.context.Some?)
    && (w.state.context.Some? <==> w.state.config.scenario.ContextCase?)
  }

  // ---- One attempt ---------------------------------------------------------------------

  /** However far an attempt got, it intends what was intended before it; if it got to the end, it is there. */
  predicate Pursues(s: BoundaryState, t: Authority, t': Authority, op: string, done: bool)
    requires op in t.proposals
  {
    && op in t'.proposals
    && SameUpToTimes(Intended(s, t', op), Intended(s, t, op))
    && (done ==> SameUpToTimes(t', Intended(s, t, op)))
  }

  function Dated(p: Proposal, approve: bool, now: real, ttl: real): Proposal {
    if approve then p.(decision := Approved, grantedAt := Some(now), expiresAt := Some(now + ttl))
    else p.(decision := Rejected, grantedAt := None, expiresAt := None)
  }

  lemma DecideStep(t: Authority, op: string, approve: bool, ttl: real, now: real)
    requires op in t.proposals && t.proposals[op].decision.Pending? && t.proposals[op].runId == t.runId && 0.0 < ttl <= 3600.0
    ensures !Refused(t, Decide(op, approve, ttl, now))
    ensures Apply(t, Decide(op, approve, ttl, now)) == t.(proposals := t.proposals[op := Dated(t.proposals[op], approve, now, ttl)])
  {
  }

  /** The scenario's own decision, at some time, if the process lived to make it and it was not made before. */
  lemma DecidedWorld(w: World, op: string, env: Env)
    requires Ready(w, op)
    ensures var w' := ScenarioDecided(w, op, env);
      && !w'.raised
      && w'.authority == if w.fuel == 0 || Waits(w.state.config.scenario) || !w.authority.proposals[op].decision.Pending? then w.authority
         else w.authority.(proposals := w.authority.proposals[op :=
           Dated(w.authority.proposals[op], !w.state.config.scenario.RejectedGrant?, env.clock(w.drawn), ScenarioTtl(w.state.config.scenario))])
  {
    hide Apply, Refused, Existing, Blank, Other, BoundaryState.Consistent, Dated;
    if !Waits(w.state.config.scenario) && w.authority.proposals[op].decision.Pending? {
      DecideStep(w.authority, op, !w.state.config.scenario.RejectedGrant?, ScenarioTtl(w.state.config.scenario), env.clock(w.drawn));
    }
  }

  lemma DecisionShape(s: BoundaryState, t: Authority, op: string, p: Proposal, done: bool)
    requires op in t.proposals && !s.config.scenario.ContextCase? && !s.config.scenario.CrossOperation? && !s.config.scenario.ChangedRevision?
    requires
      || p == t.proposals[op]
      || (&& t.proposals[op].decision.Pending? && !Waits(s.config.scenario)
          && Undated(p) == Undated(if s.config.scenario.RejectedGrant? then Deny(t.proposals[op]) else Grant(t.proposals[op])))
    requires done && !Waits(s.config.scenario) ==> !p.decision.Pending?
    ensures Pursues(s, t, t.(proposals := t.proposals[op := p]), op, done)
  {
    hide Other, Existing, BoundaryState.Consistent, SameUpToTimes;
    if Waits(s.config.scenario) {
      SamePut(t, op, t.proposals[op], t.proposals[op]);
      assert t.proposals == t.proposals[op := t.proposals[op]];
    } else {
      var q, q' := AsDecided(s, t.proposals[op]), AsDecided(s, p);
      assert t.proposals[op := p][op := q'] == t.proposals[op := q'];
      SamePut(t, op, q, q');
      SamePut(t, op, q, p);
    }
  }

  /** The decision a scenario takes, unless one was taken before. */
  function AsDecided(s: BoundaryState, p: Proposal): Proposal {
    if !p.decision.Pending? then p else if s.config.scenario.RejectedGrant? then Deny(p) else Grant(p)
  }

  lemma DecisionPursues(w: World, op: string, env: Env)
    requires Ready(w, op) && !w.state.config.scenario.ContextCase? && !w.state.config.scenario.CrossOperation?
    requires !w.state.config.scenario.ChangedRevision?
    ensures Pursues(w.state, w.authority, ScenarioTransacted(w, op, env).authority, op, ScenarioTransacted(w, op, env).fuel > 0)
  {
    hide Pursues, Apply, Refused, Blank, Other, BoundaryState.Consistent, ScenarioDecided;
    var t, w' := w.authority, ScenarioTransacted(w, op, env);
    DecidedWorld(w, op, env);
    DecisionShape(w.state, t, op, w'.authority.proposals[op], w'.fuel > 0);
    assert w'.authority == t.(proposals := t.proposals[op := w'.authority.proposals[op]]) by {
      assert t.proposals == t.proposals[op := t.proposals[op]];
    }
  }

  /** `p` is the proposal as decided so far; `moved` says that the revision was changed. */
  lemma RevisionShape(s: BoundaryState, t: Authority, op: string, p: Proposal, moved: bool, done: bool)
    requires s.config.scenario.ChangedRevision? && op in t.proposals
    requires p == t.proposals[op] || (t.proposals[op].decision.Pending? && Undated(p) == Undated(Grant(t.proposals[op])))
    requires moved ==> t.policyRevision == t.proposals[op].policyRevision
    requires done ==> !p.decision.Pending? && (t.policyRevision == t.proposals[op].policyRevision ==> moved)
    ensures Pursues(s, t, (if moved then Revised(t) else t).(proposals := t.proposals[op := p]), op, done)
  {
    hide Other, Existing, BoundaryState.Consistent, SameUpToTimes;
    var t' := (if moved then Revised(t) else t).(proposals := t.proposals[op := p]);
    var target := (if moved || t.policyRevision == t.proposals[op].policyRevision then Revised(t) else t);
    var q := if t.proposals[op].decision.Pending? then Grant(t.proposals[op]) else t.proposals[op];
    assert Intended(s, t, op) == target.(proposals := t.proposals[op := q]);
    var q' := if p.decision.Pending? then Grant(p) else p;
    assert t'.proposals[op := q'] == t.proposals[op := q'];
    assert Intended(s, t', op) == (if t'.policyRevision == p.policyRevision then Revised(t') else t').(proposals := t.proposals[op := q']);
    SamePut(target, op, q, q');
    SamePut(target, op, q, p);
  }

  lemma SamePut(t: Authority, op: string, p: Proposal, q: Proposal)
    ensures Undated(p) == Undated(q) ==>
      SameUpToTimes(t.(proposals := t.proposals[op := q]), t.(proposals := t.proposals[op := p]))
  {
  }

  lemma RevisionPursues(w: World, op: string, env: Env)
    requires Ready(w, op) && w.state.config.scenario.ChangedRevision?
    ensures Pursues(w.state, w.authority, ScenarioTransacted(w, op, env).authority, op, ScenarioTransacted(w, op, env).fuel > 0)
  {
    hide Pursues, Apply, Refused, Blank, Other, BoundaryState.Consistent, ScenarioDecided;
    var t := w.authority;
    DecidedWorld(w, op, env);
    var w1, w2 := ScenarioDecided(w, op, env), ScenarioTransacted(w, op, env);
    RevisionStep(w1.authority);
    var moved := w2.authority.policyRevision != t.policyRevision;
    RevisionShape(w.state, t, op, w1.authority.proposals[op], moved, w2.fuel > 0);
    assert w1.authority == t.(proposals := t.proposals[op := w1.authority.proposals[op]]) by {
      assert t.proposals == t.proposals[op := t.proposals[op]];
    }
  }

  lemma RevisionStep(t: Authority)
    ensures Apply(t, ChangeRevision) == Revised(t) && !Refused(t, ChangeRevision)
  {
  }

  lemma ProposeStep(t: Authority, op: string, title: string)
    requires !Blank(op) && !Blank(title)
    requires op in t.proposals ==> t.proposals[op].runId == t.runId && t.proposals[op].title == title
    ensures !Refused(t, Propose(op, title))
    ensures Apply(t, Propose(op, title)) ==
      if op in t.proposals then t
      else t.(proposals := t.proposals[op := Proposal(t.runId, title, t.requestRevision, t.policyRevision, Pending, None, None, None)])
  {
  }

  lemma OtherShape(s: BoundaryState, t: Authority, op: string, q: Proposal, done: bool)
    requires s.config.scenario.CrossOperation? && op in t.proposals
    requires var p := t.proposals[op];
      var first := if Other(op) in t.proposals then t.proposals[Other(op)]
                   else Proposal(t.runId, p.title, t.requestRevision, t.policyRevision, Pending, None, None, None);
      && (q == first || (first.decision.Pending? && Undated(q) == Undated(Grant(first))))
      && (done ==> !q.decision.Pending?)
    ensures Pursues(s, t, t.(proposals := t.proposals[Other(op) := q]), op, done)
  {
    hide Other;
    OtherDiffers(op);
  }

  lemma OtherPursues(w: World, op: string, env: Env)
    requires Ready(w, op) && w.state.config.scenario.CrossOperation?
    ensures var w' := OtherApproved(w, op, w.authority.proposals[op].title, env);
      Pursues(w.state, w.authority, w'.authority, op, w'.fuel > 0)
  {
    hide Pursues, Apply, Refused, Blank, Other, BoundaryState.Consistent;
    var t, other := w.authority, Other(op);
    if w.fuel == 0 {
      Undisturbed(w.state, t, op);
    } else {
      ProposeStep(t, other, t.proposals[op].title);
      var w1 := Transacted(w, Propose(other, t.proposals[op].title));
      assert t.proposals == if other in t.proposals then t.proposals[other := t.proposals[other]] else t.proposals;
      if w1.Live() && w1.authority.proposals[other].decision.Pending? {
        DecideStep(w1.authority, other, true, 300.0, env.clock(w1.drawn));
        OtherShape(w.state, t, op, Dated(w1.authority.proposals[other], true, env.clock(w1.drawn), 300.0), true);
        assert t.proposals[other := w1.authority.proposals[other]][other := Dated(w1.authority.proposals[other],
          true, env.clock(w1.drawn), 300.0)]
          == t.proposals[other := Dated(w1.authority.proposals[other], true, env.clock(w1.drawn), 300.0)];
        PursuesWeaker(w.state, t, OtherApproved(w, op, t.proposals[op].title, env).authority, op, OtherApproved(w,
          op, t.proposals[op].title, env).fuel > 0);
      } else {
        OtherShape(w.state, t, op, w1.authority.proposals[other], w1.fuel > 0);
      }
    }
  }

  lemma PursuesWeaker(s: BoundaryState, t: Authority, t': Authority, op: string, done: bool)
    requires op in t.proposals && Pursues(s, t, t', op, true)
    ensures Pursues(s, t, t', op, done)
  {
  }

  lemma Undisturbed(s: BoundaryState, t: Authority, op: string)
    requires op in t.proposals
    ensures Pursues(s, t, t, op, false)
  {
    hide Intended;
  }

  lemma CrossOperationPursues(w: World, op: string, env: Env)
    requires Ready(w, op) && w.state.config.scenario.CrossOperation?
    ensures Pursues(w.state, w.authority, ScenarioTransacted(w, op, env).authority, op, ScenarioTransacted(w, op, env).fuel > 0)
  {
    hide OtherApproved, Pursues, Blank, BoundaryState.Consistent;
    OtherPursues(w, op, env);
  }

  lemma GrantStep(t: Authority, op: string, stale: bool, now: real, done: nat)
    requires op in t.proposals && t.proposals[op].decision.Pending? && t.proposals[op].runId == t.runId && t.policy.Some? && done > 0
    ensures var p := t.proposals[op];
      var early := p.(requestRevision := 1, policyRevision := 1);
      Apply(t, ScenarioGrant(op, stale, now, done)) == t.(proposals := t.proposals[op :=
        if stale then if done == 1 then early else Dated(early, true, now, 300.0)
        else Dated(p, t.policy.value && p.title == t.expectedTitle && !Existing(t.tasks, t.expectedTitle), now, 300.0)])
  {
    hide Existing;
  }

  lemma GrantShape(s: BoundaryState, t: Authority, op: string, now: real, done: nat)
    requires s.config.scenario.ContextCase? && s.context.Some? && t.policy.Some? && op in t.proposals
    requires t.proposals[op].decision.Pending? && t.proposals[op].runId == t.runId && done > 0
    ensures Pursues(s, t, Apply(t, ScenarioGrant(op, Stale(s, t, op), now, done)), op, done > 1 || !Stale(s, t, op))
  {
    hide Apply, Other, Existing, BoundaryState.Consistent, SameUpToTimes;
    var p, t' := t.proposals[op], Apply(t, ScenarioGrant(op, Stale(s, t, op), now, done));
    GrantStep(t, op, Stale(s, t, op), now, done);
    var target := Intended(s, t, op).proposals[op];
    var q := t'.proposals[op];
    var q' := if q.decision.Pending? then target else q;
    assert t'.proposals[op := q'] == t.proposals[op := q'];
    assert t'.proposals == t.proposals[op := q] == t'.proposals[op := q];
    SamePut(t, op, target, q);
    SamePut(t, op, target, q');
  }

  lemma GrantPursues(w: World, op: string, env: Env)
    requires Ready(w, op) && w.state.config.scenario.ContextCase?
    ensures Pursues(w.state, w.authority, ScenarioTransacted(w, op, env).authority, op, ScenarioTransacted(w, op, env).fuel > 0)
  {
    hide Pursues, Apply, Refused, Blank, Other, BoundaryState.Consistent, Stale;
    var s, t, w' := w.state, w.authority, ScenarioTransacted(w, op, env);
    var stale := Stale(s, t, op);
    GrantRefusals(t, op, stale, env.clock(w.drawn), w.fuel);
    if w.fuel > 0 && t.proposals[op].decision.Pending? {
      GrantShape(s, t, op, env.clock(w.drawn), w.fuel);
      if !(w.fuel > 1 || !stale) { assert w'.fuel == 0; }
      if w'.fuel == 0 { PursuesLess(s, t, w'.authority, op, w.fuel > 1 || !stale); }
    } else {
      if w.fuel == 0 { Undisturbed(s, t, op); } else { AlreadyDecided(s, t, op); }
    }
  }

  lemma PursuesLess(s: BoundaryState, t: Authority, t': Authority, op: string, done: bool)
    requires op in t.proposals && Pursues(s, t, t', op, done)
    ensures Pursues(s, t, t', op, false)
  {
  }

  lemma AlreadyDecided(s: BoundaryState, t: Authority, op: string)
    requires op in t.proposals && !t.proposals[op].decision.Pending? && s.config.scenario.ContextCase?
    ensures Pursues(s, t, t, op, true)
  {
  }

  lemma GrantRefusals(t: Authority, op: string, stale: bool, now: real, done: nat)
    requires op in t.proposals && t.proposals[op].runId == t.runId && t.policy.Some?
    ensures !Refused(t, ScenarioGrant(op, stale, now, done))
    ensures done == 0 || !t.proposals[op].decision.Pending? ==> Apply(t, ScenarioGrant(op, stale, now, done)) == t
  {
    hide Existing;
  }

  lemma TransactedPursues(w: World, op: string, env: Env)
    requires Ready(w, op)
    ensures Pursues(w.state, w.authority, ScenarioTransacted(w, op, env).authority, op, ScenarioTransacted(w, op, env).fuel > 0)
  {
    hide Pursues, ScenarioTransacted, BoundaryState.Consistent;
    if w.state.config.scenario.ContextCase? {
      GrantPursues(w, op, env);
    } else if w.state.config.scenario.CrossOperation? {
      CrossOperationPursues(w, op, env);
    } else if w.state.config.scenario.ChangedRevision? {
      RevisionPursues(w, op, env);
    } else {
      DecisionPursues(w, op, env);
    }
  }

  // ---- Any number of attempts ---------------------------------------------------------------

  /** Attempt after attempt, each surviving the given number of durable steps. */
  function Attempted(w: World, op: string, env: Env, fuels: seq<nat>): World {
    if fuels == [] then w
    else ScenarioConfigured(Attempted(w, op, env, fuels[..|fuels| - 1]).(fuel := fuels[|fuels| - 1]), op, env)
  }

  lemma ReadyNow(w: World, o: Origin, op: string, title: string)
    requires Inv(w, o) && Creating(w.state, op, title) && op in w.authority.proposals && op !in w.state.configured
    ensures Ready(w, op)
  {
    hide Reached, Origin.Valid, Blank, ProposalsHold, EffectsHold, Told, Charged, Named, Withheld, CallsAnswered, OperationId, Other;
    var s, t := w.state, w.authority;
    StoreHolds(w, o);
    ProposalRun(t, op);
    TitleOf(w, o, op, title);
    OperationOf(s, t, o);
    NamesAreNotBlank(s.runId, s.modelCalls, s.cursor);
    if Other(op) in t.proposals { ProposalRun(t, Other(op)); }
  }

  /** Where a scenario stands: not yet recorded and still intending the same, or recorded as intended. */
  predicate Standing(w: World, w': World, op: string)
    requires op in w.authority.proposals
  {
    if op in w'.state.configured then
      && op in w'.authority.proposals && w'.state == w.state.(configured := w.state.configured + [op])
      && w'.events == w.events + [if w.state.context.Some? then ScopedGrant(op, Stale(w.state, w.authority, op)) else ScenarioApplied(op)]
      && SameUpToTimes(w'.authority, Intended(w.state, w.authority, op))
    else
      && w'.state == w.state && w'.events == w.events && op in w'.authority.proposals
      && SameUpToTimes(Intended(w.state, w'.authority, op), Intended(w.state, w.authority, op))
  }

  lemma {:induction false} AttemptsStand(w: World, o: Origin, op: string, title: string, env: Env, fuels: seq<nat>)
    requires Inv(w, o) && Creating(w.state, op, title) && op in w.authority.proposals && op !in w.state.configured
    ensures var w' := Attempted(w, op, env, fuels);
      Inv(w', o) && Standing(w, w', op) && (fuels != [] && w'.fuel > 0 ==> op in w'.state.configured)
  {
    hide Inv, Creating, ScenarioConfigured, Standing, Intended;
    if fuels != [] {
      var k := |fuels| - 1;
      TitleOf(w, o, op, title);
      AttemptsStand(w, o, op, title, env, fuels[..k]);
      var a := Attempted(w, op, env, fuels[..k]);
      AttemptStands(w, a, o, op, title, env, fuels[k]);
    } else {
      assert Standing(w, w, op) by { StandsAtFirst(w, op); }
    }
  }

  lemma StandsAtFirst(w: World, op: string)
    requires op in w.authority.proposals && op !in w.state.configured
    ensures Standing(w, w, op)
  {
    hide Intended;
  }

  lemma AttemptStands(w: World, a: World, o: Origin, op: string, title: string, env: Env, fuel: nat)
    requires Inv(a, o) && Creating(w.state, op, title) && op in w.authority.proposals && op !in w.state.configured
    requires w.authority.proposals[op].title == title && Standing(w, a, op)
    ensures var w' := ScenarioConfigured(a.(fuel := fuel), op, env);
      Inv(w', o) && Standing(w, w', op) && (w'.fuel > 0 ==> op in w'.state.configured)
  {
    hide Inv, Creating, Intended, ScenarioTransacted, ScenarioConfigured, SameUpToTimes, Stale;
    var b := a.(fuel := fuel);
    FuelIsFree(a, o, fuel);
    CreatingStill(w.state, a.state, op, title);
    ScenarioConfiguredKeeps(b, o, op, title, env);
    if b.fuel == 0 || op in b.state.configured {
      assert ScenarioConfigured(b, op, env) == b by { NothingToDo(b, op, env); }
    } else {
      TitleOf(b, o, op, title);
      ReadyNow(b, o, op, title);
      TransactedPursues(b, op, env);
      ScenarioTransactedKeeps(b, o, op, title, env);
      var c := ScenarioTransacted(b, op, env);
      EventsUntouched(b, op, env);
      NotRaised(c, o);
      AttemptMade(b, op, env);
      SameTransitive(Intended(w.state, c.authority, op), Intended(w.state, a.authority, op), Intended(w.state, w.authority, op));
      if c.fuel > 0 { SameTransitive(c.authority, Intended(w.state, a.authority, op), Intended(w.state, w.authority, op)); }
      StaleByTitle(w.state, w.authority, a.authority, op);
    }
  }

  lemma NothingToDo(w: World, op: string, env: Env)
    requires w.fuel == 0 || op in w.state.configured
    ensures ScenarioConfigured(w, op, env) == w
  {
  }

  /** Recording the scenario is one more durable step after its transactions. */
  lemma AttemptMade(w: World, op: string, env: Env)
    requires Ready(w, op) && w.fuel > 0
    requires var c := ScenarioTransacted(w, op, env); !c.raised && c.state == w.state
    ensures var c, w' := ScenarioTransacted(w, op, env), ScenarioConfigured(w, op, env);
      if c.fuel == 0 then w' == c
      else
        && w'.state == w.state.(configured := w.state.configured + [op]) && w'.authority == c.authority
        && w'.events == c.events + [if w.state.context.Some? then ScopedGrant(op, Stale(w.state, w.authority, op)) else ScenarioApplied(op)]
  {
    hide ScenarioTransacted, Stale;
  }

  lemma EventsUntouched(w: World, op: string, env: Env)
    requires op in w.authority.proposals
    ensures ScenarioTransacted(w, op, env).events == w.events
  {
    hide Apply, Refused, BoundaryState.Consistent;
  }

  lemma SameTransitive(a: Authority, b: Authority, c: Authority)
    requires SameUpToTimes(a, b) && SameUpToTimes(b, c)
    ensures SameUpToTimes(a, c)
  {
  }

  lemma StaleByTitle(s: BoundaryState, t: Authority, t': Authority, op: string)
    requires op in t.proposals && op in t'.proposals && t.proposals[op].title == t'.proposals[op].title
    ensures Stale(s, t, op) == Stale(s, t', op)
  {
  }

  /** However often and wherever the scenario of one operation is interrupted, after an attempt that survives more
      than its three durable steps the checkpoint and the log are those of a single uninterrupted attempt, and so is
      the store up to times: no second decision, no second revision, no second event. */
  lemma InterruptedScenarioIsOneScenario(w: World, o: Origin, op: string, title: string, env: Env, fuels: seq<nat>, fuel: nat)
    requires Inv(w, o) && Creating(w.state, op, title) && op in w.authority.proposals && op !in w.state.configured
    requires fuels != [] && fuels[|fuels| - 1] > 3 && fuel > 3
    ensures var many, once := Attempted(w, op, env, fuels), Attempted(w, op, env, [fuel]);
      many.state == once.state && many.events == once.events && SameUpToTimes(many.authority, once.authority)
  {
    hide Inv, Creating, Intended, ScenarioConfigured;
    AttemptsStand(w, o, op, title, env, fuels);
    AttemptsStand(w, o, op, title, env, [fuel]);
  }
}