/** permissions.py: proposals, grants and admitted writes, kept in one database by atomic transactions. */
module Permissions {
  import opened Wrappers
  import opened Records
  import opened Tasks

  /** A `proposals` row; its key is the operation id. */
  datatype Proposal = Proposal(
    runId: string, title: string, requestRevision: int, policyRevision: int,
    decision: Decision, grantedAt: Option<real>, expiresAt: Option<real>, consumed: Option<string>)

  /** A `boundary_effects` row; its key is the operation id. */
  datatype EffectRow = EffectRow(
    runId: string, taskId: string, title: string, admittedAt: real, requestRevision: int, policyRevision: int)

  /** The whole authorization database; `policy` is the optional `request_policy` table. */
  datatype Authority = Authority(
    runId: string, expectedTitle: string, requestRevision: int, policyRevision: int, policy: Option<bool>,
    proposals: map<string, Proposal>, receipts: map<string, Receipt>, effects: map<string, EffectRow>,
    tasks: map<string, string>)

  datatype Refusal =
    | BlankText | UnknownProposal | ImmutableProposal | ForeignOrDecided | BadTtl | ArgumentsChanged | NoRequest | Integrity

  datatype WriteDecision = WriteDecision(task: Option<Task>, authorized: Option<bool>, replayed: bool, reason: Reason)

  // ---- What each transaction does ------------------------------------------

  function FreshAuthority(runId: string, expectedTitle: string): Authority {
    Authority(runId, expectedTitle, 1, 1, None, map[], map[], map[], map[])
  }

  function Proposed(t: Authority, op: string, title: string): (Result<Proposal, Refusal>, Authority) {
    if Blank(op) || Blank(title) then (Failure(BlankText), t)
    else if op in t.proposals then
      var p := t.proposals[op];
      (if p.runId != t.runId || p.title != title then Failure(ImmutableProposal) else Success(p), t)
    else
      var p := Proposal(t.runId, title, t.requestRevision, t.policyRevision, Pending, None, None, None);
      (Success(p), t.(proposals := t.proposals[op := p]))
  }

  function Decided(t: Authority, op: string, approve: bool, ttl: real, now: real): (Result<Proposal, Refusal>, Authority) {
    if !(0.0 < ttl <= 3600.0) then (Failure(BadTtl), t)
    else if op !in t.proposals then (Failure(UnknownProposal), t)
    else
      var p := t.proposals[op];
      if p.runId != t.runId || !p.decision.Pending? then (Failure(ForeignOrDecided), t)
      else
        var q := if approve then p.(decision := Approved, grantedAt := Some(now), expiresAt := Some(now + ttl))
                 else p.(decision := Rejected, grantedAt := None, expiresAt := None);
        (Success(q), t.(proposals := t.proposals[op := q]))
  }

  function Revised(t: Authority): Authority { t.(policyRevision := t.policyRevision + 1) }

  /** The admission check of `write`, clause by clause. */
  function Admission(t: Authority, op: string, title: string, now: real): Reason
    requires op in t.proposals
  {
    var p := t.proposals[op];
    if p.runId != t.runId || p.title != title then Mismatch
    else if (p.requestRevision, p.policyRevision) != (t.requestRevision, t.policyRevision) then RevisionChanged
    else if !p.decision.Approved? then NotApproved(p.decision)
    else if p.grantedAt.None? || p.expiresAt.None? then NoInterval
    else if !(p.grantedAt.value <= now < p.expiresAt.value) then OutsideInterval
    else if p.consumed.Some? then AlreadyConsumed
    else if t.policy.Some? && (!t.policy.value || title != t.expectedTitle || Existing(t.tasks, t.expectedTitle)) then OutOfScope
    else Granted
  }

  predicate Existing(tasks: map<string, string>, title: string) { exists id | id in tasks :: tasks[id] == title }

  /** `write`; `id` is the identifier drawn for a new task. A used one violates the primary key. */
  function Written(t: Authority, op: string, title: string, enforce: bool, now: real, id: string)
    : (Result<WriteDecision, Refusal>, Authority)
  {
    if Blank(title) then (Failure(BlankText), t)
    else if op in t.receipts then
      if t.receipts[op].title != title then (Failure(ArgumentsChanged), t)
      else (Success(WriteDecision(Some(Task(t.receipts[op].taskId, title)), None, true, CommittedReplay)), t)
    else if op !in t.proposals then (Failure(UnknownProposal), t)
    else
      var reason := Admission(t, op, title, now);
      if enforce && !reason.Granted? then (Success(WriteDecision(None, Some(false), false, reason)), t)
      else if id in t.tasks then (Failure(Integrity), t)
      else
        (Success(WriteDecision(Some(Task(id, title)), Some(reason.Granted?), false, reason)),
         Effected(t, op, title, now, id, reason.Granted?))
  }

  function Effected(t: Authority, op: string, title: string, now: real, id: string, authorized: bool): Authority
    requires op in t.proposals
  {
    t.(tasks := t.tasks[id := title],
       receipts := t.receipts[op := Receipt(title, id)],
       effects := t.effects[op := EffectRow(t.runId, id, title, now, t.requestRevision, t.policyRevision)],
       proposals := if authorized then t.proposals[op := t.proposals[op].(consumed := Some(id))] else t.proposals)
  }

  function Configured(t: Authority, title: string, allowed: bool, revision: int): (Result<(), Refusal>, Authority) {
    if Blank(title) then (Failure(BlankText), t)
    else if t.policy.Some? then (Failure(Integrity), t)
    else (Success(()), t.(policy := Some(allowed), expectedTitle := title, requestRevision := revision, policyRevision := revision))
  }

  function Seeded(t: Authority, seed: Task): (Result<(), Refusal>, Authority) {
    if seed.id in t.tasks then (Failure(Integrity), t) else (Success(()), t.(tasks := t.tasks[seed.id := seed.title]))
  }

  /** The first transaction of a stale grant: revisions from before the request changed. */
  function Backdated(t: Authority, op: string): Authority {
    if op !in t.proposals then t
    else t.(proposals := t.proposals[op := t.proposals[op].(requestRevision := 1, policyRevision := 1)])
  }

  /** `scenario_grant`, of which only the first `done` transactions happen when it is interrupted. */
  function ScenarioGranted(t: Authority, op: string, stale: bool, now: real, done: nat): (Result<(), Refusal>, Authority) {
    if t.policy.None? then (Failure(NoRequest), t)
    else if op !in t.proposals then (Failure(UnknownProposal), t)
    else if !t.proposals[op].decision.Pending? || done == 0 then (Success(()), t)
    else
      var t' := if stale then Backdated(t, op) else t;
      if stale && done == 1 then (Success(()), t')
      else
        var approve := stale
          || (t.policy.value && t.proposals[op].title == t.expectedTitle && !Existing(t.tasks, t.expectedTitle));
        var (r, t'') := Decided(t', op, approve, 300.0, now);
        (if r.Success? then Success(()) else Failure(r.error), t'')
  }

  // ---- Runs ------------------------------------------------------------------

  datatype Step =
    | Propose(op: string, title: string)
    | Decide(op: string, approve: bool, ttl: real, now: real)
    | ChangeRevision
    | Write(op: string, title: string, enforce: bool, now: real, id: string)
    | ConfigureRequest(title: string, allowed: bool, revision: int)
    | AddSeed(seed: Task)
    | ScenarioGrant(op: string, stale: bool, now: real, done: nat)

  function Apply(t: Authority, step: Step): Authority {
    match step
    case Propose(op, title) => Proposed(t, op, title).1
    case Decide(op, approve, ttl, now) => Decided(t, op, approve, ttl, now).1
    case ChangeRevision => Revised(t)
    case Write(op, title, enforce, now, id) => Written(t, op, title, enforce, now, id).1
    case ConfigureRequest(title, allowed, revision) => Configured(t, title, allowed, revision).1
    case AddSeed(seed) => Seeded(t, seed).1
    case ScenarioGrant(op, stale, now, done) => ScenarioGranted(t, op, stale, now, done).1
  }

  function Run(t: Authority, steps: seq<Step>): Authority {
    if steps == [] then t else Apply(Run(t, steps[..|steps| - 1]), steps[|steps| - 1])
  }

  /** The task a step wrote with `authorized=True`, if any. */
  function AdmittedBy(t: Authority, step: Step): set<string> {
    if step.Write? then
      var r := Written(t, step.op, step.title, step.enforce, step.now, step.id).0;
      if r.Success? && r.value.authorized == Some(true) && r.value.task.Some? then {r.value.task.value.id} else {}
    else {}
  }

  /** All tasks whose write returned `authorized=True`. */
  function Admitted(t: Authority, steps: seq<Step>): set<string> {
    if steps == [] then {}
    else
      var before := steps[..|steps| - 1];
      Admitted(t, before) + AdmittedBy(Run(t, before), steps[|steps| - 1])
  }

  // ---- The store's own invariant ---------------------------------------------

  /** A grant that admitted its write still shows that it did. */
  predicate ShowsGrant(t: Authority, op: string)
    requires op in t.effects && op in t.proposals
  {
    var p, e := t.proposals[op], t.effects[op];
    && p.decision.Approved? && p.title == e.title
    && p.requestRevision == e.requestRevision && p.policyRevision == e.policyRevision
    && p.grantedAt.Some? && p.expiresAt.Some? && p.grantedAt.value <= e.admittedAt < p.expiresAt.value
  }

  predicate ProposalsHold(t: Authority) {
    forall op | op in t.proposals ::
      && t.proposals[op].runId == t.runId
      && (t.proposals[op].decision.Approved? ==> t.proposals[op].grantedAt.Some? && t.proposals[op].expiresAt.Some?)
      && (t.proposals[op].consumed.Some? ==> op in t.effects)
  }

  predicate EffectsHold(t: Authority) {
    && t.receipts.Keys == t.effects.Keys
    && (forall op | op in t.effects ::
         && op in t.proposals && t.effects[op].runId == t.runId
         && t.receipts[op] == Receipt(t.effects[op].title, t.effects[op].taskId)
         && t.effects[op].taskId in t.tasks && t.tasks[t.effects[op].taskId] == t.effects[op].title)
    && (forall a, b | a in t.effects && b in t.effects && t.effects[a].taskId == t.effects[b].taskId :: a == b)
  }

  /** The admitted tasks are those whose effect consumed its grant, and the grant still shows it. */
  predicate AdmissionsHold(t: Authority, admitted: set<string>)
    requires EffectsHold(t)
  {
    && (forall op | op in t.effects :: Graded(t, op, admitted))
    && (forall id | id in admitted :: HasEffect(t, id))
  }

  predicate Graded(t: Authority, op: string, admitted: set<string>)
    requires op in t.effects && op in t.proposals
  {
    && (t.effects[op].taskId in admitted <==> t.proposals[op].consumed == Some(t.effects[op].taskId))
    && (t.effects[op].taskId in admitted ==> ShowsGrant(t, op))
  }

  predicate HasEffect(t: Authority, id: string) { exists op | op in t.effects :: t.effects[op].taskId == id }

  predicate Sound(t: Authority, admitted: set<string>) {
    ProposalsHold(t) && EffectsHold(t) && AdmissionsHold(t, admitted)
  }

  /** An undecided proposal is inserted, decided or backdated. */
  lemma ProposalKeeps(t: Authority, op: string, p: Proposal, admitted: set<string>)
    requires Sound(t, admitted) && p.runId == t.runId
    requires p.decision.Approved? ==> p.grantedAt.Some? && p.expiresAt.Some?
    requires if op in t.proposals then t.proposals[op].decision.Pending? && p.consumed == t.proposals[op].consumed else p.consumed.None?
    ensures Sound(t.(proposals := t.proposals[op := p]), admitted)
  {
  }

  lemma SeedKeeps(t: Authority, seed: Task, admitted: set<string>)
    requires Sound(t, admitted) && seed.id !in t.tasks
    ensures Sound(t.(tasks := t.tasks[seed.id := seed.title]), admitted)
  {
  }

  lemma WriteKeeps(t: Authority, op: string, title: string, enforce: bool, now: real, id: string, admitted: set<string>)
    requires Sound(t, admitted)
    ensures var step := Write(op, title, enforce, now, id);
      Sound(Apply(t, step), admitted + AdmittedBy(t, step))
  {
    hide Blank, Existing, AdmissionsHold, Effected;
    var r := Written(t, op, title, enforce, now, id).0;
    if r.Success? && r.value.task.Some? && !r.value.replayed {
      var authorized := Admission(t, op, title, now).Granted?;
      EffectKeeps(t, op, title, now, id, authorized);
      AdmissionKeeps(t, op, title, now, id, authorized, admitted);
    } else {
      assert admitted + AdmittedBy(t, Write(op, title, enforce, now, id)) == admitted;
    }
  }

  lemma EffectKeeps(t: Authority, op: string, title: string, now: real, id: string, authorized: bool)
    requires ProposalsHold(t) && EffectsHold(t) && op in t.proposals && op !in t.receipts && id !in t.tasks
    ensures ProposalsHold(Effected(t, op, title, now, id, authorized)) && EffectsHold(Effected(t, op, title, now, id, authorized))
  {
  }

  lemma AdmissionKeeps(t: Authority, op: string, title: string, now: real, id: string, authorized: bool, admitted: set<string>)
    requires Sound(t, admitted) && op in t.proposals && op !in t.receipts && id !in t.tasks
    requires authorized <==> Admission(t, op, title, now).Granted?
    requires EffectsHold(Effected(t, op, title, now, id, authorized))
    ensures AdmissionsHold(Effected(t, op, title, now, id, authorized), admitted + (if authorized then {id} else {}))
  {
    hide Blank, Existing, Graded, HasEffect, Admission, Effected, ProposalsHold;
    var t' := Effected(t, op, title, now, id, authorized);
    var more := admitted + (if authorized then {id} else {});
    forall o | o in t'.effects ensures o in t'.proposals && Graded(t', o, more) {
      EffectGraded(t, op, title, now, id, authorized, admitted, o);
    }
    forall k | k in more ensures HasEffect(t', k) {
      MoreEffects(t, op, title, now, id, authorized, k);
    }
  }

  lemma EffectGraded(
    t: Authority, op: string, title: string, now: real, id: string, authorized: bool, admitted: set<string>, o: string)
    requires Sound(t, admitted) && op in t.proposals && op !in t.receipts && id !in t.tasks
    requires authorized <==> Admission(t, op, title, now).Granted?
    requires o in Effected(t, op, title, now, id, authorized).effects
    ensures var t' := Effected(t, op, title, now, id, authorized);
      o in t'.proposals && Graded(t', o, admitted + (if authorized then {id} else {}))
  {
    hide Blank, Existing, HasEffect;
    NotAdmitted(t, admitted, id);
    if o != op { assert t.effects[o].taskId != id; }
  }

  lemma NotAdmitted(t: Authority, admitted: set<string>, id: string)
    requires Sound(t, admitted) && id !in t.tasks
    ensures id !in admitted
  {
  }

  lemma MoreEffects(t: Authority, op: string, title: string, now: real, id: string, authorized: bool, k: string)
    requires op in t.proposals && op !in t.effects && (k == id || HasEffect(t, k))
    ensures HasEffect(Effected(t, op, title, now, id, authorized), k)
  {
    var t' := Effected(t, op, title, now, id, authorized);
    if k == id {
      assert t'.effects[op].taskId == k;
    } else {
      var o :| o in t.effects && t.effects[o].taskId == k;
      assert t'.effects[o].taskId == k;
    }
  }

  /** Every step keeps the invariant, keeps every stored task, and admits only a task that was not there. */
  lemma ApplyKeeps(t: Authority, step: Step, admitted: set<string>)
    requires Sound(t, admitted)
    ensures Sound(Apply(t, step), admitted + AdmittedBy(t, step))
  {
    hide Blank, Existing, Sound;
    assert !step.Write? ==> admitted + AdmittedBy(t, step) == admitted;
    match step
    case Propose(op, title) => ProposeKeeps(t, op, title, admitted);
    case Decide(op, approve, ttl, now) => DecideKeeps(t, op, approve, ttl, now, admitted);
    case ChangeRevision => AuthorityKeeps(t, Revised(t), admitted);
    case Write(op, title, enforce, now, id) => WriteKeeps(t, op, title, enforce, now, id, admitted);
    case ConfigureRequest(title, allowed, revision) => AuthorityKeeps(t, Configured(t, title, allowed, revision).1, admitted);
    case AddSeed(seed) => if seed.id !in t.tasks { SeedKeeps(t, seed, admitted); }
    case ScenarioGrant(op, stale, now, done) => GrantKeeps(t, op, stale, now, done, admitted);
  }

  lemma AuthorityKeeps(t: Authority, t': Authority, admitted: set<string>)
    requires Sound(t, admitted)
    requires t'.runId == t.runId && t'.proposals == t.proposals && t'.receipts == t.receipts
    requires t'.effects == t.effects && t'.tasks == t.tasks
    ensures Sound(t', admitted)
  {
  }

  lemma ProposeKeeps(t: Authority, op: string, title: string, admitted: set<string>)
    requires Sound(t, admitted)
    ensures Sound(Proposed(t, op, title).1, admitted)
  {
    hide Blank;
    if op !in t.proposals && !Blank(op) && !Blank(title) { ProposalKeeps(t, op, Proposed(t, op, title).0.value, admitted); }
  }

  lemma DecideKeeps(t: Authority, op: string, approve: bool, ttl: real, now: real, admitted: set<string>)
    requires Sound(t, admitted)
    ensures Sound(Decided(t, op, approve, ttl, now).1, admitted)
  {
    var (r, t') := Decided(t, op, approve, ttl, now);
    if r.Success? { ProposalKeeps(t, op, r.value, admitted); }
  }

  lemma GrantKeeps(t: Authority, op: string, stale: bool, now: real, done: nat, admitted: set<string>)
    requires Sound(t, admitted)
    ensures Sound(ScenarioGranted(t, op, stale, now, done).1, admitted)
  {
    hide Existing, Decided;
    if op in t.proposals && t.proposals[op].decision.Pending? && done > 0 && t.policy.Some? {
      var t' := if stale then Backdated(t, op) else t;
      if stale { ProposalKeeps(t, op, t'.proposals[op], admitted); }
      var approve := stale
        || (t.policy.value && t.proposals[op].title == t.expectedTitle && !Existing(t.tasks, t.expectedTitle));
      DecideKeeps(t', op, approve, 300.0, now, admitted);
    }
  }

  lemma {:induction false} RunIsSound(t: Authority, steps: seq<Step>)
    requires Sound(t, {})
    ensures Sound(Run(t, steps), Admitted(t, steps))
  {
    if steps != [] {
      var before := steps[..|steps| - 1];
      RunIsSound(t, before);
      ApplyKeeps(Run(t, before), steps[|steps| - 1], Admitted(t, before));
    }
  }

  /** Tasks are never lost or retitled, whatever happens next. */
  lemma {:induction false} TasksAreKept(t: Authority, steps: seq<Step>)
    ensures forall id | id in t.tasks :: id in Run(t, steps).tasks && Run(t, steps).tasks[id] == t.tasks[id]
  {
    hide Apply;
    if steps != [] {
      var before := steps[..|steps| - 1];
      TasksAreKept(t, before);
      StepKeepsTasks(Run(t, before), steps[|steps| - 1]);
    }
  }

  lemma StepKeepsTasks(t: Authority, step: Step)
    ensures forall id | id in t.tasks :: id in Apply(t, step).tasks && Apply(t, step).tasks[id] == t.tasks[id]
  {
    hide Blank, Existing, Admission;
  }

  lemma {:induction false} ReceiptsAreKept(t: Authority, steps: seq<Step>)
    ensures forall op | op in t.receipts :: op in Run(t, steps).receipts && Run(t, steps).receipts[op] == t.receipts[op]
  {
    hide Apply;
    if steps != [] {
      var before := steps[..|steps| - 1];
      ReceiptsAreKept(t, before);
      StepKeepsReceipts(Run(t, before), steps[|steps| - 1]);
    }
  }

  lemma StepKeepsReceipts(t: Authority, step: Step)
    ensures forall op | op in t.receipts :: op in Apply(t, step).receipts && Apply(t, step).receipts[op] == t.receipts[op]
  {
    hide Blank, Existing, Admission;
  }

  /** A write that stored a task stores no second one: whatever happens next, with whatever grants, the same
      request replays that task, and another title under the same operation is refused. */
  lemma WritesHappenOnce(t: Authority, write: Step, steps: seq<Step>, title: string, enforce: bool, now: real, id: string)
    requires write.Write? && var r := Written(t, write.op, write.title, write.enforce, write.now, write.id).0;
      r.Success? && r.value.task.Some?
    requires !Blank(title)
    ensures var task := Written(t, write.op, write.title, write.enforce, write.now, write.id).0.value.task;
      var later := Run(Apply(t, write), steps);
      Written(later, write.op, title, enforce, now, id) ==
        (if title == write.title then Success(WriteDecision(task, None, true, CommittedReplay)) else Failure(ArgumentsChanged), later)
  {
    hide Existing, Admission;
    ReceiptsAreKept(Apply(t, write), steps);
    assert write.op in Apply(t, write).receipts;
  }

  /** What no step takes back of a proposal: whose it is and for what, and, once it is decided, everything but the task
      that spends it. */
  predicate Unaltered(p: Proposal, q: Proposal) {
    q.runId == p.runId && q.title == p.title && (!p.decision.Pending? ==> q == p.(consumed := q.consumed))
  }

  lemma StepKeepsProposals(t: Authority, step: Step, op: string)
    requires op in t.proposals
    ensures op in Apply(t, step).proposals && Unaltered(t.proposals[op], Apply(t, step).proposals[op])
  {
    hide Blank, Existing, Admission, ScenarioGranted, Written, Decided;
    match step
    case Decide(x, approve, ttl, now) => DecideKeepsProposals(t, x, approve, ttl, now, op);
    case ScenarioGrant(x, stale, now, done) => GrantKeepsProposals(t, x, stale, now, done, op);
    case Write(x, title, enforce, now, id) => WriteKeepsProposals(t, x, title, enforce, now, id, op);
    case _ =>
  }

  lemma DecideKeepsProposals(t: Authority, x: string, approve: bool, ttl: real, now: real, op: string)
    requires op in t.proposals
    ensures var t' := Decided(t, x, approve, ttl, now).1; op in t'.proposals && Unaltered(t.proposals[op], t'.proposals[op])
  {
  }

  lemma GrantKeepsProposals(t: Authority, x: string, stale: bool, now: real, done: nat, op: string)
    requires op in t.proposals
    ensures var t' := ScenarioGranted(t, x, stale, now, done).1; op in t'.proposals && Unaltered(t.proposals[op], t'.proposals[op])
  {
    hide Existing;
  }

  lemma WriteKeepsProposals(t: Authority, x: string, title: string, enforce: bool, now: real, id: string, op: string)
    requires op in t.proposals
    ensures var t' := Written(t, x, title, enforce, now, id).1; op in t'.proposals && Unaltered(t.proposals[op], t'.proposals[op])
  {
    hide Blank, Existing, Admission;
  }

  /** Proposals are immutable and decided at most once, whatever happens: another title or a second decision is refused. */
  lemma {:induction false} DecisionsAreFinal(t: Authority, steps: seq<Step>, op: string)
    requires op in t.proposals
    ensures op in Run(t, steps).proposals && Unaltered(t.proposals[op], Run(t, steps).proposals[op])
    ensures forall title | !Blank(op) && !Blank(title) && title != t.proposals[op].title ::
      Proposed(Run(t, steps), op, title) == (Failure(ImmutableProposal), Run(t, steps))
    ensures forall approve, ttl, now | 0.0 < ttl <= 3600.0 && !t.proposals[op].decision.Pending? ::
      Decided(Run(t, steps), op, approve, ttl, now) == (Failure(ForeignOrDecided), Run(t, steps))
  {
    hide Apply;
    if steps != [] {
      var before := steps[..|steps| - 1];
      DecisionsAreFinal(t, before, op);
      StepKeepsProposals(Run(t, before), steps[|steps| - 1], op);
    }
  }

  lemma FreshAuthorityIsSound(runId: string, expectedTitle: string)
    ensures Sound(FreshAuthority(runId, expectedTitle), {})
  {
  }

  /** The two branches of `write` that its own bookkeeping rules out, in every reachable database. */
  lemma UnreachableReasons(t: Authority, admitted: set<string>, op: string, title: string, now: real)
    requires Sound(t, admitted) && op in t.proposals && op !in t.receipts
    ensures !Admission(t, op, title, now).AlreadyConsumed? && !Admission(t, op, title, now).NoInterval?
  {
    hide Blank, Existing;
  }

  // ---- When a write is admitted -----------------------------------------------

  /** The request leaves room for the write: there is no policy, or it allows this title, which no task has yet. */
  predicate InScope(t: Authority, title: string) {
    t.policy.None? || (t.policy == Some(true) && title == t.expectedTitle && forall k | k in t.tasks :: t.tasks[k] != t.expectedTitle)
  }

  /** The proposal carries an unspent approval of just this write, under the present revisions, valid now. */
  predicate InForce(p: Proposal, t: Authority, title: string, now: real) {
    && p.runId == t.runId && p.title == title
    && p.requestRevision == t.requestRevision && p.policyRevision == t.policyRevision
    && p.decision.Approved? && p.consumed.None?
    && p.grantedAt.Some? && p.expiresAt.Some? && p.grantedAt.value <= now < p.expiresAt.value
  }

  /** A first write is admitted exactly when its approval is in force and the request leaves room for it. If it is not,
      an enforced write changes nothing; an audited one is stored all the same, without spending the approval. */
  lemma WriteAdmitted(t: Authority, op: string, title: string, enforce: bool, now: real, id: string)
    requires op in t.proposals && op !in t.receipts && id !in t.tasks && !Blank(title)
    ensures var (r, t') := Written(t, op, title, enforce, now, id);
      var p, granted := t.proposals[op], InForce(t.proposals[op], t, title, now) && InScope(t, title);
      && r.Success? && !r.value.replayed && r.value.authorized == Some(granted)
      && (r.value.reason.Granted? <==> granted)
      && r.value.task == (if granted || !enforce then Some(Task(id, title)) else None)
      && (r.value.task.None? ==> t' == t)
      && (r.value.task.Some? ==>
           && t'.tasks == t.tasks[id := title] && t'.receipts == t.receipts[op := Receipt(title, id)]
           && t'.effects == t.effects[op := EffectRow(t.runId, id, title, now, t.requestRevision, t.policyRevision)]
           && t'.proposals == (if granted then t.proposals[op := p.(consumed := Some(id))] else t.proposals))
  {
    if t.proposals[op].consumed.None? { assert t.proposals[op].(consumed := None) == t.proposals[op]; }
  }

  /** When a first write is given this reason: it is the first condition that does not hold. */
  predicate ReasonHolds(t: Authority, p: Proposal, title: string, now: real, reason: Reason) {
    var same := p.runId == t.runId && p.title == title;
    var current := same && p.requestRevision == t.requestRevision && p.policyRevision == t.policyRevision;
    var approved := current && p.decision.Approved?;
    var dated := approved && p.grantedAt.Some? && p.expiresAt.Some?;
    var valid := dated && p.grantedAt.value <= now && now < p.expiresAt.value;
    match reason
    case Mismatch => !same
    case RevisionChanged => same && !current
    case NotApproved(decision) => current && !approved && decision == p.decision
    case NoInterval => approved && !dated
    case OutsideInterval => dated && !valid
    case AlreadyConsumed => valid && p.consumed.Some?
    case OutOfScope => valid && p.consumed.None? && !InScope(t, title)
    case Granted => valid && p.consumed.None? && InScope(t, title)
    case CommittedReplay => false
  }

  lemma WriteReasons(t: Authority, op: string, title: string, enforce: bool, now: real, id: string)
    requires op in t.proposals && op !in t.receipts && !Blank(title)
    requires Written(t, op, title, enforce, now, id).0.Success?
    ensures forall reason :: ReasonHolds(t, t.proposals[op], title, now, reason) <==>
      reason == Written(t, op, title, enforce, now, id).0.value.reason
  {
  }

  /** From proposal to write: a write is admitted exactly when its operation was approved, nothing was revised since, it
      writes the approved title within the approved time, and the request leaves room for it. */
  lemma ApprovalPath(
    t: Authority, op: string, title: string, approve: bool, ttl: real, now: real, revised: bool, written: string, later: real,
    enforce: bool, id: string)
    requires op !in t.proposals && op !in t.receipts && id !in t.tasks
    requires !Blank(op) && !Blank(title) && !Blank(written) && 0.0 < ttl <= 3600.0
    ensures var t1 := Apply(Apply(t, Propose(op, title)), Decide(op, approve, ttl, now));
      var t2 := if revised then Apply(t1, ChangeRevision) else t1;
      var r := Written(t2, op, written, enforce, later, id).0;
      r.Success? && (r.value.authorized == Some(true) <==>
        approve && !revised && written == title && now <= later < now + ttl && InScope(t, title))
  {
    hide InScope, Blank;
    var t1 := Apply(Apply(t, Propose(op, title)), Decide(op, approve, ttl, now));
    var t2 := if revised then Apply(t1, ChangeRevision) else t1;
    WriteAdmitted(t2, op, written, enforce, later, id);
    SameScope(t, t2, written);
  }

  lemma SameScope(t: Authority, t': Authority, title: string)
    requires t'.policy == t.policy && t'.expectedTitle == t.expectedTitle && t'.tasks == t.tasks
    ensures InScope(t', title) <==> InScope(t, title)
  {
  }

  /** The synthetic grant of a context experiment decides an undecided proposal: a stale one is backdated and approved,
      any other approved exactly when the request allows its title, which no task has yet. */
  lemma ScenarioGrantDecides(t: Authority, op: string, stale: bool, now: real)
    requires t.policy.Some? && op in t.proposals && t.proposals[op].decision.Pending? && t.proposals[op].runId == t.runId
    ensures var (r, t') := ScenarioGranted(t, op, stale, now, 2);
      var (p, approved) := (t.proposals[op], stale || InScope(t, t.proposals[op].title));
      && r.Success? && t' == t.(proposals := t'.proposals)
      && t'.proposals == t.proposals[op := p.(
           decision := if approved then Approved else Rejected,
           requestRevision := if stale then 1 else p.requestRevision, policyRevision := if stale then 1 else p.policyRevision,
           grantedAt := if approved then Some(now) else None, expiresAt := if approved then Some(now + 300.0) else None)]
  {
  }

  /** From such a grant to the write of its title: a stale approval is good only under the very first revisions. */
  lemma ScenarioGrantPath(t: Authority, op: string, title: string, stale: bool, now: real, later: real, enforce: bool, id: string)
    requires t.policy.Some? && op !in t.proposals && op !in t.receipts && id !in t.tasks && !Blank(op) && !Blank(title)
    ensures var t' := Apply(Apply(t, Propose(op, title)), ScenarioGrant(op, stale, now, 2));
      var r := Written(t', op, title, enforce, later, id).0;
      r.Success? && (r.value.authorized == Some(true) <==>
        (stale ==> t.requestRevision == 1 && t.policyRevision == 1) && now <= later < now + 300.0 && InScope(t, title))
  {
    hide Blank, InScope, ScenarioGranted, Written;
    var t1 := Apply(t, Propose(op, title));
    ScenarioGrantDecides(t1, op, stale, now);
    var t2 := ScenarioGranted(t1, op, stale, now, 2).1;
    WriteAdmitted(t2, op, title, enforce, later, id);
    SameScope(t, t1, title);
    SameScope(t, t2, title);
  }

  // ---- The store -------------------------------------------------------------

  class PermissionStore {
    const runId: string
    var expectedTitle: string
    var requestRevision: int
    var policyRevision: int
    var policy: Option<bool>
    var proposals: map<string, Proposal>
    var receipts: map<string, Receipt>
    var effects: map<string, EffectRow>
    var tasks: map<string, string>

    function Contents(): Authority reads this {
      Authority(runId, expectedTitle, requestRevision, policyRevision, policy, proposals, receipts, effects, tasks)
    }

    constructor (runId: string, expectedTitle: string)
      ensures Contents() == FreshAuthority(runId, expectedTitle)
    {
      this.runId, this.expectedTitle := runId, expectedTitle;
      requestRevision, policyRevision, policy := 1, 1, None;
      proposals, receipts, effects, tasks := map[], map[], map[], map[];
    }

    method Propose(op: string, title: string) returns (r: Result<Proposal, Refusal>)
      modifies this
      ensures (r, Contents()) == Proposed(old(Contents()), op, title)
    {
      if Blank(op) || Blank(title) { return Failure(BlankText); }
      if op in proposals {
        var row := proposals[op];
        if row.runId != runId || row.title != title { return Failure(ImmutableProposal); }
        return Success(row);
      }
      proposals := proposals[op := Proposal(runId, title, requestRevision, policyRevision, Pending, None, None, None)];
      return Success(proposals[op]);
    }

    method Decide(op: string, approve: bool, ttl: real, now: real) returns (r: Result<Proposal, Refusal>)
      modifies this
      ensures (r, Contents()) == Decided(old(Contents()), op, approve, ttl, now)
    {
      if !(0.0 < ttl <= 3600.0) { return Failure(BadTtl); }
      if op !in proposals { return Failure(UnknownProposal); }
      var row := proposals[op];
      if row.runId != runId || !row.decision.Pending? { return Failure(ForeignOrDecided); }
      proposals := proposals[op := row.(
        decision := if approve then Approved else Rejected,
        grantedAt := if approve then Some(now) else None,
        expiresAt := if approve then Some(now + ttl) else None)];
      return Success(proposals[op]);
    }

    method ChangeRevision()
      modifies this
      ensures Contents() == Revised(old(Contents()))
    {
      policyRevision := policyRevision + 1;
    }

    method Write(op: string, title: string, enforce: bool, now: real, id: string) returns (r: Result<WriteDecision, Refusal>)
      modifies this
      ensures (r, Contents()) == Written(old(Contents()), op, title, enforce, now, id)
    {
      if Blank(title) { return Failure(BlankText); }
      if op in receipts {
        if receipts[op].title != title { return Failure(ArgumentsChanged); }
        return Success(WriteDecision(Some(Task(receipts[op].taskId, title)), None, true, CommittedReplay));
      }
      if op !in proposals { return Failure(UnknownProposal); }
      var row := proposals[op];
      var reason := Granted;
      if row.runId != runId || row.title != title {
        reason := Mismatch;
      } else if row.requestRevision != requestRevision || row.policyRevision != policyRevision {
        reason := RevisionChanged;
      } else if !row.decision.Approved? {
        reason := NotApproved(row.decision);
      } else if row.grantedAt.None? || row.expiresAt.None? {
        reason := NoInterval;
      } else if !(row.grantedAt.value <= now < row.expiresAt.value) {
        reason := OutsideInterval;
      } else if row.consumed.Some? {
        reason := AlreadyConsumed;
      }
      if reason.Granted? && policy.Some? {
        var alreadyCreated := Existing(tasks, expectedTitle);
        if !policy.value || title != expectedTitle || alreadyCreated { reason := OutOfScope; }
      }
      var authorized := reason.Granted?;
      if enforce && !authorized { return Success(WriteDecision(None, Some(false), false, reason)); }
      if id in tasks { return Failure(Integrity); }
      tasks := tasks[id := title];
      receipts := receipts[op := Receipt(title, id)];
      effects := effects[op := EffectRow(runId, id, title, now, requestRevision, policyRevision)];
      if authorized { proposals := proposals[op := row.(consumed := Some(id))]; }
      return Success(WriteDecision(Some(Task(id, title)), Some(authorized), false, reason));
    }

    method ConfigureRequest(title: string, allowed: bool, revision: int) returns (r: Result<(), Refusal>)
      modifies this
      ensures (r, Contents()) == Configured(old(Contents()), title, allowed, revision)
    {
      if Blank(title) { return Failure(BlankText); }
      if policy.Some? { return Failure(Integrity); }
      policy := Some(allowed);
      expectedTitle, requestRevision, policyRevision := title, revision, revision;
      return Success(());
    }

    method AddSeed(seed: Task) returns (r: Result<(), Refusal>)
      modifies this
      ensures (r, Contents()) == Seeded(old(Contents()), seed)
    {
      if seed.id in tasks { return Failure(Integrity); }
      tasks := tasks[seed.id := seed.title];
      return Success(());
    }

    /** `done` transactions happen before the process is interrupted; two are enough to finish. */
    method ScenarioGrant(op: string, stale: bool, now: real, done: nat) returns (r: Result<(), Refusal>)
      modifies this
      ensures (r, Contents()) == ScenarioGranted(old(Contents()), op, stale, now, done)
    {
      if policy.None? { return Failure(NoRequest); }
      if op !in proposals { return Failure(UnknownProposal); }
      var proposal := proposals[op];
      if !proposal.decision.Pending? || done == 0 { return Success(()); }
      var approve := true;
      if stale {
        proposals := proposals[op := proposal.(requestRevision := 1, policyRevision := 1)];
        if done == 1 { return Success(()); }
      } else {
        approve := policy.value && proposal.title == expectedTitle && !Existing(tasks, expectedTitle);
      }
      var decided := Decide(op, approve, 300.0, now);
      return if decided.Success? then Success(()) else Failure(decided.error);
    }
  }
}
