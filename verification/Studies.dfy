/** studies.py and study_records.py: a study runs one child after the other under one budget of active time. */
module Studies {
  import opened Wrappers
  import opened Records

  // ---- Records -----------------------------------------------------------------------

  datatype Participant = AgentCell | WorkflowCell | ScannerCell | ProbeCell

  datatype Slot = Slot(sequence: nat, repetition: nat, scenario: string, policy: string, participant: Participant)

  datatype Evidence = ScanEvidence(complete: bool, content: string) | OtherEvidence(content: string)

  datatype ChildResult = ChildResult(planDigest: string, slot: Slot, mode: string, evidence: Evidence)

  datatype EntryStatus = Unstarted | InProgress | Completed | Failed | Interrupted

  datatype Trouble = ExitStatus(code: int) | BudgetExhausted | UserInterrupted | OsError | NoSeal | ControllerInterrupted

  datatype Entry = Entry(
    slot: Slot, status: EntryStatus, elapsed: real, result: Option<ChildResult>,
    inspection: Option<Option<seq<Task>>>, error: Option<Trouble>)
  {
    predicate Consistent() {
      && elapsed >= 0.0
      && (result.Some? ==> result.value.slot == slot)
      && (status.Completed? <==> result.Some?)
      && (status.Unstarted? || status.InProgress? ==> inspection.None? && error.None?)
    }

    /** A probe passes when its child sealed a complete scan. */
    predicate Passed() { result.Some? && result.value.evidence.ScanEvidence? && result.value.evidence.complete }
  }

  function NewEntry(slot: Slot): Entry { Entry(slot, Unstarted, 0.0, None, None, None) }

  /** `accepts` stands for the clauses that compare a child's evidence with its scheduled cell. */
  datatype StudyPlan = StudyPlan(slots: seq<Slot>, budget: real, digest: string, accepts: (Slot, Evidence) -> bool)

  datatype Study = Study(plan: StudyPlan, planDigest: string, mode: string, active: real, reserved: real, entries: seq<Entry>)
  {
    /** A result that may stand in the inventory. */
    predicate Fits(r: ChildResult) { r.planDigest == planDigest && r.mode == mode && plan.accepts(r.slot, r.evidence) }

    /** The validator a study must pass before it is saved. */
    predicate Consistent() {
      && active >= 0.0 && reserved >= 0.0 && planDigest == plan.digest
      && |entries| == |plan.slots| && (forall i | 0 <= i < |entries| :: entries[i].slot == plan.slots[i] && entries[i].Consistent())
      && (forall i, j | 0 <= i < j < |entries| :: !(entries[i].status.InProgress? && entries[j].status.InProgress?))
      && (forall i | 0 <= i < |entries| && entries[i].result.Some? :: Fits(entries[i].result.value))
      && ((exists i | 0 <= i < |entries| :: entries[i].status.InProgress?) <==> reserved > 0.0)
    }
  }

  /** `replace_entry` with the two accounts. */
  function Replaced(s: Study, i: nat, e: Entry, active: real, reserved: real): Study
    requires i < |s.entries|
  {
    s.(entries := s.entries[i := e], active := active, reserved := reserved)
  }

  // ---- Children and their seals --------------------------------------------------------

  datatype SealFile = Missing | Malformed | Seal(result: ChildResult)

  datatype Child = Child(seal: SealFile, rows: Option<seq<Task>>)

  datatype Ending = Exited(code: int) | OutOfTime | KeyboardInterrupt | CannotStart

  /** What is arbitrary about the child of one slot: how it ends, how long it takes, and what it leaves. */
  datatype ChildRun = ChildRun(ending: Ending, elapsed: Elapsed, leaves: Child)

  type Elapsed = r: real | r >= 0.0

  type Children = nat -> ChildRun

  datatype Problem = BadSeal | SealChanged | ArtifactsExist | Rejected

  function FilesOf(children: map<nat, Child>, i: nat): Child {
    if i in children then children[i] else Child(Missing, None)
  }

  /** `sealed`: the result a child sealed, if any; an unreadable or foreign seal is an error. */
  function Sealed(children: map<nat, Child>, s: Study, i: nat): Result<Option<ChildResult>, Problem>
    requires i < |s.entries|
  {
    match FilesOf(children, i).seal
    case Missing => Success(None)
    case Malformed => Failure(BadSeal)
    case Seal(r) =>
      if r.slot != s.entries[i].slot || r.mode != s.mode || r.planDigest != s.planDigest then Failure(BadSeal) else Success(Some(r))
  }

  /** What the child of a slot sealed, if it sealed anything. */
  function SealOf(children: map<nat, Child>, i: nat): Option<ChildResult> {
    if i in children && children[i].seal.Seal? then Some(children[i].seal.result) else None
  }

  function Sum(entries: seq<Entry>): real {
    if entries == [] then 0.0 else Sum(entries[..|entries| - 1]) + entries[|entries| - 1].elapsed
  }

  // ---- The invariant ------------------------------------------------------------------------

  /** Everything in a study's directory, and the slots whose children were ever spawned. */
  datatype Directory = Directory(study: Study, children: map<nat, Child>, spawned: seq<nat>)

  predicate Running(s: Study, n: nat) { 0 < n <= |s.entries| && s.entries[n - 1].status.InProgress? }

  /** The first `n` slots are started and the others are not; only the last started one may be running. */
  predicate Frontier(s: Study, n: nat) {
    && n <= |s.entries|
    && (forall i | 0 <= i < |s.entries| :: s.entries[i].status.Unstarted? <==> i >= n)
    && (forall i | 0 <= i < n - 1 :: !s.entries[i].status.InProgress?)
    && (forall i | n <= i < |s.entries| :: s.entries[i].elapsed == 0.0)
  }

  /** The time accounts: what was charged is what the entries show; a running child has the rest of the budget
      reserved; and every started slot was started within the budget. */
  predicate Accounts(s: Study, n: nat)
    requires n <= |s.entries|
  {
    && s.active == Sum(s.entries)
    && (Running(s, n) ==> s.active + s.reserved == s.plan.budget && s.entries[n - 1].elapsed == 0.0)
    && (!Running(s, n) ==> s.reserved == 0.0)
    && (n > 0 ==> Sum(s.entries[..n - 1]) < s.plan.budget)
  }

  /** Nothing started behind a probe that did not pass. */
  predicate Gated(s: Study, n: nat)
    requires n <= |s.entries|
  {
    forall i | 0 <= i < n - 1 && s.entries[i].slot.participant.ProbeCell? :: s.entries[i].Passed()
  }

  predicate Ended(e: Entry) { !e.status.Unstarted? && !e.status.InProgress? }

  /** Each child was spawned once, for a started slot; an ended slot holds exactly what its child sealed. */
  predicate Spawns(d: Directory, n: nat) {
    && (forall i, j | 0 <= i < j < |d.spawned| :: d.spawned[i] != d.spawned[j])
    && (forall i | i in d.spawned :: i < n)
    && (forall i | i in d.children :: i in d.spawned)
    && (forall i | 0 <= i < |d.study.entries| && Ended(d.study.entries[i]) :: d.study.entries[i].result == SealOf(d.children, i))
  }

  predicate SoundAt(d: Directory, n: nat) {
    d.study.Consistent() && Frontier(d.study, n) && Accounts(d.study, n) && Gated(d.study, n) && Spawns(d, n)
  }

  ghost predicate Sound(d: Directory) { exists n: nat :: SoundAt(d, n) }

  /** What no later event takes back: the slots that started, what finished ones hold, and the spawned children. */
  ghost predicate Keeps(a: Directory, b: Directory) {
    && b.study.plan == a.study.plan && b.study.mode == a.study.mode && |b.study.entries| == |a.study.entries|
    && (forall i | 0 <= i < |a.study.entries| && !a.study.entries[i].status.Unstarted? && !a.study.entries[i].status.InProgress? ::
         b.study.entries[i] == a.study.entries[i])
    && (forall i | 0 <= i < |a.study.entries| && a.study.entries[i].status.InProgress? :: !b.study.entries[i].status.Unstarted?)
    && a.spawned <= b.spawned
    && (forall i | i in a.children :: i in b.children && b.children[i] == a.children[i])
  }

  // ---- Sums -----------------------------------------------------------------------------------

  lemma {:induction false} SumOfUpdate(entries: seq<Entry>, i: nat, e: Entry)
    requires i < |entries|
    ensures Sum(entries[i := e]) == Sum(entries) - entries[i].elapsed + e.elapsed
  {
    var n := |entries| - 1;
    if i == n {
      assert entries[i := e][..n] == entries[..n];
    } else {
      assert entries[i := e][..n] == entries[..n][i := e];
      SumOfUpdate(entries[..n], i, e);
    }
  }

  lemma {:induction false} SumOfRest(entries: seq<Entry>, n: nat)
    requires n <= |entries| && forall i | n <= i < |entries| :: entries[i].elapsed == 0.0
    ensures Sum(entries) == Sum(entries[..n])
  {
    if n < |entries| {
      var m := |entries| - 1;
      SumOfRest(entries[..m], n);
      assert entries[..m][..n] == entries[..n];
    } else {
      assert entries[..n] == entries;
    }
  }

  // ---- Transitions --------------------------------------------------------------------------------

  function StartedEntry(slot: Slot): Entry { NewEntry(slot).(status := InProgress) }

  function WithStarted(s: Study, n: nat): Study
    requires n < |s.entries|
  {
    Replaced(s, n, StartedEntry(s.entries[n].slot), s.active, s.plan.budget - s.active)
  }

  /** The next slot starts with the whole remaining budget reserved. */
  lemma StartKeeps(d: Directory, n: nat)
    requires SoundAt(d, n) && !Running(d.study, n) && n < |d.study.entries|
    requires d.study.active < d.study.plan.budget
    requires forall i | 0 <= i < n && d.study.entries[i].slot.participant.ProbeCell? :: d.study.entries[i].Passed()
    ensures var s' := WithStarted(d.study, n);
      s'.Consistent() && SoundAt(d.(study := s'), n + 1) && Running(s', n + 1) && Keeps(d, d.(study := s'))
  {
    hide Study.Consistent, Entry.Consistent, Frontier, Accounts, Entry.Passed;
    StartConsistent(d.study, n);
    StartAccounts(d.study, n);
    StartFrontier(d.study, n);
  }

  lemma StartConsistent(s: Study, n: nat)
    requires s.Consistent() && Frontier(s, n) && Accounts(s, n) && !Running(s, n) && n < |s.entries| && s.active < s.plan.budget
    ensures WithStarted(s, n).Consistent()
  {
    hide Sum;
    assert WithStarted(s, n).entries[n].status.InProgress?;
  }

  lemma StartAccounts(s: Study, n: nat)
    requires Frontier(s, n) && Accounts(s, n) && !Running(s, n) && n < |s.entries| && s.active < s.plan.budget
    ensures Accounts(WithStarted(s, n), n + 1)
  {
    SumOfUpdate(s.entries, n, StartedEntry(s.entries[n].slot));
    SumOfRest(s.entries, n);
    assert WithStarted(s, n).entries[..n] == s.entries[..n];
  }

  lemma StartFrontier(s: Study, n: nat)
    requires Frontier(s, n) && !Running(s, n) && n < |s.entries|
    ensures Frontier(WithStarted(s, n), n + 1) && Running(WithStarted(s, n), n + 1) && s.entries[n].status.Unstarted?
  {
  }

  function WithEnded(s: Study, n: nat, e: Entry): Study
    requires 0 < n <= |s.entries|
  {
    Replaced(s, n - 1, e, s.active + e.elapsed, 0.0)
  }

  /** How a running slot may end. */
  predicate Final(e: Entry, was: Entry) {
    e.slot == was.slot && e.Consistent() && !e.status.Unstarted? && !e.status.InProgress?
  }

  /** The started slot ends, with the time it was charged. */
  lemma EndKeeps(d: Directory, n: nat, e: Entry)
    requires SoundAt(d, n) && Running(d.study, n) && Final(e, d.study.entries[n - 1])
    requires e.result == SealOf(d.children, n - 1) && (e.result.Some? ==> d.study.Fits(e.result.value))
    ensures var s' := WithEnded(d.study, n, e);
      s'.Consistent() && SoundAt(d.(study := s'), n) && !Running(s', n) && Keeps(d, d.(study := s'))
  {
    hide Study.Consistent, Entry.Consistent, Study.Fits, Frontier, Accounts, Entry.Passed;
    EndConsistent(d.study, n, e);
    EndAccounts(d.study, n, e);
    EndFrontier(d.study, n, e);
  }

  lemma EndConsistent(s: Study, n: nat, e: Entry)
    requires s.Consistent() && Frontier(s, n) && Running(s, n) && Final(e, s.entries[n - 1])
    requires e.result.Some? ==> s.Fits(e.result.value)
    ensures WithEnded(s, n, e).Consistent()
  {
  }

  lemma EndAccounts(s: Study, n: nat, e: Entry)
    requires Frontier(s, n) && Accounts(s, n) && Running(s, n) && Final(e, s.entries[n - 1])
    ensures Accounts(WithEnded(s, n, e), n)
  {
    SumOfUpdate(s.entries, n - 1, e);
    assert WithEnded(s, n, e).entries[..n - 1] == s.entries[..n - 1];
  }

  lemma EndFrontier(s: Study, n: nat, e: Entry)
    requires Frontier(s, n) && Running(s, n) && Final(e, s.entries[n - 1])
    ensures Frontier(WithEnded(s, n, e), n) && !Running(WithEnded(s, n, e), n)
  {
  }

  /** The child of the slot just started is spawned and leaves its files. */
  lemma SpawnKeeps(d: Directory, n: nat, files: Child)
    requires SoundAt(d, n) && Running(d.study, n) && n - 1 !in d.spawned
    ensures var d' := d.(children := d.children[n - 1 := files], spawned := d.spawned + [n - 1]);
      SoundAt(d', n) && Keeps(d, d')
  {
  }

  /** No transition loses what an earlier one kept. */
  lemma KeepsTransitive(a: Directory, b: Directory, c: Directory)
    requires Keeps(a, b) && Keeps(b, c)
    ensures Keeps(a, c)
  {
  }

  // ---- The controller --------------------------------------------------------------------------

  datatype SaveResult = Saved | NotSaved | ControllerDied

  datatype End = Complete | Raised(problem: Problem) | Died

  class StudyDirectory {
    var study: Study
    var children: map<nat, Child>
    var fuel: nat
    ghost var spawned: seq<nat>

    ghost function Contents(): Directory reads this { Directory(study, children, spawned) }

    /** `run`: a new study with every slot unstarted. */
    constructor (plan: StudyPlan, mode: string)
      requires plan.budget > 0.0
      ensures Sound(Contents()) && study.plan == plan && spawned == []
    {
      study := Study(plan, plan.digest, mode, 0.0, 0.0, seq(|plan.slots|, i requires 0 <= i < |plan.slots| => NewEntry(plan.slots[i])));
      children, fuel, spawned := map[], 0, [];
      new;
      SumOfRest(study.entries, 0);
      assert SoundAt(Contents(), 0);
    }

    /** `save`: one durable step, refused by the validator. */
    method Save(next: Study) returns (r: SaveResult)
      modifies this`study, this`fuel
      ensures old(fuel) == 0 ==> r.ControllerDied?
      ensures old(fuel) > 0 ==> (r.Saved? <==> next.Consistent()) && !r.ControllerDied?
      ensures r.Saved? ==> study == next && fuel == old(fuel) - 1
      ensures !r.Saved? ==> study == old(study) && fuel == old(fuel)
    {
      if fuel == 0 { return ControllerDied; }
      if !next.Consistent() { return NotSaved; }
      study, fuel := next, fuel - 1;
      return Saved;
    }

    /** `reconcile`: a slot that was running when the controller died is closed with its whole reservation
        charged; its child is never run again. */
    method Reconcile() returns (end: End)
      requires Sound(Contents())
      modifies this`study, this`fuel
      ensures Sound(Contents()) && Keeps(old(Contents()), Contents())
      ensures end.Complete? ==> forall i | 0 <= i < |study.entries| :: !study.entries[i].status.InProgress?
      ensures end.Complete? && (exists i | 0 <= i < |old(study).entries| :: old(study).entries[i].status.InProgress?) ==>
        study.active == study.plan.budget
      ensures if end.Complete? then Closes(old(Contents()), study) else study == old(study)
      ensures end.Raised? ==> !end.problem.SealChanged? && !end.problem.ArtifactsExist?
      ensures end.Died? ==> fuel == 0
    {
      hide Study.Consistent, Entry.Consistent, Frontier, Accounts, Gated, Spawns;
      ghost var n: nat :| SoundAt(Contents(), n);
      FrontierFacts(Contents(), n);
      var next, index := study, 0;
      while index < |study.entries|
        invariant index <= |study.entries| && Contents() == old(Contents())
        invariant if Running(study, n) && index >= n then Recovery(Contents(), n, next) else next == study
      {
        var entry := study.entries[index];
        if entry.status.Completed? {
          CapturedSeal(Contents(), n, index);
          assert Sealed(children, study, index) == Success(entry.result);
        } else if entry.status.InProgress? {
          var found := Sealed(children, study, index);
          if found.Failure? { return Raised(found.error); }
          var recovered := Entry(
            entry.slot, if found.value.Some? then EntryStatus.Completed else Interrupted, next.reserved, found.value,
            if found.value.Some? then None else Some(FilesOf(children, index).rows),
            if found.value.Some? then None else Some(ControllerInterrupted));
          next := Replaced(next, index, recovered, next.active + next.reserved, 0.0);
          RecoveredEntry(Contents(), n, recovered);
        }
        index := index + 1;
      }
      ghost var before := Contents();
      var saved := Save(next);
      assert Contents() == before.(study := study);
      if !saved.Saved? { assert Contents() == before; }
      if saved.ControllerDied? { return Died; }
      if saved.NotSaved? { return Raised(Problem.Rejected); }
      if Running(before.study, n) { RecoverySaved(before, n, study); }
      assert SoundAt(Contents(), n);
      FrontierFacts(Contents(), n);
      end := Complete;
    }

    /** Reserve the rest of the budget for a slot, then spawn its child; false when the controller died. */
    method StartSlot(index: nat, run: ChildRun) returns (alive: bool)
      requires SoundAt(Contents(), index) && !Running(study, index) && index < |study.entries|
      requires study.active < study.plan.budget && ProbesPassed(study, index)
      modifies this
      ensures Sound(Contents()) && Keeps(old(Contents()), Contents())
      ensures !alive ==> fuel == 0 && (study == old(study) || study == WithStarted(old(study), index))
      ensures alive ==> SoundAt(Contents(), index + 1) && Running(study, index + 1) && study == WithStarted(old(study), index)
      ensures alive ==> FilesOf(children, index) == Leaves(run)
    {
      hide Study.Consistent, Entry.Consistent, Frontier, Accounts, Gated, Spawns, Keeps;
      ghost var d0 := Contents();
      NewChild(d0, index);
      StartKeeps(d0, index);
      KeepsSelf(d0);
      var entry := StartedEntry(study.entries[index].slot);
      var saved := Save(Replaced(study, index, entry, study.active, study.plan.budget - study.active));
      assert !saved.NotSaved?;
      ghost var d1 := Contents();
      assert d1 == d0.(study := study);
      if saved.ControllerDied? || fuel == 0 { return false; }
      fuel := fuel - 1;
      if !run.ending.CannotStart? {
        SpawnKeeps(d1, index + 1, run.leaves);
        KeepsTransitive(d0, d1, d1.(children := d1.children[index := run.leaves], spawned := d1.spawned + [index]));
        children, spawned := children[index := run.leaves], spawned + [index];
      }
      assert SoundAt(Contents(), index + 1);
      alive := true;
    }

    /** Read what the child sealed, and close its slot with the time it took. */
    method EndSlot(index: nat, run: ChildRun) returns (end: SlotEnd)
      requires SoundAt(Contents(), index + 1) && Running(study, index + 1) && ProbesPassed(study, index)
      requires FilesOf(children, index) == Leaves(run)
      modifies this`study, this`fuel
      ensures Sound(Contents()) && Keeps(old(Contents()), Contents())
      ensures end.Next? || end.Stop? ==> SoundAt(Contents(), index + 1) && !Running(study, index + 1)
      ensures end.Next? ==> ProbesPassed(study, index + 1)
      ensures end.Stop? ==> !ProbesPassed(study, index + 1) || run.ending.KeyboardInterrupt?
      ensures end.Next? || end.Stop? ==>
        study == WithEnded(old(study), index + 1, study.entries[index]) && Reports(run, study.entries[index])
      ensures end.Next? || end.Stop? ==> (end.Stop? <==>
        run.ending.KeyboardInterrupt? || (study.entries[index].slot.participant.ProbeCell? && !study.entries[index].Passed()))
      ensures end.RaisedIn? ==> end.problem.BadSeal? || end.problem.Rejected?
      ensures end.DiedIn? ==> fuel == 0
      ensures end.RaisedIn? || end.DiedIn? ==> study == old(study)
      ensures end.RaisedIn? <==> old(fuel) > 0 && !Seals(run, old(study), index)
    {
      hide Study.Consistent, Entry.Consistent, Frontier, Accounts, Gated, Spawns, Keeps;
      ghost var d := Contents();
      KeepsSelf(d);
      if fuel == 0 { return DiedIn; }
      var slot := study.entries[index].slot;
      var found := Sealed(children, study, index);
      if found.Failure? { return RaisedIn(found.error); }
      var trouble := TroubleOf(run.ending);
      var completed := Entry(
        slot,
        if found.value.Some? then EntryStatus.Completed
        else if run.ending.OutOfTime? || run.ending.KeyboardInterrupt? then Interrupted else Failed,
        run.elapsed, found.value,
        if found.value.Some? then None else Some(FilesOf(children, index).rows),
        if found.value.Some? || trouble.Some? then trouble else Some(NoSeal));
      EndedEntry(d, index + 1, completed);
      SealsAreSaved(d, index + 1, run, completed);
      var saved := Save(Replaced(study, index, completed, study.active + run.elapsed, 0.0));
      assert Contents() == d.(study := study);
      if saved.ControllerDied? { return DiedIn; }
      if saved.NotSaved? { return RaisedIn(Problem.Rejected); }
      if completed.result.Some? { ResultFits(study, index); }
      EndKeeps(d, index + 1, completed);
      if run.ending.KeyboardInterrupt? || (slot.participant.ProbeCell? && !completed.Passed()) { return Stop; }
      end := Next;
    }

    /** `_continue`: close what a crash left running, then run the remaining slots in order while there is budget,
        stopping behind a probe that did not pass. */
    method Continue(env: Children) returns (end: End)
      requires Sound(Contents())
      modifies this
      ensures Sound(Contents()) && Keeps(old(Contents()), Contents())
      ensures end.Raised? ==> end.problem.BadSeal? || end.problem.Rejected?
      ensures end.Died? ==> fuel == 0
      ensures end.Complete? ==> NothingLeft(Contents(), env)
      ensures (exists i | 0 <= i < |old(study).entries| :: old(study).entries[i].status.InProgress?) ==>
        spawned == old(spawned) && (end.Complete? ==> study.active == study.plan.budget)
      ensures SessionReports(old(study), study, env)
      ensures end.Complete? ==> forall i | 0 <= i < |old(study).entries| && old(study).entries[i].status.InProgress? ::
        i < |study.entries| && RecoveredBy(old(Contents()), i + 1, study.entries[i])
    {
      hide Study.Consistent, Entry.Consistent, Frontier, Accounts, Gated, Spawns, Keeps, Entry.Passed, SessionReports, Closes, RecoveredBy;
      end := Reconcile();
      NothingReported(study, env);
      if !end.Complete? { return; }
      ClosedReports(old(Contents()), Contents(), Contents(), env);
      ghost var n: nat :| SoundAt(Contents(), n);
      FrontierFacts(Contents(), n);
      StartedBefore(Contents(), n);
      ghost var d := Contents();
      for i := 0 to |study.entries|
        invariant Contents() == d
        invariant forall j | 0 <= j < i && study.entries[j].slot.participant.ProbeCell? ::
          study.entries[j].status.Unstarted? || study.entries[j].Passed()
      {
        var entry := study.entries[i];
        if entry.slot.participant.ProbeCell? && !entry.status.Unstarted? && !entry.Passed() {
          assert !ProbesPassed(study, n);
          return;
        }
      }
      ghost var d0 := old(Contents());
      end := RunSlots(env, n);
      KeepsTransitive(d0, d, Contents());
      ClosedReports(d0, d, Contents(), env);
    }

    /** The scheduling loop. */
    method RunSlots(env: Children, ghost first: nat) returns (end: End)
      requires SoundAt(Contents(), first) && !Running(study, first) && first <= |study.entries| && ProbesPassed(study, first)
      modifies this
      ensures Sound(Contents()) && Keeps(old(Contents()), Contents())
      ensures end.Raised? ==> end.problem.BadSeal? || end.problem.Rejected?
      ensures end.Died? ==> fuel == 0
      ensures end.Complete? ==> NothingLeft(Contents(), env)
      ensures old(study.active) >= old(study.plan.budget) ==> end.Complete? && study == old(study) && spawned == old(spawned)
      ensures SessionReports(old(study), study, env)
    {
      hide Study.Consistent, Entry.Consistent, Frontier, Accounts, Gated, Spawns, Keeps, Entry.Passed, ProbesPassed,
        Running, WithStarted, WithEnded, SessionReports, Reports;
      ghost var n := first;
      NothingReported(study, env);
      KeepsSelf(Contents());
      FrontierFacts(Contents(), n);
      var index := 0;
      while index < |study.entries|
        invariant index <= |study.entries| && index <= n <= |study.entries|
        invariant SoundAt(Contents(), n) && !Running(study, n) && ProbesPassed(study, n)
        invariant Keeps(old(Contents()), Contents())
        invariant old(study.active) >= old(study.plan.budget) ==> study == old(study) && spawned == old(spawned)
        invariant SessionReports(old(study), study, env)
        decreases |study.entries| - index
      {
        StartedBefore(Contents(), n);
        ghost var size := |study.entries|;
        if study.entries[index].status.Unstarted? {
          if study.plan.budget - study.active <= 0.0 { break; }
          NewChild(Contents(), n);
          assert index !in children;
          ghost var d0 := Contents();
          var run := env(index);
          var alive := StartSlot(index, run);
          ghost var d1 := Contents();
          KeepsTransitive(old(Contents()), d0, d1);
          StartReports(old(study), d0.study, env, index);
          if !alive { return Died; }
          StartedProbes(d0.study, index);
          var ended := EndSlot(index, run);
          KeepsTransitive(old(Contents()), d1, Contents());
          KeepsSize(d0, d1);
          KeepsSize(d1, Contents());
          if ended.RaisedIn? { return Raised(ended.problem); }
          if ended.DiedIn? { return Died; }
          EndReports(old(study), d0.study, env, index, study.entries[index]);
          n := n + 1;
          if ended.Stop? {
            assert !ProbesPassed(study, n) || env(n - 1).ending.KeyboardInterrupt?;
            assert NothingLeft(Contents(), env);
            return Complete;
          }
        }
        index := index + 1;
      }
      StartedBefore(Contents(), n);
      assert NothingLeft(Contents(), env);
      end := Complete;
    }
  }

  /** A session that is done left no slot that it should have run: all were started, or the budget is spent, or
      a probe did not pass, or the user interrupted the last child. */
  ghost predicate NothingLeft(d: Directory, env: Children) {
    exists n: nat :: SoundAt(d, n) && !Running(d.study, n)
      && (n == |d.study.entries| || d.study.active >= d.study.plan.budget || !ProbesPassed(d.study, n)
          || (n > 0 && env(n - 1).ending.KeyboardInterrupt?))
  }

  lemma NothingReported(s: Study, env: Children)
    ensures SessionReports(s, s, env)
  {
  }

  /** What a crash left running was closed first, and stays closed like that. */
  lemma ClosedReports(d: Directory, d1: Directory, d2: Directory, env: Children)
    requires Closes(d, d1.study) && SessionReports(d1.study, d2.study, env) && (Keeps(d1, d2) || d2 == d1)
    ensures SessionReports(d.study, d2.study, env)
    ensures forall i | 0 <= i < |d.study.entries| && d.study.entries[i].status.InProgress? ::
      i < |d2.study.entries| && RecoveredBy(d, i + 1, d2.study.entries[i])
  {
    hide Reports, Entry.Consistent;
  }

  lemma StartReports(before: Study, s: Study, env: Children, n: nat)
    requires SessionReports(before, s, env) && n < |s.entries|
    ensures SessionReports(before, WithStarted(s, n), env)
  {
  }

  lemma EndReports(before: Study, s: Study, env: Children, n: nat, e: Entry)
    requires SessionReports(before, s, env) && n < |s.entries| && Reports(env(n), e)
    ensures SessionReports(before, WithEnded(WithStarted(s, n), n + 1, e), env)
  {
    hide Reports;
  }

  lemma StartedProbes(s: Study, n: nat)
    requires n < |s.entries| && ProbesPassed(s, n)
    ensures ProbesPassed(WithStarted(s, n), n)
  {
  }

  lemma KeepsSize(a: Directory, b: Directory)
    requires Keeps(a, b)
    ensures |a.study.entries| == |b.study.entries|
  {
  }

  lemma StartedBefore(d: Directory, n: nat)
    requires SoundAt(d, n)
    ensures forall i | 0 <= i < |d.study.entries| :: d.study.entries[i].status.Unstarted? <==> i >= n
  {
  }

  lemma KeepsSelf(d: Directory)
    ensures Keeps(d, d)
  {
  }

  function TroubleOf(ending: Ending): Option<Trouble> {
    match ending
    case Exited(code) => if code != 0 then Some(ExitStatus(code)) else None
    case OutOfTime => Some(BudgetExhausted)
    case KeyboardInterrupt => Some(UserInterrupted)
    case CannotStart => Some(OsError)
  }

  /** What a child of this session leaves behind. */
  function Leaves(run: ChildRun): Child { if run.ending.CannotStart? then Child(Missing, None) else run.leaves }

  /** The entry of a slot whose child ran like this: its time, exactly what it sealed, and what is told of it without a
      seal: the rows it left, and how it ended. */
  predicate Reports(run: ChildRun, e: Entry) {
    var seal := Leaves(run).seal;
    && e.elapsed == run.elapsed
    && e.result == (if seal.Seal? then Some(seal.result) else None)
    && e.status == (if seal.Seal? then EntryStatus.Completed
                    else if run.ending.OutOfTime? || run.ending.KeyboardInterrupt? then Interrupted else Failed)
    && e.inspection == (if seal.Seal? then None else Some(Leaves(run).rows))
    && match run.ending
       case Exited(code) => e.error == if code != 0 then Some(ExitStatus(code)) else if seal.Seal? then None else Some(NoSeal)
       case OutOfTime => e.error == Some(BudgetExhausted)
       case KeyboardInterrupt => e.error == Some(UserInterrupted)
       case CannotStart => e.error == Some(OsError)
  }

  /** Every slot that started and ended between these two studies tells what its child did. */
  ghost predicate SessionReports(before: Study, after: Study, env: Children) {
    |before.entries| == |after.entries|
    && forall i | 0 <= i < |after.entries| && before.entries[i].status.Unstarted? && Ended(after.entries[i]) :: Reports(env(i), after.entries[i])
  }

  /** A slot found running is closed, with the whole reservation, and with what its child sealed before the crash; the
      others are as they were. */
  ghost predicate Closes(before: Directory, after: Study) {
    |before.study.entries| == |after.entries|
    && forall i | 0 <= i < |after.entries| ::
         if before.study.entries[i].status.InProgress? then RecoveredBy(before, i + 1, after.entries[i])
         else after.entries[i] == before.study.entries[i]
  }

  /** How one turn of the loop ends: with the next slot, with no more slots, with an exception, or with a crash. */
  datatype SlotEnd = Next | Stop | RaisedIn(problem: Problem) | DiedIn

  predicate ProbesPassed(s: Study, n: nat)
    requires n <= |s.entries|
  {
    forall i | 0 <= i < n && s.entries[i].slot.participant.ProbeCell? :: s.entries[i].Passed()
  }

  /** A child that seals nothing, or the result of its own cell. */
  predicate Seals(run: ChildRun, s: Study, i: nat)
    requires i < |s.entries|
  {
    match Leaves(run).seal
    case Missing => true
    case Malformed => false
    case Seal(r) => r.slot == s.entries[i].slot && s.Fits(r)
  }

  lemma NewChild(d: Directory, n: nat)
    requires SoundAt(d, n) && n < |d.study.entries|
    ensures n !in d.spawned && n !in d.children
  {
  }

  lemma EndedEntry(d: Directory, n: nat, e: Entry)
    requires SoundAt(d, n) && Running(d.study, n) && e.slot == d.study.entries[n - 1].slot && e.elapsed >= 0.0
    requires Sealed(d.children, d.study, n - 1) == Success(e.result)
    requires !e.status.Unstarted? && !e.status.InProgress? && (e.status.Completed? <==> e.result.Some?)
    ensures Final(e, d.study.entries[n - 1]) && e.result == SealOf(d.children, n - 1)
  {
  }

  lemma SealsAreSaved(d: Directory, n: nat, run: ChildRun, e: Entry)
    requires SoundAt(d, n) && Running(d.study, n) && Final(e, d.study.entries[n - 1])
    requires e.result.Some? ==> Leaves(run).seal == Seal(e.result.value)
    ensures Seals(run, d.study, n - 1) ==> WithEnded(d.study, n, e).Consistent()
  {
    if Seals(run, d.study, n - 1) { EndConsistent(d.study, n, e); }
  }

  lemma FrontierFacts(d: Directory, n: nat)
    requires SoundAt(d, n)
    ensures forall i | 0 <= i < |d.study.entries| :: d.study.entries[i].status.InProgress? <==> i == n - 1 && Running(d.study, n)
    ensures n <= |d.study.entries|
  {
  }

  /** What a completed entry captured is what its child still shows. */
  lemma CapturedSeal(d: Directory, n: nat, i: nat)
    requires SoundAt(d, n) && i < |d.study.entries| && d.study.entries[i].status.Completed?
    ensures Sealed(d.children, d.study, i) == Success(d.study.entries[i].result)
  {
  }

  /** The study that closes the running slot after a crash. */
  ghost predicate Recovery(d: Directory, n: nat, next: Study) {
    Running(d.study, n) && exists e :: RecoveredBy(d, n, e) && next == WithEnded(d.study, n, e)
  }

  predicate RecoveredBy(d: Directory, n: nat, e: Entry)
    requires 0 < n <= |d.study.entries|
  {
    && Final(e, d.study.entries[n - 1]) && e.elapsed == d.study.reserved && e.result == SealOf(d.children, n - 1)
    && e.status == (if e.result.Some? then EntryStatus.Completed else Interrupted)
    && e.inspection == (if e.result.Some? then None else Some(FilesOf(d.children, n - 1).rows))
    && e.error == if e.result.Some? then None else Some(ControllerInterrupted)
  }

  lemma RecoveredEntry(d: Directory, n: nat, e: Entry)
    requires SoundAt(d, n) && Running(d.study, n) && e.slot == d.study.entries[n - 1].slot && e.elapsed == d.study.reserved
    requires Sealed(d.children, d.study, n - 1) == Success(e.result)
    requires e.status == if e.result.Some? then EntryStatus.Completed else Interrupted
    requires e.inspection == (if e.result.Some? then None else Some(FilesOf(d.children, n - 1).rows))
    requires e.error == if e.result.Some? then None else Some(ControllerInterrupted)
    ensures RecoveredBy(d, n, e)
  {
  }

  lemma RecoverySaved(d: Directory, n: nat, next: Study)
    requires SoundAt(d, n) && Recovery(d, n, next) && next.Consistent()
    ensures SoundAt(d.(study := next), n) && Keeps(d, d.(study := next)) && !Running(next, n) && next.active == next.plan.budget
    ensures Closes(d, next)
  {
    hide Study.Consistent, Entry.Consistent, Frontier, Gated, Spawns, Keeps;
    FrontierFacts(d, n);
    var e :| RecoveredBy(d, n, e) && next == WithEnded(d.study, n, e);
    if e.result.Some? { ResultFits(next, n - 1); }
    EndKeeps(d, n, e);
  }

  lemma ResultFits(s: Study, i: nat)
    requires s.Consistent() && i < |s.entries| && s.entries[i].result.Some?
    ensures s.Fits(s.entries[i].result.value)
  {
  }

  /** Sessions that survive so many durable steps each: whatever happens, the invariant holds, finished slots and
      spawned children stay as they are. */
  method Life(directory: StudyDirectory, history: seq<nat>, env: Children)
    requires Sound(directory.Contents())
    modifies directory
    ensures Sound(directory.Contents()) && Keeps(old(directory.Contents()), directory.Contents())
  {
    hide Sound, Keeps;
    KeepsSelf(directory.Contents());
    for i := 0 to |history|
      invariant Sound(directory.Contents()) && Keeps(old(directory.Contents()), directory.Contents())
    {
      ghost var d := directory.Contents();
      directory.fuel := history[i];
      var end := directory.Continue(env);
      KeepsTransitive(old(directory.Contents()), d, directory.Contents());
    }
  }

  // ---- What every reachable study keeps -----------------------------------------------------------

  /** Slots start in the order of the schedule, each child is spawned once, for a started slot, and nothing starts
      behind a probe that did not seal a complete scan. */
  lemma SlotsStartInOrderOnce(d: Directory)
    requires Sound(d)
    ensures forall i, j | 0 <= i < j < |d.study.entries| && !d.study.entries[j].status.Unstarted? ::
      && !d.study.entries[i].status.Unstarted? && !d.study.entries[i].status.InProgress?
      && (d.study.entries[i].slot.participant.ProbeCell? ==>
           var r := d.study.entries[i].result; r.Some? && r.value.evidence.ScanEvidence? && r.value.evidence.complete)
    ensures forall i, j | 0 <= i < j < |d.spawned| :: d.spawned[i] != d.spawned[j]
    ensures forall i | i in d.spawned :: i < |d.study.entries| && !d.study.entries[i].status.Unstarted?
  {
    var n: nat :| SoundAt(d, n);
  }

  /** No result is lost or made up: an ended slot holds exactly what its child sealed, and is completed exactly then. */
  lemma SealsAreKept(d: Directory)
    requires Sound(d)
    ensures forall i | 0 <= i < |d.study.entries| && Ended(d.study.entries[i]) ::
      && d.study.entries[i].result == SealOf(d.children, i)
      && (d.study.entries[i].status.Completed? <==> i in d.children && d.children[i].seal.Seal?)
  {
    var n: nat :| SoundAt(d, n);
  }

  /** The budget: all charged time is shown by an entry; while a child runs the whole rest is reserved; otherwise
      the time charged exceeds the budget by less than what the last started child took. */
  lemma BudgetIsKept(d: Directory)
    requires Sound(d)
    ensures d.study.active == Sum(d.study.entries)
    ensures (exists i | 0 <= i < |d.study.entries| :: d.study.entries[i].status.InProgress?) <==> d.study.reserved > 0.0
    ensures d.study.reserved > 0.0 ==> d.study.active + d.study.reserved == d.study.plan.budget
    ensures forall i | 0 <= i < |d.study.entries| && !d.study.entries[i].status.Unstarted?
        && (i + 1 < |d.study.entries| ==> d.study.entries[i + 1].status.Unstarted?) ::
      d.study.active < d.study.plan.budget + d.study.entries[i].elapsed
  {
    var n: nat :| SoundAt(d, n);
    if n > 0 {
      SumOfRest(d.study.entries, n);
      assert d.study.entries[..n][..n - 1] == d.study.entries[..n - 1];
    }
  }
}
