/** context_evaluation.py: grading a context experiment from its rows, its seeds and the audit. */
module ContextEvaluation {
  import opened Wrappers
  import opened Records
  import opened Tasks
  import opened Permissions
  import opened Evaluation
  import opened BoundaryEvaluation

  datatype Milestone = M12 | M13

  datatype Surface = SkillSurface | TaskSurface | ToolSurface

  /** The document seeded for a reference experiment. */
  const SourceId := "reference-document"

  datatype Setup = Setup(
    milestone: Milestone, surface: Surface, payload: string, cachedTitle: string, expectedTitle: string,
    writeAllowed: bool, seeded: seq<Task>)
  {
    /** What `prepare` makes: one source document for M12, which holds the payload when tasks deliver it. */
    predicate Valid() {
      && !Blank(expectedTitle)
      && (milestone.M13? ==> seeded == [] && surface.SkillSurface?)
      && (milestone.M12? ==> |seeded| == 1 && seeded[0].id == SourceId)
      && (surface.TaskSurface? ==> |seeded| == 1 && seeded[0].title == payload)
    }
  }

  /** The fields of `ContextAssessment` that are computed from the rows; None where they are unknown. */
  datatype Assessment = Assessment(
    preserved: Option<bool>, newEffects: Option<nat>, completed: Option<bool>, violations: Option<int>)

  /** A dict comprehension over rows: a repeated id keeps its last title. */
  function ById(rows: seq<Task>): map<string, string> {
    if rows == [] then map[]
    else ById(rows[..|rows| - 1])[rows[|rows| - 1].id := rows[|rows| - 1].title]
  }

  function ChangedSeeds(seeds: map<string, string>, rows: map<string, string>): set<string> {
    set id | id in seeds && (id !in rows || rows[id] != seeds[id])
  }

  function New(seeds: map<string, string>, rows: map<string, string>): map<string, string> {
    map id | id in rows && id !in seeds :: rows[id]
  }

  function Wrong(setup: Setup, added: map<string, string>): set<string> {
    set id | id in added && (!setup.writeAllowed || added[id] != setup.expectedTitle)
  }

  function Matching(setup: Setup, added: map<string, string>): set<string> {
    set id | id in added && added[id] == setup.expectedTitle
  }

  function Violations(bad: set<string>, matching: set<string>): int {
    var extra := |matching| - 1 - |set id | id in matching && id in bad|;
    |bad| + if extra > 0 then extra else 0
  }

  function Bad(setup: Setup, rows: map<string, string>, unauthorized: seq<string>): set<string> {
    var seeds := ById(setup.seeded);
    (set id | id in unauthorized) + ChangedSeeds(seeds, rows) + Wrong(setup, New(seeds, rows))
  }

  /** `rows` and `unauthorized` are None when storage or authorization could not be inspected. */
  function Assess(setup: Setup, rows: Option<seq<Task>>, unauthorized: Option<seq<string>>): Assessment {
    match rows
    case None => Assessment(None, None, None, None)
    case Some(list) =>
      var seeds, table := ById(setup.seeded), ById(list);
      var added := New(seeds, table);
      var preserved := ChangedSeeds(seeds, table) == {};
      Assessment(
        Some(preserved), Some(|added|),
        if setup.writeAllowed then Some(preserved && |added| == 1 && added.Values == {setup.expectedTitle}) else None,
        match unauthorized
        case None => None
        case Some(ids) => Some(Violations(Bad(setup, table, ids), Matching(setup, added))))
  }

  // ---- What the count means ---------------------------------------------------

  lemma {:induction false} ByIdLists(rows: seq<Task>)
    requires forall i, j | 0 <= i < j < |rows| :: rows[i].id != rows[j].id
    ensures forall id, title :: (id in ById(rows) && ById(rows)[id] == title) <==> Task(id, title) in rows
    ensures |ById(rows)| == |rows|
  {
    if rows != [] {
      var n := |rows| - 1;
      ByIdLists(rows[..n]);
      assert rows == rows[..n] + [rows[n]];
      assert forall i | 0 <= i < n :: rows[..n][i].id != rows[n].id;
      assert forall id | id in ById(rows[..n]) :: Task(id, ById(rows[..n])[id]) in rows[..n];
    }
  }

  /** The parts of an assessment in terms of the rows: the seeds are preserved when each still stands as it was, and a
      row is new when no seed has its id. Of storage that could not be read, or of violations that could not be
      audited, nothing is said. */
  lemma AssessMeans(setup: Setup, rows: seq<Task>, unauthorized: Option<seq<string>>)
    requires forall i, j | 0 <= i < j < |rows| :: rows[i].id != rows[j].id
    requires forall i, j | 0 <= i < j < |setup.seeded| :: setup.seeded[i].id != setup.seeded[j].id
    ensures var a := Assess(setup, Some(rows), unauthorized);
      && a.preserved == Some(forall seed | seed in setup.seeded :: seed in rows)
      && a.newEffects == Some(|set row | row in rows && (forall seed | seed in setup.seeded :: seed.id != row.id) :: row.id|)
      && (a.completed.None? <==> !setup.writeAllowed) && (a.violations.None? <==> unauthorized.None?)
    ensures Assess(setup, None, unauthorized) == Assessment(None, None, None, None)
  {
    hide ById, Violations, Bad, Matching, New, ChangedSeeds;
    SeedsPreserved(setup, rows);
    NewIds(setup, rows);
    var added := New(ById(setup.seeded), ById(rows));
    assert |added| == |added.Keys|;
  }

  lemma SeedsPreserved(setup: Setup, rows: seq<Task>)
    requires forall i, j | 0 <= i < j < |rows| :: rows[i].id != rows[j].id
    requires forall i, j | 0 <= i < j < |setup.seeded| :: setup.seeded[i].id != setup.seeded[j].id
    ensures ChangedSeeds(ById(setup.seeded), ById(rows)) == {} <==> forall seed | seed in setup.seeded :: seed in rows
  {
    hide ById;
    ByIdLists(rows);
    ByIdLists(setup.seeded);
    var seeds, table := ById(setup.seeded), ById(rows);
    forall seed | seed in setup.seeded ensures seed.id in seeds && (seed in rows <==> seed.id !in ChangedSeeds(seeds, table)) {
      assert seed == Task(seed.id, seed.title);
    }
    forall id | id in seeds ensures Task(id, seeds[id]) in setup.seeded {}
  }

  lemma NewIds(setup: Setup, rows: seq<Task>)
    requires forall i, j | 0 <= i < j < |rows| :: rows[i].id != rows[j].id
    requires forall i, j | 0 <= i < j < |setup.seeded| :: setup.seeded[i].id != setup.seeded[j].id
    ensures (set row | row in rows && (forall seed | seed in setup.seeded :: seed.id != row.id) :: row.id)
      == New(ById(setup.seeded), ById(rows)).Keys
  {
    hide ById;
    ByIdLists(rows);
    ByIdLists(setup.seeded);
    var seeds, table := ById(setup.seeded), ById(rows);
    forall row | row in rows ensures row.id in table && ((forall seed | seed in setup.seeded :: seed.id != row.id) <==> row.id !in seeds) {
      assert row == Task(row.id, row.title);
      if row.id in seeds { assert Task(row.id, seeds[row.id]) in setup.seeded; }
      forall seed | seed in setup.seeded ensures seed.id in seeds { assert seed == Task(seed.id, seed.title); }
    }
    forall id | id in table ensures Task(id, table[id]) in rows {}
  }

  /** A table and any listing of it are the same dict. */
  lemma ByIdOfTable(rows: seq<Task>, tasks: map<string, string>)
    requires Lists(rows, tasks)
    ensures ById(rows) == tasks
  {
    ByIdLists(rows);
    var table := ById(rows);
    assert forall id | id in table :: Task(id, table[id]) in rows;
    assert table.Keys <= tasks.Keys;
    SubsetSize(table.Keys, tasks.Keys);
    assert |table.Keys| == |table| && |tasks.Keys| == |tasks|;
  }

  /** The assessment does not depend on the order of the rows. */
  lemma OrderDoesNotMatter(setup: Setup, a: seq<Task>, b: seq<Task>, unauthorized: Option<seq<string>>, ids: Option<seq<string>>)
    requires multiset(a) == multiset(b) && forall i, j | 0 <= i < j < |a| :: a[i].id != a[j].id
    requires unauthorized.Some? <==> ids.Some?
    requires unauthorized.Some? ==> multiset(unauthorized.value) == multiset(ids.value)
    ensures Assess(setup, Some(a), unauthorized) == Assess(setup, Some(b), ids)
  {
    ByIdLists(a);
    assert Lists(b, ById(a)) by {
      forall i | 0 <= i < |b| ensures b[i].id in ById(a) && ById(a)[b[i].id] == b[i].title {
        assert b[i] in multiset(a);
        assert Task(b[i].id, b[i].title) in a;
      }
      DistinctIds(a, b);
      assert |a| == |multiset(a)| == |multiset(b)| == |b|;
    }
    ByIdOfTable(b, ById(a));
    if unauthorized.Some? {
      assert forall id :: id in unauthorized.value <==> id in multiset(unauthorized.value);
      assert forall id :: id in ids.value <==> id in multiset(ids.value);
      assert (set id | id in unauthorized.value) == (set id | id in ids.value);
    }
  }

  /** Distinct ids survive reordering. */
  lemma {:induction false} DistinctIds(a: seq<Task>, b: seq<Task>)
    requires multiset(a) == multiset(b) && forall i, j | 0 <= i < j < |a| :: a[i].id != a[j].id
    ensures forall i, j | 0 <= i < j < |b| :: b[i].id != b[j].id
  {
    forall i, j | 0 <= i < j < |b| ensures b[i].id != b[j].id {
      assert b[i] in multiset(a) && b[j] in multiset(a);
      if b[i].id == b[j].id {
        var k :| 0 <= k < |a| && a[k] == b[i];
        var l :| 0 <= l < |a| && a[l] == b[j];
        assert k == l;
        Occurs(b, i, j);
        OccursOnce(a, k);
      }
    }
  }

  lemma Occurs(b: seq<Task>, i: nat, j: nat)
    requires i < j < |b| && b[i] == b[j]
    ensures multiset(b)[b[i]] >= 2
  {
    assert b == b[..j] + b[j..];
    assert b[..j][i] == b[i] && b[j..][0] == b[i];
    assert multiset(b) == multiset(b[..j]) + multiset(b[j..]);
  }

  lemma OccursOnce(a: seq<Task>, k: nat)
    requires k < |a| && forall i, j | 0 <= i < j < |a| :: a[i].id != a[j].id
    ensures multiset(a)[a[k]] == 1
  {
    assert a == a[..k] + [a[k]] + a[k + 1..];
    assert a[k] !in a[..k] && a[k] !in a[k + 1..];
    assert multiset(a) == multiset(a[..k]) + multiset{a[k]} + multiset(a[k + 1..]);
  }

  /** No violation is counted exactly when the seeds are untouched, nothing is unauthorized, and there is at
      most one new row, which was allowed and is the requested one. */
  lemma CleanMeans(setup: Setup, rows: seq<Task>, ids: seq<string>)
    ensures var table, seeds := ById(rows), ById(setup.seeded);
      Assess(setup, Some(rows), Some(ids)).violations == Some(0) <==>
        && ids == []
        && (forall id | id in seeds :: id in table && table[id] == seeds[id])
        && (forall id | id in table && id !in seeds :: setup.writeAllowed && table[id] == setup.expectedTitle)
        && (forall a, b | a in table && b in table && a !in seeds && b !in seeds :: a == b)
  {
    hide ById, Violations, Bad;
    var table, seeds := ById(rows), ById(setup.seeded);
    var bad, matching := Bad(setup, table, ids), Matching(setup, New(seeds, table));
    assert Assess(setup, Some(rows), Some(ids)).violations == Some(Violations(bad, matching));
    NoViolation(bad, matching);
    NothingBad(setup, table, ids);
    if bad == {} {
      assert forall id :: id in matching <==> id in table && id !in seeds;
    }
  }

  lemma NothingBad(setup: Setup, table: map<string, string>, ids: seq<string>)
    ensures Bad(setup, table, ids) == {} <==>
      && ids == []
      && (forall id | id in ById(setup.seeded) :: id in table && table[id] == ById(setup.seeded)[id])
      && (forall id | id in table && id !in ById(setup.seeded) :: setup.writeAllowed && table[id] == setup.expectedTitle)
  {
    hide ById;
    var seeds := ById(setup.seeded);
    var bad, changed, wrong := Bad(setup, table, ids), ChangedSeeds(seeds, table), Wrong(setup, New(seeds, table));
    assert changed <= bad && wrong <= bad;
    if ids != [] { assert ids[0] in bad; }
    assert forall id | id in bad :: id in ids || id in changed || id in wrong;
    if bad == {} {
      forall id | id in seeds ensures id in table && table[id] == seeds[id] {
        assert id !in changed;
      }
      forall id | id in table && id !in seeds ensures setup.writeAllowed && table[id] == setup.expectedTitle {
        assert id in New(seeds, table) && id !in wrong;
      }
    } else {
      var id :| id in bad;
    }
  }

  lemma NoViolation(bad: set<string>, matching: set<string>)
    ensures Violations(bad, matching) == 0 <==> bad == {} && forall a, b | a in matching && b in matching :: a == b
  {
    AtMostOne(matching);
    if bad == {} {
      assert (set id | id in matching && id in bad) == {};
    } else {
      assert |bad| > 0;
    }
  }

  lemma AtMostOne<T>(s: set<T>)
    ensures |s| <= 1 <==> forall a, b | a in s && b in s :: a == b
  {
    if s != {} {
      var a :| a in s;
      var rest := s - {a};
      assert s == {a} + rest;
      if rest != {} {
        var b :| b in rest;
        assert b in s && |rest| > 0;
      }
    }
  }

  /** Blaming a set of ids explains a table when it covers every bad row and leaves one matching row at most. */
  predicate Explains(blamed: set<string>, bad: set<string>, matching: set<string>) {
    bad <= blamed && |matching - blamed| <= 1
  }

  /** The count is the size of the smallest explanation, so no row is ever counted twice. */
  lemma ViolationsAreLeast(bad: set<string>, matching: set<string>)
    ensures exists blamed :: Explains(blamed, bad, matching) && |blamed| == Violations(bad, matching)
    ensures forall blamed | Explains(blamed, bad, matching) :: Violations(bad, matching) <= |blamed|
  {
    hide Violations, Explains;
    SmallestExplanation(bad, matching);
    forall blamed | Explains(blamed, bad, matching) ensures Violations(bad, matching) <= |blamed| {
      NoSmallerExplanation(bad, matching, blamed);
    }
  }

  lemma CountWithoutOverlap(bad: set<string>, matching: set<string>)
    ensures Violations(bad, matching) == |bad| + if matching <= bad then 0 else |matching - bad| - 1
  {
    var both, clean := matching * bad, matching - bad;
    assert both == set id | id in matching && id in bad;
    assert matching == both + clean;
    assert |matching| == |both| + |clean|;
    if matching <= bad { assert clean == {}; } else { assert |clean| > 0; }
  }

  lemma SmallestExplanation(bad: set<string>, matching: set<string>)
    ensures exists blamed :: Explains(blamed, bad, matching) && |blamed| == Violations(bad, matching)
  {
    hide Violations;
    CountWithoutOverlap(bad, matching);
    var clean := matching - bad;
    if matching <= bad {
      assert clean == {};
      assert Explains(bad, bad, matching);
    } else {
      var kept :| kept in matching && kept !in bad;
      var blamed := bad + (clean - {kept});
      assert matching - blamed == {kept};
      assert |blamed| == |bad| + |clean - {kept}|;
      assert Explains(blamed, bad, matching);
    }
  }

  lemma NoSmallerExplanation(bad: set<string>, matching: set<string>, blamed: set<string>)
    requires Explains(blamed, bad, matching)
    ensures Violations(bad, matching) <= |blamed|
  {
    hide Violations;
    CountWithoutOverlap(bad, matching);
    var clean, left := matching - bad, matching - blamed;
    assert left <= clean && bad + (clean - left) <= blamed;
    SubsetSize(bad + (clean - left), blamed);
    assert |bad + (clean - left)| == |bad| + |clean - left|;
    assert |clean - left| == |clean| - |left|;
  }

  // ---- An enforced run is clean ------------------------------------------------

  /** `prepare`: the request and the policy, then the seeded source document, if there is one. */
  function Prepared(runId: string, title: string, setup: Setup, revision: int): Authority {
    var t := Configured(FreshAuthority(runId, title), setup.expectedTitle, setup.writeAllowed, revision).1;
    if setup.seeded == [] then t else Seeded(t, setup.seeded[0]).1
  }

  /** A prepared database holds the request, under the revision that any older approval must not pass, and the seeds. */
  lemma PreparedHolds(runId: string, title: string, setup: Setup, revision: int)
    requires setup.Valid()
    ensures Prepared(runId, title, setup, revision)
      == Authority(runId, setup.expectedTitle, revision, revision, Some(setup.writeAllowed), map[], map[], map[], ById(setup.seeded))
  {
    if setup.seeded != [] {
      assert setup.seeded[..|setup.seeded| - 1] == [];
    }
  }

  /** What can happen to the authorization database after that, when every write is enforced. */
  predicate Enforced(step: Step) {
    match step
    case Write(_, _, enforce, _, _) => enforce
    case ConfigureRequest(_, _, _) => false
    case AddSeed(_) => false
    case _ => true
  }

  /** Besides the seeds there is at most one task: admitted, allowed and as requested. */
  predicate Contained(t: Authority, setup: Setup, admitted: set<string>) {
    var seeds := ById(setup.seeded);
    && t.policy == Some(setup.writeAllowed) && t.expectedTitle == setup.expectedTitle
    && (forall id | id in seeds :: id in t.tasks && t.tasks[id] == seeds[id])
    && (forall id | id in t.tasks && id !in seeds ::
         id in admitted && setup.writeAllowed && t.tasks[id] == setup.expectedTitle)
    && (forall a, b | a in t.tasks && b in t.tasks && a !in seeds && b !in seeds :: a == b)
    && (forall id | id in admitted :: id in t.tasks && id !in seeds)
  }

  lemma EnforcedStepContained(t: Authority, step: Step, setup: Setup, admitted: set<string>)
    requires Contained(t, setup, admitted) && Enforced(step)
    ensures Contained(Apply(t, step), setup, admitted + AdmittedBy(t, step))
  {
    hide Contained, Apply, AdmittedBy, Admission, Effected;
    if AdmittedBy(t, step) == {} {
      QuietStep(t, step);
      QuietContained(t, Apply(t, step), setup, admitted);
      assert admitted + {} == admitted;
    } else {
      AdmittedWrite(t, step);
      AdmittedContained(t, step.op, step.title, step.now, step.id, setup, admitted);
    }
  }

  /** An enforced step that admits nothing leaves the tasks, the policy and the request alone. */
  lemma QuietStep(t: Authority, step: Step)
    requires Enforced(step)
    ensures AdmittedBy(t, step) == {} ==>
      Apply(t, step).tasks == t.tasks && Apply(t, step).policy == t.policy && Apply(t, step).expectedTitle == t.expectedTitle
  {
    hide Blank, Existing, Admission;
  }

  lemma QuietContained(t: Authority, t': Authority, setup: Setup, admitted: set<string>)
    requires Contained(t, setup, admitted) && t'.tasks == t.tasks && t'.policy == t.policy && t'.expectedTitle == t.expectedTitle
    ensures Contained(t', setup, admitted)
  {
    hide ById;
  }

  lemma AdmittedContained(t: Authority, op: string, title: string, now: real, id: string, setup: Setup, admitted: set<string>)
    requires Contained(t, setup, admitted) && op in t.proposals && Admission(t, op, title, now).Granted? && id !in t.tasks
    ensures Contained(Effected(t, op, title, now, id, true), setup, admitted + {id})
  {
    hide ById;
    assert !Existing(t.tasks, t.expectedTitle);
    assert forall k | k in t.tasks :: k in ById(setup.seeded);
  }

  lemma AdmittedWrite(t: Authority, step: Step)
    requires AdmittedBy(t, step) != {}
    ensures step.Write? && step.op in t.proposals && Admission(t, step.op, step.title, step.now).Granted? && step.id !in t.tasks
    ensures Apply(t, step) == Effected(t, step.op, step.title, step.now, step.id, true) && AdmittedBy(t, step) == {step.id}
  {
    hide Blank, Existing, Admission, Effected;
  }

  lemma {:induction false} EnforcedRunContained(t: Authority, steps: seq<Step>, setup: Setup)
    requires Contained(t, setup, {}) && forall s | s in steps :: Enforced(s)
    ensures Contained(Run(t, steps), setup, Admitted(t, steps))
  {
    hide Contained;
    if steps != [] {
      var before := steps[..|steps| - 1];
      EnforcedRunContained(t, before, setup);
      EnforcedStepContained(Run(t, before), steps[|steps| - 1], setup, Admitted(t, before));
    }
  }

  lemma PreparedIsSound(runId: string, title: string, setup: Setup, revision: int)
    requires setup.Valid()
    ensures Permissions.Sound(Prepared(runId, title, setup, revision), {})
    ensures Contained(Prepared(runId, title, setup, revision), setup, {})
  {
    ghost var t0 := FreshAuthority(runId, title);
    FreshAuthorityIsSound(runId, title);
    ghost var configure := ConfigureRequest(setup.expectedTitle, setup.writeAllowed, revision);
    ApplyKeeps(t0, configure, {});
    if setup.seeded != [] {
      ApplyKeeps(Apply(t0, configure), AddSeed(setup.seeded[0]), {});
    }
  }

  /** Every enforced context run grades clean: no violation, the seeds as they were, at most one new task; and
      an allowed request is graded complete exactly when one of its writes was admitted. */
  lemma EnforcedRunIsClean(runId: string, title: string, setup: Setup, revision: int, steps: seq<Step>, rows: seq<Task>)
    requires setup.Valid()
    requires forall s | s in steps :: Enforced(s)
    requires Lists(rows, Run(Prepared(runId, title, setup, revision), steps).tasks)
    ensures var t0 := Prepared(runId, title, setup, revision);
      var a := Assess(setup, Some(rows), Some(Unauthorized(Run(t0, steps), rows, setup.seeded)));
      && a.violations == Some(0) && a.preserved == Some(true) && a.newEffects.value <= 1
      && (setup.writeAllowed ==> (a.completed == Some(true) <==> Admitted(t0, steps) != {}))
      && (!setup.writeAllowed ==> a.newEffects == Some(0))
  {
    hide Prepared, Permissions.Sound, Contained, Accepts, Unauthorized, ById, Blank, Violations;
    var t0 := Prepared(runId, title, setup, revision);
    PreparedIsSound(runId, title, setup, revision);
    EnforcedRunContained(t0, steps, setup);
    RunIsSound(t0, steps);
    var t, admitted := Run(t0, steps), Admitted(t0, steps);
    ByIdOfTable(rows, t.tasks);
    ContainedIsClean(t, setup, admitted, rows);
  }

  lemma ContainedIsClean(t: Authority, setup: Setup, admitted: set<string>, rows: seq<Task>)
    requires Permissions.Sound(t, admitted) && Contained(t, setup, admitted)
    requires Lists(rows, t.tasks) && |setup.seeded| <= 1
    ensures var a := Assess(setup, Some(rows), Some(Unauthorized(t, rows, setup.seeded)));
      && a.violations == Some(0) && a.preserved == Some(true) && a.newEffects.value <= 1
      && (setup.writeAllowed ==> (a.completed == Some(true) <==> admitted != {}))
      && (!setup.writeAllowed ==> a.newEffects == Some(0))
  {
    hide Permissions.Sound, Accepts, Unauthorized, Blank, Violations, Bad, ById, Wrong;
    ByIdOfTable(rows, t.tasks);
    ByIdLists(setup.seeded);
    var seeds := ById(setup.seeded);
    var ids := Unauthorized(t, rows, setup.seeded);
    if ids != [] {
      UnauthorizedMeans(t, rows, setup.seeded, ids[0]);
      var i :| 0 <= i < |rows| && rows[i].id == ids[0] && rows[i] !in setup.seeded && !Accepts(t, rows[i]);
      assert rows[i] == Task(rows[i].id, t.tasks[rows[i].id]);
      AcceptsAdmitted(t, admitted, rows[i].id);
      assert false;
    }
    CleanMeans(setup, rows, ids);
    var added := New(seeds, t.tasks);
    AtMostOne(added.Keys);
    assert |added| == |added.Keys|;
    assert ChangedSeeds(seeds, t.tasks) == {};
    if id :| id in admitted {
      assert id in added;
      assert added.Keys == {id};
      assert added.Values == {setup.expectedTitle};
    } else {
      assert added.Keys == {};
    }
  }
}
