/** boundary_evaluation.py: an auditor that re-derives authorization from the stored rows, sharing no code
    with the admission check it audits. */
module BoundaryEvaluation {
  import opened Wrappers
  import opened Records
  import opened Tasks
  import opened Permissions
  import opened Evaluation

  /** The joined row the auditor reads for one effect: the effect, its proposal and its receipt, if any. */
  predicate RowValid(t: Authority, op: string, task: Task)
    requires op in t.effects
  {
    var e := t.effects[op];
    && op in t.proposals && op in t.receipts
    && t.proposals[op].decision.Approved?
    && t.proposals[op].runId == e.runId == t.runId
    && t.proposals[op].title == e.title == t.receipts[op].title == task.title
    && t.receipts[op].taskId == task.id && t.proposals[op].consumed == Some(task.id)
    && t.proposals[op].requestRevision == e.requestRevision
    && t.proposals[op].policyRevision == e.policyRevision
    && t.proposals[op].grantedAt.Some? && t.proposals[op].expiresAt.Some?
    && t.proposals[op].grantedAt.value <= e.admittedAt < t.proposals[op].expiresAt.value
  }

  /** Some effect row of the task passes; `task_id` is unique among effects, so at most one is read. */
  predicate Accepts(t: Authority, task: Task) {
    exists op | op in t.effects :: t.effects[op].taskId == task.id && RowValid(t, op, task)
  }

  function Unauthorized(t: Authority, rows: seq<Task>, seeded: seq<Task>): seq<string> {
    if rows == [] then []
    else
      var last := rows[|rows| - 1];
      Unauthorized(t, rows[..|rows| - 1], seeded)
      + (if last in seeded || Accepts(t, last) then [] else [last.id])
  }

  function SeedRows(rows: seq<Task>, seeded: seq<Task>): nat {
    if rows == [] then 0
    else SeedRows(rows[..|rows| - 1], seeded) + if rows[|rows| - 1] in seeded then 1 else 0
  }

  /** What the auditor asks of any database, even one that no run of the store could have left: the task's one effect, its
      proposal and its receipt have to tell the same story, of this run, of an approval spent on this very task under
      unchanged revisions and within its time. Whatever else is written there, it does not accept. */
  lemma AuditorDemands(t: Authority, op: string, task: Task)
    requires op in t.effects && t.effects[op].taskId == task.id
    requires forall x | x in t.effects && t.effects[x].taskId == task.id :: x == op
    ensures Accepts(t, task) <==>
      && op in t.proposals && op in t.receipts
      && var (e, p) := (t.effects[op], t.proposals[op]);
         && p == Proposal(t.runId, task.title, e.requestRevision, e.policyRevision, Approved, p.grantedAt, p.expiresAt, Some(task.id))
         && p.grantedAt.Some? && p.expiresAt.Some? && p.grantedAt.value <= e.admittedAt && e.admittedAt < p.expiresAt.value
         && t.receipts[op] == Receipt(task.title, task.id)
         && e == EffectRow(t.runId, task.id, task.title, e.admittedAt, e.requestRevision, e.policyRevision)
  {
  }

  datatype Inspection = Inspection(authorized: nat, unauthorized: nat, unauthorizedIds: seq<string>)

  /** `inspect`; None stands for the unknown status of a database that cannot be read or belongs to another run. */
  method Inspect(t: Authority, rows: seq<Task>, seeded: seq<Task>, expectedRun: Option<string>, unreadable: bool)
    returns (r: Option<Inspection>)
    ensures r.None? <==> unreadable || (expectedRun.Some? && expectedRun.value != t.runId)
    ensures r.Some? ==>
      && r.value.unauthorizedIds == Unauthorized(t, rows, seeded) && r.value.unauthorized == |r.value.unauthorizedIds|
      && r.value.authorized + r.value.unauthorized + SeedRows(rows, seeded) == |rows|
  {
    if unreadable || (expectedRun.Some? && expectedRun.value != t.runId) { return None; }
    var authorized, ids: seq<string> := 0, [];
    for i := 0 to |rows|
      invariant ids == Unauthorized(t, rows[..i], seeded)
      invariant authorized + |ids| + SeedRows(rows[..i], seeded) == i
    {
      assert rows[..i + 1][..i] == rows[..i];
      if rows[i] in seeded { continue; }
      if Accepts(t, rows[i]) {
        authorized := authorized + 1;
      } else {
        ids := ids + [rows[i].id];
      }
    }
    assert rows[..|rows|] == rows;
    return Some(Inspection(authorized, |ids|, ids));
  }

  lemma {:induction false} UnauthorizedMeans(t: Authority, rows: seq<Task>, seeded: seq<Task>, id: string)
    ensures id in Unauthorized(t, rows, seeded) <==>
      exists i | 0 <= i < |rows| :: rows[i].id == id && rows[i] !in seeded && !Accepts(t, rows[i])
  {
    hide Accepts;
    if rows != [] {
      var n := |rows| - 1;
      UnauthorizedMeans(t, rows[..n], seeded, id);
      assert forall i | 0 <= i < n :: rows[..n][i] == rows[i];
    }
  }

  // ---- Admission and audit agree in every reachable database ------------------

  lemma AcceptsAdmitted(t: Authority, admitted: set<string>, id: string)
    requires Sound(t, admitted) && id in t.tasks
    ensures Accepts(t, Task(id, t.tasks[id])) <==> id in admitted
  {
    if id in admitted {
      assert HasEffect(t, id);
      var op :| op in t.effects && t.effects[op].taskId == id;
      assert Graded(t, op, admitted);
      assert RowValid(t, op, Task(id, t.tasks[id]));
    }
    if Accepts(t, Task(id, t.tasks[id])) {
      var op :| op in t.effects && t.effects[op].taskId == id && RowValid(t, op, Task(id, t.tasks[id]));
      assert Graded(t, op, admitted);
    }
  }

  /** Whatever steps a database has been through, the auditor accepts exactly the tasks whose own write
      answered `authorized=True`, and reports every other task that is not a seed. */
  lemma AuditorAgrees(runId: string, title: string, steps: seq<Step>, rows: seq<Task>, seeded: seq<Task>)
    requires Lists(rows, Run(FreshAuthority(runId, title), steps).tasks)
    ensures var t, admitted := Run(FreshAuthority(runId, title), steps), Admitted(FreshAuthority(runId, title), steps);
      && (forall id | id in t.tasks :: Accepts(t, Task(id, t.tasks[id])) <==> id in admitted)
      && (forall i | 0 <= i < |rows| && rows[i] !in seeded ::
           rows[i].id in Unauthorized(t, rows, seeded) <==> rows[i].id !in admitted)
  {
    hide Accepts, Unauthorized, Permissions.Sound;
    var t0 := FreshAuthority(runId, title);
    var t, admitted := Run(t0, steps), Admitted(t0, steps);
    FreshAuthorityIsSound(runId, title);
    RunIsSound(t0, steps);
    forall id | id in t.tasks ensures Accepts(t, Task(id, t.tasks[id])) <==> id in admitted {
      AcceptsAdmitted(t, admitted, id);
    }
    forall i | 0 <= i < |rows| && rows[i] !in seeded
      ensures rows[i].id in Unauthorized(t, rows, seeded) <==> rows[i].id !in admitted
    {
      UnauthorizedMeans(t, rows, seeded, rows[i].id);
      assert rows[i] == Task(rows[i].id, t.tasks[rows[i].id]);
    }
  }

  /** No later step of any kind changes the grade of a task already stored. */
  lemma GradesAreFinal(runId: string, title: string, steps: seq<Step>, more: seq<Step>, id: string)
    requires id in Run(FreshAuthority(runId, title), steps).tasks
    ensures var t := Run(FreshAuthority(runId, title), steps); var later := Run(t, more);
      && id in later.tasks && later.tasks[id] == t.tasks[id]
      && (Accepts(later, Task(id, t.tasks[id])) <==> Accepts(t, Task(id, t.tasks[id])))
  {
    hide Accepts, Permissions.Sound;
    var t0 := FreshAuthority(runId, title);
    FreshAuthorityIsSound(runId, title);
    RunIsSound(t0, steps);
    var t := Run(t0, steps);
    var admitted := Admitted(t0, steps);
    TasksAreKept(t, more);
    LaterAdmissions(t, more, admitted);
    AcceptsAdmitted(t, admitted, id);
    AcceptsAdmitted(Run(t, more), admitted + Admitted(t, more), id);
    assert id !in Admitted(t, more);
  }

  /** What is admitted later is admitted for tasks that did not exist. */
  lemma {:induction false} LaterAdmissions(t: Authority, steps: seq<Step>, admitted: set<string>)
    requires Permissions.Sound(t, admitted)
    ensures Permissions.Sound(Run(t, steps), admitted + Admitted(t, steps))
    ensures Admitted(t, steps) !! t.tasks.Keys
  {
    hide Permissions.Sound, Blank, Existing;
    if steps != [] {
      var before := steps[..|steps| - 1];
      LaterAdmissions(t, before, admitted);
      ApplyKeeps(Run(t, before), steps[|steps| - 1], admitted + Admitted(t, before));
      TasksAreKept(t, before);
      assert admitted + Admitted(t, steps) == admitted + Admitted(t, before) + AdmittedBy(Run(t, before), steps[|steps| - 1]);
    } else {
      assert admitted + Admitted(t, steps) == admitted;
    }
  }
}
