/** tasks.py: the task table and the ledger of keyed operations, changed by atomic transactions. */
module Tasks {
  import opened Wrappers
  import opened Records

  /** A `task_operations` row; its key is the operation id. */
  datatype Receipt = Receipt(title: string, taskId: string)

  datatype StoreError = BlankArgument | Conflict | Sqlite

  datatype Created = Created(task: Task, replayed: bool)

  /** The contents of one task database. `issued` counts the ids its creators have drawn. */
  datatype Tables = Tables(tasks: map<string, string>, ledger: map<string, Receipt>, issued: nat)
  {
    /** Every receipt names its own stored task with the receipt's title; ids and titles are not blank, and later
        ids are unused. */
    ghost predicate Valid() {
      && (forall o | o in ledger :: ledger[o].taskId in tasks && tasks[ledger[o].taskId] == ledger[o].title)
      && (forall o, p | o in ledger && p in ledger && ledger[o].taskId == ledger[p].taskId :: o == p)
      && (forall id | id in tasks :: |id| <= issued && !Blank(id) && !Blank(tasks[id]))
    }

    /** No task was written without a receipt, so ledger and tasks are in bijection. */
    ghost predicate AllKeyed() {
      tasks.Keys == TaskIds(ledger)
    }

    /** Nothing already stored is lost or altered. */
    ghost predicate Extends(before: Tables) {
      && (forall id | id in before.tasks :: id in tasks && tasks[id] == before.tasks[id])
      && (forall o | o in before.ledger :: o in ledger && ledger[o] == before.ledger[o])
      && before.issued <= issued
    }
  }

  // ---- What each transaction does ------------------------------------------

  function Create(t: Tables, title: string): (Result<Task, StoreError>, Tables) {
    if Blank(title) then (Failure(BlankArgument), t)
    else
      var id := Uuid(t.issued);
      (Success(Task(id, title)), t.(tasks := t.tasks[id := title], issued := t.issued + 1))
  }

  function CreateKeyed(t: Tables, title: string, operation: string): (Result<Created, StoreError>, Tables) {
    if Blank(title) || Blank(operation) then (Failure(BlankArgument), t)
    else if operation in t.ledger then
      if t.ledger[operation].title != title then (Failure(Conflict), t)
      else (Success(Created(Task(t.ledger[operation].taskId, title), true)), t)
    else
      var id := Uuid(t.issued);
      (Success(Created(Task(id, title), false)),
       Tables(t.tasks[id := title], t.ledger[operation := Receipt(title, id)], t.issued + 1))
  }

  // ---- What the transactions promise ---------------------------------------

  lemma TaskAdded(t: Tables, title: string)
    requires t.Valid() && !Blank(title)
    ensures var id := Uuid(t.issued);
      var t' := t.(tasks := t.tasks[id := title], issued := t.issued + 1);
      id !in t.tasks && t'.Valid() && t'.Extends(t) && (forall o | o in t.ledger :: t.ledger[o].taskId != id)
  {
    hide Blank;
    assert Uuid(t.issued) !in t.tasks;
  }

  lemma CreateKeeps(t: Tables, title: string)
    requires t.Valid()
    ensures var (r, t') := Create(t, title);
      && t'.Valid() && t'.Extends(t) && t'.ledger == t.ledger
      && (r.Success? <==> !Blank(title))
      && (r.Success? ==> r.value.title == title)
      && (r.Success? ==> r.value.id !in t.tasks && t'.tasks == t.tasks[r.value.id := title] && |t'.tasks| == |t.tasks| + 1)
  {
    hide Tables.Valid, Tables.Extends, Blank;
    ExtendsSelf(t);
    if !Blank(title) { TaskAdded(t, title); }
  }

  lemma ReceiptAdded(t: Tables, operation: string, row: Receipt, before: Tables)
    requires t.Valid() && t.Extends(before) && operation !in t.ledger
    requires row.taskId in t.tasks && t.tasks[row.taskId] == row.title && forall o | o in t.ledger :: t.ledger[o].taskId != row.taskId
    ensures t.(ledger := t.ledger[operation := row]).Valid() && t.(ledger := t.ledger[operation := row]).Extends(before)
  {
    hide Blank;
  }

  lemma KeyedCreateKeeps(t: Tables, title: string, operation: string)
    requires t.Valid()
    ensures var (r, t') := CreateKeyed(t, title, operation);
      && t'.Valid() && t'.Extends(t)
      && (r.Success? ==> operation in t'.ledger && t'.ledger[operation] == Receipt(title, r.value.task.id))
      && (r.Success? ==> r.value.task.title == title)
      && (forall o | o in t'.ledger && o !in t.ledger :: o == operation)
      && (r.Failure? || operation in t.ledger ==> t' == t)
      && (r == Failure(Conflict) ==> operation in t.ledger && t.ledger[operation].title != title)
      && (t.AllKeyed() ==> t'.AllKeyed())
  {
    hide Tables.Valid, Tables.Extends, Blank;
    var (r, t') := CreateKeyed(t, title, operation);
    ExtendsSelf(t);
    if r.Success? && !r.value.replayed {
      TaskAdded(t, title);
      ReceiptAdded(t.(tasks := t'.tasks, issued := t'.issued), operation, t'.ledger[operation], t);
      NewTaskId(t.ledger, operation, t'.ledger[operation]);
    }
  }

  lemma NewTaskId(ledger: map<string, Receipt>, operation: string, row: Receipt)
    requires operation !in ledger
    ensures TaskIds(ledger[operation := row]) == TaskIds(ledger) + {row.taskId}
  {
    var after := ledger[operation := row];
    forall id | id in TaskIds(ledger) + {row.taskId} ensures id in TaskIds(after) {
      if id == row.taskId {
        assert after[operation].taskId == id;
      } else {
        var o :| o in ledger && ledger[o].taskId == id;
        assert after[o].taskId == id;
      }
    }
  }

  /** Redelivering a committed operation, however much happened in between, replays the one task. */
  lemma KeyedCreateIsIdempotent(t: Tables, title: string, operation: string, later: Tables)
    requires t.Valid()
    requires var (r, t') := CreateKeyed(t, title, operation); r.Success? && later.Extends(t')
    ensures var (r, t') := CreateKeyed(t, title, operation);
      CreateKeyed(later, title, operation) == (Success(Created(r.value.task, true)), later)
    ensures forall other | other != title && !Blank(other) ::
      CreateKeyed(later, other, operation) == (Failure(Conflict), later)
  {
    KeyedCreateKeeps(t, title, operation);
  }

  ghost function TaskIds(ledger: map<string, Receipt>): set<string> {
    set o | o in ledger :: ledger[o].taskId
  }

  lemma {:induction false} DistinctTaskIds(ledger: map<string, Receipt>)
    requires forall o, p | o in ledger && p in ledger && ledger[o].taskId == ledger[p].taskId :: o == p
    ensures |TaskIds(ledger)| == |ledger|
  {
    if ledger == map[] {
      assert TaskIds(ledger) == {};
    } else {
      var o :| o in ledger;
      var rest := ledger - {o};
      assert rest.Keys == ledger.Keys - {o};
      assert |ledger| == |ledger.Keys| && |rest| == |rest.Keys|;
      DistinctTaskIds(rest);
      assert ledger == rest[o := ledger[o]];
      NewTaskId(rest, o, ledger[o]);
      assert ledger[o].taskId !in TaskIds(rest);
    }
  }

  /** The ledger never outnumbers the tasks, and counts them exactly when every task is keyed. */
  lemma LedgerCounts(t: Tables)
    requires t.Valid()
    ensures |t.ledger| <= |t.tasks|
    ensures |t.ledger| == |t.tasks| <==> t.AllKeyed()
  {
    DistinctTaskIds(t.ledger);
    var ids, all := TaskIds(t.ledger), t.tasks.Keys;
    assert ids <= all;
    SubsetSize(ids, all);
    assert |all| == |t.tasks|;
  }

  lemma SubsetSize<T>(a: set<T>, b: set<T>)
    requires a <= b
    ensures |a| <= |b| && (|a| == |b| ==> a == b)
  {
    assert b == a + (b - a);
    if |a| == |b| {
      assert |b - a| == 0;
    }
  }

  lemma ExtendsSelf(t: Tables)
    ensures t.Extends(t)
  {
  }

  lemma ExtendsTransitive(a: Tables, b: Tables, c: Tables)
    requires b.Extends(a) && c.Extends(b)
    ensures c.Extends(a)
  {
  }

  // ---- The store -----------------------------------------------------------

  class TaskStore {
    var tasks: map<string, string>
    var ledger: map<string, Receipt>
    var issued: nat

    ghost function Contents(): Tables reads this { Tables(tasks, ledger, issued) }

    constructor ()
      ensures Contents() == Tables(map[], map[], 0)
    {
      tasks, ledger, issued := map[], map[], 0;
    }

    /** `fails` says that SQLite raises during the transaction, which then rolls back. */
    method CreateTask(title: string, fails: bool) returns (r: Result<Task, StoreError>)
      modifies this
      ensures fails && !Blank(title) ==> r == Failure(Sqlite) && Contents() == old(Contents())
      ensures !fails || Blank(title) ==> (r, Contents()) == Create(old(Contents()), title)
    {
      if Blank(title) { return Failure(BlankArgument); }
      if fails { return Failure(Sqlite); }
      var task := Task(Uuid(issued), title);
      issued := issued + 1;
      tasks := tasks[task.id := task.title];
      return Success(task);
    }

    method CreateTaskIdempotent(title: string, operation: string, fails: bool) returns (r: Result<Created, StoreError>)
      modifies this
      ensures fails && !Blank(title) && !Blank(operation)
        ==> r == Failure(Sqlite) && Contents() == old(Contents())
      ensures !fails || Blank(title) || Blank(operation)
        ==> (r, Contents()) == CreateKeyed(old(Contents()), title, operation)
    {
      if Blank(title) || Blank(operation) { return Failure(BlankArgument); }
      if fails { return Failure(Sqlite); }
      if operation in ledger {
        var row := ledger[operation];
        if row.title != title { return Failure(Conflict); }
        return Success(Created(Task(row.taskId, row.title), true));
      }
      var task := Task(Uuid(issued), title);
      issued := issued + 1;
      tasks := tasks[task.id := task.title];
      ledger := ledger[operation := Receipt(title, task.id)];
      return Success(Created(task, false));
    }

    method GetTask(id: string, fails: bool) returns (r: Result<Option<Task>, StoreError>)
      ensures Blank(id) ==> r == Failure(BlankArgument)
      ensures !Blank(id) && fails ==> r == Failure(Sqlite)
      ensures !Blank(id) && !fails ==>
        r == Success(if id in tasks then Some(Task(id, tasks[id])) else None)
    {
      if Blank(id) { return Failure(BlankArgument); }
      if fails { return Failure(Sqlite); }
      return Success(if id in tasks then Some(Task(id, tasks[id])) else None);
    }
  }
}
