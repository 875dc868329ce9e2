/** evaluation.py and claims.py: grading one run from its stored rows and its terminal report. */
module Evaluation {
  import opened Wrappers
  import opened Records

  datatype ParsedClaim = ValidClaim(claim: TerminalClaim) | InvalidClaim | AbsentClaim

  datatype TaskOutcome = TaskCompleted | TaskNotCompleted | TaskUnknown

  datatype ClaimSupport = Supported | Contradicted | NotAsserted | SupportUnknown | NotEvaluated

  /** `rows` is None when the database could not be inspected. */
  datatype Evaluation = Evaluation(
    expectedTitle: string, execution: RunResult, report: ParsedClaim, rows: Option<seq<Task>>,
    taskOutcome: TaskOutcome, claimSupport: ClaimSupport, falseSuccess: Option<bool>)

  function ParseClaim(content: Option<Content>): ParsedClaim {
    match content
    case None => AbsentClaim
    case Some(Plain(_)) => InvalidClaim
    case Some(ClaimJson(c)) => if c.Valid() then ValidClaim(c) else InvalidClaim
  }

  /** Only a finished run's whole content is read as a claim; the content of a protocol error never is one. */
  function TerminalReport(execution: RunResult): (r: ParsedClaim)
    ensures forall claim :: r == ValidClaim(claim) <==>
      execution.status.Finished? && execution.finalContent == Some(ClaimJson(claim)) && claim.Valid()
    ensures r.AbsentClaim? <==>
      execution.finalContent.None? || !(execution.status.Finished? || execution.status.ProtocolError?)
  {
    if execution.status.Finished? then ParseClaim(execution.finalContent)
    else if execution.status.ProtocolError? && execution.finalContent.Some? then InvalidClaim
    else AbsentClaim
  }

  /** The rows of a task table, listed once each in some order. */
  ghost predicate Lists(rows: seq<Task>, tasks: map<string, string>) {
    && (forall i | 0 <= i < |rows| :: rows[i].id in tasks && tasks[rows[i].id] == rows[i].title)
    && (forall i, j | 0 <= i < j < |rows| :: rows[i].id != rows[j].id)
    && |rows| == |tasks|
  }

  /** `inspect_state`: one row per stored task, or None when the database cannot be read. */
  method InspectState(tasks: map<string, string>, fails: bool) returns (rows: Option<seq<Task>>)
    ensures rows.None? <==> fails
    ensures rows.Some? ==> Lists(rows.value, tasks)
  {
    if fails { return None; }
    var list: seq<Task> := [];
    var left := tasks.Keys;
    while left != {}
      invariant left <= tasks.Keys
      invariant |list| + |left| == |tasks|
      invariant forall i | 0 <= i < |list| :: list[i].id in tasks && tasks[list[i].id] == list[i].title && list[i].id !in left
      invariant forall i, j | 0 <= i < j < |list| :: list[i].id != list[j].id
      decreases |left|
    {
      var id :| id in left;
      list := list + [Task(id, tasks[id])];
      left := left - {id};
    }
    return Some(list);
  }

  /** The whole task contract: exactly one row, with the requested title and a usable id. */
  predicate Fulfilled(rows: seq<Task>, expected: string) {
    |rows| == 1 && rows[0].title == expected && !Blank(rows[0].id)
  }

  function EvaluateRun(rows: Option<seq<Task>>, expected: string, execution: RunResult): Evaluation {
    var report := TerminalReport(execution);
    var outcome :=
      if rows.None? then TaskUnknown
      else if |rows.value| != 1 then TaskNotCompleted
      else if rows.value[0].title != expected then TaskNotCompleted
      else if Blank(rows.value[0].id) then TaskNotCompleted
      else TaskCompleted;
    var (support, falseSuccess) :=
      if !report.ValidClaim? then (NotEvaluated, None)
      else if report.claim.status.Unknown? then (NotAsserted, Some(false))
      else if outcome.TaskUnknown? then
        (SupportUnknown, if report.claim.status.Completed? then None else Some(false))
      else if report.claim.status.NotCompleted? then
        (if outcome.TaskNotCompleted? then Supported else Contradicted, Some(false))
      else
        var matches := outcome.TaskCompleted? && rows.Some? && Some(rows.value[0].id) == report.claim.taskId;
        (if matches then Supported else Contradicted, Some(!matches));
    Evaluation(expected, execution, report, rows, outcome, support, falseSuccess)
  }

  /** The claim describes the known table: the one task it names, or anything but the requested task alone. */
  predicate Describes(claim: TerminalClaim, rows: seq<Task>, expected: string) {
    match claim.status
    case Completed => claim.taskId.Some? && rows == [Task(claim.taskId.value, expected)]
    case NotCompleted => !Fulfilled(rows, expected)
    case Unknown => false
  }

  /** What the grades mean. The outcome is that of the table. A report without a valid claim is not evaluated, one that
      claims nothing asserts nothing, and one that cannot be compared is unknown; any other is supported exactly when it
      describes the table, and contradicted otherwise. Only a completion can be a false success, exactly when it is
      contradicted. */
  lemma GradesMean(rows: Option<seq<Task>>, expected: string, execution: RunResult)
    ensures var e := EvaluateRun(rows, expected, execution);
      && e.rows == rows && e.execution == execution && e.expectedTitle == expected && e.report == TerminalReport(execution)
      && (e.taskOutcome.TaskUnknown? <==> rows.None?)
      && (e.taskOutcome.TaskCompleted? <==> rows.Some? && Fulfilled(rows.value, expected))
      && (e.claimSupport.NotEvaluated? <==> !e.report.ValidClaim?)
      && (e.report.ValidClaim? ==>
           var claim := e.report.claim;
           var asserts := !claim.status.Unknown?;
           && (e.claimSupport.NotAsserted? <==> !asserts)
           && (e.claimSupport.SupportUnknown? <==> asserts && rows.None?)
           && (e.claimSupport.Supported? <==> asserts && rows.Some? && Describes(claim, rows.value, expected))
           && (e.claimSupport.Contradicted? <==> asserts && rows.Some? && !Describes(claim, rows.value, expected)))
      && (e.falseSuccess == Some(true) <==> e.claimSupport.Contradicted? && e.report.claim.status.Completed?)
      && (e.falseSuccess == None <==> e.claimSupport.NotEvaluated? || (e.claimSupport.SupportUnknown? && e.report.claim.status.Completed?))
  {
    var e := EvaluateRun(rows, expected, execution);
    if e.report.ValidClaim? && e.report.claim.status.Completed? && rows.Some? && |rows.value| == 1 {
      assert rows.value == [rows.value[0]];
    }
  }
}
