/**
  The task table's filter and spreadsheet export. The filter criteria
  (start date, end date, stage) are the table's state; here they are a
  parameter. Timestamps are instants as integers, and date formatting is
  a function the caller supplies.
 */
module TaskTable {
  import opened Basics
  import Strings

  datatype Member = Member(name: string)

  /** The task fields the table reads; `None` is a missing key. */
  datatype Task = Task(
    title: Option<string>,
    createdAt: int,
    date: int,
    stage: Option<string>,
    team: Option<seq<Member>>)

  /**
    The filter state: each date bound is absent when its input is empty,
    and the stage is "" when "All" is selected.
   */
  datatype Criteria = Criteria(startDate: Option<int>, endDate: Option<int>, taskStage: string)

  const NoCriteria: Criteria := Criteria(None, None, "")

  /** The filter callback, test by test: any failing test rejects the task. */
  predicate Keep(t: Task, c: Criteria): (b: bool)
    ensures c.startDate.None? && c.endDate.None? && c.taskStage == "" ==> b
    ensures c.taskStage != "" && t.stage.None? ==> !b
  {
    if c.startDate.Some? && t.createdAt < c.startDate.value then false
    else if c.endDate.Some? && t.createdAt > c.endDate.value then false
    else if c.taskStage != "" && t.stage != Some(c.taskStage) then false
    else true
  }

  /** Both bounds are inclusive and every criterion that is set must hold. */
  lemma KeepIff(t: Task, c: Criteria)
    ensures Keep(t, c) <==>
      && (c.startDate.Some? ==> c.startDate.value <= t.createdAt)
      && (c.endDate.Some? ==> t.createdAt <= c.endDate.value)
      && (c.taskStage != "" ==> t.stage == Some(c.taskStage))
  {
  }

  /** `tasks.filter(...)`. */
  function FilterTasks(ts: seq<Task>, c: Criteria): (r: seq<Task>)
    ensures forall t :: t in r ==> t in ts && Keep(t, c)
  {
    Filter(ts, t => Keep(t, c))
  }

  /** With no criteria set the filter returns its input. */
  lemma FilterNoCriteria(ts: seq<Task>)
    ensures FilterTasks(ts, NoCriteria) == ts
  {
    FilterKeepsAll(ts, t => Keep(t, NoCriteria));
  }

  /** Filtering again with the same criteria changes nothing. */
  lemma FilterTasksIdempotent(ts: seq<Task>, c: Criteria)
    ensures FilterTasks(FilterTasks(ts, c), c) == FilterTasks(ts, c)
  {
    FilterIdempotent(ts, t => Keep(t, c));
  }

  /**
    The result is the input with some tasks dropped and the rest in input
    order; a task that passes survives as often as it occurs, and one that
    fails is gone.
   */
  lemma FilterTasksSubsequence(ts: seq<Task>, c: Criteria, t: Task)
    ensures IsSubsequence(FilterTasks(ts, c), ts)
    ensures multiset(FilterTasks(ts, c))[t] == if Keep(t, c) then multiset(ts)[t] else 0
  {
    FilterIsSubsequence(ts, u => Keep(u, c));
    FilterCount(ts, u => Keep(u, c), t);
  }

  /** A start later than the end keeps nothing. */
  lemma FilterInvertedRange(ts: seq<Task>, c: Criteria)
    requires c.startDate.Some? && c.endDate.Some? && c.startDate.value > c.endDate.value
    ensures FilterTasks(ts, c) == []
  {
    FilterDropsAll(ts, t => Keep(t, c));
  }

  /** The date Clear button: empties both date inputs, keeps the stage. */
  function ClearDates(c: Criteria): (r: Criteria)
    ensures r.startDate.None? && r.endDate.None? && r.taskStage == c.taskStage
  {
    c.(startDate := None, endDate := None)
  }

  /** The stage Clear button: back to "All", keeps the dates. */
  function ClearStage(c: Criteria): (r: Criteria)
    ensures r.taskStage == "" && r.startDate == c.startDate && r.endDate == c.endDate
  {
    c.(taskStage := "")
  }

  /** After the stage Clear, only the date bounds still filter. */
  lemma ClearStageKeepsDatesOnly(t: Task, c: Criteria)
    ensures Keep(t, ClearStage(c)) <==>
      (c.startDate.Some? ==> c.startDate.value <= t.createdAt) &&
      (c.endDate.Some? ==> t.createdAt <= c.endDate.value)
  {
  }

  /** After the date Clear, only the stage still filters. */
  lemma ClearDatesKeepsStageOnly(t: Task, c: Criteria)
    ensures Keep(t, ClearDates(c)) <==> (c.taskStage != "" ==> t.stage == Some(c.taskStage))
  {
  }

  /** Pressing both Clear buttons shows every task again. */
  lemma ClearBothShowsAll(ts: seq<Task>, c: Criteria)
    ensures FilterTasks(ts, ClearStage(ClearDates(c))) == ts
    ensures FilterTasks(ts, ClearDates(ClearStage(c))) == ts
  {
    assert ClearStage(ClearDates(c)) == NoCriteria;
    assert ClearDates(ClearStage(c)) == NoCriteria;
    FilterNoCriteria(ts);
  }

  const TaskColumns: seq<string> := ["Task Title", "Assigned Date", "Due Date", "Team", "Status"]
  const TaskSheetName: string := "Tasks"
  const TaskFileName: string := "task_list.xlsx"

  /** The names of the team members, in team order. */
  function MemberNames(team: seq<Member>): (names: seq<string>)
    ensures |names| == |team|
    ensures forall i :: 0 <= i < |team| ==> names[i] == team[i].name
  {
    seq(|team|, i requires 0 <= i < |team| => team[i].name)
  }

  /** `task?.team?.map(m => m.name).join(", ")`: undefined when the task has no team. */
  function TeamCell(team: Option<seq<Member>>): (cell: Cell)
    ensures cell == Missing <==> team.None?
    ensures team == Some([]) ==> cell == Text("")
    ensures team.Some? && |team.value| == 1 ==> cell == Text(team.value[0].name)
  {
    match team
    case None => Missing
    case Some(members) => Text(Strings.Join(MemberNames(members), ", "))
  }

  /** `task?.stage`, undefined when missing. */
  function StageCell(stage: Option<string>): (cell: Cell)
    ensures cell == Missing <==> stage.None?
    ensures stage.Some? ==> cell == Text(stage.value)
  {
    match stage
    case None => Missing
    case Some(s) => Text(s)
  }

  /** The export row of one task. */
  function TaskRow(t: Task, formatDate: int -> string): (row: Row)
    ensures Columns(row) == TaskColumns
  {
    [ ("Task Title", Text(StringOr(t.title, "No title"))),
      ("Assigned Date", Text(formatDate(t.createdAt))),
      ("Due Date", Text(formatDate(t.date))),
      ("Team", TeamCell(t.team)),
      ("Status", StageCell(t.stage)) ]
  }

  /** The export rows of a list of tasks, one per task, in list order. */
  function TaskRows(ts: seq<Task>, formatDate: int -> string): (rows: seq<Row>)
    ensures |rows| == |ts|
    ensures forall i :: 0 <= i < |ts| ==> rows[i] == TaskRow(ts[i], formatDate)
  {
    seq(|ts|, i requires 0 <= i < |ts| => TaskRow(ts[i], formatDate))
  }

  /** `downloadExcel`: the filtered tasks as rows of the "Tasks" sheet of task_list.xlsx. */
  function DownloadExcel(ts: seq<Task>, c: Criteria, formatDate: int -> string): (w: Workbook)
    ensures w.fileName == TaskFileName && w.sheetName == TaskSheetName
    ensures |w.rows| == |FilterTasks(ts, c)|
  {
    Workbook(TaskFileName, TaskSheetName, TaskRows(FilterTasks(ts, c), formatDate))
  }

  /**
    The export holds one row per filtered task, in filtered order, every
    row with the five columns in their fixed order, a missing or empty
    title written as "No title", the team joined with ", " and the stage
    as it is.
   */
  lemma ExportRowsFollowFilter(ts: seq<Task>, c: Criteria, formatDate: int -> string, i: nat)
    requires i < |FilterTasks(ts, c)|
    ensures var t := FilterTasks(ts, c)[i];
            var row := DownloadExcel(ts, c, formatDate).rows[i];
            && Columns(row) == TaskColumns
            && row[0].1 == (if Truthy(t.title) then Text(t.title.value) else Text("No title"))
            && row[1].1 == Text(formatDate(t.createdAt))
            && row[2].1 == Text(formatDate(t.date))
            && (t.team.Some? ==> row[3].1 == Text(Strings.Join(MemberNames(t.team.value), ", ")))
            && (t.team.None? ==> row[3].1 == Missing)
            && (t.stage.Some? ==> row[4].1 == Text(t.stage.value))
            && (t.stage.None? ==> row[4].1 == Missing)
            && Keep(t, c)
  {
  }

  /** With no criteria, the export has exactly one row per task. */
  lemma ExportWithoutCriteria(ts: seq<Task>, formatDate: int -> string)
    ensures DownloadExcel(ts, NoCriteria, formatDate).rows == TaskRows(ts, formatDate)
  {
    FilterNoCriteria(ts);
  }

  /** A one-person team exports as that person's name; two names get one ", " between them. */
  lemma TeamJoin(a: Member, b: Member)
    ensures TeamCell(Some([a])) == Text(a.name)
    ensures TeamCell(Some([a, b])) == Text(a.name + ", " + b.name)
  {
    assert MemberNames([a, b]) == [a.name, b.name];
    assert MemberNames([a, b])[1..] == [b.name];
  }
}
