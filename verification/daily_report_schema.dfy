/**
  The DailyReport document: its fields, which of them are required, and
  the default the schema gives `status`.
 */
module DailyReportSchema {
  import opened Basics

  /** The schema default of `status`. */
  const DefaultStatus: string := "Todo"

  /**
    A stored report. `status` is any string (the schema has no enum),
    `remark` is absent until someone sets it, and the two timestamps are
    the instants the schema's `timestamps` option records.
   */
  datatype Report = Report(
    id: ObjectId,
    content: string,
    status: string,
    remark: Option<string>,
    userId: ObjectId,
    createdAt: int,
    updatedAt: int)

  /** The fields handed to the model's constructor; `None` is a key left `undefined`. */
  datatype Draft = Draft(
    content: Option<string>,
    status: Option<string>,
    remark: Option<string>,
    userId: Option<ObjectId>)

  /**
    The paths whose `required` validator fails. A required string fails
    when it is missing or empty; a required id fails when it is missing.
   */
  function MissingPaths(d: Draft): (paths: set<string>)
    ensures "content" in paths <==> !Truthy(d.content)
    ensures "userId" in paths <==> d.userId.None?
    ensures paths <= {"content", "userId"}
  {
    (if Truthy(d.content) then {} else {"content"})
    + (if d.userId.Some? then {} else {"userId"})
  }

  /**
    Validates a draft and builds the document `save()` would store under
    `id` at instant `now`, or reports the paths that failed validation.
   */
  function Build(id: ObjectId, d: Draft, now: int): (r: Result<Report, set<string>>)
    ensures r.Ok? <==> Truthy(d.content) && d.userId.Some?
    ensures r.Err? ==> r.error != {} && r.error == MissingPaths(d)
    ensures r.Ok? ==> && r.value.id == id
                      && r.value.content == d.content.value
                      && r.value.userId == d.userId.value
                      && r.value.status == d.status.GetOr(DefaultStatus)
                      && r.value.remark == d.remark
                      && r.value.createdAt == now && r.value.updatedAt == now
  {
    var missing := MissingPaths(d);
    if missing != {} then Err(missing)
    else
      Ok(Report(id, d.content.value, d.status.GetOr(DefaultStatus), d.remark,
                d.userId.value, now, now))
  }

  /** A stored report has non-empty content: nothing without it passes validation. */
  ghost predicate WellFormed(r: Report) {
    r.content != ""
  }

  /** Every report `Build` accepts is well formed, and without a status it is a "Todo". */
  lemma BuildWellFormed(id: ObjectId, d: Draft, now: int)
    ensures Build(id, d, now).Ok? ==> WellFormed(Build(id, d, now).value)
    ensures Build(id, d, now).Ok? && d.status.None? ==> Build(id, d, now).value.status == "Todo"
    ensures Build(id, d, now).Ok? && d.remark.None? ==> Build(id, d, now).value.remark.None?
  {
  }

  /** Any status string is accepted as given: the schema has no enum. */
  lemma StatusUnconstrained(id: ObjectId, content: string, userId: ObjectId, status: string, now: int)
    requires content != ""
    ensures Build(id, Draft(Some(content), Some(status), None, Some(userId)), now).Ok?
    ensures Build(id, Draft(Some(content), Some(status), None, Some(userId)), now).value.status == status
  {
  }
}
