/**
  The user's own daily-report page: a text box to write or edit a report,
  the user's reports newest first, a per-row menu (edit, delete) and a
  status picker. Each HTTP call's outcome is the parameter `ok`; the
  requests the page sends are recorded in `sent`.
 */
module DailyReportPage {
  import opened Basics
  import opened ClientReports
  import Strings

  const UpdateError: string := "Error updating report."
  const SubmitError: string := "Error submitting report."
  const StatusError: string := "Error updating status."
  const DeleteError: string := "Error deleting report."

  /** `toggleDropdown`: `prev === id ? null : id`. */
  function Toggle(open: Option<ObjectId>, id: ObjectId): (r: Option<ObjectId>)
    ensures r == Some(id) <==> open != Some(id)
    ensures r.None? <==> open == Some(id)
  {
    if open == Some(id) then None else Some(id)
  }

  /**
    Clicking the same menu twice returns to where it started when it was
    closed or already open on that row; opening a second row closes the
    first, since at most one row is open.
   */
  lemma ToggleLaws(id: ObjectId, other: ObjectId)
    requires other != id
    ensures Toggle(Toggle(None, id), id) == None
    ensures Toggle(Toggle(Some(id), id), id) == Some(id)
    ensures Toggle(Some(other), id) == Some(id)
  {
  }

  const TableColumns: seq<string> :=
    ["S.no", "Report", "Attachment", "Date & Time", "Status", "Remark (From Admin)"]

  /** The cells of the table row at position `index` (the Action column holds only buttons). */
  function TableRow(index: nat, r: ClientReport, toLocaleString: int -> string): (row: Row)
    ensures Columns(row) == TableColumns
  {
    [ ("S.no", Number(index + 1)),
      ("Report", Text(r.content)),
      ("Attachment", Text("No Attachment")),
      ("Date & Time", Text(DisplayDate(r, toLocaleString))),
      ("Status", Text(DisplayStatus(r))),
      ("Remark (From Admin)", Text(DisplayRemark(r))) ]
  }

  function TableRows(rs: seq<ClientReport>, toLocaleString: int -> string): (rows: seq<Row>)
    ensures |rows| == |rs|
    ensures forall i :: 0 <= i < |rs| ==> rows[i] == TableRow(i, rs[i], toLocaleString)
  {
    seq(|rs|, i requires 0 <= i < |rs| => TableRow(i, rs[i], toLocaleString))
  }

  /**
    Row `i` is numbered `i + 1`, shows "Todo" for a missing or empty status
    and "No remark yet" for a missing or empty remark, and never shows an
    empty remark cell.
   */
  lemma TableRowPlaceholders(rs: seq<ClientReport>, toLocaleString: int -> string, i: nat)
    requires i < |rs|
    ensures TableRows(rs, toLocaleString)[i][0] == ("S.no", Number(i + 1))
    ensures TableRows(rs, toLocaleString)[i][1] == ("Report", Text(rs[i].content))
    ensures TableRows(rs, toLocaleString)[i][2] == ("Attachment", Text("No Attachment"))
    ensures TableRows(rs, toLocaleString)[i][3] == ("Date & Time", Text(DisplayDate(rs[i], toLocaleString)))
    ensures !Truthy(rs[i].status) ==> TableRows(rs, toLocaleString)[i][4] == ("Status", Text("Todo"))
    ensures !Truthy(rs[i].remark) ==> TableRows(rs, toLocaleString)[i][5] == ("Remark (From Admin)", Text("No remark yet"))
    ensures TableRows(rs, toLocaleString)[i][5].1 != Text("")
  {
  }

  class DailyReportView {
    /** The signed-in user. */
    const user: ObjectId
    /** The text box. */
    var content: string
    var reports: seq<ClientReport>
    var error: string
    /** The report being edited, if any. */
    var editing: Option<ClientReport>
    /** The row whose menu is open, if any. */
    var dropdown: Option<ObjectId>
    /** Requests sent so far, oldest first. */
    var sent: seq<Request>

    constructor (user: ObjectId)
      ensures this.user == user && content == "" && reports == [] && error == ""
      ensures editing.None? && dropdown.None? && sent == []
    {
      this.user := user;
      content := "";
      reports := [];
      error := "";
      editing := None;
      dropdown := None;
      sent := [];
    }

    /** `fetchReports`: on success the fetched reports, newest first. */
    method FetchReports(ok: bool, data: seq<ClientReport>)
      requires ok ==> forall k :: 0 <= k < |data| ==> Stamped(data[k])
      modifies this
      ensures sent == old(sent) + [GetReports(user)]
      ensures ok ==> NewestFirst(reports) && multiset(reports) == multiset(data) && error == old(error)
      ensures !ok ==> reports == old(reports) && error == FetchError
      ensures content == old(content) && editing == old(editing) && dropdown == old(dropdown)
    {
      sent := sent + [GetReports(user)];
      if ok {
        reports := SortedCopy(data);
      } else {
        error := FetchError;
      }
    }

    /** The text box's `onChange`. */
    method TypeContent(text: string)
      modifies this
      ensures content == text
      ensures reports == old(reports) && error == old(error) && editing == old(editing)
      ensures dropdown == old(dropdown) && sent == old(sent)
    {
      content := text;
    }

    /**
      `handleSubmit`. Blank content only clears the error. While editing,
      a PUT carries the new content and the report's old remark, and on
      success the content of that report alone is replaced and edit mode
      ends. Otherwise a POST carries a new "Todo" report with remark "";
      on success the box is cleared and the list is refreshed by the next
      fetch.
     */
    method HandleSubmit(ok: bool, now: int)
      modifies this
      ensures dropdown == old(dropdown)
      ensures Strings.IsBlank(old(content)) ==>
        && error == "" && content == old(content) && reports == old(reports)
        && editing == old(editing) && sent == old(sent)
      ensures !Strings.IsBlank(old(content)) && old(editing).Some? ==>
        var e := old(editing).value;
        && sent == old(sent) + [PutReport(e.id, Some(old(content)), None, e.remark)]
        && (ok ==> reports == ReplaceContent(old(reports), e.id, old(content))
                   && editing.None? && content == "" && error == "")
        && (!ok ==> reports == old(reports) && editing == old(editing)
                    && content == old(content) && error == UpdateError)
      ensures !Strings.IsBlank(old(content)) && old(editing).None? ==>
        && sent == old(sent) + [PostReport(NewReport(old(content), "Todo", now, user, ""))]
        && reports == old(reports) && editing.None?
        && (ok ==> content == "" && error == "")
        && (!ok ==> content == old(content) && error == SubmitError)
    {
      error := "";
      if Strings.Trim(content) != "" {
        match editing
        case Some(e) => SubmitEdit(e, ok);
        case None => SubmitNew(ok, now);
      }
    }

    /** The editing branch of `handleSubmit`. */
    method SubmitEdit(e: ClientReport, ok: bool)
      modifies this
      ensures sent == old(sent) + [PutReport(e.id, Some(old(content)), None, e.remark)]
      ensures ok ==> reports == ReplaceContent(old(reports), e.id, old(content))
                     && editing.None? && content == "" && error == old(error)
      ensures !ok ==> reports == old(reports) && editing == old(editing)
                      && content == old(content) && error == UpdateError
      ensures dropdown == old(dropdown)
    {
      sent := sent + [PutReport(e.id, Some(content), None, e.remark)];
      if ok {
        reports := ReplaceContent(reports, e.id, content);
        editing := None;
        content := "";
      } else {
        error := UpdateError;
      }
    }

    /** The new-report branch of `handleSubmit`. */
    method SubmitNew(ok: bool, now: int)
      modifies this
      ensures sent == old(sent) + [PostReport(NewReport(old(content), "Todo", now, user, ""))]
      ensures ok ==> content == "" && error == old(error)
      ensures !ok ==> content == old(content) && error == SubmitError
      ensures reports == old(reports) && editing == old(editing) && dropdown == old(dropdown)
    {
      sent := sent + [PostReport(NewReport(content, "Todo", now, user, ""))];
      if ok {
        content := "";
      } else {
        error := SubmitError;
      }
    }

    /** `handleEdit`: edit mode on that report, its content in the box, menu closed. */
    method HandleEdit(report: ClientReport)
      modifies this
      ensures editing == Some(report) && content == report.content && dropdown.None?
      ensures reports == old(reports) && error == old(error) && sent == old(sent)
    {
      editing := Some(report);
      content := report.content;
      dropdown := None;
    }

    /** `handleCancelEdit`: leaves edit mode and empties the box. */
    method HandleCancelEdit()
      modifies this
      ensures editing.None? && content == ""
      ensures reports == old(reports) && error == old(error)
      ensures dropdown == old(dropdown) && sent == old(sent)
    {
      editing := None;
      content := "";
    }

    /** `handleStatusChange`: on success only the report with that id takes the new status. */
    method HandleStatusChange(id: ObjectId, status: string, ok: bool)
      modifies this
      ensures sent == old(sent) + [PutReport(id, None, Some(status), None)]
      ensures ok ==> reports == SetStatus(old(reports), id, status) && error == old(error)
      ensures !ok ==> reports == old(reports) && error == StatusError
      ensures content == old(content) && editing == old(editing) && dropdown == old(dropdown)
    {
      sent := sent + [PutReport(id, None, Some(status), None)];
      if ok {
        reports := SetStatus(reports, id, status);
      } else {
        error := StatusError;
      }
    }

    /** `handleDelete`: on success every report with that id leaves the list. */
    method HandleDelete(id: ObjectId, ok: bool)
      modifies this
      ensures sent == old(sent) + [DeleteReport(id)]
      ensures ok ==> reports == RemoveById(old(reports), id) && error == old(error)
      ensures !ok ==> reports == old(reports) && error == DeleteError
      ensures content == old(content) && editing == old(editing) && dropdown == old(dropdown)
    {
      sent := sent + [DeleteReport(id)];
      if ok {
        reports := RemoveById(reports, id);
      } else {
        error := DeleteError;
      }
    }

    /** `toggleDropdown`. */
    method ToggleDropdown(id: ObjectId)
      modifies this
      ensures dropdown == Toggle(old(dropdown), id)
      ensures content == old(content) && reports == old(reports) && error == old(error)
      ensures editing == old(editing) && sent == old(sent)
    {
      dropdown := Toggle(dropdown, id);
    }
  }
}
