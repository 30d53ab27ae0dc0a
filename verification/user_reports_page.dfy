/**
  The admin's view of one user's reports: the reports newest first, a
  remark box and Submit button per row, and a Download button that writes
  the reports to a spreadsheet. Each HTTP call's outcome is a parameter;
  the requests the page sends are recorded in `sent`.
 */
module UserReportsPage {
  import opened Basics
  import opened ClientReports

  const RemarkError: string := "Error updating remark."
  const UserFetchError: string := "An error occurred while fetching user data."

  /** The `user` document inside the lookup's response, as far as the page reads it. */
  datatype UserDoc = UserDoc(name: Option<string>)

  /**
    The body of the user lookup's response. The page titles itself from
    `user.name` but names the download from a top-level `name` key.
   */
  datatype UserData = UserData(name: Option<string>, user: Option<UserDoc>)

  /** How the user lookup ended: a user, an error response with its message, or no response. */
  datatype UserFetch = Found(data: UserData) | Refused(message: string) | Unreachable

  /** The columns of the table on screen. */
  const ScreenColumns: seq<string> := ["S.no", "Report", "Attachment", "Date & Time", "Status", "Remark"]
  /** The columns of the downloaded sheet. */
  const ExportColumns: seq<string> := ["S.no", "Report", "Date & Time", "Status", "Remark"]
  const ExportSheetName: string := "Reports"

  /** The sheet row of the report at position `index`. */
  function ExportRow(index: nat, r: ClientReport, toLocaleString: int -> string): (row: Row)
    ensures Columns(row) == ExportColumns
  {
    [ ("S.no", Number(index + 1)),
      ("Report", Text(r.content)),
      ("Date & Time", Text(DisplayDate(r, toLocaleString))),
      ("Status", Text(DisplayStatus(r))),
      ("Remark", Text(DisplayRemark(r))) ]
  }

  /** `reports.map((report, index) => ...)`. */
  function ExportRows(rs: seq<ClientReport>, toLocaleString: int -> string): (rows: seq<Row>)
    ensures |rows| == |rs|
    ensures forall i :: 0 <= i < |rs| ==> rows[i] == ExportRow(i, rs[i], toLocaleString)
  {
    seq(|rs|, i requires 0 <= i < |rs| => ExportRow(i, rs[i], toLocaleString))
  }

  /** `${userData?.name || 'User'}_Reports.xlsx`. */
  function FileName(userData: Option<UserData>): (name: string)
    ensures userData.Some? && Truthy(userData.value.name) ==> name == userData.value.name.value + "_Reports.xlsx"
    ensures userData.None? || !Truthy(userData.value.name) ==> name == "User_Reports.xlsx"
  {
    var who := if userData.Some? then StringOr(userData.value.name, "User") else "User";
    who + "_Reports.xlsx"
  }

  /**
    A response whose user document is named, but which has no top-level
    `name`, still downloads as "User_Reports.xlsx".
   */
  lemma FileNameIgnoresUserDocument(doc: UserDoc)
    ensures FileName(Some(UserData(None, Some(doc)))) == "User_Reports.xlsx"
  {
  }

  /** `handleDownload`: the displayed reports, in displayed order, on the "Reports" sheet. */
  function Download(rs: seq<ClientReport>, userData: Option<UserData>, toLocaleString: int -> string): (w: Workbook)
    ensures w.sheetName == ExportSheetName && w.fileName == FileName(userData)
    ensures |w.rows| == |rs|
  {
    Workbook(FileName(userData), ExportSheetName, ExportRows(rs, toLocaleString))
  }

  /**
    Row `i` of the download is numbered `i + 1` and carries report `i`'s
    content, its status or "Todo", and its remark or "No remark yet" (an
    empty remark counts as none). The sheet has no Attachment column,
    although the table on screen has one.
   */
  lemma DownloadRows(rs: seq<ClientReport>, userData: Option<UserData>, toLocaleString: int -> string, i: nat)
    requires i < |rs|
    ensures var row := Download(rs, userData, toLocaleString).rows[i];
            && Columns(row) == ExportColumns
            && row[0].1 == Number(i + 1)
            && row[1].1 == Text(rs[i].content)
            && row[3].1 == Text(if Truthy(rs[i].status) then rs[i].status.value else "Todo")
            && row[4].1 == Text(if Truthy(rs[i].remark) then rs[i].remark.value else "No remark yet")
            && "Attachment" !in Columns(row)
    ensures "Attachment" in ScreenColumns
  {
    assert ScreenColumns[2] == "Attachment";
  }

  class UserReportsView {
    /** The user whose reports are shown (the route parameter). */
    const userId: ObjectId
    var reports: seq<ClientReport>
    var error: string
    var userData: Option<UserData>
    /** Requests sent so far, oldest first. */
    var sent: seq<Request>

    constructor (userId: ObjectId)
      ensures this.userId == userId && reports == [] && error == "" && userData.None? && sent == []
    {
      this.userId := userId;
      reports := [];
      error := "";
      userData := None;
      sent := [];
    }

    /** The reports fetch: on success the fetched reports, newest first. */
    method FetchReports(ok: bool, data: seq<ClientReport>)
      requires ok ==> forall k :: 0 <= k < |data| ==> Stamped(data[k])
      modifies this
      ensures sent == old(sent) + [GetReports(userId)]
      ensures ok ==> NewestFirst(reports) && multiset(reports) == multiset(data) && error == old(error)
      ensures !ok ==> reports == old(reports) && error == FetchError
      ensures userData == old(userData)
    {
      sent := sent + [GetReports(userId)];
      if ok {
        reports := SortedCopy(data);
      } else {
        error := FetchError;
      }
    }

    /** The user fetch: the response body on success, else the server's message or a fixed one. */
    method FetchUser(outcome: UserFetch)
      modifies this
      ensures sent == old(sent) + [GetUser(userId)]
      ensures outcome.Found? ==> userData == Some(outcome.data) && error == old(error)
      ensures outcome.Refused? ==> userData == old(userData) && error == outcome.message
      ensures outcome.Unreachable? ==> userData == old(userData) && error == UserFetchError
      ensures reports == old(reports)
    {
      sent := sent + [GetUser(userId)];
      match outcome
      case Found(data) => userData := Some(data);
      case Refused(message) => error := message;
      case Unreachable => error := UserFetchError;
    }

    /** A row's remark box `onChange`: only that report's draft changes. */
    method EditDraft(id: ObjectId, text: string)
      modifies this
      ensures reports == SetDraft(old(reports), id, text)
      ensures error == old(error) && userData == old(userData) && sent == old(sent)
    {
      reports := SetDraft(reports, id, text);
    }

    /** `handleRemarkSubmit`: a PUT with only the remark; on success only that report changes. */
    method HandleRemarkSubmit(reportId: ObjectId, remark: string, ok: bool)
      modifies this
      ensures sent == old(sent) + [PutReport(reportId, None, None, Some(remark))]
      ensures ok ==> reports == SetRemark(old(reports), reportId, remark) && error == old(error)
      ensures !ok ==> reports == old(reports) && error == RemarkError
      ensures userData == old(userData)
    {
      sent := sent + [PutReport(reportId, None, None, Some(remark))];
      if ok {
        reports := SetRemark(reports, reportId, remark);
      } else {
        error := RemarkError;
      }
    }

    /** A row's Submit button: sends that row's draft, or "" when nothing was typed. */
    method SubmitRow(i: nat, ok: bool)
      requires i < |reports|
      modifies this
      ensures sent == old(sent) + [PutReport(old(reports)[i].id, None, None, Some(DraftOf(old(reports)[i])))]
      ensures ok ==> reports == SetRemark(old(reports), old(reports)[i].id, DraftOf(old(reports)[i]))
                     && error == old(error)
      ensures !ok ==> reports == old(reports) && error == RemarkError
      ensures userData == old(userData)
    {
      HandleRemarkSubmit(reports[i].id, DraftOf(reports[i]), ok);
    }
  }
}
