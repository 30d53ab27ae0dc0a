/**
  Reports as the two report pages hold them in component state: the
  server's fields as received, plus the page-local `newRemark` draft.
  Shared here: the newest-first sort both pages apply after a fetch, the
  list updates their handlers make, the placeholders their tables show,
  and the requests they send.
 */
module ClientReports {
  import opened Basics

  /**
    A report in page state. `createdAt` comes from the server; `dateTime`
    is the fallback the pages sort on when it is missing. `newRemark` is
    the remark draft typed on the admin page.
   */
  datatype ClientReport = ClientReport(
    id: ObjectId,
    content: string,
    status: Option<string>,
    remark: Option<string>,
    userId: ObjectId,
    createdAt: Option<int>,
    dateTime: Option<int>,
    newRemark: Option<string>)

  /** `report.createdAt || report.dateTime`. */
  function SortKey(r: ClientReport): (k: Option<int>)
    ensures k.Some? <==> r.createdAt.Some? || r.dateTime.Some?
    ensures r.createdAt.Some? ==> k == r.createdAt
    ensures r.createdAt.None? ==> k == r.dateTime
  {
    if r.createdAt.Some? then r.createdAt else r.dateTime
  }

  /** The report has an instant to sort by. */
  predicate Stamped(r: ClientReport) {
    SortKey(r).Some?
  }

  /** The instant a report sorts by; only meaningful for a stamped report. */
  function Stamp(r: ClientReport): int {
    SortKey(r).GetOr(0)
  }

  /** Every report is stamped and none is older than a report after it. */
  predicate NewestFirst(s: seq<ClientReport>) {
    && (forall k :: 0 <= k < |s| ==> Stamped(s[k]))
    && (forall i, j :: 0 <= i < j < |s| ==> Stamp(s[i]) >= Stamp(s[j]))
  }

  /** Exchanges two neighbours. */
  method SwapDown(a: array<ClientReport>, j: nat)
    requires 0 < j < a.Length
    modifies a
    ensures a[j - 1] == old(a[j]) && a[j] == old(a[j - 1])
    ensures forall k :: 0 <= k < a.Length && k != j - 1 && k != j ==> a[k] == old(a[k])
    ensures multiset(a[..]) == old(multiset(a[..]))
  {
    a[j - 1], a[j] := a[j], a[j - 1];
  }

  /**
    The in-place `sort((a, b) => new Date(b.key) - new Date(a.key))` both
    pages apply to the fetched array: newest first, same reports.
   */
  method SortNewestFirst(a: array<ClientReport>)
    requires forall k :: 0 <= k < a.Length ==> Stamped(a[k])
    modifies a
    ensures NewestFirst(a[..])
    ensures multiset(a[..]) == old(multiset(a[..]))
  {
    var i := 0;
    while i < a.Length
      invariant 0 <= i <= a.Length
      invariant forall k :: 0 <= k < a.Length ==> Stamped(a[k])
      invariant forall p, q :: 0 <= p < q < i ==> Stamp(a[p]) >= Stamp(a[q])
      invariant multiset(a[..]) == old(multiset(a[..]))
    {
      var j := i;
      while j > 0 && Stamp(a[j - 1]) < Stamp(a[j])
        invariant 0 <= j <= i
        invariant forall k :: 0 <= k < a.Length ==> Stamped(a[k])
        invariant forall p, q :: 0 <= p < q <= i && p != j && q != j ==> Stamp(a[p]) >= Stamp(a[q])
        invariant forall q :: j < q <= i ==> Stamp(a[j]) > Stamp(a[q])
        invariant 0 < j < i ==> Stamp(a[j - 1]) >= Stamp(a[j + 1])
        invariant multiset(a[..]) == old(multiset(a[..]))
      {
        SwapDown(a, j);
        j := j - 1;
      }
      i := i + 1;
    }
  }

  /** Saving an edit: `{ ...report, content }` on the report with that id. */
  function ReplaceContent(rs: seq<ClientReport>, id: ObjectId, content: string): (r: seq<ClientReport>)
    ensures |r| == |rs|
    ensures forall i :: 0 <= i < |rs| ==> r[i].(content := rs[i].content) == rs[i]
    ensures forall i :: 0 <= i < |rs| && rs[i].id == id ==> r[i].content == content
    ensures forall i :: 0 <= i < |rs| && rs[i].id != id ==> r[i] == rs[i]
  {
    seq(|rs|, i requires 0 <= i < |rs| =>
      if rs[i].id == id then rs[i].(content := content) else rs[i])
  }

  /** A status change: `{ ...report, status }` on the report with that id. */
  function SetStatus(rs: seq<ClientReport>, id: ObjectId, status: string): (r: seq<ClientReport>)
    ensures |r| == |rs|
    ensures forall i :: 0 <= i < |rs| ==> r[i].(status := rs[i].status) == rs[i]
    ensures forall i :: 0 <= i < |rs| && rs[i].id == id ==> r[i].status == Some(status)
    ensures forall i :: 0 <= i < |rs| && rs[i].id != id ==> r[i] == rs[i]
  {
    seq(|rs|, i requires 0 <= i < |rs| =>
      if rs[i].id == id then rs[i].(status := Some(status)) else rs[i])
  }

  /** A remark submission: `{ ...report, remark, newRemark: "" }` on the report with that id. */
  function SetRemark(rs: seq<ClientReport>, id: ObjectId, remark: string): (r: seq<ClientReport>)
    ensures |r| == |rs|
    ensures forall i :: 0 <= i < |rs| ==>
      r[i].(remark := rs[i].remark, newRemark := rs[i].newRemark) == rs[i]
    ensures forall i :: 0 <= i < |rs| && rs[i].id == id ==>
      r[i].remark == Some(remark) && r[i].newRemark == Some("")
    ensures forall i :: 0 <= i < |rs| && rs[i].id != id ==> r[i] == rs[i]
  {
    seq(|rs|, i requires 0 <= i < |rs| =>
      if rs[i].id == id then rs[i].(remark := Some(remark), newRemark := Some("")) else rs[i])
  }

  /** Typing in a row's remark box: `{ ...r, newRemark: value }` on the report with that id. */
  function SetDraft(rs: seq<ClientReport>, id: ObjectId, text: string): (r: seq<ClientReport>)
    ensures |r| == |rs|
    ensures forall i :: 0 <= i < |rs| ==> r[i].(newRemark := rs[i].newRemark) == rs[i]
    ensures forall i :: 0 <= i < |rs| && rs[i].id == id ==> r[i].newRemark == Some(text)
    ensures forall i :: 0 <= i < |rs| && rs[i].id != id ==> r[i] == rs[i]
  {
    seq(|rs|, i requires 0 <= i < |rs| =>
      if rs[i].id == id then rs[i].(newRemark := Some(text)) else rs[i])
  }

  /** A list update never reorders: the ids stay where they were. */
  lemma UpdatesKeepIds(rs: seq<ClientReport>, id: ObjectId, s: string, i: nat)
    requires i < |rs|
    ensures ReplaceContent(rs, id, s)[i].id == rs[i].id
    ensures SetStatus(rs, id, s)[i].id == rs[i].id
    ensures SetRemark(rs, id, s)[i].id == rs[i].id
    ensures SetDraft(rs, id, s)[i].id == rs[i].id
  {
    assert ReplaceContent(rs, id, s)[i].(content := rs[i].content) == rs[i];
    assert SetStatus(rs, id, s)[i].(status := rs[i].status) == rs[i];
    assert SetRemark(rs, id, s)[i].(remark := rs[i].remark, newRemark := rs[i].newRemark) == rs[i];
    assert SetDraft(rs, id, s)[i].(newRemark := rs[i].newRemark) == rs[i];
  }

  /** After a remark submission the row's box is empty again, so a second click sends "". */
  lemma SubmitThenDraftIsEmpty(rs: seq<ClientReport>, id: ObjectId, remark: string, i: nat)
    requires i < |rs| && rs[i].id == id
    ensures DraftOf(SetRemark(rs, id, remark)[i]) == ""
    ensures DisplayRemark(SetRemark(rs, id, remark)[i]) == (if remark == "" then "No remark yet" else remark)
  {
  }

  /** Deleting: `reports.filter(report => report._id !== id)`. */
  function RemoveById(rs: seq<ClientReport>, id: ObjectId): (r: seq<ClientReport>)
    ensures forall x :: x in r <==> x in rs && x.id != id
  {
    var keep := (x: ClientReport) => x.id != id;
    assert forall x :: x in rs && keep(x) ==> x in Filter(rs, keep) by {
      forall x | x in rs && keep(x) ensures x in Filter(rs, keep) {
        FilterCount(rs, keep, x);
      }
    }
    Filter(rs, keep)
  }

  /** Deleting keeps every other report, as often as it occurred, in its order. */
  lemma RemoveByIdKeepsOthers(rs: seq<ClientReport>, id: ObjectId, x: ClientReport)
    ensures IsSubsequence(RemoveById(rs, id), rs)
    ensures multiset(RemoveById(rs, id))[x] == if x.id == id then 0 else multiset(rs)[x]
  {
    FilterIsSubsequence(rs, (y: ClientReport) => y.id != id);
    FilterCount(rs, (y: ClientReport) => y.id != id, x);
  }

  /** The status shown and exported: `report.status || "Todo"`. */
  function DisplayStatus(r: ClientReport): (s: string)
    ensures s == "Todo" || Some(s) == r.status
    ensures Truthy(r.status) ==> s == r.status.value
    ensures !Truthy(r.status) ==> s == "Todo"
  {
    StringOr(r.status, "Todo")
  }

  /** The remark shown and exported: `report.remark || "No remark yet"`. */
  function DisplayRemark(r: ClientReport): (s: string)
    ensures s == "No remark yet" || Some(s) == r.remark
    ensures Truthy(r.remark) ==> s == r.remark.value
    ensures !Truthy(r.remark) ==> s == "No remark yet"
    ensures s != ""
  {
    StringOr(r.remark, "No remark yet")
  }

  /** The draft a row's Submit button sends: `report.newRemark || ""`. */
  function DraftOf(r: ClientReport): (s: string)
    ensures r.newRemark.Some? ==> s == r.newRemark.value
    ensures r.newRemark.None? ==> s == ""
  {
    StringOr(r.newRemark, "")
  }

  /**
    `new Date(report.createdAt || report.dateTime).toLocaleString()`, with
    the formatting supplied by the caller; no instant gives "Invalid Date".
   */
  function DisplayDate(r: ClientReport, toLocaleString: int -> string): (s: string)
    ensures Stamped(r) ==> s == toLocaleString(Stamp(r))
    ensures !Stamped(r) ==> s == "Invalid Date"
  {
    match SortKey(r)
    case Some(t) => toLocaleString(t)
    case None => "Invalid Date"
  }

  /** The body of the POST that creates a report. */
  datatype NewReport = NewReport(content: string, status: string, dateTime: int, userId: ObjectId, remark: string)

  /** A request a page sends to the report API; `None` is a key left out of the body. */
  datatype Request =
    | GetReports(owner: ObjectId)
    | GetUser(user: ObjectId)
    | PostReport(report: NewReport)
    | PutReport(id: ObjectId, content: Option<string>, status: Option<string>, remark: Option<string>)
    | DeleteReport(id: ObjectId)

  /** The message both pages show when the reports fetch fails. */
  const FetchError: string := "Error fetching reports."

  /** A fetched list sorted on a fresh array, as the pages do before storing it. */
  method SortedCopy(data: seq<ClientReport>) returns (sorted: seq<ClientReport>)
    requires forall k :: 0 <= k < |data| ==> Stamped(data[k])
    ensures NewestFirst(sorted)
    ensures multiset(sorted) == multiset(data)
  {
    var a := new ClientReport[|data|](k requires 0 <= k < |data| => data[k]);
    assert a[..] == data;
    SortNewestFirst(a);
    sorted := a[..];
  }
}
