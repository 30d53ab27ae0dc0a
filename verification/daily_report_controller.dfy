/**
  The daily-report HTTP handlers over an in-memory collection. The store
  holds the DailyReport collection as a map from id to document, the user
  directory the update handler looks owners up in, and an outbox that
  stands for the mail transporter: queuing a mail appends it there.
 */
module DailyReportController {
  import opened Basics
  import opened DailyReportSchema

  /** The two fields of a user document the handlers read. */
  datatype User = User(email: string, name: string)

  /** One message handed to the mail transporter. */
  datatype Mail = Mail(from: string, to: string, subject: string, text: string)

  /** A JSON response body. */
  datatype Body =
    | ReportList(reports: seq<Report>)
    | Saved(report: Report)
    | Message(message: string)
    | ValidationFailed(paths: set<string>)

  datatype Response = Response(code: int, body: Body)

  /** The body of a PUT: the two keys the handler reads, `None` when left out. */
  datatype UpdateRequest = UpdateRequest(status: Option<string>, remark: Option<string>)

  const Sender: string := "taskmanager@mamce.org"
  const UpdateSubject: string := "Daily Report Updated"
  const UpdateBodyPrefix: string := "The daily report has been updated.\n\nRemark: "

  /** How a template literal renders the remark: an absent one prints as "undefined". */
  function RemarkText(remark: Option<string>): (text: string)
    ensures remark.Some? ==> text == remark.value
    ensures remark.None? ==> text == "undefined"
  {
    match remark
    case Some(s) => s
    case None => "undefined"
  }

  /** The text of the notification mail. */
  function UpdateMailText(remark: Option<string>): (text: string)
    ensures remark.Some? ==> text == UpdateBodyPrefix + remark.value
    ensures remark.None? ==> text == UpdateBodyPrefix + "undefined"
  {
    UpdateBodyPrefix + RemarkText(remark)
  }

  /**
    The document after `findByIdAndUpdate(id, { status, remark })` at
    instant `now`: a key that was left out keeps its stored value.
   */
  function ApplyUpdate(r: Report, req: UpdateRequest, now: int): (u: Report)
    ensures u.id == r.id && u.content == r.content && u.userId == r.userId
    ensures u.createdAt == r.createdAt && u.updatedAt == now
    ensures req.status.Some? ==> u.status == req.status.value
    ensures req.status.None? ==> u.status == r.status
    ensures req.remark.Some? ==> u.remark == req.remark
    ensures req.remark.None? ==> u.remark == r.remark
  {
    r.(status := req.status.GetOr(r.status),
       remark := if req.remark.Some? then req.remark else r.remark,
       updatedAt := now)
  }

  /** An update cannot break what validation established at creation. */
  lemma ApplyUpdateKeepsWellFormed(r: Report, req: UpdateRequest, now: int)
    requires WellFormed(r)
    ensures WellFormed(ApplyUpdate(r, req, now))
  {
  }

  /** Any status can follow any other: the update never looks at the old status. */
  lemma StatusTransitionsFree(r: Report, status: string, now: int)
    ensures ApplyUpdate(r, UpdateRequest(Some(status), None), now).status == status
    ensures ApplyUpdate(r, UpdateRequest(Some(status), None), now).remark == r.remark
  {
  }

  class ReportStore {
    /** The DailyReport collection, by document id. */
    var reports: map<ObjectId, Report>
    /** Mails handed to the transporter, oldest first. */
    var outbox: seq<Mail>
    /** The id the next saved document receives. */
    var nextId: ObjectId
    /** The user directory, read to find a report owner's address. */
    const users: map<ObjectId, User>

    /** Every document is filed under its own id, has content, and has an id already issued. */
    ghost predicate Valid()
      reads this
    {
      forall id :: id in reports ==>
        reports[id].id == id && WellFormed(reports[id]) && id < nextId
    }

    constructor (users: map<ObjectId, User>)
      ensures Valid()
      ensures reports == map[] && outbox == [] && this.users == users
    {
      reports := map[];
      outbox := [];
      nextId := 0;
      this.users := users;
    }

    /** `DailyReport.find({ userId })`: every stored report of that owner, each once. */
    method FindByOwner(userId: ObjectId) returns (found: seq<Report>)
      requires Valid()
      ensures forall r :: r in found <==> r in reports.Values && r.userId == userId
      ensures forall i, j :: 0 <= i < j < |found| ==> found[i].id != found[j].id
    {
      found := [];
      var todo := reports.Keys;
      while todo != {}
        invariant todo <= reports.Keys
        invariant forall r :: r in found <==>
          r.id in reports && r.id !in todo && reports[r.id] == r && r.userId == userId
        invariant forall i, j :: 0 <= i < j < |found| ==> found[i].id != found[j].id
        decreases todo
      {
        var k :| k in todo;
        var r := reports[k];
        if r.userId == userId {
          found := found + [r];
        }
        todo := todo - {k};
      }
      forall r | r in reports.Values
        ensures r.id in reports && reports[r.id] == r
      {
        var k :| k in reports && reports[k] == r;
      }
    }

    /** GET /daily-reports?userId=ID. */
    method GetAllReports(userId: ObjectId) returns (res: Response)
      requires Valid()
      ensures res.code == 200 && res.body.ReportList?
      ensures forall r :: r in res.body.reports <==> r in reports.Values && r.userId == userId
      ensures forall i, j :: 0 <= i < j < |res.body.reports| ==>
        res.body.reports[i].id != res.body.reports[j].id
    {
      var found := FindByOwner(userId);
      res := Response(200, ReportList(found));
    }

    /** GET /daily-reports/:userId. */
    method GetDailyReports(userId: ObjectId) returns (res: Response)
      requires Valid()
      ensures res.code == 200 && res.body.ReportList?
      ensures forall r :: r in res.body.reports <==> r in reports.Values && r.userId == userId
      ensures forall i, j :: 0 <= i < j < |res.body.reports| ==>
        res.body.reports[i].id != res.body.reports[j].id
    {
      var found := FindByOwner(userId);
      res := Response(200, ReportList(found));
    }

    /**
      POST /daily-reports. Only `content` and `userId` reach the document;
      `date` is not a schema path and is dropped, and `status` takes the
      schema default.
     */
    method CreateReport(content: Option<string>, date: Option<string>, userId: Option<ObjectId>, now: int)
      returns (res: Response)
      requires Valid()
      modifies this
      ensures Valid()
      ensures outbox == old(outbox)
      ensures !Truthy(content) || userId.None? ==>
        && res == Response(500, ValidationFailed(MissingPaths(Draft(content, None, None, userId))))
        && reports == old(reports)
      ensures Truthy(content) && userId.Some? ==>
        && old(nextId) !in old(reports)
        && res.code == 201 && res.body.Saved?
        && res.body.report == Report(old(nextId), content.value, "Todo", None, userId.value, now, now)
        && reports == old(reports)[old(nextId) := res.body.report]
    {
      var built := Build(nextId, Draft(content, None, None, userId), now);
      match built
      case Err(paths) =>
        res := Response(500, ValidationFailed(paths));
      case Ok(r) =>
        reports := reports[nextId := r];
        nextId := nextId + 1;
        res := Response(201, Saved(r));
    }

    /**
      PUT /daily-reports/:id. The write happens before the owner lookup,
      so a report whose owner is gone is updated and still answered 404.
      A mail is queued whenever the owner is found, remark or not.
     */
    method UpdateReport(id: ObjectId, req: UpdateRequest, now: int) returns (res: Response)
      requires Valid()
      modifies this
      ensures Valid()
      ensures nextId == old(nextId)
      ensures id !in old(reports) ==>
        && res == Response(404, Message("Report not found"))
        && reports == old(reports) && outbox == old(outbox)
      ensures id in old(reports) ==>
        reports == old(reports)[id := ApplyUpdate(old(reports)[id], req, now)]
      ensures id in old(reports) && old(reports)[id].userId !in users ==>
        && res == Response(404, Message("User not found"))
        && outbox == old(outbox)
      ensures id in old(reports) && old(reports)[id].userId in users ==>
        && res == Response(200, Saved(reports[id]))
        && outbox == old(outbox) + [Mail(Sender, users[old(reports)[id].userId].email,
                                         UpdateSubject, UpdateMailText(req.remark))]
    {
      if id !in reports {
        return Response(404, Message("Report not found"));
      }
      var updated := ApplyUpdate(reports[id], req, now);
      reports := reports[id := updated];
      if updated.userId !in users {
        return Response(404, Message("User not found"));
      }
      var mail := Mail(Sender, users[updated.userId].email, UpdateSubject, UpdateMailText(req.remark));
      outbox := outbox + [mail];
      res := Response(200, Saved(updated));
    }

    /** DELETE /daily-reports/:id: success whether or not the id was stored. */
    method DeleteReport(id: ObjectId) returns (res: Response)
      requires Valid()
      modifies this
      ensures Valid()
      ensures res == Response(200, Message("Report deleted successfully"))
      ensures reports == old(reports) - {id} && id !in reports
      ensures outbox == old(outbox) && nextId == old(nextId)
    {
      reports := reports - {id};
      res := Response(200, Message("Report deleted successfully"));
    }
  }

  /** The sequence a client sees: create, walk the status through every value, remark with "", delete twice. */
  method LifecycleScenario(now: int) returns (store: ReportStore)
    ensures store.Valid()
  {
    store := new ReportStore(map[7 := User("owner@example.org", "Owner")]);
    var created := store.CreateReport(Some("wrote the parser"), None, Some(7), now);
    assert created.code == 201 && created.body.report.status == "Todo";
    var id := created.body.report.id;
    var res := store.UpdateReport(id, UpdateRequest(Some("Maintaining"), None), now);
    assert res.code == 200 && store.reports[id].status == "Maintaining";
    res := store.UpdateReport(id, UpdateRequest(Some("Completed"), None), now);
    assert res.code == 200 && store.reports[id].status == "Completed";
    res := store.UpdateReport(id, UpdateRequest(Some("Todo"), Some("")), now);
    assert res.code == 200 && store.reports[id].status == "Todo" && store.reports[id].remark == Some("");
    assert |store.outbox| == 3;
    assert store.reports[id].content == "wrote the parser";
    res := store.DeleteReport(id);
    assert id !in store.reports;
    res := store.DeleteReport(id);
    assert res.code == 200;
  }
}
