/** The applications to one job: which status actions each card offers, and
    how a confirmed status change rewrites the list. */
module ApplicationList {
  import opened Common

  /** One application as the API returns it; the page only ever rewrites `status`. */
  datatype Application = Application(
    id: string,
    status: string,
    applicantName: Option<string>,
    resume: Option<string>,
    appliedAt: string)

  /** The four buttons of a card, in the order they are rendered. */
  datatype Action = View | Interview | Hire | Reject

  /** The status a button asks the server to set. */
  function TargetStatus(a: Action): (s: string)
    ensures s in {"viewed", "interview", "hired", "rejected"}
  {
    match a
    case View => "viewed"
    case Interview => "interview"
    case Hire => "hired"
    case Reject => "rejected"
  }

  /** The render condition of each button for an application in `status`.
      No button asks for the status the application already has, and a hired
      or rejected application offers only "View". */
  predicate Offered(status: string, a: Action)
    ensures Offered(status, a) ==> TargetStatus(a) != status
    ensures status == "hired" || status == "rejected" ==> (Offered(status, a) <==> a == View)
  {
    match a
    case View => status != "viewed"
    case Interview => status != "interview" && status != "hired" && status != "rejected"
    case Hire => status != "hired" && status != "rejected"
    case Reject => status != "rejected" && status != "hired"
  }

  /** The buttons a card shows, in rendering order. Every card shows at least
      one, and no button would set the status the application already has. */
  function OfferedActions(status: string): (acts: seq<Action>)
    ensures forall a :: a in acts <==> Offered(status, a)
    ensures forall i, j :: 0 <= i < j < |acts| ==> acts[i] != acts[j]
    ensures |acts| >= 1
    ensures forall a :: a in acts ==> TargetStatus(a) != status
  {
    (if Offered(status, View) then [View] else [])
    + (if Offered(status, Interview) then [Interview] else [])
    + (if Offered(status, Hire) then [Hire] else [])
    + (if Offered(status, Reject) then [Reject] else [])
  }

  /** Hired and rejected applications offer only "View"; a status the page
      does not know offers all four. */
  lemma ClosedStatusesOfferOnlyView(status: string)
    ensures status == "hired" || status == "rejected" <==> OfferedActions(status) == [View]
    ensures status !in {"viewed", "interview", "hired", "rejected"} ==>
      OfferedActions(status) == [View, Interview, Hire, Reject]
  {
    if OfferedActions(status) == [View] {
      assert Interview !in OfferedActions(status);
      assert Hire !in OfferedActions(status);
    }
  }

  /** The badge colour: the five known statuses have their own, anything else is slate. */
  datatype Tone = Cyan | Purple | Amber | Emerald | Rose | Slate

  function StatusTone(status: string): (t: Tone)
    ensures t == Slate <==> status !in {"applied", "viewed", "interview", "hired", "rejected"}
    ensures t == Emerald <==> status == "hired"
    ensures t == Rose <==> status == "rejected"
  {
    if status == "applied" then Cyan
    else if status == "viewed" then Purple
    else if status == "interview" then Amber
    else if status == "hired" then Emerald
    else if status == "rejected" then Rose
    else Slate
  }

  /** The list after the server accepted `newStatus` for the application `id`. */
  function SetStatus(apps: seq<Application>, id: string, newStatus: string): (r: seq<Application>)
    ensures |r| == |apps|
    ensures forall i :: 0 <= i < |apps| && apps[i].id == id ==> r[i] == apps[i].(status := newStatus)
    ensures forall i :: 0 <= i < |apps| && apps[i].id != id ==> r[i] == apps[i]
  {
    if apps == [] then []
    else
      var rest := SetStatus(apps[1..], id, newStatus);
      [if apps[0].id == id then apps[0].(status := newStatus) else apps[0]] + rest
  }

  /** Ids, and every field but `status`, are untouched; so the same update
      a second time changes nothing, and an id no application has changes nothing. */
  lemma SetStatusKeepsIdentity(apps: seq<Application>, id: string, newStatus: string)
    ensures var r := SetStatus(apps, id, newStatus);
      forall i :: 0 <= i < |apps| ==> r[i].id == apps[i].id && r[i].(status := apps[i].status) == apps[i]
    ensures SetStatus(SetStatus(apps, id, newStatus), id, newStatus) == SetStatus(apps, id, newStatus)
    ensures (forall i :: 0 <= i < |apps| ==> apps[i].id != id) ==> SetStatus(apps, id, newStatus) == apps
  {
    var r := SetStatus(apps, id, newStatus);
    var rr := SetStatus(r, id, newStatus);
    assert forall i :: 0 <= i < |apps| ==> rr[i] == r[i];
  }

  /** After an update the matching application has the new status: the
      action it came from is then no longer offered on that card. */
  lemma UpdatedCardDropsItsAction(apps: seq<Application>, id: string, a: Action, i: nat)
    requires i < |apps| && apps[i].id == id
    ensures SetStatus(apps, id, TargetStatus(a))[i].status == TargetStatus(a)
    ensures !Offered(SetStatus(apps, id, TargetStatus(a))[i].status, a)
  {
  }

  /** Hired is not final: "View" reopens it, after which "Interview" is offered again. */
  lemma HiredCanBeReopened(app: Application)
    requires app.status == "hired"
    ensures View in OfferedActions(app.status)
    ensures var viewed := SetStatus([app], app.id, TargetStatus(View))[0];
            viewed.status == "viewed" && Interview in OfferedActions(viewed.status)
  {
    assert Offered("viewed", Interview);
  }

  class ApplicationListPage {
    const jobId: Option<string>
    var applications: seq<Application>
    var loading: bool
    var error: Option<string>
    /** The id of the application whose status request is in flight. */
    var updateLoading: Option<string>

    constructor (jobId: Option<string>)
      ensures this.jobId == jobId
      ensures applications == [] && loading && error.None? && updateLoading.None?
    {
      this.jobId := jobId;
      applications := [];
      loading := true;
      error := None;
      updateLoading := None;
    }

    /** The mount effect fetches only when there is a job id. */
    predicate FetchesOnMount()
      reads this
    {
      Truthy(jobId)
    }

    method BeginFetch()
      requires FetchesOnMount()
      modifies this`loading
      ensures loading
    {
      loading := true;
    }

    /** The outcome of `GET /applications/job/:jobId`. */
    method FinishFetch(response: Response<seq<Application>>)
      modifies this`applications, this`error, this`loading
      ensures !loading
      ensures response.Ok? ==> applications == response.data && error.None?
      ensures response.Fail? ==>
        && applications == old(applications)
        && error == Some(MsgThenMessage(response.err, "Failed to load applications"))
    {
      match response {
        case Ok(list) =>
          applications := list;
          error := None;
        case Fail(e) =>
          error := Some(MsgThenMessage(e, "Failed to load applications"));
      }
      loading := false;
    }

    /** The card's buttons are disabled while its own request is in flight. */
    predicate ButtonsDisabled(app: Application)
      reads this
    {
      updateLoading == Some(app.id)
    }

    /** Pressing a status button: a declined confirmation does nothing. */
    method BeginStatusUpdate(id: string, confirmed: bool) returns (sent: bool)
      modifies this`updateLoading
      ensures sent == confirmed
      ensures confirmed ==> updateLoading == Some(id)
      ensures !confirmed ==> updateLoading == old(updateLoading)
      ensures confirmed ==> forall app: Application :: ButtonsDisabled(app) <==> app.id == id
    {
      sent := confirmed;
      if confirmed {
        updateLoading := Some(id);
      }
    }

    /** The outcome of `PUT /applications/:id/status`; a failure is reported
        through `alert`, and the in-flight marker is cleared either way. */
    method FinishStatusUpdate(id: string, newStatus: string, response: Response<()>) returns (alert: Option<string>)
      modifies this`applications, this`updateLoading
      ensures updateLoading.None?
      ensures forall app: Application :: !ButtonsDisabled(app)
      ensures response.Ok? ==> applications == SetStatus(old(applications), id, newStatus) && alert.None?
      ensures response.Fail? ==>
        && applications == old(applications)
        && alert == Some(MsgThenMessage(response.err, "Failed to update application status"))
    {
      if response.Ok? {
        applications := SetStatus(applications, id, newStatus);
        alert := None;
      } else {
        alert := Some(MsgThenMessage(response.err, "Failed to update application status"));
      }
      updateLoading := None;
    }
  }
}
