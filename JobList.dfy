/** "My Jobs": the jobs of the signed-in employer, found by reading the
    user id out of the stored JSON Web Token (RFC 7519), and deletion. */
module JobList {
  import opened Common
  import opened JobRecord

  /** A job belongs to `uid` when its employer is that id, or a populated
      employer object with that `_id`. */
  predicate OwnedBy(job: Job, uid: string)
  {
    match job.employer
    case EmployerId(e) => e == uid
    case EmployerObject(oid) => oid == Some(uid)
    case NoEmployer => false
  }

  /** The jobs the page keeps from the full list: the employer's own with a
      user id, and all of them without one. */
  function EmployerJobs(jobs: seq<Job>, uid: Option<string>): (r: seq<Job>)
    ensures Truthy(uid) ==> forall i :: 0 <= i < |r| ==> OwnedBy(r[i], uid.value) && r[i] in jobs
    ensures Truthy(uid) ==> forall i :: 0 <= i < |jobs| && OwnedBy(jobs[i], uid.value) ==> jobs[i] in r
    ensures !Truthy(uid) ==> r == jobs
  {
    if Truthy(uid) then Filter(jobs, (k: Job) => OwnedBy(k, uid.value)) else jobs
  }

  /** The kept jobs are in their original order, each owned job as often as
      it was listed. */
  lemma EmployerJobsKeepOrder(jobs: seq<Job>, uid: Option<string>, j: Job)
    ensures IsSubsequence(EmployerJobs(jobs, uid), jobs)
    ensures Truthy(uid) ==>
      multiset(EmployerJobs(jobs, uid))[j] == if OwnedBy(j, uid.value) then multiset(jobs)[j] else 0
  {
    if Truthy(uid) {
      FilterIsSubsequence(jobs, (k: Job) => OwnedBy(k, uid.value));
      FilterCounts(jobs, (k: Job) => OwnedBy(k, uid.value), j);
    } else {
      SubsequenceRefl(jobs);
    }
  }

  lemma {:induction false} SubsequenceRefl<T>(s: seq<T>)
    ensures IsSubsequence(s, s)
    decreases |s|
  {
    if s != [] {
      SubsequenceRefl(s[1..]);
      SubsequenceCons(s[1..], s[1..], s[0]);
      assert [s[0]] + s[1..] == s;
    }
  }

  /** The list after `DELETE /jobs/:id` succeeded. */
  function RemoveJob(jobs: seq<Job>, id: string): (r: seq<Job>)
    ensures forall i :: 0 <= i < |r| ==> r[i].id != id && r[i] in jobs
    ensures forall i :: 0 <= i < |jobs| && jobs[i].id != id ==> jobs[i] in r
  {
    Filter(jobs, (k: Job) => k.id != id)
  }

  /** Removal keeps the other jobs in order and with their multiplicity,
      and an id no job has removes nothing. */
  lemma RemoveJobKeepsOthers(jobs: seq<Job>, id: string, j: Job)
    ensures IsSubsequence(RemoveJob(jobs, id), jobs)
    ensures multiset(RemoveJob(jobs, id))[j] == if j.id != id then multiset(jobs)[j] else 0
    ensures (forall i :: 0 <= i < |jobs| ==> jobs[i].id != id) ==> RemoveJob(jobs, id) == jobs
  {
    FilterIsSubsequence(jobs, (k: Job) => k.id != id);
    FilterCounts(jobs, (k: Job) => k.id != id, j);
    if forall i :: 0 <= i < |jobs| ==> jobs[i].id != id {
      FilterAllKept(jobs, (k: Job) => k.id != id);
    }
  }

  /** `token.split('.')[1]`; a token without a dot has no second segment,
      and reading it fails inside the `try`. */
  function PayloadSegment(token: string): (seg: Option<string>)
    ensures seg.Some? <==> '.' in token
    ensures seg.Some? ==> '.' !in seg.value
  {
    var parts := Split(token, '.');
    if |parts| >= 2 then Some(parts[1]) else None
  }

  /** A token shaped `header.payload.signature` yields its middle part. */
  lemma PayloadSegmentOfToken(header: string, payload: string, signature: string)
    requires '.' !in header && '.' !in payload
    ensures PayloadSegment(header + "." + payload + "." + signature) == Some(payload)
  {
    assert header + "." + payload + "." + signature == header + ['.'] + (payload + ['.'] + signature);
    SplitAt(header, payload + ['.'] + signature, '.');
    SplitAt(payload, signature, '.');
  }

  /** One character of the base64url alphabet (section 5 of RFC 4648)
      rewritten to the standard alphabet of section 4. */
  function StandardChar(c: char): char
  {
    if c == '-' then '+' else if c == '_' then '/' else c
  }

  function UrlChar(c: char): char
  {
    if c == '+' then '-' else if c == '/' then '_' else c
  }

  /** `.replace(/-/g, '+').replace(/_/g, '/')`. */
  function ToStandardBase64(s: string): (t: string)
    ensures |t| == |s|
    ensures forall i :: 0 <= i < |s| ==> t[i] == StandardChar(s[i])
    ensures '-' !in t && '_' !in t
  {
    if s == [] then [] else [StandardChar(s[0])] + ToStandardBase64(s[1..])
  }

  function ToUrlBase64(s: string): (t: string)
    ensures |t| == |s|
    ensures forall i :: 0 <= i < |s| ==> t[i] == UrlChar(s[i])
  {
    if s == [] then [] else [UrlChar(s[0])] + ToUrlBase64(s[1..])
  }

  /** The rewrite loses nothing on base64url text, which has no `+` or `/`. */
  lemma {:induction false} StandardBase64RoundTrip(s: string)
    requires '+' !in s && '/' !in s
    ensures ToUrlBase64(ToStandardBase64(s)) == s
  {
    if s != [] {
      assert '+' !in s[1..] && '/' !in s[1..] by {
        forall c | c in s[1..] ensures c in s { assert c in s; }
      }
      StandardBase64RoundTrip(s[1..]);
      assert ToStandardBase64(s) == [StandardChar(s[0])] + ToStandardBase64(s[1..]);
    }
  }

  /** The decoded JSON payload: `user.id` and the top-level `id`. */
  datatype TokenPayload = TokenPayload(userId: Option<string>, id: Option<string>)

  /** The user id the page filters by. `decode` stands for `atob`,
      `decodeURIComponent` and `JSON.parse`, failing with `None`. */
  function CurrentUserId(token: Option<string>, decode: string -> Option<TokenPayload>): (uid: Option<string>)
    ensures uid.Some? ==> Truthy(token) && '.' in token.value
    ensures Truthy(token) && PayloadSegment(token.value).Some? &&
            decode(ToStandardBase64(PayloadSegment(token.value).value)).Some? ==>
      var p := decode(ToStandardBase64(PayloadSegment(token.value).value)).value;
      uid == if Truthy(p.userId) then p.userId else p.id
    ensures (Truthy(token) && PayloadSegment(token.value).Some? &&
             decode(ToStandardBase64(PayloadSegment(token.value).value)).None?) ==> uid.None?
  {
    if !Truthy(token) then None
    else match PayloadSegment(token.value)
      case None => None
      case Some(seg) =>
        match decode(ToStandardBase64(seg))
        case None => None
        case Some(p) => if Truthy(p.userId) then p.userId else p.id
  }

  /** A token that cannot be read leaves the whole list in place. */
  lemma UnreadableTokenKeepsAllJobs(jobs: seq<Job>, token: Option<string>, decode: string -> Option<TokenPayload>)
    requires !Truthy(token) || '.' !in token.value ||
             decode(ToStandardBase64(PayloadSegment(token.value).value)).None?
    ensures EmployerJobs(jobs, CurrentUserId(token, decode)) == jobs
  {
  }

  class JobListPage {
    var jobs: seq<Job>
    var loading: bool
    var error: Option<string>
    /** The id of the job whose delete request is in flight. */
    var deleteLoading: Option<string>

    constructor ()
      ensures jobs == [] && loading && error.None? && deleteLoading.None?
    {
      jobs := [];
      loading := true;
      error := None;
      deleteLoading := None;
    }

    method BeginFetch()
      modifies this`loading
      ensures loading
    {
      loading := true;
    }

    /** The outcome of `GET /jobs`, filtered by the id in the stored token. */
    method FinishFetch(token: Option<string>, decode: string -> Option<TokenPayload>, response: Response<seq<Job>>)
      modifies this`jobs, this`error, this`loading
      ensures !loading
      ensures response.Ok? ==> jobs == EmployerJobs(response.data, CurrentUserId(token, decode)) && error.None?
      ensures response.Fail? ==>
        && jobs == old(jobs)
        && error == Some(MessageOnly(response.err, "Failed to load jobs"))
    {
      var uid := CurrentUserId(token, decode);
      match response {
        case Ok(all) =>
          jobs := EmployerJobs(all, uid);
          error := None;
        case Fail(e) =>
          error := Some(MessageOnly(e, "Failed to load jobs"));
      }
      loading := false;
    }

    /** The delete button of a card is disabled while its own request runs. */
    predicate DeleteDisabled(job: Job)
      reads this
    {
      deleteLoading == Some(job.id)
    }

    /** Pressing delete: a declined confirmation does nothing. */
    method BeginDelete(jobId: string, confirmed: bool) returns (sent: bool)
      modifies this`deleteLoading
      ensures sent == confirmed
      ensures confirmed ==> deleteLoading == Some(jobId)
      ensures !confirmed ==> deleteLoading == old(deleteLoading)
      ensures confirmed ==> forall job: Job :: DeleteDisabled(job) <==> job.id == jobId
    {
      sent := confirmed;
      if confirmed {
        deleteLoading := Some(jobId);
      }
    }

    /** The outcome of `DELETE /jobs/:id`; a failure is reported through `alert`. */
    method FinishDelete(jobId: string, response: Response<()>) returns (alert: Option<string>)
      modifies this`jobs, this`deleteLoading
      ensures deleteLoading.None?
      ensures forall job: Job :: !DeleteDisabled(job)
      ensures response.Ok? ==> jobs == RemoveJob(old(jobs), jobId) && alert.None?
      ensures response.Fail? ==>
        && jobs == old(jobs)
        && alert == Some(MessageOnly(response.err, "Failed to delete job"))
    {
      if response.Ok? {
        jobs := RemoveJob(jobs, jobId);
        alert := None;
      } else {
        alert := Some(MessageOnly(response.err, "Failed to delete job"));
      }
      deleteLoading := None;
    }
  }
}
