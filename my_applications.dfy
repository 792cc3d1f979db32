/** A job seeker's applications page: the list fetched from the backend,
    a status filter with per-status counts, the job fields shown for each
    application (with fallbacks between the two shapes the backend may
    send), status badges, and withdrawal. */
module MyApplications {
  import opened Wrappers
  import opened JsText
  import opened JsValue
  import opened Seqs
  import opened Backend

  /** The job an application refers to. `companyName` stands for the nested
      `employer.employerProfile.companyName`, absent when any step of that
      path is. */
  datatype JobInfo = JobInfo(id: JsVal, title: Option<string>, location: Option<string>,
                             jobType: Option<string>, companyName: Option<string>,
                             salaryMin: Option<int>, salaryMax: Option<int>, salaryPeriod: Option<string>)

  /** An application; the backend sends its job under `job` or under the
      capitalised `Job`. */
  datatype Application = Application(id: string, status: Option<string>,
                                     job: Option<JobInfo>, Job: Option<JobInfo>, jobId: JsVal)

  // ---------------------------------------------------------------- job fields

  /** `application?.<job>?.<field>`: absent when the job is. */
  function Field(j: Option<JobInfo>, f: JobInfo -> Option<string>): Option<string> {
    if j.Some? then f(j.value) else None
  }

  /** `a?.job?.f || a?.Job?.f || fallback`: the field of `job` when present,
      else that of `Job`, else the fallback. */
  function JobField(a: Application, f: JobInfo -> Option<string>, fallback: string): (r: string)
    ensures r == FirstPresent([Field(a.job, f), Field(a.Job, f)], fallback)
  {
    var cands := [Field(a.job, f), Field(a.Job, f)];
    assert cands[1..] == [Field(a.Job, f)];
    assert cands[1..][1..] == [];
    TextOr(Field(a.job, f), TextOr(Field(a.Job, f), fallback))
  }

  /** `getJobTitle`. */
  function JobTitle(a: Application): (t: string)
    ensures t != ""
    ensures a.job.Some? && Present(a.job.value.title) ==> t == a.job.value.title.value
    ensures !(a.job.Some? && Present(a.job.value.title)) && a.Job.Some? && Present(a.Job.value.title) ==> t == a.Job.value.title.value
    ensures !(a.job.Some? && Present(a.job.value.title)) && !(a.Job.Some? && Present(a.Job.value.title)) ==> t == "Unknown Job"
  {
    JobField(a, (j: JobInfo) => j.title, "Unknown Job")
  }

  /** `getCompanyName`. */
  function CompanyName(a: Application): (t: string)
    ensures t != ""
    ensures a.job.Some? && Present(a.job.value.companyName) ==> t == a.job.value.companyName.value
    ensures !(a.job.Some? && Present(a.job.value.companyName)) && a.Job.Some? && Present(a.Job.value.companyName) ==> t == a.Job.value.companyName.value
    ensures !(a.job.Some? && Present(a.job.value.companyName)) && !(a.Job.Some? && Present(a.Job.value.companyName)) ==> t == "Unknown Company"
  {
    JobField(a, (j: JobInfo) => j.companyName, "Unknown Company")
  }

  /** `getJobLocation`. */
  function JobLocation(a: Application): (t: string)
    ensures t != ""
    ensures a.job.Some? && Present(a.job.value.location) ==> t == a.job.value.location.value
    ensures !(a.job.Some? && Present(a.job.value.location)) && a.Job.Some? && Present(a.Job.value.location) ==> t == a.Job.value.location.value
    ensures !(a.job.Some? && Present(a.job.value.location)) && !(a.Job.Some? && Present(a.Job.value.location)) ==> t == "Not specified"
  {
    JobField(a, (j: JobInfo) => j.location, "Not specified")
  }

  /** `getJobType`. */
  function JobType(a: Application): (t: string)
    ensures t != ""
    ensures a.job.Some? && Present(a.job.value.jobType) ==> t == a.job.value.jobType.value
    ensures !(a.job.Some? && Present(a.job.value.jobType)) && a.Job.Some? && Present(a.Job.value.jobType) ==> t == a.Job.value.jobType.value
    ensures !(a.job.Some? && Present(a.job.value.jobType)) && !(a.Job.Some? && Present(a.Job.value.jobType)) ==> t == "Not specified"
  {
    JobField(a, (j: JobInfo) => j.jobType, "Not specified")
  }

  /** The id of a job, `undefined` without one. */
  function IdOf(j: Option<JobInfo>): JsVal {
    if j.Some? then j.value.id else JUndef
  }

  /** `getJobId`: the application's own `jobId` when truthy, else the id of
      `job`, else whatever `Job` carries (possibly nothing). */
  function JobId(a: Application): (r: JsVal)
    ensures Truthy(a.jobId) ==> r == a.jobId
    ensures !Truthy(a.jobId) && Truthy(IdOf(a.job)) ==> r == IdOf(a.job)
    ensures !Truthy(a.jobId) && !Truthy(IdOf(a.job)) ==> r == IdOf(a.Job)
  {
    Or(a.jobId, Or(IdOf(a.job), IdOf(a.Job)))
  }

  /** `getSalary`, with `money` standing for `toLocaleString`: the job is
      `job` when present and `Job` otherwise (a present `job` without a
      salary does not fall back); the range is shown only when both bounds
      are non-zero, with the period defaulting to 'year'. */
  function Salary(a: Application, money: int -> string): (r: string)
    ensures var j := if a.job.Some? then a.job else a.Job;
      r != "Not specified" <==> j.Some? && NonZero(j.value.salaryMin) && NonZero(j.value.salaryMax)
    ensures var j := if a.job.Some? then a.job else a.Job;
      r != "Not specified" ==>
        r == "₹" + money(j.value.salaryMin.value) + " - ₹" + money(j.value.salaryMax.value)
             + " / " + TextOr(j.value.salaryPeriod, "year")
  {
    var j := if a.job.Some? then a.job else a.Job;
    if j.Some? && NonZero(j.value.salaryMin) && NonZero(j.value.salaryMax) then
      var r := "₹" + money(j.value.salaryMin.value) + " - ₹" + money(j.value.salaryMax.value)
               + " / " + TextOr(j.value.salaryPeriod, "year");
      assert r[0] == '₹';
      r
    else "Not specified"
  }

  // ---------------------------------------------------------------- status

  /** The statuses that have a badge style of their own. */
  const Statuses: set<string> := {"pending", "reviewing", "shortlisted", "accepted", "rejected"}

  /** `getStatusClass`: a known status, in any letter case, gives its own
      class; anything else, or no status, gives the pending class. */
  function StatusClass(status: Option<string>): (c: string)
    ensures status.Some? && ToLower(status.value) in Statuses ==> c == "status-" + ToLower(status.value)
    ensures !(status.Some? && ToLower(status.value) in Statuses) ==> c == "status-pending"
  {
    if status.None? then "status-pending"
    else
      match ToLower(status.value)
      case "pending" => "status-pending"
      case "reviewing" => "status-reviewing"
      case "shortlisted" => "status-shortlisted"
      case "accepted" => "status-accepted"
      case "rejected" => "status-rejected"
      case _ => "status-pending"
  }

  /** The class does not depend on letter case. */
  lemma StatusClassIgnoresCase(s: string)
    ensures StatusClass(Some(ToUpper(s))) == StatusClass(Some(s))
  {
    LowerForgetsCase(s);
  }

  /** `formatStatus`: 'Pending' for no status, else the first letter
      upper-cased and the rest lower-cased. */
  function FormatStatus(status: Option<string>): (r: string)
    ensures !Present(status) ==> r == "Pending"
    ensures Present(status) ==> |r| == |status.value| && r[0] == UpperChar(status.value[0])
    ensures Present(status) ==> forall i :: 1 <= i < |r| ==> r[i] == LowerChar(status.value[i])
  {
    if !Present(status) then "Pending"
    else [UpperChar(status.value[0])] + ToLower(status.value[1..])
  }

  /** Formatting a formatted status changes nothing, and the format does
      not depend on the letter case of the input. */
  lemma FormatStatusIdempotent(s: string)
    ensures FormatStatus(Some(FormatStatus(Some(s)))) == FormatStatus(Some(s))
    ensures FormatStatus(Some(ToUpper(s))) == FormatStatus(Some(s))
  {
    if s != "" {
      FormatTwice(s);
      FormatOfUpper(s);
    } else {
      assert ToUpper(s) == "";
      FormatTwice("Pending");
    }
  }

  lemma FormatTwice(s: string)
    requires s != ""
    ensures FormatStatus(Some(FormatStatus(Some(s)))) == FormatStatus(Some(s))
  {
    var f := FormatStatus(Some(s));
    var g := FormatStatus(Some(f));
    CharCase(s[0]);
    forall i | 1 <= i < |g| ensures g[i] == f[i] {
      CharCase(s[i]);
    }
  }

  lemma FormatOfUpper(s: string)
    requires s != ""
    ensures FormatStatus(Some(ToUpper(s))) == FormatStatus(Some(s))
  {
    var u := ToUpper(s);
    var f := FormatStatus(Some(s));
    var g := FormatStatus(Some(u));
    CharCase(s[0]);
    assert g[0] == f[0];
    forall i | 1 <= i < |g| ensures g[i] == f[i] {
      assert u[i] == UpperChar(s[i]);
      CharCase(s[i]);
    }
  }

  /** `app.status?.toLowerCase() === f`. */
  predicate StatusIs(a: Application, f: string) {
    a.status.Some? && ToLower(a.status.value) == f
  }

  /** `filteredApplications`: everything for 'all', else the applications
      whose lower-cased status is the filter, in order. */
  function Filtered(apps: seq<Application>, filter: string): (r: seq<Application>)
    ensures filter == "all" ==> r == apps
    ensures filter != "all" ==> forall a :: a in r <==> a in apps && StatusIs(a, filter)
  {
    if filter == "all" then apps else Filter(apps, (a: Application) => StatusIs(a, filter))
  }

  /** The shown list keeps the order of the fetched one: filtering a list
      made of two parts filters each part in turn. */
  lemma FilteredKeepsOrder(xs: seq<Application>, ys: seq<Application>, filter: string)
    ensures Filtered(xs + ys, filter) == Filtered(xs, filter) + Filtered(ys, filter)
  {
    if filter != "all" {
      FilterAppend(xs, ys, (a: Application) => StatusIs(a, filter));
    }
  }

  /** `getFilteredCount`: what each filter button shows is the length of
      the list that filter displays. */
  function FilteredCount(apps: seq<Application>, filter: string): (n: nat)
    ensures n == |Filtered(apps, filter)|
    ensures filter == "all" ==> n == |apps|
  {
    if filter == "all" then |apps| else |Filter(apps, (a: Application) => StatusIs(a, filter))|
  }

  /** The five status buttons never count one application twice: their
      counts add up to at most the 'All' count. */
  lemma {:induction false} ButtonCountsWithinTotal(apps: seq<Application>)
    ensures FilteredCount(apps, "pending") + FilteredCount(apps, "reviewing") + FilteredCount(apps, "shortlisted")
            + FilteredCount(apps, "accepted") + FilteredCount(apps, "rejected") <= FilteredCount(apps, "all")
    decreases |apps|
  {
    if |apps| > 0 {
      ButtonCountsWithinTotal(apps[1..]);
    }
  }

  // ---------------------------------------------------------------- withdraw

  /** The list after withdrawing `id`: every application with that id is
      gone and every other one is kept. */
  function Withdrawn(apps: seq<Application>, id: string): (r: seq<Application>)
    ensures forall a :: a in r <==> a in apps && a.id != id
    ensures |r| <= |apps|
  {
    Filter(apps, (a: Application) => a.id != id)
  }

  /** Withdrawing keeps the others in their order: withdrawing from a list
      made of two parts withdraws from each. */
  lemma WithdrawnKeepsOrder(xs: seq<Application>, ys: seq<Application>, id: string)
    ensures Withdrawn(xs + ys, id) == Withdrawn(xs, id) + Withdrawn(ys, id)
  {
    FilterAppend(xs, ys, (a: Application) => a.id != id);
  }

  /** Withdrawing an id already withdrawn changes nothing. */
  lemma {:induction false} WithdrawnIdempotent(apps: seq<Application>, id: string)
    ensures Withdrawn(Withdrawn(apps, id), id) == Withdrawn(apps, id)
  {
    FilterKeepsAll(Withdrawn(apps, id), (a: Application) => a.id != id);
  }

  // ---------------------------------------------------------------- the page

  const FetchFailed: string := "Failed to fetch applications"

  class Page {
    var applications: seq<Application>
    var loading: bool
    var error: Option<string>
    var filter: string

    constructor()
      ensures applications == [] && loading && error == None && filter == "all"
    {
      applications := [];
      loading := true;
      error := None;
      filter := "all";
    }

    /** `fetchApplications` completes: a success reply sets the list (an
        absent list reads as empty) and no error; a non-success reply or a
        failure empties the list and sets the message, or the fixed
        fallback; loading ends either way. */
    method Load(reply: Reply<Option<seq<Application>>>)
      modifies this
      ensures reply.Ok? ==> error == None && applications == reply.data.GetOr([])
      ensures reply.NotOk? ==> error == Some(TextOr(reply.message, FetchFailed)) && applications == []
      ensures reply.Thrown? ==> error == Some(TextOr(reply.failure.message, FetchFailed)) && applications == []
      ensures !loading && filter == old(filter)
    {
      loading := true;
      error := None;
      if reply.Ok? {
        applications := reply.data.GetOr([]);
      } else if reply.NotOk? {
        error := Some(TextOr(reply.message, FetchFailed));
        applications := [];
      } else {
        error := Some(TextOr(reply.failure.message, FetchFailed));
        applications := [];
      }
      loading := false;
    }

    /** `handleWithdraw(id)`: nothing is sent unless the user confirms; a
        successful DELETE removes the application, a failed one keeps the
        list. */
    method Withdraw(id: string, confirmed: bool, ok: bool) returns (sent: bool)
      modifies this
      ensures sent == confirmed
      ensures applications == if confirmed && ok then Withdrawn(old(applications), id) else old(applications)
      ensures loading == old(loading) && error == old(error) && filter == old(filter)
    {
      if !confirmed {
        return false;
      }
      sent := true;
      if ok {
        applications := Withdrawn(applications, id);
      }
    }

    /** A filter button. */
    method SetFilter(f: string)
      modifies this
      ensures filter == f
      ensures applications == old(applications) && loading == old(loading) && error == old(error)
    {
      filter := f;
    }

    /** What the list shows. */
    function Shown(): seq<Application>
      reads this
    {
      Filtered(applications, filter)
    }
  }
}
