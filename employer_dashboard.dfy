/** The employer's dashboard: recent applications with the applicant's
    name found among several possible fields, and recent postings, each
    field with a fallback. */
module EmployerDashboard {
  import opened Wrappers
  import opened JsValue
  import opened Dashboard

  datatype SeekerProfile = SeekerProfile(fullName: Option<string>)

  datatype Seeker = Seeker(jobSeekerProfile: Option<SeekerProfile>, fullName: Option<string>, email: Option<string>)

  datatype JobRef = JobRef(title: Option<string>, location: Option<string>)

  /** A recent application, in any of the shapes the backend may send. */
  datatype Application = Application(jobSeeker: Option<Seeker>, applicantName: Option<string>,
                                     job: Option<JobRef>, jobTitle: Option<string>,
                                     jobLocation: Option<string>, status: Option<string>)

  /** A recent posting. */
  datatype Posting = Posting(title: Option<string>, location: Option<string>, jobType: Option<string>,
                             status: Option<string>)

  /** The places an applicant's name may be found, most specific first:
      the seeker's profile name, the seeker's name, the application's own
      applicant name, the seeker's email. */
  function NameCandidates(a: Application): seq<Option<string>> {
    var s := a.jobSeeker;
    [if s.Some? && s.value.jobSeekerProfile.Some? then s.value.jobSeekerProfile.value.fullName else None,
     if s.Some? then s.value.fullName else None,
     a.applicantName,
     if s.Some? then s.value.email else None]
  }

  /** `getApplicantName`: its chain of tests picks the first present
      candidate, and a missing application or one with none gives
      'Unknown Applicant'. */
  function ApplicantName(a: Option<Application>): (name: string)
    ensures a.None? ==> name == "Unknown Applicant"
    ensures a.Some? ==> name == FirstPresent(NameCandidates(a.value), "Unknown Applicant")
  {
    if a.None? then "Unknown Applicant"
    else
      var s := a.value.jobSeeker;
      var c := NameCandidates(a.value);
      assert c[1..][0] == c[1] && c[1..][1..][0] == c[2] && c[1..][1..][1..][0] == c[3];
      assert c[1..][1..][1..][1..] == [];
      if s.Some? && s.value.jobSeekerProfile.Some? && Present(s.value.jobSeekerProfile.value.fullName) then
        s.value.jobSeekerProfile.value.fullName.value
      else if s.Some? && Present(s.value.fullName) then s.value.fullName.value
      else if Present(a.value.applicantName) then a.value.applicantName.value
      else if s.Some? && Present(s.value.email) then s.value.email.value
      else "Unknown Applicant"
  }

  /** A name found anywhere wins over the fallback, and the email is used
      only when no name is. */
  lemma NameBeforeEmail(a: Application, email: string)
    requires email != ""
    requires a.jobSeeker == Some(Seeker(None, None, Some(email)))
    ensures !Present(a.applicantName) ==> ApplicantName(Some(a)) == email
    ensures Present(a.applicantName) ==> ApplicantName(Some(a)) == a.applicantName.value
  {
  }

  /** The job line of an application: the job's title, else the
      application's `jobTitle`, else 'Unknown Job'. */
  function AppliedFor(a: Application): (t: string)
    ensures t == FirstPresent([if a.job.Some? then a.job.value.title else None, a.jobTitle], "Unknown Job")
  {
    if a.job.Some? && Present(a.job.value.title) then a.job.value.title.value
    else TextOr(a.jobTitle, "Unknown Job")
  }

  /** The location line: the job's location, else `jobLocation`, else 'N/A'. */
  function AppliedWhere(a: Application): (t: string)
    ensures t == FirstPresent([if a.job.Some? then a.job.value.location else None, a.jobLocation], "N/A")
  {
    if a.job.Some? && Present(a.job.value.location) then a.job.value.location.value
    else TextOr(a.jobLocation, "N/A")
  }

  /** The status badge: the status, else 'pending'. */
  function StatusBadge(a: Application): (t: string)
    ensures t != ""
    ensures Present(a.status) ==> t == a.status.value
  {
    TextOr(a.status, "pending")
  }

  /** The text of a posting card: title, location, job type and status,
      each with its fallback; a null posting shows every fallback. */
  datatype Card = Card(title: string, location: string, jobType: string, status: string)

  function PostingCard(p: Option<Posting>): (c: Card)
    ensures p.None? ==> c == Card("Untitled Job", "N/A", "full-time", "draft")
    ensures p.Some? ==> c.title == TextOr(p.value.title, "Untitled Job")
    ensures p.Some? ==> c.location == TextOr(p.value.location, "N/A")
    ensures p.Some? ==> c.jobType == TextOr(p.value.jobType, "full-time")
    ensures p.Some? ==> c.status == TextOr(p.value.status, "draft")
  {
    if p.None? then Card("Untitled Job", "N/A", "full-time", "draft")
    else Card(TextOr(p.value.title, "Untitled Job"), TextOr(p.value.location, "N/A"),
              TextOr(p.value.jobType, "full-time"), TextOr(p.value.status, "draft"))
  }

  /** Every line of a card is non-empty. */
  lemma CardLinesNonEmpty(p: Option<Posting>)
    ensures var c := PostingCard(p);
      c.title != "" && c.location != "" && c.jobType != "" && c.status != ""
  {
  }
}
