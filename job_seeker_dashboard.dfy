/** The job seeker's dashboard: recent applications and recommended jobs,
    the company name found among several possible fields, and a salary
    line shown only when both bounds are non-zero. */
module JobSeekerDashboard {
  import opened Wrappers
  import opened JsValue
  import opened Dashboard

  datatype EmployerProfile = EmployerProfile(companyName: Option<string>)

  datatype Employer = Employer(employerProfile: Option<EmployerProfile>, companyName: Option<string>)

  /** A job, as recommended or as attached to an application. */
  datatype Job = Job(employer: Option<Employer>, companyName: Option<string>, title: Option<string>,
                     location: Option<string>, salaryMin: Option<int>, salaryMax: Option<int>)

  /** A recent application. */
  datatype Application = Application(job: Option<Job>, jobTitle: Option<string>, jobLocation: Option<string>,
                                     status: Option<string>)

  /** The places a company name may be found, most specific first: the
      employer's profile, the employer, the job itself. */
  function CompanyCandidates(job: Job): seq<Option<string>> {
    var e := job.employer;
    [if e.Some? && e.value.employerProfile.Some? then e.value.employerProfile.value.companyName else None,
     if e.Some? then e.value.companyName else None,
     job.companyName]
  }

  /** `getCompanyName`: its chain of tests picks the first present
      candidate, and a missing job or one with none gives 'Unknown
      Company'. */
  function CompanyName(job: Option<Job>): (name: string)
    ensures job.None? ==> name == "Unknown Company"
    ensures job.Some? ==> name == FirstPresent(CompanyCandidates(job.value), "Unknown Company")
  {
    if job.None? then "Unknown Company"
    else
      var e := job.value.employer;
      var c := CompanyCandidates(job.value);
      assert c[1..][0] == c[1] && c[1..][1..][0] == c[2];
      assert c[1..][1..][1..] == [];
      if e.Some? && e.value.employerProfile.Some? && Present(e.value.employerProfile.value.companyName) then
        e.value.employerProfile.value.companyName.value
      else if e.Some? && Present(e.value.companyName) then e.value.companyName.value
      else TextOr(job.value.companyName, "Unknown Company")
  }

  /** The employer's profile wins over the employer's own field, which
      wins over the job's. */
  lemma ProfileNameFirst(job: Job, profileName: string)
    requires profileName != ""
    requires job.employer.Some? && job.employer.value.employerProfile == Some(EmployerProfile(Some(profileName)))
    ensures CompanyName(Some(job)) == profileName
  {
  }

  /** The title of an application: the job's title, else `jobTitle`, else
      'Unknown Job'. */
  function AppliedFor(a: Application): (t: string)
    ensures t == FirstPresent([if a.job.Some? then a.job.value.title else None, a.jobTitle], "Unknown Job")
  {
    if a.job.Some? && Present(a.job.value.title) then a.job.value.title.value
    else TextOr(a.jobTitle, "Unknown Job")
  }

  /** Where an applied-for job is: the job's location, else
      `jobLocation`, else 'N/A'. */
  function AppliedWhere(a: Application): (t: string)
    ensures t == FirstPresent([if a.job.Some? then a.job.value.location else None, a.jobLocation], "N/A")
    ensures t != ""
  {
    if a.job.Some? && Present(a.job.value.location) then a.job.value.location.value
    else TextOr(a.jobLocation, "N/A")
  }

  /** The status badge: the status, else 'pending'. */
  function StatusBadge(a: Application): (t: string)
    ensures t != ""
    ensures Present(a.status) ==> t == a.status.value
    ensures !Present(a.status) ==> t == "pending"
  {
    TextOr(a.status, "pending")
  }

  /** The title and location lines of a recommended job's card. */
  datatype JobCard = JobCard(title: string, location: string)

  /** A recommended job's card: its title, else 'Untitled Job'; its
      location, else 'N/A'; a missing job shows both fallbacks. */
  function JobCardOf(job: Option<Job>): (c: JobCard)
    ensures job.None? ==> c == JobCard("Untitled Job", "N/A")
    ensures job.Some? ==> c.title == TextOr(job.value.title, "Untitled Job")
    ensures job.Some? ==> c.location == TextOr(job.value.location, "N/A")
    ensures c.title != "" && c.location != ""
  {
    if job.None? then JobCard("Untitled Job", "N/A")
    else JobCard(TextOr(job.value.title, "Untitled Job"), TextOr(job.value.location, "N/A"))
  }

  /** The salary shown for a recommended job, with `money` standing for
      `toLocaleString`. The guard `job?.salaryMin && job?.salaryMax && (...)`
      renders its first falsy operand: nothing for a missing job or a
      missing bound, but the text "0" for a bound equal to 0. The line
      itself is shown only when both bounds are non-zero. */
  function Salary(job: Option<Job>, money: int -> string): (r: Option<string>)
    ensures r.Some? && r.value != "0" <==> job.Some? && NonZero(job.value.salaryMin) && NonZero(job.value.salaryMax)
    ensures r.Some? && r.value != "0" ==>
      r.value == "$" + money(job.value.salaryMin.value) + " - $" + money(job.value.salaryMax.value)
    ensures r == Some("0") <==>
      job.Some? && (job.value.salaryMin == Some(0) || (NonZero(job.value.salaryMin) && job.value.salaryMax == Some(0)))
  {
    if job.None? then None
    else if !NonZero(job.value.salaryMin) then (if job.value.salaryMin == Some(0) then Some("0") else None)
    else if !NonZero(job.value.salaryMax) then (if job.value.salaryMax == Some(0) then Some("0") else None)
    else
      var line := "$" + money(job.value.salaryMin.value) + " - $" + money(job.value.salaryMax.value);
      assert line[0] == '$';
      Some(line)
  }

  /** A job with only one non-zero bound shows no amount: nothing, or the
      stray "0" when the other bound is 0. */
  lemma OneBoundShowsNoAmount(job: Job, money: int -> string)
    requires NonZero(job.salaryMin) != NonZero(job.salaryMax)
    ensures Salary(Some(job), money) == None || Salary(Some(job), money) == Some("0")
    ensures Salary(Some(job), money) == Some("0") <==> job.salaryMin == Some(0) || job.salaryMax == Some(0)
  {
  }
}
