/** The employer's list of their own postings: salary ranges, a skills
    summary, descriptions shortened as the job list shortens them, and
    deletion behind a confirmation. */
module MyJobs {
  import opened Wrappers
  import opened JsText
  import opened JsValue
  import opened Backend
  import opened Skills
  import JobListPage

  /** `formatSalary(min, max)`, with `money` standing for
      `toLocaleString`; 0 or a missing bound counts as absent. */
  function FormatSalary(min: Option<int>, max: Option<int>, money: int -> string): (r: string)
    ensures !NonZero(min) && !NonZero(max) ==> r == "Not specified"
    ensures !NonZero(min) && NonZero(max) ==> r == "Up to $" + money(max.value)
    ensures NonZero(min) && !NonZero(max) ==> r == "From $" + money(min.value)
    ensures NonZero(min) && NonZero(max) ==> r == "$" + money(min.value) + " - $" + money(max.value)
  {
    if !NonZero(min) && !NonZero(max) then "Not specified"
    else if !NonZero(min) then "Up to $" + money(max.value)
    else if !NonZero(max) then "From $" + money(min.value)
    else "$" + money(min.value) + " - $" + money(max.value)
  }

  /** Exactly the postings with no usable bound read 'Not specified', and
      every other text names a dollar amount. */
  lemma SalaryShownIffBound(min: Option<int>, max: Option<int>, money: int -> string)
    ensures FormatSalary(min, max, money) == "Not specified" <==> !NonZero(min) && !NonZero(max)
    ensures FormatSalary(min, max, money) != "Not specified" ==> '$' in FormatSalary(min, max, money)
  {
    var r := FormatSalary(min, max, money);
    if NonZero(min) || NonZero(max) {
      assert r[0] != 'N';
      if !NonZero(min) {
        assert r[6] == '$';
      } else if !NonZero(max) {
        assert r[5] == '$';
      } else {
        assert r[0] == '$';
      }
    }
  }

  /** The skills line: nothing without skills; otherwise the first three
      joined with ', ', and " +N more" for the N skills left out. */
  function SkillsSummary(skills: seq<string>): (r: Option<string>)
    ensures r.None? <==> |skills| == 0
    ensures 0 < |skills| <= 3 ==> r == Some(Join(skills, ", "))
    ensures |skills| > 3 ==> r == Some(Join(skills[..3], ", ") + " +" + NatToText(|skills| - 3) + " more")
  {
    if |skills| == 0 then None
    else if |skills| <= 3 then Some(Join(skills, ", "))
    else Some(Join(skills[..3], ", ") + " +" + NatToText(|skills| - 3) + " more")
  }

  /** The skills the summary lists read back: up to three well-formed
      skills are shown whole and parse back as the list; beyond three, the
      three shown parse back as the first three. */
  lemma SummaryReadsBack(skills: seq<string>)
    requires AllWellFormed(skills) && |skills| > 0
    ensures |skills| <= 3 ==> Parse(SkillsSummary(skills).value) == skills
    ensures |skills| > 3 ==> Parse(Show(skills[..3])) == skills[..3]
  {
    if |skills| <= 3 {
      ShortSummaryReadsBack(skills);
    } else {
      HeadReadsBack(skills);
    }
  }

  /** The count in " +N more" reads back as the number of skills left out,
      so N plus the three shown is the list's length. */
  lemma SummaryCountReadsBack(skills: seq<string>)
    requires |skills| > 3
    ensures ParseInt(NatToText(|skills| - 3)) == Some(|skills| - 3)
  {
    ParseIntOfText(|skills| - 3);
  }

  lemma HeadReadsBack(skills: seq<string>)
    requires AllWellFormed(skills) && |skills| > 3
    ensures Parse(Show(skills[..3])) == skills[..3]
  {
    var head := skills[..3];
    assert AllWellFormed(head) by {
      forall i | 0 <= i < |head| ensures WellFormed(head[i]) {
        assert head[i] == skills[i];
      }
    }
    ParseShow(head);
  }

  lemma ShortSummaryReadsBack(skills: seq<string>)
    requires AllWellFormed(skills) && 0 < |skills| <= 3
    ensures Parse(SkillsSummary(skills).value) == skills
  {
    assert SkillsSummary(skills).value == Show(skills);
    ParseShow(skills);
  }

  /** The DELETE and the reloads `handleDelete(id)` makes: nothing when the
      confirmation is declined; the DELETE, then (only if it succeeded)
      reloads of the postings and of the statistics. */
  function DeleteRequests(jobId: string, confirmed: bool, ok: bool): (r: seq<string>)
    ensures !confirmed ==> r == []
    ensures confirmed ==> |r| >= 1 && r[0] == "DELETE /jobs/" + jobId
    ensures confirmed && ok ==> r[1..] == ["GET /jobs/employer/my-jobs", "GET /jobs/employer/stats"]
    ensures confirmed && !ok ==> r[1..] == []
  {
    if !confirmed then []
    else ["DELETE /jobs/" + jobId] + (if ok then ["GET /jobs/employer/my-jobs", "GET /jobs/employer/stats"] else [])
  }

  /** A posting as the list shows it. */
  datatype Posting = Posting(id: string, description: string, salaryMin: Option<int>,
                             salaryMax: Option<int>, skills: seq<string>)

  /** What a posting's card shows: the description, shortened as the job
      list shortens it; the salary label; the skills line. */
  datatype Card = Card(description: string, salary: string, skills: Option<string>)

  function CardOf(p: Posting, money: int -> string): (r: Card)
    ensures |p.description| <= 200 ==> r.description == p.description
    ensures |p.description| > 200 ==> r.description == p.description[..200] + "..."
    ensures r.salary == "Not specified" <==> !NonZero(p.salaryMin) && !NonZero(p.salaryMax)
    ensures r.skills.None? <==> |p.skills| == 0
    ensures r.salary == FormatSalary(p.salaryMin, p.salaryMax, money)
    ensures r.skills == SkillsSummary(p.skills)
  {
    var d := JobListPage.Excerpt(p.description);
    assert |p.description| > 200 ==> d == d[..200] + d[200..];
    SalaryShownIffBound(p.salaryMin, p.salaryMax, money);
    Card(d, FormatSalary(p.salaryMin, p.salaryMax, money), SkillsSummary(p.skills))
  }

  /** The statistics shown before `fetchStats` answers. */
  const ZeroStats: Obj := map["totalJobs" := JNum(0), "activeJobs" := JNum(0), "closedJobs" := JNum(0)]

  class Page {
    var jobs: seq<Posting>
    var stats: Obj
    var loading: bool

    /** No postings yet, every statistic 0, loading. */
    constructor()
      ensures jobs == [] && stats == ZeroStats && loading
    {
      jobs := [];
      stats := ZeroStats;
      loading := true;
    }

    /** `fetchMyJobs` completes: success replaces the list, failure keeps
        it; loading ends either way. */
    method Load(reply: Call<seq<Posting>>)
      modifies this
      ensures jobs == if reply.Resolved? then reply.value else old(jobs)
      ensures !loading && stats == old(stats)
    {
      if reply.Resolved? {
        jobs := reply.value;
      }
      loading := false;
    }

    /** `fetchStats` completes: success replaces the statistics, a failure
        is ignored. */
    method LoadStats(reply: Call<Obj>)
      modifies this
      ensures stats == if reply.Resolved? then reply.value else old(stats)
      ensures jobs == old(jobs) && loading == old(loading)
    {
      if reply.Resolved? {
        stats := reply.value;
      }
    }
  }
}
