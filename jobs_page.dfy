/** The older job-search page: four filters, of which only the two text
    inputs (keyword and location) are debounced; the debounce timer keeps
    the filters of the moment its edit was handled; every falsy parameter is
    dropped; and a completed fetch replaces the whole pagination object. */
module JobsPage {
  import opened Wrappers
  import opened JsText
  import opened JsValue
  import opened Backend
  import JobListPage

  // ---------------------------------------------------------------- filters

  datatype Field = Keyword | Location | JobType | ExperienceLevel

  datatype Filters = Filters(keyword: string, location: string, jobType: string, experienceLevel: string)

  const Cleared: Filters := Filters("", "", "", "")

  function Value(fs: Filters, f: Field): string {
    match f
    case Keyword => fs.keyword
    case Location => fs.location
    case JobType => fs.jobType
    case ExperienceLevel => fs.experienceLevel
  }

  /** `{...filters, [name]: value}`. */
  function With(fs: Filters, f: Field, value: string): (r: Filters)
    ensures forall g :: Value(r, g) == (if g == f then value else Value(fs, g))
  {
    match f
    case Keyword => fs.(keyword := value)
    case Location => fs.(location := value)
    case JobType => fs.(jobType := value)
    case ExperienceLevel => fs.(experienceLevel := value)
  }

  /** Only the two text inputs are debounced. */
  predicate Debounced(f: Field) {
    f == Keyword || f == Location
  }

  // ---------------------------------------------------------------- query parameters

  /** `{...filters, page, limit: 10}` before pruning. */
  function Raw(fs: Filters, page: int): Obj {
    map["keyword" := JStr(fs.keyword), "location" := JStr(fs.location),
        "jobType" := JStr(fs.jobType), "experienceLevel" := JStr(fs.experienceLevel),
        "page" := JNum(page), "limit" := JNum(10)]
  }

  /** `if (!params[key]) delete params[key]`. */
  predicate Falsy(v: JsVal) {
    !Truthy(v)
  }

  function Query(fs: Filters, page: int): (q: Obj)
    ensures "limit" in q && q["limit"] == JNum(10)
    ensures forall k :: k in q ==> !Falsy(q[k])
  {
    Pruned(Raw(fs, page), Falsy)
  }

  /** The limit 10 is always sent and the page whenever it is not 0; a
      filter is sent exactly when it is not empty, and then unchanged. */
  lemma QueryShape(fs: Filters, page: int)
    ensures var q := Query(fs, page);
      && "limit" in q && q["limit"] == JNum(10)
      && ("page" in q <==> page != 0) && ("page" in q ==> q["page"] == JNum(page))
      && ("keyword" in q <==> fs.keyword != "") && ("keyword" in q ==> q["keyword"] == JStr(fs.keyword))
      && ("location" in q <==> fs.location != "") && ("location" in q ==> q["location"] == JStr(fs.location))
      && ("jobType" in q <==> fs.jobType != "") && ("jobType" in q ==> q["jobType"] == JStr(fs.jobType))
      && ("experienceLevel" in q <==> fs.experienceLevel != "")
      && ("experienceLevel" in q ==> q["experienceLevel"] == JStr(fs.experienceLevel))
      && q.Keys <= {"keyword", "location", "jobType", "experienceLevel", "page", "limit"}
  {
    QueryPaging(fs, page);
    QueryFilters(fs, page);
    QueryKeys(fs, page);
  }

  lemma QueryPaging(fs: Filters, page: int)
    ensures var q := Query(fs, page);
      && "limit" in q && q["limit"] == JNum(10)
      && ("page" in q <==> page != 0) && ("page" in q ==> q["page"] == JNum(page))
  {
  }

  lemma QueryFilters(fs: Filters, page: int)
    ensures var q := Query(fs, page);
      && ("keyword" in q <==> fs.keyword != "") && ("keyword" in q ==> q["keyword"] == JStr(fs.keyword))
      && ("location" in q <==> fs.location != "") && ("location" in q ==> q["location"] == JStr(fs.location))
      && ("jobType" in q <==> fs.jobType != "") && ("jobType" in q ==> q["jobType"] == JStr(fs.jobType))
      && ("experienceLevel" in q <==> fs.experienceLevel != "")
      && ("experienceLevel" in q ==> q["experienceLevel"] == JStr(fs.experienceLevel))
  {
  }

  lemma QueryKeys(fs: Filters, page: int)
    ensures Query(fs, page).Keys <= {"keyword", "location", "jobType", "experienceLevel", "page", "limit"}
  {
  }

  // ---------------------------------------------------------------- display

  /** `formatSalary(min, max, period)`: `number` stands for the browser's
      number formatter; there is no '/' before the period. */
  function FormatSalary(min: Option<int>, max: Option<int>, period: JsVal, number: int -> string): (r: string)
    ensures !NonZero(min) && !NonZero(max) ==> r == "Salary not specified"
    ensures NonZero(min) && NonZero(max) ==>
      r == "$" + number(min.value) + " - $" + number(max.value) + " " + ToText(period)
    ensures NonZero(min) && !NonZero(max) ==> r == "$" + number(min.value) + "+ " + ToText(period)
    ensures !NonZero(min) && NonZero(max) ==> r == "Up to $" + number(max.value) + " " + ToText(period)
  {
    if !NonZero(min) && !NonZero(max) then "Salary not specified"
    else if NonZero(min) && NonZero(max) then
      "$" + number(min.value) + " - $" + number(max.value) + " " + ToText(period)
    else if NonZero(min) then "$" + number(min.value) + "+ " + ToText(period)
    else "Up to $" + number(max.value) + " " + ToText(period)
  }

  /** A label with a salary always shows a '$' amount, and the fallback
      label has none. */
  lemma SalaryShownIffBound(min: Option<int>, max: Option<int>, period: JsVal, number: int -> string)
    ensures (NonZero(min) || NonZero(max)) <==> '$' in FormatSalary(min, max, period, number)
  {
    var r := FormatSalary(min, max, period, number);
    if NonZero(min) {
      assert r[0] == '$';
    } else if NonZero(max) {
      assert r[6] == '$';
    } else {
      assert r == "Salary not specified";
    }
  }

  /** "Found N job" or "Found N jobs". */
  function ResultLabel(total: int): (r: string)
    ensures r == "Found " + IntToText(total) + (if total == 1 then " job" else " jobs")
  {
    "Found " + IntToText(total) + " job" + (if total != 1 then "s" else "")
  }

  /** The label is singular exactly when the total is 1. */
  lemma LabelPluralIffNotOne(total: int)
    ensures ResultLabel(total)[|ResultLabel(total)| - 1] == 's' <==> total != 1
  {
  }

  /** The card excerpt: the first 200 characters, then '...' when there
      were more. */
  function Excerpt(description: string): (r: string)
    ensures |description| <= 200 ==> r == description
    ensures |description| > 200 ==> |r| == 203 && r[..200] == description[..200] && r[200..] == "..."
  {
    description[..if |description| < 200 then |description| else 200]
    + (if |description| > 200 then "..." else "")
  }

  /** It is the same excerpt as the newer list page shows. */
  lemma ExcerptAgrees(description: string)
    ensures Excerpt(description) == JobListPage.Excerpt(description)
  {
    if |description| <= 200 {
      assert description[..|description|] == description;
    }
  }

  // ---------------------------------------------------------------- the controller

  /** A result page: the jobs and the server's pagination object. */
  datatype Pagination = Pagination(page: int, pages: int, total: int)
  datatype Listing = Listing(jobs: seq<JobListPage.Job>, pagination: Pagination)

  /** A pending debounced edit and the filters of the render that handled it. */
  datatype Pending = Pending(before: Filters, field: Field, value: string)

  class Controller {
    var jobs: seq<JobListPage.Job>
    var loading: bool
    var filters: Filters
    var page: int
    var pages: int
    var total: int
    var timer: Option<Pending>

    constructor()
      ensures jobs == [] && loading && filters == Cleared && timer == None
      ensures page == 1 && pages == 1 && total == 0
    {
      jobs := [];
      loading := true;
      filters := Cleared;
      page := 1;
      pages := 1;
      total := 0;
      timer := None;
    }

    /** `fetchJobs` up to the request. */
    method Fetch(current: Filters, currentPage: int) returns (q: Obj)
      modifies this
      ensures q == Query(current, currentPage) && loading
      ensures jobs == old(jobs) && filters == old(filters) && page == old(page)
      ensures pages == old(pages) && total == old(total) && timer == old(timer)
    {
      loading := true;
      q := Prune(Raw(current, currentPage), Falsy);
    }

    /** Moving to page 1 with a fetch of `current`: the page-change effect
        adds a fetch of the current filters when the page changed. */
    method RestartAtFirstPage(current: Filters) returns (issued: seq<Obj>)
      modifies this
      ensures page == 1 && loading
      ensures issued == [Query(current, 1)] + (if old(page) == 1 then [] else [Query(filters, 1)])
      ensures jobs == old(jobs) && filters == old(filters)
      ensures pages == old(pages) && total == old(total) && timer == old(timer)
    {
      var changed := page != 1;
      page := 1;
      var q := Fetch(current, 1);
      issued := [q];
      if changed {
        var again := Fetch(filters, 1);
        issued := issued + [again];
      }
    }

    /** The first fetch, made when the page mounts: the current page with
        the current filters. */
    method Mount() returns (issued: seq<Obj>)
      modifies this
      ensures issued == [Query(filters, page)] && loading
      ensures jobs == old(jobs) && filters == old(filters) && page == old(page)
      ensures pages == old(pages) && total == old(total) && timer == old(timer)
    {
      var q := Fetch(filters, page);
      issued := [q];
    }

    /** `handleFilterChange`: the field takes the value; a text field
        replaces any pending timer with one for this edit, remembering the
        filters as they were when the edit was handled; a select field
        leaves the timer alone. */
    method EditFilter(f: Field, value: string)
      modifies this
      ensures filters == With(old(filters), f, value)
      ensures Debounced(f) ==> timer == Some(Pending(old(filters), f, value))
      ensures !Debounced(f) ==> timer == old(timer)
      ensures jobs == old(jobs) && loading == old(loading) && page == old(page)
      ensures pages == old(pages) && total == old(total)
    {
      var before := filters;
      filters := With(filters, f, value);
      if Debounced(f) {
        timer := None;
        timer := Some(Pending(before, f, value));
      }
    }

    /** The pending timer fires: page 1 is fetched with the remembered
        filters plus the edited field. */
    method TimerFires() returns (issued: seq<Obj>)
      requires timer.Some?
      modifies this
      ensures timer == None && page == 1 && loading
      ensures var p := old(timer.value);
        issued == [Query(With(p.before, p.field, p.value), 1)] + (if old(page) == 1 then [] else [Query(filters, 1)])
      ensures jobs == old(jobs) && filters == old(filters) && pages == old(pages) && total == old(total)
    {
      var p := timer.value;
      timer := None;
      issued := RestartAtFirstPage(With(p.before, p.field, p.value));
    }

    /** `handleSearch`: the timer is cancelled and page 1 is fetched with
        the current filters. */
    method SearchNow() returns (issued: seq<Obj>)
      modifies this
      ensures timer == None && page == 1 && loading
      ensures issued == [Query(filters, 1)] + (if old(page) == 1 then [] else [Query(filters, 1)])
      ensures jobs == old(jobs) && filters == old(filters) && pages == old(pages) && total == old(total)
    {
      timer := None;
      issued := RestartAtFirstPage(filters);
    }

    /** `handleReset`: the timer is cancelled, the four filters are emptied
        and page 1 is fetched with none of them. */
    method Reset() returns (issued: seq<Obj>)
      modifies this
      ensures timer == None && page == 1 && loading && filters == Cleared
      ensures issued == [Query(Cleared, 1)] + (if old(page) == 1 then [] else [Query(Cleared, 1)])
      ensures jobs == old(jobs) && pages == old(pages) && total == old(total)
    {
      timer := None;
      filters := Cleared;
      issued := RestartAtFirstPage(Cleared);
    }

    /** The pagination bar is drawn only once loading has ended and there
        is more than one page; Previous is enabled off page 1, Next off the
        last page. */
    predicate PrevEnabled()
      reads this
    {
      !loading && pages > 1 && page != 1
    }

    predicate NextEnabled()
      reads this
    {
      !loading && pages > 1 && page != pages
    }

    /** The page as far as the bar can tell: between 1 and the page count. */
    predicate InRange()
      reads this
    {
      1 <= page <= pages
    }

    /** Previous: when enabled, the page goes down by one and the
        page-change effect fetches it; otherwise nothing happens. A page in
        range stays in range. */
    method PrevPage() returns (issued: seq<Obj>)
      modifies this
      ensures old(PrevEnabled()) ==> page == old(page) - 1 && issued == [Query(filters, page)] && loading
      ensures !old(PrevEnabled()) ==> page == old(page) && issued == [] && loading == old(loading)
      ensures old(InRange()) ==> InRange()
      ensures jobs == old(jobs) && filters == old(filters) && pages == old(pages)
      ensures total == old(total) && timer == old(timer)
    {
      if PrevEnabled() {
        page := page - 1;
        var q := Fetch(filters, page);
        issued := [q];
      } else {
        issued := [];
      }
    }

    /** Next, symmetrically. */
    method NextPage() returns (issued: seq<Obj>)
      modifies this
      ensures old(NextEnabled()) ==> page == old(page) + 1 && issued == [Query(filters, page)] && loading
      ensures !old(NextEnabled()) ==> page == old(page) && issued == [] && loading == old(loading)
      ensures old(InRange()) ==> InRange()
      ensures jobs == old(jobs) && filters == old(filters) && pages == old(pages)
      ensures total == old(total) && timer == old(timer)
    {
      if NextEnabled() {
        page := page + 1;
        var q := Fetch(filters, page);
        issued := [q];
      } else {
        issued := [];
      }
    }

    /** A fetch completes. Success replaces the jobs and the whole
        pagination object; if that moves the page, the page-change effect
        fetches the new page. Failure changes nothing but the loading flag. */
    method FetchDone(reply: Call<Listing>) returns (issued: seq<Obj>)
      modifies this
      ensures reply.Resolved? ==>
        jobs == reply.value.jobs && page == reply.value.pagination.page
        && pages == reply.value.pagination.pages && total == reply.value.pagination.total
      ensures reply.Resolved? && page != old(page) ==> issued == [Query(filters, page)] && loading
      ensures reply.Resolved? && page == old(page) ==> issued == [] && !loading
      ensures reply.Rejected? ==>
        issued == [] && !loading && jobs == old(jobs) && page == old(page)
        && pages == old(pages) && total == old(total)
      ensures filters == old(filters) && timer == old(timer)
    {
      issued := [];
      if reply.Resolved? {
        var before := page;
        jobs := reply.value.jobs;
        page := reply.value.pagination.page;
        pages := reply.value.pagination.pages;
        total := reply.value.pagination.total;
        loading := false;
        if page != before {
          var q := Fetch(filters, page);
          issued := [q];
        }
      } else {
        loading := false;
      }
    }

    /** The page unmounts: a pending timer is cancelled. */
    method Unmount()
      modifies this
      ensures timer == None
      ensures jobs == old(jobs) && filters == old(filters) && page == old(page)
      ensures pages == old(pages) && total == old(total) && loading == old(loading)
    {
      timer := None;
    }
  }

  /** A keyword edit, then a job-type choice before the keyword's timer
      fires: the debounced fetch uses the filters remembered at the keyword
      edit, so it carries the new keyword but the job type from before. */
  method StaleJobType(c: Controller, keyword: string, jobType: string) returns (issued: seq<Obj>)
    requires c.page == 1
    modifies c
    ensures c.filters == With(With(old(c.filters), Keyword, keyword), JobType, jobType)
    ensures issued == [Query(With(old(c.filters), Keyword, keyword), 1)]
  {
    c.EditFilter(Keyword, keyword);
    c.EditFilter(JobType, jobType);
    issued := c.TimerFires();
  }
}
