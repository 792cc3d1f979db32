/** The job-search page: six text filters, a 500 ms debounce on filter
    edits, search and clear buttons, previous/next pagination, and the job
    list the last completed fetch returned. Time is not modelled: the
    debounce timer is a pending edit that is either cancelled or fires. */
module JobListPage {
  import opened Wrappers
  import opened JsText
  import opened JsValue
  import opened Backend

  // ---------------------------------------------------------------- filters

  /** The `name` of each filter input. */
  datatype Field = Search | JobType | Location | ExperienceLevel | MinSalary | MaxSalary

  function Key(f: Field): string {
    match f
    case Search => "search"
    case JobType => "jobType"
    case Location => "location"
    case ExperienceLevel => "experienceLevel"
    case MinSalary => "minSalary"
    case MaxSalary => "maxSalary"
  }

  /** The filter state: the text of each input. */
  datatype Filters = Filters(search: string, jobType: string, location: string,
                             experienceLevel: string, minSalary: string, maxSalary: string)

  /** All six filters empty: the initial state and what clear restores. */
  const Cleared: Filters := Filters("", "", "", "", "", "")

  function Value(fs: Filters, f: Field): string {
    match f
    case Search => fs.search
    case JobType => fs.jobType
    case Location => fs.location
    case ExperienceLevel => fs.experienceLevel
    case MinSalary => fs.minSalary
    case MaxSalary => fs.maxSalary
  }

  /** `{...filters, [name]: value}`: the named filter gets the value and the
      others keep theirs. */
  function With(fs: Filters, f: Field, value: string): (r: Filters)
    ensures forall g :: Value(r, g) == (if g == f then value else Value(fs, g))
  {
    match f
    case Search => fs.(search := value)
    case JobType => fs.(jobType := value)
    case Location => fs.(location := value)
    case ExperienceLevel => fs.(experienceLevel := value)
    case MinSalary => fs.(minSalary := value)
    case MaxSalary => fs.(maxSalary := value)
  }

  /** Setting a filter to the value it already has changes nothing. */
  lemma WithSame(fs: Filters, f: Field)
    ensures With(fs, f, Value(fs, f)) == fs
  {
  }

  lemma KeyInjective(f: Field, g: Field)
    ensures Key(f) == Key(g) ==> f == g
  {
  }

  // ---------------------------------------------------------------- query parameters

  /** `{page, limit, ...filters}` before the empty values are removed. */
  function Raw(fs: Filters, page: int, limit: int): Obj {
    map["page" := JNum(page), "limit" := JNum(limit),
        "search" := JStr(fs.search), "jobType" := JStr(fs.jobType),
        "location" := JStr(fs.location), "experienceLevel" := JStr(fs.experienceLevel),
        "minSalary" := JStr(fs.minSalary), "maxSalary" := JStr(fs.maxSalary)]
  }

  /** `params[key] === ''`: only the empty string is dropped. */
  predicate IsEmptyText(v: JsVal) {
    v == JStr("")
  }

  /** The query string of a fetch, as a function of its inputs. */
  function Query(fs: Filters, page: int, limit: int): (q: Obj)
    ensures "page" in q && q["page"] == JNum(page) && "limit" in q && q["limit"] == JNum(limit)
    ensures forall k :: k in q ==> q[k] != JStr("")
  {
    var raw := Raw(fs, page, limit);
    assert "page" in raw && raw["page"] == JNum(page);
    assert "limit" in raw && raw["limit"] == JNum(limit);
    Pruned(raw, IsEmptyText)
  }

  /** The parameters always carry page and limit; a filter is sent exactly
      when its text is not empty, and then unchanged; nothing else is sent. */
  lemma QueryShape(fs: Filters, page: int, limit: int)
    ensures var q := Query(fs, page, limit);
      && "page" in q && q["page"] == JNum(page)
      && "limit" in q && q["limit"] == JNum(limit)
      && (forall f :: Key(f) in q <==> Value(fs, f) != "")
      && (forall f :: Key(f) in q ==> q[Key(f)] == JStr(Value(fs, f)))
      && (forall k :: k in q ==> k == "page" || k == "limit" || exists f :: k == Key(f))
  {
    QueryPaging(fs, page, limit);
    QueryFilters(fs, page, limit);
    QueryKeys(fs, page, limit);
  }

  lemma QueryPaging(fs: Filters, page: int, limit: int)
    ensures var q := Query(fs, page, limit);
      && "page" in q && q["page"] == JNum(page)
      && "limit" in q && q["limit"] == JNum(limit)
  {
  }

  lemma QueryFilters(fs: Filters, page: int, limit: int)
    ensures var q := Query(fs, page, limit);
      && (forall f :: Key(f) in q <==> Value(fs, f) != "")
      && (forall f :: Key(f) in q ==> q[Key(f)] == JStr(Value(fs, f)))
  {
    var raw := Raw(fs, page, limit);
    forall f ensures Key(f) in raw && raw[Key(f)] == JStr(Value(fs, f)) {
    }
  }

  lemma QueryKeys(fs: Filters, page: int, limit: int)
    ensures var q := Query(fs, page, limit);
      forall k :: k in q ==> k == "page" || k == "limit" || exists f :: k == Key(f)
  {
    var q := Query(fs, page, limit);
    var raw := Raw(fs, page, limit);
    forall k | k in q ensures k == "page" || k == "limit" || exists f :: k == Key(f) {
      assert k in raw;
      if k != "page" && k != "limit" {
        if k == "search" { assert k == Key(Search); }
        else if k == "jobType" { assert k == Key(JobType); }
        else if k == "location" { assert k == Key(Location); }
        else if k == "experienceLevel" { assert k == Key(ExperienceLevel); }
        else if k == "minSalary" { assert k == Key(MinSalary); }
        else { assert k == Key(MaxSalary); }
      }
    }
  }

  // ---------------------------------------------------------------- display

  /** A job as the list shows it. */
  datatype Job = Job(id: string, title: string, description: string,
                     salaryMin: Option<int>, salaryMax: Option<int>, salaryPeriod: JsVal)

  /** One page of results: `data`, `pagination.total`, `pagination.pages`. */
  datatype Listing = Listing(jobs: seq<Job>, total: int, pages: int)

  /** `formatSalary`. `money` stands for the browser's currency formatter;
      0 and null count as absent. */
  function FormatSalary(job: Job, money: int -> string): (r: string)
    ensures !NonZero(job.salaryMin) && !NonZero(job.salaryMax) ==> r == "Not specified"
    ensures NonZero(job.salaryMin) && NonZero(job.salaryMax) ==>
      r == money(job.salaryMin.value) + " - " + money(job.salaryMax.value) + " / " + ToText(job.salaryPeriod)
    ensures NonZero(job.salaryMin) && !NonZero(job.salaryMax) ==>
      r == money(job.salaryMin.value) + "+ / " + ToText(job.salaryPeriod)
    ensures !NonZero(job.salaryMin) && NonZero(job.salaryMax) ==>
      r == "Up to " + money(job.salaryMax.value) + " / " + ToText(job.salaryPeriod)
  {
    var period := ToText(job.salaryPeriod);
    if !NonZero(job.salaryMin) && !NonZero(job.salaryMax) then "Not specified"
    else if NonZero(job.salaryMin) && NonZero(job.salaryMax) then
      money(job.salaryMin.value) + " - " + money(job.salaryMax.value) + " / " + period
    else if NonZero(job.salaryMin) then money(job.salaryMin.value) + "+ / " + period
    else "Up to " + money(job.salaryMax.value) + " / " + period
  }

  /** Whatever the currency formatter produces, a label with a salary carries
      the " / period" part and 'Not specified' does not, so the two cases
      cannot be confused. */
  lemma SalaryShownIffBound(job: Job, money: int -> string)
    ensures (NonZero(job.salaryMin) || NonZero(job.salaryMax)) <==> '/' in FormatSalary(job, money)
  {
    var r := FormatSalary(job, money);
    var period := ToText(job.salaryPeriod);
    if NonZero(job.salaryMin) || NonZero(job.salaryMax) {
      var before := if NonZero(job.salaryMin) && NonZero(job.salaryMax) then
          money(job.salaryMin.value) + " - " + money(job.salaryMax.value) + " "
        else if NonZero(job.salaryMin) then money(job.salaryMin.value) + "+ "
        else "Up to " + money(job.salaryMax.value) + " ";
      assert r == before + "/ " + period;
      assert r[|before|] == '/';
    } else {
      assert r == "Not specified";
    }
  }

  /** The description shown on a card: at most 200 characters, then '...'
      when it was cut. */
  function Excerpt(description: string): (r: string)
    ensures |description| <= 200 ==> r == description
    ensures |description| > 200 ==> |r| == 203 && r[..200] == description[..200] && r[200..] == "..."
  {
    if |description| > 200 then description[..200] + "..." else description
  }

  // ---------------------------------------------------------------- the controller

  /** A filter edit waiting for its 500 ms timer. */
  datatype Edit = Edit(field: Field, value: string)

  class Controller {
    var jobs: seq<Job>
    var loading: bool
    var filters: Filters
    var page: int
    var limit: int
    var total: int
    var pages: int
    /** `debounceTimerRef`: the edit whose timer is pending, if any. */
    var timer: Option<Edit>

    /** The page is never below 1, the limit stays 10, and a pending edit is
        already in the filters (each edit replaces the timer of the one
        before, so the pending one is the latest). */
    ghost predicate Valid()
      reads this
    {
      page >= 1 && limit == 10
      && (timer.Some? ==> Value(filters, timer.value.field) == timer.value.value)
    }

    /** The initial state, before the first fetch. */
    constructor()
      ensures Valid()
      ensures jobs == [] && loading && filters == Cleared && timer == None
      ensures page == 1 && limit == 10 && total == 0 && pages == 0
    {
      jobs := [];
      loading := true;
      filters := Cleared;
      page := 1;
      limit := 10;
      total := 0;
      pages := 0;
      timer := None;
    }

    /** `fetchJobs(currentFilters, currentPage)` up to the request: the
        loading flag is raised and the query string is built by dropping the
        empty values. */
    method Fetch(current: Filters, currentPage: int) returns (q: Obj)
      modifies this
      ensures q == Query(current, currentPage, limit)
      ensures loading
      ensures jobs == old(jobs) && filters == old(filters) && page == old(page) && limit == old(limit)
      ensures total == old(total) && pages == old(pages) && timer == old(timer)
    {
      loading := true;
      q := Prune(Raw(current, currentPage, limit), IsEmptyText);
    }

    /** The request(s) that follow moving to page 1: the handler's own fetch,
        then, when the page actually changed, the fetch of the page-change
        effect with the same filters. */
    method RestartAtFirstPage(current: Filters) returns (issued: seq<Obj>)
      requires Valid() && current == filters
      modifies this
      ensures Valid()
      ensures page == 1 && loading
      ensures issued == if old(page) == 1 then [Query(filters, 1, limit)]
                        else [Query(filters, 1, limit), Query(filters, 1, limit)]
      ensures jobs == old(jobs) && filters == old(filters) && limit == old(limit)
      ensures total == old(total) && pages == old(pages) && timer == old(timer)
    {
      var changed := page != 1;
      page := 1;
      var q := Fetch(current, 1);
      issued := [q];
      if changed {
        var again := Fetch(filters, page);
        issued := issued + [again];
      }
    }

    /** The first fetch, made when the page mounts. */
    method Mount() returns (issued: seq<Obj>)
      requires Valid()
      modifies this
      ensures Valid()
      ensures issued == [Query(filters, page, limit)] && loading
      ensures jobs == old(jobs) && filters == old(filters) && page == old(page) && limit == old(limit)
      ensures total == old(total) && pages == old(pages) && timer == old(timer)
    {
      var q := Fetch(filters, page);
      issued := [q];
    }

    /** `handleFilterChange`: the named filter takes the value at once, any
        pending timer is cancelled and a new one is scheduled for this edit.
        Nothing is fetched yet. */
    method EditFilter(f: Field, value: string)
      requires Valid()
      modifies this
      ensures Valid()
      ensures filters == With(old(filters), f, value)
      ensures timer == Some(Edit(f, value))
      ensures jobs == old(jobs) && loading == old(loading) && page == old(page) && limit == old(limit)
      ensures total == old(total) && pages == old(pages)
    {
      filters := With(filters, f, value);
      timer := None;
      timer := Some(Edit(f, value));
    }

    /** The pending timer fires: page 1 is fetched with the current filters
        and the edited field overwritten, which are the current filters. */
    method TimerFires() returns (issued: seq<Obj>)
      requires Valid() && timer.Some?
      modifies this
      ensures Valid()
      ensures timer == None && page == 1 && loading
      ensures issued == if old(page) == 1 then [Query(filters, 1, limit)]
                        else [Query(filters, 1, limit), Query(filters, 1, limit)]
      ensures jobs == old(jobs) && filters == old(filters) && limit == old(limit)
      ensures total == old(total) && pages == old(pages)
    {
      var edit := timer.value;
      timer := None;
      var newFilters := With(filters, edit.field, edit.value);
      WithSame(filters, edit.field);
      issued := RestartAtFirstPage(newFilters);
    }

    /** `handleSearch`: the pending timer is cancelled and page 1 is fetched
        with the current filters. */
    method SearchNow() returns (issued: seq<Obj>)
      requires Valid()
      modifies this
      ensures Valid()
      ensures timer == None && page == 1 && loading
      ensures issued == if old(page) == 1 then [Query(filters, 1, limit)]
                        else [Query(filters, 1, limit), Query(filters, 1, limit)]
      ensures jobs == old(jobs) && filters == old(filters) && limit == old(limit)
      ensures total == old(total) && pages == old(pages)
    {
      timer := None;
      issued := RestartAtFirstPage(filters);
    }

    /** `clearFilters`: the pending timer is cancelled, all six filters are
        emptied and page 1 is fetched with no filter at all. */
    method ClearFilters() returns (issued: seq<Obj>)
      requires Valid()
      modifies this
      ensures Valid()
      ensures timer == None && page == 1 && loading && filters == Cleared
      ensures issued == if old(page) == 1 then [Query(Cleared, 1, limit)]
                        else [Query(Cleared, 1, limit), Query(Cleared, 1, limit)]
      ensures jobs == old(jobs) && limit == old(limit) && total == old(total) && pages == old(pages)
    {
      timer := None;
      filters := Cleared;
      issued := RestartAtFirstPage(Cleared);
    }

    /** The pagination bar is drawn when the page is not replaced by its
        loading screen (loading with no jobs yet) and there is more than one
        page; Previous is enabled off page 1, Next off the last page. */
    predicate PrevEnabled()
      reads this
    {
      !(loading && |jobs| == 0) && pages > 1 && page != 1
    }

    predicate NextEnabled()
      reads this
    {
      !(loading && |jobs| == 0) && pages > 1 && page != pages
    }

    /** The page as far as the bar can tell: between 1 and the page count. */
    predicate InRange()
      reads this
    {
      1 <= page <= pages
    }

    /** The Previous button: when enabled, the page goes down by one and the
        page-change effect fetches it; when disabled, nothing happens. A page
        in range stays in range. */
    method PrevPage() returns (issued: seq<Obj>)
      requires Valid()
      modifies this
      ensures Valid()
      ensures old(PrevEnabled()) ==> page == old(page) - 1 && issued == [Query(filters, page, limit)] && loading
      ensures !old(PrevEnabled()) ==> page == old(page) && issued == [] && loading == old(loading)
      ensures old(InRange()) ==> InRange()
      ensures jobs == old(jobs) && filters == old(filters) && limit == old(limit)
      ensures total == old(total) && pages == old(pages) && timer == old(timer)
    {
      if PrevEnabled() {
        page := page - 1;
        var q := Fetch(filters, page);
        issued := [q];
      } else {
        issued := [];
      }
    }

    /** The Next button, symmetrically. A page in range stays in range, and
        a page already past the last one never comes back by Next. */
    method NextPage() returns (issued: seq<Obj>)
      requires Valid()
      modifies this
      ensures Valid()
      ensures old(NextEnabled()) ==> page == old(page) + 1 && issued == [Query(filters, page, limit)] && loading
      ensures !old(NextEnabled()) ==> page == old(page) && issued == [] && loading == old(loading)
      ensures old(InRange()) ==> InRange()
      ensures old(page > pages) ==> page > pages
      ensures jobs == old(jobs) && filters == old(filters) && limit == old(limit)
      ensures total == old(total) && pages == old(pages) && timer == old(timer)
    {
      if NextEnabled() {
        page := page + 1;
        var q := Fetch(filters, page);
        issued := [q];
      } else {
        issued := [];
      }
    }

    /** A fetch completes (whichever one: requests are not tagged). Success
        replaces the jobs and the result counts but keeps page and limit;
        failure keeps the jobs. Loading ends either way. */
    method FetchDone(reply: Call<Listing>)
      requires Valid()
      modifies this
      ensures Valid()
      ensures !loading
      ensures reply.Resolved? ==>
        jobs == reply.value.jobs && total == reply.value.total && pages == reply.value.pages
      ensures reply.Rejected? ==> jobs == old(jobs) && total == old(total) && pages == old(pages)
      ensures filters == old(filters) && page == old(page) && limit == old(limit) && timer == old(timer)
    {
      if reply.Resolved? {
        jobs := reply.value.jobs;
        total := reply.value.total;
        pages := reply.value.pages;
      }
      loading := false;
    }

    /** The page unmounts: a pending timer is cancelled. */
    method Unmount()
      requires Valid()
      modifies this
      ensures Valid() && timer == None
      ensures jobs == old(jobs) && filters == old(filters) && page == old(page) && limit == old(limit)
      ensures total == old(total) && pages == old(pages) && loading == old(loading)
    {
      timer := None;
    }
  }

  /** A reply whose page count is below the current page (the postings
      changed on the server since the page was reached): the page is kept,
      so the bar reads "Page p of n" with p beyond n, and Next is still
      enabled and fetches page p + 1, further out of range. */
  method ShrunkReply(c: Controller, listing: Listing) returns (issued: seq<Obj>)
    requires c.Valid() && 1 < listing.pages < c.page
    modifies c
    ensures c.Valid() && !c.InRange()
    ensures c.pages == listing.pages && c.page == old(c.page) + 1
    ensures issued == [Query(c.filters, c.page, c.limit)]
  {
    c.FetchDone(Resolved(listing));
    issued := c.NextPage();
  }

  /** Filters after a sequence of edits. */
  function AfterEdits(fs: Filters, edits: seq<Edit>): Filters
    decreases |edits|
  {
    if |edits| == 0 then fs
    else AfterEdits(With(fs, edits[0].field, edits[0].value), edits[1..])
  }

  lemma AfterEditsSnoc(fs: Filters, edits: seq<Edit>, e: Edit)
    ensures AfterEdits(fs, edits + [e]) == With(AfterEdits(fs, edits), e.field, e.value)
    decreases |edits|
  {
    if |edits| > 0 {
      assert (edits + [e])[1..] == edits[1..] + [e];
      AfterEditsSnoc(With(fs, edits[0].field, edits[0].value), edits[1..], e);
    }
  }

  /** A burst of edits typed faster than the debounce delay, then a pause:
      every edit lands in the filters, only the last edit's timer survives,
      and the pause yields one debounced fetch of page 1 with all the edits
      applied; when the page was not 1, the page-change effect sends an
      identical second request. */
  method Burst(c: Controller, edits: seq<Edit>) returns (issued: seq<Obj>)
    requires c.Valid() && |edits| > 0
    modifies c
    ensures c.Valid()
    ensures c.filters == AfterEdits(old(c.filters), edits)
    ensures c.timer == None && c.page == 1
    ensures issued == if old(c.page) == 1 then [Query(c.filters, 1, c.limit)]
                      else [Query(c.filters, 1, c.limit), Query(c.filters, 1, c.limit)]
  {
    var i := 0;
    while i < |edits|
      invariant 0 <= i <= |edits|
      invariant c.Valid()
      invariant c.filters == AfterEdits(old(c.filters), edits[..i])
      invariant i > 0 ==> c.timer == Some(edits[i - 1])
      invariant c.page == old(c.page)
    {
      c.EditFilter(edits[i].field, edits[i].value);
      AfterEditsSnoc(old(c.filters), edits[..i], edits[i]);
      assert edits[..i + 1] == edits[..i] + [edits[i]];
      i := i + 1;
    }
    assert edits[..|edits|] == edits;
    issued := c.TimerFires();
  }
}
