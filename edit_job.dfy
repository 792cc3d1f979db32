/** The job-editing form: the stored job loaded into the form (skills list
    shown as text, missing fields blank or defaulted, the deadline cut to
    its date), edited field by field, and sent back with the same
    conversion the posting form uses. */
module EditJob {
  import opened Wrappers
  import opened JsText
  import opened JsValue
  import opened Backend
  import opened Skills
  import CreateJob

  /** The fields loaded as `job.f || ''`. */
  const PlainKeys: set<string> := {"title", "description", "qualifications", "responsibilities", "location",
                                   "salaryMin", "salaryMax", "experienceLevel", "benefits"}

  /** The edit form's fields. */
  const FormKeys: set<string> := PlainKeys + {"jobType", "status", "skills", "applicationDeadline"}

  /** The edit form has the posting form's fields plus the job status. */
  lemma FormKeysExtendPosting()
    ensures FormKeys == CreateJob.FormKeys + {"status"}
  {
  }

  /** The form before the job arrives. */
  const Initial: Obj := CreateJob.Initial["status" := JStr("active")]

  /** `d.split('T')[0]` cannot run on a truthy deadline that is not text. */
  predicate Loadable(job: Obj) {
    var d := Get(job, "applicationDeadline");
    !Truthy(d) || d.JStr?
  }

  /** The skills field: a skills array joined with ', ', anything else
      blank. */
  function SkillsText(v: JsVal): (r: JsVal)
    ensures v.JArr? ==> r == JStr(Show(v.items))
    ensures !v.JArr? ==> r == JStr("")
  {
    if v.JArr? then JStr(Show(v.items)) else JStr("")
  }

  /** The deadline field: the part of the stored deadline before its first
      'T' (the date of an ISO timestamp), or blank. */
  function DeadlineText(v: JsVal): (r: JsVal)
    requires !Truthy(v) || v.JStr?
    ensures !Truthy(v) ==> r == JStr("")
    ensures Truthy(v) ==> r.JStr? && r.s <= v.s && 'T' !in r.s
    ensures Truthy(v) ==> |r.s| == |v.s| || v.s[|r.s|] == 'T'
  {
    if Truthy(v) then
      SplitHead(v.s, 'T');
      JStr(Split(v.s, 'T')[0])
    else JStr("")
  }

  /** `fetchJob`'s form for a job whose deadline converts: the plain
      fields keep a truthy stored value and are blank otherwise; the skills
      list is shown as text and the deadline cut to its date. */
  function LoadedForm(job: Obj): (form: Obj)
    requires Loadable(job)
    ensures forall k :: k in PlainKeys ==> k in form && form[k] == Or(Get(job, k), JStr(""))
  {
    var special := map["jobType" := Or(Get(job, "jobType"), JStr("full-time")),
                       "status" := Or(Get(job, "status"), JStr("active")),
                       "skills" := SkillsText(Get(job, "skills")),
                       "applicationDeadline" := DeadlineText(Get(job, "applicationDeadline"))];
    special + map k | k in PlainKeys :: Or(Get(job, k), JStr(""))
  }

  /** `fetchJob`'s conversion, `None` when it throws (a truthy deadline
      that is not text). */
  function Loaded(job: Obj): (r: Option<Obj>)
    ensures r.Some? <==> Loadable(job)
    ensures r.Some? ==> r.value == LoadedForm(job)
  {
    if Loadable(job) then Some(LoadedForm(job)) else None
  }

  /** The fields loaded with their own conversion are not plain fields. */
  lemma SpecialKeysNotPlain()
    ensures "jobType" !in PlainKeys && "status" !in PlainKeys
    ensures "skills" !in PlainKeys && "applicationDeadline" !in PlainKeys
  {
  }

  /** The loaded deadline is the stored one cut at its first 'T'. */
  lemma LoadedDeadline(job: Obj)
    requires Loadable(job)
    ensures Get(LoadedForm(job), "applicationDeadline") == DeadlineText(Get(job, "applicationDeadline"))
  {
    SpecialKeysNotPlain();
  }

  /** The loaded skills field is the stored list shown as text, so it
      always holds text. */
  lemma LoadedSkills(job: Obj)
    requires Loadable(job)
    ensures Get(LoadedForm(job), "skills") == SkillsText(Get(job, "skills"))
    ensures CreateJob.SkillsText(LoadedForm(job))
  {
    SpecialKeysNotPlain();
  }

  /** The loaded form has exactly the form's fields, and a missing job
      type or status is loaded as 'full-time' or 'active'. */
  lemma LoadedDefaults(job: Obj)
    ensures Loaded(job).Some? ==> Loaded(job).value.Keys == FormKeys
    ensures Loaded(job).Some? ==> Get(Loaded(job).value, "jobType") == Or(Get(job, "jobType"), JStr("full-time"))
    ensures Loaded(job).Some? ==> Get(Loaded(job).value, "status") == Or(Get(job, "status"), JStr("active"))
  {
    SpecialKeysNotPlain();
  }

  // ---------------------------------------------------------------- round trips

  /** A list of well-formed skills, loaded and sent back unedited, is sent
      back equal. */
  lemma SkillsRoundTrip(job: Obj, form: Obj)
    requires Loaded(job) == Some(form)
    requires Get(job, "skills").JArr? && AllWellFormed(Get(job, "skills").items)
    ensures CreateJob.SkillsText(form)
    ensures CreateJob.JobData(form)["skills"] == job["skills"]
  {
    LoadedSkills(job);
    ParseShow(Get(job, "skills").items);
  }

  /** A non-zero salary, loaded and sent back unedited, is sent back equal;
      a zero or missing salary is sent as null. */
  lemma SalaryRoundTrip(job: Obj, form: Obj, key: string, n: int)
    requires key in {"salaryMin", "salaryMax"}
    requires Loaded(job) == Some(form)
    ensures CreateJob.SkillsText(form)
    ensures Get(job, key) == JNum(n) && n != 0 ==> CreateJob.JobData(form)[key] == JNum(n)
    ensures !Truthy(Get(job, key)) ==> CreateJob.JobData(form)[key] == JNull
  {
    LoadedSkills(job);
    CreateJob.SalaryOfAmount(n);
    assert key in PlainKeys;
    assert CreateJob.JobData(form)[key] == CreateJob.SalaryValue(Get(form, key));
  }

  /** A stored date with no time part is sent back equal. */
  lemma DeadlineRoundTrip(job: Obj, form: Obj, d: string)
    requires Loaded(job) == Some(form)
    requires Get(job, "applicationDeadline") == JStr(d) && d != "" && 'T' !in d
    ensures CreateJob.SkillsText(form)
    ensures CreateJob.JobData(form)["applicationDeadline"] == JStr(d)
  {
    LoadedSkills(job);
    LoadedDeadline(job);
    SplitHead(d, 'T');
  }

  /** A field the conversion leaves alone, stored with a truthy value, is
      sent back equal. */
  lemma PlainFieldRoundTrip(job: Obj, form: Obj, k: string)
    requires Loaded(job) == Some(form)
    requires k in PlainKeys && k !in CreateJob.Converted && Truthy(Get(job, k))
    ensures CreateJob.SkillsText(form)
    ensures CreateJob.JobData(form)[k] == job[k]
  {
    LoadedSkills(job);
  }

  // ---------------------------------------------------------------- the page

  class Page {
    var form: Obj
    var loading: bool
    var saving: bool

    /** The skills field always holds text. */
    ghost predicate Valid()
      reads this
    {
      CreateJob.SkillsText(form)
    }

    constructor()
      ensures Valid() && form == Initial && loading && !saving
    {
      form := Initial;
      loading := true;
      saving := false;
      assert Get(Initial, "skills") == JStr("") by {
        assert "skills" in CreateJob.FormKeys;
      }
    }

    /** `fetchJob` completes: a job that converts fills the form and ends
        loading; a failed request or a conversion that throws goes back to
        the employer's job list and leaves the form and the loading flag as
        they were. */
    method Load(reply: Call<Obj>) returns (navigate: Option<string>)
      requires Valid()
      modifies this
      ensures Valid() && saving == old(saving)
      ensures reply.Resolved? && Loadable(reply.value) ==>
        form == Loaded(reply.value).value && !loading && navigate == None
      ensures !(reply.Resolved? && Loadable(reply.value)) ==>
        form == old(form) && loading == old(loading) && navigate == Some("/employer/jobs")
    {
      if reply.Resolved? && Loadable(reply.value) {
        LoadedSkills(reply.value);
        form := Loaded(reply.value).value;
        loading := false;
        navigate := None;
      } else {
        navigate := Some("/employer/jobs");
      }
    }

    /** `handleChange`: only the named field changes. */
    method HandleChange(name: string, value: string)
      requires Valid()
      modifies this
      ensures Valid()
      ensures form == old(form)[name := JStr(value)]
      ensures loading == old(loading) && saving == old(saving)
    {
      form := form[name := JStr(value)];
      assert Get(form, "skills") == (if name == "skills" then JStr(value) else Get(old(form), "skills"));
    }

    /** `handleSubmit`: the object sent with the PUT is the posting form's
        conversion of the current form; success returns to the job list;
        saving ends either way. */
    method Submit(ok: bool) returns (sent: Obj, navigate: Option<string>)
      requires Valid()
      modifies this
      ensures Valid() && form == old(form) && loading == old(loading) && !saving
      ensures sent == CreateJob.JobData(form)
      ensures navigate == if ok then Some("/employer/jobs") else None
    {
      saving := true;
      sent := CreateJob.JobData(form);
      navigate := if ok then Some("/employer/jobs") else None;
      saving := false;
    }
  }
}
