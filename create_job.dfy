/** The job-posting form: its fields edited one at a time, and the job
    object sent on submit, where the skills text becomes a list, the
    salary texts become whole numbers or null and an empty deadline
    becomes null. The edit form sends the same conversion. */
module CreateJob {
  import opened Wrappers
  import opened JsText
  import opened JsValue
  import opened Skills

  /** The form's fields. */
  const FormKeys: set<string> := {"title", "description", "qualifications", "responsibilities", "jobType",
                                  "location", "salaryMin", "salaryMax", "experienceLevel", "skills",
                                  "benefits", "applicationDeadline"}

  /** The fields the submit converts; every other field is sent as it is. */
  const Converted: set<string> := {"skills", "salaryMin", "salaryMax", "applicationDeadline"}

  /** The empty form: every field blank except the job type, 'full-time'. */
  const Initial: Obj := map k | k in FormKeys :: if k == "jobType" then JStr("full-time") else JStr("")

  /** The skills field holds text (or nothing), so the submit's `split`
      cannot fail. */
  predicate SkillsText(form: Obj) {
    Get(form, "skills").JStr? || !Truthy(Get(form, "skills"))
  }

  /** `skills ? skills.split(',').map(trim).filter(Boolean) : []`. The
      guard changes nothing: the parse of the empty text is already empty. */
  function SkillsValue(v: JsVal): (r: JsVal)
    requires v.JStr? || !Truthy(v)
    ensures v.JStr? ==> r == JArr(Parse(v.s))
    ensures !v.JStr? ==> r == JArr([])
  {
    if Truthy(v) then JArr(Parse(v.s))
    else
      assert v.JStr? ==> Split(v.s, ',') == [""];
      JArr([])
  }

  /** `v ? parseInt(v) : null`; a text with no leading number parses to NaN,
      which the JSON body carries as null. */
  function SalaryValue(v: JsVal): (r: JsVal)
    ensures r.JNum? || r.JNull?
    ensures !Truthy(v) ==> r == JNull
  {
    if Truthy(v) then
      match ParseInt(ToText(v))
      case Some(n) => JNum(n)
      case None => JNull
    else JNull
  }

  /** A non-zero amount, typed as digits or already a number, is sent as
      that number; an empty field or 0 is sent as null. */
  lemma SalaryOfAmount(n: int)
    ensures n != 0 ==> SalaryValue(JStr(IntToText(n))) == JNum(n)
    ensures n != 0 ==> SalaryValue(JNum(n)) == JNum(n)
    ensures SalaryValue(JNum(0)) == JNull && SalaryValue(JStr("")) == JNull
  {
    ParseIntOfText(n);
    if n != 0 {
      assert IntToText(n) != "" && Truthy(JStr(IntToText(n)));
    }
  }

  /** The job object `handleSubmit` sends: every field of the form, with
      the four converted ones replaced. */
  function JobData(form: Obj): (r: Obj)
    requires SkillsText(form)
    ensures r.Keys == form.Keys + Converted
    ensures forall k :: k in form && k !in Converted ==> r[k] == form[k]
    ensures Get(form, "skills").JStr? ==> r["skills"] == JArr(Parse(Get(form, "skills").s))
    ensures !Get(form, "skills").JStr? ==> r["skills"] == JArr([])
    ensures r["salaryMin"] == SalaryValue(Get(form, "salaryMin"))
    ensures r["salaryMax"] == SalaryValue(Get(form, "salaryMax"))
    ensures Truthy(Get(form, "applicationDeadline")) ==> r["applicationDeadline"] == form["applicationDeadline"]
    ensures !Truthy(Get(form, "applicationDeadline")) ==> r["applicationDeadline"] == JNull
  {
    var r := map k | k in form.Keys + Converted :: SentValue(form, k);
    assert forall k :: k in form && k !in Converted ==> r[k] == SentValue(form, k) == form[k];
    r
  }

  /** The value sent for one field of the form. */
  function SentValue(form: Obj, k: string): JsVal
    requires SkillsText(form)
  {
    if k == "skills" then SkillsValue(Get(form, "skills"))
    else if k == "salaryMin" then SalaryValue(Get(form, "salaryMin"))
    else if k == "salaryMax" then SalaryValue(Get(form, "salaryMax"))
    else if k == "applicationDeadline" then Or(Get(form, "applicationDeadline"), JNull)
    else Get(form, k)
  }

  /** Submitting the untouched form sends no skills, null salaries and a
      null deadline, with the job type 'full-time'. */
  lemma SubmitBlankForm()
    ensures SkillsText(Initial)
    ensures JobData(Initial)["skills"] == JArr([])
    ensures JobData(Initial)["salaryMin"] == JNull && JobData(Initial)["salaryMax"] == JNull
    ensures JobData(Initial)["applicationDeadline"] == JNull
    ensures JobData(Initial)["jobType"] == JStr("full-time")
  {
    assert "skills" in FormKeys && "jobType" in FormKeys && "salaryMin" in FormKeys;
    assert "salaryMax" in FormKeys && "applicationDeadline" in FormKeys;
    assert Get(Initial, "skills") == JStr("");
    assert Get(Initial, "salaryMin") == JStr("") && Get(Initial, "salaryMax") == JStr("");
    assert Get(Initial, "applicationDeadline") == JStr("");
    assert Initial["jobType"] == JStr("full-time");
    var r := JobData(Initial);
    assert r["skills"] == JArr(Parse(""));
  }

  /** The form component's state. */
  class Form {
    var data: Obj
    var loading: bool

    /** The skills field always holds text: the form starts blank and every
        edit stores text. */
    ghost predicate Valid()
      reads this
    {
      SkillsText(data)
    }

    constructor()
      ensures Valid() && data == Initial && !loading
    {
      data := Initial;
      loading := false;
      assert Initial["skills"] == JStr("");
    }

    /** `handleChange`: the named field takes the typed text and no other
        field changes. */
    method HandleChange(name: string, value: string)
      requires Valid()
      modifies this
      ensures Valid()
      ensures data == old(data)[name := JStr(value)]
      ensures loading == old(loading)
    {
      data := data[name := JStr(value)];
      assert Get(data, "skills") == (if name == "skills" then JStr(value) else Get(old(data), "skills"));
    }

    /** `handleSubmit`: the object posted, and where the page goes (the
        employer's job list on success, nowhere on failure); `ok` is the
        request's outcome. The form is kept and loading ends. */
    method Submit(ok: bool) returns (sent: Obj, navigate: Option<string>)
      requires Valid()
      modifies this
      ensures Valid() && data == old(data) && !loading
      ensures sent == JobData(data)
      ensures navigate == if ok then Some("/employer/jobs") else None
    {
      loading := true;
      sent := JobData(data);
      navigate := if ok then Some("/employer/jobs") else None;
      loading := false;
    }
  }
}
