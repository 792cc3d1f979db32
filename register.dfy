/** The registration form: password checks before any request, the user
    object shaped by account type, and what the page does with the session
    manager's answer. */
module Register {
  import opened Wrappers
  import opened JsValue
  import opened Backend
  import AuthContext

  /** The two password checks, in order: a confirmation that differs is
      reported before a password that is too short; `tooShort` is the
      page's wording of the second message. `None` lets the submit go on. */
  function Validate(password: string, confirm: string, tooShort: string): (refused: Option<string>)
    ensures refused.None? <==> password == confirm && |password| >= 6
    ensures password != confirm ==> refused == Some("Passwords do not match")
    ensures password == confirm && |password| < 6 ==> refused == Some(tooShort)
  {
    if password != confirm then Some("Passwords do not match")
    else if |password| < 6 then Some(tooShort)
    else None
  }

  /** The form's fields. */
  const FormKeys: set<string> := {"name", "email", "password", "confirmPassword", "phone", "skills",
                                  "experience", "education", "companyName", "companyDescription", "website"}

  /** The empty form. */
  const Blank: map<string, string> := map k | k in FormKeys :: ""

  /** The fields every user object has (besides `userType`). */
  const CommonKeys: set<string> := {"name", "email", "password", "phone"}

  /** The fields added for a job seeker. */
  const SeekerKeys: set<string> := {"skills", "experience", "education"}

  /** The fields added for any other account type. */
  const EmployerKeys: set<string> := {"companyName", "companyDescription", "website"}

  /** A form field as the user object reads it. */
  function Field(form: map<string, string>, k: string): (v: JsVal)
    ensures k in form ==> v == JStr(form[k])
    ensures k !in form ==> v == JUndef
  {
    if k in form then JStr(form[k]) else JUndef
  }

  /** The user object `handleSubmit` passes to `register`: the common
      fields and the account type, then the job-seeker fields for
      'jobseeker' and the company fields for anything else. */
  function UserData(form: map<string, string>, userType: string): (r: Obj)
    ensures r.Keys == CommonKeys + {"userType"} + (if userType == "jobseeker" then SeekerKeys else EmployerKeys)
    ensures r["userType"] == JStr(userType)
    ensures forall k :: k in r && k != "userType" ==> r[k] == Field(form, k)
  {
    var extra := if userType == "jobseeker" then SeekerKeys else EmployerKeys;
    map k | k in CommonKeys + {"userType"} + extra :: if k == "userType" then JStr(userType) else Field(form, k)
  }

  /** The user object always has a text name and the chosen account type,
      and an employer's object has the two company fields of the form. */
  lemma UserDataFields(form: map<string, string>, userType: string)
    ensures var u := UserData(form, userType);
      Get(u, "name") == Field(form, "name") && Get(u, "userType") == JStr(userType)
    ensures var u := UserData(form, userType);
      userType == "employer" ==>
        Get(u, "companyName") == Field(form, "companyName")
        && Get(u, "companyDescription") == Field(form, "companyDescription")
  {
    var u := UserData(form, userType);
    assert "name" in CommonKeys;
    assert "name" in u && "userType" in u;
    if userType == "employer" {
      assert "companyName" in EmployerKeys && "companyDescription" in EmployerKeys;
      assert "companyName" in u && "companyDescription" in u;
    }
  }

  /** The body built for any user object whose name is text or missing
      carries only the session manager's fields, with the role mapped from
      the account type. */
  lemma BodyKeys(u: Obj) returns (body: Obj)
    requires Get(u, "name").JStr? || Get(u, "name") == JUndef
    ensures AuthContext.RegisterPayload(u) == Some(body)
    ensures body.Keys <= AuthContext.BaseKeys + AuthContext.CompanyKeys
    ensures body["role"] == AuthContext.MapRole(Get(u, "userType"))
    ensures Get(u, "userType") == JStr("employer") ==>
      body["companyName"] == Get(u, "companyName") && body["companyDescription"] == Get(u, "companyDescription")
  {
    body := AuthContext.RegisterPayload(u).value;
  }

  /** The form-only fields are none of the session manager's fields. */
  lemma FormOnlyKeys()
    ensures "website" !in AuthContext.BaseKeys + AuthContext.CompanyKeys
    ensures "skills" !in AuthContext.BaseKeys + AuthContext.CompanyKeys
    ensures "experience" !in AuthContext.BaseKeys + AuthContext.CompanyKeys
    ensures "education" !in AuthContext.BaseKeys + AuthContext.CompanyKeys
  {
  }

  /** What reaches the backend: the session manager always builds a body
      from this user object, the body never carries the website, skills,
      experience or education typed into the form, a job seeker is
      registered with the role 'job_seeker', and an employer's company
      fields are passed on. */
  lemma ExtraFieldsNotForwarded(form: map<string, string>, userType: string)
    ensures AuthContext.RegisterPayload(UserData(form, userType)).Some?
    ensures var body := AuthContext.RegisterPayload(UserData(form, userType)).value;
      "website" !in body && "skills" !in body && "experience" !in body && "education" !in body
    ensures userType == "jobseeker" ==>
      AuthContext.RegisterPayload(UserData(form, userType)).value["role"] == JStr("job_seeker")
    ensures userType == "employer" ==>
      var body := AuthContext.RegisterPayload(UserData(form, userType)).value;
      body["companyName"] == Field(form, "companyName")
      && body["companyDescription"] == Field(form, "companyDescription")
  {
    var u := UserData(form, userType);
    UserDataFields(form, userType);
    var body := BodyKeys(u);
    FormOnlyKeys();
    KeysOutside(body, AuthContext.BaseKeys + AuthContext.CompanyKeys);
    assert Get(u, "userType") == JStr(userType);
  }

  /** A key outside a superset of the keys is not a key. */
  lemma KeysOutside(body: Obj, allowed: set<string>)
    requires body.Keys <= allowed
    ensures forall k :: k !in allowed ==> k !in body
  {
  }

  /** The dashboard for an account type. */
  function DashboardPath(userType: string): (path: string)
    ensures path == "/dashboard/jobseeker" <==> userType == "jobseeker"
    ensures path in {"/dashboard/jobseeker", "/dashboard/employer"}
  {
    if userType == "jobseeker" then "/dashboard/jobseeker" else "/dashboard/employer"
  }

  /** An already signed-in user is sent to the dashboard of the `userType`
      recorded on the user. */
  function Redirect(user: Option<AuthContext.User>): (navigate: Option<string>)
    ensures navigate.None? <==> user.None?
    ensures user.Some? && user.value.userType == Some("jobseeker") ==> navigate == Some("/dashboard/jobseeker")
    ensures user.Some? && user.value.userType != Some("jobseeker") ==> navigate == Some("/dashboard/employer")
  {
    if user.None? then None
    else if user.value.userType == Some("jobseeker") then Some("/dashboard/jobseeker")
    else Some("/dashboard/employer")
  }

  /** The message shown for a failed registration. */
  function FailureText(error: string): (t: string)
    ensures error != "" ==> t == error
    ensures error == "" ==> t == "Registration failed"
  {
    if error != "" then error else "Registration failed"
  }

  class Page {
    var form: map<string, string>
    var userType: string
    var loading: bool

    /** The password fields exist from the start. */
    ghost predicate Valid()
      reads this
    {
      "password" in form && "confirmPassword" in form
    }

    constructor()
      ensures Valid() && form == Blank && userType == "jobseeker" && !loading
    {
      form := Blank;
      userType := "jobseeker";
      loading := false;
    }

    /** The account-type buttons. */
    method SetUserType(t: string)
      requires Valid()
      modifies this
      ensures Valid() && userType == t && form == old(form) && loading == old(loading)
    {
      userType := t;
    }

    /** `handleChange`. */
    method HandleChange(name: string, value: string)
      requires Valid()
      modifies this
      ensures Valid() && form == old(form)[name := value]
      ensures userType == old(userType) && loading == old(loading)
    {
      form := form[name := value];
    }

    /** `handleSubmit`, with `reply` the answer to the registration request.
        A refused password sends nothing; otherwise the session manager's
        `register` runs on the shaped user object, a success goes to the
        account type's dashboard and a failure shows its error (or
        'Registration failed'); loading ends. */
    method Submit(session: AuthContext.Session, reply: Reply<AuthContext.Grant>)
      returns (refused: Option<string>, sent: Option<Obj>, navigate: Option<string>, report: Option<string>)
      requires Valid()
      modifies this, session, session.store
      ensures Valid() && form == old(form) && userType == old(userType)
      ensures refused == Validate(form["password"], form["confirmPassword"], "Password must be at least 6 characters")
      ensures refused.Some? ==>
        sent == None && navigate == None && report == None && loading == old(loading)
        && session.user == old(session.user) && session.store.token == old(session.store.token)
      ensures refused.None? ==> sent == AuthContext.RegisterPayload(UserData(form, userType)) && !loading
      ensures refused.None? ==> (navigate.Some? <==> reply.Ok?) && (report.Some? <==> !reply.Ok?)
      ensures navigate.Some? ==> navigate == Some(DashboardPath(userType))
      ensures refused.None? && reply.Ok? ==> session.user == Some(reply.data.user)
      ensures refused.None? && reply.NotOk? ==>
        report == Some(FailureText(TextOr(reply.message, "Registration failed")))
      ensures refused.None? && reply.Thrown? ==>
        report == Some(FailureText(TextOr(reply.failure.message, TextOr(reply.failure.error, "Registration failed"))))
      ensures refused.None? ==>
        session.authError == (if reply.Thrown?
                              then Some(TextOr(reply.failure.message, TextOr(reply.failure.error, "Registration failed")))
                              else None)
      ensures refused.Some? ==> session.authError == old(session.authError)
    {
      refused := Validate(form["password"], form["confirmPassword"], "Password must be at least 6 characters");
      navigate, report := None, None;
      if refused.Some? {
        sent := None;
        return;
      }
      loading := true;
      ExtraFieldsNotForwarded(form, userType);
      var result;
      sent, result := session.Register(UserData(form, userType), reply);
      if result.Succeeded? {
        navigate := Some(DashboardPath(userType));
      } else {
        report := Some(FailureText(result.error));
      }
      loading := false;
    }
  }
}
