/** The second registration page: the same password checks, a smaller user
    object, and a success path reached on every submit that passes them,
    because the session manager's `register` reports failure by its result
    and never throws. */
module RegisterPage {
  import opened Wrappers
  import opened JsValue
  import opened Backend
  import AuthContext
  import Register

  /** The form's fields. */
  const FormKeys: set<string> := {"name", "email", "password", "confirmPassword", "phone",
                                  "companyName", "companyDescription"}

  /** The empty form. */
  const Blank: map<string, string> := map k | k in FormKeys :: ""

  /** The fields added for an employer. */
  const CompanyKeys: set<string> := {"companyName", "companyDescription"}

  /** The second password message of this page. */
  const TooShort: string := "Password must be at least 6 characters long"

  /** The user object passed to `register`: name, email, password, account
      type and phone, and the two company fields only for 'employer'. */
  function UserData(form: map<string, string>, userType: string): (r: Obj)
    ensures r.Keys == Register.CommonKeys + {"userType"} + (if userType == "employer" then CompanyKeys else {})
    ensures r["userType"] == JStr(userType)
    ensures forall k :: k in r && k != "userType" ==> r[k] == Register.Field(form, k)
  {
    var extra := if userType == "employer" then CompanyKeys else {};
    map k | k in Register.CommonKeys + {"userType"} + extra ::
      if k == "userType" then JStr(userType) else Register.Field(form, k)
  }

  /** The registration body is always built, an employer's company fields
      reach it, and a job seeker is registered as 'job_seeker'. */
  lemma PayloadOfUserData(form: map<string, string>, userType: string)
    ensures AuthContext.RegisterPayload(UserData(form, userType)).Some?
    ensures userType == "jobseeker" ==>
      AuthContext.RegisterPayload(UserData(form, userType)).value["role"] == JStr("job_seeker")
    ensures userType == "employer" ==>
      var body := AuthContext.RegisterPayload(UserData(form, userType)).value;
      body["companyName"] == Register.Field(form, "companyName")
      && body["companyDescription"] == Register.Field(form, "companyDescription")
  {
    var u := UserData(form, userType);
    assert "name" in Register.CommonKeys && "name" in u && "userType" in u;
    if userType == "employer" {
      assert "companyName" in u && "companyDescription" in u;
    }
    var body := Register.BodyKeys(u);
  }

  /** The dashboard this page navigates to for an account type. */
  function DashboardPath(userType: string): (path: string)
    ensures path == "/job-seeker/dashboard" <==> userType == "jobseeker"
    ensures path in {"/job-seeker/dashboard", "/employer/dashboard"}
  {
    if userType == "jobseeker" then "/job-seeker/dashboard" else "/employer/dashboard"
  }

  /** Where the page goes once `register` has returned, as written: the
      dashboard whatever the result, since only a throw would avoid it. */
  function NavigateAsWritten(userType: string, result: AuthContext.AuthResult): (navigate: Option<string>)
    ensures navigate == Some(DashboardPath(userType))
  {
    Some(DashboardPath(userType))
  }

  /** Where the page should go: the dashboard only after a success. */
  function NavigateChecked(userType: string, result: AuthContext.AuthResult): (navigate: Option<string>)
    ensures navigate.Some? <==> result.Succeeded?
    ensures navigate.Some? ==> navigate == Some(DashboardPath(userType))
  {
    if result.Succeeded? then Some(DashboardPath(userType)) else None
  }

  /** A refused registration (a taken email, say) still takes the page as
      written to the dashboard, with nobody signed in; the checked version
      stays on the form. */
  lemma RefusedRegistrationNavigates(userType: string, error: string)
    ensures NavigateAsWritten(userType, AuthContext.Failed(error)).Some?
    ensures NavigateChecked(userType, AuthContext.Failed(error)).None?
  {
  }

  class Page {
    var form: map<string, string>
    var userType: string
    var loading: bool

    /** The password fields exist from the start. */
    ghost predicate Valid()
      reads this
    {
      "password" in form && "confirmPassword" in form
    }

    constructor()
      ensures Valid() && form == Blank && userType == "jobseeker" && !loading
    {
      form := Blank;
      userType := "jobseeker";
      loading := false;
    }

    /** The account-type buttons. */
    method SetUserType(t: string)
      requires Valid()
      modifies this
      ensures Valid() && userType == t && form == old(form) && loading == old(loading)
    {
      userType := t;
    }

    /** `handleChange`. */
    method HandleChange(name: string, value: string)
      requires Valid()
      modifies this
      ensures Valid() && form == old(form)[name := value]
      ensures userType == old(userType) && loading == old(loading)
    {
      form := form[name := value];
    }

    /** `handleSubmit` as the page has it: after the password checks the
        session manager's `register` runs, its result is not looked at, and
        since it never throws the page always reports success and navigates
        to the dashboard; the catch that would show the error is never
        reached. Loading ends. */
    method Submit(session: AuthContext.Session, reply: Reply<AuthContext.Grant>)
      returns (refused: Option<string>, sent: Option<Obj>, result: Option<AuthContext.AuthResult>,
               navigate: Option<string>)
      requires Valid()
      modifies this, session, session.store
      ensures Valid() && form == old(form) && userType == old(userType)
      ensures refused == Register.Validate(form["password"], form["confirmPassword"], TooShort)
      ensures refused.Some? ==>
        sent == None && result == None && navigate == None && loading == old(loading)
        && session.user == old(session.user) && session.store.token == old(session.store.token)
      ensures refused.None? ==>
        sent == AuthContext.RegisterPayload(UserData(form, userType)) && result.Some?
        && navigate == NavigateAsWritten(userType, result.value) && !loading
      ensures refused.None? ==> (result.value.Succeeded? <==> reply.Ok?)
      ensures refused.None? && !reply.Ok? ==>
        navigate.Some? && session.user == old(session.user) && session.store.token == old(session.store.token)
      ensures refused.None? ==>
        session.authError == (if reply.Thrown?
                              then Some(TextOr(reply.failure.message, TextOr(reply.failure.error, "Registration failed")))
                              else None)
      ensures refused.Some? ==> session.authError == old(session.authError)
    {
      refused := Register.Validate(form["password"], form["confirmPassword"], TooShort);
      if refused.Some? {
        sent, result, navigate := None, None, None;
        return;
      }
      loading := true;
      PayloadOfUserData(form, userType);
      var r;
      sent, r := session.Register(UserData(form, userType), reply);
      result := Some(r);
      navigate := NavigateAsWritten(userType, r);
      loading := false;
    }

    /** `handleSubmit` deciding on `register`'s result, as the other
        registration page does: a success navigates to the dashboard, a
        failure shows its error (or 'Registration failed') and stays. */
    method SubmitChecked(session: AuthContext.Session, reply: Reply<AuthContext.Grant>)
      returns (refused: Option<string>, sent: Option<Obj>, navigate: Option<string>, report: Option<string>)
      requires Valid()
      modifies this, session, session.store
      ensures Valid() && form == old(form) && userType == old(userType)
      ensures refused == Register.Validate(form["password"], form["confirmPassword"], TooShort)
      ensures refused.Some? ==>
        sent == None && navigate == None && report == None && loading == old(loading)
        && session.user == old(session.user) && session.store.token == old(session.store.token)
      ensures refused.None? ==> sent == AuthContext.RegisterPayload(UserData(form, userType)) && !loading
      ensures refused.None? ==> (navigate.Some? <==> reply.Ok?) && (report.Some? <==> !reply.Ok?)
      ensures navigate.Some? ==> navigate == Some(DashboardPath(userType)) && session.user == Some(reply.data.user)
      ensures refused.None? && reply.NotOk? ==>
        report == Some(Register.FailureText(TextOr(reply.message, "Registration failed")))
      ensures refused.None? && reply.Thrown? ==>
        report == Some(Register.FailureText(TextOr(reply.failure.message, TextOr(reply.failure.error, "Registration failed"))))
      ensures refused.None? ==>
        session.authError == (if reply.Thrown?
                              then Some(TextOr(reply.failure.message, TextOr(reply.failure.error, "Registration failed")))
                              else None)
      ensures refused.Some? ==> session.authError == old(session.authError)
    {
      refused := Register.Validate(form["password"], form["confirmPassword"], TooShort);
      navigate, report := None, None;
      if refused.Some? {
        sent := None;
        return;
      }
      loading := true;
      PayloadOfUserData(form, userType);
      var result;
      sent, result := session.Register(UserData(form, userType), reply);
      navigate := NavigateChecked(userType, result);
      if result.Failed? {
        report := Some(Register.FailureText(result.error));
      }
      loading := false;
    }
  }
}
