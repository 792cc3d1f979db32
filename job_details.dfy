/** The older job page: the job loaded by id (a failure goes back to the
    job list) and an application with a cover letter, guarded by the
    `userType` recorded on the user. */
module JobDetails {
  import opened Wrappers
  import opened JsValue
  import opened Backend
  import AuthContext
  import JsText

  /** Why `handleApply` stops before any request. */
  datatype Refusal = NeedsLogin | NotJobSeeker

  /** The guards of `handleApply`, in order: a visitor must log in, and the
      user's `userType` must be exactly 'jobseeker'. */
  function ApplyGuard(user: Option<AuthContext.User>): (r: Option<Refusal>)
    ensures r.None? <==> user.Some? && user.value.userType == Some("jobseeker")
    ensures user.None? ==> r == Some(NeedsLogin)
    ensures user.Some? && user.value.userType != Some("jobseeker") ==> r == Some(NotJobSeeker)
  {
    if user.None? then Some(NeedsLogin)
    else if user.value.userType != Some("jobseeker") then Some(NotJobSeeker)
    else None
  }

  /** The notice each refusal shows. */
  function RefusalText(r: Refusal): (t: string)
    ensures t != ""
  {
    match r
    case NeedsLogin => "Please login to apply"
    case NotJobSeeker => "Only job seekers can apply"
  }

  /** Each refusal has its own message. */
  lemma RefusalTextsDistinct(r1: Refusal, r2: Refusal)
    ensures RefusalText(r1) == RefusalText(r2) ==> r1 == r2
  {
  }

  /** `applicationAPI.apply(id, { coverLetter })` posts the job id and the
      cover letter, nothing else. */
  function ApplyBody(jobId: string, coverLetter: string): (body: Obj)
    ensures body.Keys == {"jobId", "coverLetter"}
    ensures body["jobId"] == JStr(jobId) && body["coverLetter"] == JStr(coverLetter)
  {
    map["jobId" := JStr(jobId), "coverLetter" := JStr(coverLetter)]
  }

  /** The guard reads only `userType`: a user whose role says job seeker
      but who carries no `userType` (as the session manager's users may)
      cannot apply here. */
  lemma RoleIsNotEnough(email: string)
    ensures var u := AuthContext.User(email, Some("job_seeker"), None);
      AuthContext.IsJobSeeker(Some(u)) && ApplyGuard(Some(u)) == Some(NotJobSeeker)
  {
    assert AuthContext.IsJobSeeker(Some(AuthContext.User(email, Some("job_seeker"), None))) by {
      assert JsText.ToLower("job_seeker") == "job_seeker";
    }
  }

  /** The submit button's text: 'Submitting...' while an application is
      pending, when the button is also disabled. */
  function ButtonText(applying: bool): (t: string)
    ensures applying <==> t == "Submitting..."
  {
    if applying then "Submitting..." else "Submit Application"
  }

  class Page {
    const id: string
    var job: Option<JsVal>
    var loading: bool
    var applying: bool
    var coverLetter: string

    constructor(id: string)
      ensures this.id == id && job == None && loading && !applying && coverLetter == ""
    {
      this.id := id;
      job := None;
      loading := true;
      applying := false;
      coverLetter := "";
    }

    /** `fetchJobDetails` completes: success shows the body, failure goes
        back to the job list; loading ends either way. */
    method LoadJob(reply: Call<JsVal>) returns (navigate: Option<string>)
      modifies this
      ensures job == if reply.Resolved? then Some(reply.value) else old(job)
      ensures navigate == if reply.Resolved? then None else Some("/jobs")
      ensures !loading && applying == old(applying) && coverLetter == old(coverLetter)
    {
      navigate := None;
      if reply.Resolved? {
        job := Some(reply.value);
      } else {
        navigate := Some("/jobs");
      }
      loading := false;
    }

    /** Typing in the cover-letter box. */
    method SetCoverLetter(text: string)
      modifies this
      ensures coverLetter == text
      ensures job == old(job) && loading == old(loading) && applying == old(applying)
    {
      coverLetter := text;
    }

    /** `handleApply` up to its request: a refused click sends nothing,
        shows the refusal's notice, and a visitor is also sent to the
        login page; otherwise `applying` goes up and the job id is posted
        with the cover letter. Its answer arrives later, in `Answered`. */
    method Apply(user: Option<AuthContext.User>)
      returns (sent: Option<Obj>, navigate: Option<string>, notice: Option<string>)
      modifies this
      ensures job == old(job) && loading == old(loading) && coverLetter == old(coverLetter)
      ensures ApplyGuard(user).Some? ==>
        sent == None && applying == old(applying) && notice == Some(RefusalText(ApplyGuard(user).value))
      ensures navigate.Some? <==> user.None?
      ensures navigate.Some? ==> navigate == Some("/login")
      ensures ApplyGuard(user).None? ==>
        sent == Some(ApplyBody(id, coverLetter)) && applying && notice == None
    {
      navigate := None;
      var refusal := ApplyGuard(user);
      if refusal.Some? {
        if refusal.value == NeedsLogin {
          navigate := Some("/login");
        }
        return None, navigate, Some(RefusalText(refusal.value));
      }
      applying := true;
      sent := Some(ApplyBody(id, coverLetter));
      notice := None;
    }

    /** The application request settles, with `failure` its outcome
        (`None` on success): success clears the cover letter, a failure
        keeps it; either way its toast is shown and `applying` goes down. */
    method Answered(failure: Option<Failure>) returns (message: string)
      modifies this
      ensures job == old(job) && loading == old(loading) && !applying
      ensures failure.None? ==> coverLetter == "" && message == "Application submitted successfully!"
      ensures failure.Some? ==>
        coverLetter == old(coverLetter)
        && message == TextOr(failure.value.message, "Failed to submit application")
    {
      if failure.None? {
        message := "Application submitted successfully!";
        coverLetter := "";
      } else {
        message := TextOr(failure.value.message, "Failed to submit application");
      }
      applying := false;
    }

    /** A click on the submit button, which is disabled while `applying`:
        then nothing happens, so no second application goes out while one
        is pending; otherwise it runs `handleApply`. */
    method Click(user: Option<AuthContext.User>)
      returns (sent: Option<Obj>, navigate: Option<string>, notice: Option<string>)
      modifies this
      ensures old(applying) ==>
        sent == None && navigate == None && notice == None && unchanged(this)
      ensures !old(applying) ==>
        (sent.Some? <==> ApplyGuard(user).None?)
        && (sent.Some? ==> sent == Some(ApplyBody(id, old(coverLetter))) && applying)
      ensures job == old(job) && loading == old(loading) && coverLetter == old(coverLetter)
    {
      if applying {
        return None, None, None;
      }
      sent, navigate, notice := Apply(user);
    }
  }

  /** Two clicks in a row with the first application unanswered send one
      request: in between the button reads 'Submitting...'. */
  method DoubleClick(page: Page, user: Option<AuthContext.User>)
    returns (first: Option<Obj>, second: Option<Obj>)
    requires ApplyGuard(user).None? && !page.applying
    modifies page
    ensures first == Some(ApplyBody(page.id, page.coverLetter)) && second == None
    ensures page.applying && ButtonText(page.applying) == "Submitting..."
  {
    var navigate, notice;
    first, navigate, notice := page.Click(user);
    second, navigate, notice := page.Click(user);
  }
}
