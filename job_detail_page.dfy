/** One job's page for a job seeker: the job loaded by id, whether the
    user has already applied, and the Apply button with its guard chain and
    its two flags. */
module JobDetailPage {
  import opened Wrappers
  import opened JsValue
  import opened Backend
  import AuthContext

  /** Why `handleApply` stops before any request. */
  datatype Refusal = NeedsLogin | NotJobSeeker | AlreadyApplied

  /** The guards of `handleApply`, in order: a visitor must log in, a
      signed-in user who is not a job seeker cannot apply, and nobody
      applies twice. `None` lets the request go out. */
  function ApplyGuard(user: Option<AuthContext.User>, hasApplied: bool): (r: Option<Refusal>)
    ensures r.None? <==> AuthContext.IsJobSeeker(user) && !hasApplied
    ensures !AuthContext.IsAuthenticated(user) ==> r == Some(NeedsLogin)
    ensures AuthContext.IsAuthenticated(user) && !AuthContext.IsJobSeeker(user) ==> r == Some(NotJobSeeker)
    ensures AuthContext.IsJobSeeker(user) && hasApplied ==> r == Some(AlreadyApplied)
  {
    if !AuthContext.IsAuthenticated(user) then Some(NeedsLogin)
    else if !AuthContext.IsJobSeeker(user) then Some(NotJobSeeker)
    else if hasApplied then Some(AlreadyApplied)
    else None
  }

  /** The notice each refusal shows. */
  function RefusalText(r: Refusal): (t: string)
    ensures t != ""
  {
    match r
    case NeedsLogin => "Please login as a job seeker to apply"
    case NotJobSeeker => "Only job seekers can apply for jobs"
    case AlreadyApplied => "You have already applied to this job"
  }

  /** Each refusal has its own message. */
  lemma RefusalTextsDistinct(r1: Refusal, r2: Refusal)
    ensures RefusalText(r1) == RefusalText(r2) ==> r1 == r2
  {
  }

  /** The Apply button's label: 'Already Applied' wins over 'Applying...',
      which wins over 'Apply Now'. */
  function Label(hasApplied: bool, applying: bool): (s: string)
    ensures hasApplied ==> s == "Already Applied"
    ensures !hasApplied && applying ==> s == "Applying..."
    ensures !hasApplied && !applying ==> s == "Apply Now"
  {
    if hasApplied then "Already Applied" else if applying then "Applying..." else "Apply Now"
  }

  /** The button is disabled while a request runs and after an application. */
  predicate Disabled(applying: bool, hasApplied: bool): (b: bool)
    ensures b <==> Label(hasApplied, applying) != "Apply Now"
  {
    applying || hasApplied
  }

  /** The button is enabled exactly when it reads 'Apply Now', and for a
      job seeker an enabled button is one whose click passes every guard. */
  lemma EnabledIffApplyNow(user: Option<AuthContext.User>, hasApplied: bool, applying: bool)
    ensures !Disabled(applying, hasApplied) <==> Label(hasApplied, applying) == "Apply Now"
    ensures AuthContext.IsJobSeeker(user) && !Disabled(applying, hasApplied) ==> ApplyGuard(user, hasApplied).None?
  {
  }

  /** The body of the application request. */
  function ApplyBody(jobId: string): (body: Obj)
    ensures body.Keys == {"jobId"} && body["jobId"] == JStr(jobId)
  {
    map["jobId" := JStr(jobId)]
  }

  class Page {
    const id: string
    var job: Option<Obj>
    var loading: bool
    var applying: bool
    var hasApplied: bool

    constructor(id: string)
      ensures this.id == id && job == None && loading && !applying && !hasApplied
    {
      this.id := id;
      job := None;
      loading := true;
      applying := false;
      hasApplied := false;
    }

    /** `fetchJobDetails` completes: success shows the job, failure keeps
        what was shown; loading ends either way. */
    method LoadJob(reply: Call<Obj>)
      modifies this
      ensures job == if reply.Resolved? then Some(reply.value) else old(job)
      ensures !loading && applying == old(applying) && hasApplied == old(hasApplied)
    {
      if reply.Resolved? {
        job := Some(reply.value);
      }
      loading := false;
    }

    /** `checkApplicationStatus`, made only for a signed-in job seeker: the
        answer's `hasApplied` (by its truthiness) replaces the flag; a
        failure leaves it. */
    method CheckStatus(user: Option<AuthContext.User>, reply: Call<JsVal>) returns (requested: bool)
      modifies this
      ensures requested <==> AuthContext.IsAuthenticated(user) && AuthContext.IsJobSeeker(user)
      ensures hasApplied == if requested && reply.Resolved? then Truthy(reply.value) else old(hasApplied)
      ensures job == old(job) && loading == old(loading) && applying == old(applying)
    {
      requested := AuthContext.IsAuthenticated(user) && AuthContext.IsJobSeeker(user);
      if requested && reply.Resolved? {
        hasApplied := Truthy(reply.value);
      }
    }

    /** `handleApply` up to its request: a refused click sends nothing and
        changes no flag, shows the refusal's notice, and a visitor is also
        sent to the login page; otherwise `applying` goes up and the
        application is posted. Its answer arrives later, in `Answered`. */
    method Apply(user: Option<AuthContext.User>)
      returns (sent: Option<Obj>, navigate: Option<string>, notice: Option<string>)
      modifies this
      ensures job == old(job) && loading == old(loading) && hasApplied == old(hasApplied)
      ensures ApplyGuard(user, hasApplied).Some? ==>
        sent == None && applying == old(applying)
        && notice == Some(RefusalText(ApplyGuard(user, hasApplied).value))
      ensures navigate.Some? <==> ApplyGuard(user, hasApplied) == Some(NeedsLogin)
      ensures navigate.Some? ==> navigate == Some("/login")
      ensures ApplyGuard(user, hasApplied).None? ==>
        sent == Some(ApplyBody(id)) && applying && notice == None
    {
      navigate := None;
      var refusal := ApplyGuard(user, hasApplied);
      if refusal.Some? {
        if refusal.value == NeedsLogin {
          navigate := Some("/login");
        }
        return None, navigate, Some(RefusalText(refusal.value));
      }
      applying := true;
      sent := Some(ApplyBody(id));
      notice := None;
    }

    /** The application request settles, with `failure` its outcome
        (`None` on success): success marks the job as applied to, a
        failure leaves the mark; either way its toast is shown and
        `applying` goes down. */
    method Answered(failure: Option<Failure>) returns (message: string)
      modifies this
      ensures job == old(job) && loading == old(loading) && !applying
      ensures failure.None? ==> hasApplied && message == "Application submitted successfully!"
      ensures failure.Some? ==>
        hasApplied == old(hasApplied)
        && message == TextOr(failure.value.message, "Failed to submit application")
    {
      if failure.None? {
        message := "Application submitted successfully!";
        hasApplied := true;
      } else {
        message := TextOr(failure.value.message, "Failed to submit application");
      }
      applying := false;
    }

    /** A click on the Apply button: a disabled button does nothing, so
        while an application is pending no second one goes out; an
        enabled button runs `handleApply`. */
    method Click(user: Option<AuthContext.User>)
      returns (sent: Option<Obj>, navigate: Option<string>, notice: Option<string>)
      modifies this
      ensures Disabled(old(applying), old(hasApplied)) ==>
        sent == None && navigate == None && notice == None && unchanged(this)
      ensures !Disabled(old(applying), old(hasApplied)) ==>
        (sent.Some? <==> AuthContext.IsJobSeeker(user))
        && (sent.Some? ==> sent == Some(ApplyBody(id)) && applying)
      ensures job == old(job) && loading == old(loading) && hasApplied == old(hasApplied)
    {
      if Disabled(applying, hasApplied) {
        return None, None, None;
      }
      sent, navigate, notice := Apply(user);
    }
  }

  /** Two clicks in a row with the first application unanswered send one
      request: in between the button reads 'Applying...' and is disabled. */
  method DoubleClick(page: Page, user: Option<AuthContext.User>)
    returns (first: Option<Obj>, second: Option<Obj>)
    requires AuthContext.IsJobSeeker(user) && !page.applying && !page.hasApplied
    modifies page
    ensures first == Some(ApplyBody(page.id)) && second == None
    ensures page.applying && Label(page.hasApplied, page.applying) == "Applying..."
  {
    var navigate, notice;
    first, navigate, notice := page.Click(user);
    second, navigate, notice := page.Click(user);
  }

  /** After a successful application the page cannot apply again: the
      button reads 'Already Applied', is disabled, and a click is refused
      as a second application. */
  lemma AppliedIsFinal(user: Option<AuthContext.User>, applying: bool)
    requires AuthContext.IsJobSeeker(user)
    ensures Label(true, applying) == "Already Applied" && Disabled(applying, true)
    ensures ApplyGuard(user, true) == Some(AlreadyApplied)
  {
  }
}
