/** The route guard: a visitor goes to the login page, a signed-in user
    whose role does not match the route's required account type goes to
    the home page, anyone else sees the page. */
module PrivateRoute {
  import opened Wrappers
  import opened JsValue
  import AuthContext
  import JsText

  /** What the guard renders. */
  datatype Access = Render | ToLogin | ToHome

  /** The guard as written: the role stored on the user must equal the
      required account type exactly (letter case included); an absent or
      empty requirement admits every signed-in user. */
  function Decide(user: Option<AuthContext.User>, required: Option<string>): (a: Access)
    ensures a == ToLogin <==> !AuthContext.IsAuthenticated(user)
    ensures a == ToHome <==> user.Some? && Present(required) && user.value.role != Some(required.value)
    ensures a == Render <==> user.Some? && (!Present(required) || user.value.role == Some(required.value))
  {
    if !AuthContext.IsAuthenticated(user) then ToLogin
    else if Present(required) && user.value.role != Some(required.value) then ToHome
    else Render
  }

  /** The job-seeker routes require 'jobseeker', while registering as a job
      seeker stores the role 'job_seeker' (`Register.ExtraFieldsNotForwarded`):
      such a user is sent home from every job-seeker route, whatever
      `userType` the user carries. */
  lemma RegisteredJobSeekerLockedOut(email: string, userType: Option<string>)
    ensures Decide(Some(AuthContext.User(email, Some("job_seeker"), userType)), Some("jobseeker")) == ToHome
  {
    assert "job_seeker"[3] != "jobseeker"[3];
  }

  /** The guard as intended: the two account types are recognised with the
      session manager's own role checks, which accept both spellings of the
      job-seeker role and ignore letter case; any other requirement is
      compared exactly as before. */
  function DecideByRole(user: Option<AuthContext.User>, required: Option<string>): (a: Access)
    ensures a == ToLogin <==> !AuthContext.IsAuthenticated(user)
    ensures user.Some? && required == Some("jobseeker") ==>
      (a == Render <==> AuthContext.IsJobSeeker(user))
    ensures user.Some? && required == Some("employer") ==>
      (a == Render <==> AuthContext.IsEmployer(user))
    ensures required != Some("jobseeker") && required != Some("employer") ==> a == Decide(user, required)
  {
    if !AuthContext.IsAuthenticated(user) then ToLogin
    else if required == Some("jobseeker") then (if AuthContext.IsJobSeeker(user) then Render else ToHome)
    else if required == Some("employer") then (if AuthContext.IsEmployer(user) then Render else ToHome)
    else Decide(user, required)
  }

  /** With the intended guard a registered job seeker reaches the job-seeker
      routes and no user reaches both the job-seeker and the employer routes;
      every user the written guard admits to those routes is still admitted. */
  lemma RoleGuardAdmitsJobSeekers(u: AuthContext.User)
    ensures DecideByRole(Some(u.(role := Some("job_seeker"))), Some("jobseeker")) == Render
    ensures !(DecideByRole(Some(u), Some("jobseeker")) == Render && DecideByRole(Some(u), Some("employer")) == Render)
    ensures Decide(Some(u), Some("jobseeker")) == Render ==> DecideByRole(Some(u), Some("jobseeker")) == Render
    ensures Decide(Some(u), Some("employer")) == Render ==> DecideByRole(Some(u), Some("employer")) == Render
  {
    assert JsText.ToLower("job_seeker") == "job_seeker";
    assert JsText.ToLower("jobseeker") == "jobseeker";
    assert JsText.ToLower("employer") == "employer";
    AuthContext.RolesExclusive(Some(u));
  }
}
