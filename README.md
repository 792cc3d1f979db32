# Job portal client — a Dafny model

This project models the browser client of a job board. Job seekers browse
and apply for postings. Employers post jobs and review applicants. The
model covers:

- the session manager: the signed-in user, login, register, logout, the
  session check and the two role checks;
- the shared request layer: the bearer token on every request (section 2.1
  of RFC 6750), and the error normalisation that drops the token once on a
  401 (section 15.5.2 of RFC 9110) and gives a fixed message on a 429
  (section 4 of RFC 6585) and on 5xx answers;
- the route guard;
- the two job-search pages: debounced filters, query parameters and
  pagination;
- the job pages and the apply flow;
- the two registration pages;
- the employer's pages: create, edit and list postings, and review
  applicants;
- the job seeker's pages: profile, résumé upload and own applications;
- the two dashboards;
- the notification bell and the notifications page.

Every page or object whose state the source updates in place is a
`class`. Its fields are the source's state hooks, and each event handler
is a `method` whose `ensures` gives the whole new state. Pure helpers are
functions, with their properties proved as lemmas.

Effects are values:

- an answer from the backend is a parameter (`Backend.Reply`, `Backend.Call`);
- a request made is returned as its body or its query object;
- a navigation is returned as `Option<string>`, a toast as its text.

JavaScript values are a `JsVal` datatype with JavaScript truthiness.
`parseInt` yields `None` for `NaN`, which a JSON body carries as `null`.
Integers are unbounded.

## Model

| member | source | states |
|---|---|---|
| Api.Authorize | src/services/api.js:12-19 | with a stored non-empty token exactly one header, `Authorization`, is added and every other header is kept; without one the headers are unchanged |
| Api.AuthorizeCarriesToken | src/services/api.js:14-17 | the bearer credential read back from the outgoing headers is exactly the stored token |
| Api.BearerToken | src/services/api.js:16 | a credential read from the headers is one whose header is `Bearer ` followed by it |
| Api.Normalize | src/services/api.js:31-106 | no response gives the network message with no status; 429 and every status from 500 up get a fixed message with the status kept; every other status passes through unchanged |
| Api.IsTokenError | src/services/api.js:55-57 | a 401 blames the token only when the response carries a message, and one at least as long as the shortest keyword |
| Api.NormalizeKeepsStatus | src/services/api.js:31-106 | the status is lost only when there was no response; the network, 429 and 5xx cases always carry a message |
| Api.TokenErrorIgnoresCase | src/services/api.js:55-57 | whether a 401 blames the token does not depend on the letter case of the message |
| Api.InvalidTokenIsTokenError | src/services/api.js:55-57 | 'Invalid token' blames the token |
| Api.NotAuthorizedIsTokenError | src/services/api.js:55-57 | 'Not authorized' blames the token |
| Api.RequestLayer.constructor | src/services/api.js:26 | no redirect is scheduled at start |
| Api.RequestLayer.Outgoing | src/services/api.js:12-19 | the request carries the stored token as its bearer credential, or keeps the caller's when none is stored |
| Api.RequestLayer.OnError | src/services/api.js:29-107 | rejects with the normalised failure; a token 401 off the login and register pages, with no redirect pending, removes the token and schedules the redirect; every other failure leaves storage and the flag alone |
| Api.RequestLayer.RedirectFires | src/services/api.js:64-67 | the scheduled redirect goes to /login and clears the flag |
| Api.TwoUnauthorized | src/services/api.js:48-70 | two token 401s in a row drop the token once: a token stored between them survives the second |
| Storage.TokenStore.SetToken | src/context/AuthContext.js:58 | the stored token becomes the given one |
| Storage.TokenStore.RemoveToken | src/context/AuthContext.js:135 | no token is stored afterwards |
| AuthContext.IsJobSeeker | src/context/AuthContext.js:145-150 | only a signed-in user with a role can be a job seeker; both spellings of the role are accepted |
| AuthContext.IsAuthenticated | src/context/AuthContext.js:165 | `!!user`: without a user neither role check holds |
| AuthContext.IsEmployer | src/context/AuthContext.js:152-155 | only a signed-in user with a role can be an employer |
| AuthContext.RolesExclusive | src/context/AuthContext.js:145-155 | no user is both a job seeker and an employer |
| AuthContext.RolesIgnoreCase | src/context/AuthContext.js:147 | upper- or lower-casing the role changes neither role check |
| AuthContext.NameText | src/context/AuthContext.js:82 | a falsy name reads as empty; a truthy name that is not text makes `trim` throw |
| AuthContext.SplitName | src/context/AuthContext.js:82-84 | the first name holds no space, and the last name is never empty (it falls back to 'User') |
| AuthContext.SplitNameAtSpace | src/context/AuthContext.js:82-84 | a trimmed name with a space splits at its first space; first name, a space and last name rebuild the trimmed name |
| AuthContext.SplitNameOneWord | src/context/AuthContext.js:83-84 | a one-word name is both first and last name; an empty name gets the last name 'User' |
| AuthContext.SplitNameTwoWords | src/context/AuthContext.js:82-84 | 'Jane Doe' gives Jane / Doe |
| AuthContext.SplitNameShort | src/context/AuthContext.js:82-84 | 'Cher' gives Cher / Cher and '' gives '' / User |
| AuthContext.MapRole | src/context/AuthContext.js:89-92 | 'jobseeker' is sent as 'job_seeker'; every other account type is sent unchanged |
| AuthContext.Body | src/context/AuthContext.js:95-107 | the body has exactly the six common fields, plus the two company fields for an employer only; a falsy phone is sent as '' |
| AuthContext.RegisterPayload | src/context/AuthContext.js:80-111 | no request is made exactly when the name throws; otherwise the body is that of the split name |
| AuthContext.Session.constructor | src/context/AuthContext.js:15-17 | no user, no error, loading |
| AuthContext.Session.CheckAuth | src/context/AuthContext.js:19-46 | asks the backend only when a token is stored; a refusal drops the token and the user; a thrown 401 drops both; any other thrown error keeps the user and token and records the message; loading ends |
| AuthContext.Session.Settle | src/context/AuthContext.js:56-75 | success stores the token and signs in; a refusal or a throw changes neither the user nor the token; only a throw records the error |
| AuthContext.Session.Login | src/context/AuthContext.js:52-76 | the error is cleared first; the result is `Succeeded` exactly on an `Ok` reply; the two failure texts and their fallbacks |
| AuthContext.Session.Register | src/context/AuthContext.js:78-132 | the body sent is `RegisterPayload`; a name that throws fails with 'Registration failed' before any request; otherwise the reply is settled as for login, with the backend's `error` as a second fallback |
| AuthContext.Session.Submit | src/context/AuthContext.js:111-131 | the outcome of a registration whose body was built or whose build threw |
| AuthContext.Session.Logout | src/context/AuthContext.js:134-138 | token, user and error are all cleared |
| AuthContext.RegisterNeverThrows | src/context/AuthContext.js:78-132 | `register` always returns a result, and it is a success exactly when a request was sent and answered `Ok` |
| PrivateRoute.Decide | src/components/PrivateRoute.js:5-18 | a visitor goes to login; a signed-in user goes home exactly when a requirement is set and differs from the role; otherwise the page renders |
| PrivateRoute.RegisteredJobSeekerLockedOut | src/components/PrivateRoute.js:13 | a user with the role 'job_seeker' is sent home from a route requiring 'jobseeker' |
| PrivateRoute.DecideByRole | src/components/PrivateRoute.js:13-15 | corrected guard: the two account types are checked with the session's role checks |
| PrivateRoute.RoleGuardAdmitsJobSeekers | src/components/PrivateRoute.js:13-15 | the corrected guard admits registered job seekers, never admits one user to both kinds of route, and admits everyone the written guard admits |
| JobListPage.With | src/pages/JobListPage.js:86-89 | the named filter gets the value and every other filter is unchanged |
| JobListPage.WithSame | src/pages/JobListPage.js:86-89 | setting a filter to its own value changes nothing |
| JobListPage.KeyInjective | src/pages/JobListPage.js:10-17 | the six filter names are distinct |
| JobListPage.QueryShape | src/pages/JobListPage.js:40-49 | page and limit are always sent; a filter is sent exactly when it is non-empty, with its text; nothing else is sent |
| JobListPage.Query | src/pages/JobListPage.js:40-49 | page and limit are always sent, and no parameter is sent with an empty text |
| JobListPage.FormatSalary | src/pages/JobListPage.js:145-158 | the four label forms, by which bounds are non-zero, each ending with the salary period |
| JobListPage.SalaryShownIffBound | src/pages/JobListPage.js:145-158 | a label carries a period exactly when some bound is non-zero |
| JobListPage.Excerpt | src/pages/JobListPage.js:283-285 | a short description is shown whole; a longer one as its first 200 characters then '...' |
| JobListPage.Controller.constructor | src/pages/JobListPage.js:8-23 | empty filters, page 1 of 0, limit 10, loading, no timer |
| JobListPage.Controller.Fetch | src/pages/JobListPage.js:37-51 | the request's query is `Query` of the filters and page given; loading starts |
| JobListPage.Controller.RestartAtFirstPage | src/pages/JobListPage.js:73-80 | moving to page 1 fetches once, plus one more fetch from the page-change effect when the page was not 1 |
| JobListPage.Controller.Mount | src/pages/JobListPage.js:67-70 | the first fetch asks for the current page with the current filters |
| JobListPage.Controller.EditFilter | src/pages/JobListPage.js:83-105 | the filter changes at once; the pending edit replaces any earlier one; no request is made |
| JobListPage.Controller.TimerFires | src/pages/JobListPage.js:97-104 | the pending edit fetches page 1 with the current filters and the timer clears |
| JobListPage.Controller.SearchNow | src/pages/JobListPage.js:107-115 | the pending timer is cancelled and page 1 is fetched |
| JobListPage.Controller.ClearFilters | src/pages/JobListPage.js:117-134 | the pending timer is cancelled, the six filters are emptied and page 1 of the empty filters is fetched |
| JobListPage.Controller.PrevPage | src/pages/JobListPage.js:314-322 | enabled only while the bar is drawn (not the loading screen of an empty list, more than one page) and off page 1; it moves one page back and fetches it, a disabled one does nothing, and a page within 1..pages stays within |
| JobListPage.Controller.NextPage | src/pages/JobListPage.js:324-331 | enabled only while the bar is drawn and off the last page; it moves one page on and fetches it, a disabled one does nothing; a page within 1..pages stays within, and one past the last never comes back |
| JobListPage.Controller.FetchDone | src/pages/JobListPage.js:51-63 | success replaces the jobs and the totals; failure keeps them; loading ends |
| JobListPage.Controller.Unmount | src/pages/JobListPage.js:137-143 | the pending timer is cancelled |
| JobListPage.ShrunkReply | src/pages/JobListPage.js:51-58 | a reply with fewer pages than the current page keeps the page, leaving it past the last, and Next still fetches the page after it |
| JobListPage.AfterEditsSnoc | src/pages/JobListPage.js:86-89 | a sequence of edits applies one edit at a time, in order |
| JobListPage.Burst | src/pages/JobListPage.js:83-105 | a burst of edits then a pause fetches page 1 once with every edit in it; when the page was not 1, the page-change effect sends an identical second request |
| JobsPage.With | src/pages/Jobs.js:68-71 | the named filter gets the value and the others are unchanged |
| JobsPage.QueryShape | src/pages/Jobs.js:29-38 | the limit 10 is always sent, the page whenever it is not 0, and a filter exactly when it is non-empty |
| JobsPage.Query | src/pages/Jobs.js:29-38 | the limit 10 is always sent, and no parameter is sent with a falsy value |
| JobsPage.FormatSalary | src/pages/Jobs.js:128-138 | the four label forms, by which bounds are non-zero |
| JobsPage.SalaryShownIffBound | src/pages/Jobs.js:128-138 | a label shows a '$' amount exactly when some bound is non-zero |
| JobsPage.ResultLabel | src/pages/Jobs.js:206 | 'Found N job' for one result, 'Found N jobs' otherwise |
| JobsPage.LabelPluralIffNotOne | src/pages/Jobs.js:206 | the label ends in 's' exactly when the total is not 1 |
| JobsPage.ExcerptAgrees | src/pages/Jobs.js:242-243 | the excerpt equals the one the newer list page shows |
| JobsPage.Excerpt | src/pages/Jobs.js:241-243 | a description up to 200 characters is shown whole; a longer one as its first 200 characters then '...' |
| JobsPage.Controller.constructor | src/pages/Jobs.js:8-20 | empty filters, page 1 of 1, loading, no timer |
| JobsPage.Controller.Fetch | src/pages/Jobs.js:26-40 | the request's query is `Query` of the filters and page given |
| JobsPage.Controller.Mount | src/pages/Jobs.js:51-54 | the first fetch asks for the current page with the current filters |
| JobsPage.Controller.RestartAtFirstPage | src/pages/Jobs.js:57-63 | moving to page 1 fetches the given filters, and the page-change effect fetches again when the page was not 1 |
| JobsPage.Controller.EditFilter | src/pages/Jobs.js:65-90 | the filter changes at once; only keyword and location set a timer, which remembers the filters of that render |
| JobsPage.Controller.TimerFires | src/pages/Jobs.js:81-88 | the fetch uses the remembered filters with the one edit applied |
| JobsPage.Controller.SearchNow | src/pages/Jobs.js:92-100 | the timer is cancelled and page 1 of the current filters is fetched |
| JobsPage.Controller.Reset | src/pages/Jobs.js:102-117 | the timer is cancelled, the filters are emptied and page 1 is fetched |
| JobsPage.Controller.PrevPage | src/pages/Jobs.js:259-268 | enabled only when loading has ended, there is more than one page and the page is not 1; it moves back and fetches, and a page within 1..pages stays within |
| JobsPage.Controller.NextPage | src/pages/Jobs.js:269-278 | enabled only when loading has ended, there is more than one page and the page is not the last; it moves on and fetches, and a page within 1..pages stays within |
| JobsPage.Controller.FetchDone | src/pages/Jobs.js:40-48 | success takes the server's pagination whole, and a page it changes triggers one more fetch; failure keeps everything |
| JobsPage.Controller.Unmount | src/pages/Jobs.js:120-126 | the pending timer is cancelled |
| JobsPage.StaleJobType | src/pages/Jobs.js:81-85 | a job type chosen while the keyword timer runs is left out of the timer's fetch |
| JobDetailPage.ApplyGuard | src/pages/JobDetailPage.js:46-61 | the request goes out exactly for a job seeker who has not applied; each refusal in the source's order |
| JobDetailPage.Label | src/pages/JobDetailPage.js:105 | 'Already Applied' wins over 'Applying...', which wins over 'Apply Now' |
| JobDetailPage.Disabled | src/pages/JobDetailPage.js:103 | the button is disabled exactly when its label is not 'Apply Now' |
| JobDetailPage.RefusalText | src/pages/JobDetailPage.js:48-59 | every refusal shows a non-empty message |
| JobDetailPage.RefusalTextsDistinct | src/pages/JobDetailPage.js:48-59 | the three refusals have three different messages |
| JobDetailPage.EnabledIffApplyNow | src/pages/JobDetailPage.js:103-105 | the button is enabled exactly when it reads 'Apply Now', and an enabled button passes every guard for a job seeker |
| JobDetailPage.ApplyBody | src/pages/JobDetailPage.js:65 | the application body is the job id alone |
| JobDetailPage.Page.constructor | src/pages/JobDetailPage.js:12-15 | no job, loading, not applying, not applied |
| JobDetailPage.Page.LoadJob | src/pages/JobDetailPage.js:24-35 | success shows the job; failure keeps what was shown; loading ends |
| JobDetailPage.Page.CheckStatus | src/pages/JobDetailPage.js:37-44 | asked only for a signed-in job seeker; the answer's truthiness replaces the applied flag |
| JobDetailPage.Page.Apply | src/pages/JobDetailPage.js:46-66 | a refused click sends nothing, changes no flag and shows the refusal's notice, and a visitor goes to /login; otherwise `applying` goes up and the job id is posted |
| JobDetailPage.Page.Answered | src/pages/JobDetailPage.js:65-72 | when the request settles, success marks the job applied with its toast, a failure keeps the mark and shows the body's message or 'Failed to submit application', and `applying` goes down either way |
| JobDetailPage.Page.Click | src/pages/JobDetailPage.js:99-106 | a click on the disabled button (pending or applied) sends nothing and changes nothing; an enabled one sends the application exactly for a job seeker |
| JobDetailPage.DoubleClick | src/pages/JobDetailPage.js:63-72 | with the first application unanswered, a second click sends nothing, and the button reads 'Applying...' in between |
| JobDetailPage.AppliedIsFinal | src/pages/JobDetailPage.js:99-106 | after applying, the button is disabled and a click is refused as a second application |
| JobDetails.ApplyGuard | src/pages/JobDetails.js:34-44 | the request goes out exactly for a user whose `userType` is 'jobseeker' |
| JobDetails.RefusalText | src/pages/JobDetails.js:36-43 | every refusal shows a non-empty message |
| JobDetails.RefusalTextsDistinct | src/pages/JobDetails.js:36-43 | the two refusals have different messages |
| JobDetails.ApplyBody | src/services/api.js:139 | the body is the job id and the cover letter |
| JobDetails.RoleIsNotEnough | src/pages/JobDetails.js:41 | a user whose role says job seeker but who has no `userType` cannot apply here |
| JobDetails.Page.constructor | src/pages/JobDetails.js:13-16 | no job, loading, not applying, empty cover letter |
| JobDetails.Page.LoadJob | src/pages/JobDetails.js:22-32 | success shows the job; failure goes back to /jobs |
| JobDetails.Page.SetCoverLetter | src/pages/JobDetails.js:120 | only the cover letter changes |
| JobDetails.Page.Apply | src/pages/JobDetails.js:34-48 | a refused click sends nothing and shows the refusal's notice, and a visitor goes to /login; otherwise `applying` goes up and the job id is posted with the cover letter |
| JobDetails.Page.Answered | src/pages/JobDetails.js:47-54 | when the request settles, success clears the cover letter, a failure keeps it and shows the body's message or 'Failed to submit application', and `applying` goes down either way |
| JobDetails.Page.Click | src/pages/JobDetails.js:124-130 | a click while `applying` sends nothing and changes nothing; otherwise the application goes out exactly when the guard passes |
| JobDetails.ButtonText | src/pages/JobDetails.js:129 | the button reads 'Submitting...' exactly while an application is pending |
| JobDetails.DoubleClick | src/pages/JobDetails.js:46-54 | with the first application unanswered, a second click sends nothing, and the button reads 'Submitting...' in between |
| Register.Validate | src/pages/Register.js:48-56 | a mismatch is reported before a short password; the form passes exactly when the two match and have at least 6 characters |
| Register.Field | src/pages/Register.js:60-76 | a field of the form is its text; a missing field is undefined |
| Register.UserData | src/pages/Register.js:60-76 | the user object has the common fields, the account type, and the job seeker's or the other type's extra fields |
| Register.UserDataFields | src/pages/Register.js:60-76 | the user object always has a text name and the chosen account type |
| Register.BodyKeys | src/context/AuthContext.js:95-107 | any user object whose name is text or missing yields a body, and the body holds only the session manager's fields |
| Register.FormOnlyKeys | src/pages/Register.js:68-76 | website, skills, experience and education are not among the fields the session manager sends |
| Register.ExtraFieldsNotForwarded | src/pages/Register.js:68-76 | the body is always built; the job seeker's extra fields and the website never reach the backend; a job seeker is sent as 'job_seeker'; an employer's company fields are passed on |
| Register.DashboardPath | src/pages/Register.js:82-84 | the job-seeker dashboard exactly for 'jobseeker', the employer dashboard otherwise |
| Register.Redirect | src/pages/Register.js:29-36 | a signed-in user is redirected, by `userType`, to a dashboard; a visitor is not |
| Register.FailureText | src/pages/Register.js:87 | the error shown, or 'Registration failed' when it is empty |
| Register.Page.constructor | src/pages/Register.js:8-24 | the empty form, job seeker selected, not loading |
| Register.Page.SetUserType | src/pages/Register.js:105-112 | only the account type changes |
| Register.Page.HandleChange | src/pages/Register.js:38-43 | only the named field changes |
| Register.Page.Submit | src/pages/Register.js:45-91 | a refused form sends nothing and leaves the session's error; otherwise the registration body is sent, success signs in and navigates, and a failure stays and shows its error: the body's message for a refusal, the response's message, then its error, then 'Registration failed' for a rejected request, which is also the session's error (cleared on every other reply); loading ends |
| RegisterPage.UserData | src/pages/RegisterPage.js:45-56 | the user object has the common fields and the account type, plus the company fields for an employer only |
| RegisterPage.PayloadOfUserData | src/pages/RegisterPage.js:45-58 | the body is always built; a job seeker is sent as 'job_seeker' and an employer's company fields are passed on |
| RegisterPage.DashboardPath | src/pages/RegisterPage.js:61-65 | '/job-seeker/dashboard' exactly for 'jobseeker' |
| RegisterPage.NavigateAsWritten | src/pages/RegisterPage.js:58-65 | whatever `register` returns, the page navigates to the dashboard |
| RegisterPage.NavigateChecked | src/pages/RegisterPage.js:58-65 | corrected: the page navigates exactly after a success |
| RegisterPage.RefusedRegistrationNavigates | src/pages/RegisterPage.js:58-67 | a failed registration still navigates as written, and does not in the corrected version |
| RegisterPage.Page.constructor | src/pages/RegisterPage.js:8-18 | the empty form, job seeker selected, not loading |
| RegisterPage.Page.SetUserType | src/pages/RegisterPage.js:82-89 | only the account type changes |
| RegisterPage.Page.HandleChange | src/pages/RegisterPage.js:22-27 | only the named field changes |
| RegisterPage.Page.Submit | src/pages/RegisterPage.js:29-71 | as written: after the password checks the body is sent and the page navigates even when the registration failed; the session's error is the rejected request's message, else its error, else 'Registration failed', and is cleared on every other reply |
| RegisterPage.Page.SubmitChecked | src/pages/RegisterPage.js:58-67 | corrected: success navigates; a failure stays and shows the body's message for a refusal, or for a rejected request its message, else its error, else 'Registration failed', which is also the session's error |
| CreateJob.SkillsValue | src/pages/CreateJob.js:43 | the skills text is sent as its parsed list, and blank text as the empty list |
| CreateJob.SalaryValue | src/pages/CreateJob.js:44-45 | a falsy salary is sent as null; otherwise its leading integer, or null when there is none |
| CreateJob.SalaryOfAmount | src/pages/CreateJob.js:44-45 | a non-zero amount, typed or numeric, is sent as itself; 0 and blank are sent as null |
| CreateJob.JobData | src/pages/CreateJob.js:41-47 | every form field is sent, and only skills, salaries and deadline are converted |
| CreateJob.SubmitBlankForm | src/pages/CreateJob.js:12-47 | the untouched form sends no skills, null salaries, a null deadline and 'full-time' |
| CreateJob.Form.constructor | src/pages/CreateJob.js:12-25 | the initial form, not loading |
| CreateJob.Form.HandleChange | src/pages/CreateJob.js:27-33 | only the named field changes |
| CreateJob.Form.Submit | src/pages/CreateJob.js:35-59 | the job data is posted; success goes to /employer/jobs; the form is kept; loading ends |
| EditJob.FormKeysExtendPosting | src/pages/EditJob.js:12-26 | the edit form has the create form's fields plus the status |
| EditJob.SkillsText | src/pages/EditJob.js:47 | a skills list is shown joined with ', '; anything else as blank |
| EditJob.DeadlineText | src/pages/EditJob.js:50 | a stored deadline is shown up to its first 'T'; a falsy one as blank |
| EditJob.LoadedForm | src/pages/EditJob.js:37-51 | each plain field keeps a truthy stored value or falls back to its default |
| EditJob.Loaded | src/pages/EditJob.js:32-58 | the load fails exactly when a truthy deadline is not text |
| EditJob.LoadedDeadline | src/pages/EditJob.js:50 | the loaded deadline is the stored one cut at its first 'T' |
| EditJob.LoadedSkills | src/pages/EditJob.js:47 | the loaded skills field always holds text |
| EditJob.LoadedDefaults | src/pages/EditJob.js:37-51 | the loaded form has exactly the form's fields; a missing job type or status loads as 'full-time' or 'active' |
| EditJob.SkillsRoundTrip | src/pages/EditJob.js:47 | a list of well-formed skills, loaded and saved unedited, is saved equal |
| EditJob.SalaryRoundTrip | src/pages/EditJob.js:44-45 | a non-zero salary, loaded and saved unedited, is saved equal; 0 or none is saved as null |
| EditJob.DeadlineRoundTrip | src/pages/EditJob.js:50 | a stored date with no time part is saved back equal |
| EditJob.PlainFieldRoundTrip | src/pages/EditJob.js:73-79 | a truthy plain field, loaded and saved unedited, is saved equal |
| EditJob.Page.constructor | src/pages/EditJob.js:12-26 | the initial form, loading, not saving |
| EditJob.Page.Load | src/pages/EditJob.js:32-58 | success fills the form and ends loading; failure, or a deadline that throws, goes to /employer/jobs |
| EditJob.Page.HandleChange | src/pages/EditJob.js:60-66 | only the named field changes |
| EditJob.Page.Submit | src/pages/EditJob.js:68-91 | the converted form is sent with the PUT; success goes to /employer/jobs; saving ends |
| MyJobs.FormatSalary | src/pages/MyJobs.js:59-64 | the four label forms, by which bounds are non-zero |
| MyJobs.SalaryShownIffBound | src/pages/MyJobs.js:59-64 | 'Not specified' exactly when neither bound is non-zero; every other label shows a '$' amount |
| MyJobs.CardOf | src/pages/MyJobs.js:130-150 | a posting's description is shown whole up to 200 characters, else its first 200 then '...' (the job list's excerpt); 'Not specified' exactly without a non-zero bound; no skills line exactly without skills; the salary line is the page's salary label of the two bounds and the skills line is its skills summary |
| MyJobs.SkillsSummary | src/pages/MyJobs.js:146-150 | nothing without skills; up to three skills in full; past three the first three and '+N more' |
| MyJobs.SummaryReadsBack | src/pages/MyJobs.js:146-150 | the skills the summary lists parse back: the whole list up to three, else the first three |
| MyJobs.SummaryCountReadsBack | src/pages/MyJobs.js:146-150 | the N of " +N more" parses back as the number of skills left out |
| MyJobs.DeleteRequests | src/pages/MyJobs.js:39-53 | nothing without confirmation; otherwise the DELETE, then both lists reloaded only on success |
| MyJobs.Page.constructor | src/pages/MyJobs.js:9-11 | no postings, every statistic 0, loading |
| MyJobs.Page.Load | src/pages/MyJobs.js:18-28 | success replaces the postings, failure keeps them; loading ends |
| MyJobs.Page.LoadStats | src/pages/MyJobs.js:30-37 | success replaces the statistics, failure keeps them |
| MyApplications.JobField | src/pages/MyApplications.js:71-87 | a job field is read from `job`, else from `Job`, else the fallback |
| MyApplications.JobTitle | src/pages/MyApplications.js:71-73 | the title of `job`, else of `Job`, else 'Unknown Job'; never empty |
| MyApplications.CompanyName | src/pages/MyApplications.js:75-79 | the company of `job`, else of `Job`, else 'Unknown Company'; never empty |
| MyApplications.JobLocation | src/pages/MyApplications.js:81-83 | the location of `job`, else of `Job`, else 'Not specified'; never empty |
| MyApplications.JobType | src/pages/MyApplications.js:85-87 | the job type of `job`, else of `Job`, else 'Not specified'; never empty |
| MyApplications.JobId | src/pages/MyApplications.js:107-109 | the application's job id, else the job's id, else the other job's id |
| MyApplications.Salary | src/pages/MyApplications.js:89-96 | a range only when both bounds are truthy, with the period defaulting to 'year' |
| MyApplications.StatusClass | src/pages/MyApplications.js:38-53 | the class of a known status, ignoring case; 'status-pending' otherwise |
| MyApplications.StatusClassIgnoresCase | src/pages/MyApplications.js:39 | upper-casing the status does not change its class |
| MyApplications.FormatStatus | src/pages/MyApplications.js:55-58 | first letter upper-cased and the rest lower-cased; 'Pending' when there is none |
| MyApplications.FormatStatusIdempotent | src/pages/MyApplications.js:55-58 | formatting twice, or formatting the upper-cased status, gives the same text |
| MyApplications.Filtered | src/pages/MyApplications.js:65-68 | 'all' keeps every application; any other filter keeps those whose status matches it, ignoring case |
| MyApplications.FilteredKeepsOrder | src/pages/MyApplications.js:65-68 | the shown list keeps the fetched order: filtering two parts in a row filters each in turn |
| MyApplications.FilteredCount | src/pages/MyApplications.js:60-63 | each button's count is the number of applications its filter shows |
| MyApplications.ButtonCountsWithinTotal | src/pages/MyApplications.js:60-63 | the per-status counts add up to at most the total |
| MyApplications.Withdrawn | src/pages/MyApplications.js:118 | exactly the applications with another id remain |
| MyApplications.WithdrawnIdempotent | src/pages/MyApplications.js:118 | withdrawing the same id twice is the same as once |
| MyApplications.WithdrawnKeepsOrder | src/pages/MyApplications.js:118 | the remaining applications keep their order |
| MyApplications.Page.constructor | src/pages/MyApplications.js:7-10 | no applications, loading, no error, filter 'all' |
| MyApplications.Page.Load | src/pages/MyApplications.js:16-36 | success shows the list or an empty one; a refusal or a throw shows an error and an empty list; loading ends |
| MyApplications.Page.Withdraw | src/pages/MyApplications.js:111-123 | a request only after confirmation; the application leaves the list only on success |
| MyApplications.Page.SetFilter | src/pages/MyApplications.js:157-187 | only the filter changes |
| JobApplications.StatusClass | src/pages/JobApplications.js:45-57 | 'accepted' and 'approved' style as accepted, 'rejected' as rejected, anything else as pending, ignoring case |
| JobApplications.StatusClassIgnoresCase | src/pages/JobApplications.js:46 | upper-casing the status does not change its class |
| JobApplications.Filtered | src/pages/JobApplications.js:59-62 | 'all' keeps every applicant; any other filter keeps those whose status matches it |
| JobApplications.FilteredKeepsOrder | src/pages/JobApplications.js:59-62 | the shown list keeps the fetched order |
| JobApplications.Count | src/pages/JobApplications.js:92-110 | each tab's count is the size of its filtered list |
| JobApplications.CountsWithinTotal | src/pages/JobApplications.js:92-110 | the three tab counts add up to at most the total |
| JobApplications.ButtonsFollowStatus | src/pages/JobApplications.js:163-178 | every applicant shows at least one button; after an action that button is gone and the other one shows |
| JobApplications.ShowAccept | src/pages/JobApplications.js:163-170 | Accept is hidden only for an accepted application, which is not a rejected one, so Reject still shows |
| JobApplications.ShowReject | src/pages/JobApplications.js:171-178 | Reject is hidden only for a rejected application, which is not an accepted one, so Accept still shows |
| JobApplications.ApprovedIsStyledButNotCounted | src/pages/JobApplications.js:45-62 | an 'approved' applicant is styled as accepted but not counted under Accepted |
| JobApplications.StatusChange | src/pages/JobApplications.js:35-43 | the PUT goes to the applicant's status path with only the new status, and a reload follows exactly on success |
| JobApplications.Page.constructor | src/pages/JobApplications.js:9-12 | no applicants, loading, filter 'all' |
| JobApplications.Page.Load | src/pages/JobApplications.js:18-33 | success shows the applicants or an empty list; failure keeps them; loading ends |
| JobApplications.Page.SetFilter | src/pages/JobApplications.js:90-108 | only the filter changes |
| JobSeekerProfile.Defaults | src/pages/JobSeekerProfile.js:33-41 | each text field keeps a truthy stored value or is blank; skills keep a stored list or are empty |
| JobSeekerProfile.Changed | src/pages/JobSeekerProfile.js:56-72 | 'skills' stores the parsed list; any other field stores the raw text; nothing else changes |
| JobSeekerProfile.EditShownSkills | src/pages/JobSeekerProfile.js:61 | entering what the textarea shows keeps the list |
| JobSeekerProfile.CommaIsSwallowed | src/pages/JobSeekerProfile.js:61 | a comma typed after the shown skills disappears at once |
| JobSeekerProfile.SecondSkillCannotBeTyped | src/pages/JobSeekerProfile.js:59-65 | after one skill, ',' then a letter extends the first skill instead of starting a second |
| JobSeekerProfile.TypeRawAppends | src/pages/JobSeekerProfile.js:219 | corrected textarea: what is typed is appended to the raw text |
| JobSeekerProfile.RawTypingKeepsEverySkill | src/pages/JobSeekerProfile.js:219 | corrected textarea: typing the display form of any skills list yields that list |
| JobSeekerProfile.Page.constructor | src/pages/JobSeekerProfile.js:9-22 | the blank form, no résumé, loading, not saving, not uploading |
| JobSeekerProfile.Page.Load | src/pages/JobSeekerProfile.js:28-54 | success fills the form and the current résumé; a 404 quietly leaves the blank form; any other failure is reported; loading ends |
| JobSeekerProfile.Page.HandleChange | src/pages/JobSeekerProfile.js:56-72 | the form becomes `Changed` of the old form |
| JobSeekerProfile.Page.FileChange | src/pages/JobSeekerProfile.js:74-83 | no file changes nothing; a file over 5 MB is refused; otherwise it is selected |
| JobSeekerProfile.Page.Submit | src/pages/JobSeekerProfile.js:85-98 | the form is sent as it is; success reloads; saving ends |
| JobSeekerProfile.Page.Upload | src/pages/JobSeekerProfile.js:100-126 | with nothing selected, a message and no request; otherwise the file is sent, success clears the selection and reloads; uploading ends |
| Dashboard.ValidEntries | src/pages/EmployerDashboard.js:78 | a missing list is empty; the entries kept are exactly those present, and the dropped ones are exactly the nulls |
| Dashboard.ValidEntriesKeepOrder | src/pages/JobSeekerDashboard.js:71-72 | the filter keeps order and keeps a list without nulls whole |
| Dashboard.Completion | src/pages/EmployerDashboard.js:146-152 | the completion figure, or 0 when it is missing or zero |
| Dashboard.CompletionLink | src/pages/JobSeekerDashboard.js:146 | the completion link shows with no figure and disappears exactly from 100 on |
| EmployerDashboard.ApplicantName | src/pages/EmployerDashboard.js:58-75 | the first present of profile name, seeker name, applicant name and email; 'Unknown Applicant' otherwise |
| EmployerDashboard.NameBeforeEmail | src/pages/EmployerDashboard.js:58-75 | the email is used only when no name is found |
| EmployerDashboard.AppliedFor | src/pages/EmployerDashboard.js:176 | the job's title, else the application's, else 'Unknown Job' |
| EmployerDashboard.AppliedWhere | src/pages/EmployerDashboard.js:178 | the job's location, else the application's, else 'N/A' |
| EmployerDashboard.StatusBadge | src/pages/EmployerDashboard.js:181-182 | the status, else 'pending'; never empty |
| EmployerDashboard.PostingCard | src/pages/EmployerDashboard.js:210-223 | each line of a posting card with its fallback; a null posting shows every fallback |
| EmployerDashboard.CardLinesNonEmpty | src/pages/EmployerDashboard.js:215-222 | no line of a posting card is empty |
| JobSeekerDashboard.CompanyName | src/pages/JobSeekerDashboard.js:56-68 | the first present of profile company, employer company and job company; 'Unknown Company' otherwise |
| JobSeekerDashboard.ProfileNameFirst | src/pages/JobSeekerDashboard.js:56-68 | the employer profile's company name wins |
| JobSeekerDashboard.AppliedFor | src/pages/JobSeekerDashboard.js:168 | the job's title, else the application's, else 'Unknown Job' |
| JobSeekerDashboard.AppliedWhere | src/pages/JobSeekerDashboard.js:172 | the job's location, else the application's, else 'N/A' |
| JobSeekerDashboard.StatusBadge | src/pages/JobSeekerDashboard.js:175-176 | the status, else 'pending' |
| JobSeekerDashboard.JobCardOf | src/pages/JobSeekerDashboard.js:209-213 | a recommended job's title, else 'Untitled Job', and its location, else 'N/A'; neither line is empty |
| JobSeekerDashboard.Salary | src/pages/JobSeekerDashboard.js:214-218 | a salary line exactly when both bounds are non-zero; the text "0" when the guard stops at a bound equal to 0; otherwise nothing |
| JobSeekerDashboard.OneBoundShowsNoAmount | src/pages/JobSeekerDashboard.js:214-218 | a job with only one non-zero bound shows no amount: nothing, or a stray "0" exactly when the other bound is 0 |
| NotificationBell.Latest | src/components/NotificationBell.js:39 | at most five notifications, a prefix of the fetched list |
| NotificationBell.Decrement | src/components/NotificationBell.js:54 | the unread count drops by one and never below 0 |
| NotificationBell.Destination | src/components/NotificationBell.js:67-71 | a click navigates exactly when the notification's link is a path, and to that path |
| NotificationBell.AgeOf | src/components/NotificationBell.js:89-96 | under a minute is 'just now'; otherwise whole minutes, hours or days, each within its own range |
| NotificationBell.AgeText | src/components/NotificationBell.js:92-95 | the text of an age: 'Just now', or the count, the unit letter and ' ago' |
| NotificationBell.TimeAgo | src/components/NotificationBell.js:89-96 | 'Just now' exactly under a minute; otherwise a text ending in the unit letter m, h or d and ' ago' |
| NotificationBell.TimeAgoReadsBack | src/components/NotificationBell.js:89-96 | the text reads back as the whole number of units that have passed |
| NotificationBell.AgeUnitsOrdered | src/components/NotificationBell.js:92-95 | an older notification never shows a smaller unit |
| NotificationBell.BadgeText | src/components/NotificationBell.js:105-107 | no badge at 0; '9+' past 9; the digit otherwise |
| NotificationBell.BadgeIsNarrow | src/components/NotificationBell.js:105-107 | the badge has one or two characters, and one exactly up to 9 |
| NotificationBell.Bell.constructor | src/components/NotificationBell.js:7-10 | no notifications, count 0, closed, not loading |
| NotificationBell.Bell.Fetch | src/components/NotificationBell.js:34-46 | success shows the latest five and the server's count; failure keeps both |
| NotificationBell.Bell.MarkAsRead | src/components/NotificationBell.js:48-58 | success marks that notification read and lowers the count; failure changes nothing |
| NotificationBell.Bell.Click | src/components/NotificationBell.js:60-72 | an unread one is marked read; the dropdown closes; the page goes to the notification's link |
| NotificationBell.Bell.Toggle | src/components/NotificationBell.js:102 | the dropdown flips |
| NotificationBell.ClickRead | src/components/NotificationBell.js:60-72 | clicking a read notification changes neither the list nor the count |
| NotificationsPage.MarkRead | src/pages/NotificationsPage.js:32-34 | every notification with that id is read; the others are unchanged, in place |
| NotificationsPage.MarkAllRead | src/pages/NotificationsPage.js:43 | every notification is read, in place |
| NotificationsPage.Remove | src/pages/NotificationsPage.js:53 | exactly the notifications with another id remain |
| NotificationsPage.Visible | src/pages/NotificationsPage.js:84-88 | 'unread' and 'read' show exactly those; any other filter shows all |
| NotificationsPage.VisibleKeepsOrder | src/pages/NotificationsPage.js:84-88 | every filter keeps the notifications in their order |
| NotificationsPage.UnreadCount | src/pages/NotificationsPage.js:90 | the unread count never exceeds the total |
| NotificationsPage.CountsAddUp | src/pages/NotificationsPage.js:126-138 | the three tab counts: all, unread, and all minus unread |
| NotificationsPage.MarkAllReadClearsUnread | src/pages/NotificationsPage.js:40-48 | after marking all read nothing is unread |
| NotificationsPage.MarkReadUnreadCount | src/pages/NotificationsPage.js:29-38 | marking one id read lowers the unread count by the unread ones with that id |
| NotificationsPage.MarkReadIdempotent | src/pages/NotificationsPage.js:32-34 | marking the same id read twice is the same as once |
| NotificationsPage.RemoveKeepsOrder | src/pages/NotificationsPage.js:53 | removal works piece by piece and keeps order |
| NotificationsPage.Icon | src/pages/NotificationsPage.js:60-73 | an unknown kind gets the bell |
| NotificationsPage.IconsDistinct | src/pages/NotificationsPage.js:60-73 | each known kind gets an icon other than the bell, and any two different known kinds get different icons |
| NotificationsPage.Link | src/pages/NotificationsPage.js:75-82 | application and job links by related id; '#' otherwise |
| NotificationsPage.LinkIsPathOrPlaceholder | src/pages/NotificationsPage.js:75-82 | a link is '#' exactly for other related types, and a path otherwise |
| NotificationsPage.Page.constructor | src/pages/NotificationsPage.js:8-10 | no notifications, loading, filter 'all' |
| NotificationsPage.Page.Load | src/pages/NotificationsPage.js:16-27 | success shows the list, failure keeps it; loading ends |
| NotificationsPage.Page.MarkAsRead | src/pages/NotificationsPage.js:29-38 | success marks that id read; failure changes nothing |
| NotificationsPage.Page.MarkAllAsRead | src/pages/NotificationsPage.js:40-48 | success marks all read, leaving nothing unread; failure changes nothing |
| NotificationsPage.Page.Delete | src/pages/NotificationsPage.js:50-58 | success removes that id; failure changes nothing |
| NotificationsPage.Page.SetFilter | src/pages/NotificationsPage.js:124-136 | only the filter changes |
| Skills.Parse | src/pages/CreateJob.js:43 | the pieces between commas, trimmed, with the empty ones dropped: every skill is well formed |
| Skills.ParseShow | src/pages/EditJob.js:47 | well-formed skills joined with ', ' parse back to the same list |
| Skills.ParseShowParse | src/pages/JobSeekerProfile.js:61 | parsing is idempotent through the display join |
| JsText.Trim | src/context/AuthContext.js:82 | the result has no surrounding white space and is no longer than the input |
| JsText.TrimContent | src/context/AuthContext.js:82 | the trimmed text is the input's slice after a white-space prefix and before a white-space suffix |
| JsText.TrimIdempotent | src/context/AuthContext.js:82 | trimming twice is trimming once |
| JsText.Split | src/context/AuthContext.js:82 | at least one piece, and no piece contains the separator |
| JsText.JoinSplit | src/context/AuthContext.js:84 | joining the pieces with the separator gives the text back |
| JsText.Join | src/context/AuthContext.js:84 | no pieces give the empty text; otherwise the text starts with the first piece |
| JsText.ToLower | src/services/api.js:55 | the same length, each letter lower-cased |
| JsText.LowerForgetsCase | src/services/api.js:55-57 | lower-casing forgets every earlier change of case, and lower-casing twice is lower-casing once |
| JsText.NatToText | src/pages/MyJobs.js:149 | the decimal text of a count: digits only, with no leading zero |
| JsText.Contains | src/services/api.js:55-57 | true exactly when the text occurs at some position |
| JsText.ParseIntOfText | src/pages/CreateJob.js:44 | `parseInt` of an integer's decimal text gives the integer back |
| JsText.ParseInt | src/pages/CreateJob.js:44 | a text that is all white space, or that holds no decimal digit, parses to NaN |
| Seqs.Filter | src/pages/NotificationsPage.js:84-88 | at most as long as the list, holding exactly the entries that pass the test |
| Seqs.Compact | src/pages/EmployerDashboard.js:78 | exactly the entries that are present, unwrapped |
| JsValue.Or | src/context/AuthContext.js:101 | the first operand when it is truthy, else the second |
| JsValue.TextOr | src/pages/EmployerDashboard.js:182 | the text when present and non-empty, else the fallback |
| JsValue.FirstPresent | src/pages/MyApplications.js:72 | the first present candidate, or the fallback |
| JsValue.Prune | src/pages/JobListPage.js:47-49 | the deletion loop leaves exactly `Pruned` of the object |
| JsValue.PrunedKeeps | src/pages/Jobs.js:36-38 | a property is kept exactly when its value is not dropped, and a kept property is unchanged |

## Left out

- Rendering and markup are left out: the loading and 'Job not found' screens, CSS classes other than the status classes, and the forms' layout.
- Toasts, `console` output and `alert` are not modelled as effects. The message a toast shows is returned where the model needs it.
- `window.confirm` is a boolean parameter. The outcome of every request is a parameter too.
- Timers are pending-edit fields. Their firing is an explicit method, and there is no clock.
- The 100 ms delay before the login redirect is the separate `RedirectFires` event.
- Requests are not tagged, so an older response that arrives after a newer one is not modelled.
- The formatters (`Intl.NumberFormat`, `toLocaleString`, `toLocaleDateString`) are function parameters. The current time in `getTimeAgo` is reduced to the elapsed seconds.
- The `Math.random()` list keys, the click-outside listener and the `FormData` wrapper of the résumé upload are left out.
- JSON serialisation dropping `undefined` fields is not modelled. A body is the object the code builds.
- The dashboards' fetch of their statistics and lists is left out as I/O. Their display helpers are modelled.
- The files that only route or lay out pages are not part of this model: App.js (beyond the role names it passes to the guard), both navigation bars, Footer.js, Home.js, HomePage.js, DashboardPage.js, Profile.js, EmployerProfile.js and JobList.js.
- CreateJob.Form.Submit: requires the skills field to hold text. Only `handleChange` writes it, with the typed text, so a list there cannot arise.
- JobDetails.Page.LoadJob: the job is kept as an opaque JSON value. Its fields are only displayed.
- MyJobs.Page.Load: a posting's skills are a list. A null skills field is read as the empty list.
- JavaScript `toLowerCase`/`toUpperCase` are modelled on ASCII letters only.
- EditJob.Page.Load: a success reply is taken to carry its payload. In src/pages/EditJob.js:35 a reply without `data.data` throws inside the `try`. That reaches the same catch as a rejected call, so it is passed in as one, but the model does not derive it from the reply's shape.
- JobSeekerProfile.Page.Load: likewise for src/pages/JobSeekerProfile.js:31, where a missing `data.data` ends in 'Failed to load profile'.
- AuthContext.Session.CheckAuth: an `Ok` reply carries its user. In src/context/AuthContext.js:24-25 a successful body without `data` sets the user to `undefined`, which the model does not produce.
- MyJobs.Page.Load: an `Ok` reply carries its list. In src/pages/MyJobs.js:21 a body without `data` sets the list to `undefined`, and a body that is missing entirely throws into the catch.
- NotificationsPage.Page.Load: an `Ok` reply carries its list. In src/pages/NotificationsPage.js:20 a body without `data.notifications` throws into the catch, so it arrives as a failure.
- NotificationBell.Bell.Fetch: an `Ok` reply carries its list and its count. In src/components/NotificationBell.js:38-40 a body without them throws into the catch, which the model receives as a failure.
- JobSeekerDashboard: the application date at src/pages/JobSeekerDashboard.js:179 ('N/A' without `createdAt`) is left out with the other date formatting.
- AuthContext.Session.Settle, AuthContext.Session.Login and AuthContext.Session.Register: an `Ok` reply always carries a token and a user. In src/context/AuthContext.js:57 and 113, a successful body without `data` throws while being destructured and lands in the catch at line 67 or 123. The model receives that case as `Thrown` with a failure that has no response.
- Register.Validate: lengths count characters (code points), while JavaScript's `length` counts UTF-16 code units. A password of three characters outside the Basic Multilingual Plane is 6 units long in the browser and passes there, but it is refused here.
- RegisterPage.Page.Submit: the same length rule and the same difference.
- JobListPage.Excerpt: the 200 limit and the cut count characters, not UTF-16 code units. The browser's `substring(0, 200)` can split a surrogate pair. The same holds for JobsPage.Excerpt and MyJobs.CardOf, which share it.
- Numbers are unbounded integers. Fractional salaries and `NaN` arithmetic are not modelled.

## Findings

| source | as written | input that shows it | evidently intended | confidence | as-written member | corrected member |
|---|---|---|---|---|---|---|
| src/components/PrivateRoute.js:13 | the guard compares `user.role` exactly with the route's 'jobseeker', while registration stores the role 'job_seeker' (src/context/AuthContext.js:90-91) | a user who registered as a job seeker opens /job-seeker/dashboard | such a user is admitted, as the session's own `checkIsJobSeeker` accepts both spellings | not executed | PrivateRoute.RegisteredJobSeekerLockedOut | PrivateRoute.RoleGuardAdmitsJobSeekers |
| src/pages/RegisterPage.js:58-67 | the page awaits `register`, ignores its result, shows success and navigates; `register` reports failure by returning `{success: false}` and never throws, so the catch is never reached | a registration the backend refuses, such as an email already in use | stay on the page and show the error, as src/pages/Register.js:78-88 does | not executed | RegisterPage.RefusedRegistrationNavigates | RegisterPage.Page.SubmitChecked |
| src/pages/JobSeekerProfile.js:59-65 | every keystroke in the skills textarea is parsed into a list and shown joined with ', ' (line 219), so a trailing comma is dropped at once | a profile with the skill 'React': type ',' and then 'N' | the user can type a second skill; keep the raw text and parse it on submit | not executed | JobSeekerProfile.SecondSkillCannotBeTyped | JobSeekerProfile.RawTypingKeepsEverySkill |
