/** The session manager: who is signed in, the last authentication error, the
    initial loading flag and the stored token, with the outcomes of checking
    the session, logging in, registering and logging out. */
module AuthContext {
  import opened Wrappers
  import opened JsText
  import opened JsValue
  import opened Backend
  import opened Storage

  /** The signed-in user as the backend returns it. `role` is what the
      backend stores ('job_seeker', 'employer', ...); `userType` is read by
      the older pages. */
  datatype User = User(email: string, role: Option<string>, userType: Option<string>)

  /** The `data` of a successful login or registration. */
  datatype Grant = Grant(token: string, user: User)

  /** What `login` and `register` return to the page. */
  datatype AuthResult = Succeeded(user: User) | Failed(error: string)

  /** First and last name as sent to the backend. */
  datatype Name = Name(first: string, last: string)

  // ---------------------------------------------------------------- derived flags

  /** `isAuthenticated: !!user`. */
  predicate IsAuthenticated(u: Option<User>): (b: bool)
    ensures !b ==> !IsJobSeeker(u) && !IsEmployer(u)
  {
    u.Some?
  }

  /** `checkIsJobSeeker`: the lower-cased role is 'jobseeker' or 'job_seeker'. */
  function IsJobSeeker(u: Option<User>): (b: bool)
    ensures b ==> u.Some? && u.value.role.Some?
  {
    u.Some? && u.value.role.Some?
    && (ToLower(u.value.role.value) == "jobseeker" || ToLower(u.value.role.value) == "job_seeker")
  }

  /** `checkIsEmployer`: the lower-cased role is 'employer'. */
  function IsEmployer(u: Option<User>): (b: bool)
    ensures b ==> u.Some? && u.value.role.Some?
  {
    u.Some? && u.value.role.Some? && ToLower(u.value.role.value) == "employer"
  }

  /** No user is both a job seeker and an employer. */
  lemma RolesExclusive(u: Option<User>)
    ensures !(IsJobSeeker(u) && IsEmployer(u))
  {
  }

  /** The role checks ignore letter case: a role and its upper-cased or
      lower-cased spelling give the same answers. */
  lemma RolesIgnoreCase(u: User, r: string)
    ensures IsJobSeeker(Some(u.(role := Some(ToUpper(r))))) == IsJobSeeker(Some(u.(role := Some(r))))
    ensures IsEmployer(Some(u.(role := Some(ToUpper(r))))) == IsEmployer(Some(u.(role := Some(r))))
    ensures IsJobSeeker(Some(u.(role := Some(ToLower(r))))) == IsJobSeeker(Some(u.(role := Some(r))))
    ensures IsEmployer(Some(u.(role := Some(ToLower(r))))) == IsEmployer(Some(u.(role := Some(r))))
  {
    LowerForgetsCase(r);
  }

  // ---------------------------------------------------------------- register payload

  /** `(userData.name || '').trim()` up to the trim: a falsy name reads as
      '', a string as itself, and any other truthy value has no `trim`, so
      the call throws (`None`). */
  function NameText(name: JsVal): (t: Option<string>)
    ensures !Truthy(name) ==> t == Some("")
    ensures t.None? <==> Truthy(name) && !name.JStr?
  {
    if !Truthy(name) then Some("")
    else match name
      case JStr(s) => Some(s)
      case _ => None
  }

  /** The name split: the trimmed name cut at single spaces; the first piece
      is the first name; the other pieces joined by ' ' are the last name,
      else the first piece, else 'User'. */
  function SplitName(full: string): (n: Name)
    ensures ' ' !in n.first
    ensures n.last != ""
  {
    var parts := Split(Trim(full), ' ');
    assert ' ' !in parts[0];
    NameOf(parts)
  }

  /** First and last name from the pieces of the split. */
  function NameOf(parts: seq<string>): (n: Name)
    requires |parts| >= 1
    ensures n.first == parts[0] && n.last != ""
  {
    var rest := Join(parts[1..], " ");
    Name(parts[0], if rest != "" then rest else if parts[0] != "" then parts[0] else "User")
  }

  /** A trimmed name holding a space splits at its first space, and first
      name, a space and last name give the trimmed name back. */
  lemma SplitNameAtSpace(full: string)
    requires ' ' in Trim(full)
    ensures ' ' !in SplitName(full).first
    ensures SplitName(full).first + " " + SplitName(full).last == Trim(full)
  {
    var r := Trim(full);
    var a, b := FirstOccurrence(r, ' ');
    SplitAtFirst(a, ' ', b);
    var parts := Split(r, ' ');
    assert parts[0] == a && parts[1..] == Split(b, ' ');
    JoinSplit(b, ' ');
    assert r[|a|] == ' ' && !IsWhite(r[|r| - 1]);
    assert |b| == |r| - |a| - 1 > 0;
  }

  /** A one-word name is both first and last name; an empty name has an
      empty first name and the last name 'User'. */
  lemma SplitNameOneWord(full: string)
    requires ' ' !in Trim(full)
    ensures SplitName(full) == Name(Trim(full), if Trim(full) == "" then "User" else Trim(full))
  {
    var r := Trim(full);
    SplitWithout(r, ' ');
    NameOfOne(r);
  }

  lemma NameOfOne(x: string)
    ensures NameOf([x]) == Name(x, if x == "" then "User" else x)
  {
    assert [x][1..] == [];
  }

  /** "Jane Doe" gives Jane/Doe. */
  lemma SplitNameTwoWords()
    ensures SplitName("Jane Doe") == Name("Jane", "Doe")
  {
    var r := "Jane Doe";
    TrimOfTrimmed(r);
    assert r == "Jane" + [' '] + "Doe";
    SplitAtFirst("Jane", ' ', "Doe");
    SplitWithout("Doe", ' ');
  }

  /** "Cher" gives Cher/Cher and "" gives ""/User. */
  lemma SplitNameShort()
    ensures SplitName("Cher") == Name("Cher", "Cher")
    ensures SplitName("") == Name("", "User")
  {
    TrimOfTrimmed("Cher");
    TrimOfTrimmed("");
    SplitNameOneWord("Cher");
    SplitNameOneWord("");
  }

  /** The role sent to the backend: 'jobseeker' becomes 'job_seeker'; any
      other value goes through unchanged. */
  function MapRole(userType: JsVal): (role: JsVal)
    ensures userType == JStr("jobseeker") ==> role == JStr("job_seeker")
    ensures userType != JStr("jobseeker") ==> role == userType
  {
    if userType == JStr("jobseeker") then JStr("job_seeker") else userType
  }

  /** The fields `register` always sends. */
  const BaseKeys: set<string> := {"email", "password", "role", "firstName", "lastName", "phone"}

  /** The fields added for an employer. */
  const CompanyKeys: set<string> := {"companyName", "companyDescription"}

  /** The registration body for a name already split: the always-sent
      fields, and for an employer the two company fields. */
  function Body(userData: Obj, n: Name): (o: Obj)
    ensures o.Keys == BaseKeys + (if Get(userData, "userType") == JStr("employer") then CompanyKeys else {})
    ensures o["email"] == Get(userData, "email") && o["password"] == Get(userData, "password")
    ensures o["role"] == MapRole(Get(userData, "userType"))
    ensures o["firstName"] == JStr(n.first) && o["lastName"] == JStr(n.last)
    ensures Truthy(Get(userData, "phone")) ==> o["phone"] == Get(userData, "phone")
    ensures !Truthy(Get(userData, "phone")) ==> o["phone"] == JStr("")
    ensures Get(userData, "userType") == JStr("employer") ==>
      o["companyName"] == Get(userData, "companyName")
      && o["companyDescription"] == Get(userData, "companyDescription")
  {
    var base := map[
      "email" := Get(userData, "email"),
      "password" := Get(userData, "password"),
      "role" := MapRole(Get(userData, "userType")),
      "firstName" := JStr(n.first),
      "lastName" := JStr(n.last),
      "phone" := Or(Get(userData, "phone"), JStr(""))];
    if Get(userData, "userType") == JStr("employer") then
      base["companyName" := Get(userData, "companyName")]
          ["companyDescription" := Get(userData, "companyDescription")]
    else base
  }

  /** The object `register` posts to `/auth/register`, or `None` when the
      name has no `trim` and the call throws before any request. */
  function RegisterPayload(userData: Obj): (p: Option<Obj>)
    ensures p.None? <==> NameText(Get(userData, "name")).None?
    ensures p.Some? ==> p.value == Body(userData, SplitName(NameText(Get(userData, "name")).value))
  {
    match NameText(Get(userData, "name"))
    case None => None
    case Some(full) => Some(Body(userData, SplitName(full)))
  }

  // ---------------------------------------------------------------- the session

  class Session {
    var user: Option<User>
    var authError: Option<string>
    var loading: bool
    /** The token lives in `localStorage`, shared with the request layer. */
    const store: TokenStore

    /** The provider's initial state: no user, no error, loading. */
    constructor(store: TokenStore)
      ensures user == None && authError == None && loading
      ensures this.store == store
    {
      user := None;
      authError := None;
      loading := true;
      this.store := store;
    }

    /** `checkAuth` (also what `refreshUser` runs). `reply` is the answer to
        `GET /auth/me`, used only when a token is stored; `requested` says
        whether the request was made. */
    method CheckAuth(reply: Reply<User>) returns (requested: bool)
      modifies this, store
      ensures requested <==> Present(old(store.token))
      ensures !loading
      ensures !requested ==>
        user == None && authError == old(authError) && store.token == old(store.token)
      ensures requested && reply.Ok? ==>
        user == Some(reply.data) && authError == None && store.token == old(store.token)
      ensures requested && reply.NotOk? ==>
        user == None && store.token == None && authError == old(authError)
      ensures requested && reply.Thrown? && reply.failure.status == Some(401) ==>
        user == None && store.token == None
      ensures requested && reply.Thrown? && reply.failure.status != Some(401) ==>
        user == old(user) && store.token == old(store.token)
      ensures requested && reply.Thrown? ==>
        authError == Some(TextOr(reply.failure.message, "Authentication check failed"))
    {
      requested := Present(store.token);
      if requested {
        match reply
        case Ok(u) =>
          user := Some(u);
          authError := None;
        case NotOk(_) =>
          store.RemoveToken();
          user := None;
        case Thrown(f) =>
          if f.status == Some(401) {
            store.RemoveToken();
            user := None;
          }
          authError := Some(TextOr(f.message, "Authentication check failed"));
      } else {
        user := None;
      }
      loading := false;
    }

    /** What `login` and `register` do with the reply to their request: an
        `Ok` stores the token and signs the user in; `NotOk` reports the
        body's message or `notOkFallback`; a thrown call records and
        reports `thrownMessage` of its failure. */
    method Settle(reply: Reply<Grant>, notOkFallback: string, thrownMessage: Failure -> string)
      returns (result: AuthResult)
      modifies this, store
      ensures loading == old(loading)
      ensures reply.Ok? ==>
        result == Succeeded(reply.data.user) && user == Some(reply.data.user)
        && store.token == Some(reply.data.token) && authError == old(authError)
      ensures !reply.Ok? ==> result.Failed? && user == old(user) && store.token == old(store.token)
      ensures reply.NotOk? ==>
        result.error == TextOr(reply.message, notOkFallback) && authError == old(authError)
      ensures reply.Thrown? ==>
        result.error == thrownMessage(reply.failure) && authError == Some(result.error)
    {
      match reply
      case Ok(g) =>
        store.SetToken(g.token);
        user := Some(g.user);
        result := Succeeded(g.user);
      case NotOk(m) =>
        result := Failed(TextOr(m, notOkFallback));
      case Thrown(f) =>
        authError := Some(thrownMessage(f));
        result := Failed(thrownMessage(f));
    }

    /** `login`. `reply` is the answer to `POST /auth/login`. */
    method Login(reply: Reply<Grant>) returns (result: AuthResult)
      modifies this, store
      ensures loading == old(loading)
      ensures reply.Ok? ==>
        result == Succeeded(reply.data.user) && user == Some(reply.data.user)
        && store.token == Some(reply.data.token) && authError == None
      ensures !reply.Ok? ==> result.Failed? && user == old(user) && store.token == old(store.token)
      ensures reply.NotOk? ==>
        result.error == TextOr(reply.message, "Login failed") && authError == None
      ensures reply.Thrown? ==>
        result.error == TextOr(reply.failure.message, "Login failed. Please try again.")
        && authError == Some(result.error)
    {
      authError := None;
      result := Settle(reply, "Login failed", (f: Failure) => TextOr(f.message, "Login failed. Please try again."));
    }

    /** `register`. `sent` is the body posted to `/auth/register` (`None`
        when the name throws first); `reply` is the answer to it. */
    method Register(userData: Obj, reply: Reply<Grant>) returns (sent: Option<Obj>, result: AuthResult)
      modifies this, store
      ensures sent == RegisterPayload(userData)
      ensures loading == old(loading)
      ensures sent.None? ==>
        result == Failed("Registration failed") && authError == Some("Registration failed")
        && user == old(user) && store.token == old(store.token)
      ensures sent.Some? && reply.Ok? ==>
        result == Succeeded(reply.data.user) && user == Some(reply.data.user)
        && store.token == Some(reply.data.token) && authError == None
      ensures sent.Some? && !reply.Ok? ==>
        result.Failed? && user == old(user) && store.token == old(store.token)
      ensures sent.Some? && reply.NotOk? ==>
        result.error == TextOr(reply.message, "Registration failed") && authError == None
      ensures sent.Some? && reply.Thrown? ==>
        result.error == TextOr(reply.failure.message, TextOr(reply.failure.error, "Registration failed"))
        && authError == Some(result.error)
    {
      sent := RegisterPayload(userData);
      result := Submit(sent.Some?, reply);
    }

    /** `register` once the body is built (`built`) or has thrown: the
        error is cleared first; a throw before the request and a rejected
        request are both recorded in the error. */
    method Submit(built: bool, reply: Reply<Grant>) returns (result: AuthResult)
      modifies this, store
      ensures loading == old(loading)
      ensures !built ==>
        result == Failed("Registration failed") && authError == Some("Registration failed")
        && user == old(user) && store.token == old(store.token)
      ensures built && reply.Ok? ==>
        result == Succeeded(reply.data.user) && user == Some(reply.data.user)
        && store.token == Some(reply.data.token) && authError == None
      ensures built && !reply.Ok? ==>
        result.Failed? && user == old(user) && store.token == old(store.token)
      ensures built && reply.NotOk? ==>
        result.error == TextOr(reply.message, "Registration failed") && authError == None
      ensures built && reply.Thrown? ==>
        result.error == TextOr(reply.failure.message, TextOr(reply.failure.error, "Registration failed"))
        && authError == Some(result.error)
    {
      authError := None;
      if !built {
        authError := Some("Registration failed");
        result := Failed("Registration failed");
      } else {
        result := Settle(reply, "Registration failed",
                         (f: Failure) => TextOr(f.message, TextOr(f.error, "Registration failed")));
      }
    }

    /** `logout`: token, user and error are all cleared. */
    method Logout()
      modifies this, store
      ensures user == None && authError == None && store.token == None
      ensures loading == old(loading)
    {
      store.RemoveToken();
      user := None;
      authError := None;
    }
  }

  /** `register` reports every failure through its result: for every input
      and every reply it returns a value, and the value is `Succeeded` only
      on an `Ok` reply to a sent request. */
  method RegisterNeverThrows(s: Session, userData: Obj, reply: Reply<Grant>) returns (ok: bool)
    modifies s, s.store
    ensures ok <==> RegisterPayload(userData).Some? && reply.Ok?
  {
    var sent, result := s.Register(userData, reply);
    ok := result.Succeeded?;
  }
}
