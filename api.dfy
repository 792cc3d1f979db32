/** The shared request layer: the request interceptor that attaches the
    stored token as a bearer credential (section 2.1 of RFC 6750), and the
    response-error interceptor that normalises failures and, on a 401
    (section 15.5.2 of RFC 9110) caused by the token, drops the token and
    schedules one redirect to the login page. */
module Api {
  import opened Wrappers
  import opened JsText
  import opened JsValue
  import opened Backend
  import opened Storage

  /** Request headers, by name. */
  type Headers = map<string, string>

  const BearerPrefix: string := "Bearer "

  /** The request interceptor: with a stored (non-empty) token the
      `Authorization` header becomes "Bearer <token>"; otherwise the headers
      are left as they are. */
  function Authorize(headers: Headers, stored: Option<string>): (h: Headers)
    ensures Present(stored) ==> h.Keys == headers.Keys + {"Authorization"}
    ensures Present(stored) ==> forall k :: k in headers && k != "Authorization" ==> h[k] == headers[k]
    ensures !Present(stored) ==> h == headers
  {
    if Present(stored) then headers["Authorization" := BearerPrefix + stored.value] else headers
  }

  /** Reading a bearer credential back out of the headers. */
  function BearerToken(headers: Headers): (t: Option<string>)
    ensures t.Some? ==> "Authorization" in headers && headers["Authorization"] == BearerPrefix + t.value
  {
    if "Authorization" in headers && |headers["Authorization"]| >= |BearerPrefix|
       && headers["Authorization"][..|BearerPrefix|] == BearerPrefix
    then
      var v := headers["Authorization"];
      assert v == v[..|BearerPrefix|] + v[|BearerPrefix|..];
      Some(v[|BearerPrefix|..])
    else None
  }

  /** The credential the interceptor attaches is exactly the stored token;
      with no stored token, whatever the caller had is kept. */
  lemma AuthorizeCarriesToken(headers: Headers, stored: Option<string>)
    ensures Present(stored) ==> BearerToken(Authorize(headers, stored)) == Some(stored.value)
    ensures !Present(stored) ==> BearerToken(Authorize(headers, stored)) == BearerToken(headers)
  {
    if Present(stored) {
      var v := BearerPrefix + stored.value;
      assert v[..|BearerPrefix|] == BearerPrefix;
      assert v[|BearerPrefix|..] == stored.value;
    }
  }

  /** How a request failed, before the interceptor: no response at all, or
      a response with a status and the body's `message` and `error`. */
  datatype HttpError = NoResponse | Response(status: int, message: Option<string>, error: Option<string>)

  const NetworkMessage: string := "Network error. Please check your connection."
  const RateLimitMessage: string := "Too many requests. Please wait a moment and try again."
  const ServerMessage: string := "Server error. Please try again later."

  /** The rejected value as a failure the callers read. */
  function Original(err: HttpError): (f: Failure)
  {
    match err
    case NoResponse => Failure(None, None, None)
    case Response(status, message, error) => Failure(Some(status), message, error)
  }

  /** What the response-error interceptor rejects with: a fixed network
      message with no status; for 429 (section 4 of RFC 6585) a fixed
      message with status 429; for 500 and above the status with a fixed
      message in place of the backend's; anything else (401, 403, other 4xx)
      unchanged. */
  function Normalize(err: HttpError): (f: Failure)
    ensures err.NoResponse? ==> f == Failure(None, Some(NetworkMessage), None)
    ensures err.Response? && err.status == 429 ==> f == Failure(Some(429), Some(RateLimitMessage), None)
    ensures err.Response? && err.status >= 500 ==> f == Failure(Some(err.status), Some(ServerMessage), None)
    ensures err.Response? && err.status != 429 && err.status < 500 ==> f == Original(err)
    ensures err.Response? ==> f.status == Some(err.status)
  {
    match err
    case NoResponse => Failure(None, Some(NetworkMessage), None)
    case Response(status, _, _) =>
      if status == 429 then Failure(Some(429), Some(RateLimitMessage), None)
      else if status >= 500 then Failure(Some(status), Some(ServerMessage), None)
      else Original(err)
  }

  /** Every normalised failure carries a message, except a 4xx passed
      through without one; the status survives except for a missing response. */
  lemma NormalizeKeepsStatus(err: HttpError)
    ensures Normalize(err).status.None? <==> err.NoResponse?
    ensures (err.NoResponse? || err.status == 429 || err.status >= 500) ==> Normalize(err).message.Some?
  {
  }

  /** The login and register pages, where a 401 is an expected answer. */
  predicate IsAuthPage(path: string) {
    path == "/login" || path == "/register"
  }

  /** A 401 blames the token when the lower-cased message mentions 'token',
      'authorized' or 'not found'; no message blames nothing. */
  predicate IsTokenError(message: Option<string>): (b: bool)
    ensures b ==> message.Some? && |message.value| >= 5
  {
    message.Some? &&
    (Contains(ToLower(message.value), "token")
     || Contains(ToLower(message.value), "authorized")
     || Contains(ToLower(message.value), "not found"))
  }

  /** The message test ignores letter case. */
  lemma TokenErrorIgnoresCase(m: string)
    ensures IsTokenError(Some(ToUpper(m))) == IsTokenError(Some(m))
  {
    LowerForgetsCase(m);
  }

  /** "Invalid token" blames the token. */
  lemma InvalidTokenIsTokenError()
    ensures IsTokenError(Some("Invalid token"))
  {
    var a := ToLower("Invalid token");
    assert a[8..13] == "token";
    assert OccursAt(a, "token", 8);
  }

  /** "Not authorized" blames the token. */
  lemma NotAuthorizedIsTokenError()
    ensures IsTokenError(Some("Not authorized"))
  {
    var b := ToLower("Not authorized");
    assert b[4..14] == "authorized";
    assert OccursAt(b, "authorized", 4);
  }

  /** The module-level state of the request layer. */
  class RequestLayer {
    /** `isRedirecting`: a redirect to the login page is scheduled. */
    var isRedirecting: bool
    /** `localStorage`, shared with the session manager. */
    const store: TokenStore

    constructor(store: TokenStore)
      ensures !isRedirecting && this.store == store
    {
      isRedirecting := false;
      this.store := store;
    }

    /** Whether a failure on page `path` drops the token and schedules the
        redirect. */
    predicate Drops(err: HttpError, path: string)
      reads this
    {
      err.Response? && err.status == 401 && !isRedirecting && !IsAuthPage(path)
      && IsTokenError(err.message)
    }

    /** The request interceptor applied to an outgoing request. */
    function Outgoing(headers: Headers): (h: Headers)
      reads this, store
      ensures BearerToken(h) == (if Present(store.token) then Some(store.token.value) else BearerToken(headers))
    {
      AuthorizeCarriesToken(headers, store.token);
      Authorize(headers, store.token)
    }

    /** The response-error interceptor for a failure seen on page `path`:
        it rejects with `Normalize(err)`; a 401 that blames the token, on a
        page other than login or register, while no redirect is scheduled,
        removes the token and schedules the redirect; every other failure
        leaves storage and the flag alone. */
    method OnError(err: HttpError, path: string) returns (rejected: Failure)
      modifies this, store
      ensures rejected == Normalize(err)
      ensures old(Drops(err, path)) ==> isRedirecting && store.token == None
      ensures !old(Drops(err, path)) ==>
        isRedirecting == old(isRedirecting) && store.token == old(store.token)
    {
      if err.NoResponse? {
        return Failure(None, Some(NetworkMessage), None);
      }
      if err.status == 401 {
        if !isRedirecting && !IsAuthPage(path) {
          if IsTokenError(err.message) {
            isRedirecting := true;
            store.RemoveToken();
          }
        }
      }
      if err.status == 429 {
        return Failure(Some(429), Some(RateLimitMessage), None);
      }
      if err.status >= 500 {
        return Failure(Some(err.status), Some(ServerMessage), None);
      }
      rejected := Original(err);
    }

    /** The scheduled redirect runs: the browser goes to the login page and
        the flag is reset. */
    method RedirectFires() returns (location: string)
      requires isRedirecting
      modifies this
      ensures !isRedirecting && location == "/login"
    {
      location := "/login";
      isRedirecting := false;
    }
  }

  /** A burst of token 401s drops the token once: after the first, the flag
      blocks the rest until the redirect runs, so a token stored again in
      between (a login in another tab) survives. */
  method TwoUnauthorized(layer: RequestLayer, message: string, path: string, relogin: string)
    returns (first: Failure, tokenBetween: Option<string>, second: Failure)
    requires !layer.isRedirecting && !IsAuthPage(path) && IsTokenError(Some(message))
    modifies layer, layer.store
    ensures first == second == Failure(Some(401), Some(message), None)
    ensures tokenBetween == None
    ensures layer.isRedirecting && layer.store.token == Some(relogin)
  {
    var err := Response(401, Some(message), None);
    first := layer.OnError(err, path);
    tokenBetween := layer.store.token;
    layer.store.SetToken(relogin);
    second := layer.OnError(err, path);
  }
}
