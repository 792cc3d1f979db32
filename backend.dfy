/** The shapes in which a backend call settles, as the pages and the session
    manager see them after the request layer has run. */
module Backend {
  import opened Wrappers

  /** A rejected call: `error.response.status` when there was one, and the
      `message` and `error` fields of `error.response.data`. */
  datatype Failure = Failure(status: Option<int>, message: Option<string>, error: Option<string>)

  /** A call whose body carries a `success` flag: `Ok` when it is true,
      `NotOk` (with the body's `message`) when it is false, `Thrown` when the
      call was rejected. */
  datatype Reply<T> = Ok(data: T) | NotOk(message: Option<string>) | Thrown(failure: Failure)

  /** A call whose body the caller does not inspect beyond its payload. */
  datatype Call<T> = Resolved(value: T) | Rejected(failure: Failure)
}

/** The browser's `localStorage`, reduced to the one key the client uses. */
module Storage {
  import opened Wrappers

  class TokenStore {
    /** `localStorage.getItem('token')`: `None` for `null`. */
    var token: Option<string>

    constructor(initial: Option<string>)
      ensures token == initial
    {
      token := initial;
    }

    /** `localStorage.setItem('token', t)`. */
    method SetToken(t: string)
      modifies this
      ensures token == Some(t)
    {
      token := Some(t);
    }

    /** `localStorage.removeItem('token')`. */
    method RemoveToken()
      modifies this
      ensures token == None
    {
      token := None;
    }
  }
}
