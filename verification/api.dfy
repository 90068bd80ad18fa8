/** The session store and the abstract shape of a call to the backend.

    The stored session is the one token the app keeps in its private
    preferences; reading, writing and deleting it are pure functions on
    `Option<string>` here. A call to the backend is not performed: every
    operation receives, as a parameter, the outcome the call would have. */
module Api {
  import opened Outcomes
  import opened Text

  // ---------------------------------------------------------------------
  // Session store (SessionManager)
  // ---------------------------------------------------------------------

  /** The stored authentication token, if any. */
  type Session = Option<string>

  /** `SessionManager.saveToken`: the token replaces whatever was stored. */
  function SaveToken(session: Session, token: string): (s: Session)
    ensures GetToken(s) == Some(token)
  {
    Some(token)
  }

  /** `SessionManager.getToken`. */
  function GetToken(session: Session): Option<string>
  {
    session
  }

  /** `SessionManager.clearToken`: removes the token. */
  function ClearToken(session: Session): (s: Session)
    ensures GetToken(s).None?
  {
    None
  }

  /** Reading right after a save returns the saved token; reading after a
      clear returns nothing; clearing twice is the same as clearing once;
      a second save wins over the first. */
  lemma SessionLaws(session: Session, t: string, u: string)
    ensures GetToken(SaveToken(session, t)) == Some(t)
    ensures GetToken(ClearToken(session)) == None
    ensures ClearToken(ClearToken(session)) == ClearToken(session)
    ensures GetToken(SaveToken(SaveToken(session, t), u)) == Some(u)
  {
  }

  /** The value of the `Authorization` header for a stored token. */
  function Bearer(token: string): (h: string)
    ensures |h| == 7 + |token|
    ensures h[..7] == "Bearer " && h[7..] == token
  {
    "Bearer " + token
  }

  // ---------------------------------------------------------------------
  // Call outcomes
  // ---------------------------------------------------------------------

  /** The outcome of an endpoint that returns its body directly: either the
      decoded body, or an exception (transport failure, HTTP error status,
      or a body that does not decode) with its possibly-null message. */
  datatype Call<B> = Threw(message: Option<string>) | Returned(body: B)

  /** The outcome of an endpoint that returns the whole HTTP response:
      either an exception with its possibly-null message, or a status code
      with the decoded body (null when absent or not 2xx) and the raw error
      body. */
  datatype HttpCall<B> =
    | Failed(message: Option<string>)
    | Responded(code: nat, body: Option<B>, errorBody: Option<string>)

  /** `Response.isSuccessful`: a 2xx status. */
  predicate IsSuccessful(code: nat)
  {
    200 <= code < 300
  }

  /** The response carries a usable body: `isSuccessful && body() != null`. */
  predicate HasBody<B>(call: HttpCall<B>)
  {
    call.Responded? && IsSuccessful(call.code) && call.body.Some?
  }

  /** What an authenticated operation did: the result it returned, and the
      `Authorization` header it sent, which is `None` exactly when it did
      not call the backend. */
  datatype Exchange<T> = Exchange(result: Result<T>, authorization: Option<string>)

  /** The guard every authenticated operation starts with: without a token
      the operation returns `Error(noToken)` and calls nothing; with a
      token it calls the backend with exactly `"Bearer " + token`. */
  predicate Guarded<T>(session: Session, x: Exchange<T>, noToken: string)
  {
    && (session.None? ==> x == Exchange(Error(noToken), None))
    && (session.Some? ==> x.authorization == Some(Bearer(session.value)))
  }
}
