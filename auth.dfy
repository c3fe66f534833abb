/**
 * Request guards: the Firebase token decorator and token helper of
 * backend/app/helpers.py, and the session decorator of helpers.py. Token
 * verification belongs to the identity provider and is a parameter here.
 */
module Auth {
  import opened Wrappers

  const BearerPrefix: string := "Bearer "

  /** What the identity provider's `auth.verify_id_token` reports for a token. */
  datatype Verification =
    | Verified(uid: string, email: Option<string>, name: Option<string>, picture: Option<string>)
    | InvalidIdToken
    | ExpiredIdToken
    | OtherVerificationError

  /** `token[7:]` when `token.startswith('Bearer ')`, the token itself otherwise. */
  function StripBearer(token: string): (r: string)
    ensures |r| <= |token|
    ensures BearerPrefix <= token ==> BearerPrefix + r == token
    ensures !(BearerPrefix <= token) ==> r == token
  {
    if BearerPrefix <= token then token[|BearerPrefix|..] else token
  }

  /** The prefix is removed once, whatever follows it. */
  lemma StripBearerOnce(t: string)
    ensures StripBearer(BearerPrefix + t) == t
  {
    assert BearerPrefix <= BearerPrefix + t;
  }

  /** A token sent without the prefix reaches the provider unchanged. */
  lemma StripBearerBare(t: string)
    requires |t| < |BearerPrefix| || t[..|BearerPrefix|] != BearerPrefix
    ensures StripBearer(t) == t
  {
  }

  /** What the wrapped route returns, or the 401 answer given in its place. */
  datatype Guarded<R> = Unauthorized(message: string) | Forwarded(response: R)

  const MissingTokenMessage: string := "Token is missing. Please login again."
  const InvalidTokenMessage: string := "Invalid token. Please login again."
  const ExpiredTokenMessage: string := "Token expired. Please login again."
  const FailedVerificationMessage: string := "Token verification failed. Please login again."

  /**
   * Whether `except auth.InvalidIdTokenError` catches what the provider
   * raised: the identity provider's `ExpiredIdTokenError` is a subclass of
   * `InvalidIdTokenError`, so an expired token is caught there too.
   */
  predicate CaughtAsInvalid(v: Verification) {
    v.InvalidIdToken? || v.ExpiredIdToken?
  }

  /**
   * The `except` clauses of the decorator in their written order: invalid,
   * then expired, then any other error. The second clause can never be
   * reached (see Findings).
   */
  function FailureMessage(v: Verification): (m: string)
    requires !v.Verified?
    ensures CaughtAsInvalid(v) ==> m == InvalidTokenMessage
    ensures v.OtherVerificationError? ==> m == FailedVerificationMessage
    ensures m != ExpiredTokenMessage
  {
    if CaughtAsInvalid(v) then InvalidTokenMessage
    else if v.ExpiredIdToken? then ExpiredTokenMessage
    else FailedVerificationMessage
  }

  /** The `except` clauses in the evidently intended order, the subclass first. */
  function IntendedFailureMessage(v: Verification): (m: string)
    requires !v.Verified?
    ensures v.InvalidIdToken? ==> m == InvalidTokenMessage
    ensures v.ExpiredIdToken? ==> m == ExpiredTokenMessage
    ensures v.OtherVerificationError? ==> m == FailedVerificationMessage
  {
    if v.ExpiredIdToken? then ExpiredTokenMessage
    else if CaughtAsInvalid(v) then InvalidTokenMessage
    else FailedVerificationMessage
  }

  /**
   * `firebase_token_required`: a missing or empty Authorization header is
   * refused before anything else; otherwise the header, with a leading
   * "Bearer " removed, is verified and the route runs with the token's uid
   * and email; a failed verification is answered by the first matching
   * `except` clause.
   */
  function FirebaseTokenRequired<R>(
    header: Option<string>,
    verify: string -> Verification,
    route: (string, Option<string>) -> R): (r: Guarded<R>)
    ensures (header == None || header == Some("")) ==> r == Unauthorized(MissingTokenMessage)
    ensures r.Forwarded? <==> header.Some? && header.value != "" && verify(StripBearer(header.value)).Verified?
    ensures r.Forwarded? ==>
      var v := verify(StripBearer(header.value));
      r.response == route(v.uid, v.email)
    ensures header.Some? && header.value != "" && CaughtAsInvalid(verify(StripBearer(header.value))) ==>
      r == Unauthorized(InvalidTokenMessage)
    ensures header.Some? && header.value != "" && verify(StripBearer(header.value)).OtherVerificationError? ==>
      r == Unauthorized(FailedVerificationMessage)
  {
    if header.None? || header.value == "" then Unauthorized(MissingTokenMessage)
    else
      var v := verify(StripBearer(header.value));
      if v.Verified? then Forwarded(route(v.uid, v.email)) else Unauthorized(FailureMessage(v))
  }

  /** As written, no request is ever answered "Token expired. Please login again.". */
  lemma ExpiredMessageUnreachable<R>(header: Option<string>, verify: string -> Verification, route: (string, Option<string>) -> R)
    ensures FirebaseTokenRequired(header, verify, route) != Unauthorized(ExpiredTokenMessage)
  {
    if header.Some? && header.value != "" && !verify(StripBearer(header.value)).Verified? {
      var m := FailureMessage(verify(StripBearer(header.value)));
      assert m != ExpiredTokenMessage;
    }
  }

  /** The decorator with the `except` clauses in the intended order. */
  function FirebaseTokenRequiredIntended<R>(
    header: Option<string>,
    verify: string -> Verification,
    route: (string, Option<string>) -> R): (r: Guarded<R>)
    ensures header.Some? && header.value != "" && verify(StripBearer(header.value)).ExpiredIdToken? ==>
      r == Unauthorized(ExpiredTokenMessage)
    ensures header.Some? && header.value != "" && verify(StripBearer(header.value)).InvalidIdToken? ==>
      r == Unauthorized(InvalidTokenMessage)
    ensures !(header.Some? && header.value != "" && verify(StripBearer(header.value)).ExpiredIdToken?) ==>
      r == FirebaseTokenRequired(header, verify, route)
  {
    if header.None? || header.value == "" then Unauthorized(MissingTokenMessage)
    else
      var v := verify(StripBearer(header.value));
      if v.Verified? then Forwarded(route(v.uid, v.email)) else Unauthorized(IntendedFailureMessage(v))
  }

  datatype TokenUser = TokenUser(uid: string, email: Option<string>, name: Option<string>, picture: Option<string>)

  /** `get_user_from_token`: the verified claims, or `None` on any failure. */
  function UserFromToken(token: string, verify: string -> Verification): (r: Option<TokenUser>)
    ensures r.Some? <==> verify(StripBearer(token)).Verified?
    ensures r.Some? ==>
      var v := verify(StripBearer(token));
      r.value == TokenUser(v.uid, v.email, v.name, v.picture)
  {
    match verify(StripBearer(token))
    case Verified(uid, email, name, picture) => Some(TokenUser(uid, email, name, picture))
    case _ => None
  }

  datatype SessionGuarded<R> = RedirectTo(location: string) | Called(response: R)

  /**
   * `login_required` of helpers.py: without a `user_id` in the session the
   * request is redirected to /login; otherwise the route runs as called.
   */
  function LoginRequired<R>(sessionUserId: Option<int>, route: () -> R): (r: SessionGuarded<R>)
    ensures sessionUserId.None? <==> r == RedirectTo("/login")
    ensures sessionUserId.Some? ==> r == Called(route())
  {
    if sessionUserId.None? then RedirectTo("/login") else Called(route())
  }
}
