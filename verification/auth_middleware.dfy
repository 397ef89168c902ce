/** The server's authentication middleware: bearer-header gating (`protect`), the role gate
    (`authorize`) and the refresh-token check (`validateRefreshToken`).

    The JSON Web Token library is foreign: a `Jwt` value carries its `verify` and `sign` as
    function values, with the two secrets read from the environment. Every call the middleware
    makes to the token library, the user collection or the token collection is recorded in a
    trace of `Call`s, so that "never verifies" and "exactly one lookup" can be stated. */
module AuthMiddleware {
  import opened Common
  import Text

  /** The claims a token carries; only `id` is read. */
  datatype Claims = Claims(id: string)

  /** `jwt.verify(token, secret)` yields the decoded claims or throws (None); `jwt.sign` never fails. */
  datatype Jwt = Jwt(
    verify: (string, string) -> Option<Claims>,
    sign: (Claims, string) -> string,
    accessSecret: string,    // process.env.JWT_SECRET
    refreshSecret: string)   // process.env.JWT_REFRESH_SECRET

  /** An external call made by the middleware, in the order it is made. */
  datatype Call =
    | VerifyCall(token: Option<string>, secret: string)
    | FindUserCall(id: string)
    | FindRefreshTokenCall(refreshToken: string)
    | SignCall(claims: Claims, secret: string)

  /** How the middleware ends: `next()`, `next(err)`, or an exception that escapes the async
      handler (no `next` call at all). */
  datatype Next = Proceed | Reject(err: ErrorResponse) | Escaped

  const NOT_AUTHORIZED: ErrorResponse := ErrorResponse("Not authorized to access this route", 401)
  const TOKEN_NOT_VALID: ErrorResponse := ErrorResponse("Not authorized to access this route, token not valid", 401)
  const NO_REFRESH_TOKEN: ErrorResponse := ErrorResponse("No Refresh token", 401)
  const REFRESH_TOKEN_INVALID: ErrorResponse := ErrorResponse("Refresh token invalid asdad", 401)

  /** `jwt.verify` on `undefined` throws, like any failed verification. */
  function Verify(jwt: Jwt, token: Option<string>, secret: string): Option<Claims>
  {
    if token.None? then None else jwt.verify(token.value, secret)
  }

  /** The header is present, non-empty, and starts with `Bearer`. */
  predicate HasBearer(authorization: Option<string>)
    ensures HasBearer(authorization) <==>
      authorization.Some? && Text.StartsWith(authorization.value, "Bearer")
  {
    Truthy(authorization) && Text.StartsWith(authorization.value, "Bearer")
  }

  /** `authorization.split(' ')[1]`, undefined when the header has no space. */
  function BearerToken(authorization: string): (token: Option<string>)
    ensures token.Some? <==> ' ' in authorization
    ensures token.Some? ==> ' ' !in token.value
  {
    var parts := Text.Split(authorization, ' ');
    Text.SplitCountsSeparators(authorization, ' ');
    if |parts| >= 2 then Some(parts[1]) else None
  }

  /** The token is the text between the first and the second space. */
  lemma BearerTokenIsSecondSegment(scheme: string, token: string, rest: string)
    requires ' ' !in scheme && ' ' !in token
    requires rest == [] || rest[0] == ' '
    ensures BearerToken(scheme + " " + token + rest) == Some(token)
  {
    Text.SplitSecondPart(scheme, token, rest, ' ');
  }

  /** A header without a space carries no token. */
  lemma BearerTokenNeedsSpace(authorization: string)
    requires ' ' !in authorization
    ensures BearerToken(authorization) == None
  {
    Text.SplitNoSeparator(authorization, ' ');
  }

  /** `protect`: gate on the header, verify the token, then load `req.user` and call `next()`. */
  method Protect(req: Request, jwt: Jwt, users: map<string, UserRecord>) returns (next: Next, calls: seq<Call>)
    modifies req`user
    ensures !HasBearer(req.authorization) ==>
      next == Reject(NOT_AUTHORIZED) && calls == [] && req.user == old(req.user)
    ensures HasBearer(req.authorization) ==>
      var token := BearerToken(req.authorization.value);
      var decoded := Verify(jwt, token, jwt.accessSecret);
      && (decoded.None? ==>
            next == Reject(TOKEN_NOT_VALID) && calls == [VerifyCall(token, jwt.accessSecret)]
            && req.user == old(req.user))
      && (decoded.Some? ==>
            next == Proceed
            && calls == [VerifyCall(token, jwt.accessSecret), FindUserCall(decoded.value.id)]
            && req.user == (if decoded.value.id in users then Some(users[decoded.value.id]) else None))
    ensures next == Proceed <==>
      HasBearer(req.authorization) && Verify(jwt, BearerToken(req.authorization.value), jwt.accessSecret).Some?
  {
    var authorization := req.authorization;
    calls := [];
    if !HasBearer(authorization) {
      return Reject(NOT_AUTHORIZED), calls;
    }
    var token := BearerToken(authorization.value);
    calls := calls + [VerifyCall(token, jwt.accessSecret)];
    var decoded := Verify(jwt, token, jwt.accessSecret);
    if decoded.None? {
      return Reject(TOKEN_NOT_VALID), calls;
    }
    var id := decoded.value.id;
    calls := calls + [FindUserCall(id)];
    req.user := if id in users then Some(users[id]) else None;
    next := Proceed;
  }

  /** `authorize(roles)` applied to `req.user`; a null user makes `req.user.role` throw inside
      the async handler. */
  function Authorize(roles: seq<string>, user: Option<UserRecord>): (next: Next)
    ensures user.None? ==> next == Escaped
    ensures user.Some? ==> (next == Proceed <==> user.value.role in roles)
    ensures user.Some? && next != Proceed ==> next == Reject(NOT_AUTHORIZED)
  {
    match user
    case None => Escaped
    case Some(u) => if u.role !in roles then Reject(NOT_AUTHORIZED) else Proceed
  }

  /** Allowing more roles never turns a permitted user away. */
  lemma AuthorizeMonotone(roles: seq<string>, wider: seq<string>, user: UserRecord)
    requires forall r :: r in roles ==> r in wider
    ensures Authorize(roles, Some(user)) == Proceed ==> Authorize(wider, Some(user)) == Proceed
  {
  }

  lemma AuthorizeStaffRoute(id: string, name: string)
    ensures Authorize(["admin", "project manager"], Some(UserRecord(id, name, "developer"))) == Reject(NOT_AUTHORIZED)
    ensures Authorize(["admin", "project manager"], Some(UserRecord(id, name, "admin"))) == Proceed
  {
  }

  /** `validateRefreshToken` as written. Line 52 assigns through `req`, which is not a parameter
      of the function: the assignment throws, and the catch turns every success into the
      "invalid" rejection. The store maps a refresh token to the id of its owner. */
  method ValidateRefreshTokenAsWritten(refreshToken: string, store: map<string, string>, jwt: Jwt)
    returns (next: Next, calls: seq<Call>)
    ensures refreshToken !in store ==>
      next == Reject(NO_REFRESH_TOKEN) && calls == [FindRefreshTokenCall(refreshToken)]
    ensures refreshToken in store ==>
      var decoded := jwt.verify(refreshToken, jwt.refreshSecret);
      && next == Reject(REFRESH_TOKEN_INVALID)
      && calls == [FindRefreshTokenCall(refreshToken), VerifyCall(Some(refreshToken), jwt.refreshSecret)]
                  + (if decoded.Some? then [SignCall(Claims(decoded.value.id), jwt.accessSecret)] else [])
    ensures next != Proceed
  {
    calls := [FindRefreshTokenCall(refreshToken)];
    if refreshToken !in store {
      return Reject(NO_REFRESH_TOKEN), calls;
    }
    calls := calls + [VerifyCall(Some(refreshToken), jwt.refreshSecret)];
    var decoded := jwt.verify(refreshToken, jwt.refreshSecret);
    if decoded.None? {
      return Reject(REFRESH_TOKEN_INVALID), calls;
    }
    var payload := Claims(decoded.value.id);
    calls := calls + [SignCall(payload, jwt.accessSecret)];
    var accessToken := jwt.sign(payload, jwt.accessSecret);
    // `req.user.accessToken = accessToken` raises a ReferenceError here, caught below.
    next := Reject(REFRESH_TOKEN_INVALID);
  }

  /** `validateRefreshToken` as intended: a stored token that verifies against the refresh
      secret yields a new access token carrying only the decoded id, and `next()`. */
  method ValidateRefreshToken(refreshToken: string, store: map<string, string>, jwt: Jwt)
    returns (next: Next, accessToken: Option<string>, calls: seq<Call>)
    ensures refreshToken !in store ==>
      next == Reject(NO_REFRESH_TOKEN) && accessToken == None && calls == [FindRefreshTokenCall(refreshToken)]
    ensures refreshToken in store ==>
      var decoded := jwt.verify(refreshToken, jwt.refreshSecret);
      && (decoded.None? ==>
            next == Reject(REFRESH_TOKEN_INVALID) && accessToken == None
            && calls == [FindRefreshTokenCall(refreshToken), VerifyCall(Some(refreshToken), jwt.refreshSecret)])
      && (decoded.Some? ==>
            next == Proceed && accessToken == Some(jwt.sign(Claims(decoded.value.id), jwt.accessSecret))
            && calls == [FindRefreshTokenCall(refreshToken), VerifyCall(Some(refreshToken), jwt.refreshSecret),
                         SignCall(Claims(decoded.value.id), jwt.accessSecret)])
    ensures next == Proceed <==> refreshToken in store && jwt.verify(refreshToken, jwt.refreshSecret).Some?
    ensures next == Proceed <==> accessToken.Some?
  {
    calls := [FindRefreshTokenCall(refreshToken)];
    accessToken := None;
    if refreshToken !in store {
      return Reject(NO_REFRESH_TOKEN), accessToken, calls;
    }
    calls := calls + [VerifyCall(Some(refreshToken), jwt.refreshSecret)];
    var decoded := jwt.verify(refreshToken, jwt.refreshSecret);
    if decoded.None? {
      return Reject(REFRESH_TOKEN_INVALID), accessToken, calls;
    }
    var payload := Claims(decoded.value.id);
    calls := calls + [SignCall(payload, jwt.accessSecret)];
    accessToken := Some(jwt.sign(payload, jwt.accessSecret));
    next := Proceed;
  }

  /** What the token library promises: a signed token verifies, under the same secret, to the
      claims it was signed with, and contains no space (tokens are base64url segments and dots). */
  ghost predicate SignedTokensVerify(jwt: Jwt)
  {
    && (forall c, k :: jwt.verify(jwt.sign(c, k), k) == Some(c))
    && (forall c, k :: ' ' !in jwt.sign(c, k))
  }

  /** An access token signed for user `id` and presented as `Bearer <token>` passes `protect`'s
      header check and verifies to `id`; this is the token the refresh flow mints. */
  lemma SignedTokenPassesProtect(jwt: Jwt, id: string)
    requires SignedTokensVerify(jwt)
    ensures var header := "Bearer " + jwt.sign(Claims(id), jwt.accessSecret);
            && HasBearer(Some(header))
            && BearerToken(header) == Some(jwt.sign(Claims(id), jwt.accessSecret))
            && Verify(jwt, BearerToken(header), jwt.accessSecret) == Some(Claims(id))
  {
    var t := jwt.sign(Claims(id), jwt.accessSecret);
    assert "Bearer " + t == "Bearer" + " " + t + [];
    BearerTokenIsSecondSegment("Bearer", t, []);
    assert ("Bearer " + t)[..6] == "Bearer";
  }
}
