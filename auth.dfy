/**
 * Session-token extraction and verification (`src/lib/auth.ts`). The JWT
 * check itself is a parameter: a function that either yields the token's
 * claims or rejects it.
 */
module Auth {
  import opened Domain

  /** What `jwtVerify` does with a token: it yields the claims or it throws. */
  datatype JwtOutcome = Verified(payload: JwtPayload) | Rejected(reason: string)

  /** The parts of an incoming request that authentication reads. */
  datatype Request = Request(cookieToken: Option<string>, authorization: Option<string>)

  const BearerPrefix: string := "Bearer "

  predicate StartsWith(s: string, prefix: string) {
    |prefix| <= |s| && s[..|prefix|] == prefix
  }

  /** `verifyToken`: the claims of a good token, `null` for any failure (it never throws). */
  function VerifyToken(token: string, jwtVerify: string -> JwtOutcome): (r: Option<JwtPayload>)
    ensures r.None? <==> jwtVerify(token).Rejected?
    ensures r.Some? ==> r.value == jwtVerify(token).payload
  {
    match jwtVerify(token)
    case Verified(payload) => Some(payload)
    case Rejected(_) => None
  }

  /**
   * `getTokenFromRequest`: a non-empty `token` cookie wins; otherwise an
   * Authorization header that starts with the case-sensitive "Bearer " gives
   * the rest of the header; otherwise there is no token.
   */
  function GetTokenFromRequest(req: Request): (r: Option<string>)
    ensures Truthy(req.cookieToken) ==> r == req.cookieToken
    ensures !Truthy(req.cookieToken) && r.Some? ==>
      Truthy(req.authorization) && StartsWith(req.authorization.value, BearerPrefix)
      && req.authorization.value == BearerPrefix + r.value
    ensures !Truthy(req.cookieToken) && req.authorization.Some? && StartsWith(req.authorization.value, BearerPrefix) ==> r.Some?
  {
    if Truthy(req.cookieToken) then req.cookieToken
    else if Truthy(req.authorization) && StartsWith(req.authorization.value, BearerPrefix)
    then Some(req.authorization.value[|BearerPrefix|..])
    else None
  }

  /** With no cookie, a header "Bearer " + t yields exactly t. */
  lemma BearerHeaderYieldsToken(cookieToken: Option<string>, t: string)
    requires !Truthy(cookieToken)
    ensures GetTokenFromRequest(Request(cookieToken, Some(BearerPrefix + t))) == Some(t)
  {
    var h := BearerPrefix + t;
    assert h[..|BearerPrefix|] == BearerPrefix;
    assert h[|BearerPrefix|..] == t;
  }

  /** The prefix test is case-sensitive: "bearer " is not accepted. */
  lemma LowercaseBearerRejected(t: string)
    ensures GetTokenFromRequest(Request(None, Some("bearer " + t))) == None
  {
    var h := "bearer " + t;
    assert h[0] == 'b' != BearerPrefix[0];
  }

  /** `authenticateRequest`: no (or an empty) token gives null without verifying; otherwise `verifyToken`. */
  function AuthenticateRequest(req: Request, jwtVerify: string -> JwtOutcome): (r: Option<JwtPayload>)
    ensures !Truthy(GetTokenFromRequest(req)) ==> r.None?
    ensures Truthy(GetTokenFromRequest(req)) ==> r == VerifyToken(GetTokenFromRequest(req).value, jwtVerify)
  {
    var token := GetTokenFromRequest(req);
    if !Truthy(token) then None else VerifyToken(token.value, jwtVerify)
  }

  /** Without a token the verifier is never consulted: any two verifiers give the same answer. */
  lemma NoTokenSkipsVerification(req: Request, j1: string -> JwtOutcome, j2: string -> JwtOutcome)
    requires !Truthy(GetTokenFromRequest(req))
    ensures AuthenticateRequest(req, j1) == AuthenticateRequest(req, j2) == None
  {
  }

  /** "Bearer " alone yields an empty token, which then fails authentication. */
  lemma BareBearerNotAuthenticated(jwtVerify: string -> JwtOutcome)
    ensures AuthenticateRequest(Request(None, Some(BearerPrefix)), jwtVerify) == None
  {
    BearerHeaderYieldsToken(None, "");
    assert BearerPrefix + "" == BearerPrefix;
  }
}
