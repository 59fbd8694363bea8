/**
 * The admin gate run before every request (`src/middleware.ts`).
 */
module Middleware {
  import opened Domain
  import opened Auth

  datatype Decision = Next | Redirect(location: string)

  const AdminPrefix: string := "/admin"
  const LoginPath: string := "/auth/login"

  /**
   * Paths under "/admin" pass only with a `token` cookie that verifies to
   * claims with `isAdmin`; every other such request is sent to the login page.
   * The source's `catch` around `verifyToken` is unreachable, since
   * `verifyToken` turns every failure into null.
   */
  function Gate(pathname: string, cookieToken: Option<string>, jwtVerify: string -> JwtOutcome): (d: Decision)
    ensures !StartsWith(pathname, AdminPrefix) ==> d == Next
    ensures StartsWith(pathname, AdminPrefix) && !Truthy(cookieToken) ==> d == Redirect(LoginPath)
    ensures d.Redirect? ==> d.location == LoginPath
    ensures d == Next <==>
      !StartsWith(pathname, AdminPrefix)
      || (Truthy(cookieToken) && jwtVerify(cookieToken.value).Verified?
          && jwtVerify(cookieToken.value).payload.isAdmin)
  {
    if StartsWith(pathname, AdminPrefix) then
      if !Truthy(cookieToken) then Redirect(LoginPath)
      else
        var payload := VerifyToken(cookieToken.value, jwtVerify);
        if payload.None? || !payload.value.isAdmin then Redirect(LoginPath) else Next
    else Next
  }

  /** An /admin path with an absent or empty `token` cookie is redirected, whatever the verifier would say. */
  lemma AdminNeedsCookie(pathname: string, jwtVerify: string -> JwtOutcome)
    requires StartsWith(pathname, AdminPrefix)
    ensures Gate(pathname, None, jwtVerify) == Redirect(LoginPath)
    ensures Gate(pathname, Some(""), jwtVerify) == Redirect(LoginPath)
  {
  }
}
