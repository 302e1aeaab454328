/**
 * The token gate in front of every protected route
 * (server/middleware/authMiddleware.js): it reads the `x-auth-token`
 * header, verifies it, and either answers the request itself or passes the
 * decoded identity on to the route handler by calling `next` once.
 */
module AuthMiddleware {
  import opened Text
  import opened Jwt

  const NoTokenMsg := "No token, authorization denied"
  const ExpiredMsg := "Token is expired, authorization denied"
  const NotValidMsg := "Token is not valid, authorization denied"
  const VerifyServerErrorMsg := "Server Error during token verification"

  /** Either the middleware's own response, or `req.user` set and `next()` called. */
  datatype Decision = Reject(status: nat, msg: string) | Next(user: Claims)

  /**
   * The middleware, given the header value (None when the header is absent)
   * and what `jwt.verify` makes of it.
   */
  function Authenticate(header: Option<string>, verdict: Verdict): (d: Decision)
    ensures d.Next? <==> Given(header) && verdict.Verified?
    ensures d.Next? ==> d.user == verdict.user
    ensures !Given(header) ==> d == Reject(401, NoTokenMsg)
    ensures Given(header) && verdict.TokenExpiredError? ==> d == Reject(401, ExpiredMsg)
    ensures Given(header) && verdict.JsonWebTokenError? ==> d == Reject(401, NotValidMsg)
    ensures d.Reject? ==> (d.status == 500 <==> verdict.OtherError? && Given(header))
  {
    if !Given(header) then Reject(401, NoTokenMsg)
    else match verdict
      case Verified(user) => Next(user)
      case TokenExpiredError => Reject(401, ExpiredMsg)
      case JsonWebTokenError => Reject(401, NotValidMsg)
      case OtherError => Reject(500, VerifyServerErrorMsg)
  }

  /**
   * A token the server signed, presented within its lifetime, lets the
   * request through with exactly the identity it was signed for; from five
   * hours on it is refused as expired.
   */
  lemma IssuedTokenAdmitted(user: Claims, header: string, signedMs: nat, nowMs: nat)
    requires header != ""
    ensures nowMs < signedMs + 17999000 ==> Authenticate(Some(header), Verify(Sign(user, signedMs), nowMs)) == Next(user)
    ensures nowMs >= signedMs + 18000000 ==> Authenticate(Some(header), Verify(Sign(user, signedMs), nowMs)) == Reject(401, ExpiredMsg)
  {
    FiveHourLifetime(user, signedMs, nowMs);
  }
}
