/**
 * The JSON Web Token library as the server uses it, reduced to what the
 * application can observe: a signed token carries the `user` claims and an
 * expiry five hours after its issue time; verification either yields those
 * claims or fails with one of the library's error kinds. Signatures and the
 * secret are not modelled.
 */
module Jwt {

  /** `expiresIn: '5h'`, in seconds. */
  const ExpiresInSeconds: nat := 5 * 60 * 60

  /** The `user` object of the token payload: `{ id, email, name }`. */
  datatype Claims = Claims(id: string, email: string, name: string)

  /** A token as the server issues it; `iat` and `exp` are in whole seconds. */
  datatype Token = Token(user: Claims, iat: nat, exp: nat)

  /** The outcome of `jwt.verify`: the decoded claims, or the name of the error it throws. */
  datatype Verdict =
    | Verified(user: Claims)
    | TokenExpiredError
    | JsonWebTokenError
    | OtherError

  /** `jwt.sign(payload, secret, { expiresIn: '5h' })` at the wall-clock time `nowMs` (milliseconds). */
  function Sign(user: Claims, nowMs: nat): (t: Token)
    ensures t.user == user
    ensures t.iat == nowMs / 1000 && t.exp == t.iat + ExpiresInSeconds
  {
    var iat := nowMs / 1000;
    Token(user, iat, iat + ExpiresInSeconds)
  }

  /** `jwt.verify` of a token the server signed, at wall-clock time `nowMs`. */
  function Verify(t: Token, nowMs: nat): (v: Verdict)
    ensures v.Verified? || v.TokenExpiredError?
    ensures v.Verified? <==> nowMs / 1000 < t.exp
    ensures v.Verified? ==> v.user == t.user
  {
    if nowMs / 1000 >= t.exp then TokenExpiredError else Verified(t.user)
  }

  /**
   * A token is accepted for just under five hours after it is signed and
   * rejected as expired from five hours on.
   */
  lemma FiveHourLifetime(user: Claims, signedMs: nat, nowMs: nat)
    ensures nowMs < signedMs + 4 * 60 * 60 * 1000 + 59 * 60 * 1000 + 59 * 1000 ==> Verify(Sign(user, signedMs), nowMs) == Verified(user)
    ensures nowMs >= signedMs + ExpiresInSeconds * 1000 ==> Verify(Sign(user, signedMs), nowMs) == TokenExpiredError
  {
    var t := Sign(user, signedMs);
    var q, r := signedMs / 1000, signedMs % 1000;
    assert signedMs == q * 1000 + r;
    if nowMs < signedMs + 17999000 {
      assert nowMs < (q + 18000) * 1000;
      assert nowMs / 1000 < q + 18000;
    }
    if nowMs >= signedMs + 18000000 {
      assert nowMs >= (q + 18000) * 1000;
      assert nowMs / 1000 >= q + 18000;
    }
  }
}
