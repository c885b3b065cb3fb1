/** The session token issuer. HMAC signing and the compact encoding belong
    to the jsonwebtoken library; the model keeps the claim set it signs and
    the condition under which signing throws. */
module Jwt {
  import opened JsValues
  import opened Accounts

  /** `expiresIn: '1h'`, in seconds. */
  const ExpiresInSeconds: nat := 3600

  /** The signed payload: `{id, email}` plus the library's `iat` and `exp`
      (whole seconds since the epoch). */
  datatype Claims = Claims(id: ObjectId, email: string, iat: nat, exp: nat)

  /** A token; its signature is not modelled. */
  datatype Token = Token(claims: Claims)

  /** The claims signed for an account at clock time `nowMs` (milliseconds,
      as `Date.now()` returns): `iat` is the time in whole seconds, rounded
      down, and `exp` lies one hour after it. */
  function IssueClaims(id: ObjectId, email: string, nowMs: nat): (c: Claims)
    ensures c.id == id && c.email == email
    ensures c.iat * 1000 <= nowMs < c.iat * 1000 + 1000
    ensures c.exp == c.iat + ExpiresInSeconds
  {
    var iat := nowMs / 1000;
    Claims(id, email, iat, iat + ExpiresInSeconds)
  }

  /** `jwt.sign(claims, secret)`: a falsy secret makes the library throw. */
  function Sign(c: Claims, secret: Option<string>): (t: Option<Token>)
    ensures t.Some? <==> Truthy(secret)
    ensures t.Some? ==> t.value.claims == c
  {
    if Truthy(secret) then Some(Token(c)) else None
  }

  /** A verifier rejects a token once its clock (whole seconds) reaches `exp`. */
  predicate Expired(c: Claims, nowSec: nat)
  {
    nowSec >= c.exp
  }

  /** A token issued at `nowMs` is live exactly until its clock reaches the
      issue second (rounded down) plus one hour; in particular it is expired
      one hour and one second after the request, whatever its millisecond. */
  lemma ExpiryRule(id: ObjectId, email: string, nowMs: nat, t: nat)
    ensures Expired(IssueClaims(id, email, nowMs), t) <==> t >= nowMs / 1000 + ExpiresInSeconds
    ensures t * 1000 >= nowMs + ExpiresInSeconds * 1000 + 1000 ==> Expired(IssueClaims(id, email, nowMs), t)
  {
  }
}
