/**
 * Signed tokens, abstractly. A token carries the secret it was signed with, its claims
 * `{id, role}`, its issue time `iat` and its expiry `exp` (registered claim "exp" of
 * RFC 7519, section 4.1.4). Verification succeeds exactly when the secrets agree and the
 * current time is before the expiry; signature cryptography is not modelled.
 */
module Jwt {
  import opened Wrappers
  import opened Roles

  /** The two literal secrets the backend signs with. */
  const ACCESS_SECRET: string := "accessSecret"
  const REFRESH_SECRET: string := "refreshSecret"

  /** `expiresIn: '1d'` and `expiresIn: '7d'`, in seconds. */
  const ONE_DAY: nat := 86400
  const SEVEN_DAYS: nat := 604800

  /** The messages the token library throws on a decoded token, which some callers pass through. */
  const INVALID_SIGNATURE: string := "invalid signature"
  const EXPIRED: string := "jwt expired"

  datatype Claims = Claims(id: string, role: RoleType)

  datatype Token = Token(secret: string, claims: Claims, iat: int, exp: int)

  /** `jwt.sign(claims, {secret, expiresIn})` at time `now` (seconds). */
  function Sign(claims: Claims, secret: string, now: int, expiresIn: nat): Token {
    Token(secret, claims, now, now + expiresIn)
  }

  /** `jwt.verify(token, {secret})`: the signature is checked first, then the expiry. */
  function Verify(t: Token, secret: string, now: int): Result<Claims, string> {
    if t.secret != secret then Failure(INVALID_SIGNATURE)
    else if now >= t.exp then Failure(EXPIRED)
    else Success(t.claims)
  }

  /**
   * `jwt.verify` applied to token text: `decode` is the library's parse of a compact token,
   * or the message it throws for text that is not one ("jwt must be provided",
   * "jwt malformed", "invalid token", "jwt signature is required", ...).
   */
  function VerifyText(text: string, decode: string -> Result<Token, string>, secret: string, now: int)
    : Result<Claims, string>
  {
    match decode(text)
    case Failure(message) => Failure(message)
    case Success(t) => Verify(t, secret, now)
  }

  /** A signed token verifies with its own secret, giving back its claims, until it expires. */
  lemma SignVerify(claims: Claims, secret: string, now: int, expiresIn: nat, at: int)
    ensures Verify(Sign(claims, secret, now, expiresIn), secret, at).Success?
            <==> at < now + expiresIn
    ensures at < now + expiresIn ==>
            Verify(Sign(claims, secret, now, expiresIn), secret, at) == Success(claims)
  {
  }

  /** A token signed with one secret never verifies with another, whatever the time. */
  lemma WrongSecretRejected(t: Token, secret: string, now: int)
    requires t.secret != secret
    ensures Verify(t, secret, now) == Failure(INVALID_SIGNATURE)
  {
  }

  /** Once its expiry has passed a correctly signed token is rejected. */
  lemma ExpiredRejected(t: Token, now: int)
    requires now >= t.exp
    ensures Verify(t, t.secret, now) == Failure(EXPIRED)
  {
  }

  /** The two secrets differ, so no token verifies with both. */
  lemma SecretsDiffer(t: Token, now: int)
    ensures !(Verify(t, ACCESS_SECRET, now).Success? && Verify(t, REFRESH_SECRET, now).Success?)
  {
    assert ACCESS_SECRET[0] != REFRESH_SECRET[0];
  }
}
