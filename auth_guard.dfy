/**
 * `AuthGuard.canActivate` (restaraunt-backend/src/tools/auth/auth.guard.ts): take the
 * second space-separated field of the Authorization header, verify it with the access
 * secret and, on success, write `{id, role}` into `req['user']`.
 */
module AuthGuard {
  import opened Wrappers
  import opened Http
  import opened Roles
  import opened Requests
  import Js
  import Jwt

  const NO_TOKEN: string := "Token not provided"
  const INVALID_TOKEN: string := "Invalid token"

  /** `req.headers.authorization?.split(' ')?.[1]`; the scheme word is not looked at. */
  function ExtractToken(authorization: Option<string>): Option<string> {
    match authorization
    case None => None
    case Some(h) =>
      var fields := Js.Split(h, ' ');
      if |fields| > 1 then Some(fields[1]) else None
  }

  /** The user the guard writes into the request, or what it throws. */
  function Authenticate(authorization: Option<string>, decode: string -> Result<Jwt.Token, string>, now: int)
    : (r: Result<AuthUser, Failure>)
    ensures r.Failure? ==> r.error == Unauthorized(NO_TOKEN) || r.error == Unauthorized(INVALID_TOKEN)
    ensures r == Failure(Unauthorized(NO_TOKEN)) <==>
              ExtractToken(authorization).None? || ExtractToken(authorization).value == ""
    ensures r == Failure(Unauthorized(INVALID_TOKEN)) <==>
              && ExtractToken(authorization).Some? && ExtractToken(authorization).value != ""
              && Jwt.VerifyText(ExtractToken(authorization).value, decode, Jwt.ACCESS_SECRET, now).Failure?
    ensures r.Success? ==> r.value.role.Some?
  {
    var token := ExtractToken(authorization);
    if token.None? || token.value == "" then Failure(Unauthorized(NO_TOKEN))
    else match Jwt.VerifyText(token.value, decode, Jwt.ACCESS_SECRET, now)
      case Failure(_) => Failure(Unauthorized(INVALID_TOKEN))
      case Success(claims) => Success(AuthUser(claims.id, Some(claims.role)))
  }

  /** `canActivate(context)`: on success `req['user']` is set and true returned. */
  method CanActivate(req: Request, decode: string -> Result<Jwt.Token, string>, now: int)
    returns (r: Result<bool, Failure>)
    modifies req`user
    ensures var a := Authenticate(old(req.authorization), decode, now);
      && (r.Success? <==> a.Success?)
      && (a.Success? ==> r.value && req.user == Some(a.value))
      && (a.Failure? ==> r.error == a.error && req.user == old(req.user))
  {
    var token := ExtractToken(req.authorization);
    if token.None? || token.value == "" {
      return Failure(Unauthorized(NO_TOKEN));
    }
    var data := Jwt.VerifyText(token.value, decode, Jwt.ACCESS_SECRET, now);
    if data.Failure? {
      return Failure(Unauthorized(INVALID_TOKEN));
    }
    req.user := Some(AuthUser(data.value.id, Some(data.value.role)));
    return Success(true);
  }

  /**
   * The token is the text between the first and the second space, whatever the first
   * word is.
   */
  lemma ExtractSecondField(scheme: string, token: string, rest: string)
    requires ' ' !in scheme && ' ' !in token
    requires rest == "" || rest[0] == ' '
    ensures ExtractToken(Some(scheme + " " + token + rest)) == Some(token)
  {
    var h := scheme + " " + token + rest;
    assert h == scheme + [' '] + (token + rest);
    Js.SplitAtFirst(scheme, token + rest, ' ');
    Js.SplitFreePrefix(token, rest, ' ');
    if rest != "" {
      assert rest[0] == ' ';
    }
    assert Js.Split(rest, ' ')[0] == [];
    assert token + [] == token;
    assert Js.Split(h, ' ')[1] == Js.Split(token + rest, ' ')[0];
  }

  /** "Foo x" yields "x": the scheme word is not checked. */
  lemma SchemeNotChecked()
    ensures ExtractToken(Some("Foo x")) == Some("x")
  {
    ExtractSecondField("Foo", "x", "");
    assert "Foo" + " " + "x" + "" == "Foo x";
  }

  /** A header without a space has no second field. */
  lemma NoSpaceNoToken(h: string)
    requires ' ' !in h
    ensures ExtractToken(Some(h)) == None
  {
    Js.SplitFreePrefix(h, "", ' ');
    assert h + "" == h;
  }

  /**
   * A missing header, a header with no second field ("Bearer") and one whose second field
   * is empty ("Bearer  x") are all rejected as "Token not provided".
   */
  lemma MissingTokenRejected(decode: string -> Result<Jwt.Token, string>, now: int)
    ensures Authenticate(None, decode, now) == Failure(Unauthorized(NO_TOKEN))
    ensures Authenticate(Some("Bearer"), decode, now) == Failure(Unauthorized(NO_TOKEN))
    ensures Authenticate(Some("Bearer  x"), decode, now) == Failure(Unauthorized(NO_TOKEN))
  {
    NoSpaceNoToken("Bearer");
    ExtractSecondField("Bearer", "", " x");
  }

  /**
   * A well-formed "<scheme> <token>" header is admitted exactly when the token verifies
   * with the access secret, and then `req['user']` is exactly the token's `{id, role}`.
   */
  lemma AcceptsExactlyValidAccessTokens(scheme: string, text: string, decode: string -> Result<Jwt.Token, string>, now: int)
    requires ' ' !in scheme && ' ' !in text && text != ""
    ensures var r := Authenticate(Some(scheme + " " + text), decode, now);
      && (r.Success? <==> decode(text).Success? && Jwt.Verify(decode(text).value, Jwt.ACCESS_SECRET, now).Success?)
      && (r.Success? ==> r.value == AuthUser(decode(text).value.claims.id, Some(decode(text).value.claims.role)))
  {
    ExtractSecondField(scheme, text, "");
    assert scheme + " " + text + "" == scheme + " " + text;
  }

  /** A refresh token, signed with the refresh secret, is never accepted as an access token. */
  lemma RefreshTokenRejected(authorization: Option<string>, decode: string -> Result<Jwt.Token, string>, now: int)
    requires ExtractToken(authorization).Some?
    requires var t := ExtractToken(authorization).value;
      t != "" && decode(t).Success? && decode(t).value.secret == Jwt.REFRESH_SECRET
    ensures Authenticate(authorization, decode, now) == Failure(Unauthorized(INVALID_TOKEN))
  {
    var tok := decode(ExtractToken(authorization).value).value;
    Jwt.SecretsDiffer(tok, now);
  }
}
