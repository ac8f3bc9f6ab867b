/**
 * `UserController` (restaraunt-backend/src/user/user.controller.ts): the guards of each
 * /user route and the conversion of the `regionId` query parameter.
 */
module UserController {
  import opened Wrappers
  import opened Http
  import opened Roles
  import opened Requests
  import opened Access
  import Js
  import Jwt
  import AuthGuard

  datatype Route = Register | Login | Update | FindAll | FindOne | UpdateRoleToAdmin | RefreshToken | Remove

  /** The route table: which guards each handler carries and the roles it declares. */
  function PolicyOf(r: Route): Policy {
    match r
    case Register => PUBLIC
    case Login => PUBLIC
    case Update => RolesOnly([ADMIN])
    case FindAll => AUTHENTICATED
    case FindOne => AUTHENTICATED
    case UpdateRoleToAdmin => RolesOnly([ADMIN])
    case RefreshToken => AUTHENTICATED
    case Remove => RolesOnly([ADMIN])
  }

  /**
   * Registering and logging in need nothing; changing a user, promoting one and deleting
   * one need an ADMIN token; listing, fetching and refreshing need any valid access token.
   */
  lemma Permissions()
    ensures !PolicyOf(Register).authGuard && PolicyOf(Register).roles.None?
    ensures !PolicyOf(Login).authGuard && PolicyOf(Login).roles.None?
    ensures forall r :: r !in {Register, Login} ==> PolicyOf(r).authGuard
    ensures AdmittedRoles(PolicyOf(Update)) == {ADMIN}
    ensures AdmittedRoles(PolicyOf(UpdateRoleToAdmin)) == {ADMIN}
    ensures AdmittedRoles(PolicyOf(Remove)) == {ADMIN}
    ensures AdmittedRoles(PolicyOf(FindAll)) == AllRoles
    ensures AdmittedRoles(PolicyOf(FindOne)) == AllRoles
    ensures AdmittedRoles(PolicyOf(RefreshToken)) == AllRoles
  {
    AdmittedRolesOf([ADMIN]);
  }

  /**
   * The refresh route sits behind AuthGuard: it runs only while the caller still holds an
   * access token that verifies, so an expired access token, or the refresh token itself
   * sent as the bearer token, never reaches `refreshAccessToken`.
   */
  lemma RefreshNeedsLiveAccessToken(authorization: Option<string>, user: Option<AuthUser>,
                                    decode: string -> Result<Jwt.Token, string>, now: int)
    ensures var d := Decide(PolicyOf(RefreshToken), authorization, user, decode, now);
      d.Success? <==> AuthGuard.Authenticate(authorization, decode, now).Success?
    ensures var t := AuthGuard.ExtractToken(authorization);
      t.Some? && t.value != "" && decode(t.value).Success? &&
      (decode(t.value).value.secret == Jwt.REFRESH_SECRET || now >= decode(t.value).value.exp)
      ==> Decide(PolicyOf(RefreshToken), authorization, user, decode, now) == Failure(Unauthorized(AuthGuard.INVALID_TOKEN))
  {
    var t := AuthGuard.ExtractToken(authorization);
    if t.Some? && t.value != "" && decode(t.value).Success? {
      var tok := decode(t.value).value;
      if tok.secret == Jwt.REFRESH_SECRET {
        AuthGuard.RefreshTokenRejected(authorization, decode, now);
      } else if now >= tok.exp {
        Jwt.ExpiredRejected(tok, now);
      }
    }
  }

  /** `regionId ? String(regionId) : undefined`. */
  function RegionIdQuery(v: Js.JsValue): Option<string> {
    if Js.Truthy(v) then Some(Js.ToJsString(v)) else None
  }

  /**
   * A non-empty query string is forwarded unchanged; an absent or empty one, and the
   * number 0, become undefined; a non-zero number is rendered in decimal.
   */
  lemma RegionIdQueryCases(s: string, n: int)
    ensures s != "" ==> RegionIdQuery(Js.Str(s)) == Some(s)
    ensures RegionIdQuery(Js.Str("")) == None && RegionIdQuery(Js.Undefined) == None
    ensures RegionIdQuery(Js.Num(0)) == None
    ensures n != 0 ==> RegionIdQuery(Js.Num(n)) == Some(Js.IntToString(n))
  {
  }
}
