/**
 * The guard chain in front of every handler. A route's policy says whether `AuthGuard`
 * runs and, when `RoleGuard` is attached, the allow-list declared with `@Roles(...)` on the
 * handler (no controller declares roles at class level). The chain runs AuthGuard, then
 * RoleGuard, then the handler; the first guard that throws ends the request.
 */
module Access {
  import opened Wrappers
  import opened Http
  import opened Roles
  import opened Requests
  import Jwt
  import AuthGuard
  import RoleGuard

  datatype Policy = Policy(authGuard: bool, roles: Option<seq<RoleType>>)

  /** No guard at all. */
  const PUBLIC: Policy := Policy(false, None)

  /** `@UseGuards(AuthGuard)` only: any authenticated role. */
  const AUTHENTICATED: Policy := Policy(true, None)

  /** `@Roles(...roles) @UseGuards(RoleGuard) @UseGuards(AuthGuard)`. */
  function RolesOnly(roles: seq<RoleType>): Policy {
    Policy(true, Some(roles))
  }

  /**
   * What the handler sees as `req['user']` once every guard of `p` has admitted the
   * request, or the failure of the first guard that threw.
   */
  function Decide(p: Policy, authorization: Option<string>, user: Option<AuthUser>,
                  decode: string -> Result<Jwt.Token, string>, now: int)
    : Result<Option<AuthUser>, Failure>
  {
    var afterAuth :=
      if !p.authGuard then Success(user)
      else match AuthGuard.Authenticate(authorization, decode, now)
        case Success(u) => Success(Some(u))
        case Failure(e) => Failure(e);
    match afterAuth
    case Failure(e) => Failure(e)
    case Success(u) =>
      if p.roles.None? then Success(u)
      else match RoleGuard.Check(RoleGuard.GetAllAndOverride(p.roles, None), u)
        case Success(_) => Success(u)
        case Failure(e) => Failure(e)
  }

  /** Runs the guards of `p` on `req` in order; true means the handler runs. */
  method Run(p: Policy, req: Request, decode: string -> Result<Jwt.Token, string>, now: int)
    returns (r: Result<bool, Failure>)
    modifies req`user
    ensures var d := Decide(p, old(req.authorization), old(req.user), decode, now);
      && (r.Success? <==> d.Success?)
      && (d.Success? ==> r.value && req.user == d.value)
      && (d.Failure? ==> r.error == d.error)
  {
    if p.authGuard {
      var authorized := AuthGuard.CanActivate(req, decode, now);
      if authorized.Failure? {
        return Failure(authorized.error);
      }
    }
    if p.roles.Some? {
      var admitted := RoleGuard.CanActivate(p.roles, None, req);
      if admitted.Failure? {
        return Failure(admitted.error);
      }
    }
    return Success(true);
  }

  /** The roles a policy's RoleGuard lets through. */
  predicate Admits(p: Policy, role: RoleType) {
    p.roles.None? || role in p.roles.value
  }

  function AdmittedRoles(p: Policy): set<RoleType> {
    set r | r in AllRoles && Admits(p, r)
  }

  lemma AdmittedRolesOf(roles: seq<RoleType>)
    ensures AdmittedRoles(RolesOnly(roles)) == set r | r in roles
    ensures AdmittedRoles(AUTHENTICATED) == AllRoles
  {
    forall r | r in roles ensures r in AllRoles { Roles.ParseName(r); }
  }

  /** A route without guards runs its handler for every request, leaving `req['user']` as it was. */
  lemma PublicAdmitsEveryone(authorization: Option<string>, user: Option<AuthUser>,
                              decode: string -> Result<Jwt.Token, string>, now: int)
    ensures Decide(PUBLIC, authorization, user, decode, now) == Success(user)
  {
  }

  /** Behind AuthGuard, the handler runs only for a request whose access token verifies. */
  lemma GuardedNeedsAccessToken(p: Policy, authorization: Option<string>, user: Option<AuthUser>,
                                decode: string -> Result<Jwt.Token, string>, now: int)
    requires p.authGuard
    ensures Decide(p, authorization, user, decode, now).Success? ==>
      AuthGuard.Authenticate(authorization, decode, now).Success?
  {
  }

  /**
   * For a request carrying "<scheme> <token>" with a valid access token, the handler runs
   * exactly when the token's role is admitted, and then sees the token's `{id, role}`;
   * otherwise RoleGuard's 401 naming the allowed roles ends the request.
   */
  lemma {:induction false} ValidAccessTokenDecision(p: Policy, scheme: string, text: string,
                                user: Option<AuthUser>, decode: string -> Result<Jwt.Token, string>, now: int)
    requires p.authGuard
    requires ' ' !in scheme && ' ' !in text && text != ""
    requires decode(text).Success? && decode(text).value.secret == Jwt.ACCESS_SECRET
    requires now < decode(text).value.exp
    ensures var c := decode(text).value.claims;
      Decide(p, Some(scheme + " " + text), user, decode, now) ==
        if Admits(p, c.role) then Success(Some(AuthUser(c.id, Some(c.role))))
        else Failure(Unauthorized(RoleGuard.DeniedMessage(p.roles.value)))
  {
    AuthGuard.AcceptsExactlyValidAccessTokens(scheme, text, decode, now);
    var c := decode(text).value.claims;
    if !Admits(p, c.role) {
      RoleGuard.OtherRoleUnauthorized(p.roles.value, AuthUser(c.id, Some(c.role)));
    }
  }

  /** No guarded route ever runs for a request that presents a refresh token. */
  lemma RefreshTokenNeverAdmitted(p: Policy, authorization: Option<string>, user: Option<AuthUser>,
                                  decode: string -> Result<Jwt.Token, string>, now: int)
    requires p.authGuard
    requires AuthGuard.ExtractToken(authorization).Some?
    requires var t := AuthGuard.ExtractToken(authorization).value;
      t != "" && decode(t).Success? && decode(t).value.secret == Jwt.REFRESH_SECRET
    ensures Decide(p, authorization, user, decode, now) == Failure(Unauthorized(AuthGuard.INVALID_TOKEN))
  {
    AuthGuard.RefreshTokenRejected(authorization, decode, now);
  }
}
