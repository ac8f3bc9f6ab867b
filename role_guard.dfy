/**
 * `RoleGuard.canActivate` (restaraunt-backend/src/tools/role/role.guard.ts): admission by
 * membership of the request user's role in the allow-list declared with `@Roles(...)`.
 * The guard only reads the request, so it is a function with a `reads` clause.
 */
module RoleGuard {
  import opened Wrappers
  import opened Http
  import opened Roles
  import opened Requests
  import Js

  const ROLE_MISSING: string := "User role not found in request"

  /** The `TypeError` that reading `.role` of an absent `req['user']` throws. */
  const USER_MISSING: string := "Cannot read properties of undefined (reading 'role')"

  /**
   * `reflector.getAllAndOverride(ROLES_KEY, [handler, class])`: the handler's metadata
   * when it has any, otherwise the class's.
   */
  function GetAllAndOverride(handler: Option<seq<RoleType>>, cls: Option<seq<RoleType>>)
    : Option<seq<RoleType>>
  {
    if handler.Some? then handler else cls
  }

  /** `roles.some((role) => role === userRole)`. */
  function AnyMatches(roles: seq<RoleType>, userRole: RoleType): (found: bool)
    ensures found <==> userRole in roles
    decreases |roles|
  {
    if roles == [] then false
    else roles[0] == userRole || AnyMatches(roles[1..], userRole)
  }

  function RoleNames(roles: seq<RoleType>): (names: seq<string>)
    ensures |names| == |roles|
    ensures forall i :: 0 <= i < |roles| ==> names[i] == Name(roles[i])
    decreases |roles|
  {
    if roles == [] then [] else [Name(roles[0])] + RoleNames(roles[1..])
  }

  /** The rejection message, naming the allowed roles in declaration order. */
  function DeniedMessage(roles: seq<RoleType>): string {
    "You need one of these roles: " + Js.Join(RoleNames(roles), ", ")
  }

  /** The decision of the guard, given the resolved metadata and `req['user']`. */
  function Check(required: Option<seq<RoleType>>, user: Option<AuthUser>)
    : (r: Result<bool, Failure>)
    ensures r.Success? ==> r.value
    ensures r.Success? <==>
      required.None? || (user.Some? && user.value.role.Some? && user.value.role.value in required.value)
  {
    if required.None? then Success(true)
    else if user.None? then Failure(RuntimeError(USER_MISSING))
    else if user.value.role.None? then Failure(Unauthorized(ROLE_MISSING))
    else if AnyMatches(required.value, user.value.role.value) then Success(true)
    else Failure(Unauthorized(DeniedMessage(required.value)))
  }

  /** `canActivate(context)`: it returns true or throws, and never writes to the request. */
  function CanActivate(handler: Option<seq<RoleType>>, cls: Option<seq<RoleType>>, req: Request)
    : Result<bool, Failure>
    reads req
  {
    Check(GetAllAndOverride(handler, cls), req.user)
  }

  /** Without any roles metadata the guard admits, without looking at `req['user']`. */
  lemma NoMetadataAdmits(user: Option<AuthUser>)
    ensures Check(GetAllAndOverride(None, None), user) == Success(true)
  {
  }

  /** Metadata on the handler wins over metadata on the class, whatever the latter says. */
  lemma HandlerOverridesClass(handler: seq<RoleType>, cls: Option<seq<RoleType>>, user: Option<AuthUser>)
    ensures Check(GetAllAndOverride(Some(handler), cls), user) == Check(Some(handler), user)
  {
  }

  /** With metadata present, an absent `req['user']` throws a TypeError: a 500, not a 401. */
  lemma MissingUserIsServerError(roles: seq<RoleType>)
    ensures Check(Some(roles), None) == Failure(RuntimeError(USER_MISSING))
    ensures Status(Check(Some(roles), None).error) == INTERNAL_SERVER_ERROR
  {
  }

  /** A user without a role is rejected with 401 "User role not found in request". */
  lemma FalsyRoleUnauthorized(roles: seq<RoleType>, id: string)
    ensures Check(Some(roles), Some(AuthUser(id, None))) == Failure(Unauthorized(ROLE_MISSING))
  {
  }

  /**
   * A role outside the allow-list is rejected with 401 and a message that names every
   * allowed role.
   */
  lemma {:induction false} OtherRoleUnauthorized(roles: seq<RoleType>, user: AuthUser)
    requires user.role.Some? && user.role.value !in roles
    ensures Check(Some(roles), Some(user)) == Failure(Unauthorized(DeniedMessage(roles)))
    ensures forall i :: 0 <= i < |roles| ==> Js.Includes(DeniedMessage(roles), Name(roles[i]))
  {
    forall i | 0 <= i < |roles|
      ensures Js.Includes(DeniedMessage(roles), Name(roles[i]))
    {
      JoinIncludesPiece(RoleNames(roles), ", ", i);
      IncludesInSuffix("You need one of these roles: ", Js.Join(RoleNames(roles), ", "), Name(roles[i]));
    }
  }

  /** A present but empty allow-list admits nobody: `[]` is truthy and `some` over it is false. */
  lemma EmptyAllowListRejectsAll(user: Option<AuthUser>)
    ensures Check(Some([]), user).Failure?
  {
  }

  lemma {:induction false} JoinIncludesPiece(pieces: seq<string>, sep: string, i: int)
    requires 0 <= i < |pieces|
    ensures Js.Includes(Js.Join(pieces, sep), pieces[i])
    decreases |pieces|
  {
    var joined := Js.Join(pieces, sep);
    if |pieces| == 1 {
      assert Js.OccursAt(joined, pieces[0], 0);
    } else if i == 0 {
      assert joined == pieces[0] + (sep + Js.Join(pieces[1..], sep));
      assert Js.OccursAt(joined, pieces[0], 0);
    } else {
      JoinIncludesPiece(pieces[1..], sep, i - 1);
      assert joined == (pieces[0] + sep) + Js.Join(pieces[1..], sep);
      IncludesInSuffix(pieces[0] + sep, Js.Join(pieces[1..], sep), pieces[i]);
    }
  }

  lemma IncludesInSuffix(prefix: string, s: string, part: string)
    requires Js.Includes(s, part)
    ensures Js.Includes(prefix + s, part)
  {
    var k :| 0 <= k <= |s| - |part| && Js.OccursAt(s, part, k);
    assert (prefix + s)[|prefix| + k..|prefix| + k + |part|] == s[k..k + |part|];
    assert Js.OccursAt(prefix + s, part, |prefix| + k);
  }
}
