/** `RegionController` (restaraunt-backend/src/region/region.controller.ts): the guards of each /region route. */
module RegionController {
  import opened Wrappers
  import opened Requests
  import opened Roles
  import opened Access
  import Jwt

  datatype Route = Create | FindAll | FindOne | Update | Remove

  function PolicyOf(r: Route): Policy {
    match r
    case Create => RolesOnly([ADMIN])
    case FindAll => PUBLIC
    case FindOne => AUTHENTICATED
    case Update => RolesOnly([ADMIN])
    case Remove => RolesOnly([ADMIN])
  }

  /**
   * Creating, changing and deleting need ADMIN; fetching one needs any valid access token;
   * the list is public.
   */
  lemma Permissions(authorization: Option<string>, user: Option<AuthUser>,
                    decode: string -> Result<Jwt.Token, string>, now: int)
    ensures PolicyOf(Create).authGuard && AdmittedRoles(PolicyOf(Create)) == {ADMIN}
    ensures PolicyOf(Update).authGuard && AdmittedRoles(PolicyOf(Update)) == {ADMIN}
    ensures PolicyOf(Remove).authGuard && AdmittedRoles(PolicyOf(Remove)) == {ADMIN}
    ensures PolicyOf(FindOne).authGuard && AdmittedRoles(PolicyOf(FindOne)) == AllRoles
    ensures Decide(PolicyOf(FindAll), authorization, user, decode, now) == Success(user)
  {
    AdmittedRolesOf([ADMIN]);
    PublicAdmitsEveryone(authorization, user, decode, now);
  }
}
