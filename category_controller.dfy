/**
 * `CategoryController` (restaraunt-backend/src/category/category.controller.ts): the
 * guards of each /category route and the coercion of the `isActive` query parameter.
 */
module CategoryController {
  import opened Wrappers
  import opened Roles
  import opened Access
  import Js

  datatype Route = Create | FindAll | FindOne | Update | Remove

  function PolicyOf(r: Route): Policy {
    match r
    case Create => RolesOnly([ADMIN, SUPER_ADMIN])
    case FindAll => AUTHENTICATED
    case FindOne => AUTHENTICATED
    case Update => RolesOnly([ADMIN, SUPER_ADMIN])
    case Remove => RolesOnly([ADMIN, SUPER_ADMIN])
  }

  /**
   * Every route needs a valid access token; creating, changing and deleting a category
   * need ADMIN or SUPER_ADMIN, reading needs any role.
   */
  lemma Permissions()
    ensures forall r :: PolicyOf(r).authGuard
    ensures AdmittedRoles(PolicyOf(Create)) == {ADMIN, SUPER_ADMIN}
    ensures AdmittedRoles(PolicyOf(Update)) == {ADMIN, SUPER_ADMIN}
    ensures AdmittedRoles(PolicyOf(Remove)) == {ADMIN, SUPER_ADMIN}
    ensures AdmittedRoles(PolicyOf(FindAll)) == AllRoles
    ensures AdmittedRoles(PolicyOf(FindOne)) == AllRoles
  {
    AdmittedRolesOf([ADMIN, SUPER_ADMIN]);
  }

  /** `isActive === undefined ? undefined : isActive === true || isActive === 'true'`. */
  function IsActiveQuery(v: Js.JsValue): Option<bool> {
    if v.Undefined? then None else Some(v == Js.Bool(true) || v == Js.Str("true"))
  }

  /**
   * An absent parameter stays absent; `true` and the text "true" become true; everything
   * else, "false", "1" and "TRUE" included, becomes false.
   */
  lemma IsActiveQueryCases(v: Js.JsValue)
    ensures IsActiveQuery(v).None? <==> v.Undefined?
    ensures IsActiveQuery(v) == Some(true) <==> v in {Js.Bool(true), Js.Str("true")}
    ensures !v.Undefined? && v !in {Js.Bool(true), Js.Str("true")} ==> IsActiveQuery(v) == Some(false)
    ensures IsActiveQuery(Js.Str("false")) == Some(false) && IsActiveQuery(Js.Str("TRUE")) == Some(false)
  {
  }
}
