/** `DebtController` (restaraunt-backend/src/debt/debt.controller.ts): the guards of each /debt route. */
module DebtController {
  import opened Roles
  import opened Access

  datatype Route = Create | FindAll | FindOne | Update | Remove

  const CASH_DESK: seq<RoleType> := [ADMIN, SUPER_ADMIN, CASHER]

  function PolicyOf(r: Route): Policy {
    match r
    case Create => RolesOnly(CASH_DESK)
    case FindAll => RolesOnly(CASH_DESK)
    case FindOne => RolesOnly(CASH_DESK)
    case Update => RolesOnly(CASH_DESK)
    case Remove => RolesOnly(CASH_DESK)
  }

  /**
   * Every route authenticates first and then admits exactly ADMIN, SUPER_ADMIN and CASHER;
   * WAITER and OWNER are refused everywhere.
   */
  lemma Permissions()
    ensures forall r :: PolicyOf(r).authGuard
    ensures forall r :: AdmittedRoles(PolicyOf(r)) == {ADMIN, SUPER_ADMIN, CASHER}
    ensures forall r :: WAITER !in AdmittedRoles(PolicyOf(r)) && OWNER !in AdmittedRoles(PolicyOf(r))
  {
    AdmittedRolesOf(CASH_DESK);
  }
}
