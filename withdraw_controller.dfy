/**
 * `WithdrawController` (restaraunt-backend/src/withdraw/withdraw.controller.ts): the
 * guards of each /withdraw route and the defaults of the list query.
 */
module WithdrawController {
  import opened Wrappers
  import opened Roles
  import opened Access
  import opened Paging

  datatype Route = Create | FindAll | FindOne | Update | Remove

  const WRITERS: seq<RoleType> := [ADMIN, SUPER_ADMIN, CASHER]
  const READERS: seq<RoleType> := [ADMIN, SUPER_ADMIN, CASHER, OWNER]

  function PolicyOf(r: Route): Policy {
    match r
    case Create => RolesOnly(WRITERS)
    case FindAll => RolesOnly(READERS)
    case FindOne => RolesOnly(READERS)
    case Update => RolesOnly(WRITERS)
    case Remove => RolesOnly(WRITERS)
  }

  /**
   * Writing needs ADMIN, SUPER_ADMIN or CASHER; reading admits OWNER as well; WAITER is
   * refused everywhere.
   */
  lemma Permissions()
    ensures forall r :: PolicyOf(r).authGuard
    ensures AdmittedRoles(PolicyOf(Create)) == {ADMIN, SUPER_ADMIN, CASHER}
    ensures AdmittedRoles(PolicyOf(Update)) == {ADMIN, SUPER_ADMIN, CASHER}
    ensures AdmittedRoles(PolicyOf(Remove)) == {ADMIN, SUPER_ADMIN, CASHER}
    ensures AdmittedRoles(PolicyOf(FindAll)) == {ADMIN, SUPER_ADMIN, CASHER, OWNER}
    ensures AdmittedRoles(PolicyOf(FindOne)) == {ADMIN, SUPER_ADMIN, CASHER, OWNER}
    ensures forall r :: WAITER !in AdmittedRoles(PolicyOf(r))
  {
    AdmittedRolesOf(WRITERS);
    AdmittedRolesOf(READERS);
  }

  datatype ListQuery = ListQuery(orderId: Option<string>, restaurantId: Option<string>, withdrawType: Option<string>,
                                 sort: SortOrder, page: int, limit: int)

  /** The query the handler forwards; parameter defaults apply only to absent values. */
  function FindAllQuery(orderId: Option<string>, restaurantId: Option<string>, withdrawType: Option<string>,
                        sort: Option<SortOrder>, page: Option<int>, limit: Option<int>): ListQuery {
    ListQuery(orderId, restaurantId, withdrawType,
              if sort.Some? then sort.value else Desc,
              if page.Some? then page.value else 1,
              if limit.Some? then limit.value else 10)
  }

  /** Without parameters the newest withdrawals come first, ten to a page, first page. */
  lemma FindAllDefaults(s: SortOrder, p: int, l: int)
    ensures var q := FindAllQuery(None, None, None, None, None, None);
      q.sort == Desc && q.page == 1 && q.limit == 10 && q.orderId.None? && q.restaurantId.None? && q.withdrawType.None?
    ensures var q := FindAllQuery(None, None, None, Some(s), Some(p), Some(l));
      q.sort == s && q.page == p && q.limit == l
  {
  }
}
