/**
 * `OrderController` (restaraunt-backend/src/order/order.controller.ts): the guards of
 * each /order route, the list defaults and the request handed to `create`.
 */
module OrderController {
  import opened Wrappers
  import opened Http
  import opened Requests
  import opened Roles
  import opened Access
  import opened Paging
  import Jwt

  datatype Route = Create | FindAll | FindOne | Update | Remove

  const STAFF: seq<RoleType> := [WAITER, CASHER]

  function PolicyOf(r: Route): Policy {
    match r
    case Create => RolesOnly(STAFF)
    case FindAll => AUTHENTICATED
    case FindOne => RolesOnly(STAFF)
    case Update => RolesOnly(STAFF)
    case Remove => RolesOnly(STAFF)
  }

  /**
   * Every route but the list admits only WAITER and CASHER, so an ADMIN can list orders
   * but cannot create, fetch, change or delete one.
   */
  lemma Permissions()
    ensures forall r :: PolicyOf(r).authGuard
    ensures forall r :: r != FindAll ==> AdmittedRoles(PolicyOf(r)) == {WAITER, CASHER}
    ensures AdmittedRoles(PolicyOf(FindAll)) == AllRoles
    ensures ADMIN in AdmittedRoles(PolicyOf(FindAll)) && ADMIN !in AdmittedRoles(PolicyOf(FindOne))
  {
    AdmittedRolesOf(STAFF);
  }

  datatype ListQuery = ListQuery(restaurantId: Option<string>, productId: Option<string>, quantity: Option<int>,
                                 sort: Option<SortOrder>, page: int, limit: int)

  /** The query the handler forwards: page and limit default to 1 and 10, sort stays absent. */
  function FindAllQuery(restaurantId: Option<string>, productId: Option<string>, quantity: Option<int>,
                        sort: Option<SortOrder>, page: Option<int>, limit: Option<int>): ListQuery {
    ListQuery(restaurantId, productId, quantity, sort,
              if page.Some? then page.value else 1,
              if limit.Some? then limit.value else 10)
  }

  lemma FindAllDefaults(p: int, l: int)
    ensures var q := FindAllQuery(None, None, None, None, None, None);
      q.page == 1 && q.limit == 10 && q.sort.None?
    ensures var q := FindAllQuery(None, None, None, None, Some(p), Some(l));
      q.page == p && q.limit == l
  {
  }

  /**
   * `create` receives the request after both guards ran: the user in it is the `{id, role}`
   * of the caller's access token, whose role is WAITER or CASHER.
   */
  lemma CreateSeesCaller(scheme: string, text: string, user: Option<AuthUser>,
                         decode: string -> Result<Jwt.Token, string>, now: int)
    requires ' ' !in scheme && ' ' !in text && text != ""
    requires decode(text).Success? && decode(text).value.secret == Jwt.ACCESS_SECRET
    requires now < decode(text).value.exp
    ensures var c := decode(text).value.claims;
      var d := Decide(PolicyOf(Create), Some(scheme + " " + text), user, decode, now);
      && (d.Success? <==> c.role in {WAITER, CASHER})
      && (d.Success? ==> d.value == Some(AuthUser(c.id, Some(c.role))))
  {
    ValidAccessTokenDecision(PolicyOf(Create), scheme, text, user, decode, now);
  }
}
