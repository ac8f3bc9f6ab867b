/**
 * `AppController` (restaraunt-backend/src/app.controller.ts): the greeting route, the guards
 * of the dashboard and the figures `getDashboardStats` derives from six database answers.
 * Amounts are exact reals; the floating-point rounding of the source is left out.
 */
module AppController {
  import opened Wrappers
  import opened Http
  import opened Roles
  import opened Access

  const DASHBOARD_FAILED: string := "Dashboard stats olishda xatolik"

  /** Shares of revenue counted as product cost and as other costs. */
  const PRODUCT_COST_RATE: real := 0.5
  const OTHER_COST_RATE: real := 0.1

  datatype Route = GetHello | DashboardStats

  function PolicyOf(r: Route): Policy {
    match r
    case GetHello => PUBLIC
    case DashboardStats => RolesOnly([ADMIN, SUPER_ADMIN, CASHER, WAITER])
  }

  /** The greeting is public; the dashboard admits every role but OWNER. */
  lemma Permissions()
    ensures !PolicyOf(GetHello).authGuard && PolicyOf(GetHello).roles.None?
    ensures PolicyOf(DashboardStats).authGuard
    ensures AdmittedRoles(PolicyOf(DashboardStats)) == {ADMIN, SUPER_ADMIN, CASHER, WAITER}
    ensures AdmittedRoles(PolicyOf(DashboardStats)) == AllRoles - {OWNER}
  {
    AdmittedRolesOf([ADMIN, SUPER_ADMIN, CASHER, WAITER]);
  }

  /** The six answers: five counts and the sum of order totals, null when there are no orders. */
  datatype Counts = Counts(users: nat, restaurants: nat, products: nat, orders: nat, pendingOrders: nat,
                           revenueSum: Option<real>)

  datatype Stats = Stats(totalUsers: nat, totalRestaurants: nat, totalProducts: nat, totalOrders: nat,
                         pendingOrders: nat, totalRevenue: real, netProfit: int)

  /** `Math.round`: the nearest integer, halves rounded up. */
  function Round(x: real): (n: int)
    ensures n as real - 0.5 <= x < n as real + 0.5
  {
    (x + 0.5).Floor
  }

  /** Revenue minus product cost and other costs. */
  function NetProfit(revenue: real): real {
    var productCost := revenue * PRODUCT_COST_RATE;
    var otherCosts := revenue * OTHER_COST_RATE;
    revenue - (productCost + otherCosts)
  }

  /**
   * `getDashboardStats()`: the counts as they are, the revenue (a null sum read as 0)
   * unrounded, and the net profit rounded. If any query fails the caller gets one generic
   * error, which Nest answers with 500, and no figures at all.
   */
  function GetDashboardStats(answers: Result<Counts, string>): (r: Result<Stats, Failure>)
    ensures r.Failure? <==> answers.Failure?
    ensures r.Failure? ==> r.error == RuntimeError(DASHBOARD_FAILED) && Status(r.error) == INTERNAL_SERVER_ERROR
    ensures r.Success? ==>
      var c := answers.value;
      && r.value.totalUsers == c.users && r.value.totalRestaurants == c.restaurants
      && r.value.totalProducts == c.products && r.value.totalOrders == c.orders
      && r.value.pendingOrders == c.pendingOrders
      && r.value.totalRevenue == (if c.revenueSum.Some? then c.revenueSum.value else 0.0)
      && r.value.netProfit as real - 0.5 <= 0.4 * r.value.totalRevenue < r.value.netProfit as real + 0.5
  {
    match answers
    case Failure(_) => Failure(RuntimeError(DASHBOARD_FAILED))
    case Success(c) =>
      var revenue := if c.revenueSum.Some? && c.revenueSum.value != 0.0 then c.revenueSum.value else 0.0;
      Success(Stats(c.users, c.restaurants, c.products, c.orders, c.pendingOrders,
                    revenue, Round(NetProfit(revenue))))
  }

  /**
   * A revenue of 1000 gives a net profit of 400; with no orders both are 0; a revenue of
   * 1001 gives 400.4, reported as 400, while the revenue itself stays 1001.
   */
  lemma DashboardExamples()
    ensures var r := GetDashboardStats(Success(Counts(0, 0, 0, 0, 0, Some(1000.0))));
      r.Success? && r.value.totalRevenue == 1000.0 && r.value.netProfit == 400
    ensures var r := GetDashboardStats(Success(Counts(0, 0, 0, 0, 0, None)));
      r.Success? && r.value.totalRevenue == 0.0 && r.value.netProfit == 0
    ensures var r := GetDashboardStats(Success(Counts(0, 0, 0, 0, 0, Some(1001.0))));
      r.Success? && r.value.totalRevenue == 1001.0 && r.value.netProfit == 400
  {
    assert NetProfit(1000.0) == 400.0;
    assert NetProfit(1001.0) == 400.4;
  }
}
