/**
 * The offset-pagination arithmetic the list services share: `skip = (page - 1) * limit`,
 * `take = limit` and `lastPage = Math.ceil(total / limit)`.
 */
module Paging {

  datatype SortOrder = Asc | Desc

  /** `(page - 1) * limit`. */
  function Skip(page: int, limit: int): int {
    (page - 1) * limit
  }

  /** The value of `Math.ceil(total / limit)`: a whole number, `Infinity` or `NaN`. */
  datatype Ceiling = Finite(value: int) | Infinity | NaN

  /** `Math.ceil(total / limit)` for a non-negative count and an integral limit. */
  function LastPage(total: nat, limit: int): (c: Ceiling)
    ensures limit != 0 ==> c.Finite?
  {
    if limit > 0 then Finite((total + limit - 1) / limit)
    else if limit < 0 then Finite(-(total / -limit))
    else if total > 0 then Infinity
    else NaN
  }

  /**
   * For a positive limit, `lastPage` is the least number of pages of `limit` rows that holds
   * all `total` rows.
   */
  lemma LastPageIsCeiling(total: nat, limit: int)
    requires limit > 0
    ensures var k := LastPage(total, limit).value;
      k >= 0 && k * limit >= total && (k - 1) * limit < total
  {
    var k := (total + limit - 1) / limit;
    var m := (total + limit - 1) % limit;
    assert total + limit - 1 == k * limit + m && 0 <= m < limit;
    assert k * limit == total + limit - 1 - m;
    assert (k - 1) * limit == k * limit - limit;
  }

  /**
   * Row `i` of the filtered rows (counting from 0) is on page `i / limit + 1`: that page
   * skips fewer than `i + 1` rows and takes it, and it is not beyond `lastPage`.
   */
  lemma {:induction false} EveryRowOnSomePage(total: nat, limit: int, i: nat)
    requires limit > 0 && i < total
    ensures var page := i / limit + 1;
      && Skip(page, limit) <= i < Skip(page, limit) + limit
      && 1 <= page <= LastPage(total, limit).value
  {
    var page := i / limit + 1;
    assert Skip(page, limit) == (i / limit) * limit;
    assert i == (i / limit) * limit + i % limit;
    LastPageIsCeiling(total, limit);
  }
}
