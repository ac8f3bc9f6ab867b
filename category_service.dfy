/**
 * `CategoryService` (restaraunt-backend/src/category/category.service.ts): the filtered,
 * paged category list and the error mapping of the single-row operations. The database is
 * a map from id to row; a fault the database raises (a broken reference, a lost
 * connection) is an optional message passed in.
 */
module CategoryService {
  import opened Wrappers
  import opened Http
  import opened Paging
  import Js

  const LIST_FAILED: string := "Category olishda xatolik!"
  const FIND_ONE_FAILED: string := "Categoryni olishda xatolik"
  const UPDATE_FAILED: string := "Categoryni yangilashda xatolik"
  const REMOVE_FAILED: string := "Categoryni o\U{2018}chirishda xatolik"

  datatype Category = Category(id: string, name: string, restaurantId: string, isActive: bool)

  datatype ListQuery = ListQuery(name: Option<string>, restaurantId: Option<string>, isActive: Option<bool>,
                                 sort: Option<SortOrder>, page: Option<int>, limit: Option<int>)

  /** The `where` of the list: a name fragment always, the other two only when set. */
  datatype Where = Where(nameContains: string, restaurantId: Option<string>, isActive: Option<bool>)

  datatype FindMany = FindMany(where: Where, orderByName: SortOrder, skip: int, take: int)

  datatype Meta = Meta(total: nat, page: int, limit: int, lastPage: Ceiling)

  datatype Page = Page(data: seq<Category>, meta: Meta)

  /** Whether a row satisfies a `where` (case-sensitive here). */
  predicate Matches(c: Category, w: Where) {
    && Js.Includes(c.name, w.nameContains)
    && (w.restaurantId.Some? ==> c.restaurantId == w.restaurantId.value)
    && (w.isActive.Some? ==> c.isActive == w.isActive.value)
  }

  function PageOf(q: ListQuery): int { if q.page.Some? then q.page.value else 1 }

  function LimitOf(q: ListQuery): int { if q.limit.Some? then q.limit.value else 10 }

  /** The `where` `findAll` ends up with for query `q`. */
  function WhereOf(q: ListQuery): Where {
    Where(if q.name.Some? then q.name.value else "",
          Js.KeepTruthy(q.restaurantId),
          q.isActive)
  }

  /** The list query `findAll` sends: defaults name '', sort 'asc', page 1, limit 10. */
  function ArgsOf(q: ListQuery): FindMany {
    FindMany(WhereOf(q), if q.sort.Some? then q.sort.value else Asc, Skip(PageOf(q), LimitOf(q)), LimitOf(q))
  }

  /**
   * A row is listed exactly when its name contains the fragment, it belongs to the
   * restaurant when a non-empty restaurantId is given, and its flag equals isActive when
   * that is given.
   */
  lemma WhereSemantics(q: ListQuery, c: Category)
    ensures Matches(c, WhereOf(q)) <==>
      && (q.name.Some? ==> Js.Includes(c.name, q.name.value))
      && (q.restaurantId.Some? && q.restaurantId.value != "" ==> c.restaurantId == q.restaurantId.value)
      && (q.isActive.Some? ==> c.isActive == q.isActive.value)
  {
    if q.name.None? { Js.IncludesEmpty(c.name); }
  }

  /** With no parameters every row matches and the first ten, by name ascending, are asked for. */
  lemma DefaultQuery(c: Category)
    ensures var args := ArgsOf(ListQuery(None, None, None, None, None, None));
      Matches(c, args.where) && args.orderByName == Asc && args.skip == 0 && args.take == 10
  {
    Js.IncludesEmpty(c.name);
  }

  /**
   * `findAll(query)`: builds the `where` field by field, asks `findMany` for the page and
   * `count` for the total under the same `where`, and adds `lastPage`. Any failure of the
   * two queries becomes one 400.
   */
  method FindAll(q: ListQuery, findMany: FindMany -> Result<seq<Category>, string>, count: Where -> Result<nat, string>)
    returns (r: Result<Page, Failure>)
    ensures r.Failure? <==> findMany(ArgsOf(q)).Failure? || count(ArgsOf(q).where).Failure?
    ensures r.Failure? ==> r.error == BadRequest(LIST_FAILED)
    ensures r.Success? ==>
      var total := count(ArgsOf(q).where).value;
      && r.value.data == findMany(ArgsOf(q)).value
      && r.value.meta == Meta(total, PageOf(q), LimitOf(q), LastPage(total, LimitOf(q)))
  {
    var name := if q.name.Some? then q.name.value else "";
    var sort := if q.sort.Some? then q.sort.value else Asc;
    var page := if q.page.Some? then q.page.value else 1;
    var limit := if q.limit.Some? then q.limit.value else 10;
    var where := Where(name, None, None);
    if q.restaurantId.Some? && q.restaurantId.value != "" {
      where := where.(restaurantId := q.restaurantId);
    }
    if q.isActive.Some? {
      where := where.(isActive := q.isActive);
    }
    var categories := findMany(FindMany(where, sort, (page - 1) * limit, limit));
    if categories.Failure? {
      return Failure(BadRequest(LIST_FAILED));
    }
    var total := count(where);
    if total.Failure? {
      return Failure(BadRequest(LIST_FAILED));
    }
    r := Success(Page(categories.value, Meta(total.value, page, limit, LastPage(total.value, limit))));
  }

  /** The category table and the operations that change it. */
  class CategoryTable {
    var rows: map<string, Category>

    /** Every row is filed under its own id. */
    ghost predicate Valid()
      reads this
    {
      forall id :: id in rows ==> rows[id].id == id
    }

    constructor ()
      ensures Valid() && rows == map[]
    {
      rows := map[];
    }

    /** `create(data)`: a database fault becomes a 400 carrying its message and nothing is stored. */
    method Create(name: string, restaurantId: string, isActive: bool, newId: string, fault: Option<string>)
      returns (r: Result<Category, Failure>)
      requires Valid() && newId !in rows
      modifies this
      ensures Valid()
      ensures fault.Some? ==> r == Failure(BadRequest(fault.value)) && rows == old(rows)
      ensures fault.None? ==> r == Success(Category(newId, name, restaurantId, isActive))
                              && rows == old(rows)[newId := r.value]
    {
      if fault.Some? {
        return Failure(BadRequest(fault.value));
      }
      var category := Category(newId, name, restaurantId, isActive);
      rows := rows[newId := category];
      r := Success(category);
    }

    /**
     * `findOne(id)`: a missing row throws a 404 inside the `try`, and the `catch` turns it,
     * like any fault, into a 500.
     */
    function FindOne(id: string, fault: Option<string>): (r: Result<Category, Failure>)
      reads this
      ensures r.Success? <==> fault.None? && id in rows
      ensures r.Success? ==> r.value == rows[id] && (Valid() ==> r.value.id == id)
      ensures r.Failure? ==> r.error == HttpError(INTERNAL_SERVER_ERROR, FIND_ONE_FAILED)
    {
      if fault.Some? || id !in rows then Failure(HttpError(INTERNAL_SERVER_ERROR, FIND_ONE_FAILED))
      else Success(rows[id])
    }

    /** `update(id, data)`: the supplied fields overwrite the row; a missing row or a fault is a 400. */
    method Update(id: string, name: Option<string>, restaurantId: Option<string>, isActive: Option<bool>,
                  fault: Option<string>)
      returns (r: Result<Category, Failure>)
      requires Valid()
      modifies this
      ensures Valid()
      ensures fault.Some? || id !in old(rows) ==> r == Failure(BadRequest(UPDATE_FAILED)) && rows == old(rows)
      ensures fault.None? && id in old(rows) ==>
        var c := old(rows)[id];
        var updated := Category(id, if name.Some? then name.value else c.name,
                                if restaurantId.Some? then restaurantId.value else c.restaurantId,
                                if isActive.Some? then isActive.value else c.isActive);
        r == Success(updated) && rows == old(rows)[id := updated]
    {
      if fault.Some? || id !in rows {
        return Failure(BadRequest(UPDATE_FAILED));
      }
      var updated := rows[id];
      if name.Some? { updated := updated.(name := name.value); }
      if restaurantId.Some? { updated := updated.(restaurantId := restaurantId.value); }
      if isActive.Some? { updated := updated.(isActive := isActive.value); }
      rows := rows[id := updated];
      r := Success(updated);
    }

    /** `remove(id)`: the deleted row comes back; a missing row or a fault is a 400. */
    method Remove(id: string, fault: Option<string>) returns (r: Result<Category, Failure>)
      requires Valid()
      modifies this
      ensures Valid()
      ensures fault.Some? || id !in old(rows) ==> r == Failure(BadRequest(REMOVE_FAILED)) && rows == old(rows)
      ensures fault.None? && id in old(rows) ==> r == Success(old(rows)[id]) && rows == old(rows) - {id}
    {
      if fault.Some? || id !in rows {
        return Failure(BadRequest(REMOVE_FAILED));
      }
      r := Success(rows[id]);
      rows := rows - {id};
    }
  }
}
