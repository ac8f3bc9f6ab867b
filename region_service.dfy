/**
 * `RegionService` (restaraunt-backend/src/region/region.service.ts): the searched, paged
 * region list and the error mapping of the single-row operations. The database is a map
 * from id to row; a database fault is an optional message passed in.
 */
module RegionService {
  import opened Wrappers
  import opened Http
  import opened Paging
  import Js

  const CREATE_FAILED: string := "Region yaratishda xatolik yuz berdi"
  const LIST_FAILED: string := "Regions not exists yet!"
  const FIND_ONE_FAILED: string := "Regionni olishda xatolik"
  const UPDATE_FAILED: string := "Regionni yangilashda xatolik"
  const REMOVE_FAILED: string := "Regionni o\U{2018}chirishda xatolik"

  /** The default page size of the region list. */
  const DEFAULT_LIMIT: int := 50

  datatype Region = Region(id: string, name: string)

  /** The four parameters the controller forwards unchanged. */
  datatype ListQuery = ListQuery(search: Option<string>, sort: Option<SortOrder>, page: Option<int>, limit: Option<int>)

  /** The name filter of both queries. */
  datatype Where = Where(nameContains: string)

  datatype FindMany = FindMany(where: Where, orderByName: SortOrder, skip: int, take: int)

  datatype Meta = Meta(total: nat, page: int, limit: int, lastPage: Ceiling)

  datatype Page = Page(data: seq<Region>, meta: Meta)

  predicate Matches(r: Region, w: Where) {
    Js.Includes(r.name, w.nameContains)
  }

  /** `const { search = '', sort = 'asc', page = 1, limit = 50 } = query`. */
  function ArgsOf(q: ListQuery): FindMany {
    var search := if q.search.Some? then q.search.value else "";
    var sort := if q.sort.Some? then q.sort.value else Asc;
    var page := if q.page.Some? then q.page.value else 1;
    var limit := if q.limit.Some? then q.limit.value else DEFAULT_LIMIT;
    FindMany(Where(search), sort, Skip(page, limit), limit)
  }

  function PageOf(q: ListQuery): int { if q.page.Some? then q.page.value else 1 }

  /**
   * `findAll(query)`: the page and the total are asked with the same name filter; any
   * failure of either becomes one 400.
   */
  function FindAll(q: ListQuery, findMany: FindMany -> Result<seq<Region>, string>, count: Where -> Result<nat, string>)
    : (r: Result<Page, Failure>)
    ensures r.Failure? <==> findMany(ArgsOf(q)).Failure? || count(ArgsOf(q).where).Failure?
    ensures r.Failure? ==> r.error == BadRequest(LIST_FAILED)
    ensures r.Success? ==>
      var args := ArgsOf(q);
      var total := count(args.where).value;
      && r.value.data == findMany(args).value
      && r.value.meta.total == total && r.value.meta.page == PageOf(q) && r.value.meta.limit == args.take
      && (args.take > 0 ==>
            && r.value.meta.lastPage.Finite?
            && r.value.meta.lastPage.value * args.take >= total
            && (r.value.meta.lastPage.value - 1) * args.take < total)
  {
    var args := ArgsOf(q);
    match findMany(args)
    case Failure(_) => Failure(BadRequest(LIST_FAILED))
    case Success(regions) =>
      match count(args.where)
      case Failure(_) => Failure(BadRequest(LIST_FAILED))
      case Success(total) =>
        var lastPage := LastPage(total, args.take);
        if args.take > 0 then
          LastPageIsCeiling(total, args.take);
          Success(Page(regions, Meta(total, PageOf(q), args.take, lastPage)))
        else
          Success(Page(regions, Meta(total, PageOf(q), args.take, lastPage)))
  }

  /**
   * Without parameters every region matches and the first fifty are asked for, by name
   * ascending; page `p` of size `l` skips `(p - 1) * l` rows and takes `l`.
   */
  lemma DefaultsAndPaging(r: Region, p: int, l: int)
    ensures var args := ArgsOf(ListQuery(None, None, None, None));
      Matches(r, args.where) && args.orderByName == Asc && args.skip == 0 && args.take == 50
    ensures var args := ArgsOf(ListQuery(None, None, Some(p), Some(l)));
      args.skip == (p - 1) * l && args.take == l
  {
    Js.IncludesEmpty(r.name);
  }

  /** The region table and the operations that change it. */
  class RegionTable {
    var rows: map<string, Region>

    /** Every row is filed under its own id. */
    ghost predicate Valid()
      reads this
    {
      forall id :: id in rows ==> rows[id].id == id
    }

    constructor ()
      ensures Valid() && rows == map[]
    {
      rows := map[];
    }

    /** `create(data)`: any database fault becomes a 400 with a fixed message, and nothing is stored. */
    method Create(name: string, newId: string, fault: Option<string>) returns (r: Result<Region, Failure>)
      requires Valid() && newId !in rows
      modifies this
      ensures Valid()
      ensures fault.Some? ==> r == Failure(BadRequest(CREATE_FAILED)) && rows == old(rows)
      ensures fault.None? ==> r == Success(Region(newId, name)) && rows == old(rows)[newId := r.value]
    {
      if fault.Some? {
        return Failure(BadRequest(CREATE_FAILED));
      }
      var region := Region(newId, name);
      rows := rows[newId := region];
      r := Success(region);
    }

    /** `findOne(id)`: a missing row, like any fault, ends in a 500 rather than a 404. */
    function FindOne(id: string, fault: Option<string>): (r: Result<Region, Failure>)
      reads this
      ensures r.Success? <==> fault.None? && id in rows
      ensures r.Success? ==> r.value == rows[id] && (Valid() ==> r.value.id == id)
      ensures r.Failure? ==> r.error == HttpError(INTERNAL_SERVER_ERROR, FIND_ONE_FAILED)
    {
      if fault.Some? || id !in rows then Failure(HttpError(INTERNAL_SERVER_ERROR, FIND_ONE_FAILED))
      else Success(rows[id])
    }

    /** `update(id, data)`: a supplied name overwrites the row's; a missing row or a fault is a 400. */
    method Update(id: string, name: Option<string>, fault: Option<string>) returns (r: Result<Region, Failure>)
      requires Valid()
      modifies this
      ensures Valid()
      ensures fault.Some? || id !in old(rows) ==> r == Failure(BadRequest(UPDATE_FAILED)) && rows == old(rows)
      ensures fault.None? && id in old(rows) ==>
        var updated := Region(id, if name.Some? then name.value else old(rows)[id].name);
        r == Success(updated) && rows == old(rows)[id := updated]
    {
      if fault.Some? || id !in rows {
        return Failure(BadRequest(UPDATE_FAILED));
      }
      var updated := rows[id];
      if name.Some? { updated := updated.(name := name.value); }
      rows := rows[id := updated];
      r := Success(updated);
    }

    /** `remove(id)`: the deleted row comes back; a missing row or a fault is a 400. */
    method Remove(id: string, fault: Option<string>) returns (r: Result<Region, Failure>)
      requires Valid()
      modifies this
      ensures Valid()
      ensures fault.Some? || id !in old(rows) ==> r == Failure(BadRequest(REMOVE_FAILED)) && rows == old(rows)
      ensures fault.None? && id in old(rows) ==> r == Success(old(rows)[id]) && rows == old(rows) - {id}
    {
      if fault.Some? || id !in rows {
        return Failure(BadRequest(REMOVE_FAILED));
      }
      r := Success(rows[id]);
      rows := rows - {id};
    }
  }
}
