/** The item directory: the public filtered and paginated listing, single
    lookup, and the owner's create, update, delete and "my items" handlers,
    over a store of items keyed by id. */
module ItemRoutes {
  import opened Common
  import opened ItemModel
  import opened Listing

  /** The query string of the public listing, each parameter `None` when
      absent. An empty `search` or `category` is `Some("")`, which adds no
      filter; `page` and `limit` default to 1 and 12 when absent. Price
      bounds and page numbers are numbers already: the coercion of query
      strings is not part of this model. */
  datatype ItemListQuery = ItemListQuery(
    search: Option<string>,
    category: Option<string>,
    minPrice: Option<int>,
    maxPrice: Option<int>,
    page: Option<nat>,
    limit: Option<nat>)

  /** The database filter the listing builds. Availability is always required. */
  datatype ItemFilter = ItemFilter(
    text: Option<string>,
    category: Option<string>,
    minPrice: Option<int>,
    maxPrice: Option<int>)

  /** The full-text search of the database, given the search string and an
      item's title and description (the two indexed fields). */
  type TextSearch = (string, string, string) -> bool

  /** Whether an item matches a listing filter. */
  predicate ItemMatches(f: ItemFilter, search: TextSearch, it: Item) {
    && it.available
    && (f.text.None? || search(f.text.value, it.title, it.description))
    && (f.category.None? || CategoryName(it.category) == f.category.value)
    && (f.minPrice.None? || f.minPrice.value <= it.price)
    && (f.maxPrice.None? || it.price <= f.maxPrice.value)
  }

  /** The filter the listing handler builds from a query: availability is
      always required, and each other condition is added only when its
      parameter is given. */
  function FilterFor(q: ItemListQuery): ItemFilter {
    ItemFilter(
      if Truthy(q.search) then q.search else None,
      if Truthy(q.category) then q.category else None,
      q.minPrice,
      q.maxPrice)
  }

  /** The listing handler's construction of its filter, one condition at a
      time: every item must be available; search, category and each price
      bound are added only when given. */
  method BuildFilter(q: ItemListQuery) returns (f: ItemFilter)
    ensures f == FilterFor(q)
    ensures f.text.Some? <==> Truthy(q.search)
    ensures f.category.Some? <==> Truthy(q.category)
    ensures f.minPrice == q.minPrice && f.maxPrice == q.maxPrice
  {
    f := ItemFilter(None, None, None, None);
    if Truthy(q.search) {
      f := f.(text := q.search);
    }
    if Truthy(q.category) {
      f := f.(category := q.category);
    }
    if q.minPrice.Some? || q.maxPrice.Some? {
      if q.minPrice.Some? {
        f := f.(minPrice := q.minPrice);
      }
      if q.maxPrice.Some? {
        f := f.(maxPrice := q.maxPrice);
      }
    }
  }

  /** `ItemMatches` as a selection test. */
  function Keep(f: ItemFilter, search: TextSearch): Item -> bool {
    (it: Item) => ItemMatches(f, search, it)
  }

  /** Ownership as a selection test. */
  function OwnedBy(owner: UserId): Item -> bool {
    (it: Item) => it.owner == owner
  }

  /** The listing's answer: one page of items, the page count, the page
      number echoed back, and the number of matching items. */
  datatype ItemPage = ItemPage(
    items: seq<(ItemId, Item)>,
    totalPages: nat,
    currentPage: nat,
    total: nat)

  /** Every item of `m` meets the schema and has an id below `n`. */
  ghost predicate ItemsValid(m: map<ItemId, Item>, n: nat) {
    forall id :: id in m ==> id < n && ValidItem(m[id])
  }

  /** Storing a valid item under an issued id keeps a store valid. */
  lemma ItemsValidPut(m: map<ItemId, Item>, n: nat, id: ItemId, it: Item)
    requires ItemsValid(m, n) && id < n && ValidItem(it)
    ensures ItemsValid(m[id := it], n)
  {
  }

  const DEFAULT_PAGE: nat := 1
  const DEFAULT_LIMIT: nat := 12

  class ItemStore {
    var items: map<ItemId, Item>
    var nextId: ItemId

    /** Every stored item meets the schema, and ids are issued below `nextId`. */
    ghost predicate Valid()
      reads this
    {
      ItemsValid(items, nextId)
    }

    constructor ()
      ensures Valid() && items == map[] && nextId == 0
    {
      items := map[];
      nextId := 0;
    }

    /** All items matching `f`, newest first. */
    function Matching(f: ItemFilter, search: TextSearch): seq<(ItemId, Item)>
      reads this
    {
      Select(items, Keep(f, search), nextId)
    }

    /** GET /api/items: the available items that pass the optional text,
        exact-category and inclusive price filters, newest first, cut to the
        requested page. */
    method List(q: ItemListQuery, search: TextSearch) returns (r: ItemPage)
      requires Valid()
      requires q.page.GetOr(DEFAULT_PAGE) >= 1 && q.limit.GetOr(DEFAULT_LIMIT) >= 1
      ensures r.items == Page(Matching(FilterFor(q), search), q.page.GetOr(DEFAULT_PAGE), q.limit.GetOr(DEFAULT_LIMIT))
      ensures r.total == |Matching(FilterFor(q), search)|
      ensures r.currentPage == q.page.GetOr(DEFAULT_PAGE)
      ensures r.totalPages == TotalPages(r.total, q.limit.GetOr(DEFAULT_LIMIT))
      ensures |r.items| <= q.limit.GetOr(DEFAULT_LIMIT)
      ensures forall k :: 0 <= k < |r.items| ==>
        && r.items[k].0 in items && items[r.items[k].0] == r.items[k].1
        && r.items[k].1.available
        && (Truthy(q.category) ==> CategoryName(r.items[k].1.category) == q.category.value)
        && (q.minPrice.Some? ==> q.minPrice.value <= r.items[k].1.price)
        && (q.maxPrice.Some? ==> r.items[k].1.price <= q.maxPrice.value)
        && (Truthy(q.search) ==> search(q.search.value, r.items[k].1.title, r.items[k].1.description))
      ensures forall i, j :: 0 <= i < j < |r.items| ==> r.items[i].0 > r.items[j].0
    {
      var f := BuildFilter(q);
      var page, limit := q.page.GetOr(DEFAULT_PAGE), q.limit.GetOr(DEFAULT_LIMIT);
      var matching := Matching(f, search);
      var count := |matching|;
      r := ItemPage(Page(matching, page, limit), TotalPages(count, limit), page, count);
      PageFacts(f, search, page, limit);
    }

    /** What every entry of a page of the listing satisfies, and its order. */
    lemma PageFacts(f: ItemFilter, search: TextSearch, page: nat, limit: nat)
      requires page >= 1 && limit >= 1
      ensures var p := Page(Matching(f, search), page, limit);
        forall k :: 0 <= k < |p| ==>
          p[k].0 in items && items[p[k].0] == p[k].1 && ItemMatches(f, search, p[k].1)
      ensures var p := Page(Matching(f, search), page, limit);
        forall i, j :: 0 <= i < j < |p| ==> p[i].0 > p[j].0
    {
      var matching := Matching(f, search);
      var p := Page(matching, page, limit);
      SelectSpec(items, Keep(f, search), nextId);
      forall k | 0 <= k < |p|
        ensures p[k].0 in items && items[p[k].0] == p[k].1 && ItemMatches(f, search, p[k].1)
      {
        assert p[k] == matching[Skip(page, limit) + k];
        assert Keep(f, search)(p[k].1);
      }
      forall i, j | 0 <= i < j < |p| ensures p[i].0 > p[j].0 {
        assert p[i] == matching[Skip(page, limit) + i] && p[j] == matching[Skip(page, limit) + j];
      }
    }

    /** GET /api/items/:id: the item whatever its availability. */
    method Get(id: ItemId) returns (r: Result<Item, Error>)
      ensures id in items ==> r == Ok(items[id])
      ensures id !in items ==> r == Err(NotFound)
    {
      if id !in items {
        return Err(NotFound);
      }
      r := Ok(items[id]);
    }

    /** POST /api/items: stores the body as a new item owned by the caller,
        whatever owner the body names. */
    method Create(caller: Caller, body: ItemInput) returns (r: Result<ItemId, Error>)
      requires Valid()
      modifies this
      ensures Valid()
      ensures var built := BuildItem(body.(owner := Some(caller.id)));
        && (built.Err? ==> r == Err(Invalid(built.error)) && items == old(items) && nextId == old(nextId))
        && (built.Ok? ==>
             && r == Ok(old(nextId)) && nextId == old(nextId) + 1
             && old(nextId) !in old(items)
             && items == old(items)[old(nextId) := built.value]
             && built.value.owner == caller.id)
    {
      var built := BuildItem(body.(owner := Some(caller.id)));
      if built.Err? {
        return Err(Invalid(built.error));
      }
      ItemsValidPut(items, nextId + 1, nextId, built.value);
      items := items[nextId := built.value];
      r := Ok(nextId);
      nextId := nextId + 1;
    }

    /** Whether the caller may change or remove an item it found. */
    static predicate MayManage(caller: Caller, it: Item) {
      it.owner == caller.id || caller.role == AdminRole
    }

    /** PUT /api/items/:id: the owner or an admin overwrites the fields the
        body gives, subject to the schema. */
    method Update(caller: Caller, id: ItemId, body: ItemInput) returns (r: Result<Item, Error>)
      requires Valid()
      modifies this
      ensures Valid() && nextId == old(nextId)
      ensures id !in old(items) ==> r == Err(NotFound) && items == old(items)
      ensures id in old(items) && !MayManage(caller, old(items)[id]) ==>
        r == Err(Forbidden) && items == old(items)
      ensures id in old(items) && MayManage(caller, old(items)[id]) ==>
        var u := Updated(old(items)[id], body);
        && (u.Err? ==> r == Err(Invalid(u.error)) && items == old(items))
        && (u.Ok? ==> r == Ok(u.value) && items == old(items)[id := u.value])
    {
      if id !in items {
        return Err(NotFound);
      }
      if !MayManage(caller, items[id]) {
        return Err(Forbidden);
      }
      var u := Updated(items[id], body);
      if u.Err? {
        return Err(Invalid(u.error));
      }
      Put(id, u.value);
      r := Ok(u.value);
    }

    /** Writes a valid item under an issued id. */
    method Put(id: ItemId, it: Item)
      requires Valid() && id < nextId && ValidItem(it)
      modifies this
      ensures Valid() && items == old(items)[id := it] && nextId == old(nextId)
    {
      ItemsValidPut(items, nextId, id, it);
      items := items[id := it];
    }

    /** DELETE /api/items/:id: the owner or an admin removes the item; no
        booking that refers to it is touched. */
    method Delete(caller: Caller, id: ItemId) returns (r: Result<ItemId, Error>)
      requires Valid()
      modifies this
      ensures Valid() && nextId == old(nextId)
      ensures id !in old(items) ==> r == Err(NotFound) && items == old(items)
      ensures id in old(items) && !MayManage(caller, old(items)[id]) ==>
        r == Err(Forbidden) && items == old(items)
      ensures id in old(items) && MayManage(caller, old(items)[id]) ==>
        r == Ok(id) && items == old(items) - {id}
    {
      if id !in items {
        return Err(NotFound);
      }
      if !MayManage(caller, items[id]) {
        return Err(Forbidden);
      }
      items := items - {id};
      r := Ok(id);
    }

    /** GET /api/items/owner/me: every item the caller owns, available or
        not, newest first. */
    method MyItems(caller: Caller) returns (r: seq<(ItemId, Item)>)
      requires Valid()
      ensures forall k :: 0 <= k < |r| ==> r[k].0 in items && items[r[k].0] == r[k].1 && r[k].1.owner == caller.id
      ensures forall id :: id in items && items[id].owner == caller.id ==> (id, items[id]) in r
      ensures forall i, j :: 0 <= i < j < |r| ==> r[i].0 > r[j].0
    {
      r := Select(items, OwnedBy(caller.id), nextId);
      SelectSpec(items, OwnedBy(caller.id), nextId);
      forall k | 0 <= k < |r| ensures r[k].1.owner == caller.id {
        assert OwnedBy(caller.id)(r[k].1);
      }
      forall id | id in items && items[id].owner == caller.id ensures (id, items[id]) in r {
        assert id < nextId && OwnedBy(caller.id)(items[id]);
      }
    }
  }
}
