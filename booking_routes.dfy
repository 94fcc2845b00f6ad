/** The booking engine: creating a booking for an available item, the
    caller's booking list, single lookup, and the confirm, cancel and
    complete transitions, over a store of bookings keyed by id. */
module BookingRoutes {
  import opened Common
  import opened ItemModel
  import opened BookingModel
  import opened Listing
  import ItemRoutes

  /** The body of a booking request. */
  datatype BookingRequest = BookingRequest(
    item: ItemId,
    startDate: int,
    pickupLocation: Option<string>,
    returnLocation: Option<string>,
    notes: Option<string>)

  /** The document the create handler writes for an item: a window of
      exactly 24 hours from the requested start, the item's price and deposit
      copied in and summed, the caller as renter, the item's owner as owner,
      and the item's location wherever the request gives no (or an empty)
      pickup or return location. */
  function CreationInput(itemId: ItemId, item: Item, renter: UserId, req: BookingRequest): (d: BookingInput)
    requires ValidItem(item)
    ensures Build(d).Ok?
    ensures var b := Build(d).value;
      && b.item == itemId && b.renter == renter && b.owner == item.owner
      && b.startDate == req.startDate && b.endDate == req.startDate + DAY_MS
      && b.totalHours == 24
      && b.rentalPrice == item.price && b.deposit == item.deposit
      && b.totalAmount == b.rentalPrice + b.deposit
      && b.status == Pending && b.paymentStatus == Unpaid && b.paymentIntentId == None
      && (Truthy(req.pickupLocation) ==> b.pickupLocation == req.pickupLocation)
      && (!Truthy(req.pickupLocation) ==> b.pickupLocation == Some(item.location))
      && (Truthy(req.returnLocation) ==> b.returnLocation == req.returnLocation)
      && (!Truthy(req.returnLocation) ==> b.returnLocation == Some(item.location))
      && b.notes == req.notes
  {
    var start := req.startDate;
    var end := start + DAY_MS;
    var rentalPrice := item.price;
    // `item.deposit || 0`: a stored deposit is always a number, so this is the deposit itself
    var deposit := item.deposit;
    var totalAmount := rentalPrice + deposit;
    BookingInput(
      Some(itemId), Some(renter), Some(item.owner),
      Some(start), Some(end), Some(24),
      Some(rentalPrice), Some(deposit), Some(totalAmount),
      None, None, None,
      Some(OrElse(req.pickupLocation, item.location)),
      Some(OrElse(req.returnLocation, item.location)),
      req.notes)
  }

  /** What every stored booking satisfies, since only the create handler
      inserts bookings and the transitions change nothing but the status. */
  predicate WellFormed(b: Booking) {
    && b.endDate == b.startDate + DAY_MS
    && b.totalHours == 24
    && b.totalAmount == b.rentalPrice + b.deposit
    && b.rentalPrice >= 0 && b.deposit >= 0
    && b.pickupLocation.Some? && b.returnLocation.Some?
    && b.paymentStatus == Unpaid && b.paymentIntentId.None?
  }

  /** Every booking of `m` is well formed and has an id below `n`. */
  ghost predicate BookingsValid(m: map<BookingId, Booking>, n: nat) {
    forall id :: id in m ==> id < n && WellFormed(m[id])
  }

  /** The database filter the list handler builds. */
  datatype BookingQuery = BookingQuery(
    owner: Option<UserId>,
    renter: Option<UserId>,
    status: Option<string>)

  /** The filter for a caller, a `role` parameter and a `status` parameter:
      the caller as owner when role is "owner", as renter otherwise; the
      status only when one is given. */
  function QueryFor(caller: Caller, role: Option<string>, status: Option<string>): BookingQuery {
    BookingQuery(
      if role == Some("owner") then Some(caller.id) else None,
      if role == Some("owner") then None else Some(caller.id),
      if Truthy(status) then status else None)
  }

  /** Whether a booking matches a filter: every condition given holds. */
  predicate BookingMatches(q: BookingQuery, b: Booking) {
    && (q.owner.None? || b.owner == q.owner.value)
    && (q.renter.None? || b.renter == q.renter.value)
    && (q.status.None? || StatusName(b.status) == q.status.value)
  }

  /** `BookingMatches` as a selection test. */
  function Keep(q: BookingQuery): Booking -> bool {
    (b: Booking) => BookingMatches(q, b)
  }

  /** The list handler's construction of its filter, one condition at a time. */
  method BuildQuery(caller: Caller, role: Option<string>, status: Option<string>) returns (q: BookingQuery)
    ensures q == QueryFor(caller, role, status)
    ensures role == Some("owner") ==> q.owner == Some(caller.id) && q.renter.None?
    ensures role != Some("owner") ==> q.renter == Some(caller.id) && q.owner.None?
    ensures q.status.Some? <==> Truthy(status)
  {
    q := BookingQuery(None, None, None);
    if role == Some("owner") {
      q := q.(owner := Some(caller.id));
    } else {
      q := q.(renter := Some(caller.id));
    }
    if Truthy(status) {
      q := q.(status := status);
    }
  }

  /** Who may read a booking: its renter, its owner, or an admin. */
  predicate MayView(caller: Caller, b: Booking) {
    b.renter == caller.id || b.owner == caller.id || caller.role == AdminRole
  }

  /** Who may confirm or complete a booking: its owner only. */
  predicate MayDecide(caller: Caller, b: Booking) {
    b.owner == caller.id
  }

  /** Who may cancel a booking: its renter or its owner; admins get no bypass. */
  predicate MayCancel(caller: Caller, b: Booking) {
    b.renter == caller.id || b.owner == caller.id
  }

  class BookingStore {
    var bookings: map<BookingId, Booking>
    var nextId: BookingId

    ghost predicate Valid()
      reads this
    {
      BookingsValid(bookings, nextId)
    }

    constructor ()
      ensures Valid() && bookings == map[] && nextId == 0
    {
      bookings := map[];
      nextId := 0;
    }

    /** POST /api/bookings: books an existing, available item for the 24
        hours from the requested start. The item itself is left as it was;
        in particular it stays available. */
    method Create(catalog: ItemRoutes.ItemStore, caller: Caller, req: BookingRequest) returns (r: Result<BookingId, Error>)
      requires Valid() && catalog.Valid()
      modifies this
      ensures Valid()
      ensures catalog.items == old(catalog.items)
      ensures req.item !in catalog.items ==>
        r == Err(NotFound) && bookings == old(bookings) && nextId == old(nextId)
      ensures req.item in catalog.items && !catalog.items[req.item].available ==>
        r == Err(InvalidState) && bookings == old(bookings) && nextId == old(nextId)
      ensures req.item in catalog.items && catalog.items[req.item].available ==>
        && r == Ok(old(nextId)) && nextId == old(nextId) + 1
        && old(nextId) !in old(bookings)
        && bookings == old(bookings)[old(nextId) := Build(CreationInput(req.item, catalog.items[req.item], caller.id, req)).value]
    {
      if req.item !in catalog.items {
        return Err(NotFound);
      }
      var item := catalog.items[req.item];
      if !item.available {
        return Err(InvalidState);
      }
      var doc := new BookingDocument(CreationInput(req.item, item, caller.id, req));
      var saved := doc.Save();
      assert saved.Ok?;
      Insert(saved.value);
      r := Ok(nextId - 1);
    }

    /** Stores a well-formed booking under the next id. */
    method Insert(b: Booking)
      requires Valid() && WellFormed(b)
      modifies this
      ensures Valid()
      ensures nextId == old(nextId) + 1 && old(nextId) !in old(bookings)
      ensures bookings == old(bookings)[old(nextId) := b]
    {
      bookings := bookings[nextId := b];
      nextId := nextId + 1;
    }

    /** All bookings matching `q`, newest first. */
    function Matching(q: BookingQuery): seq<(BookingId, Booking)>
      reads this
    {
      Select(bookings, Keep(q), nextId)
    }

    /** GET /api/bookings: the bookings the caller owns (role "owner") or
        rents (any other role), optionally of one status, newest first. */
    method List(caller: Caller, role: Option<string>, status: Option<string>) returns (r: seq<(BookingId, Booking)>)
      requires Valid()
      ensures r == Matching(QueryFor(caller, role, status))
      ensures forall k :: 0 <= k < |r| ==>
        && r[k].0 in bookings && bookings[r[k].0] == r[k].1
        && (role == Some("owner") ==> r[k].1.owner == caller.id)
        && (role != Some("owner") ==> r[k].1.renter == caller.id)
        && (Truthy(status) ==> StatusName(r[k].1.status) == status.value)
      ensures forall id :: id in bookings && BookingMatches(QueryFor(caller, role, status), bookings[id]) ==>
        (id, bookings[id]) in r
      ensures forall i, j :: 0 <= i < j < |r| ==> r[i].0 > r[j].0
    {
      var q := BuildQuery(caller, role, status);
      r := Matching(q);
      SelectSpec(bookings, Keep(q), nextId);
      forall k | 0 <= k < |r| ensures BookingMatches(q, r[k].1) {
        assert Keep(q)(r[k].1);
      }
      forall id | id in bookings && BookingMatches(q, bookings[id]) ensures (id, bookings[id]) in r {
        assert id < nextId && Keep(q)(bookings[id]);
      }
    }

    /** GET /api/bookings/:id: the booking, for its renter, its owner or an admin. */
    method Get(caller: Caller, id: BookingId) returns (r: Result<Booking, Error>)
      ensures id !in bookings ==> r == Err(NotFound)
      ensures id in bookings && !MayView(caller, bookings[id]) ==> r == Err(Forbidden)
      ensures id in bookings && MayView(caller, bookings[id]) ==> r == Ok(bookings[id])
    {
      if id !in bookings {
        return Err(NotFound);
      }
      var b := bookings[id];
      if !MayView(caller, b) {
        return Err(Forbidden);
      }
      r := Ok(b);
    }

    /** Loads a booking, assigns its status and saves it: validation passes
        and the hook leaves a stored document alone, so exactly the status
        changes. */
    method SetStatus(id: BookingId, status: BookingStatus) returns (b: Booking)
      requires Valid() && id in bookings
      modifies this
      ensures Valid() && nextId == old(nextId)
      ensures b == old(bookings)[id].(status := status)
      ensures bookings == old(bookings)[id := b]
    {
      var doc := new BookingDocument.Loaded(bookings[id]);
      doc.fields := doc.fields.(status := Some(StatusName(status)));
      assert doc.fields == BookingModel.InputOf(bookings[id].(status := status));
      var saved := doc.Save();
      b := saved.value;
      bookings := bookings[id := b];
    }

    /** PUT /api/bookings/:id/confirm: the owner sets the status to
        confirmed, whatever it was. */
    method Confirm(caller: Caller, id: BookingId) returns (r: Result<Booking, Error>)
      requires Valid()
      modifies this
      ensures Valid() && nextId == old(nextId)
      ensures id !in old(bookings) ==> r == Err(NotFound) && bookings == old(bookings)
      ensures id in old(bookings) && !MayDecide(caller, old(bookings)[id]) ==>
        r == Err(Forbidden) && bookings == old(bookings)
      ensures id in old(bookings) && MayDecide(caller, old(bookings)[id]) ==>
        && r == Ok(old(bookings)[id].(status := Confirmed))
        && bookings == old(bookings)[id := r.value]
    {
      if id !in bookings {
        return Err(NotFound);
      }
      if !MayDecide(caller, bookings[id]) {
        return Err(Forbidden);
      }
      var b := SetStatus(id, Confirmed);
      r := Ok(b);
    }

    /** PUT /api/bookings/:id/cancel: the renter or the owner sets the
        status to cancelled, whatever it was. */
    method Cancel(caller: Caller, id: BookingId) returns (r: Result<Booking, Error>)
      requires Valid()
      modifies this
      ensures Valid() && nextId == old(nextId)
      ensures id !in old(bookings) ==> r == Err(NotFound) && bookings == old(bookings)
      ensures id in old(bookings) && !MayCancel(caller, old(bookings)[id]) ==>
        r == Err(Forbidden) && bookings == old(bookings)
      ensures id in old(bookings) && MayCancel(caller, old(bookings)[id]) ==>
        && r == Ok(old(bookings)[id].(status := Cancelled))
        && bookings == old(bookings)[id := r.value]
    {
      if id !in bookings {
        return Err(NotFound);
      }
      if !MayCancel(caller, bookings[id]) {
        return Err(Forbidden);
      }
      var b := SetStatus(id, Cancelled);
      r := Ok(b);
    }

    /** PUT /api/bookings/:id/complete: the owner sets the status to
        completed, whatever it was. */
    method Complete(caller: Caller, id: BookingId) returns (r: Result<Booking, Error>)
      requires Valid()
      modifies this
      ensures Valid() && nextId == old(nextId)
      ensures id !in old(bookings) ==> r == Err(NotFound) && bookings == old(bookings)
      ensures id in old(bookings) && !MayDecide(caller, old(bookings)[id]) ==>
        r == Err(Forbidden) && bookings == old(bookings)
      ensures id in old(bookings) && MayDecide(caller, old(bookings)[id]) ==>
        && r == Ok(old(bookings)[id].(status := Completed))
        && bookings == old(bookings)[id := r.value]
    {
      if id !in bookings {
        return Err(NotFound);
      }
      if !MayDecide(caller, bookings[id]) {
        return Err(Forbidden);
      }
      var b := SetStatus(id, Completed);
      r := Ok(b);
    }
  }
}

/** A client of both stores: a renter books an item listed at 100 with a
    deposit of 20, the owner confirms and the renter then cancels; the owner
    then reprices the item and deletes it, and the booking keeps its snapshot.
    What each step guarantees follows from the handlers' contracts alone. */
module RentalScenario {
  import opened Common
  import opened BookingModel
  import ItemModel
  import ItemRoutes
  import BookingRoutes

  method BookingLifecycle(items: ItemRoutes.ItemStore, itemId: ItemId, start: int)
    requires items.Valid() && itemId in items.items
    requires var it := items.items[itemId];
      it.price == 100 && it.deposit == 20 && it.available && it.owner == 1
    modifies items
  {
    var owner := Caller(1, OwnerRole);
    var renter := Caller(2, RenterRole);
    var bookings := new BookingRoutes.BookingStore();

    var req := BookingRoutes.BookingRequest(itemId, start, None, None, None);
    var booked := bookings.Create(items, renter, req);
    var id := booked.value;
    assert bookings.bookings[id].totalAmount == 120;
    assert bookings.bookings[id].endDate == start + DAY_MS;
    assert bookings.bookings[id].pickupLocation == Some(items.items[itemId].location);
    assert items.items[itemId].available;

    var confirmed := bookings.Confirm(owner, id);
    assert confirmed.Ok? && bookings.bookings[id].status == Confirmed;

    var refused := bookings.Complete(renter, id);
    assert refused == Err(Forbidden);

    var cancelled := bookings.Cancel(renter, id);
    assert cancelled.Ok? && bookings.bookings[id].status == Cancelled;
    assert bookings.bookings[id].totalAmount == 120;

    RepriceThenDelete(items, bookings, itemId, id);
  }

  /** The owner reprices a booked item and then deletes it; the booking keeps
      the price it was made at and its reference to the deleted item. */
  method RepriceThenDelete(items: ItemRoutes.ItemStore, bookings: BookingRoutes.BookingStore, itemId: ItemId, id: BookingId)
    requires items.Valid() && itemId in items.items && items.items[itemId].owner == 1
    requires id in bookings.bookings && bookings.bookings[id].item == itemId
    requires bookings.bookings[id].rentalPrice == 100 && bookings.bookings[id].totalAmount == 120
    modifies items
  {
    var owner := Caller(1, OwnerRole);
    var repriced := items.Update(owner, itemId, ItemModel.EmptyInput.(price := Some(150)));
    assert repriced.Ok? && items.items[itemId].price == 150 && items.items[itemId].owner == 1;
    assert bookings.bookings[id].rentalPrice == 100 && bookings.bookings[id].totalAmount == 120;

    var removed := items.Delete(owner, itemId);
    assert removed == Ok(itemId) && itemId !in items.items;
    assert id in bookings.bookings && bookings.bookings[id].item == itemId;
  }
}
