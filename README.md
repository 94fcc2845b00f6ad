# Rental marketplace: bookings and item directory

A model of the server side of a peer-to-peer rental marketplace. Owners list
items; renters book an item for a fixed 24-hour window; the owner confirms
or completes a booking, and either party may cancel it. The model covers
the two Express routers and the two Mongoose schemas behind them:

- `ItemModel` (the item schema): the category and condition enumerations,
  defaults, the trimmed required title, non-negative price and deposit, and
  how a request body becomes a stored item (`BuildItem`) or how an update
  body changes one (`Updated`).
- `BookingModel` (the booking schema): status and payment enumerations,
  required fields and defaults (`Build`), and `BookingDocument`, a class for
  a document in memory whose `Save` runs validation and then the pre-save
  hook that derives a missing end date.
- `Listing`: what both routers do with query results. A store is a map from
  increasing ids to records, so "newest first" is decreasing id order
  (`Select`). Pagination skips `(page - 1) * limit` results and keeps at most
  `limit` (`Page`); the page count is `ceil(count / limit)` (`TotalPages`).
- `ItemRoutes.ItemStore` (the item router): the public listing with its
  availability, text, category and inclusive price filters, plus get,
  create, update, delete and "my items".
- `BookingRoutes.BookingStore` (the booking router): create, list, get, and
  the confirm, cancel and complete transitions, each guarded first by
  not-found and then by an ownership check.
- `RentalScenario.BookingLifecycle`: a client of both stores that walks one
  booking through its life using only the handlers' contracts. The item is
  priced 100 with a deposit of 20, so the booking totals 120. The owner
  confirms it; the renter is refused completion and then cancels. The owner
  then reprices and deletes the item (`RepriceThenDelete`), and the booking
  keeps its price snapshot and its dangling item reference.

Two behaviours of the code are worth knowing:

- Mongoose runs validation as the first step of every save, before any
  user `pre('save')` hook. `endDate` is required, so a new booking without
  one is rejected before the hook could fill it in. The hook therefore
  never changes a document that is saved. `BookingDocument.Save` states
  this: the stored record is `Build` of the fields as they were before the
  save. The create handler always supplies the end date itself, so nothing
  it stores depends on the hook.
- The update handler hands the whole request body to the database, so an
  update body may set any field, `owner` included. `ItemStore.Update` keeps
  that: the new item is the body's fields laid over the stored ones and
  validated again.

No transition checks the current status: confirm, cancel and complete
succeed from any status, and no handler ever sets `Active`.

## Model

| member | source | states |
|---|---|---|
| Listing.Select | server/routes/items.js:32-36 | a query result has no more entries than ids issued, every id below the next unissued id (no id twice follows from `SelectDescending`) |
| Listing.SelectMembers | server/routes/items.js:32-36 | an entry is in the result exactly when it is stored and passes the filter |
| Listing.SelectDescending | server/routes/items.js:36 | results are in strictly decreasing id order, newest first |
| Listing.SelectSpec | server/routes/bookings.js:97-101 | soundness, completeness and newest-first order of a query result, for every entry at once |
| Listing.Page | server/routes/items.js:34-35 | a page has at most `limit` entries; entry k is result `(page-1)*limit + k`; a short page reaches the end of the results |
| Listing.TotalPages | server/routes/items.js:43 | the page count is the least n with n * limit >= count, i.e. ceil(count / limit) |
| Listing.PagedPrefix | server/routes/items.js:34-35 | pages 1..n together are exactly the first n * limit results |
| Listing.PagesCoverAll | server/routes/items.js:34-43 | walking pages 1..totalPages shows every result once, in order |
| Listing.PageBeyondLast | server/routes/items.js:34-43 | a page number above totalPages gives an empty page |
| ItemModel.ParseCategory | server/models/Item.js:13-18 | a category string is accepted exactly when it spells one of the six categories |
| ItemModel.ParseCondition | server/models/Item.js:49-53 | a condition string is accepted exactly when it spells one of the four conditions |
| ItemModel.EnumNamesRoundTrip | server/models/Item.js:13-53 | every category and condition parses back from its stored spelling |
| ItemModel.TrimStart | server/models/Item.js:7 | drops exactly the leading white space: a suffix whose first character is not white space |
| ItemModel.TrimEnd | server/models/Item.js:7 | drops exactly the trailing white space: a prefix whose last character is not white space |
| ItemModel.Trim | server/models/Item.js:7 | the trimmed title neither starts nor ends with white space |
| ItemModel.TrimIdempotent | server/models/Item.js:7 | trimming a trimmed title changes nothing |
| ItemModel.TrimEmptyIffBlank | server/models/Item.js:4-8 | a title is emptied by trimming exactly when it is all white space, which the required validator then rejects |
| ItemModel.CheckItem | server/models/Item.js:4-57 | the validators report no error exactly when the body satisfies every field constraint |
| ItemModel.AssembleItem | server/models/Item.js:4-57 | an admissible body with defaults applied gives an item meeting the stored-item invariant |
| ItemModel.BuildItem | server/models/Item.js:3-60 | creation succeeds iff the body is admissible; then title trimmed, price/owner/description/location copied, category default Other, condition default Good, deposit 0, available true, default image and terms, no features |
| ItemModel.InputOf | server/models/Item.js:3-60 | every valid stored item is rebuilt unchanged from its own fields |
| ItemModel.Updated | server/routes/items.js:128-131 | an update is accepted exactly when every given field is valid (`UpdateAdmissible`); then each of the twelve fields is the given value (title trimmed, enumerations parsed) or else the stored one, the result is a valid item, and an empty body changes nothing |
| ItemModel.OverlayOfStored | server/routes/items.js:128-131 | a body laid over a stored item's fields takes each given field and keeps each absent one, and passes full validation exactly when its given fields pass the update validators |
| BookingModel.ParseStatus | server/models/Booking.js:43-47 | a status string is accepted exactly when it is one of the five statuses |
| BookingModel.ParsePayment | server/models/Booking.js:48-52 | a payment status string is accepted exactly when it is one of pending, paid, refunded |
| BookingModel.StatusNamesRoundTrip | server/models/Booking.js:43-52 | every status and payment status parses back from its stored spelling |
| BookingModel.Build | server/models/Booking.js:3-67 | validation passes iff item, renter, owner, dates, rentalPrice and totalAmount are given and the enums hold; totalHours defaults to 24, deposit to 0, status and paymentStatus to pending |
| BookingModel.InputOf | server/models/Booking.js:3-67 | every stored booking validates again to itself, so a later save cannot fail |
| BookingModel.BookingDocument.constructor | server/routes/bookings.js:41 | a new document holds the given fields and is marked new |
| BookingModel.BookingDocument.Loaded | server/routes/bookings.js:159 | a document read from the store holds that booking's fields and is not new |
| BookingModel.BookingDocument.PreSave | server/models/Booking.js:70-75 | a new document without an end date gets start + 24 h; a document with an end date, or one that is not new, is left alone |
| BookingModel.BookingDocument.Save | server/models/Booking.js:70-75 | the stored record is validation of the fields before the hook, and the hook changes nothing; a saved document is no longer new |
| ItemRoutes.BuildFilter | server/routes/items.js:13-30 | search and category are added only when non-empty, each price bound only when given |
| ItemRoutes.ItemStore.List | server/routes/items.js:9-46 | the page is page `page` of all matching items newest first; each is stored, available, of the given category, within the inclusive price bounds and matches the search; total is the full match count; totalPages = ceil(total/limit); defaults page 1, limit 12 |
| ItemRoutes.ItemStore.PageFacts | server/routes/items.js:32-36 | every entry of a listing page is a stored item passing the filter, in newest-first order |
| ItemRoutes.ItemStore.Get | server/routes/items.js:58-72 | the stored item whatever its availability, or NotFound |
| ItemRoutes.ItemStore.Create | server/routes/items.js:84-91 | a valid body is stored under a fresh id with the caller as owner whatever the body says; an invalid one changes nothing |
| ItemRoutes.ItemStore.Update | server/routes/items.js:109-131 | NotFound, then Forbidden unless owner or admin, with the store unchanged; otherwise exactly that item becomes the updated one, or nothing changes if it fails validation |
| ItemRoutes.ItemStore.Put | server/routes/items.js:128 | writes one valid item and keeps the store invariant |
| ItemRoutes.ItemStore.Delete | server/routes/items.js:149-168 | NotFound, then Forbidden unless owner or admin, with the store unchanged; otherwise exactly that item is removed |
| ItemRoutes.ItemStore.MyItems | server/routes/items.js:185-187 | exactly the caller's items, available or not, newest first |
| BookingRoutes.CreationInput | server/routes/bookings.js:31-54 | the new booking passes validation; end = start + 86 400 000 ms, totalHours 24, price and deposit copied from the item, total = price + deposit, caller as renter, item owner as owner, pending, unpaid; pickup and return default to the item's location |
| BookingRoutes.BuildQuery | server/routes/bookings.js:83-95 | the caller as owner when role is "owner", as renter otherwise; the status only when non-empty |
| BookingRoutes.BookingStore.Create | server/routes/bookings.js:10-54 | NotFound for a missing item and InvalidState for an unavailable one, adding nothing; otherwise exactly one booking under a fresh id; the item store is never changed |
| BookingRoutes.BookingStore.Insert | server/routes/bookings.js:41 | adds one well-formed booking under the next id and keeps the store invariant |
| BookingRoutes.BookingStore.List | server/routes/bookings.js:79-101 | exactly the bookings the caller owns (role "owner") or rents (otherwise), of the given status if any, newest first |
| BookingRoutes.BookingStore.Get | server/routes/bookings.js:118-140 | NotFound, then Forbidden unless renter, owner or admin, otherwise the booking |
| BookingRoutes.BookingStore.SetStatus | server/routes/bookings.js:176-177 | assigning a status and saving changes that booking's status and nothing else |
| BookingRoutes.BookingStore.Confirm | server/routes/bookings.js:157-190 | NotFound, then Forbidden unless the owner, store unchanged; otherwise status becomes confirmed from any status, no other field changes |
| BookingRoutes.BookingStore.Cancel | server/routes/bookings.js:195-229 | NotFound, then Forbidden unless renter or owner (no admin bypass); otherwise status becomes cancelled from any status |
| BookingRoutes.BookingStore.Complete | server/routes/bookings.js:234-267 | NotFound, then Forbidden unless the owner; otherwise status becomes completed from any status |

## Left out

- Text search: the database's `$text` search over title and description is a parameter (`TextSearch`) of the listing, not modelled.
- `populate` joins of item, renter and owner details are left out; results carry ids.
- Query-string coercions are not modelled: `Number(...)`, `limit * 1`, NaN, `page` echoed back as a string. Prices are integers, page and limit are naturals. The defaults of page and limit apply only to an absent parameter: an empty `?page=` (a skip of minus one page) or `?limit=` (limit 0, which the database reads as no limit) is outside the model.
- ItemRoutes.ItemStore.List: requires page >= 1 and limit >= 1, so page 0, negative pages and `Math.ceil` with limit 0 are not modelled.
- An absent or empty price bound is `None`; a given bound is a number (a query string such as "0" is truthy, so it applies).
- Dates are integer milliseconds; parsing of the caller's start date string, and invalid dates, are left out.
- Timestamps (`createdAt`, `updatedAt`) are replaced by id order: newest first means highest id first.
- Authentication middleware is not modelled: the caller's id and role are inputs.
- Thrown database errors and the generic 500 answer are not modelled; a schema violation is reported as `Invalid` with the first broken constraint, while Mongoose reports all of them.
- The check-then-insert race between the availability check and booking insertion is concurrency and is not modelled; handlers run one at a time.
- ItemModel.Updated: an update body cannot unset a field (set it to null); only present values are modelled.
- Image URLs and feature lists are stored as given, without any format check, as in the schema.
