/** The booking schema: its status enumerations, required fields and
    defaults, and the document whose save runs validation and then the
    pre-save hook that derives a missing end date. */
module BookingModel {
  import opened Common

  /** Life-cycle of a booking. `Active` is part of the enumeration but no
      handler ever sets it. */
  datatype BookingStatus = Pending | Confirmed | Active | Completed | Cancelled

  function StatusName(s: BookingStatus): string {
    match s
    case Pending => "pending"
    case Confirmed => "confirmed"
    case Active => "active"
    case Completed => "completed"
    case Cancelled => "cancelled"
  }

  /** The enum validator of `status`. */
  function ParseStatus(s: string): (r: Option<BookingStatus>)
    ensures r.Some? ==> StatusName(r.value) == s
    ensures r.None? ==> forall st :: StatusName(st) != s
  {
    if s == "pending" then Some(Pending)
    else if s == "confirmed" then Some(Confirmed)
    else if s == "active" then Some(Active)
    else if s == "completed" then Some(Completed)
    else if s == "cancelled" then Some(Cancelled)
    else None
  }

  /** Payment state; no handler ever changes it from its default. */
  datatype PaymentStatus = Unpaid | Paid | Refunded

  function PaymentName(p: PaymentStatus): string {
    match p
    case Unpaid => "pending"
    case Paid => "paid"
    case Refunded => "refunded"
  }

  /** The enum validator of `paymentStatus`. */
  function ParsePayment(s: string): (r: Option<PaymentStatus>)
    ensures r.Some? ==> PaymentName(r.value) == s
    ensures r.None? ==> forall p :: PaymentName(p) != s
  {
    if s == "pending" then Some(Unpaid)
    else if s == "paid" then Some(Paid)
    else if s == "refunded" then Some(Refunded)
    else None
  }

  /** Every status survives a trip through its stored spelling. */
  lemma StatusNamesRoundTrip(s: BookingStatus, p: PaymentStatus)
    ensures ParseStatus(StatusName(s)) == Some(s)
    ensures ParsePayment(PaymentName(p)) == Some(p)
  {
    match s
    case Pending =>
    case Confirmed =>
    case Active =>
    case Completed =>
    case Cancelled =>
  }

  /** A stored booking. Dates are milliseconds since the epoch. */
  datatype Booking = Booking(
    item: ItemId,
    renter: UserId,
    owner: UserId,
    startDate: int,
    endDate: int,
    totalHours: int,
    rentalPrice: int,
    deposit: int,
    totalAmount: int,
    status: BookingStatus,
    paymentStatus: PaymentStatus,
    paymentIntentId: Option<string>,
    pickupLocation: Option<string>,
    returnLocation: Option<string>,
    notes: Option<string>)

  /** The fields given when a booking document is created; each may be absent. */
  datatype BookingInput = BookingInput(
    item: Option<ItemId>,
    renter: Option<UserId>,
    owner: Option<UserId>,
    startDate: Option<int>,
    endDate: Option<int>,
    totalHours: Option<int>,
    rentalPrice: Option<int>,
    deposit: Option<int>,
    totalAmount: Option<int>,
    status: Option<string>,
    paymentStatus: Option<string>,
    paymentIntentId: Option<string>,
    pickupLocation: Option<string>,
    returnLocation: Option<string>,
    notes: Option<string>)

  /** The schema's rules stated on a document: item, renter, owner, start and
      end dates, rental price and total amount are present, and a given status
      or payment status belongs to its enumeration. */
  predicate Admissible(d: BookingInput) {
    && d.item.Some? && d.renter.Some? && d.owner.Some?
    && d.startDate.Some? && d.endDate.Some?
    && d.rentalPrice.Some? && d.totalAmount.Some?
    && (d.status.None? || ParseStatus(d.status.value).Some?)
    && (d.paymentStatus.None? || ParsePayment(d.paymentStatus.value).Some?)
  }

  /** Validates a document and, when it passes, gives the record stored for
      it: defaults fill totalHours (24), deposit (0), status (pending) and
      paymentStatus (pending). */
  function Build(d: BookingInput): (r: Result<Booking, ValidationError>)
    ensures r.Ok? <==> Admissible(d)
    ensures r.Ok? ==>
      && r.value.item == d.item.value && r.value.renter == d.renter.value
      && r.value.owner == d.owner.value
      && r.value.startDate == d.startDate.value && r.value.endDate == d.endDate.value
      && r.value.rentalPrice == d.rentalPrice.value && r.value.totalAmount == d.totalAmount.value
      && r.value.pickupLocation == d.pickupLocation && r.value.returnLocation == d.returnLocation
      && r.value.notes == d.notes && r.value.paymentIntentId == d.paymentIntentId
    ensures r.Ok? ==>
      && r.value.totalHours == d.totalHours.GetOr(24)
      && r.value.deposit == d.deposit.GetOr(0)
      && (d.status.None? ==> r.value.status == Pending)
      && (d.status.Some? ==> StatusName(r.value.status) == d.status.value)
      && (d.paymentStatus.None? ==> r.value.paymentStatus == Unpaid)
      && (d.paymentStatus.Some? ==> PaymentName(r.value.paymentStatus) == d.paymentStatus.value)
  {
    var status := d.status.GetOr("pending");
    var payment := d.paymentStatus.GetOr("pending");
    if d.item.None? then Err(Required("item"))
    else if d.renter.None? then Err(Required("renter"))
    else if d.owner.None? then Err(Required("owner"))
    else if d.startDate.None? then Err(Required("startDate"))
    else if d.endDate.None? then Err(Required("endDate"))
    else if d.rentalPrice.None? then Err(Required("rentalPrice"))
    else if d.totalAmount.None? then Err(Required("totalAmount"))
    else if ParseStatus(status).None? then Err(NotInEnum("status", status))
    else if ParsePayment(payment).None? then Err(NotInEnum("paymentStatus", payment))
    else
      Ok(Booking(
        d.item.value, d.renter.value, d.owner.value,
        d.startDate.value, d.endDate.value,
        d.totalHours.GetOr(24), d.rentalPrice.value, d.deposit.GetOr(0), d.totalAmount.value,
        ParseStatus(status).value, ParsePayment(payment).value,
        d.paymentIntentId, d.pickupLocation, d.returnLocation, d.notes))
  }

  /** The document fields of a stored booking; validating them again gives
      back the same record, which is what a later save of it relies on. */
  function InputOf(b: Booking): (d: BookingInput)
    ensures Build(d) == Ok(b)
  {
    StatusNamesRoundTrip(b.status, b.paymentStatus);
    BookingInput(
      Some(b.item), Some(b.renter), Some(b.owner), Some(b.startDate), Some(b.endDate),
      Some(b.totalHours), Some(b.rentalPrice), Some(b.deposit), Some(b.totalAmount),
      Some(StatusName(b.status)), Some(PaymentName(b.paymentStatus)),
      b.paymentIntentId, b.pickupLocation, b.returnLocation, b.notes)
  }

  /** A booking document in memory, as the pre-save hook sees it. */
  class BookingDocument {
    var fields: BookingInput
    var isNew: bool

    /** A document that has not been saved yet. */
    constructor (d: BookingInput)
      ensures fields == d && isNew
    {
      fields := d;
      isNew := true;
    }

    /** A document read back from the store. */
    constructor Loaded(b: Booking)
      ensures fields == InputOf(b) && !isNew
    {
      fields := InputOf(b);
      isNew := false;
    }

    /** The pre-save hook: a new document without an end date gets one 24
        hours after its start. `ok` is false when the hook would read the
        start of a document that has none, which makes the save fail. */
    method PreSave() returns (ok: bool)
      modifies this
      ensures isNew == old(isNew)
      ensures ok <==> !(old(isNew) && old(fields).endDate.None? && old(fields).startDate.None?)
      ensures old(isNew) && old(fields).endDate.None? && old(fields).startDate.Some? ==>
        fields == old(fields).(endDate := Some(old(fields).startDate.value + DAY_MS))
      ensures !old(isNew) || old(fields).endDate.Some? || old(fields).startDate.None? ==>
        fields == old(fields)
    {
      ok := true;
      if isNew && fields.endDate.None? {
        if fields.startDate.None? {
          ok := false;
        } else {
          fields := fields.(endDate := Some(fields.startDate.value + DAY_MS));
        }
      }
    }

    /** Saves the document. Validation runs first, as the built-in first step
        of every save, and the hook after it; since a document that passes
        validation already has an end date, the hook never changes what is
        stored. The returned record is the one written. */
    method Save() returns (r: Result<Booking, ValidationError>)
      modifies this
      ensures r == Build(old(fields))
      ensures fields == old(fields)
      ensures isNew == (old(isNew) && r.Err?)
    {
      r := Build(fields);
      if r.Ok? {
        var hookOk := PreSave();
        assert hookOk;
        r := Build(fields);
        isNew := false;
      }
    }
  }
}
