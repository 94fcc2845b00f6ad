/** Values shared by the item and booking components: optional values and
    results, identifiers, the authenticated caller, the error taxonomy of the
    HTTP handlers, and the fixed rental window. */
module Common {

  datatype Option<+T> = None | Some(value: T) {
    /** The wrapped value, or `default` when absent. */
    function GetOr(default: T): T {
      match this
      case Some(v) => v
      case None => default
    }
  }

  datatype Result<+T, +E> = Ok(value: T) | Err(error: E)

  /** Database identifiers. Records are stored under increasing ids, so a
      larger id means a newer record. */
  type UserId = nat
  type ItemId = nat
  type BookingId = nat

  /** The role carried by the authenticated user. */
  datatype UserRole = RenterRole | OwnerRole | AdminRole

  /** The identity the authentication middleware attaches to a request. */
  datatype Caller = Caller(id: UserId, role: UserRole)

  /** A schema constraint that a document breaks, named by its field path. */
  datatype ValidationError =
    | Required(path: string)
    | NotInEnum(path: string, value: string)
    | BelowMin(path: string)

  /** What a handler answers instead of its payload. `NotFound` is HTTP 404,
      `Forbidden` 403, `InvalidState` 400; `Invalid` is a schema violation,
      which the handlers surface as a 500. */
  datatype Error = NotFound | Forbidden | InvalidState | Invalid(cause: ValidationError)

  /** Length of every rental window: 24 hours in milliseconds. */
  const DAY_MS: int := 24 * 60 * 60 * 1000

  /** JavaScript truthiness of an optional string: absent and empty are both falsy. */
  predicate Truthy(s: Option<string>) {
    s.Some? && s.value != ""
  }

  /** `s || fallback` on an optional string. */
  function OrElse(s: Option<string>, fallback: string): (r: string)
    ensures Truthy(s) ==> r == s.value
    ensures !Truthy(s) ==> r == fallback
  {
    if Truthy(s) then s.value else fallback
  }
}
