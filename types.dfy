/** The client's shared record types (client/src/shared/types.ts) and the JavaScript
    truthiness rules (`x || d`) its components apply to them.
    Timestamps are integer milliseconds since the epoch; money is an integer amount. */
module Types {
  import opened Wrappers

  datatype PaymentMethod = CASH | CREDIT

  datatype RentalType = BED | SUP | SNORKEL

  /** A rental as the server reports it. `type` is a keyword in Dafny, hence `rentalType`. */
  datatype Rental = Rental(
    id: int,
    rentalType: RentalType,
    startTime: int,
    endTime: Option<int>,
    numPeople: int,
    customerName: string,
    notes: Option<string>,
    basePrice: int,
    finalPrice: Option<int>,
    discount: int,
    extraTime: int,
    paymentMethod: PaymentMethod,
    duration: Option<int>,
    numItems: Option<int>)
  {
    /** `!rental.endTime`: the rental has not ended. */
    predicate IsActive() { endTime.None? }
  }

  /** The state of the new-rental wizard's form; `type` is null until a category is chosen. */
  datatype RentalFormData = RentalFormData(
    rentalType: Option<RentalType>,
    numPeople: int,
    customerName: string,
    notes: string,
    paymentMethod: PaymentMethod,
    discount: int,
    extraTime: int,
    duration: Option<int>,
    numItems: Option<int>)

  /** The body of a create request; absent fields are left out of the JSON. */
  datatype CreateRentalDto = CreateRentalDto(
    rentalType: RentalType,
    numPeople: Option<int>,
    customerName: string,
    notes: Option<string>,
    paymentMethod: PaymentMethod,
    duration: Option<int>,
    numItems: Option<int>)

  /** The body of a patch request; every field is optional. */
  datatype UpdateRentalDto = UpdateRentalDto(
    customerName: Option<string>,
    notes: Option<string>,
    discount: Option<int>,
    paymentMethod: Option<PaymentMethod>,
    endTime: Option<int>,
    finalPrice: Option<int>,
    duration: Option<int>,
    numItems: Option<int>)

  /** The argument of `updateRental.mutate({ id, data })`. */
  datatype UpdateRequest = UpdateRequest(id: int, data: UpdateRentalDto)

  /** The result of `Number(...)` on a form field: an integer or NaN (fractions are not modelled). */
  datatype JsNumber = Finite(value: int) | NaN

  /** `x || d` for a number that is never NaN: 0 is the only falsy value. */
  function NumOr(x: int, d: int): int {
    if x != 0 then x else d
  }

  /** `x || d` for an optional number: `undefined` and 0 are falsy. */
  function OptNumOr(x: Option<int>, d: int): int {
    if x.Some? && x.value != 0 then x.value else d
  }

  /** `Number(field) || d`: 0 and NaN are falsy. */
  function JsNumberOr(x: JsNumber, d: int): int {
    if x.Finite? && x.value != 0 then x.value else d
  }

  /** `s || d` for an optional string: `undefined` and '' are falsy. */
  function OptStrOr(s: Option<string>, d: string): string {
    if s.Some? && s.value != "" then s.value else d
  }

  /** `!s` for an optional string, as the handlers test `customerName`. */
  predicate IsBlank(s: Option<string>) {
    s.None? || s.value == ""
  }
}
