/** Data shapes exchanged with the pizza.de voucher API (after lib/Interfaces.ts),
    plus the JavaScript values a promise can reject with. */
module Interfaces {

  datatype Option<+T> = None | Some(value: T)

  datatype Result<+T, +E> = Ok(value: T) | Err(error: E)

  /** The error payload the service sends when `success` is false. */
  datatype PizzaError = PizzaError(description: string, code: string)

  /** A voucher date: the ISO text as it arrives on the wire, or a Date object,
      represented by its time value (milliseconds since the epoch). */
  datatype DateField = Str(text: string) | Date(time: int)

  /** A voucher record. JavaScript numbers are exact reals here. */
  datatype Voucher = Voucher(
    limitPerOrder: real,
    validFrom: DateField,
    instance: real,
    defId: real,
    remainingValue: real,
    desc: string,
    validUntil: DateField,
    authorizedValue: real,
    labelText: string,  // the `label` field
    originalValue: real,
    code: string)

  /** Body of the login reply; `error` is present only on failure. */
  datatype ApiResponse = ApiResponse(success: bool, error: Option<PizzaError>)

  /** Body of the voucher list reply; `vouchers` may be missing (undefined). */
  datatype VoucherListResponse = VoucherListResponse(
    success: bool, error: Option<PizzaError>, vouchers: Option<seq<Voucher>>)

  /** Body of the redeem reply: the confirmed code and the updated list. */
  datatype VoucherAddResponse = VoucherAddResponse(
    success: bool, error: Option<PizzaError>, voucher: string, vouchers: Option<seq<Voucher>>)

  /** What a promise rejects with or a statement throws: an Error object (transport
      errors, ApiError, TypeError), a bare error payload, or `undefined`. */
  datatype Thrown = Error(message: string) | Raw(payload: PizzaError) | Undefined

  /** The TypeError V8 throws when a property is read from `undefined`. */
  function TypeError(property: string): Thrown
  {
    Error("Cannot read properties of undefined (reading '" + property + "')")
  }
}
