/**
 * Values shared by the dashboard's server code: JavaScript's optional values
 * (a parameter or field that may be absent or null) and the invoice status enum.
 */
module Definitions {

  /** A value that may be absent (`null` or `undefined` in the source). */
  datatype Option<+T> = None | Some(value: T) {

    /** The value, or `default` when absent: the `??` operator. */
    function GetOr(default: T): T {
      match this
      case Some(v) => v
      case None => default
    }
  }

  /** The two invoice states the invoice schema and the card queries know. */
  datatype Status = Pending | Paid
}
