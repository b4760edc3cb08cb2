/** Value types shared by every service of the booking saga model. */
module Common {

  /** A value that may be absent: Java's null, or an empty Optional. */
  datatype Option<+T> = None | Some(value: T) {

    /** The value, or `default` when absent. */
    function GetOr(default: T): T {
      match this
      case Some(v) => v
      case None => default
    }
  }

  /** The outcome of a call that either returns a value or raises an exception. */
  datatype Result<+T, +E> = Ok(value: T) | Err(error: E)

  /** The outcome of a call that returns nothing or raises an exception with a message. */
  datatype Outcome = Done | Failed(message: string)

  /** A calendar day (java.time.LocalDate), counted in days since the epoch. */
  type Date = int

  /** A monetary amount (BigDecimal in the services), in the currency's smallest unit. */
  type Money = int
}
