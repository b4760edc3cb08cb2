/** The booking service's entity, its table, and the remote calls it makes. */
module Bookings {
  import opened Common

  datatype Status = Pending | Confirmed | Canceled | Expired

  /**
   * A row of the bookings table. The two cancellation flags and refundNeeded are the fields
   * the saga reads and writes; a booking starts with all three false.
   */
  datatype Booking = Booking(
    id: int,
    userId: int,
    accommodationId: int,
    checkInDate: Date,
    checkOutDate: Date,
    status: Status,
    totalPrice: Money,
    phoneNumber: Option<string>,
    paymentId: Option<string>,
    paymentCanceled: bool,
    datesUnlocked: bool,
    refundNeeded: bool)
  {
    /** markPaymentCanceled: the payment side of the cancellation barrier is done. */
    function MarkPaymentCanceled(): (b: Booking)
      ensures b.paymentCanceled && b.(paymentCanceled := paymentCanceled) == this
    {
      this.(paymentCanceled := true)
    }

    /** markDatesUnlocked: the inventory side of the cancellation barrier is done. */
    function MarkDatesUnlocked(): (b: Booking)
      ensures b.datesUnlocked && b.(datesUnlocked := datesUnlocked) == this
    {
      this.(datesUnlocked := true)
    }
  }

  /** The booking request a customer sends. */
  datatype BookingRequest = BookingRequest(
    accommodationId: int,
    checkInDate: Date,
    checkOutDate: Date,
    phoneNumber: Option<string>)

  /** The exceptions the booking service raises. */
  datatype BookingError =
    | NotFound(id: int)
    | NoBookings
    | InvalidDates
    | CheckInInPast
    | UserIdMissing
    | UserNotFound
    | AccommodationNotAvailable(message: string)
    | AccessDenied
    | RemoteFailure(message: string)

  /** The calls the booking service makes to the accommodation, payment and user services. */
  datatype RemoteCall =
    | GetAccommodation(accommodationId: int)
    | LockDates(accommodationId: int, checkInDate: Date, checkOutDate: Date, expectedVersion: Option<int>)
    | CreatePayment(bookingId: int, amountToPay: Money, phoneNumber: Option<string>)
    | SendNotification(userId: int, phoneNumber: Option<string>, bookingId: int)
    | UnlockDates(accommodationId: int, checkInDate: Date, checkOutDate: Date, expectedVersion: Option<int>)
    | CancelPayment(paymentId: string)

  /** The primary key matches each row's id; ids start at 1 and stay below the next id the table hands out. */
  predicate KeysMatchIds(rows: map<int, Booking>, nextId: int) {
    forall k :: k in rows ==> rows[k].id == k && 1 <= k < nextId
  }

  /** The bookings table, shared by the saga, the listener and the booking service. */
  class BookingStore {
    var rows: map<int, Booking>
    var nextId: int

    ghost predicate Valid()
      reads this
    {
      1 <= nextId && KeysMatchIds(rows, nextId)
    }

    constructor ()
      ensures Valid() && rows == map[]
    {
      rows := map[];
      nextId := 1;
    }
  }

  /** What the booking service has asked of other services so far, in order. */
  class RemoteLog {
    var calls: seq<RemoteCall>

    constructor ()
      ensures calls == []
    {
      calls := [];
    }

    method Record(c: RemoteCall)
      modifies this
      ensures calls == old(calls) + [c]
    {
      calls := calls + [c];
    }
  }
}
