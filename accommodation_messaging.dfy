/**
 * The accommodation service's two saga consumers: BookingCreationConsumer (reserve, then
 * answer reserved or failed) and BookingCancellationConsumer (unlock the nights, then answer
 * dates unlocked). Outgoing broker messages are appended to an outbox.
 */
module AccommodationMessaging {
  import opened Common
  import opened Availability
  import opened Accommodations

  /** The booking-created event, in the shape the booking service sends it. */
  datatype BookingCreatedEvent = BookingCreatedEvent(
    bookingId: int,
    userId: int,
    accommodationId: int,
    checkInDate: Date,
    checkOutDate: Date,
    totalPrice: Money,
    phoneNumber: string,
    accommodationVersion: Option<int>)

  /** The cancellation request, in its six-field shape. */
  datatype BookingCancellationRequestedEvent = BookingCancellationRequestedEvent(
    bookingId: int,
    accommodationId: int,
    checkInDate: Date,
    checkOutDate: Date,
    paymentId: Option<string>,
    refundNeeded: bool)

  /** The arguments of one attemptReservation call. */
  datatype ReservationAttempt = ReservationAttempt(accommodationId: int, checkInDate: Date, checkOutDate: Date, version: Option<int>)

  /** The messages AccommodationMessageProducer sends. */
  datatype InventoryEvent =
    | InventoryReserved(bookingId: int, userId: int, totalPrice: Money, phoneNumber: string)
    | InventoryReservationFailed(bookingId: int, userId: int, reason: string)
    | DatesUnlocked(bookingId: int, accommodationId: int)

  /** The reservation asked for on behalf of a booking-created event. */
  function AttemptFor(e: BookingCreatedEvent): (a: ReservationAttempt)
    ensures a.accommodationId == e.accommodationId && a.version == e.accommodationVersion
    ensures a.checkInDate == e.checkInDate && a.checkOutDate == e.checkOutDate
  {
    ReservationAttempt(e.accommodationId, e.checkInDate, e.checkOutDate, e.accommodationVersion)
  }

  /**
   * The one reply to a booking-created event: reserved, with the booking's user, price and
   * phone, when the reservation returned; failed, with the exception's message, when it raised.
   */
  function CreationReply(e: BookingCreatedEvent, reservation: Outcome): (reply: InventoryEvent)
    ensures reply.InventoryReserved? <==> reservation.Done?
    ensures reply.InventoryReservationFailed? <==> reservation.Failed?
    ensures !reply.DatesUnlocked?
    ensures reply.bookingId == e.bookingId && reply.userId == e.userId
    ensures reply.InventoryReserved? ==> reply.totalPrice == e.totalPrice && reply.phoneNumber == e.phoneNumber
    ensures reply.InventoryReservationFailed? ==> reply.reason == reservation.message
  {
    match reservation
    case Done => InventoryReserved(e.bookingId, e.userId, e.totalPrice, e.phoneNumber)
    case Failed(message) => InventoryReservationFailed(e.bookingId, e.userId, message)
  }

  /** The nights a cancellation unlocks: check-in up to the day before check-out. */
  function NightsLastDay(e: BookingCancellationRequestedEvent): (last: Date)
    ensures last < e.checkOutDate && last + 1 == e.checkOutDate
  {
    e.checkOutDate - 1
  }

  /** AccommodationMessageProducer: what has been sent so far. */
  class InventoryOutbox {
    var sent: seq<InventoryEvent>

    constructor ()
      ensures sent == []
    {
      sent := [];
    }

    method Send(e: InventoryEvent)
      modifies this
      ensures sent == old(sent) + [e]
    {
      sent := sent + [e];
    }
  }

  /** BookingCreationConsumer; `attempts` records the attemptReservation calls it made. */
  class BookingCreationConsumer {
    const producer: InventoryOutbox
    var attempts: seq<ReservationAttempt>

    constructor (producer: InventoryOutbox)
      ensures this.producer == producer && attempts == []
    {
      this.producer := producer;
      attempts := [];
    }

    /**
     * onBookingCreated: a message that does not parse (None) is dropped; otherwise one
     * reservation is attempted with the event's unit, dates and version, and exactly one
     * reply follows it. `reservation` is what attemptReservation did.
     */
    method OnBookingCreated(message: Option<BookingCreatedEvent>, reservation: Outcome)
      modifies this, producer
      ensures message.None? ==> attempts == old(attempts) && producer.sent == old(producer.sent)
      ensures message.Some? ==> attempts == old(attempts) + [AttemptFor(message.value)]
      ensures message.Some? ==> producer.sent == old(producer.sent) + [CreationReply(message.value, reservation)]
    {
      if message.None? {
        return;
      }
      var event := message.value;
      attempts := attempts + [AttemptFor(event)];
      match reservation {
        case Done =>
          producer.Send(InventoryReserved(event.bookingId, event.userId, event.totalPrice, event.phoneNumber));
        case Failed(reason) =>
          producer.Send(InventoryReservationFailed(event.bookingId, event.userId, reason));
      }
    }
  }

  /** BookingCancellationConsumer; it talks to the slot table directly and never to the versioned service. */
  class BookingCancellationConsumer {
    const availability: AvailabilityService
    const producer: InventoryOutbox

    constructor (availability: AvailabilityService, producer: InventoryOutbox)
      ensures this.availability == availability && this.producer == producer
    {
      this.availability := availability;
      this.producer := producer;
    }

    /** handleCancellation: unlock check-in..check-out minus one day, then send dates unlocked. */
    method HandleCancellation(e: BookingCancellationRequestedEvent)
      requires availability.Valid()
      modifies availability, producer
      ensures availability.Valid()
      ensures availability.rows ==
        WithLockFlag(old(availability.rows), e.accommodationId, e.checkInDate, NightsLastDay(e), false)
      ensures producer.sent == old(producer.sent) + [DatesUnlocked(e.bookingId, e.accommodationId)]
    {
      availability.UnlockDates(e.accommodationId, e.checkInDate, NightsLastDay(e));
      producer.Send(DatesUnlocked(e.bookingId, e.accommodationId));
    }
  }

  // ---------------------------------------------------------------------------------------
  // The lock range and the unlock range disagree by one day

  /** The slot table after a successful lock of the booking's range and the cancellation's unlock. */
  function AfterLockAndCancel(l: Ledger, cmd: LockCommand, e: BookingCancellationRequestedEvent): seq<Slot> {
    WithLockFlag(Lock(l, e.accommodationId, cmd).1.rows, e.accommodationId, e.checkInDate, NightsLastDay(e), false)
  }

  /**
   * After a successful lock of check-in..check-out and the cancellation's unlock of the nights,
   * a slot of that range is locked again exactly when it is the check-out day's.
   */
  lemma CheckoutDayStaysLocked(l: Ledger, cmd: LockCommand, e: BookingCancellationRequestedEvent, i: int)
    requires cmd.checkInDate == e.checkInDate && cmd.checkOutDate == e.checkOutDate
    requires Won(Lock(l, e.accommodationId, cmd).0)
    requires 0 <= i < |l.rows| && InRange(l.rows[i], e.accommodationId, e.checkInDate, e.checkOutDate)
    ensures |AfterLockAndCancel(l, cmd, e)| == |l.rows|
    ensures AfterLockAndCancel(l, cmd, e)[i].locked <==> l.rows[i].date == e.checkOutDate
  {
    LockSuccess(l, e.accommodationId, cmd);
  }

  /** So the unit reads unavailable for every later range that contains the old check-out day. */
  lemma CheckoutDayBlocksLaterStays(l: Ledger, cmd: LockCommand, e: BookingCancellationRequestedEvent, i: int, from: Date, to: Date)
    requires cmd.checkInDate == e.checkInDate && cmd.checkOutDate == e.checkOutDate
    requires Won(Lock(l, e.accommodationId, cmd).0)
    requires 0 <= i < |l.rows| && l.rows[i].accommodationId == e.accommodationId && l.rows[i].date == e.checkOutDate
    requires e.checkInDate <= e.checkOutDate && from <= e.checkOutDate <= to
    ensures !Available(AfterLockAndCancel(l, cmd, e), e.accommodationId, from, to)
  {
    CheckoutDayStaysLocked(l, cmd, e, i);
    var after := AfterLockAndCancel(l, cmd, e);
    LockSuccess(l, e.accommodationId, cmd);
    assert after[i] in after && InRange(after[i], e.accommodationId, from, to);
  }
}
