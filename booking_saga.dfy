/**
 * BookingSagaService: the guarded status transitions of a booking, and the two-flag barrier
 * that finishes a cancellation once both the payment and the inventory side have answered.
 */
module BookingSaga {
  import opened Common
  import opened Bookings
  import Inventory = AccommodationMessaging

  /** finalizeBookingCreation on one booking: only a PENDING booking is confirmed, with the session as payment id. */
  function Finalized(b: Booking, paymentSessionId: string): Booking {
    if b.status == Pending then b.(status := Confirmed, paymentId := Some(paymentSessionId)) else b
  }

  /** failBookingCreation on one booking: only a PENDING booking is canceled. */
  function CreationFailed(b: Booking): Booking {
    if b.status == Pending then b.(status := Canceled) else b
  }

  /** checkCancellationComplete: once both flags are set the booking is CANCELED. */
  function CancellationChecked(b: Booking): Booking {
    if b.paymentCanceled && b.datesUnlocked then b.(status := Canceled) else b
  }

  /** handlePaymentCanceled on one booking. */
  function AfterPaymentCanceled(b: Booking): Booking {
    CancellationChecked(b.MarkPaymentCanceled())
  }

  /** handleDatesUnlocked on one booking. */
  function AfterDatesUnlocked(b: Booking): Booking {
    CancellationChecked(b.MarkDatesUnlocked())
  }

  /** startCancellation: its status is not part of the source, so it is the parameter `next`. */
  function CancellationStarted(b: Booking, next: Status): Booking {
    b.(status := next)
  }

  /** The cancellation request cancelBooking sends for a booking. */
  function CancellationRequest(b: Booking): (e: Inventory.BookingCancellationRequestedEvent)
    ensures e.bookingId == b.id && e.accommodationId == b.accommodationId
    ensures e.checkInDate == b.checkInDate && e.checkOutDate == b.checkOutDate
    ensures e.paymentId == b.paymentId && e.refundNeeded == b.refundNeeded
  {
    Inventory.BookingCancellationRequestedEvent(b.id, b.accommodationId, b.checkInDate, b.checkOutDate, b.paymentId, b.refundNeeded)
  }

  /** One call into the saga, as the listener makes it. */
  datatype SagaCall =
    | FinalizeCreation(bookingId: int, paymentSessionId: string)
    | FailCreation(bookingId: int, reason: string)
    | PaymentCanceled(bookingId: int)
    | DatesUnlocked(bookingId: int)

  /** What a saga call does to the booking it names. */
  function Apply(b: Booking, c: SagaCall): (a: Booking)
    ensures a.(status := b.status, paymentId := b.paymentId, paymentCanceled := b.paymentCanceled,
               datesUnlocked := b.datesUnlocked) == b
    ensures !c.FinalizeCreation? ==> a.paymentId == b.paymentId
  {
    match c
    case FinalizeCreation(_, sessionId) => Finalized(b, sessionId)
    case FailCreation(_, _) => CreationFailed(b)
    case PaymentCanceled(_) => AfterPaymentCanceled(b)
    case DatesUnlocked(_) => AfterDatesUnlocked(b)
  }

  /** A saga call on the whole table: not found for an unknown booking, else that booking is updated and saved. */
  function Handle(rows: map<int, Booking>, c: SagaCall): (out: (map<int, Booking>, Option<BookingError>))
    ensures out.1.Some? <==> c.bookingId !in rows
    ensures out.1.Some? ==> out.1.value == NotFound(c.bookingId) && out.0 == rows
    ensures out.0.Keys == rows.Keys
    ensures c.bookingId in rows ==> out.0[c.bookingId] == Apply(rows[c.bookingId], c)
    ensures forall k :: k in rows && k != c.bookingId ==> out.0[k] == rows[k]
  {
    if c.bookingId !in rows then (rows, Some(NotFound(c.bookingId)))
    else (rows[c.bookingId := Apply(rows[c.bookingId], c)], None)
  }

  // ---------------------------------------------------------------------------------------
  // Properties of the transitions

  /** A PENDING booking is confirmed with the session id; nothing else about it changes. */
  lemma FinalizeConfirmsPending(b: Booking, sessionId: string)
    requires b.status == Pending
    ensures Finalized(b, sessionId).status == Confirmed
    ensures Finalized(b, sessionId).paymentId == Some(sessionId)
    ensures Finalized(b, sessionId).(status := b.status, paymentId := b.paymentId) == b
  {
  }

  /** A duplicate payment-success delivery is a no-op, whatever session id it carries. */
  lemma FinalizeIsIdempotent(b: Booking, first: string, second: string)
    ensures Finalized(Finalized(b, first), second) == Finalized(b, first)
  {
  }

  /** failBookingCreation cancels a PENDING booking and leaves every other status (CONFIRMED included) alone. */
  lemma FailCancelsOnlyPending(b: Booking)
    ensures CreationFailed(b).status == (if b.status == Pending then Canceled else b.status)
    ensures CreationFailed(b).(status := b.status) == b
    ensures CreationFailed(CreationFailed(b)) == CreationFailed(b)
  {
  }

  /** Between a success and a failure for the same booking, whichever arrives first decides. */
  lemma FirstCreationOutcomeWins(b: Booking, sessionId: string)
    ensures CreationFailed(Finalized(b, sessionId)) == Finalized(b, sessionId)
    ensures Finalized(CreationFailed(b), sessionId) == CreationFailed(b)
  {
  }

  /** The barrier: once both handlers have run, in either order, the booking is CANCELED and in the same state. */
  lemma BarrierOrderIndependent(b: Booking)
    ensures AfterDatesUnlocked(AfterPaymentCanceled(b)) == AfterPaymentCanceled(AfterDatesUnlocked(b))
    ensures AfterDatesUnlocked(AfterPaymentCanceled(b)).status == Canceled
  {
  }

  /** One handler alone leaves the status as it was while the other side has not answered. */
  lemma BarrierWaitsForBoth(b: Booking)
    ensures !b.datesUnlocked ==> AfterPaymentCanceled(b).status == b.status
    ensures !b.paymentCanceled ==> AfterDatesUnlocked(b).status == b.status
  {
  }

  /** A duplicate payment-canceled or dates-unlocked delivery changes nothing more. */
  lemma BarrierHandlersIdempotent(b: Booking)
    ensures AfterPaymentCanceled(AfterPaymentCanceled(b)) == AfterPaymentCanceled(b)
    ensures AfterDatesUnlocked(AfterDatesUnlocked(b)) == AfterDatesUnlocked(b)
  {
  }

  /** A saga call on an unknown booking raises not found and changes no booking. */
  lemma UnknownBookingChangesNothing(rows: map<int, Booking>, c: SagaCall)
    requires c.bookingId !in rows
    ensures Handle(rows, c) == (rows, Some(NotFound(c.bookingId)))
  {
  }

  /** A saga call touches the booking it names and no other, and keeps the table's keys and ids. */
  lemma HandleTouchesOneBooking(rows: map<int, Booking>, nextId: int, c: SagaCall)
    requires KeysMatchIds(rows, nextId)
    ensures Handle(rows, c).0.Keys == rows.Keys
    ensures forall k :: k in rows && k != c.bookingId ==> Handle(rows, c).0[k] == rows[k]
    ensures KeysMatchIds(Handle(rows, c).0, nextId)
  {
  }

  /** Over the table: both cancellation answers, in either order, leave the same table with that booking CANCELED. */
  lemma TableBarrierOrderIndependent(rows: map<int, Booking>, id: int)
    ensures Handle(Handle(rows, PaymentCanceled(id)).0, DatesUnlocked(id)).0 ==
            Handle(Handle(rows, DatesUnlocked(id)).0, PaymentCanceled(id)).0
    ensures id in rows ==> Handle(Handle(rows, PaymentCanceled(id)).0, DatesUnlocked(id)).0[id].status == Canceled
  {
    if id in rows {
      BarrierOrderIndependent(rows[id]);
      assert rows[id := AfterPaymentCanceled(rows[id])][id := AfterDatesUnlocked(AfterPaymentCanceled(rows[id]))] ==
             rows[id := AfterDatesUnlocked(rows[id])][id := AfterPaymentCanceled(AfterDatesUnlocked(rows[id]))];
    }
  }

  // ---------------------------------------------------------------------------------------
  // The service

  /** BookingMessageProducer: the cancellation requests sent so far. */
  class BookingOutbox {
    var sent: seq<Inventory.BookingCancellationRequestedEvent>

    constructor ()
      ensures sent == []
    {
      sent := [];
    }

    method SendBookingCancellationRequested(e: Inventory.BookingCancellationRequestedEvent)
      modifies this
      ensures sent == old(sent) + [e]
    {
      sent := sent + [e];
    }
  }

  class BookingSagaService {
    const store: BookingStore
    const producer: BookingOutbox

    constructor (store: BookingStore, producer: BookingOutbox)
      ensures this.store == store && this.producer == producer
    {
      this.store := store;
      this.producer := producer;
    }

    /** getBookingOrThrow. */
    method GetBookingOrThrow(id: int) returns (r: Result<Booking, BookingError>)
      ensures id in store.rows ==> r == Ok(store.rows[id])
      ensures id !in store.rows ==> r == Err(NotFound(id))
    {
      if id in store.rows {
        r := Ok(store.rows[id]);
      } else {
        r := Err(NotFound(id));
      }
    }

    /**
     * cancelBooking: starts the cancellation (its status is `next`), saves, and sends exactly one
     * cancellation request built from the saved booking.
     */
    method CancelBooking(id: int, next: Status) returns (failure: Option<BookingError>)
      requires store.Valid()
      modifies store, producer
      ensures store.Valid()
      ensures id !in old(store.rows) ==>
        failure == Some(NotFound(id)) && store.rows == old(store.rows) && producer.sent == old(producer.sent)
      ensures id in old(store.rows) ==> failure == None
      ensures id in old(store.rows) ==> store.rows == old(store.rows)[id := CancellationStarted(old(store.rows)[id], next)]
      ensures id in old(store.rows) ==>
        producer.sent == old(producer.sent) + [CancellationRequest(CancellationStarted(old(store.rows)[id], next))]
      ensures store.nextId == old(store.nextId)
    {
      var found := GetBookingOrThrow(id);
      if found.Err? {
        return Some(found.error);
      }
      var booking := CancellationStarted(found.value, next);
      store.rows := store.rows[id := booking];
      producer.SendBookingCancellationRequested(CancellationRequest(booking));
      failure := None;
    }

    /** handlePaymentCanceled: set the payment flag, save, then check the barrier. */
    method HandlePaymentCanceled(id: int) returns (failure: Option<BookingError>)
      requires store.Valid()
      modifies store
      ensures store.Valid() && store.nextId == old(store.nextId)
      ensures (store.rows, failure) == Handle(old(store.rows), PaymentCanceled(id))
    {
      var found := GetBookingOrThrow(id);
      if found.Err? {
        return Some(found.error);
      }
      var booking := found.value.MarkPaymentCanceled();
      assert booking.id == id;
      store.rows := store.rows[id := booking];
      CheckCancellationComplete(booking);
      assert store.rows == old(store.rows)[id := CancellationChecked(booking)];
      failure := None;
    }

    /** handleDatesUnlocked: set the inventory flag, save, then check the barrier. */
    method HandleDatesUnlocked(id: int) returns (failure: Option<BookingError>)
      requires store.Valid()
      modifies store
      ensures store.Valid() && store.nextId == old(store.nextId)
      ensures (store.rows, failure) == Handle(old(store.rows), DatesUnlocked(id))
    {
      var found := GetBookingOrThrow(id);
      if found.Err? {
        return Some(found.error);
      }
      var booking := found.value.MarkDatesUnlocked();
      assert booking.id == id;
      store.rows := store.rows[id := booking];
      CheckCancellationComplete(booking);
      assert store.rows == old(store.rows)[id := CancellationChecked(booking)];
      failure := None;
    }

    /** finalizeBookingCreation: a PENDING booking becomes CONFIRMED with the session id; any other is left alone. */
    method FinalizeBookingCreation(id: int, paymentSessionId: string) returns (failure: Option<BookingError>)
      requires store.Valid()
      modifies store
      ensures store.Valid() && store.nextId == old(store.nextId)
      ensures (store.rows, failure) == Handle(old(store.rows), FinalizeCreation(id, paymentSessionId))
    {
      var found := GetBookingOrThrow(id);
      if found.Err? {
        return Some(found.error);
      }
      var booking := found.value;
      if booking.status == Pending {
        booking := booking.(status := Confirmed, paymentId := Some(paymentSessionId));
        store.rows := store.rows[id := booking];
      } else {
        assert store.rows[id := booking] == store.rows;
      }
      failure := None;
    }

    /** failBookingCreation: a PENDING booking becomes CANCELED; the reason is only logged. */
    method FailBookingCreation(id: int, reason: string) returns (failure: Option<BookingError>)
      requires store.Valid()
      modifies store
      ensures store.Valid() && store.nextId == old(store.nextId)
      ensures (store.rows, failure) == Handle(old(store.rows), FailCreation(id, reason))
    {
      var found := GetBookingOrThrow(id);
      if found.Err? {
        return Some(found.error);
      }
      var booking := found.value;
      if booking.status == Pending {
        store.rows := store.rows[id := booking.(status := Canceled)];
      } else {
        assert store.rows[id := booking] == store.rows;
      }
      failure := None;
    }

    /** checkCancellationComplete: with both flags set, the booking is saved as CANCELED. */
    method CheckCancellationComplete(booking: Booking)
      requires store.Valid() && booking.id in store.rows
      modifies store
      ensures store.Valid() && store.nextId == old(store.nextId)
      ensures booking.paymentCanceled && booking.datesUnlocked ==>
        store.rows == old(store.rows)[booking.id := CancellationChecked(booking)]
      ensures !(booking.paymentCanceled && booking.datesUnlocked) ==> store.rows == old(store.rows)
    {
      if booking.paymentCanceled && booking.datesUnlocked {
        store.rows := store.rows[booking.id := booking.(status := Canceled)];
      }
    }
  }
}
