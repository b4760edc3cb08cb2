/**
 * BookingKafkaListener: each incoming saga message, once parsed, becomes exactly one call into
 * BookingSagaService; a message that does not parse, and any exception the call raises, is
 * only logged.
 */
module BookingListener {
  import opened Common
  import opened Bookings
  import opened BookingSaga

  datatype PaymentSuccessEvent = PaymentSuccessEvent(bookingId: int, userId: int, paymentSessionId: string, userEmailOrPhone: string)
  datatype InventoryReservationFailedEvent = InventoryReservationFailedEvent(bookingId: int, userId: int, reason: string)
  datatype PaymentFailedEvent = PaymentFailedEvent(bookingId: int, userId: int, reason: string)
  datatype PaymentCanceledEvent = PaymentCanceledEvent(bookingId: int, paymentId: Option<string>)
  datatype DatesUnlockedEvent = DatesUnlockedEvent(bookingId: int, accommodationId: int)

  /** A parsed message, tagged by the topic it came from. */
  datatype IncomingMessage =
    | PaymentSucceeded(success: PaymentSuccessEvent)
    | InventoryFailed(inventoryFailure: InventoryReservationFailedEvent)
    | PaymentFailedMessage(paymentFailure: PaymentFailedEvent)
    | PaymentCanceledMessage(canceled: PaymentCanceledEvent)
    | DatesUnlockedMessage(unlocked: DatesUnlockedEvent)

  /** The booking a message is about. */
  function BookingOf(m: IncomingMessage): int {
    match m
    case PaymentSucceeded(e) => e.bookingId
    case InventoryFailed(e) => e.bookingId
    case PaymentFailedMessage(e) => e.bookingId
    case PaymentCanceledMessage(e) => e.bookingId
    case DatesUnlockedMessage(e) => e.bookingId
  }

  /**
   * The routing table: payment success finalises with the session id, both failure topics
   * fail the creation with the event's reason, and the two cancellation answers go to their
   * barrier handlers; every call names the message's booking.
   */
  function Route(m: IncomingMessage): (c: SagaCall)
    ensures c.bookingId == BookingOf(m)
    ensures c.FinalizeCreation? <==> m.PaymentSucceeded?
    ensures c.FinalizeCreation? ==> c.paymentSessionId == m.success.paymentSessionId
    ensures c.FailCreation? <==> m.InventoryFailed? || m.PaymentFailedMessage?
    ensures m.InventoryFailed? ==> c.reason == m.inventoryFailure.reason
    ensures m.PaymentFailedMessage? ==> c.reason == m.paymentFailure.reason
    ensures c.PaymentCanceled? <==> m.PaymentCanceledMessage?
    ensures c.DatesUnlocked? <==> m.DatesUnlockedMessage?
  {
    match m
    case PaymentSucceeded(e) => FinalizeCreation(e.bookingId, e.paymentSessionId)
    case InventoryFailed(e) => FailCreation(e.bookingId, e.reason)
    case PaymentFailedMessage(e) => FailCreation(e.bookingId, e.reason)
    case PaymentCanceledMessage(e) => PaymentCanceled(e.bookingId)
    case DatesUnlockedMessage(e) => DatesUnlocked(e.bookingId)
  }

  /** A message delivered twice leaves the table as one delivery did. */
  lemma RedeliveryIsHarmless(rows: map<int, Booking>, m: IncomingMessage)
    ensures Handle(Handle(rows, Route(m)).0, Route(m)).0 == Handle(rows, Route(m)).0
  {
    var c := Route(m);
    if c.bookingId in rows {
      var b := rows[c.bookingId];
      match c {
        case FinalizeCreation(_, s) => FinalizeIsIdempotent(b, s, s);
        case FailCreation(_, _) => FailCancelsOnlyPending(b);
        case PaymentCanceled(_) => BarrierHandlersIdempotent(b);
        case DatesUnlocked(_) => BarrierHandlersIdempotent(b);
      }
      assert rows[c.bookingId := Apply(b, c)][c.bookingId := Apply(Apply(b, c), c)] == rows[c.bookingId := Apply(b, c)];
    }
  }

  class BookingKafkaListener {
    const saga: BookingSagaService
    /** The saga calls made so far, in order. */
    var dispatched: seq<SagaCall>

    constructor (saga: BookingSagaService)
      ensures this.saga == saga && dispatched == []
    {
      this.saga := saga;
      dispatched := [];
    }

    /** The common body of every listener: one saga call for a parsed message; its failure is swallowed. */
    method Receive(message: Option<IncomingMessage>)
      requires saga.store.Valid()
      modifies this, saga.store
      ensures saga.store.Valid() && saga.store.nextId == old(saga.store.nextId)
      ensures message.None? ==> dispatched == old(dispatched) && saga.store.rows == old(saga.store.rows)
      ensures message.Some? ==> dispatched == old(dispatched) + [Route(message.value)]
      ensures message.Some? ==> saga.store.rows == Handle(old(saga.store.rows), Route(message.value)).0
    {
      if message.None? {
        return;
      }
      var call := Route(message.value);
      dispatched := dispatched + [call];
      var failure: Option<BookingError>;
      match call {
        case FinalizeCreation(id, sessionId) => failure := saga.FinalizeBookingCreation(id, sessionId);
        case FailCreation(id, reason) => failure := saga.FailBookingCreation(id, reason);
        case PaymentCanceled(id) => failure := saga.HandlePaymentCanceled(id);
        case DatesUnlocked(id) => failure := saga.HandleDatesUnlocked(id);
      }
    }

    /** onPaymentSuccess. */
    method OnPaymentSuccess(message: Option<PaymentSuccessEvent>)
      requires saga.store.Valid()
      modifies this, saga.store
      ensures saga.store.Valid() && saga.store.nextId == old(saga.store.nextId)
      ensures message.None? ==> dispatched == old(dispatched) && saga.store.rows == old(saga.store.rows)
      ensures message.Some? ==>
        dispatched == old(dispatched) + [FinalizeCreation(message.value.bookingId, message.value.paymentSessionId)]
      ensures message.Some? ==>
        saga.store.rows == Handle(old(saga.store.rows), FinalizeCreation(message.value.bookingId, message.value.paymentSessionId)).0
    {
      Receive(if message.Some? then Some(PaymentSucceeded(message.value)) else None);
    }

    /** onInventoryFailure. */
    method OnInventoryFailure(message: Option<InventoryReservationFailedEvent>)
      requires saga.store.Valid()
      modifies this, saga.store
      ensures saga.store.Valid() && saga.store.nextId == old(saga.store.nextId)
      ensures message.None? ==> dispatched == old(dispatched) && saga.store.rows == old(saga.store.rows)
      ensures message.Some? ==> dispatched == old(dispatched) + [FailCreation(message.value.bookingId, message.value.reason)]
      ensures message.Some? ==>
        saga.store.rows == Handle(old(saga.store.rows), FailCreation(message.value.bookingId, message.value.reason)).0
    {
      Receive(if message.Some? then Some(InventoryFailed(message.value)) else None);
    }

    /** onPaymentFailure. */
    method OnPaymentFailure(message: Option<PaymentFailedEvent>)
      requires saga.store.Valid()
      modifies this, saga.store
      ensures saga.store.Valid() && saga.store.nextId == old(saga.store.nextId)
      ensures message.None? ==> dispatched == old(dispatched) && saga.store.rows == old(saga.store.rows)
      ensures message.Some? ==> dispatched == old(dispatched) + [FailCreation(message.value.bookingId, message.value.reason)]
      ensures message.Some? ==>
        saga.store.rows == Handle(old(saga.store.rows), FailCreation(message.value.bookingId, message.value.reason)).0
    {
      Receive(if message.Some? then Some(PaymentFailedMessage(message.value)) else None);
    }

    /** onPaymentCanceled. */
    method OnPaymentCanceled(message: Option<PaymentCanceledEvent>)
      requires saga.store.Valid()
      modifies this, saga.store
      ensures saga.store.Valid() && saga.store.nextId == old(saga.store.nextId)
      ensures message.None? ==> dispatched == old(dispatched) && saga.store.rows == old(saga.store.rows)
      ensures message.Some? ==> dispatched == old(dispatched) + [PaymentCanceled(message.value.bookingId)]
      ensures message.Some? ==> saga.store.rows == Handle(old(saga.store.rows), PaymentCanceled(message.value.bookingId)).0
    {
      Receive(if message.Some? then Some(PaymentCanceledMessage(message.value)) else None);
    }

    /** onDatesUnlocked. */
    method OnDatesUnlocked(message: Option<DatesUnlockedEvent>)
      requires saga.store.Valid()
      modifies this, saga.store
      ensures saga.store.Valid() && saga.store.nextId == old(saga.store.nextId)
      ensures message.None? ==> dispatched == old(dispatched) && saga.store.rows == old(saga.store.rows)
      ensures message.Some? ==> dispatched == old(dispatched) + [DatesUnlocked(message.value.bookingId)]
      ensures message.Some? ==> saga.store.rows == Handle(old(saga.store.rows), DatesUnlocked(message.value.bookingId)).0
    {
      Receive(if message.Some? then Some(DatesUnlockedMessage(message.value)) else None);
    }
  }
}
