/**
 * PaymentKafkaListener and StripeWebhookStubController: the payment side's reactions to the
 * saga. initiatePayment and cancelPayment are not declared by the payment service; each is a
 * call that is recorded and whose outcome is a parameter.
 */
module PaymentMessaging {
  import opened Common
  import opened Payments

  datatype InventoryReservedEvent = InventoryReservedEvent(bookingId: int, userId: int, totalPrice: Money, phoneNumber: Option<string>)
  datatype BookingCancellationRequestedEvent = BookingCancellationRequestedEvent(
    bookingId: int, accommodationId: int, checkInDate: Date, checkOutDate: Date, paymentId: Option<string>, refundNeeded: bool)

  /** The events the payment side publishes. */
  datatype PaymentEvent =
    | PaymentFailedEvent(bookingId: int, userId: int, reason: string)
    | PaymentSuccessEvent(bookingId: int, userId: int, paymentSessionId: string, userEmailOrPhone: string)
    | PaymentCanceledEvent(bookingId: int, paymentId: Option<string>)

  /**
   * The calls into the payment service that it does not declare. cancelPayment takes the
   * booking id's decimal text; the model keeps the number.
   */
  datatype PaymentCall =
    | InitiatePayment(bookingId: int, userId: int, totalPrice: Money)
    | CancelPaymentOf(bookingId: int)

  /** The reason of the failure event for a failed initiation. */
  function InitializationFailure(message: string): (reason: string)
    ensures |reason| == |"Initialization failed: "| + |message|
    ensures reason[..|"Initialization failed: "|] == "Initialization failed: "
    ensures reason[|"Initialization failed: "|..] == message
  {
    "Initialization failed: " + message
  }

  /** What onInventoryReserved publishes: nothing on success, one failure event otherwise. */
  function ReservedReply(e: InventoryReservedEvent, initiation: Outcome): (sent: seq<PaymentEvent>)
    ensures initiation.Done? <==> sent == []
    ensures initiation.Failed? ==> sent == [PaymentFailedEvent(e.bookingId, e.userId, InitializationFailure(initiation.message))]
  {
    match initiation
    case Done => []
    case Failed(message) => [PaymentFailedEvent(e.bookingId, e.userId, InitializationFailure(message))]
  }

  /** The calls onBookingCancellationRequested makes: a cancel exactly when a refund is needed. */
  function CancellationCalls(e: BookingCancellationRequestedEvent): (calls: seq<PaymentCall>)
    ensures e.refundNeeded <==> calls == [CancelPaymentOf(e.bookingId)]
    ensures !e.refundNeeded <==> calls == []
  {
    if e.refundNeeded then [CancelPaymentOf(e.bookingId)] else []
  }

  /** The outgoing topic. */
  class PaymentOutbox {
    var sent: seq<PaymentEvent>

    constructor ()
      ensures sent == []
    {
      sent := [];
    }

    method Send(e: PaymentEvent)
      modifies this
      ensures sent == old(sent) + [e]
    {
      sent := sent + [e];
    }
  }

  /** The calls made to the payment operations the service does not declare. */
  class PaymentCallLog {
    var calls: seq<PaymentCall>

    constructor ()
      ensures calls == []
    {
      calls := [];
    }

    method Record(c: PaymentCall)
      modifies this
      ensures calls == old(calls) + [c]
    {
      calls := calls + [c];
    }
  }

  class PaymentKafkaListener {
    const gateway: PaymentCallLog
    const producer: PaymentOutbox

    constructor (gateway: PaymentCallLog, producer: PaymentOutbox)
      ensures this.gateway == gateway && this.producer == producer
    {
      this.gateway := gateway;
      this.producer := producer;
    }

    /** onInventoryReserved: initiate the payment; a failure is reported as PaymentFailed. */
    method OnInventoryReserved(e: InventoryReservedEvent, initiation: Outcome)
      modifies gateway, producer
      ensures gateway.calls == old(gateway.calls) + [InitiatePayment(e.bookingId, e.userId, e.totalPrice)]
      ensures producer.sent == old(producer.sent) + ReservedReply(e, initiation)
    {
      gateway.Record(InitiatePayment(e.bookingId, e.userId, e.totalPrice));
      if initiation.Failed? {
        producer.Send(PaymentFailedEvent(e.bookingId, e.userId, InitializationFailure(initiation.message)));
      }
    }

    /** onBookingCancellationRequested: refund only when asked; a refund failure is swallowed; always answer. */
    method OnBookingCancellationRequested(e: BookingCancellationRequestedEvent, refund: Outcome)
      modifies gateway, producer
      ensures gateway.calls == old(gateway.calls) + CancellationCalls(e)
      ensures producer.sent == old(producer.sent) + [PaymentCanceledEvent(e.bookingId, e.paymentId)]
    {
      if e.refundNeeded {
        gateway.Record(CancelPaymentOf(e.bookingId));
      }
      producer.Send(PaymentCanceledEvent(e.bookingId, e.paymentId));
    }
  }

  // ---------------------------------------------------------------------------------------
  // The webhook stub

  /** The webhook's HTTP answers; an exception escaping the handler is an error answer. */
  datatype WebhookResponse =
    | BadRequest(body: string)
    | OkBody(body: string)
    | ServerError(cause: PaymentError)
    | NullEventType

  /** The fields of the posted payload the handler reads; each may be absent. */
  datatype WebhookPayload = WebhookPayload(eventType: Option<string>, sessionId: Option<string>, paymentIntentId: Option<string>)

  const Completed: string := "checkout.session.completed"
  const Expired: string := "checkout.session.expired"

  /** Whether the header passes the check: present and equal to the configured secret. */
  predicate SignatureAccepted(signature: Option<string>, secret: string) {
    signature == Some(secret)
  }

  /** Whether the handler gets as far as the payment lookup. */
  predicate ReachesLookup(p: WebhookPayload, signature: Option<string>, secret: string) {
    SignatureAccepted(signature, secret) && p.sessionId.Some?
  }

  class StripeWebhookStub {
    const payments: PaymentService
    const gateway: PaymentCallLog
    const producer: PaymentOutbox
    const endpointSecret: string

    constructor (payments: PaymentService, gateway: PaymentCallLog, producer: PaymentOutbox, endpointSecret: string)
      ensures this.payments == payments && this.gateway == gateway && this.producer == producer
      ensures this.endpointSecret == endpointSecret
    {
      this.payments := payments;
      this.gateway := gateway;
      this.producer := producer;
      this.endpointSecret := endpointSecret;
    }

    /**
     * handleFakeStripeEvent. `cancel` is what cancelPayment did on an expired session; its
     * exception escapes before the failure event is sent. A null event type reaches the
     * switch and fails there, after the lookup.
     */
    method HandleFakeStripeEvent(p: WebhookPayload, signature: Option<string>, cancel: Outcome) returns (r: WebhookResponse)
      requires payments.Valid()
      modifies payments, gateway, producer
      ensures payments.Valid()
      ensures !SignatureAccepted(signature, endpointSecret) ==>
        r == BadRequest("Invalid signature") && payments.rows == old(payments.rows)
        && gateway.calls == old(gateway.calls) && producer.sent == old(producer.sent)
      ensures SignatureAccepted(signature, endpointSecret) && p.sessionId.None? ==>
        r == OkBody("ignored") && payments.rows == old(payments.rows)
        && gateway.calls == old(gateway.calls) && producer.sent == old(producer.sent)
      ensures ReachesLookup(p, signature, endpointSecret) && FindBySessionId(old(payments.rows), p.sessionId.value).Err? ==>
        r == ServerError(FindBySessionId(old(payments.rows), p.sessionId.value).error) && payments.rows == old(payments.rows)
        && gateway.calls == old(gateway.calls) && producer.sent == old(producer.sent)
      ensures ReachesLookup(p, signature, endpointSecret) && FindBySessionId(old(payments.rows), p.sessionId.value).Ok? ==>
        var payment := FindBySessionId(old(payments.rows), p.sessionId.value).value;
        && (p.eventType == Some(Completed) ==>
              && r == OkBody("success")
              && payments.rows == WithStatusOf(old(payments.rows), payment.id, Paid, Some(p.paymentIntentId))
              && gateway.calls == old(gateway.calls)
              && producer.sent == old(producer.sent) + [PaymentSuccessEvent(payment.bookingId, payment.userId, p.sessionId.value, "user@example.com")])
        && (p.eventType == Some(Expired) ==>
              && payments.rows == old(payments.rows)
              && gateway.calls == old(gateway.calls) + [CancelPaymentOf(payment.bookingId)]
              && (cancel.Done? ==>
                    (r == OkBody("success") &&
                     producer.sent == old(producer.sent) + [PaymentFailedEvent(payment.bookingId, payment.userId, "Session expired")]))
              && (cancel.Failed? ==> r == ServerError(RemoteFailure(cancel.message)) && producer.sent == old(producer.sent)))
        && (p.eventType.None? ==>
              r == NullEventType && payments.rows == old(payments.rows)
              && gateway.calls == old(gateway.calls) && producer.sent == old(producer.sent))
        && (p.eventType.Some? && p.eventType.value != Completed && p.eventType.value != Expired ==>
              r == OkBody("success") && payments.rows == old(payments.rows)
              && gateway.calls == old(gateway.calls) && producer.sent == old(producer.sent))
    {
      if signature.None? || signature.value != endpointSecret {
        return BadRequest("Invalid signature");
      }
      if p.sessionId.None? {
        return OkBody("ignored");
      }
      var sessionId := p.sessionId.value;
      var found := payments.GetBySessionId(sessionId);
      if found.Err? {
        return ServerError(found.error);
      }
      var payment := found.value;
      if p.eventType.None? {
        return NullEventType;
      }
      if p.eventType.value == Completed {
        var failure := payments.UpdatePaymentWithIntent(payment.id, Paid, p.paymentIntentId);
        producer.Send(PaymentSuccessEvent(payment.bookingId, payment.userId, sessionId, "user@example.com"));
      } else if p.eventType.value == Expired {
        gateway.Record(CancelPaymentOf(payment.bookingId));
        if cancel.Failed? {
          return ServerError(RemoteFailure(cancel.message));
        }
        producer.Send(PaymentFailedEvent(payment.bookingId, payment.userId, "Session expired"));
      }
      r := OkBody("success");
    }
  }
}
