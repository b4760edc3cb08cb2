/**
 * PaymentServiceImpl: the payments table (bookingId unique), payment creation from a
 * provider session, status updates without a transition guard, and the lookups.
 * Rows are kept in table order, as findAll returns them.
 */
module Payments {
  import opened Common

  datatype PaymentStatus = Pending | Paid | Canceled | Failed | Refunded

  /** A row of the payments table; `id` stands for the generated UUID. */
  datatype Payment = Payment(
    id: int,
    userId: int,
    status: PaymentStatus,
    bookingId: int,
    sessionUrl: Option<string>,
    sessionId: Option<string>,
    phoneNumber: Option<string>,
    amountToPay: Money,
    paymentIntentId: Option<string>)

  /** What createPayment is asked for. */
  datatype PaymentRequest = PaymentRequest(bookingId: int, amountToPay: Money, phoneNumber: Option<string>)

  /** The checkout session the payment provider hands back. */
  datatype ProviderSession = ProviderSession(id: string, url: string)

  /** The exceptions of the payment side. */
  datatype PaymentError =
    | PaymentNotFound
    | UserIdMissing(bookingId: int)
    | DuplicateBookingId(bookingId: int)
    | SessionNotUnique(sessionId: string)
    | NullUserId(bookingId: int)
    | RemoteFailure(message: string)

  /** Primary keys and booking ids are unique, and every id is below the next one handed out. */
  predicate WellFormedPayments(rows: seq<Payment>, nextId: int) {
    && (forall i, j :: 0 <= i < j < |rows| ==> rows[i].id != rows[j].id && rows[i].bookingId != rows[j].bookingId)
    && (forall i :: 0 <= i < |rows| ==> rows[i].id < nextId)
  }

  /** Whether some payment already belongs to the booking. */
  predicate HasBooking(rows: seq<Payment>, bookingId: int) {
    exists i :: 0 <= i < |rows| && rows[i].bookingId == bookingId
  }

  /** findById: the payment with that primary key. */
  function FindById(rows: seq<Payment>, id: int): (r: Result<Payment, PaymentError>)
    ensures r.Ok? <==> exists i :: 0 <= i < |rows| && rows[i].id == id
    ensures r.Ok? ==> r.value in rows && r.value.id == id
    ensures r.Err? ==> r.error == PaymentNotFound
  {
    if rows == [] then Err(PaymentNotFound)
    else if rows[0].id == id then Ok(rows[0])
    else
      var rest := FindById(rows[1..], id);
      assert forall i :: 1 <= i < |rows| ==> rows[i] == rows[1..][i - 1];
      rest
  }

  /** The payments whose session id is the one given, in table order. */
  function WithSession(rows: seq<Payment>, sessionId: string): (found: seq<Payment>)
    ensures forall p :: p in found <==> p in rows && p.sessionId == Some(sessionId)
    ensures |found| <= |rows|
  {
    if rows == [] then []
    else
      var rest := WithSession(rows[1..], sessionId);
      assert forall p :: p in rows <==> p == rows[0] || p in rows[1..];
      if rows[0].sessionId == Some(sessionId) then [rows[0]] + rest else rest
  }

  /** findBySessionId: an Optional derived query, so a second match is an error as well as none. */
  function FindBySessionId(rows: seq<Payment>, sessionId: string): (r: Result<Payment, PaymentError>)
    ensures r.Ok? <==> |WithSession(rows, sessionId)| == 1
    ensures r.Ok? ==> r.value in rows && r.value.sessionId == Some(sessionId)
    ensures r == Err(PaymentNotFound) <==> WithSession(rows, sessionId) == []
    ensures r == Err(SessionNotUnique(sessionId)) <==> |WithSession(rows, sessionId)| > 1
  {
    var found := WithSession(rows, sessionId);
    if |found| == 0 then Err(PaymentNotFound)
    else if |found| == 1 then
      assert found[0] in found;
      Ok(found[0])
    else Err(SessionNotUnique(sessionId))
  }

  /** The table after one payment's status (and, when given, intent id) is overwritten. */
  function WithStatusOf(rows: seq<Payment>, id: int, status: PaymentStatus, intent: Option<Option<string>>): (updated: seq<Payment>)
    ensures |updated| == |rows|
    ensures forall i :: 0 <= i < |rows| && rows[i].id != id ==> updated[i] == rows[i]
    ensures forall i :: 0 <= i < |rows| && rows[i].id == id ==>
      updated[i] == rows[i].(status := status, paymentIntentId := intent.GetOr(rows[i].paymentIntentId))
  {
    seq(|rows|, i requires 0 <= i < |rows| =>
      if rows[i].id == id then rows[i].(status := status, paymentIntentId := intent.GetOr(rows[i].paymentIntentId))
      else rows[i])
  }

  /**
   * The stream filter of getPaymentsByUserId: each payment's booking owner comes from the
   * booking service (`ownerOf`), in table order; the first failed call, or a null owner
   * (equals on null), ends the whole call.
   */
  function PaymentsOfUser(rows: seq<Payment>, userId: int, ownerOf: int -> Result<Option<int>, string>)
    : (r: Result<seq<Payment>, PaymentError>)
    ensures r.Ok? <==> forall i :: 0 <= i < |rows| ==> ownerOf(rows[i].bookingId).Ok? && ownerOf(rows[i].bookingId).value.Some?
    ensures r.Ok? ==> forall p :: p in r.value <==> p in rows && ownerOf(p.bookingId) == Ok(Some(userId))
    ensures r.Ok? ==> |r.value| <= |rows|
  {
    if rows == [] then Ok([])
    else
      assert forall p :: p in rows <==> p == rows[0] || p in rows[1..];
      assert forall i :: 1 <= i < |rows| ==> rows[i] == rows[1..][i - 1];
      match ownerOf(rows[0].bookingId)
      case Err(message) => Err(RemoteFailure(message))
      case Ok(None) => Err(NullUserId(rows[0].bookingId))
      case Ok(Some(owner)) =>
        var rest := PaymentsOfUser(rows[1..], userId, ownerOf);
        if rest.Err? then rest
        else if owner == userId then Ok([rows[0]] + rest.value)
        else rest
  }

  // ---------------------------------------------------------------------------------------
  // Properties of the table operations

  /** A status update keeps the table well formed, and the payment is then found with the new status. */
  lemma StatusUpdateIsFound(rows: seq<Payment>, nextId: int, id: int, status: PaymentStatus, intent: Option<Option<string>>)
    requires WellFormedPayments(rows, nextId)
    requires FindById(rows, id).Ok?
    ensures WellFormedPayments(WithStatusOf(rows, id, status, intent), nextId)
    ensures FindById(WithStatusOf(rows, id, status, intent), id).Ok?
    ensures FindById(WithStatusOf(rows, id, status, intent), id).value.status == status
  {
    var updated := WithStatusOf(rows, id, status, intent);
    var i :| 0 <= i < |rows| && rows[i].id == id;
    assert updated[i].id == id;
    var found := FindById(updated, id).value;
    var j :| 0 <= j < |updated| && updated[j] == found;
    assert rows[j].id == id;
    assert i == j;
  }

  /** Any status can be set from any status: there is no transition guard, and setting it twice is setting it once. */
  lemma StatusUpdateIsUnguarded(rows: seq<Payment>, id: int, first: PaymentStatus, second: PaymentStatus)
    ensures WithStatusOf(WithStatusOf(rows, id, first, None), id, second, None) == WithStatusOf(rows, id, second, None)
  {
    var once := WithStatusOf(rows, id, second, None);
    var twice := WithStatusOf(WithStatusOf(rows, id, first, None), id, second, None);
    forall i | 0 <= i < |rows|
      ensures twice[i] == once[i]
    {
    }
  }

  /** The filter keeps table order: the payments of a user in a table are those of its two halves, one after the other. */
  lemma {:induction false} PaymentsOfUserSplits(a: seq<Payment>, b: seq<Payment>, userId: int, ownerOf: int -> Result<Option<int>, string>)
    requires PaymentsOfUser(a, userId, ownerOf).Ok? && PaymentsOfUser(b, userId, ownerOf).Ok?
    ensures PaymentsOfUser(a + b, userId, ownerOf) == Ok(PaymentsOfUser(a, userId, ownerOf).value + PaymentsOfUser(b, userId, ownerOf).value)
  {
    if a == [] {
      assert a + b == b;
      assert PaymentsOfUser(a, userId, ownerOf).value + PaymentsOfUser(b, userId, ownerOf).value == PaymentsOfUser(b, userId, ownerOf).value;
    } else {
      assert (a + b)[0] == a[0];
      assert (a + b)[1..] == a[1..] + b;
      assert forall i :: 1 <= i < |a| ==> a[i] == a[1..][i - 1];
      assert PaymentsOfUser(a[1..], userId, ownerOf).Ok?;
      PaymentsOfUserSplits(a[1..], b, userId, ownerOf);
      var owner := ownerOf(a[0].bookingId).value.value;
      if owner == userId {
        assert PaymentsOfUser(a, userId, ownerOf).value == [a[0]] + PaymentsOfUser(a[1..], userId, ownerOf).value;
        assert [a[0]] + (PaymentsOfUser(a[1..], userId, ownerOf).value + PaymentsOfUser(b, userId, ownerOf).value)
            == PaymentsOfUser(a, userId, ownerOf).value + PaymentsOfUser(b, userId, ownerOf).value;
      }
    }
  }

  /** The payments table together with the id generator. */
  class PaymentService {
    var rows: seq<Payment>
    var nextId: int

    ghost predicate Valid()
      reads this
    {
      WellFormedPayments(rows, nextId)
    }

    constructor ()
      ensures Valid() && rows == []
    {
      rows := [];
      nextId := 1;
    }

    /**
     * createPayment: `session` is the provider's answer and `owner` the booking service's
     * user lookup, made in that order. A null owner is an error and nothing is saved;
     * a second payment for the same booking breaks the unique constraint of the table.
     */
    method CreatePayment(request: PaymentRequest, session: Result<ProviderSession, string>, owner: Result<Option<int>, string>)
      returns (r: Result<Payment, PaymentError>)
      requires Valid()
      modifies this
      ensures Valid()
      ensures session.Err? ==> r == Err(RemoteFailure(session.error))
      ensures session.Ok? && owner.Err? ==> r == Err(RemoteFailure(owner.error))
      ensures session.Ok? && owner == Ok(None) ==> r == Err(UserIdMissing(request.bookingId))
      ensures session.Ok? && owner.Ok? && owner.value.Some? && HasBooking(old(rows), request.bookingId) ==>
        r == Err(DuplicateBookingId(request.bookingId))
      ensures r.Err? ==> rows == old(rows) && nextId == old(nextId)
      ensures r.Ok? <==> session.Ok? && owner.Ok? && owner.value.Some? && !HasBooking(old(rows), request.bookingId)
      ensures r.Ok? ==>
        && r.value == Payment(old(nextId), owner.value.value, Pending, request.bookingId, Some(session.value.url),
                              Some(session.value.id), request.phoneNumber, request.amountToPay, None)
        && rows == old(rows) + [r.value]
        && nextId == old(nextId) + 1
    {
      if session.Err? {
        return Err(RemoteFailure(session.error));
      }
      if owner.Err? {
        return Err(RemoteFailure(owner.error));
      }
      if owner.value.None? {
        return Err(UserIdMissing(request.bookingId));
      }
      if exists i :: 0 <= i < |rows| && rows[i].bookingId == request.bookingId {
        return Err(DuplicateBookingId(request.bookingId));
      }
      var payment := Payment(nextId, owner.value.value, Pending, request.bookingId, Some(session.value.url),
                             Some(session.value.id), request.phoneNumber, request.amountToPay, None);
      rows := rows + [payment];
      nextId := nextId + 1;
      r := Ok(payment);
    }

    /** getPaymentById. */
    function GetPaymentById(id: int): (r: Result<Payment, PaymentError>)
      reads this
      ensures r.Ok? <==> exists i :: 0 <= i < |rows| && rows[i].id == id
      ensures r.Ok? ==> r.value in rows && r.value.id == id
    {
      FindById(rows, id)
    }

    /** updatePaymentStatus: not found changes nothing; otherwise that payment alone takes the new status. */
    method UpdatePaymentStatus(id: int, status: PaymentStatus) returns (failure: Option<PaymentError>)
      requires Valid()
      modifies this
      ensures Valid() && nextId == old(nextId)
      ensures failure.Some? <==> FindById(old(rows), id).Err?
      ensures failure.Some? ==> failure.value == PaymentNotFound && rows == old(rows)
      ensures failure.None? ==> rows == WithStatusOf(old(rows), id, status, None)
    {
      var found := FindById(rows, id);
      if found.Err? {
        return Some(PaymentNotFound);
      }
      StatusUpdateIsFound(rows, nextId, id, status, None);
      rows := WithStatusOf(rows, id, status, None);
      failure := None;
    }

    /**
     * updatePaymentWithIntent, which the webhook calls but the payment service does not declare:
     * read here as updatePaymentStatus that also records the payment intent id.
     */
    method UpdatePaymentWithIntent(id: int, status: PaymentStatus, intentId: Option<string>) returns (failure: Option<PaymentError>)
      requires Valid()
      modifies this
      ensures Valid() && nextId == old(nextId)
      ensures failure.Some? <==> FindById(old(rows), id).Err?
      ensures failure.Some? ==> failure.value == PaymentNotFound && rows == old(rows)
      ensures failure.None? ==> rows == WithStatusOf(old(rows), id, status, Some(intentId))
    {
      var found := FindById(rows, id);
      if found.Err? {
        return Some(PaymentNotFound);
      }
      StatusUpdateIsFound(rows, nextId, id, status, Some(intentId));
      rows := WithStatusOf(rows, id, status, Some(intentId));
      failure := None;
    }

    /** getPaymentsByUserId. */
    function GetPaymentsByUserId(userId: int, ownerOf: int -> Result<Option<int>, string>): (r: Result<seq<Payment>, PaymentError>)
      reads this
      ensures r.Ok? ==> forall p :: p in r.value <==> p in rows && ownerOf(p.bookingId) == Ok(Some(userId))
    {
      PaymentsOfUser(rows, userId, ownerOf)
    }

    /** findBySessionId. */
    function GetBySessionId(sessionId: string): (r: Result<Payment, PaymentError>)
      reads this
      ensures r.Ok? ==> r.value in rows && r.value.sessionId == Some(sessionId)
      ensures r.Err? <==> |WithSession(rows, sessionId)| != 1
    {
      FindBySessionId(rows, sessionId)
    }
  }

  /** A search that misses the front of a table answers as the search in the rest does. */
  lemma {:induction false} FindAfterMiss(front: seq<Payment>, back: seq<Payment>, id: int)
    requires FindById(front, id).Err?
    ensures FindById(front + back, id) == FindById(back, id)
  {
    if front == [] {
      assert front + back == back;
    } else {
      assert (front + back)[1..] == front[1..] + back;
      assert front[0].id != id;
      FindAfterMiss(front[1..], back, id);
    }
  }

  /** A created payment is found by its id with status PENDING, and a second request for the same booking is refused. */
  lemma CreatedPaymentIsFound(rows: seq<Payment>, nextId: int, created: Payment)
    requires WellFormedPayments(rows, nextId)
    requires created.id == nextId && !HasBooking(rows, created.bookingId) && created.status == Pending
    ensures WellFormedPayments(rows + [created], nextId + 1)
    ensures FindById(rows + [created], created.id) == Ok(created)
    ensures HasBooking(rows + [created], created.bookingId)
  {
    var table := rows + [created];
    assert table[|rows|] == created;
    assert table[..|rows|] == rows;
    assert FindById(rows, created.id).Err?;
    FindAfterMiss(rows, [created], created.id);
  }
}
