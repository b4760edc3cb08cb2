/**
 * BookingCompensationService: undoes a half-created booking. It re-reads the booking,
 * stops at once when it is missing or already CANCELED, otherwise tries to unlock the
 * request's dates, tries to cancel the payment when there is one, and marks the booking
 * CANCELED whether or not those calls succeeded.
 */
module Compensation {
  import opened Common
  import opened Bookings

  /** findById(...).orElse(null). */
  function Lookup(rows: map<int, Booking>, id: int): (found: Option<Booking>)
    ensures found.Some? <==> id in rows
    ensures found.Some? ==> found.value == rows[id]
  {
    if id in rows then Some(rows[id]) else None
  }

  /** Whether compensate has anything to do for the booking as the table holds it now. */
  predicate NeedsCompensation(current: Option<Booking>) {
    current.Some? && current.value.status != Canceled
  }

  /** The remote calls compensate makes: unlock the request's dates with no version, then cancel the payment if one is recorded. */
  function CompensationCalls(current: Option<Booking>, request: BookingRequest): (calls: seq<RemoteCall>)
    ensures !NeedsCompensation(current) ==> calls == []
    ensures NeedsCompensation(current) ==>
      |calls| >= 1 && calls[0] == UnlockDates(request.accommodationId, request.checkInDate, request.checkOutDate, None)
    ensures NeedsCompensation(current) ==> (|calls| == 2 <==> current.value.paymentId.Some?) && |calls| <= 2
    ensures |calls| == 2 ==> calls[1] == CancelPayment(current.value.paymentId.value)
  {
    if !NeedsCompensation(current) then []
    else
      [UnlockDates(request.accommodationId, request.checkInDate, request.checkOutDate, None)] +
      (if current.value.paymentId.Some? then [CancelPayment(current.value.paymentId.value)] else [])
  }

  /** The table after compensate for booking `id`. */
  function Compensated(rows: map<int, Booking>, id: int): (after: map<int, Booking>)
    ensures after.Keys == rows.Keys
    ensures id in rows ==> after[id] == rows[id].(status := Canceled)
    ensures forall k :: k in rows && k != id ==> after[k] == rows[k]
  {
    if NeedsCompensation(Lookup(rows, id)) then rows[id := rows[id].(status := Canceled)] else rows
  }

  /** compensate ends with the booking CANCELED, changes nothing else about it, and touches no other booking. */
  lemma CompensationEndsCanceled(rows: map<int, Booking>, id: int, nextId: int)
    requires KeysMatchIds(rows, nextId)
    ensures Compensated(rows, id).Keys == rows.Keys
    ensures id in rows ==> Compensated(rows, id)[id] == rows[id].(status := Canceled)
    ensures forall k :: k in rows && k != id ==> Compensated(rows, id)[k] == rows[k]
    ensures KeysMatchIds(Compensated(rows, id), nextId)
  {
    if id in rows && rows[id].status == Canceled {
      assert rows[id] == rows[id].(status := Canceled);
    }
  }

  /** A second compensate for the same booking makes no remote call and changes nothing. */
  lemma CompensationIsIdempotent(rows: map<int, Booking>, id: int, request: BookingRequest)
    ensures Compensated(Compensated(rows, id), id) == Compensated(rows, id)
    ensures CompensationCalls(Lookup(Compensated(rows, id), id), request) == []
  {
  }

  class BookingCompensationService {
    const store: BookingStore
    const remote: RemoteLog

    constructor (store: BookingStore, remote: RemoteLog)
      ensures this.store == store && this.remote == remote
    {
      this.store := store;
      this.remote := remote;
    }

    /**
     * compensate(booking, request): `unlock` and `cancel` are what the two remote calls did;
     * a failure of either is only logged, and nothing escapes.
     */
    method Compensate(booking: Booking, request: BookingRequest, unlock: Outcome, cancel: Outcome)
      requires store.Valid()
      modifies store, remote
      ensures store.Valid() && store.nextId == old(store.nextId)
      ensures store.rows == Compensated(old(store.rows), booking.id)
      ensures remote.calls == old(remote.calls) + CompensationCalls(Lookup(old(store.rows), booking.id), request)
    {
      var current := Lookup(store.rows, booking.id);
      if current.None? {
        return;
      }
      if current.value.status == Canceled {
        return;
      }
      remote.Record(UnlockDates(request.accommodationId, request.checkInDate, request.checkOutDate, None));
      if current.value.paymentId.Some? {
        remote.Record(CancelPayment(current.value.paymentId.value));
      }
      store.rows := store.rows[booking.id := current.value.(status := Canceled)];
    }
  }
}
