/**
 * BookingServiceImpl: synchronous booking creation (validate, look up, lock, price, save
 * PENDING, create the payment, confirm, notify; compensate on a later failure) and the read
 * paths with their ownership check. Every remote answer is a parameter.
 */
module BookingServices {
  import opened Common
  import opened Bookings
  import opened BookingQueries
  import opened Compensation
  import BookingSaga
  import Availability
  import AccommodationMessaging

  /** The accommodation as the accommodation service returns it to the booking service. */
  datatype AccommodationView = AccommodationView(id: int, dailyRate: Money, version: Option<int>)

  /** The lock answer as the booking service reads it. */
  datatype LockResponse = LockResponse(success: bool, message: string, dailyRate: Option<Money>)

  /** The date checks: check-in strictly before check-out, then check-in not before today. */
  function ValidateDates(checkIn: Date, checkOut: Date, today: Date): (problem: Option<BookingError>)
    ensures problem == Some(InvalidDates) <==> checkOut <= checkIn
    ensures problem == Some(CheckInInPast) <==> checkIn < checkOut && checkIn < today
    ensures problem.None? <==> checkIn < checkOut && today <= checkIn
  {
    if checkIn >= checkOut then Some(InvalidDates)
    else if checkIn < today then Some(CheckInInPast)
    else None
  }

  /** ChronoUnit.DAYS.between(checkIn, checkOut): the number of nights. */
  function Nights(checkIn: Date, checkOut: Date): int {
    checkOut - checkIn
  }

  /** The rate the stay is priced at: the lock answer's rate when present, else the accommodation's. */
  function RateFor(lock: LockResponse, accommodation: AccommodationView): Money {
    lock.dailyRate.GetOr(accommodation.dailyRate)
  }

  /** rate times nights. */
  function TotalPrice(rate: Money, checkIn: Date, checkOut: Date): Money {
    rate * Nights(checkIn, checkOut)
  }

  /** The booking savePendingBooking writes. */
  function PendingBooking(id: int, request: BookingRequest, userId: int, totalPrice: Money): Booking {
    Booking(id, userId, request.accommodationId, request.checkInDate, request.checkOutDate, Pending,
            totalPrice, request.phoneNumber, None, false, false, false)
  }

  /** How the user lookup behind getUserIdFromAuthentication can fail. */
  datatype LookupFailure = UserMissing | UserServiceFailed(message: string)

  /** getUserIdFromAuthentication's translation: a 404 becomes user-not-found, anything else a runtime failure. */
  function CallerError(f: LookupFailure): (e: BookingError)
    ensures e == UserNotFound <==> f.UserMissing?
    ensures f.UserServiceFailed? ==> e.RemoteFailure?
  {
    match f
    case UserMissing => UserNotFound
    case UserServiceFailed(_) => RemoteFailure("Error while fetching user ID from auth-service")
  }

  /** Whether createBooking gets as far as saving the PENDING booking. */
  predicate ReachesSave(request: BookingRequest, today: Date, user: Result<Option<int>, string>,
                        accommodation: Result<AccommodationView, string>, lock: Result<LockResponse, string>)
  {
    && ValidateDates(request.checkInDate, request.checkOutDate, today).None?
    && user.Ok? && user.value.Some?
    && accommodation.Ok?
    && lock.Ok? && lock.value.success
  }

  // ---------------------------------------------------------------------------------------
  // Properties of validation and pricing

  /** A request that passes validation covers at least one night. */
  lemma ValidStayHasNights(checkIn: Date, checkOut: Date, today: Date)
    requires ValidateDates(checkIn, checkOut, today).None?
    ensures Nights(checkIn, checkOut) >= 1
  {
  }

  /** The nights a stay is priced for, one date each, from check-in to the day before check-out. */
  function StayNights(checkIn: Date, checkOut: Date): (days: seq<Date>)
    ensures |days| == if checkOut <= checkIn then 0 else Nights(checkIn, checkOut)
  {
    seq(if checkOut <= checkIn then 0 else checkOut - checkIn, k => checkIn + k)
  }

  /**
   * The nights a booking is priced for are exactly the days its cancellation unlocks: a slot
   * falls in the cancellation's unlock range check-in..NightsLastDay iff it is the booking's
   * unit's and its date is one of the stay's nights, so the check-out day's slot is never
   * among them; and the price is the rate times the number of those nights.
   */
  lemma PricedNightsAreTheUnlockedDays(b: Booking, rate: Money, s: Availability.Slot)
    requires b.checkInDate < b.checkOutDate
    ensures var unlockedTo := AccommodationMessaging.NightsLastDay(BookingSaga.CancellationRequest(b));
            Availability.InRange(s, b.accommodationId, b.checkInDate, unlockedTo) <==>
              s.accommodationId == b.accommodationId && s.date in StayNights(b.checkInDate, b.checkOutDate)
    ensures s.accommodationId == b.accommodationId && s.date == b.checkOutDate ==>
              s.date !in StayNights(b.checkInDate, b.checkOutDate)
    ensures TotalPrice(rate, b.checkInDate, b.checkOutDate) == rate * |StayNights(b.checkInDate, b.checkOutDate)|
  {
    var days := StayNights(b.checkInDate, b.checkOutDate);
    if b.checkInDate <= s.date <= b.checkOutDate - 1 {
      assert days[s.date - b.checkInDate] == s.date;
    }
  }

  /**
   * A booking createBooking has just saved is confirmed the same way by the synchronous
   * confirmBooking and by the saga's finalizeBookingCreation; once confirmed, a late creation
   * failure or a duplicate success changes nothing, and a single cancellation answer does not
   * cancel the fresh booking, since both of its barrier flags start unset.
   */
  lemma SavedBookingMeetsTheSaga(id: int, request: BookingRequest, userId: int, totalPrice: Money, sessionId: string, other: string)
    ensures var saved := PendingBooking(id, request, userId, totalPrice);
            var confirmed := saved.(status := Confirmed, paymentId := Some(sessionId));
            && BookingSaga.Finalized(saved, sessionId) == confirmed
            && BookingSaga.CreationFailed(confirmed) == confirmed
            && BookingSaga.Finalized(confirmed, other) == confirmed
            && BookingSaga.AfterPaymentCanceled(saved).status == Pending
            && BookingSaga.AfterDatesUnlocked(saved).status == Pending
  {
  }

  // ---------------------------------------------------------------------------------------
  // The service

  class BookingService {
    const store: BookingStore
    const remote: RemoteLog
    const compensation: BookingCompensationService

    ghost predicate Valid()
      reads this, store, compensation
    {
      store.Valid() && compensation.store == store && compensation.remote == remote
    }

    constructor (store: BookingStore, remote: RemoteLog, compensation: BookingCompensationService)
      requires store.Valid() && compensation.store == store && compensation.remote == remote
      ensures Valid() && this.store == store && this.remote == remote && this.compensation == compensation
    {
      this.store := store;
      this.remote := remote;
      this.compensation := compensation;
    }

    /**
     * createBooking. `user`, `accommodation`, `lock`, `payment` (the session id) and
     * `notification` are the answers of the user lookup, getAccommodationById, lockDates,
     * createPayment and the notification send; `unlock` and `cancel` are those of the
     * compensation's two calls. An exception before the PENDING save is raised as it is;
     * one after it runs compensation first and is then raised again.
     */
    method CreateBooking(request: BookingRequest, today: Date, user: Result<Option<int>, string>,
                         accommodation: Result<AccommodationView, string>, lock: Result<LockResponse, string>,
                         payment: Result<string, string>, notification: Outcome, unlock: Outcome, cancel: Outcome)
      returns (r: Result<Booking, BookingError>)
      requires Valid()
      modifies store, remote
      ensures Valid()
      // Validation and the user lookup come before any remote call.
      ensures ValidateDates(request.checkInDate, request.checkOutDate, today).Some? ==>
        r == Err(ValidateDates(request.checkInDate, request.checkOutDate, today).value) && remote.calls == old(remote.calls)
      ensures ValidateDates(request.checkInDate, request.checkOutDate, today).None? && user.Err? ==>
        r == Err(RemoteFailure(user.error)) && remote.calls == old(remote.calls)
      ensures ValidateDates(request.checkInDate, request.checkOutDate, today).None? && user == Ok(None) ==>
        r == Err(UserIdMissing) && remote.calls == old(remote.calls)
      // Failures of the lookup and the lock save nothing and compensate nothing.
      ensures ValidateDates(request.checkInDate, request.checkOutDate, today).None? && user.Ok? && user.value.Some? && accommodation.Err? ==>
        r == Err(RemoteFailure(accommodation.error)) && remote.calls == old(remote.calls) + [GetAccommodation(request.accommodationId)]
      ensures ValidateDates(request.checkInDate, request.checkOutDate, today).None? && user.Ok? && user.value.Some? && accommodation.Ok? ==>
        && |remote.calls| >= |old(remote.calls)| + 2
        && remote.calls[..|old(remote.calls)| + 2] == old(remote.calls) + [GetAccommodation(request.accommodationId),
             LockDates(request.accommodationId, request.checkInDate, request.checkOutDate, accommodation.value.version)]
      ensures ValidateDates(request.checkInDate, request.checkOutDate, today).None? && user.Ok? && user.value.Some? && accommodation.Ok? && lock.Err? ==>
        r == Err(RemoteFailure(lock.error)) && |remote.calls| == |old(remote.calls)| + 2
      ensures ValidateDates(request.checkInDate, request.checkOutDate, today).None? && user.Ok? && user.value.Some? && accommodation.Ok?
              && lock.Ok? && !lock.value.success ==>
        r == Err(AccommodationNotAvailable(lock.value.message)) && |remote.calls| == |old(remote.calls)| + 2
      ensures !ReachesSave(request, today, user, accommodation, lock) ==>
        r.Err? && store.rows == old(store.rows) && store.nextId == old(store.nextId)
      // From the save on.
      ensures ReachesSave(request, today, user, accommodation, lock) ==> store.nextId == old(store.nextId) + 1
      ensures ReachesSave(request, today, user, accommodation, lock) && payment.Ok? && notification.Done? ==>
        var saved := PendingBooking(old(store.nextId), request, user.value.value,
                                    TotalPrice(RateFor(lock.value, accommodation.value), request.checkInDate, request.checkOutDate));
        && r == Ok(saved.(status := Confirmed, paymentId := Some(payment.value)))
        && store.rows == old(store.rows)[saved.id := r.value]
        && remote.calls == old(remote.calls) + [GetAccommodation(request.accommodationId),
             LockDates(request.accommodationId, request.checkInDate, request.checkOutDate, accommodation.value.version),
             CreatePayment(saved.id, saved.totalPrice, saved.phoneNumber),
             SendNotification(saved.userId, request.phoneNumber, saved.id)]
      ensures ReachesSave(request, today, user, accommodation, lock) && payment.Err? ==>
        var saved := PendingBooking(old(store.nextId), request, user.value.value,
                                    TotalPrice(RateFor(lock.value, accommodation.value), request.checkInDate, request.checkOutDate));
        && r == Err(RemoteFailure(payment.error))
        && store.rows == old(store.rows)[saved.id := saved.(status := Canceled)]
        && remote.calls == old(remote.calls) + [GetAccommodation(request.accommodationId),
             LockDates(request.accommodationId, request.checkInDate, request.checkOutDate, accommodation.value.version),
             CreatePayment(saved.id, saved.totalPrice, saved.phoneNumber),
             UnlockDates(request.accommodationId, request.checkInDate, request.checkOutDate, None)]
      ensures ReachesSave(request, today, user, accommodation, lock) && payment.Ok? && notification.Failed? ==>
        var saved := PendingBooking(old(store.nextId), request, user.value.value,
                                    TotalPrice(RateFor(lock.value, accommodation.value), request.checkInDate, request.checkOutDate));
        && r == Err(RemoteFailure(notification.message))
        && store.rows == old(store.rows)[saved.id := saved.(status := Canceled, paymentId := Some(payment.value))]
        && remote.calls == old(remote.calls) + [GetAccommodation(request.accommodationId),
             LockDates(request.accommodationId, request.checkInDate, request.checkOutDate, accommodation.value.version),
             CreatePayment(saved.id, saved.totalPrice, saved.phoneNumber),
             SendNotification(saved.userId, request.phoneNumber, saved.id),
             UnlockDates(request.accommodationId, request.checkInDate, request.checkOutDate, None),
             CancelPayment(payment.value)]
    {
      var problem := ValidateDates(request.checkInDate, request.checkOutDate, today);
      if problem.Some? {
        return Err(problem.value);
      }
      if user.Err? {
        return Err(RemoteFailure(user.error));
      }
      if user.value.None? {
        return Err(UserIdMissing);
      }
      var userId := user.value.value;

      remote.Record(GetAccommodation(request.accommodationId));
      if accommodation.Err? {
        return Err(RemoteFailure(accommodation.error));
      }
      var unit := accommodation.value;
      remote.Record(LockDates(request.accommodationId, request.checkInDate, request.checkOutDate, unit.version));
      if lock.Err? {
        return Err(RemoteFailure(lock.error));
      }
      if !lock.value.success {
        return Err(AccommodationNotAvailable(lock.value.message));
      }

      var totalPrice := TotalPrice(RateFor(lock.value, unit), request.checkInDate, request.checkOutDate);
      var saved := SavePendingBooking(request, userId, totalPrice);

      remote.Record(CreatePayment(saved.id, saved.totalPrice, saved.phoneNumber));
      if payment.Err? {
        Compensate(saved, request, unlock, cancel);
        return Err(RemoteFailure(payment.error));
      }
      var confirmed := ConfirmBooking(saved.id, payment.value);

      remote.Record(SendNotification(userId, request.phoneNumber, saved.id));
      if notification.Failed? {
        Compensate(saved, request, unlock, cancel);
        return Err(RemoteFailure(notification.message));
      }
      r := Ok(store.rows[saved.id]);
    }

    /** The service's own compensate: the same routine as the compensation service, which it runs. */
    method Compensate(booking: Booking, request: BookingRequest, unlock: Outcome, cancel: Outcome)
      requires Valid()
      modifies store, remote
      ensures Valid() && store.nextId == old(store.nextId)
      ensures store.rows == Compensated(old(store.rows), booking.id)
      ensures remote.calls == old(remote.calls) + CompensationCalls(Lookup(old(store.rows), booking.id), request)
    {
      compensation.Compensate(booking, request, unlock, cancel);
    }

    /** savePendingBooking: a new PENDING booking with the request's fields, the user and the price. */
    method SavePendingBooking(request: BookingRequest, userId: int, totalPrice: Money) returns (saved: Booking)
      requires Valid()
      modifies store
      ensures Valid()
      ensures saved == PendingBooking(old(store.nextId), request, userId, totalPrice)
      ensures saved.id !in old(store.rows)
      ensures store.rows == old(store.rows)[saved.id := saved] && store.nextId == old(store.nextId) + 1
    {
      saved := PendingBooking(store.nextId, request, userId, totalPrice);
      store.rows := store.rows[saved.id := saved];
      store.nextId := store.nextId + 1;
    }

    /** confirmBooking: sets only the payment id and CONFIRMED; not found for an unknown id. */
    method ConfirmBooking(id: int, paymentId: string) returns (failure: Option<BookingError>)
      requires Valid()
      modifies store
      ensures Valid() && store.nextId == old(store.nextId)
      ensures id !in old(store.rows) ==> failure == Some(NotFound(id)) && store.rows == old(store.rows)
      ensures id in old(store.rows) ==> failure == None
      ensures id in old(store.rows) ==>
        store.rows == old(store.rows)[id := old(store.rows)[id].(status := Confirmed, paymentId := Some(paymentId))]
    {
      if id !in store.rows {
        return Some(NotFound(id));
      }
      store.rows := store.rows[id := store.rows[id].(status := Confirmed, paymentId := Some(paymentId))];
      failure := None;
    }

    /** getUserBookings: the caller's bookings; `caller` is the user lookup's answer, errors as raised. */
    function GetUserBookings(caller: Result<Option<int>, LookupFailure>): (r: Result<set<Booking>, BookingError>)
      reads store
      ensures caller.Err? ==> r == Err(CallerError(caller.error))
      ensures caller.Ok? ==> r.Ok? && forall b :: b in r.value <==> b in store.rows.Values && Some(b.userId) == caller.value
    {
      match caller
      case Err(f) => Err(CallerError(f))
      case Ok(None) => Ok({})
      case Ok(Some(userId)) => Ok(FindAllByUserId(store.rows, userId))
    }

    /**
     * getBookingById: not found for an unknown id, then the caller lookup's own error, then
     * access denied unless the booking's user is the caller (a null caller id matches nobody).
     */
    function GetBookingById(id: int, caller: Result<Option<int>, LookupFailure>): (r: Result<Booking, BookingError>)
      reads store
      ensures id !in store.rows ==> r == Err(NotFound(id))
      ensures id in store.rows && caller.Err? ==> r == Err(CallerError(caller.error))
      ensures r.Ok? <==> id in store.rows && caller == Ok(Some(store.rows[id].userId))
      ensures r.Ok? ==> r.value == store.rows[id]
      ensures r == Err(AccessDenied) <==> id in store.rows && caller.Ok? && caller.value != Some(store.rows[id].userId)
    {
      if id !in store.rows then Err(NotFound(id))
      else if caller.Err? then Err(CallerError(caller.error))
      else if caller.value != Some(store.rows[id].userId) then Err(AccessDenied)
      else Ok(store.rows[id])
    }

    /** getUserIdByBookingId. */
    function GetUserIdByBookingId(id: int): (r: Result<int, BookingError>)
      reads store
      ensures r.Ok? <==> id in store.rows
      ensures r.Ok? ==> r.value == store.rows[id].userId
      ensures r.Err? ==> r.error == NotFound(id)
    {
      if id in store.rows then Ok(store.rows[id].userId) else Err(NotFound(id))
    }

    /** deleteBookingById: not found for an unknown id, else that booking alone is removed. */
    method DeleteBookingById(id: int) returns (failure: Option<BookingError>)
      requires Valid()
      modifies store
      ensures Valid() && store.nextId == old(store.nextId)
      ensures id !in old(store.rows) ==> failure == Some(NotFound(id)) && store.rows == old(store.rows)
      ensures id in old(store.rows) ==> failure == None && store.rows == old(store.rows) - {id}
    {
      if id !in store.rows {
        return Some(NotFound(id));
      }
      store.rows := store.rows - {id};
      failure := None;
    }

    /** getLastBooking: the booking with the largest id; no bookings is an error. */
    function GetLastBooking(): (r: Result<Booking, BookingError>)
      reads this, store, compensation
      requires Valid()
      ensures r.Err? <==> store.rows == map[]
      ensures r.Err? ==> r.error == NoBookings
      ensures r.Ok? ==> r.value in store.rows.Values && forall b :: b in store.rows.Values ==> b.id <= r.value.id
    {
      match FindTopByOrderByIdDesc(store.rows, store.nextId)
      case None => Err(NoBookings)
      case Some(b) => Ok(b)
    }
  }
}
