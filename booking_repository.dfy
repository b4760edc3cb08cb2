/** BookingRepository's derived finders and JPQL queries, as filters over the bookings table. */
module BookingQueries {
  import opened Common
  import opened Bookings

  /** findAllByUserId. */
  function FindAllByUserId(rows: map<int, Booking>, userId: int): (found: set<Booking>)
    ensures forall b :: b in found <==> b in rows.Values && b.userId == userId
  {
    set b | b in rows.Values && b.userId == userId
  }

  /** findBookingsByUserIdAndStatus. */
  function FindByUserIdAndStatus(rows: map<int, Booking>, userId: int, status: Status): (found: set<Booking>)
    ensures found <= FindAllByUserId(rows, userId)
    ensures forall b :: b in found <==> b in rows.Values && b.userId == userId && b.status == status
  {
    set b | b in rows.Values && b.userId == userId && b.status == status
  }

  /** The findOverlappingBookings condition: same unit, CONFIRMED, and check-in or check-out inside from..to. */
  predicate OverlapCondition(b: Booking, accommodationId: int, from: Date, to: Date) {
    && b.accommodationId == accommodationId
    && ((from <= b.checkInDate <= to) || (from <= b.checkOutDate <= to))
    && b.status == Confirmed
  }

  /** findOverlappingBookings. */
  function FindOverlappingBookings(rows: map<int, Booking>, accommodationId: int, from: Date, to: Date): (found: set<Booking>)
    ensures forall b :: b in found <==> b in rows.Values && OverlapCondition(b, accommodationId, from, to)
  {
    set b | b in rows.Values && OverlapCondition(b, accommodationId, from, to)
  }

  /** findExpiredBookings: check-out on or before the given day, any status but CANCELED. */
  function FindExpiredBookings(rows: map<int, Booking>, tomorrow: Date): (found: set<Booking>)
    ensures forall b :: b in found <==> b in rows.Values && b.checkOutDate <= tomorrow && b.status != Canceled
  {
    set b | b in rows.Values && b.checkOutDate <= tomorrow && b.status != Canceled
  }

  /** The largest key of the table that is at most `n`, if there is one. */
  function LargestKeyUpTo(rows: map<int, Booking>, n: int): (key: Option<int>)
    ensures key.None? <==> forall k :: k in rows ==> k < 1 || n < k
    ensures key.Some? ==> key.value in rows && 1 <= key.value <= n
    ensures key.Some? ==> forall k :: k in rows && k <= n ==> k <= key.value
    decreases n
  {
    if n < 1 then None
    else if n in rows then Some(n)
    else LargestKeyUpTo(rows, n - 1)
  }

  /** findTopByOrderByIdDesc: the booking with the largest id, or empty for an empty table. */
  function FindTopByOrderByIdDesc(rows: map<int, Booking>, nextId: int): (top: Option<Booking>)
    requires KeysMatchIds(rows, nextId)
    ensures top.None? <==> rows == map[]
    ensures top.Some? ==> top.value in rows.Values && forall b :: b in rows.Values ==> b.id <= top.value.id
  {
    match LargestKeyUpTo(rows, nextId - 1)
    case None =>
      assert forall k :: k !in rows;
      assert rows == map[];
      None
    case Some(k) => Some(rows[k])
  }

  // ---------------------------------------------------------------------------------------
  // What the overlap and expiry queries do and do not return

  /** Only CONFIRMED bookings of the asked-for unit come back from the overlap query. */
  lemma OverlapOnlyConfirmed(rows: map<int, Booking>, accommodationId: int, from: Date, to: Date, b: Booking)
    requires b in FindOverlappingBookings(rows, accommodationId, from, to)
    ensures b.status == Confirmed && b.accommodationId == accommodationId
  {
  }

  /** Every booking the overlap query returns, when its own dates are ordered, really intersects from..to. */
  lemma OverlapIsSound(rows: map<int, Booking>, accommodationId: int, from: Date, to: Date, b: Booking)
    requires b in FindOverlappingBookings(rows, accommodationId, from, to)
    requires b.checkInDate <= b.checkOutDate
    ensures b.checkInDate <= to && from <= b.checkOutDate
  {
  }

  /**
   * The condition misses a CONFIRMED booking that strictly encloses from..to, although that
   * booking occupies every day of the range.
   */
  lemma EnclosingBookingNotReturned(rows: map<int, Booking>, accommodationId: int, from: Date, to: Date, b: Booking)
    requires b in rows.Values && b.accommodationId == accommodationId && b.status == Confirmed
    requires b.checkInDate < from && to < b.checkOutDate
    ensures b !in FindOverlappingBookings(rows, accommodationId, from, to)
    ensures from <= to ==> b.checkInDate <= to && from <= b.checkOutDate
  {
  }

  /** The expiry query returns PENDING and EXPIRED bookings as well as CONFIRMED ones, never a CANCELED one. */
  lemma ExpiredIncludesEveryLiveStatus(rows: map<int, Booking>, tomorrow: Date, k: int)
    requires k in rows && rows[k].checkOutDate <= tomorrow
    ensures rows[k] in FindExpiredBookings(rows, tomorrow) <==> rows[k].status in {Pending, Confirmed, Expired}
  {
  }
}
