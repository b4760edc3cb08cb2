/**
 * The inventory ledger's slot table (AccommodationAvailabilityServiceImpl): one row per
 * accommodation and calendar day, each with a `locked` flag.
 */
module Availability {
  import opened Common

  /** A row of the availability_slots table. */
  datatype Slot = Slot(accommodationId: int, date: Date, locked: bool)

  /** The row belongs to `unit` and its date lies in from..to, both ends included (Spring Data's Between). */
  predicate InRange(s: Slot, unit: int, from: Date, to: Date) {
    s.accommodationId == unit && from <= s.date <= to
  }

  /** The table's unique constraint on (accommodation_id, date). */
  predicate UniqueSlots(rows: seq<Slot>) {
    forall i, j :: 0 <= i < j < |rows| ==>
      rows[i].accommodationId != rows[j].accommodationId || rows[i].date != rows[j].date
  }

  /** findByAccommodationIdAndDateBetween: the rows of `unit` dated from..to, in table order. */
  function Between(rows: seq<Slot>, unit: int, from: Date, to: Date): (found: seq<Slot>)
    ensures forall s :: s in found <==> s in rows && InRange(s, unit, from, to)
    ensures |found| <= |rows|
  {
    if rows == [] then []
    else if InRange(rows[0], unit, from, to) then [rows[0]] + Between(rows[1..], unit, from, to)
    else Between(rows[1..], unit, from, to)
  }

  /** The table after deleteByAccommodationId(unit): the rows of every other unit, in table order. */
  function Without(rows: seq<Slot>, unit: int): (kept: seq<Slot>)
    ensures forall s :: s in kept <==> s in rows && s.accommodationId != unit
    ensures |kept| <= |rows|
  {
    if rows == [] then []
    else if rows[0].accommodationId != unit then [rows[0]] + Without(rows[1..], unit)
    else Without(rows[1..], unit)
  }

  /** How many rows the table holds for `unit`. */
  function CountOf(rows: seq<Slot>, unit: int): nat {
    if rows == [] then 0
    else (if rows[0].accommodationId == unit then 1 else 0) + CountOf(rows[1..], unit)
  }

  /** The rows initializeAvailabilitySlots builds: `n` unlocked days from `today` (none when n <= 0). */
  function FreshSlots(unit: int, n: int, today: Date): seq<Slot> {
    seq(if n < 0 then 0 else n, k => Slot(unit, today + k, false))
  }

  /** The table after initializeAvailabilitySlots(unit, n): the unit's rows replaced by created ones. */
  function Reinitialized(rows: seq<Slot>, unit: int, n: int, today: Date): seq<Slot> {
    Without(rows, unit) + FreshSlots(unit, n, today)
  }

  /**
   * areDatesAvailable: the query finds at least one row of `unit` dated from..to and none of
   * the rows it finds is locked. Days that have no row are not looked at.
   */
  function Available(rows: seq<Slot>, unit: int, from: Date, to: Date): (available: bool)
    ensures available <==>
      (exists s :: s in rows && InRange(s, unit, from, to)) &&
      (forall s :: s in rows && InRange(s, unit, from, to) ==> !s.locked)
  {
    var found := Between(rows, unit, from, to);
    assert found != [] ==> found[0] in found;
    found != [] && forall i :: 0 <= i < |found| ==> !found[i].locked
  }

  /** One row after its locked flag was set to `v` if it lies in the range. */
  function Flagged(s: Slot, unit: int, from: Date, to: Date, v: bool): Slot {
    if InRange(s, unit, from, to) then s.(locked := v) else s
  }

  /** The table after lockDates (v = true) or unlockDates (v = false) over from..to. */
  function WithLockFlag(rows: seq<Slot>, unit: int, from: Date, to: Date, v: bool): seq<Slot> {
    seq(|rows|, i requires 0 <= i < |rows| => Flagged(rows[i], unit, from, to, v))
  }

  // ---------------------------------------------------------------------------------------
  // Properties of the table operations

  lemma {:induction false} CountOfConcat(a: seq<Slot>, b: seq<Slot>, unit: int)
    ensures CountOf(a + b, unit) == CountOf(a, unit) + CountOf(b, unit)
  {
    if a == [] {
      assert a + b == b;
    } else {
      assert (a + b)[1..] == a[1..] + b;
      CountOfConcat(a[1..], b, unit);
    }
  }

  lemma {:induction false} CountOfWithout(rows: seq<Slot>, unit: int)
    ensures CountOf(Without(rows, unit), unit) == 0
  {
    if rows != [] {
      CountOfWithout(rows[1..], unit);
      if rows[0].accommodationId != unit {
        assert ([rows[0]] + Without(rows[1..], unit))[1..] == Without(rows[1..], unit);
      }
    }
  }

  lemma {:induction false} CountOfFresh(unit: int, n: nat, today: Date)
    ensures CountOf(FreshSlots(unit, n, today), unit) == n
  {
    if n > 0 {
      var f := FreshSlots(unit, n, today);
      assert f == FreshSlots(unit, n - 1, today) + [Slot(unit, today + n - 1, false)];
      CountOfFresh(unit, n - 1, today);
      CountOfConcat(FreshSlots(unit, n - 1, today), [Slot(unit, today + n - 1, false)], unit);
    }
  }

  /** Deleting a unit's rows keeps the remaining rows free of duplicate keys. */
  lemma {:induction false} WithoutUnique(rows: seq<Slot>, unit: int)
    requires UniqueSlots(rows)
    ensures UniqueSlots(Without(rows, unit))
  {
    if rows != [] {
      var tail := rows[1..];
      assert UniqueSlots(tail) by {
        forall i, j | 0 <= i < j < |tail|
          ensures tail[i].accommodationId != tail[j].accommodationId || tail[i].date != tail[j].date
        {
          assert tail[i] == rows[i + 1] && tail[j] == rows[j + 1];
        }
      }
      WithoutUnique(tail, unit);
      if rows[0].accommodationId != unit {
        var w := Without(tail, unit);
        var r := [rows[0]] + w;
        forall i, j | 0 <= i < j < |r|
          ensures r[i].accommodationId != r[j].accommodationId || r[i].date != r[j].date
        {
          if i == 0 {
            assert r[j] == w[j - 1] && w[j - 1] in tail;
            var k :| 0 <= k < |tail| && tail[k] == w[j - 1];
            assert tail[k] == rows[k + 1];
          } else {
            assert r[i] == w[i - 1] && r[j] == w[j - 1];
          }
        }
      }
    }
  }

  /**
   * initializeAvailabilitySlots(unit, n): afterwards the unit has exactly n rows (none when
   * n <= 0), one per day today..today+n-1, all unlocked; every other unit's rows are as before,
   * and the table keeps its unique constraint.
   */
  lemma ReinitializedSlots(rows: seq<Slot>, unit: int, n: int, today: Date)
    ensures var after := Reinitialized(rows, unit, n, today);
      && (forall s: Slot :: s in after && s.accommodationId == unit <==>
            s.accommodationId == unit && today <= s.date < today + n && !s.locked)
      && CountOf(after, unit) == (if n < 0 then 0 else n)
      && (forall s: Slot :: s.accommodationId != unit ==> (s in after <==> s in rows))
      && (UniqueSlots(rows) ==> UniqueSlots(after))
  {
    var kept := Without(rows, unit);
    var created := FreshSlots(unit, n, today);
    var after := kept + created;
    forall s: Slot | s.accommodationId == unit && today <= s.date < today + n && !s.locked
      ensures s in after
    {
      assert s == created[s.date - today];
    }
    CountOfConcat(kept, created, unit);
    CountOfWithout(rows, unit);
    CountOfFresh(unit, if n < 0 then 0 else n, today);
    if UniqueSlots(rows) {
      WithoutUnique(rows, unit);
      forall i, j | 0 <= i < j < |after|
        ensures after[i].accommodationId != after[j].accommodationId || after[i].date != after[j].date
      {
        if j >= |kept| && i < |kept| {
          assert after[i] in kept;
        }
      }
    }
  }

  /**
   * lockDates / unlockDates create and delete no row, keep every row's key, give every row in
   * the range the new flag, leave every other row as it was, and keep the unique constraint.
   */
  lemma LockFlagTouchesOnlyRange(rows: seq<Slot>, unit: int, from: Date, to: Date, v: bool)
    ensures var after := WithLockFlag(rows, unit, from, to, v);
      && |after| == |rows|
      && (forall i :: 0 <= i < |rows| ==>
            after[i].accommodationId == rows[i].accommodationId && after[i].date == rows[i].date)
      && (forall i :: 0 <= i < |rows| && InRange(rows[i], unit, from, to) ==> after[i].locked == v)
      && (forall i :: 0 <= i < |rows| && !InRange(rows[i], unit, from, to) ==> after[i] == rows[i])
      && (UniqueSlots(rows) ==> UniqueSlots(after))
  {
  }

  /** Locking (or unlocking) the same range twice is the same as doing it once. */
  lemma LockFlagIdempotent(rows: seq<Slot>, unit: int, from: Date, to: Date, v: bool)
    ensures var once := WithLockFlag(rows, unit, from, to, v);
      WithLockFlag(once, unit, from, to, v) == once
  {
  }

  /**
   * No double booking: once a range is locked, every availability check over a range that
   * shares an existing row with it reports unavailable.
   */
  lemma LockedRangeUnavailable(rows: seq<Slot>, unit: int, from: Date, to: Date, i: int, from': Date, to': Date)
    requires 0 <= i < |rows| && InRange(rows[i], unit, from, to) && InRange(rows[i], unit, from', to')
    ensures !Available(WithLockFlag(rows, unit, from, to, true), unit, from', to')
  {
    var after := WithLockFlag(rows, unit, from, to, true);
    assert after[i] in after && after[i].locked && InRange(after[i], unit, from', to');
  }

  /** After unlocking a range that has at least one row, the same range is available. */
  lemma UnlockedRangeAvailable(rows: seq<Slot>, unit: int, from: Date, to: Date, i: int)
    requires 0 <= i < |rows| && InRange(rows[i], unit, from, to)
    ensures Available(WithLockFlag(rows, unit, from, to, false), unit, from, to)
  {
    var after := WithLockFlag(rows, unit, from, to, false);
    assert after[i] in after && InRange(after[i], unit, from, to);
    forall s | s in after && InRange(s, unit, from, to) ensures !s.locked {
      var k :| 0 <= k < |after| && after[k] == s;
    }
  }

  /** A range in which no row exists is never available, whatever the locks. */
  lemma MissingRowsUnavailable(rows: seq<Slot>, unit: int, from: Date, to: Date)
    requires forall i :: 0 <= i < |rows| ==> !InRange(rows[i], unit, from, to)
    ensures !Available(rows, unit, from, to)
  {
  }

  /** A range in which only some days have rows is still available when those rows are unlocked. */
  lemma PartialRangeAvailable(rows: seq<Slot>, unit: int, from: Date, to: Date, i: int)
    requires 0 <= i < |rows| && InRange(rows[i], unit, from, to)
    requires forall k :: 0 <= k < |rows| && InRange(rows[k], unit, from, to) ==> !rows[k].locked
    ensures Available(rows, unit, from, to)
  {
    assert rows[i] in rows;
  }

  // ---------------------------------------------------------------------------------------
  // The service over the table

  /** AccommodationAvailabilityServiceImpl together with the slot table it writes. */
  class AvailabilityService {
    var rows: seq<Slot>

    ghost predicate Valid()
      reads this
    {
      UniqueSlots(rows)
    }

    constructor ()
      ensures Valid() && rows == []
    {
      rows := [];
    }

    /** Deletes the unit's rows, then saves `availability` created unlocked rows from `today`. */
    method InitializeAvailabilitySlots(unit: int, availability: int, today: Date)
      requires Valid()
      modifies this
      ensures Valid()
      ensures rows == Reinitialized(old(rows), unit, availability, today)
    {
      rows := Without(rows, unit);
      var created: seq<Slot> := [];
      var i := 0;
      while i < availability
        invariant 0 <= i <= (if availability < 0 then 0 else availability)
        invariant created == FreshSlots(unit, i, today)
      {
        created := created + [Slot(unit, today + i, false)];
        i := i + 1;
      }
      rows := rows + created;
      ReinitializedSlots(old(rows), unit, availability, today);
    }

    /** updateAvailabilitySlots is initializeAvailabilitySlots: every lock the unit held is gone. */
    method UpdateAvailabilitySlots(unit: int, newAvailability: int, today: Date)
      requires Valid()
      modifies this
      ensures Valid()
      ensures rows == Reinitialized(old(rows), unit, newAvailability, today)
      ensures forall s :: s in rows && s.accommodationId == unit ==> !s.locked
    {
      InitializeAvailabilitySlots(unit, newAvailability, today);
      ReinitializedSlots(old(rows), unit, newAvailability, today);
    }

    /** areDatesAvailable over checkIn..checkOut, both ends included. */
    method AreDatesAvailable(unit: int, checkIn: Date, checkOut: Date) returns (available: bool)
      ensures available == Available(rows, unit, checkIn, checkOut)
    {
      var slots := Between(rows, unit, checkIn, checkOut);
      available := slots != [] && forall i :: 0 <= i < |slots| ==> !slots[i].locked;
    }

    /** lockDates: every row of the unit dated checkIn..checkOut gets locked = true. */
    method LockDates(unit: int, checkIn: Date, checkOut: Date)
      requires Valid()
      modifies this
      ensures Valid()
      ensures rows == WithLockFlag(old(rows), unit, checkIn, checkOut, true)
    {
      SetLockFlag(unit, checkIn, checkOut, true);
      LockFlagTouchesOnlyRange(old(rows), unit, checkIn, checkOut, true);
    }

    /** unlockDates: every row of the unit dated checkIn..checkOut gets locked = false. */
    method UnlockDates(unit: int, checkIn: Date, checkOut: Date)
      requires Valid()
      modifies this
      ensures Valid()
      ensures rows == WithLockFlag(old(rows), unit, checkIn, checkOut, false)
    {
      SetLockFlag(unit, checkIn, checkOut, false);
      LockFlagTouchesOnlyRange(old(rows), unit, checkIn, checkOut, false);
    }

    /** The loop both lockDates and unlockDates run over the rows the range query finds. */
    method SetLockFlag(unit: int, from: Date, to: Date, v: bool)
      modifies this
      ensures rows == WithLockFlag(old(rows), unit, from, to, v)
    {
      var i := 0;
      while i < |rows|
        invariant 0 <= i <= |rows| == |old(rows)|
        invariant forall k :: 0 <= k < i ==> rows[k] == Flagged(old(rows)[k], unit, from, to, v)
        invariant forall k :: i <= k < |rows| ==> rows[k] == old(rows)[k]
      {
        if InRange(rows[i], unit, from, to) {
          rows := rows[i := rows[i].(locked := v)];
        }
        i := i + 1;
      }
    }
  }
}
