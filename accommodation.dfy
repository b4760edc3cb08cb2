/**
 * The accommodation side of the inventory ledger (AccommodationServiceImpl): accommodation
 * records with an optimistic version, and the version-gated lock over the slot table.
 */
module Accommodations {
  import opened Common
  import opened Availability

  datatype UnitType = House | Apartment | Condo | VacationHome

  /** A row of the accommodations table, with the optimistic `version` the service reads and bumps. */
  datatype Accommodation = Accommodation(
    id: int,
    unitType: UnitType,
    size: string,
    amenities: seq<string>,
    dailyRate: Money,
    availability: int,
    addressId: int,
    version: int)

  /** The creation request, after its location was handed to the address service. */
  datatype AccommodationRequest = AccommodationRequest(
    unitType: UnitType,
    size: string,
    amenities: seq<string>,
    dailyRate: Money,
    availability: Option<int>)

  /** A partial update: an absent field is left as it is. */
  datatype AccommodationUpdate = AccommodationUpdate(
    amenities: Option<seq<string>>,
    dailyRate: Option<Money>,
    availability: Option<int>)

  /** The lock request; a null expectedVersion never equals the stored version. */
  datatype LockCommand = LockCommand(checkInDate: Date, checkOutDate: Date, expectedVersion: Option<int>)

  /** The three messages lockDates answers with: stale data, dates already taken, dates locked. */
  datatype LockMessage = StaleVersion | DatesTaken | DatesLocked

  datatype LockResult = LockResult(success: bool, message: LockMessage, dailyRate: Option<Money>)

  /** The exceptions the service raises. */
  datatype AccommodationError = NotFound(id: int) | AddressServiceFailed(message: string)

  /** The whole state lockDates and unlockDates work on: the accommodations and the slot table. */
  datatype Ledger = Ledger(units: map<int, Accommodation>, rows: seq<Slot>)

  /** Whether a lock call answered with success = true. */
  predicate Won(r: Result<LockResult, AccommodationError>) {
    r.Ok? && r.value.success
  }

  /**
   * lockDates(id, cmd): not found for an unknown id; otherwise a stale version and then an
   * unavailable range each answer failure with no rate; otherwise every slot of the range is
   * locked, the version goes up by one and the answer carries the unit's daily rate.
   */
  function Lock(l: Ledger, id: int, cmd: LockCommand): (out: (Result<LockResult, AccommodationError>, Ledger))
    ensures out.0.Err? <==> id !in l.units
    ensures Won(out.0) <==>
      id in l.units && cmd.expectedVersion == Some(l.units[id].version) &&
      Available(l.rows, id, cmd.checkInDate, cmd.checkOutDate)
    ensures !Won(out.0) ==> out.1 == l
    ensures out.0.Ok? && !out.0.value.success ==> out.0.value.dailyRate == None
  {
    if id !in l.units then (Err(NotFound(id)), l)
    else
      var unit := l.units[id];
      if cmd.expectedVersion != Some(unit.version) then (Ok(LockResult(false, StaleVersion, None)), l)
      else if !Available(l.rows, id, cmd.checkInDate, cmd.checkOutDate) then (Ok(LockResult(false, DatesTaken, None)), l)
      else
        var rows := WithLockFlag(l.rows, id, cmd.checkInDate, cmd.checkOutDate, true);
        (Ok(LockResult(true, DatesLocked, Some(unit.dailyRate))), Ledger(l.units[id := unit.(version := unit.version + 1)], rows))
  }

  /** unlockDates(id, cmd): the range's slots become unlocked; the version is neither checked nor changed. */
  function Unlock(l: Ledger, id: int, cmd: LockCommand): (after: Ledger)
    ensures after.units == l.units
    ensures after.rows == WithLockFlag(l.rows, id, cmd.checkInDate, cmd.checkOutDate, false)
  {
    l.(rows := WithLockFlag(l.rows, id, cmd.checkInDate, cmd.checkOutDate, false))
  }

  /** update's field patch: each present field replaces the stored one, and nothing else changes. */
  function Patched(a: Accommodation, u: AccommodationUpdate): (r: Accommodation)
    ensures r.id == a.id && r.unitType == a.unitType && r.size == a.size
    ensures r.addressId == a.addressId && r.version == a.version
    ensures r.amenities == u.amenities.GetOr(a.amenities)
    ensures r.dailyRate == u.dailyRate.GetOr(a.dailyRate)
    ensures r.availability == u.availability.GetOr(a.availability)
  {
    var withAmenities := if u.amenities.Some? then a.(amenities := u.amenities.value) else a;
    var withRate := if u.dailyRate.Some? then withAmenities.(dailyRate := u.dailyRate.value) else withAmenities;
    if u.availability.Some? then withRate.(availability := u.availability.value) else withRate
  }

  /** findByAddressIdIn: the accommodations whose address is one of `addressIds`. */
  function WithAddressIn(units: map<int, Accommodation>, addressIds: seq<int>): (found: set<Accommodation>)
    ensures forall a :: a in found <==> (exists id :: id in units && units[id] == a) && a.addressId in addressIds
  {
    set id | id in units && units[id].addressId in addressIds :: units[id]
  }

  // ---------------------------------------------------------------------------------------
  // Properties of the versioned lock

  /** A successful lock locks the range, bumps that unit's version by exactly one and touches no other unit. */
  lemma LockSuccess(l: Ledger, id: int, cmd: LockCommand)
    requires Won(Lock(l, id, cmd).0)
    ensures var (r, after) := Lock(l, id, cmd);
      && r.value.dailyRate == Some(l.units[id].dailyRate)
      && after.units.Keys == l.units.Keys
      && after.units[id] == l.units[id].(version := l.units[id].version + 1)
      && (forall other :: other in l.units && other != id ==> after.units[other] == l.units[other])
      && after.rows == WithLockFlag(l.rows, id, cmd.checkInDate, cmd.checkOutDate, true)
  {
  }

  /** Two lock calls in a row that present the same expected version cannot both succeed. */
  lemma AtMostOneWinner(l: Ledger, id: int, first: LockCommand, second: LockCommand)
    requires first.expectedVersion == second.expectedVersion
    ensures var (r1, l1) := Lock(l, id, first);
      !(Won(r1) && Won(Lock(l1, id, second).0))
  {
    var (r1, l1) := Lock(l, id, first);
    if Won(r1) {
      LockSuccess(l, id, first);
      assert l1.units[id].version == l.units[id].version + 1;
    }
  }

  /** An unlock in between does not reopen the version: the same expected version still loses. */
  lemma UnlockKeepsVersionSpent(l: Ledger, id: int, first: LockCommand, cancel: LockCommand, second: LockCommand)
    requires first.expectedVersion == second.expectedVersion
    ensures var (r1, l1) := Lock(l, id, first);
      !(Won(r1) && Won(Lock(Unlock(l1, id, cancel), id, second).0))
  {
    var (r1, l1) := Lock(l, id, first);
    if Won(r1) {
      LockSuccess(l, id, first);
      assert Unlock(l1, id, cancel).units[id].version == l.units[id].version + 1;
    }
  }

  /**
   * No double booking: after a successful lock, a lock of any range that shares an existing
   * slot with it is refused, whatever version it presents.
   */
  lemma NoDoubleBooking(l: Ledger, id: int, first: LockCommand, second: LockCommand, i: int)
    requires Won(Lock(l, id, first).0)
    requires 0 <= i < |l.rows|
    requires InRange(l.rows[i], id, first.checkInDate, first.checkOutDate)
    requires InRange(l.rows[i], id, second.checkInDate, second.checkOutDate)
    ensures !Won(Lock(Lock(l, id, first).1, id, second).0)
  {
    LockSuccess(l, id, first);
    LockedRangeUnavailable(l.rows, id, first.checkInDate, first.checkOutDate, i, second.checkInDate, second.checkOutDate);
  }

  /** Unlocking exactly the range a successful lock locked gives back the slot table as it was. */
  lemma LockThenUnlockRestoresSlots(l: Ledger, id: int, cmd: LockCommand)
    requires Won(Lock(l, id, cmd).0)
    ensures Unlock(Lock(l, id, cmd).1, id, cmd).rows == l.rows
  {
    LockSuccess(l, id, cmd);
    var locked := WithLockFlag(l.rows, id, cmd.checkInDate, cmd.checkOutDate, true);
    var unlocked := WithLockFlag(locked, id, cmd.checkInDate, cmd.checkOutDate, false);
    forall k | 0 <= k < |l.rows| ensures unlocked[k] == l.rows[k] {
      if InRange(l.rows[k], id, cmd.checkInDate, cmd.checkOutDate) {
        assert l.rows[k] in l.rows;
      }
    }
  }

  /** A repeated patch changes nothing more: update is idempotent on the record. */
  lemma PatchIdempotent(a: Accommodation, u: AccommodationUpdate)
    ensures Patched(Patched(a, u), u) == Patched(a, u)
  {
  }

  /** An update with every field absent leaves the record as it was. */
  lemma EmptyPatchIsIdentity(a: Accommodation)
    ensures Patched(a, AccommodationUpdate(None, None, None)) == a
  {
  }

  // ---------------------------------------------------------------------------------------
  // The service

  /** AccommodationServiceImpl together with the accommodations table; the slot table is shared. */
  class AccommodationService {
    var units: map<int, Accommodation>
    var nextId: int
    const availability: AvailabilityService

    ghost predicate Valid()
      reads this, availability
    {
      && availability.Valid()
      && 1 <= nextId
      && (forall id :: id in units ==> units[id].id == id && id < nextId)
    }

    /** The ledger as lockDates sees it. */
    function Current(): Ledger
      reads this, availability
    {
      Ledger(units, availability.rows)
    }

    constructor (availability: AvailabilityService)
      requires availability.Valid()
      ensures Valid() && this.availability == availability && units == map[]
    {
      this.availability := availability;
      units := map[];
      nextId := 1;
    }

    /**
     * create: the address call's answer gives the address id (its failure propagates); the new
     * record gets version 0 and a fresh id, and the unit gets `availability` slots from today,
     * one when the request leaves it null.
     */
    method Create(request: AccommodationRequest, address: Result<int, string>, today: Date)
      returns (r: Result<Accommodation, AccommodationError>)
      requires Valid()
      modifies this, availability
      ensures Valid()
      ensures address.Err? ==> r == Err(AddressServiceFailed(address.error)) && units == old(units) && availability.rows == old(availability.rows)
      ensures address.Ok? ==> r.Ok? && r.value.id !in old(units)
      ensures address.Ok? ==> r == Ok(Accommodation(r.value.id, request.unitType, request.size, request.amenities,
                                                  request.dailyRate, request.availability.GetOr(1), address.value, 0))
      ensures address.Ok? ==> units == old(units)[r.value.id := r.value]
      ensures address.Ok? ==>
        availability.rows == Reinitialized(old(availability.rows), r.value.id, request.availability.GetOr(1), today)
    {
      if address.Err? {
        return Err(AddressServiceFailed(address.error));
      }
      var saved := Accommodation(nextId, request.unitType, request.size, request.amenities,
                                 request.dailyRate, request.availability.GetOr(1), address.value, 0);
      units := units[nextId := saved];
      nextId := nextId + 1;
      availability.InitializeAvailabilitySlots(saved.id, request.availability.GetOr(1), today);
      r := Ok(saved);
    }

    /** update: not found for an unknown id; otherwise the present fields are patched, and a present availability reinitialises the unit's slots. */
    method Update(id: int, patch: AccommodationUpdate, today: Date) returns (r: Result<Accommodation, AccommodationError>)
      requires Valid()
      modifies this, availability
      ensures Valid()
      ensures id !in old(units) ==> r == Err(NotFound(id)) && units == old(units) && availability.rows == old(availability.rows)
      ensures id in old(units) ==> r == Ok(Patched(old(units)[id], patch)) && units == old(units)[id := r.value]
      ensures id in old(units) ==>
        availability.rows == (if patch.availability.Some? then Reinitialized(old(availability.rows), id, patch.availability.value, today)
                              else old(availability.rows))
    {
      if id !in units {
        return Err(NotFound(id));
      }
      var updated := Patched(units[id], patch);
      if patch.availability.Some? {
        availability.UpdateAvailabilitySlots(id, patch.availability.value, today);
      }
      units := units[id := updated];
      r := Ok(updated);
    }

    /** getById: the record, or not found. */
    function GetById(id: int): (r: Result<Accommodation, AccommodationError>)
      reads this
      ensures r.Ok? <==> id in units
      ensures r.Ok? ==> r.value == units[id] && r.value in units.Values
      ensures r.Err? ==> r.error == NotFound(id)
    {
      if id in units then Ok(units[id]) else Err(NotFound(id))
    }

    /** getAll: every stored record. */
    function GetAll(): (all: set<Accommodation>)
      reads this
      ensures forall a :: a in all <==> exists id :: id in units && units[id] == a
    {
      set id | id in units :: units[id]
    }

    /** getAccommodationsByCity / ByCountry: the records whose address id the address service returned. */
    function GetByAddressIds(addressIds: seq<int>): (found: set<Accommodation>)
      reads this
      ensures found <= GetAll()
      ensures forall a :: a in found <==> a in GetAll() && a.addressId in addressIds
    {
      WithAddressIn(units, addressIds)
    }

    /** deleteById: the record goes; its slots stay in the slot table. */
    method DeleteById(id: int)
      requires Valid()
      modifies this
      ensures Valid()
      ensures units == old(units) - {id} && nextId == old(nextId)
    {
      units := units - {id};
    }

    /** isAvailable delegates to areDatesAvailable. */
    method IsAvailable(id: int, checkIn: Date, checkOut: Date) returns (available: bool)
      ensures available == Available(availability.rows, id, checkIn, checkOut)
    {
      available := availability.AreDatesAvailable(id, checkIn, checkOut);
    }

    /** lockDates: the version-gated lock, proved against `Lock`. */
    method LockDates(id: int, cmd: LockCommand) returns (r: Result<LockResult, AccommodationError>)
      requires Valid()
      modifies this, availability
      ensures Valid()
      ensures (r, Current()) == Lock(old(Current()), id, cmd)
      ensures nextId == old(nextId)
    {
      if id !in units {
        return Err(NotFound(id));
      }
      var unit := units[id];
      if cmd.expectedVersion != Some(unit.version) {
        return Ok(LockResult(false, StaleVersion, None));
      }
      var free := availability.AreDatesAvailable(id, cmd.checkInDate, cmd.checkOutDate);
      if !free {
        return Ok(LockResult(false, DatesTaken, None));
      }
      availability.LockDates(id, cmd.checkInDate, cmd.checkOutDate);
      units := units[id := unit.(version := unit.version + 1)];
      r := Ok(LockResult(true, DatesLocked, Some(unit.dailyRate)));
    }

    /** unlockDates: unlocks the range whatever the version, and raises nothing. */
    method UnlockDates(id: int, cmd: LockCommand)
      requires Valid()
      modifies availability
      ensures Valid()
      ensures Current() == Unlock(old(Current()), id, cmd)
    {
      availability.UnlockDates(id, cmd.checkInDate, cmd.checkOutDate);
    }
  }
}
