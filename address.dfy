/**
 * AddressServiceImpl: an address table keyed by a generated id, with find-or-insert on
 * (street, address line, city, country), whole-row updates and filter queries.
 */
module Addresses {
  import opened Common

  datatype Address = Address(id: int, country: string, city: string, street: string, addressLine: string, zipCode: int)

  datatype AddressRequest = AddressRequest(country: string, city: string, street: string, addressLine: string, zipCode: int)

  datatype AddressError =
    | AddressNotFound(id: int)
    /** An Optional derived query that matches more than one row. */
    | MoreThanOneMatch

  /** The match key of createAddress: the zip code is not part of it. */
  predicate SameKey(a: Address, request: AddressRequest) {
    a.street == request.street && a.addressLine == request.addressLine && a.city == request.city && a.country == request.country
  }

  /** The ids of the rows matching a request's key. */
  function Matches(rows: map<int, Address>, request: AddressRequest): set<int> {
    set k | k in rows && SameKey(rows[k], request)
  }

  /** The row a request would insert. */
  function FromRequest(id: int, request: AddressRequest): Address {
    Address(id, request.country, request.city, request.street, request.addressLine, request.zipCode)
  }

  /** Keys are the row ids, handed out from 1 and all below the next id. */
  predicate WellFormedAddresses(rows: map<int, Address>, nextId: int) {
    1 <= nextId && forall k :: k in rows ==> rows[k].id == k && 1 <= k < nextId
  }

  /** The state after createAddress, and its answer. */
  datatype Created = Created(rows: map<int, Address>, nextId: int, answer: Result<Address, AddressError>)

  /** The largest matching id from 1 to n, if any. */
  function LastMatchUpTo(rows: map<int, Address>, request: AddressRequest, n: int): (m: Option<int>)
    ensures m.None? <==> forall k :: k in Matches(rows, request) ==> k < 1 || n < k
    ensures m.Some? ==> m.value in Matches(rows, request) && 1 <= m.value <= n
    decreases n
  {
    if n < 1 then None
    else if n in rows && SameKey(rows[n], request) then
      assert n in Matches(rows, request);
      Some(n)
    else LastMatchUpTo(rows, request, n - 1)
  }

  /**
   * createAddress: one matching row is returned as it is; none inserts the request under the
   * next id; more than one matching row makes the Optional query fail.
   */
  function CreateAddress(rows: map<int, Address>, nextId: int, request: AddressRequest): (c: Created)
    requires WellFormedAddresses(rows, nextId)
    ensures WellFormedAddresses(c.rows, c.nextId)
    ensures |Matches(rows, request)| == 1 ==>
      c.rows == rows && c.nextId == nextId && c.answer.Ok? && c.answer.value.id in Matches(rows, request)
      && c.answer.value == rows[c.answer.value.id]
    ensures Matches(rows, request) == {} ==>
      c.rows == rows[nextId := FromRequest(nextId, request)] && nextId !in rows && c.nextId == nextId + 1
      && c.answer == Ok(FromRequest(nextId, request))
    ensures |Matches(rows, request)| > 1 ==> c == Created(rows, nextId, Err(MoreThanOneMatch))
  {
    match LastMatchUpTo(rows, request, nextId - 1)
    case None =>
      assert forall k :: k !in Matches(rows, request);
      assert Matches(rows, request) == {};
      Created(rows[nextId := FromRequest(nextId, request)], nextId + 1, Ok(FromRequest(nextId, request)))
    case Some(k) =>
      if |Matches(rows, request)| == 1 then Created(rows, nextId, Ok(rows[k]))
      else
        assert |Matches(rows, request)| != 0;
        Created(rows, nextId, Err(MoreThanOneMatch))
  }

  /** A set holding two different ids has at least two elements. */
  lemma TwoMembers(s: set<int>, a: int, b: int)
    requires a in s && b in s && a != b
    ensures |s| >= 2
  {
    assert b in s - {a};
    assert |s - {a}| == |s| - 1;
  }

  /** Two identical requests give the same answer, and the second inserts nothing. */
  lemma CreateAddressIsIdempotent(rows: map<int, Address>, nextId: int, request: AddressRequest)
    requires WellFormedAddresses(rows, nextId)
    ensures var once := CreateAddress(rows, nextId, request);
            var twice := CreateAddress(once.rows, once.nextId, request);
            twice.rows == once.rows && twice.nextId == once.nextId && twice.answer == once.answer
  {
    var once := CreateAddress(rows, nextId, request);
    if Matches(rows, request) == {} {
      assert once.rows == rows[nextId := FromRequest(nextId, request)];
      assert nextId in Matches(once.rows, request);
      forall k | k in Matches(once.rows, request)
        ensures k == nextId
      {
        assert k == nextId || k in Matches(rows, request);
      }
      assert Matches(once.rows, request) == {nextId};
    }
  }

  /** Requests that differ only in their zip code find the same row. */
  lemma ZipCodeIsNotMatched(rows: map<int, Address>, nextId: int, request: AddressRequest, zipCode: int)
    requires WellFormedAddresses(rows, nextId)
    requires |Matches(rows, request)| == 1
    ensures CreateAddress(rows, nextId, request.(zipCode := zipCode)) == CreateAddress(rows, nextId, request)
  {
    forall k | k in rows
      ensures SameKey(rows[k], request.(zipCode := zipCode)) == SameKey(rows[k], request)
    {
    }
    var other := request.(zipCode := zipCode);
    assert Matches(rows, other) == Matches(rows, request);
    var a := CreateAddress(rows, nextId, other).answer.value.id;
    var b := CreateAddress(rows, nextId, request).answer.value.id;
    if a != b {
      TwoMembers(Matches(rows, request), a, b);
    }
  }

  /** The ids of the rows in any of the cities. */
  function IdsInCities(rows: map<int, Address>, cities: seq<string>): (ids: set<int>)
    ensures forall k :: k in ids <==> k in rows && rows[k].city in cities
  {
    set k | k in rows && rows[k].city in cities
  }

  /** The rows of one city. */
  function InCity(rows: map<int, Address>, city: string): (found: set<Address>)
    ensures forall a :: a in found <==> a in rows.Values && a.city == city
  {
    set a | a in rows.Values && a.city == city
  }

  /** The rows of one country. */
  function InCountry(rows: map<int, Address>, country: string): (found: set<Address>)
    ensures forall a :: a in found <==> a in rows.Values && a.country == country
  {
    set a | a in rows.Values && a.country == country
  }

  /** The rows among the ids; unknown ids are skipped. */
  function WithIds(rows: map<int, Address>, ids: seq<int>): (found: set<Address>)
    ensures forall a :: a in found <==> exists k :: k in ids && k in rows && rows[k] == a
  {
    set k | k in rows && k in ids :: rows[k]
  }

  class AddressService {
    var rows: map<int, Address>
    var nextId: int

    ghost predicate Valid()
      reads this
    {
      WellFormedAddresses(rows, nextId)
    }

    constructor ()
      ensures Valid() && rows == map[]
    {
      rows := map[];
      nextId := 1;
    }

    /** createAddress. */
    method Create(request: AddressRequest) returns (r: Result<Address, AddressError>)
      requires Valid()
      modifies this
      ensures Valid()
      ensures Created(rows, nextId, r) == CreateAddress(old(rows), old(nextId), request)
    {
      var existing := LastMatchUpTo(rows, request, nextId - 1);
      if existing.Some? {
        if |Matches(rows, request)| == 1 {
          return Ok(rows[existing.value]);
        }
        return Err(MoreThanOneMatch);
      }
      assert forall k :: k !in Matches(rows, request);
      assert Matches(rows, request) == {};
      var address := FromRequest(nextId, request);
      rows := rows[nextId := address];
      nextId := nextId + 1;
      r := Ok(address);
    }

    /** getAddressById. */
    function GetAddressById(id: int): (r: Result<Address, AddressError>)
      reads this
      ensures r.Ok? <==> id in rows
      ensures r.Ok? ==> r.value == rows[id]
      ensures r.Err? ==> r.error == AddressNotFound(id)
    {
      if id in rows then Ok(rows[id]) else Err(AddressNotFound(id))
    }

    /** updateAddress: all five fields of that row are overwritten; no other row changes. */
    method UpdateAddress(id: int, request: AddressRequest) returns (r: Result<Address, AddressError>)
      requires Valid()
      modifies this
      ensures Valid() && nextId == old(nextId)
      ensures id !in old(rows) ==> r == Err(AddressNotFound(id)) && rows == old(rows)
      ensures id in old(rows) ==> r == Ok(FromRequest(id, request)) && rows == old(rows)[id := FromRequest(id, request)]
    {
      if id !in rows {
        return Err(AddressNotFound(id));
      }
      var address := rows[id].(country := request.country, city := request.city, street := request.street,
                               addressLine := request.addressLine, zipCode := request.zipCode);
      rows := rows[id := address];
      r := Ok(address);
    }
  }

  /**
   * updateAddress does not check the match key, so it can give two rows the same key; from
   * then on createAddress with that key fails instead of finding a row.
   */
  lemma UpdateCanDuplicateKey(rows: map<int, Address>, nextId: int, id: int, other: int, request: AddressRequest)
    requires WellFormedAddresses(rows, nextId) && id in rows && other in rows && id != other
    requires SameKey(rows[other], request)
    ensures CreateAddress(rows[id := FromRequest(id, request)], nextId, request).answer == Err(MoreThanOneMatch)
  {
    var updated := rows[id := FromRequest(id, request)];
    assert id in Matches(updated, request);
    assert other in Matches(updated, request);
    TwoMembers(Matches(updated, request), id, other);
  }
}
