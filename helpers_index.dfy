/** The two list operations of src/cloudwise/helpers/index.ts: the page of
    a car's charge detail records that `get_cdrs` reads from the cached
    `cloudwise-cdrs` list, and the removal that the charging-state
    snapshot's `on_remove` applies to the cached charging-state list. */
module HelpersIndex {

  import opened Wrappers
  import opened CloudwiseTypes
  import opened SessionHelpers

  /** The page size and first index `get_cdrs` uses when none is given. */
  const DefaultLimit: nat := 100
  const DefaultOffset: nat := 0

  /** The cached CDR records of one car, in cache order. */
  function OfCar(cdrs: seq<StoredCdr>, carNumber: string): (r: seq<StoredCdr>)
    ensures forall x :: x in r <==> x in cdrs && x.carNumber == carNumber
  {
    Filter(cdrs, (x: StoredCdr) => x.carNumber == carNumber)
  }

  function Min(a: nat, b: nat): nat
  {
    if a <= b then a else b
  }

  /** `m.slice(offset, offset + limit)` for non-negative arguments: both
      ends are clamped to the length. */
  function Slice<T>(m: seq<T>, offset: nat, limit: nat): seq<T>
  {
    m[Min(offset, |m|)..Min(offset + limit, |m|)]
  }

  /** Two consecutive slices together are the slice that spans both. */
  lemma SlicesTile<T>(m: seq<T>, offset: nat, a: nat, b: nat)
    ensures Slice(m, offset, a) + Slice(m, offset + a, b) == Slice(m, offset, a + b)
  {
    var x, y, z := Min(offset, |m|), Min(offset + a, |m|), Min(offset + a + b, |m|);
    assert m[x..y] + m[y..z] == m[x..z];
  }

  /** `get_cdrs(car_number, { limit, offset })`: the car's records from
      position `offset` on, at most `limit` of them. `Array.prototype.slice`
      clamps both ends to the length, so an offset past the end gives an
      empty page. Offsets and limits are non-negative here. */
  function GetCdrs(cdrs: seq<StoredCdr>, carNumber: string, limit: Option<nat>, offset: Option<nat>): (r: seq<StoredCdr>)
    ensures forall x :: x in r ==> x in cdrs && x.carNumber == carNumber
    ensures |r| <= limit.GetOr(DefaultLimit)
    ensures offset.GetOr(DefaultOffset) >= |OfCar(cdrs, carNumber)| ==> r == []
    ensures offset.GetOr(DefaultOffset) < |OfCar(cdrs, carNumber)| ==>
      |r| == Min(limit.GetOr(DefaultLimit), |OfCar(cdrs, carNumber)| - offset.GetOr(DefaultOffset))
    ensures forall i :: 0 <= i < |r| ==> r[i] == OfCar(cdrs, carNumber)[offset.GetOr(DefaultOffset) + i]
  {
    Slice(OfCar(cdrs, carNumber), offset.GetOr(DefaultOffset), limit.GetOr(DefaultLimit))
  }

  /** Two consecutive pages read together are the page that spans both:
      paging neither skips nor repeats a record. */
  lemma PagesTile(cdrs: seq<StoredCdr>, carNumber: string, offset: nat, a: nat, b: nat)
    ensures GetCdrs(cdrs, carNumber, Some(a), Some(offset)) + GetCdrs(cdrs, carNumber, Some(b), Some(offset + a))
         == GetCdrs(cdrs, carNumber, Some(a + b), Some(offset))
  {
    SlicesTile(OfCar(cdrs, carNumber), offset, a, b);
  }

  /** Every record of the car is on exactly the page its position falls in. */
  lemma RecordOnItsPage(cdrs: seq<StoredCdr>, carNumber: string, limit: nat, k: nat)
    requires limit > 0 && k < |OfCar(cdrs, carNumber)|
    ensures OfCar(cdrs, carNumber)[k] == GetCdrs(cdrs, carNumber, Some(limit), Some(k / limit * limit))[k % limit]
  {
    var off := k / limit * limit;
    assert off + k % limit == k;
    assert k % limit < Min(limit, |OfCar(cdrs, carNumber)| - off);
  }

  // ----- on_remove -----

  /** No two cached charging states belong to the same car. */
  predicate UniqueCars(cars: seq<ChargingState>)
  {
    forall i, j :: 0 <= i < j < |cars| ==> cars[i].carNumber != cars[j].carNumber
  }

  /** `on_remove(docs)`: the cached charging states whose id is not the id
      of a removed document, in cache order. The removed documents are
      given by their ids. */
  function RemoveById(cars: seq<ChargingState>, removedIds: seq<string>): (r: seq<ChargingState>)
    ensures forall c :: c in r <==> c in cars && c.id !in removedIds
  {
    Filter(cars, (c: ChargingState) => c.id !in removedIds)
  }

  /** The removal keeps the order: it works element by element over
      consecutive parts of the list. */
  lemma RemoveKeepsOrder(a: seq<ChargingState>, b: seq<ChargingState>, removedIds: seq<string>)
    ensures RemoveById(a + b, removedIds) == RemoveById(a, removedIds) + RemoveById(b, removedIds)
  {
    FilterAppend(a, b, (c: ChargingState) => c.id !in removedIds);
  }

  /** Removing documents that name no cached car leaves the list as it is. */
  lemma RemoveNothing(cars: seq<ChargingState>, removedIds: seq<string>)
    requires forall i :: 0 <= i < |cars| ==> cars[i].id !in removedIds
    ensures RemoveById(cars, removedIds) == cars
  {
    FilterAll(cars, (c: ChargingState) => c.id !in removedIds);
  }

  /** Applying the same removal twice gives the same list as applying it once. */
  lemma RemoveIdempotent(cars: seq<ChargingState>, removedIds: seq<string>)
    ensures RemoveById(RemoveById(cars, removedIds), removedIds) == RemoveById(cars, removedIds)
  {
    FilterIdempotent(cars, (c: ChargingState) => c.id !in removedIds);
  }

  /** Filtering a list of distinct cars leaves distinct cars. */
  lemma {:induction false} FilterKeepsDistinctCars(cars: seq<ChargingState>, p: ChargingState -> bool)
    requires UniqueCars(cars)
    ensures UniqueCars(Filter(cars, p))
    decreases |cars|
  {
    if cars != [] {
      var init := cars[..|cars| - 1];
      var last := cars[|cars| - 1];
      FilterKeepsDistinctCars(init, p);
      if p(last) {
        var f := Filter(init, p);
        forall i | 0 <= i < |f|
          ensures f[i].carNumber != last.carNumber
        {
          assert f[i] in init;
        }
      }
    }
  }

  /** The removal keeps one record per car. */
  lemma RemoveKeepsDistinctCars(cars: seq<ChargingState>, removedIds: seq<string>)
    requires UniqueCars(cars)
    ensures UniqueCars(RemoveById(cars, removedIds))
  {
    FilterKeepsDistinctCars(cars, (c: ChargingState) => c.id !in removedIds);
  }
}
