/** The location sync of src/cloudwise/tasks.ts: the fetched catalog is
    parsed with the task's own parsers (which drop every price field),
    compared with the cached `cloudwise-locations` list, and the new or
    changed locations are written in one batch, which is committed only
    when there is something to write. */
module Tasks {

  import opened Wrappers
  import opened CloudwiseTypes
  import Parsers

  /** A `cloudwise-locations` document as the task writes it: the
      location's fields, its company and party, its stations, and `image`
      only when the catalog gave a truthy one. */
  datatype SyncedLocation = SyncedLocation(
    name: string,
    id: string,
    country: string,
    address: string,
    companyName: string,
    partyId: string,
    lat: real,
    lng: real,
    stations: seq<Evse>,
    image: Option<string>)

  // ----- the task's own parsers -----

  /** `parse_connectors`: the nine base fields verbatim, with the instant
      of `LastUpdated`, and never a price field. */
  function ParseConnector(v: VendorConnector): (r: Connector)
    ensures r.id == v.id && r.standard == v.standard && r.format == v.format
    ensures r.powerType == v.powerType && r.maxVoltage == v.maxVoltage
    ensures r.maxAmperage == v.maxAmperage && r.maxElectricPower == v.maxElectricPower
    ensures r.lastUpdated == v.lastUpdated.millis && r.tariffId == v.tariffId
    ensures r.pricing.None?
  {
    Connector(v.id, v.standard, v.format, v.powerType, v.maxVoltage, v.maxAmperage,
              v.maxElectricPower, v.lastUpdated.millis, v.tariffId, None)
  }

  /** `parse_eves`: uid, status, floor level and physical reference
      verbatim, the instant of `LastUpdated`, and one connector per
      `OcpiConnectors` entry, in order. */
  function ParseEvse(v: VendorOcpiEvse): (r: Evse)
    ensures r.uid == v.uid && r.status == v.status
    ensures r.floorLevel == v.floorLevel && r.physicalReference == v.physicalReference
    ensures r.lastUpdated == v.lastUpdated.millis
    ensures |r.connectors| == |v.connectors|
    ensures forall i :: 0 <= i < |v.connectors| ==> r.connectors[i] == ParseConnector(v.connectors[i])
  {
    Evse(v.uid, v.status, v.floorLevel, v.physicalReference, v.lastUpdated.millis,
         seq(|v.connectors|, i requires 0 <= i < |v.connectors| => ParseConnector(v.connectors[i])))
  }

  /** `parse_location`: the location's fields, company and party verbatim,
      one station per `OcpiEvses` entry in order, and `image` exactly when
      `Images` is truthy. */
  function ParseLocation(v: VendorOcpiLocation): (r: SyncedLocation)
    ensures r.name == v.location.name && r.id == v.location.id && r.country == v.location.country
    ensures r.address == v.location.address && r.lat == v.location.lat && r.lng == v.location.lng
    ensures r.companyName == v.companyName && r.partyId == v.partyId
    ensures |r.stations| == |v.evses|
    ensures forall i :: 0 <= i < |v.evses| ==> r.stations[i] == ParseEvse(v.evses[i])
    ensures r.image.Some? <==> TruthyText(v.location.images)
    ensures r.image.Some? ==> r.image == v.location.images
  {
    var l := v.location;
    SyncedLocation(l.name, l.id, l.country, l.address, v.companyName, v.partyId, l.lat, l.lng,
                   seq(|v.evses|, i requires 0 <= i < |v.evses| => ParseEvse(v.evses[i])),
                   if TruthyText(l.images) then l.images else None)
  }

  /** A connector record without a `TariffDetails` key. */
  predicate Unpriced(v: VendorConnector)
  {
    v.pricing.None?
  }

  /** On a connector without tariff the task's parser and the shared one agree. */
  lemma ConnectorAgreesWhenUnpriced(v: VendorConnector)
    requires Unpriced(v)
    ensures ParseConnector(v) == Parsers.ParseConnector(v)
  {
  }

  /** On an evse whose connectors have no tariff the task's parser and
      the shared `parse_ocpi_eves` agree. */
  lemma EvseAgreesWhenUnpriced(v: VendorOcpiEvse)
    requires forall i :: 0 <= i < |v.connectors| ==> Unpriced(v.connectors[i])
    ensures ParseEvse(v) == Parsers.ParseOcpiEvse(v)
  {
    var a, b := ParseEvse(v), Parsers.ParseOcpiEvse(v);
    forall i | 0 <= i < |v.connectors|
      ensures a.connectors[i] == b.connectors[i]
    {
      ConnectorAgreesWhenUnpriced(v.connectors[i]);
    }
  }

  /** The document the task writes for a location the shared
      `parse_ocpi_location` parses: the same fields, laid out flat. */
  function Flattened(o: OcpiLocationData): SyncedLocation
  {
    SyncedLocation(o.location.name, o.location.id, o.location.country, o.location.address,
                   o.companyName, o.partyId, o.location.lat, o.location.lng, o.stations, o.location.image)
  }

  /** Without any tariff in the catalog entry, the task's parser writes
      exactly what the shared parser reads from it. */
  lemma LocationAgreesWhenUnpriced(v: VendorOcpiLocation)
    requires forall i, j :: 0 <= i < |v.evses| && 0 <= j < |v.evses[i].connectors| ==> Unpriced(v.evses[i].connectors[j])
    ensures ParseLocation(v) == Flattened(Parsers.ParseOcpiLocation(v))
  {
    var a, b := ParseLocation(v), Flattened(Parsers.ParseOcpiLocation(v));
    forall i | 0 <= i < |v.evses|
      ensures a.stations[i] == b.stations[i]
    {
      EvseAgreesWhenUnpriced(v.evses[i]);
    }
  }

  // ----- the diff -----

  /** `cached_location.find((l) => l.id === id)`: the first cached entry
      with the id. */
  function FirstWithId(cache: seq<SyncedLocation>, id: string): (r: Option<SyncedLocation>)
    ensures r.None? <==> forall k :: 0 <= k < |cache| ==> cache[k].id != id
    ensures r.Some? ==> exists k :: 0 <= k < |cache| && cache[k] == r.value && cache[k].id == id
                                    && forall j :: 0 <= j < k ==> cache[j].id != id
    decreases |cache|
  {
    if cache == [] then None
    else if cache[0].id == id then Some(cache[0])
    else
      var rest := FirstWithId(cache[1..], id);
      assert forall k :: 1 <= k < |cache| ==> cache[k] == cache[1..][k - 1];
      rest
  }

  /** A parsed location is written when no cached entry has its id, or
      the first one that does differs from it. */
  predicate NeedsUpdate(cache: seq<SyncedLocation>, loc: SyncedLocation)
  {
    FirstWithId(cache, loc.id) != Some(loc)
  }

  /** The `for` loop of `task__collect_cloudwise_locations`: the parsed
      locations to write, in fetch order. */
  method NeedToUpdate(parsed: seq<SyncedLocation>, cache: seq<SyncedLocation>) returns (need: seq<SyncedLocation>)
    ensures need == Filter(parsed, (l: SyncedLocation) => NeedsUpdate(cache, l))
  {
    need := [];
    var i := 0;
    while i < |parsed|
      invariant 0 <= i <= |parsed|
      invariant need == Filter(parsed[..i], (l: SyncedLocation) => NeedsUpdate(cache, l))
    {
      var loc := parsed[i];
      var cached := FirstWithId(cache, loc.id);
      assert parsed[..i + 1][..i] == parsed[..i];
      if cached.None? || cached.value != loc {
        need := need + [loc];
      }
      i := i + 1;
    }
    assert parsed[..i] == parsed;
  }

  /** `task__collect_cloudwise_locations` on the fetched catalog and the
      cache: the batch it commits, or `None` when it commits none. */
  method CollectCloudwiseLocations(fetched: seq<VendorOcpiLocation>, cache: seq<SyncedLocation>)
    returns (batch: Option<seq<SyncedLocation>>)
    ensures var need := Filter(Parsed(fetched), (l: SyncedLocation) => NeedsUpdate(cache, l));
      && (batch.None? <==> need == [])
      && (batch.Some? ==> batch.value == need)
  {
    var parsed := Parsed(fetched);
    var need := NeedToUpdate(parsed, cache);
    if |need| > 0 {
      batch := Some(need);
    } else {
      batch := None;
    }
  }

  /** `locations.map(parse_location)`. */
  function Parsed(fetched: seq<VendorOcpiLocation>): (r: seq<SyncedLocation>)
    ensures |r| == |fetched|
    ensures forall i :: 0 <= i < |fetched| ==> r[i] == ParseLocation(fetched[i])
  {
    seq(|fetched|, i requires 0 <= i < |fetched| => ParseLocation(fetched[i]))
  }

  /** A location equal to its first cached entry is never written. */
  lemma UnchangedNotWritten(cache: seq<SyncedLocation>, parsed: seq<SyncedLocation>, loc: SyncedLocation)
    requires FirstWithId(cache, loc.id) == Some(loc)
    ensures loc !in Filter(parsed, (l: SyncedLocation) => NeedsUpdate(cache, l))
  {
  }

  /** Re-running on a catalog the cache already holds writes nothing. */
  lemma UnchangedCatalogWritesNothing(cache: seq<SyncedLocation>, parsed: seq<SyncedLocation>)
    requires forall i :: 0 <= i < |parsed| ==> FirstWithId(cache, parsed[i].id) == Some(parsed[i])
    ensures Filter(parsed, (l: SyncedLocation) => NeedsUpdate(cache, l)) == []
  {
    FilterNone(parsed, (l: SyncedLocation) => NeedsUpdate(cache, l));
  }

  // ----- the batch -----

  /** The `cloudwise-locations` collection after `batch.set` of every
      location under its id, in order, and the commit. */
  function ApplyBatch(store: map<string, SyncedLocation>, writes: seq<SyncedLocation>): (r: map<string, SyncedLocation>)
    ensures r.Keys == store.Keys + set l | l in writes :: l.id
    decreases |writes|
  {
    if writes == [] then store
    else
      var last := writes[|writes| - 1];
      ApplyBatch(store, writes[..|writes| - 1])[last.id := last]
  }

  /** No two locations share an id. */
  predicate DistinctIds(locs: seq<SyncedLocation>)
  {
    forall i, j :: 0 <= i < j < |locs| ==> locs[i].id != locs[j].id
  }

  /** With distinct ids, every written location is stored under its id and
      every other document is untouched. */
  lemma {:induction false} BatchStoresEach(store: map<string, SyncedLocation>, writes: seq<SyncedLocation>)
    requires DistinctIds(writes)
    ensures forall l :: l in writes ==> ApplyBatch(store, writes)[l.id] == l
    ensures forall id :: id in store && (forall l :: l in writes ==> l.id != id) ==> ApplyBatch(store, writes)[id] == store[id]
    decreases |writes|
  {
    if writes != [] {
      var init := writes[..|writes| - 1];
      var last := writes[|writes| - 1];
      BatchStoresEach(store, init);
      forall l | l in init
        ensures l.id != last.id
      {
        var i :| 0 <= i < |init| && init[i] == l;
      }
    }
  }

  /** The cache lists the collection: for every id, the first cached entry
      with it is the stored document. */
  ghost predicate Mirrors(cache: seq<SyncedLocation>, store: map<string, SyncedLocation>)
  {
    forall id :: FirstWithId(cache, id) == (if id in store then Some(store[id]) else None)
  }

  /** After the commit, every fetched location is stored as fetched: a
      cache that lists the new collection makes the next run write nothing
      for the same catalog. */
  lemma SyncConverges(cache: seq<SyncedLocation>, store: map<string, SyncedLocation>, parsed: seq<SyncedLocation>)
    requires Mirrors(cache, store) && DistinctIds(parsed)
    ensures var written := ApplyBatch(store, Filter(parsed, (l: SyncedLocation) => NeedsUpdate(cache, l)));
      forall i :: 0 <= i < |parsed| ==> parsed[i].id in written && written[parsed[i].id] == parsed[i]
  {
    var need := Filter(parsed, (l: SyncedLocation) => NeedsUpdate(cache, l));
    FilterKeepsDistinctIds(parsed, (l: SyncedLocation) => NeedsUpdate(cache, l));
    BatchStoresEach(store, need);
    var written := ApplyBatch(store, need);
    forall i | 0 <= i < |parsed|
      ensures parsed[i].id in written && written[parsed[i].id] == parsed[i]
    {
      var loc := parsed[i];
      if !NeedsUpdate(cache, loc) {
        assert FirstWithId(cache, loc.id) == Some(loc);
        forall l | l in need
          ensures l.id != loc.id
        {
          var j :| 0 <= j < |parsed| && parsed[j] == l;
          assert j != i;
        }
      }
    }
  }

  /** Filtering keeps ids distinct. */
  lemma {:induction false} FilterKeepsDistinctIds(locs: seq<SyncedLocation>, p: SyncedLocation -> bool)
    requires DistinctIds(locs)
    ensures DistinctIds(Filter(locs, p))
    decreases |locs|
  {
    if locs != [] {
      var init := locs[..|locs| - 1];
      var last := locs[|locs| - 1];
      FilterKeepsDistinctIds(init, p);
      if p(last) {
        var f := Filter(init, p);
        forall i | 0 <= i < |f|
          ensures f[i].id != last.id
        {
          assert f[i] in init;
        }
      }
    }
  }
}
