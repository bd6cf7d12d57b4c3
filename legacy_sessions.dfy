/** The older lookup and selection helpers of
    src/cloudwise/helpers/sessions.ts. The geo lookup filters the cached
    locations on distance AND status before it asks for any details, and
    returns the refreshed locations without filtering them again. The
    selection has no status filter: it starts from the first location's
    first station and keeps the station nearest the current instant. */
module LegacySessions {

  import opened Wrappers
  import opened CloudwiseTypes
  import opened Selection
  import opened SessionHelpers

  /** The radius in meters and the station status used when none is given. */
  const DefaultRadius: real := 500.0
  const DefaultStatus: string := "BLOCKED"

  // ----- get_locations_by_geo_and_status -----

  /** The filter step: a cached location is kept when its distance to
      (lat, lng), as `distance(lat1, lng1, lat2, lng2)` measures it, is at
      most the radius and one of its cached stations has the status. */
  function NearWithStatus(cached: seq<OcpiLocationData>, lat: real, lng: real,
                          distance: (real, real, real, real) -> real, radius: real, status: string): (r: seq<OcpiLocationData>)
    ensures forall l :: l in r <==>
      l in cached && distance(lat, lng, l.location.lat, l.location.lng) <= radius && HasStationWithStatus(l, status)
  {
    Filter(cached, (l: OcpiLocationData) =>
      distance(lat, lng, l.location.lat, l.location.lng) <= radius && HasStationWithStatus(l, status))
  }

  /** A `get_location_details(id, { party_id })` call. */
  datatype DetailRequest = DetailRequest(locationId: string, partyId: string)

  /** The detail requests made for the kept locations: one each, in order. */
  function Requests(kept: seq<OcpiLocationData>): (r: seq<DetailRequest>)
    ensures |r| == |kept|
    ensures forall i :: 0 <= i < |kept| ==> r[i] == DetailRequest(kept[i].location.id, kept[i].partyId)
  {
    seq(|kept|, i requires 0 <= i < |kept| => DetailRequest(kept[i].location.id, kept[i].partyId))
  }

  /** The requests a lookup made and what it returned or threw. */
  datatype GeoLookup = GeoLookup(requests: seq<DetailRequest>, result: Result<seq<OcpiLocationData>>)

  /** `get_locations_by_geo_and_status` with its defaults: no request and
      an empty answer when the filter keeps nothing; otherwise one detail
      request per kept location, in order, and under `Promise.all` either
      every refreshed location or the first failure. */
  function LocationsByGeoAndStatus(
    cached: seq<OcpiLocationData>, lat: real, lng: real,
    distance: (real, real, real, real) -> real, radius: Option<real>, status: Option<string>,
    details: (string, string) -> Result<LocationDetails>): (r: GeoLookup)
    ensures var kept := NearWithStatus(cached, lat, lng, distance, radius.GetOr(DefaultRadius), status.GetOr(DefaultStatus));
      && (kept == [] ==> r.requests == [] && r.result == Ok([]))
      && (kept != [] ==> r.requests == Requests(kept))
      && (r.result.Ok? <==> forall i :: 0 <= i < |r.requests| ==> details(r.requests[i].locationId, r.requests[i].partyId).Ok?)
      && (r.result.Ok? ==> |r.result.value| == |kept|)
      && (r.result.Ok? ==> forall i :: 0 <= i < |kept| ==>
            r.result.value[i] == Detailed(kept[i], details(kept[i].location.id, kept[i].partyId).value))
  {
    var kept := NearWithStatus(cached, lat, lng, distance, radius.GetOr(DefaultRadius), status.GetOr(DefaultStatus));
    if |kept| == 0 then GeoLookup([], Ok([]))
    else GeoLookup(Requests(kept), FetchAll(kept, details))
  }

  /** Every location the lookup returns is a cached location within the
      radius that had a station in the status, refreshed from its own
      detail answer. */
  lemma LookupReturnsKeptLocations(
    cached: seq<OcpiLocationData>, lat: real, lng: real,
    distance: (real, real, real, real) -> real, radius: Option<real>, status: Option<string>,
    details: (string, string) -> Result<LocationDetails>, l: OcpiLocationData)
    requires LocationsByGeoAndStatus(cached, lat, lng, distance, radius, status, details).result.Ok?
    requires l in LocationsByGeoAndStatus(cached, lat, lng, distance, radius, status, details).result.value
    ensures exists c :: && c in cached
                        && distance(lat, lng, c.location.lat, c.location.lng) <= radius.GetOr(DefaultRadius)
                        && HasStationWithStatus(c, status.GetOr(DefaultStatus))
                        && details(c.location.id, c.partyId).Ok?
                        && l == Detailed(c, details(c.location.id, c.partyId).value)
  {
    var kept := NearWithStatus(cached, lat, lng, distance, radius.GetOr(DefaultRadius), status.GetOr(DefaultStatus));
    var full := LocationsByGeoAndStatus(cached, lat, lng, distance, radius, status, details).result.value;
    var i :| 0 <= i < |full| && full[i] == l;
    assert kept[i] in kept;
  }

  // ----- get_closest_updated_location -----

  /** The running state of the seeded selection after visiting `seen`
      (the seed followed by the stations visited so far): the current
      choice is the first candidate nearest the instant, with its distance. */
  ghost predicate Leads(seen: seq<Candidate>, now: Millis, closest: Candidate, closestDiff: nat, k: int)
  {
    && IsFirstClosest(seen, now, None, k)
    && closest == seen[k]
    && closestDiff == Distance(now, closest)
  }

  /** The inner `forEach`: the stations of one location, in order. */
  method VisitAllStations(location: OcpiLocationData, now: Millis, closest0: Candidate, closestDiff0: nat,
                          ghost seen: seq<Candidate>, ghost k0: int)
    returns (closest: Candidate, closestDiff: nat, ghost k: int)
    requires Leads(seen, now, closest0, closestDiff0, k0)
    ensures Leads(seen + Pairs(location), now, closest, closestDiff, k)
  {
    closest, closestDiff, k := closest0, closestDiff0, k0;
    var j := 0;
    assert seen + Pairs(location)[..j] == seen;
    while j < |location.stations|
      invariant 0 <= j <= |location.stations|
      invariant Leads(seen + Pairs(location)[..j], now, closest, closestDiff, k)
    {
      ghost var prefix := seen + Pairs(location)[..j];
      var c := Candidate(location, location.stations[j]);
      assert prefix + [c] == seen + Pairs(location)[..j + 1];
      ExtendFirstClosest(prefix, c, now, None, k);
      var diff := Distance(now, c);
      if diff < closestDiff {
        closestDiff := diff;
        closest := c;
        k := |prefix|;
      }
      j := j + 1;
    }
    assert Pairs(location)[..j] == Pairs(location);
  }

  /** Visiting the seed first changes nothing when the seed is also the
      first candidate: a strict `<` never lets its second visit win. */
  lemma {:induction false} DropSeed(cs: seq<Candidate>, now: Millis, k: int)
    requires |cs| > 0 && IsFirstClosest([cs[0]] + cs, now, None, k)
    ensures k != 1
    ensures IsFirstClosest(cs, now, None, if k == 0 then 0 else k - 1)
  {
    var seeded := [cs[0]] + cs;
    assert forall i :: 0 <= i < |cs| ==> seeded[i + 1] == cs[i];
    assert Distance(now, seeded[1]) == Distance(now, seeded[0]);
  }

  /** `get_closest_updated_location`: seeded with the first location's
      first station (the call throws when there is none), it visits every
      station of every location and keeps the one whose `last_updated` is
      nearest `now`, the earliest on a tie. */
  method ClosestUpdatedLocation(locations: seq<OcpiLocationData>, now: Millis) returns (r: Option<Candidate>)
    ensures r.None? <==> |locations| == 0 || |locations[0].stations| == 0
    ensures r.Some? ==> exists k :: IsFirstClosest(Flatten(locations), now, None, k) && Flatten(locations)[k] == r.value
  {
    if |locations| == 0 || |locations[0].stations| == 0 {
      return None;
    }
    var closest := Candidate(locations[0], locations[0].stations[0]);
    var closestDiff := Distance(now, closest);
    ghost var seed := closest;
    ghost var k := 0;
    var i := 0;
    assert [seed] + Flatten(locations[..0]) == [seed];
    while i < |locations|
      invariant 0 <= i <= |locations|
      invariant Leads([seed] + Flatten(locations[..i]), now, closest, closestDiff, k)
    {
      SeededStep(seed, locations, i);
      closest, closestDiff, k := VisitAllStations(locations[i], now, closest, closestDiff, [seed] + Flatten(locations[..i]), k);
      i := i + 1;
    }
    assert locations[..i] == locations;
    SeededWinner(locations, now, closest, closestDiff, k);
    r := Some(closest);
  }

  /** The winner over the seed followed by every station is the first
      nearest station of the locations. */
  lemma SeededWinner(locations: seq<OcpiLocationData>, now: Millis, closest: Candidate, closestDiff: nat, k: int)
    requires |locations| > 0 && |locations[0].stations| > 0
    requires Leads([Candidate(locations[0], locations[0].stations[0])] + Flatten(locations), now, closest, closestDiff, k)
    ensures exists k' :: IsFirstClosest(Flatten(locations), now, None, k') && Flatten(locations)[k'] == closest
  {
    FlattenHead(locations);
    var cs := Flatten(locations);
    DropSeed(cs, now, k);
    var k' := if k == 0 then 0 else k - 1;
    assert cs[k'] == ([cs[0]] + cs)[k];
  }

  /** One more location visited extends the seeded candidate list by its stations. */
  lemma SeededStep(seed: Candidate, locations: seq<OcpiLocationData>, i: nat)
    requires i < |locations|
    ensures [seed] + Flatten(locations[..i]) + Pairs(locations[i]) == [seed] + Flatten(locations[..i + 1])
  {
    assert locations[..i + 1][..i] == locations[..i];
  }

  /** The seed is returned whenever no station is strictly nearer `now`. */
  lemma SeedWinsWhenNearest(locations: seq<OcpiLocationData>, now: Millis, k: int)
    requires |locations| > 0 && |locations[0].stations| > 0
    requires IsFirstClosest(Flatten(locations), now, None, k)
    requires forall i :: 0 <= i < |Flatten(locations)| ==>
      Distance(now, Candidate(locations[0], locations[0].stations[0])) <= Distance(now, Flatten(locations)[i])
    ensures Flatten(locations)[k] == Candidate(locations[0], locations[0].stations[0])
  {
    FlattenHead(locations);
  }
}
