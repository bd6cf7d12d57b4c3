/** The station resolver of src/cloudwise/sessions/helpers.ts: the geo and
    status lookup against the cached catalog, the CHADEMO connector rule,
    the freshness selection and the bounded retry that produces the
    START_SESSION command settings. */
module SessionHelpers {

  import opened Wrappers
  import opened CloudwiseTypes
  import opened Parsers
  import opened Selection

  const BLOCKED: string := "BLOCKED"
  const CHADEMO: string := "CHADEMO"
  const START_SESSION: string := "START_SESSION"

  /** Lookups made before giving up, and the sleeps around them (ms). */
  const MaxAttempts: nat := 3
  const FirstWait: nat := 3000
  const RetryWait: nat := 10000

  // ----- the vehicle's charging state -----

  /** One record of the `cloudwise-charging-state` collection, as the
      change feed delivers it. Its status is one of "plugin", "charging",
      "plugout" and "error". */
  datatype ChargingState = ChargingState(
    id: string,
    status: string,
    carNumber: string,
    lat: real,
    lng: real,
    timestamp: Millis,
    sessionId: Option<string>)

  // ----- what the engine learns from its collaborators -----

  /** The asset, BLE and device ids `get_config` reads. */
  datatype Config = Config(assetId: string, bleId: string, deviceId: string)

  /** The answers of the collaborators for one engine step:
      `catalog(k)` is the cached location list when lookup attempt k runs;
      `withinRadius(lat1, lng1, lat2, lng2)` says whether two points are at
      most 500 m apart; `details(k, id, partyId)` answers
      `get_location_details` during attempt k; the replies of the start and
      stop commands, of `get_session_status` (its `CommandStatus`) and of
      the delayed final-status fetch; and the current instant. */
  datatype Env = Env(
    catalog: nat -> seq<OcpiLocationData>,
    withinRadius: (real, real, real, real) -> bool,
    details: (nat, string, string) -> Result<LocationDetails>,
    config: Config,
    startReply: Result<Option<string>>,
    stopReply: Outcome,
    statusReply: Result<string>,
    finalReply: Result<StatusReport>,
    now: Millis)

  /** The answer of `get_session_status` that the 30 s post-stop fetch
      reads; absent numbers are undefined in the response. */
  datatype StatusReport = StatusReport(
    commandStatus: string,
    cost: Option<real>,
    count: Option<real>,
    kwh: Option<real>,
    chargingTimeInSeconds: real,
    cdr: Option<VendorCdr>)

  /** The command settings `get_start_session_settings` builds. */
  datatype Settings = Settings(
    assetId: string,
    bleId: string,
    deviceId: string,
    locationId: string,
    partyId: string,
    stationUid: string,
    connectorId: string,
    command: string)

  // ----- connector choice -----

  /** Index of the first connector whose standard is not CHADEMO. */
  function FirstNonChademo(cs: seq<Connector>): (r: Option<nat>)
    ensures r.Some? ==> r.value < |cs| && cs[r.value].standard != CHADEMO
    ensures r.Some? ==> forall i :: 0 <= i < r.value ==> cs[i].standard == CHADEMO
    ensures r.None? ==> forall i :: 0 <= i < |cs| ==> cs[i].standard == CHADEMO
    decreases |cs|
  {
    if cs == [] then None
    else if cs[0].standard != CHADEMO then Some(0)
    else match FirstNonChademo(cs[1..])
      case None => None
      case Some(i) => Some(i + 1)
  }

  /** `get_session_connector`: the only connector when there is one;
      otherwise the first that is not CHADEMO, or the first of all when
      every one is CHADEMO. An empty list yields undefined. */
  function SessionConnector(connectors: seq<Connector>): (r: Option<Connector>)
    ensures |connectors| == 0 <==> r.None?
    ensures |connectors| == 1 ==> r == Some(connectors[0])
    ensures r.Some? ==> r.value in connectors
    ensures |connectors| > 1 && (exists i :: 0 <= i < |connectors| && connectors[i].standard != CHADEMO) ==>
      r.Some? && r.value.standard != CHADEMO &&
      exists k :: 0 <= k < |connectors| && r.value == connectors[k] &&
        forall i :: 0 <= i < k ==> connectors[i].standard == CHADEMO
    ensures |connectors| > 1 && (forall i :: 0 <= i < |connectors| ==> connectors[i].standard == CHADEMO) ==>
      r == Some(connectors[0])
  {
    if |connectors| == 1 then Some(connectors[0])
    else match FirstNonChademo(connectors)
      case Some(i) => Some(connectors[i])
      case None => if |connectors| > 0 then Some(connectors[0]) else None
  }

  // ----- geo and status lookup -----

  predicate HasStationWithStatus(loc: OcpiLocationData, status: string)
  {
    exists j :: 0 <= j < |loc.stations| && loc.stations[j].status == status
  }

  /** A cached location refreshed from its `get_location_details` answer:
      the parsed location and evses, with the cached company and party. */
  function Detailed(loc: OcpiLocationData, d: LocationDetails): (r: OcpiLocationData)
    ensures r.location == ParseLocation(d.location)
    ensures r.companyName == loc.companyName && r.partyId == loc.partyId
    ensures |r.stations| == |d.evses|
    ensures forall j :: 0 <= j < |d.evses| ==> r.stations[j] == ParseEvse(d.evses[j])
  {
    OcpiLocationData(ParseLocation(d.location), loc.companyName, loc.partyId,
                     seq(|d.evses|, j requires 0 <= j < |d.evses| => ParseEvse(d.evses[j])))
  }

  /** `Promise.all` over one detail lookup per location: all answers, in
      order, or a failure when any lookup throws. */
  function FetchAll(kept: seq<OcpiLocationData>, details: (string, string) -> Result<LocationDetails>): (r: Result<seq<OcpiLocationData>>)
    ensures r.Ok? <==> forall i :: 0 <= i < |kept| ==> details(kept[i].location.id, kept[i].partyId).Ok?
    ensures r.Ok? ==> |r.value| == |kept|
    ensures r.Ok? ==> forall i :: 0 <= i < |kept| ==>
      r.value[i] == Detailed(kept[i], details(kept[i].location.id, kept[i].partyId).value)
    decreases |kept|
  {
    if kept == [] then Ok([])
    else match details(kept[0].location.id, kept[0].partyId)
      case Fail(e) => Fail(e)
      case Ok(d) =>
        match FetchAll(kept[1..], details)
        case Fail(e) => Fail(e)
        case Ok(rest) => Ok([Detailed(kept[0], d)] + rest)
  }

  /** `get_locations_by_geo_and_status`: the cached locations within the
      radius, each refreshed from its detail lookup, then those with at
      least one station in the requested status. */
  function LocationsByGeoAndStatus(
    cached: seq<OcpiLocationData>, lat: real, lng: real,
    withinRadius: (real, real, real, real) -> bool,
    details: (string, string) -> Result<LocationDetails>,
    status: string): (r: Result<seq<OcpiLocationData>>)
    ensures r.Ok? <==> forall c :: c in cached && withinRadius(lat, lng, c.location.lat, c.location.lng) ==>
      details(c.location.id, c.partyId).Ok?
    ensures r.Ok? ==> forall l :: l in r.value ==> HasStationWithStatus(l, status)
    ensures r.Ok? ==> forall c ::
      (c in cached && withinRadius(lat, lng, c.location.lat, c.location.lng)
       && HasStationWithStatus(Detailed(c, details(c.location.id, c.partyId).value), status)) ==>
      Detailed(c, details(c.location.id, c.partyId).value) in r.value
  {
    var near := Filter(cached, (l: OcpiLocationData) => withinRadius(lat, lng, l.location.lat, l.location.lng));
    match FetchAll(near, details)
    case Fail(e) => Fail(e)
    case Ok(full) => Ok(Filter(full, (l: OcpiLocationData) => HasStationWithStatus(l, status)))
  }

  /** Every location the lookup returns was a cached location within the
      radius, refreshed from its own detail answer. */
  lemma LookupKeepsNearLocations(
    cached: seq<OcpiLocationData>, lat: real, lng: real,
    withinRadius: (real, real, real, real) -> bool,
    details: (string, string) -> Result<LocationDetails>,
    status: string, l: OcpiLocationData)
    requires LocationsByGeoAndStatus(cached, lat, lng, withinRadius, details, status).Ok?
    requires l in LocationsByGeoAndStatus(cached, lat, lng, withinRadius, details, status).value
    ensures exists c :: (c in cached && withinRadius(lat, lng, c.location.lat, c.location.lng)
      && details(c.location.id, c.partyId).Ok? && l == Detailed(c, details(c.location.id, c.partyId).value))
  {
    var near := Filter(cached, (c: OcpiLocationData) => withinRadius(lat, lng, c.location.lat, c.location.lng));
    var full := FetchAll(near, details).value;
    assert l in full;
    var i :| 0 <= i < |full| && full[i] == l;
    assert near[i] in near;
  }

  // ----- freshness selection -----

  /** The station a selection settles on: with some station in `status`,
      the first one nearest the reference; with none, the first location's
      first station. */
  ghost predicate Selected(locs: seq<OcpiLocationData>, reference: Millis, status: string, c: Candidate)
  {
    var cs := Flatten(locs);
    if AnyEligible(cs, Some(status)) then
      exists k :: IsFirstClosest(cs, reference, Some(status), k) && cs[k] == c
    else
      |locs| > 0 && |locs[0].stations| > 0 && c == Candidate(locs[0], locs[0].stations[0])
  }

  lemma SelectedIsUnique(locs: seq<OcpiLocationData>, reference: Millis, status: string, c1: Candidate, c2: Candidate)
    requires Selected(locs, reference, status, c1) && Selected(locs, reference, status, c2)
    ensures c1 == c2
  {
    var cs := Flatten(locs);
    if AnyEligible(cs, Some(status)) {
      var k1 :| IsFirstClosest(cs, reference, Some(status), k1) && cs[k1] == c1;
      var k2 :| IsFirstClosest(cs, reference, Some(status), k2) && cs[k2] == c2;
      FirstClosestIsUnique(cs, reference, Some(status), k1, k2);
    }
  }

  /** A selection: the station, its location and the chosen connector. */
  datatype Choice = Choice(candidate: Candidate, connector: Option<Connector>)

  /** The running state of the selection after visiting `seen`: the
      current choice is the first nearest eligible candidate so far, with
      its distance and its session connector. */
  ghost predicate Tracks(seen: seq<Candidate>, timestamp: Millis, status: string,
                         closest: Option<Choice>, closestDiff: nat, k: int)
  {
    && (closest.None? <==> !AnyEligible(seen, Some(status)))
    && (closest.Some? ==>
          && IsFirstClosest(seen, timestamp, Some(status), k)
          && closest.value.candidate == seen[k]
          && closestDiff == Distance(timestamp, closest.value.candidate)
          && closest.value.connector == SessionConnector(closest.value.candidate.station.connectors))
  }

  /** The inner loop of `get_closest_updated_location`: the stations of
      one location, in order. */
  method VisitStations(location: OcpiLocationData, timestamp: Millis, status: string,
                       closest0: Option<Choice>, closestDiff0: nat, ghost seen: seq<Candidate>, ghost k0: int)
    returns (closest: Option<Choice>, closestDiff: nat, ghost k: int)
    requires Tracks(seen, timestamp, status, closest0, closestDiff0, k0)
    ensures Tracks(seen + Pairs(location), timestamp, status, closest, closestDiff, k)
  {
    closest, closestDiff, k := closest0, closestDiff0, k0;
    var j := 0;
    assert seen + Pairs(location)[..j] == seen;
    while j < |location.stations|
      invariant 0 <= j <= |location.stations|
      invariant Tracks(seen + Pairs(location)[..j], timestamp, status, closest, closestDiff, k)
    {
      var station := location.stations[j];
      ghost var prefix := seen + Pairs(location)[..j];
      var c := Candidate(location, station);
      assert prefix + [c] == seen + Pairs(location)[..j + 1];
      AnyEligibleExtend(prefix, c, Some(status));
      if station.status == status {
        var diff := Distance(timestamp, c);
        if closest.None? || diff < closestDiff {
          if closest.Some? {
            ExtendFirstClosest(prefix, c, timestamp, Some(status), k);
          }
          closestDiff := diff;
          closest := Some(Choice(c, SessionConnector(station.connectors)));
          k := |prefix|;
        } else {
          ExtendFirstClosest(prefix, c, timestamp, Some(status), k);
        }
      } else if closest.Some? {
        ExtendFirstClosest(prefix, c, timestamp, Some(status), k);
      }
      if closest.Some? {
        FirstClosestIsEligible(prefix + [c], timestamp, Some(status), k);
      }
      j := j + 1;
    }
    assert Pairs(location)[..j] == Pairs(location);
  }

  /** `get_closest_updated_location`: visits the stations in `status`,
      keeping the one with the smallest |timestamp − last_updated| (a
      strict `<`, so the earliest wins a tie); falls back to the first
      location's first station, and throws when that does not exist. */
  method ClosestUpdatedLocation(locations: seq<OcpiLocationData>, timestamp: Millis, status: string) returns (r: Option<Choice>)
    ensures r.None? <==> !AnyEligible(Flatten(locations), Some(status)) && (|locations| == 0 || |locations[0].stations| == 0)
    ensures r.Some? ==> Selected(locations, timestamp, status, r.value.candidate)
    ensures r.Some? ==> r.value.connector == SessionConnector(r.value.candidate.station.connectors)
  {
    var closestDiff: nat := 0;
    var closest: Option<Choice> := None;
    ghost var k: int := 0;
    var i := 0;
    while i < |locations|
      invariant 0 <= i <= |locations|
      invariant Tracks(Flatten(locations[..i]), timestamp, status, closest, closestDiff, k)
    {
      assert locations[..i + 1][..i] == locations[..i];
      closest, closestDiff, k := VisitStations(locations[i], timestamp, status, closest, closestDiff, Flatten(locations[..i]), k);
      i := i + 1;
    }
    assert locations[..i] == locations;
    if closest.None? {
      if |locations| == 0 || |locations[0].stations| == 0 {
        return None;
      }
      var firstStation := locations[0].stations[0];
      return Some(Choice(Candidate(locations[0], firstStation), SessionConnector(firstStation.connectors)));
    }
    r := closest;
  }

  // ----- bounded retry -----

  /** The lookup that attempt k (1, 2 or 3) of the retry makes for a car. */
  function Attempt(env: Env, cs: ChargingState, k: nat): (r: Result<seq<OcpiLocationData>>)
    ensures r.Ok? ==> forall l :: l in r.value ==> HasStationWithStatus(l, BLOCKED)
  {
    LocationsByGeoAndStatus(env.catalog(k), cs.lat, cs.lng, env.withinRadius,
                            (id, party) => env.details(k, id, party), BLOCKED)
  }

  /** The lookups of one retry for a car, by attempt number. */
  function Attempts(env: Env, cs: ChargingState): (r: nat -> Result<seq<OcpiLocationData>>)
    ensures forall k: nat :: r(k).Ok? ==> forall l :: l in r(k).value ==> HasStationWithStatus(l, BLOCKED)
  {
    (k: nat) => Attempt(env, cs, k)
  }

  /** The attempt a retry over `lookup` stops at, starting from attempt k:
      the first that does not come back empty, or the third. */
  function LastAttempt(lookup: nat -> Result<seq<OcpiLocationData>>, k: nat): (n: nat)
    requires 1 <= k <= MaxAttempts
    ensures k <= n <= MaxAttempts
    ensures forall a :: k <= a < n ==> lookup(a) == Ok([])
    ensures n < MaxAttempts ==> lookup(n) != Ok([])
    decreases MaxAttempts - k
  {
    if k == MaxAttempts || lookup(k) != Ok([]) then k else LastAttempt(lookup, k + 1)
  }

  lemma {:induction false} LastAttemptIs(lookup: nat -> Result<seq<OcpiLocationData>>, k: nat, n: nat)
    requires 1 <= k <= n <= MaxAttempts
    requires forall a :: k <= a < n ==> lookup(a) == Ok([])
    requires n == MaxAttempts || lookup(n) != Ok([])
    ensures LastAttempt(lookup, k) == n
    decreases n - k
  {
    if k < n {
      LastAttemptIs(lookup, k + 1, n);
    }
  }

  /** The settings built from a selected station and connector. */
  function SettingsFor(c: Candidate, conn: Connector, config: Config): (s: Settings)
    ensures s.command == START_SESSION
    ensures s.locationId == c.location.location.id && s.partyId == c.location.partyId
    ensures s.stationUid == c.station.uid && s.connectorId == conn.id
    ensures s.assetId == config.assetId && s.bleId == config.bleId && s.deviceId == config.deviceId
  {
    Settings(config.assetId, config.bleId, config.deviceId, c.location.location.id,
             c.location.partyId, c.station.uid, conn.id, START_SESSION)
  }

  /** `s` are the START_SESSION settings the resolver produces for the car:
      the lookup it stopped at found locations, and `s` names the selected
      location, station and connector. */
  ghost predicate Resolved(env: Env, cs: ChargingState, s: Settings)
    ensures Resolved(env, cs, s) ==> s.command == START_SESSION
    ensures Resolved(env, cs, s) ==>
      s.assetId == env.config.assetId && s.bleId == env.config.bleId && s.deviceId == env.config.deviceId
  {
    var a := Attempts(env, cs)(LastAttempt(Attempts(env, cs), 1));
    a.Ok? && |a.value| > 0 && SettingsFrom(a.value, cs.timestamp, env.config, s)
  }

  /** The resolver settles on one set of settings at most. */
  lemma ResolvedIsUnique(env: Env, cs: ChargingState, s1: Settings, s2: Settings)
    requires Resolved(env, cs, s1) && Resolved(env, cs, s2)
    ensures s1 == s2
  {
    var locs := Attempts(env, cs)(LastAttempt(Attempts(env, cs), 1)).value;
    var c1 :| Selected(locs, cs.timestamp, BLOCKED, c1) && SessionConnector(c1.station.connectors).Some?
      && s1 == SettingsFor(c1, SessionConnector(c1.station.connectors).value, env.config);
    var c2 :| Selected(locs, cs.timestamp, BLOCKED, c2) && SessionConnector(c2.station.connectors).Some?
      && s2 == SettingsFor(c2, SessionConnector(c2.station.connectors).value, env.config);
    SelectedIsUnique(locs, cs.timestamp, BLOCKED, c1, c2);
  }

  /** The settings the resolver produces for the car, if it produces any. */
  ghost function Resolution(env: Env, cs: ChargingState): (r: Option<Settings>)
    ensures r.Some? <==> exists s :: Resolved(env, cs, s)
    ensures r.Some? ==> forall s :: Resolved(env, cs, s) <==> s == r.value
  {
    if exists s :: Resolved(env, cs, s) then
      var s :| Resolved(env, cs, s);
      assert forall s' :: Resolved(env, cs, s') ==> s' == s by {
        forall s' | Resolved(env, cs, s') ensures s' == s {
          ResolvedIsUnique(env, cs, s, s');
        }
      }
      Some(s)
    else None
  }

  /** A resolver outcome that agrees with `Resolved` is the resolution. */
  lemma ResolutionIs(env: Env, cs: ChargingState, r: Result<Settings>)
    requires r.Ok? ==> Resolved(env, cs, r.value)
    requires r.Fail? ==> forall s :: !Resolved(env, cs, s)
    ensures Resolution(env, cs) == if r.Ok? then Some(r.value) else None
  {
  }

  /** `s` names the station selected among `locs` and its session connector. */
  ghost predicate SettingsFrom(locs: seq<OcpiLocationData>, reference: Millis, config: Config, s: Settings)
  {
    exists c :: Selected(locs, reference, BLOCKED, c)
      && SessionConnector(c.station.connectors).Some?
      && s == SettingsFor(c, SessionConnector(c.station.connectors).value, config)
  }

  /** The sleeps of a retry that made `lookups` lookups: 3 s before the
      first, 10 s between consecutive ones. */
  function Waits(lookups: nat): (w: seq<nat>)
    requires lookups >= 1
    ensures |w| == lookups && w[0] == FirstWait
    ensures forall i :: 1 <= i < |w| ==> w[i] == RetryWait
  {
    if lookups == 1 then [FirstWait] else Waits(lookups - 1) + [RetryWait]
  }

  /** The selection step of the resolver on the locations a lookup found. */
  method SettingsFromLocations(data: seq<OcpiLocationData>, reference: Millis, config: Config) returns (r: Result<Settings>)
    ensures r.Ok? ==> SettingsFrom(data, reference, config, r.value)
    ensures r.Fail? ==> forall s :: !SettingsFrom(data, reference, config, s)
  {
    var choice := ClosestUpdatedLocation(data, reference, BLOCKED);
    if choice.None? {
      r := Fail("no station to fall back to");
      return;
    }
    var c := choice.value.candidate;
    if choice.value.connector.None? {
      forall c' | Selected(data, reference, BLOCKED, c') ensures SessionConnector(c'.station.connectors).None? {
        SelectedIsUnique(data, reference, BLOCKED, c, c');
      }
      r := Fail("no connector at the selected station");
      return;
    }
    r := Ok(SettingsFor(c, choice.value.connector.value, config));
  }

  /** The lookup loop of `get_start_session_settings`: up to three
      lookups, 10 s apart, stopping at the first that is not empty; a
      lookup that throws ends the loop. */
  method RetryLookups(lookup: nat -> Result<seq<OcpiLocationData>>) returns (res: Result<seq<OcpiLocationData>>, lookups: nat, waits: seq<nat>)
    ensures 1 <= lookups <= MaxAttempts
    ensures lookups == LastAttempt(lookup, 1)
    ensures res == lookup(lookups)
    ensures forall a :: 1 <= a < lookups ==> lookup(a) == Ok([])
    ensures lookups < MaxAttempts ==> res != Ok([])
    ensures waits == Waits(lookups)
  {
    waits := Waits(1);
    lookups := 0;
    var attempt := 1;
    res := Ok([]);
    while attempt <= MaxAttempts
      invariant 1 <= attempt <= MaxAttempts + 1
      invariant lookups == attempt - 1
      invariant attempt > 1 ==> res == lookup(lookups) && res == Ok([])
      invariant forall a :: 1 <= a < attempt ==> lookup(a) == Ok([])
      invariant waits == Waits(if attempt <= MaxAttempts then attempt else MaxAttempts)
    {
      res := lookup(attempt);
      lookups := attempt;
      if res != Ok([]) {
        break;
      }
      if attempt < MaxAttempts {
        waits := waits + [RetryWait];
      }
      attempt := attempt + 1;
    }
    LastAttemptIs(lookup, 1, lookups);
  }

  /** `get_start_session_settings`: waits 3 s, then looks up blocked
      stations near the car up to three times, 10 s apart, stopping at the
      first non-empty answer; throws when all three are empty, when a
      lookup throws, or when the selected station has no connector. */
  method StartSessionSettings(cs: ChargingState, env: Env) returns (r: Result<Settings>, lookups: nat, waits: seq<nat>)
    ensures 1 <= lookups <= MaxAttempts
    ensures lookups == LastAttempt(Attempts(env, cs), 1)
    ensures forall a :: 1 <= a < lookups ==> Attempts(env, cs)(a) == Ok([])
    ensures lookups < MaxAttempts ==> Attempts(env, cs)(lookups) != Ok([])
    ensures waits == Waits(lookups)
    ensures Attempts(env, cs)(lookups).Fail? || Attempts(env, cs)(lookups) == Ok([]) ==> r.Fail?
    ensures r.Ok? ==> Resolved(env, cs, r.value)
    ensures r.Fail? ==> forall s :: !Resolved(env, cs, s)
  {
    var res;
    res, lookups, waits := RetryLookups(Attempts(env, cs));
    if res.Fail? {
      r := Fail(res.reason);
    } else if |res.value| == 0 {
      r := Fail("No locations found after 3 attempts");
    } else {
      r := SettingsFromLocations(res.value, cs.timestamp, env.config);
    }
  }

  /** A non-empty answer of the lookup always has a blocked station, so on
      the start path the selection never falls back to the first station. */
  lemma StartPathNeverFallsBack(env: Env, cs: ChargingState, k: nat)
    requires Attempt(env, cs, k).Ok? && |Attempt(env, cs, k).value| > 0
    ensures AnyEligible(Flatten(Attempt(env, cs, k).value), Some(BLOCKED))
  {
    var locs := Attempt(env, cs, k).value;
    assert HasStationWithStatus(locs[0], BLOCKED);
    var j :| 0 <= j < |locs[0].stations| && locs[0].stations[j].status == BLOCKED;
    FlattenCovers(locs, 0, j);
  }
}
