# Cloudwise charging sessions, modelled in Dafny

This project models the charging-session engine of the Cloudwise integration, together with the data shaping around it.

The engine watches the `cloudwise-charging-state` feed. Records of cars outside the engine's allow-list are ignored. For a car on the list, a record with status "plugin" starts a charging session:
- It looks up blocked stations near the car, making up to three lookups.
- It picks the station whose `last_updated` is nearest the record's timestamp.
- It chooses a connector by the CHADEMO rule.
- It sends START_SESSION.
- It stores the session and marks the car "charging".
- If a lookup throws, the lookups find nothing, the selection has no connector, the command throws or its reply has no CommandId, the car is marked "error" instead.

A "charging" record polls the session until it leaves ACTIVE, then stops it if it is still open. A "plugout" or "error" record with a non-empty `session_id` stops that session; a session the cache does not hold is not stopped. When the stop command does not throw, the stop marks the session "completed" and sets the car to "plugout". 30 s later the final status is fetched. Only when its `CommandStatus` contains COMPLETED are the final cost, count and kWh recorded, and the charge detail record (CDR) only when the reply carries one.

Around the engine, the model covers:
- the vendor-to-internal record parsers;
- the older lookup and selection helpers;
- the location sync task, which writes only new or changed locations;
- CDR paging per car;
- the removal of deleted charging states from the cache.

Modules, one per source file:
- `Parsers`: the parsers.
- `SessionHelpers`: the lookup, selection, connector choice and retry of the new session helpers.
- `Selection`: the freshness ranking both selections share.
- `SessionEngine`: the store transitions, the dispatch, the change detection, and the `Engine` class.
  - The class holds the store and the caches in fields. Its methods perform the writes one `set_document` at a time.
  - Each method is proved equal to a transition function over `EngineState`. The lemmas state what those functions do.
- `LegacySessions`: the older helpers.
- `Tasks`: the location sync.
- `HelpersIndex`: CDR paging and `on_remove`.
- `Documents`: the document store. `set_document` is a merge into the stored document.
- `CloudwiseTypes`: the records.
- `Wrappers`: `Option`, `Result`, and the order-keeping `Filter`.

How the outside world is represented:
- Collaborators (HTTP endpoints, the location cache at each retry attempt, the clock) are oracle answers in an `Env` value.
- Each timer and each un-awaited call becomes an `Action` appended to the engine's `pending` list. `Engine.Fire` runs one of them.
- Instants are integers in milliseconds.

## Model

| member | source | states |
|---|---|---|
| Wrappers.FilterAppend | src/cloudwise/helpers/index.ts:18 | `filter` over a concatenation is the concatenation of the filters, so it keeps order |
| Wrappers.FilterIdempotent | src/cloudwise/helpers/index.ts:18 | filtering twice with one predicate equals filtering once |
| Wrappers.FilterAll | src/cloudwise/helpers/index.ts:18 | when every element passes, `filter` returns the list unchanged |
| Wrappers.FilterNone | src/cloudwise/tasks.ts:23-28 | when no element passes, `filter` returns the empty list |
| Parsers.ParseLocation | src/cloudwise/helpers/parsers.ts:22-37 | the six base fields are copied; `image` is present iff `Images` is truthy, and then equals it |
| Parsers.ParseOcpiLocation | src/cloudwise/helpers/parsers.ts:39-50 | the location fields as `parse_location` gives them; company and party verbatim; one station per `OcpiEvses` entry, same length and order |
| Parsers.ParseEvse | src/cloudwise/helpers/parsers.ts:52-65 | uid, status, floor level and physical reference verbatim; connectors read from `OcpiConnectors` when that key is present, else from `Connectors`, one parsed connector each, in order |
| Parsers.ParseOcpiEvse | src/cloudwise/helpers/parsers.ts:67-85 | as `parse_eves`, reading `OcpiConnectors`, with length and order kept |
| Parsers.ParseEvseAgreesOnOcpi | src/cloudwise/helpers/parsers.ts:52-85 | on an OCPI evse, `parse_eves` and `parse_ocpi_eves` give the same record |
| Parsers.ParseConnector | src/cloudwise/helpers/parsers.ts:87-119 | the nine base fields verbatim; the four price fields are present iff the record has `TariffDetails`, and then carry its values |
| Parsers.ParseTariffDetails | src/cloudwise/helpers/parsers.ts:121-137 | the prices and the currency verbatim; one parsed item per tariff item, in order |
| Parsers.ParseTariffItem | src/cloudwise/helpers/parsers.ts:139-157 | `prices` are mapped element-wise: same length and order, each keeping type, price and vat |
| Parsers.ParseCdr | src/cloudwise/helpers/parsers.ts:159-209 | ids, costs, energy and times verbatim; `credits_balance` is 0 when the source is null or undefined and the source value otherwise; `credits_expiration_date` is null unless the source value is truthy |
| Selection.FlattenCovers | src/cloudwise/sessions/helpers.ts:70-73 | every station of every location is visited by the nested loops |
| Selection.FlattenSound | src/cloudwise/sessions/helpers.ts:70-73 | every visited candidate is a station of one of the locations |
| Selection.FlattenHead | src/cloudwise/sessions/helpers.ts:88-89 | the first visited candidate is the first location's first station |
| Selection.ExtendFirstClosest | src/cloudwise/sessions/helpers.ts:74-76 | after one more station the winner is the new station iff it is eligible and strictly nearer; ties keep the earlier one |
| Selection.FirstClosestIsUnique | src/cloudwise/sessions/helpers.ts:75 | the ranking has at most one winner |
| SessionHelpers.FirstNonChademo | src/cloudwise/sessions/helpers.ts:58 | the index of the first connector whose standard is not CHADEMO, or none when all are CHADEMO |
| SessionHelpers.SessionConnector | src/cloudwise/sessions/helpers.ts:54-60 | with one connector, that connector; otherwise the first non-CHADEMO connector, or `connectors[0]` if there is none; always an element of the input; undefined only for an empty list |
| SessionHelpers.Detailed | src/cloudwise/sessions/helpers.ts:39-47 | a refreshed location is the parsed detail location and evses, with the cached company and party |
| SessionHelpers.FetchAll | src/cloudwise/sessions/helpers.ts:37-49 | `Promise.all` succeeds iff every lookup does, and then returns one refreshed location per input, in order |
| SessionHelpers.LocationsByGeoAndStatus | src/cloudwise/sessions/helpers.ts:20-51 | the call succeeds iff every detail lookup of a cached location within the radius succeeds (`Promise.all`); every returned location has a station in the requested status; every cached location within the radius whose refreshed record has such a station is returned |
| SessionHelpers.LookupKeepsNearLocations | src/cloudwise/sessions/helpers.ts:27-50 | every returned location is a cached location within the radius, refreshed from its own detail answer |
| SessionHelpers.SelectedIsUnique | src/cloudwise/sessions/helpers.ts:62-99 | the selection picks one station at most |
| SessionHelpers.VisitStations | src/cloudwise/sessions/helpers.ts:71-84 | the inner loop keeps, among the stations in `status`, the first nearest the timestamp, with its distance and its session connector |
| SessionHelpers.ClosestUpdatedLocation | src/cloudwise/sessions/helpers.ts:62-99 | with a station in `status`, the chosen station has it and is nearest the timestamp, the earliest on a tie; without one, `locations[0].stations[0]`; no answer (the source throws) iff neither exists; the connector is `get_session_connector` of the station |
| SessionHelpers.Attempt | src/cloudwise/sessions/helpers.ts:105-109 | the lookup of one attempt is `get_locations_by_geo_and_status` with status BLOCKED, so every location it returns has a BLOCKED station |
| SessionHelpers.Attempts | src/cloudwise/sessions/helpers.ts:104-109 | every attempt of the retry, by number, returns only locations with a BLOCKED station |
| SessionHelpers.LastAttempt | src/cloudwise/sessions/helpers.ts:104-119 | the retry stops at an attempt between the first and the third; every attempt before it came back empty; it is the third or came back non-empty |
| SessionHelpers.LastAttemptIs | src/cloudwise/sessions/helpers.ts:105-119 | the retry stops at the first attempt that is not empty, or at the third |
| SessionHelpers.SettingsFor | src/cloudwise/sessions/helpers.ts:125-142 | the settings have command START_SESSION; location, party, station and connector ids come from the selection; asset, BLE and device ids from the config |
| SessionHelpers.Resolved | src/cloudwise/sessions/helpers.ts:101-143 | resolved settings have command START_SESSION and the asset, BLE and device ids of the config |
| SessionHelpers.ResolvedIsUnique | src/cloudwise/sessions/helpers.ts:101-143 | the resolver settles on one set of settings at most |
| SessionHelpers.Resolution | src/cloudwise/sessions/helpers.ts:101-143 | the resolver's outcome is present iff some settings are resolved, and it is then exactly those settings |
| SessionHelpers.ResolutionIs | src/cloudwise/sessions/helpers.ts:101-143 | a resolver result that agrees with `Resolved` on success and failure is the resolution |
| SessionHelpers.Waits | src/cloudwise/sessions/helpers.ts:103-118 | a 3 s sleep before the first lookup and a 10 s sleep between consecutive lookups |
| SessionHelpers.SettingsFromLocations | src/cloudwise/sessions/helpers.ts:125-142 | the settings name the selected station and its session connector; failure iff no selection has a connector |
| SessionHelpers.RetryLookups | src/cloudwise/sessions/helpers.ts:104-119 | at most 3 lookups; every earlier one came back empty; it stops at the first non-empty answer; the sleeps taken between them |
| SessionHelpers.StartSessionSettings | src/cloudwise/sessions/helpers.ts:101-143 | the same bounds on lookups and sleeps; it throws when the last lookup throws or all three are empty; otherwise it yields exactly the resolved settings |
| SessionHelpers.StartPathNeverFallsBack | src/cloudwise/sessions/helpers.ts:87-129 | a non-empty lookup answer always has a blocked station, so on the start path the fallback to the first station never runs |
| Documents.PutMerges | src/cloudwise/sessions/helpers.ts:209-214 | `Put` (`set_document`, a merge): the written document holds the given fields and keeps the fields it had that were not given; no other document changes |
| Documents.PutIdempotent | src/cloudwise/sessions/helpers.ts:243 | writing the same fields twice leaves the collection as writing them once |
| SessionEngine.StateDoc | src/cloudwise/sessions/helpers.ts:169 | a charging-state record as a document has `session_id` iff the record has one, and never `command` or `party_id` |
| SessionEngine.SessionDoc | src/cloudwise/sessions/helpers.ts:158-166 | the session record has no `command` or `party_id`; it has status "started", the car, the selected location, station and connector, and the start instant |
| SessionEngine.ChargingDoc | src/cloudwise/sessions/helpers.ts:168-173 | the car's state document has status "charging" and the returned session id |
| SessionEngine.ErrorStateDoc | src/cloudwise/sessions/helpers.ts:183 | the car's state document has status "error" |
| SessionEngine.StopConfig | src/cloudwise/sessions/helpers.ts:196-204 | the stop settings have command STOP_SESSION, the session id and the instant, and no status, car number or id |
| SessionEngine.StopConfigKeepsFields | src/cloudwise/sessions/helpers.ts:196-201 | every other field of the cached session is sent unchanged |
| SessionEngine.PlugoutDoc | src/cloudwise/sessions/helpers.ts:215 | the car's state after a stop has status "plugout" and `session_id` "" |
| SessionEngine.StartedId | src/cloudwise/sessions/helpers.ts:153-157 | a session id exists iff the start reply carries a truthy CommandId |
| SessionEngine.AfterStart | src/cloudwise/sessions/helpers.ts:147-185 | a start leaves the cached cars, the CDRs and the schedule alone, and sends at most one command, appended after those already sent |
| SessionEngine.StartSucceeds | src/cloudwise/sessions/helpers.ts:151-173 | with settings and a CommandId, the start command is sent; the session is merged into the document under the CommandId ("started", the car, the selection), adding no `command` or `party_id` field that document did not already have; the car becomes "charging" with that id; nothing else changes |
| SessionEngine.StartFails | src/cloudwise/sessions/helpers.ts:150-184 | when resolving throws or the CommandId is missing, no session is written and only the car's state becomes "error" |
| SessionEngine.StartKeepsSessionsClean | src/cloudwise/sessions/helpers.ts:158-159 | no stored session record gains `command` or `party_id` through a start |
| SessionEngine.ReleaseCar | src/cloudwise/sessions/helpers.ts:215-218 | after an accepted stop only the charging states and the schedule change |
| SessionEngine.AfterStop | src/cloudwise/sessions/helpers.ts:188-249 | a stop leaves the cached cars and the CDRs alone; commands and scheduled actions are only appended |
| SessionEngine.StopUnknown | src/cloudwise/sessions/helpers.ts:191-195 | stopping a session the cache does not hold writes and sends nothing |
| SessionEngine.StopRejected | src/cloudwise/sessions/helpers.ts:205-248 | a stop command that throws leaves the store and the schedule unchanged |
| SessionEngine.StopCompletes | src/cloudwise/sessions/helpers.ts:205-214 | an accepted stop sends the stop settings and rewrites only this session, adding id, status, timestamp and end timestamp to its fields |
| SessionEngine.StopMarksCompleted | src/cloudwise/sessions/helpers.ts:209-214 | the stopped session reads "completed", with the stop instant as its end |
| SessionEngine.StopKeepsFields | src/cloudwise/sessions/helpers.ts:209-210 | every other field of the session survives the stop |
| SessionEngine.StopReleasesCar | src/cloudwise/sessions/helpers.ts:215-245 | the session's car becomes "plugout" with `session_id` "" and the final-status fetch is scheduled with a 30 s delay; no other car changes |
| SessionEngine.StopKeepsSessionsClean | src/cloudwise/sessions/helpers.ts:209-214 | a stop never adds `command` or `party_id` to a session record |
| SessionEngine.AfterPoll | src/cloudwise/sessions/helpers.ts:252-286 | a poll sends nothing and touches neither the cars, the CDRs nor the charging states; scheduled actions are only appended |
| SessionEngine.PollAnswered | src/cloudwise/sessions/helpers.ts:257-271 | nothing is written or sent and the earlier schedule is kept; exactly one action is appended: the next poll, with a 30 s delay, iff the status contains ACTIVE, otherwise the stop check, with a 10 s delay |
| SessionEngine.PollFailed | src/cloudwise/sessions/helpers.ts:272-282 | a failed query marks a cached session "error" with an end instant, leaves an unknown one alone, and schedules nothing |
| SessionEngine.PollKeepsSessionsClean | src/cloudwise/sessions/helpers.ts:280 | a poll never adds `command` or `party_id` to a session record |
| SessionEngine.AfterStopCheck | src/cloudwise/sessions/helpers.ts:264-273 | the stop check leaves the cached cars and the CDRs alone; commands and scheduled actions are only appended |
| SessionEngine.StopCheckStopsOpen | src/cloudwise/sessions/helpers.ts:264-270 | the delayed check changes nothing for an unknown or completed session, and sends the stop for an open one |
| SessionEngine.FinalRecord | src/cloudwise/sessions/helpers.ts:220-235 | cost, count and kWh default to 0; the record has no status, command or party; it has `cdr_id` iff a CDR was reported |
| SessionEngine.StoreCdr | src/cloudwise/sessions/helpers.ts:231-242 | a reported CDR is parsed and stored under its own id, with the engine's session id and the car; other CDRs are kept; without a CDR nothing is stored |
| SessionEngine.FinalStatusIgnored | src/cloudwise/sessions/helpers.ts:227-229 | unless the status contains COMPLETED, the fetch changes nothing |
| SessionEngine.FinalStatusRecorded | src/cloudwise/sessions/helpers.ts:229-243 | a completed report merges cost, count and kWh (0 when absent), keeps the status, adds the CDR id, and stores the CDR; no other session changes |
| SessionEngine.AfterFinalStatus | src/cloudwise/sessions/helpers.ts:218-247 | the final-status fetch sends nothing, schedules nothing and touches neither the cached cars nor the charging states |
| SessionEngine.FinalStatusRepeatable | src/cloudwise/sessions/helpers.ts:229-243 | a second fetch with the same report leaves the store as the first left it, since `set_document` merges the same fields again |
| SessionEngine.FinalStatusKeepsSessionsClean | src/cloudwise/sessions/helpers.ts:243 | the final update never adds `command` or `party_id` |
| SessionEngine.AfterStatusChange | src/cloudwise/sessions/helpers.ts:289-312 | a dispatched transition leaves the cached cars alone; commands and scheduled actions are only appended |
| SessionEngine.StatusChangeIgnored | src/cloudwise/sessions/helpers.ts:289-311 | cars off the allow-list, unknown statuses, and "plugout"/"error" without a session id change nothing |
| SessionEngine.StatusChangeKeepsSessionsClean | src/cloudwise/sessions/helpers.ts:289-312 | no transition adds `command` or `party_id` to a session record |
| SessionEngine.StopSendsStop | src/cloudwise/sessions/helpers.ts:205 | a stop sends at most one command, and it is a stop |
| SessionEngine.StartSendsStart | src/cloudwise/sessions/helpers.ts:152 | a start sends exactly one start command with the resolved settings, or nothing when resolving throws |
| SessionEngine.OnlyPluginStarts | src/cloudwise/sessions/helpers.ts:294-311 | only a "plugin" record of a monitored car sends a start command; any other record sends at most a stop; "charging" sends nothing |
| SessionEngine.FindCar | src/cloudwise/sessions/helpers.ts:317 | the first cached record with the car number, or none iff no record has it |
| SessionEngine.Replace | src/cloudwise/sessions/helpers.ts:327 | the car's records are replaced by the new record; the others are kept, with length and car numbers unchanged |
| SessionEngine.QuietMeansCached | src/cloudwise/sessions/helpers.ts:317-326 | `Fires`: a record of a car the cache lacks fires; a record that does not fire matches a cached record of its car and status; with one record per car, an already cached record never fires |
| SessionEngine.AbsorbPlaces | src/cloudwise/sessions/helpers.ts:317-327 | `Absorb` (one record merged): the record is in the cache afterwards, which grows by one exactly when its car was not cached |
| SessionEngine.MergeBounds | src/cloudwise/sessions/helpers.ts:316-329 | `MergeBatch` (the whole batch merged): the cache grows by at most one record per batch element and holds the batch's last record |
| SessionEngine.Triggered | src/cloudwise/sessions/helpers.ts:316-327 | no more transitions are scheduled than the batch has records |
| SessionEngine.TriggeredFromBatch | src/cloudwise/sessions/helpers.ts:316-327 | only records of the batch are scheduled |
| SessionEngine.MergeStep | src/cloudwise/sessions/helpers.ts:316-327 | a record triggers `handle_status_change` iff its car is absent from the cache so far or its status differs; the cache absorbs it |
| SessionEngine.MergeKeepsUnique | src/cloudwise/sessions/helpers.ts:316-328 | merging keeps car numbers unique in the cache |
| SessionEngine.MergeKeepsPositions | src/cloudwise/sessions/helpers.ts:316-328 | cached cars keep their positions, and new cars are appended from the batch |
| SessionEngine.MergeLookup | src/cloudwise/sessions/helpers.ts:316-328 | after a merge, each car's record is the batch's last record for it, or the earlier cached one when the batch has none |
| SessionEngine.LastForDistinct | src/cloudwise/sessions/helpers.ts:316 | in a batch without repeated cars, each record is its car's last |
| SessionEngine.ReplayIsQuiet | src/cloudwise/sessions/helpers.ts:324-327 | replaying a batch without repeated cars leaves the cache as it is and triggers nothing |
| SessionEngine.FirstBatchAllFire | src/cloudwise/sessions/helpers.ts:318-321 | into an empty cache, every record of such a batch triggers, in batch order |
| SessionEngine.AfterFire | src/cloudwise/sessions/helpers.ts:218-312 | running one scheduled action keeps the cached cars and every other scheduled action, in order; commands are only appended |
| SessionEngine.FireKeepsSessionsClean | src/cloudwise/sessions/helpers.ts:218-328 | running any scheduled work never adds `command` or `party_id` to a session record |
| SessionEngine.Engine.constructor | src/cloudwise/helpers/index.ts:7-13 | the engine starts from the stored collections and the first snapshot, with nothing sent or scheduled |
| SessionEngine.Engine.StartSession | src/cloudwise/sessions/helpers.ts:147-185 | the new state is the start transition for the resolver's outcome; the lookups and sleeps are those of the retry |
| SessionEngine.Engine.SendStart | src/cloudwise/sessions/helpers.ts:152-184 | the writes after resolving are exactly the start transition |
| SessionEngine.Engine.StopSession | src/cloudwise/sessions/helpers.ts:188-249 | the new state is the stop transition |
| SessionEngine.Engine.HandleActiveSession | src/cloudwise/sessions/helpers.ts:252-286 | the new state is the poll transition |
| SessionEngine.Engine.StopIfOpenSession | src/cloudwise/sessions/helpers.ts:264-270 | the new state is the stop check transition |
| SessionEngine.Engine.FetchFinalSessionStatus | src/cloudwise/sessions/helpers.ts:218-245 | the new state is the final-status transition |
| SessionEngine.Engine.HandleStatusChange | src/cloudwise/sessions/helpers.ts:289-312 | the new state is the dispatch transition |
| SessionEngine.Engine.HandleChargingStateAddAndEdit | src/cloudwise/sessions/helpers.ts:314-330 | the cache becomes the merged batch and keeps one record per car; the triggered records are scheduled, in batch order |
| SessionEngine.Engine.OnRemove | src/cloudwise/helpers/index.ts:16-20 | the cache loses exactly the removed cars and keeps one record per car; nothing else changes |
| SessionEngine.Engine.Fire | src/cloudwise/sessions/helpers.ts:218-328 | running a scheduled action removes it and applies its transition |
| LegacySessions.NearWithStatus | src/cloudwise/helpers/sessions.ts:65-74 | a cached location is kept iff it is within the radius AND has a station with the requested status |
| LegacySessions.Requests | src/cloudwise/helpers/sessions.ts:79-80 | one detail request per kept location, with its id and party, in order |
| LegacySessions.LocationsByGeoAndStatus | src/cloudwise/helpers/sessions.ts:58-92 | with the defaults 500 m and BLOCKED: an empty filter gives [] and no request; otherwise exactly one request per kept location, in order; success iff every request succeeds, returning the refreshed locations in order |
| LegacySessions.LookupReturnsKeptLocations | src/cloudwise/helpers/sessions.ts:65-91 | every returned location is a kept cached location refreshed from its own detail answer |
| LegacySessions.VisitAllStations | src/cloudwise/helpers/sessions.ts:112-123 | the inner loop keeps the first candidate nearest `now`, over all stations regardless of status |
| LegacySessions.DropSeed | src/cloudwise/helpers/sessions.ts:103-114 | visiting the seed before the list it heads changes no winner; its second visit never wins because the comparison is strict |
| LegacySessions.ClosestUpdatedLocation | src/cloudwise/helpers/sessions.ts:100-127 | seeded with `locations[0].stations[0]` (the source throws without one): the result minimises \|now − last_updated\| over every station, the earliest on a tie |
| LegacySessions.SeedWinsWhenNearest | src/cloudwise/helpers/sessions.ts:103-114 | when no station is strictly nearer than the seed, the seed is returned |
| Tasks.ParseConnector | src/cloudwise/tasks.ts:93-116 | the nine base fields verbatim and no tariff or price field |
| Tasks.ParseEvse | src/cloudwise/tasks.ts:73-91 | uid, status, floor level and physical reference verbatim; one connector per `OcpiConnectors` entry |
| Tasks.ParseLocation | src/cloudwise/tasks.ts:40-71 | the base fields, company and party verbatim; stations as long as `OcpiEvses` and in its order; `image` present iff `Images` is truthy |
| Tasks.ConnectorAgreesWhenUnpriced | src/cloudwise/tasks.ts:93-116 | without `TariffDetails`, the task's connector parser agrees with the shared one |
| Tasks.EvseAgreesWhenUnpriced | src/cloudwise/tasks.ts:73-91 | without tariffs, the task's evse parser agrees with `parse_ocpi_eves` |
| Tasks.LocationAgreesWhenUnpriced | src/cloudwise/tasks.ts:40-71 | without tariffs, the task writes exactly the fields `parse_ocpi_location` reads, laid out flat |
| Tasks.FirstWithId | src/cloudwise/tasks.ts:24 | the first cached entry with the id, or none iff no entry has it |
| Tasks.NeedToUpdate | src/cloudwise/tasks.ts:21-28 | exactly the parsed locations with no cached entry, or whose first cached entry differs, in fetch order |
| Tasks.CollectCloudwiseLocations | src/cloudwise/tasks.ts:17-38 | a batch is committed iff something needs writing, and the batch is exactly those locations |
| Tasks.UnchangedNotWritten | src/cloudwise/tasks.ts:25 | a location equal to its cached entry is never written |
| Tasks.UnchangedCatalogWritesNothing | src/cloudwise/tasks.ts:25-30 | re-running on a catalog the cache already holds writes nothing |
| Tasks.ApplyBatch | src/cloudwise/tasks.ts:31-35 | the committed collection holds the old ids plus the written ones |
| Tasks.BatchStoresEach | src/cloudwise/tasks.ts:31-35 | with distinct ids, each written location is stored under its id and every other document is untouched |
| Tasks.SyncConverges | src/cloudwise/tasks.ts:17-38 | after the commit every fetched location is stored as fetched, so a cache listing the new collection makes the next run write nothing |
| HelpersIndex.OfCar | src/cloudwise/helpers/index.ts:27 | exactly the cached CDRs with the car number |
| HelpersIndex.GetCdrs | src/cloudwise/helpers/index.ts:24-28 | with defaults limit 100 and offset 0: every item has the car number; at most `limit` items; empty when offset ≥ the number of matches; otherwise `min(limit, matches − offset)` items, equal to the matches from `offset` on, in cache order |
| HelpersIndex.PagesTile | src/cloudwise/helpers/index.ts:27 | two consecutive pages together equal the page that spans both, so paging neither skips nor repeats a record |
| HelpersIndex.RecordOnItsPage | src/cloudwise/helpers/index.ts:27 | every matching CDR is on the page its position falls in |
| HelpersIndex.RemoveById | src/cloudwise/helpers/index.ts:16-19 | a cached car is kept iff its id is not among the removed documents' ids |
| HelpersIndex.RemoveKeepsOrder | src/cloudwise/helpers/index.ts:18 | removal distributes over concatenation, so the kept cars stay in order |
| HelpersIndex.RemoveNothing | src/cloudwise/helpers/index.ts:18 | removing documents that name no cached car leaves the cache as it is |
| HelpersIndex.RemoveIdempotent | src/cloudwise/helpers/index.ts:18 | applying the same removal twice gives the same cache as once |
| HelpersIndex.RemoveKeepsDistinctCars | src/cloudwise/helpers/index.ts:18 | the removal keeps one record per car |

## Left out

- `get_distance_meters` (haversine on floating point) is left out. Being within the radius is an abstract predicate, or an abstract distance function compared with the radius.
- Timers, sleeps and `setInterval` do not run:
  - Each `setTimeout` and each un-awaited `handle_status_change` is an `Action` appended to `pending`, with its delay given by `Delay`; `PollAnswered` and `StopReleasesCar` state the delay of each timer they schedule.
  - The retry's sleeps are the returned `waits` list.
  - The 30-minute sync and the hourly login timers in `tasks.ts` are left out.
- HTTP calls are answers supplied in `Env`: `get_location_details`, `session_command`, `get_session_status`, `get_locations` and login.
- Cache reads are inputs supplied in `Env` too: `get_config` (the `nx-settings` cache) and the location cache seen at each retry attempt.
- The clock is the `now` instant of `Env`.
- Date formatting (`moment(...).format`) is left out, and so are the `last_updated` strings of the selection results. `Timestamp.fromDate(new Date(s))` is the `millis` part of a `RawDate`.
- The cache of sessions is identified with the stored `cloudwise-sessions` collection; the snapshot delay between a write and the cache is not modelled.
- A session's cached record carries its document id as `id`, which the engine's writes do not add themselves.
- Concurrency is not modelled. Un-awaited transitions run one at a time, in whatever order `Fire` is called.
- `clearTimeout` in `handle_active_session` is not modelled: the timer it clears has always already fired when it runs.
- `parse_charging_add_edit` (src/cloudwise/helpers/sessions.ts:18-34) has no effect for any input: every branch of its `switch` is empty. Nothing is modelled for it.
- Logging, Express routing, services, startup, snapshot wiring and Firestore batches are left out. A committed batch is the `ApplyBatch` of its writes.
- Negative `offset` and `limit` values of `get_cdrs` are not modelled.
- The cached charging-state and CDR lists are ordered sequences. The CDR documents the engine writes are a map by CDR id; their order in the cache is not modelled.
- Lodash `isEqual` is datatype equality. A key that is present but undefined is modelled as an absent optional field.
- SessionEngine.AfterStatusChange, SessionEngine.AfterFire: these are ghost, because the start path depends on `Resolution`, which is defined by choice. The `Engine` methods are proved against them.
- SessionEngine.FinalStatusIgnored: the 30 s callback of `stop_session` (src/cloudwise/sessions/helpers.ts:218-245) runs outside its `try`. A `get_session_status` that throws, or a reply without `CommandStatus`, is an unhandled promise rejection in the program. The model treats both as a fetch that changes nothing.
- Store writes are assumed never to fail. A `set_document` that throws, which the `catch` blocks of `start_session`, `stop_session` and `handle_active_session` would also catch, is not modelled.
- SessionEngine.StoreCdr: the stored CDR replaces any earlier document under its id, where `set_document` merges into it; CDR ids are unique per charge, so the two agree on a fresh id.
- The stored CDR keeps the parsed CDR's `id` in its `cdr` field, where the program deletes it before writing; the id is the document id in both.
- HelpersIndex.GetCdrs: offsets and limits are `nat`, so JavaScript's negative slice indices are not modelled.
