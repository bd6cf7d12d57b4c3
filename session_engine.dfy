/** The charging-session engine of src/cloudwise/sessions/helpers.ts: the
    store transitions of starting, stopping and polling a session, the
    dispatch on a car's charging status, and the change detection that
    turns a batch of charging-state records into status transitions.

    Each transition is a function from one engine state to the next; the
    `Engine` class holds the state in fields and its methods perform the
    same writes one `set_document` at a time. Timers and un-awaited calls
    become `Action` values appended to `pending`; `Engine.Fire` runs one. */
module SessionEngine {

  import opened Wrappers
  import opened Documents
  import opened CloudwiseTypes
  import opened Parsers
  import opened SessionHelpers
  import opened HelpersIndex

  /** The cars whose charging states are acted on. */
  const Monitored: set<string> := {"1234567890", "20326304", "86913103"}

  // ----- scheduled work, commands and stored records -----

  /** Work that runs later: an un-awaited `handle_status_change`, the next
      poll of an active session (30 s), the stop check after a session
      left ACTIVE (10 s), and the final status fetch after a stop (30 s). */
  datatype Action =
    | HandleStatus(state: ChargingState)
    | PollSession(sessionId: Option<string>)
    | StopIfOpen(sessionId: Option<string>)
    | FetchFinalStatus(stoppedId: string, carNumber: string)

  /** The delay in milliseconds before an action runs. */
  function Delay(a: Action): nat
  {
    match a
    case HandleStatus(_) => 0
    case PollSession(_) => 30000
    case StopIfOpen(_) => 10000
    case FetchFinalStatus(_, _) => 30000
  }

  /** A `session_command` sent to the network. */
  datatype Request = Start(settings: Settings) | Stop(config: Doc)

  /** Everything the engine reads and writes: the `cloudwise-sessions`
      collection (which is also its session cache), the
      `cloudwise-charging-state` documents, the CDR documents, the cached
      charging-state list, the commands sent and the scheduled actions. */
  datatype EngineState = EngineState(
    sessions: Collection,
    states: Collection,
    cdrs: map<string, StoredCdr>,
    cars: seq<ChargingState>,
    sent: seq<Request>,
    pending: seq<Action>)

  /** No session record carries the `command` or `party_id` of the
      command that created it. */
  predicate SessionsClean(sessions: Collection)
  {
    forall id :: id in sessions ==> Command !in sessions[id] && PartyId !in sessions[id]
  }

  /** A write without `command` or `party_id` keeps the records clean. */
  lemma PutKeepsClean(sessions: Collection, id: string, fields: Doc)
    requires SessionsClean(sessions) && Command !in fields && PartyId !in fields
    ensures SessionsClean(Put(sessions, id, fields))
  {
    PutMerges(sessions, id, fields);
  }

  /** JavaScript `s.includes(sub)`. */
  predicate Contains(s: string, sub: string)
  {
    exists i :: 0 <= i <= |s| - |sub| && sub <= s[i..]
  }

  // ----- documents written -----

  /** A charging-state record as a document. */
  function StateDoc(cs: ChargingState): (d: Doc)
    ensures SessionId in d <==> cs.sessionId.Some?
    ensures Command !in d && PartyId !in d
  {
    var base := map[Id := Str(cs.id), Status := Str(cs.status), CarNumber := Str(cs.carNumber),
                    Lat := Num(cs.lat), Lng := Num(cs.lng), Timestamp := Time(cs.timestamp)];
    if cs.sessionId.Some? then base[SessionId := Str(cs.sessionId.value)] else base
  }

  /** The session record `start_session` writes: the command settings
      without `command` and `party_id`, the car, "started" and the instants. */
  function SessionDoc(s: Settings, carNumber: string, now: Millis): (d: Doc)
    ensures Command !in d && PartyId !in d
    ensures Status in d && d[Status] == Str("started") && CarNumber in d && d[CarNumber] == Str(carNumber)
    ensures LocationId in d && d[LocationId] == Str(s.locationId)
    ensures StationUid in d && d[StationUid] == Str(s.stationUid)
    ensures ConnectorId in d && d[ConnectorId] == Str(s.connectorId)
    ensures StartTimestamp in d && d[StartTimestamp] == Time(now)
  {
    map[AssetId := Str(s.assetId), BleId := Str(s.bleId), DeviceId := Str(s.deviceId),
        LocationId := Str(s.locationId), StationUid := Str(s.stationUid),
        ConnectorId := Str(s.connectorId), CarNumber := Str(carNumber),
        Status := Str("started"), StartTimestamp := Time(now), Timestamp := Time(now)]
  }

  /** The charging-state record with status "charging" and the session id. */
  function ChargingDoc(cs: ChargingState, sessionId: string, now: Millis): (d: Doc)
    ensures Status in d && d[Status] == Str("charging")
    ensures SessionId in d && d[SessionId] == Str(sessionId)
    ensures CarNumber in d && d[CarNumber] == Str(cs.carNumber)
  {
    StateDoc(cs) + map[Status := Str("charging"), SessionId := Str(sessionId), Timestamp := Time(now)]
  }

  /** The charging-state record with status "error". */
  function ErrorStateDoc(cs: ChargingState, now: Millis): (d: Doc)
    ensures Status in d && d[Status] == Str("error")
    ensures CarNumber in d && d[CarNumber] == Str(cs.carNumber)
  {
    StateDoc(cs) + map[Status := Str("error"), Timestamp := Time(now)]
  }

  /** The cached form of a stored session: its fields and its id. */
  function CachedSession(sessions: Collection, id: string): Doc
    requires id in sessions
  {
    sessions[id][Id := Str(id)]
  }

  /** The stop command's settings: the cached session with the command,
      the session id and the instant, minus `status`, `car_number` and `id`. */
  function StopConfig(session: Doc, id: string, now: Millis): (d: Doc)
    ensures Status !in d && CarNumber !in d && Id !in d
    ensures Command in d && d[Command] == Str("STOP_SESSION")
    ensures SessionId in d && d[SessionId] == Str(id)
    ensures Timestamp in d && d[Timestamp] == Time(now)
  {
    (session + map[Command := Str("STOP_SESSION"), SessionId := Str(id), Timestamp := Time(now)])
      - {Status, CarNumber, Id}
  }

  /** The stop command carries every other field of the cached session as is. */
  lemma StopConfigKeepsFields(session: Doc, id: string, now: Millis, f: Field)
    requires f in session && f !in {Status, CarNumber, Id, Command, SessionId, Timestamp}
    ensures f in StopConfig(session, id, now) && StopConfig(session, id, now)[f] == session[f]
  {
  }

  /** The fields a stop writes over the cached session. */
  function CompletedFields(now: Millis): Doc
  {
    map[Status := Str("completed"), Timestamp := Time(now), EndTimestamp := Time(now)]
  }

  /** The partial charging-state record a stop writes for the car. */
  function PlugoutDoc(now: Millis): (d: Doc)
    ensures Status in d && d[Status] == Str("plugout")
    ensures SessionId in d && d[SessionId] == Str("")
  {
    map[Status := Str("plugout"), SessionId := Str(""), Timestamp := Time(now)]
  }

  /** The partial session record a failed poll writes. */
  function PollErrorDoc(now: Millis): Doc
  {
    map[Status := Str("error"), Timestamp := Time(now), EndTimestamp := Time(now)]
  }

  /** The update the final-status fetch writes; missing numbers default to 0. */
  function FinalUpdate(rep: StatusReport, now: Millis): Doc
  {
    map[Cost := Num(rep.cost.GetOr(0.0)), Count := Num(rep.count.GetOr(0.0)),
        Kwh := Num(rep.kwh.GetOr(0.0)),
        ChargingTimeInSeconds := Num(rep.chargingTimeInSeconds), Timestamp := Time(now)]
  }

  /** The CommandId of the start reply when it is truthy. */
  function StartedId(env: Env): (r: Option<string>)
    ensures r.Some? <==> env.startReply.Ok? && env.startReply.value.Some? && env.startReply.value.value != ""
    ensures r.Some? ==> r.value == env.startReply.value.value
  {
    match env.startReply
    case Ok(Some(id)) => if id != "" then Some(id) else None
    case _ => None
  }

  // ----- store transitions -----

  /** `start_session` with the resolver's outcome `settings`. */
  function AfterStart(w: EngineState, cs: ChargingState, settings: Option<Settings>, env: Env): (r: EngineState)
    ensures r.cars == w.cars && r.cdrs == w.cdrs && r.pending == w.pending
    ensures w.sent <= r.sent && |r.sent| <= |w.sent| + 1
  {
    var w1 := if settings.Some? then w.(sent := w.sent + [Start(settings.value)]) else w;
    if settings.Some? && StartedId(env).Some? then
      var sid := StartedId(env).value;
      w1.(sessions := Put(w1.sessions, sid, SessionDoc(settings.value, cs.carNumber, env.now)),
          states := Put(w1.states, cs.carNumber, ChargingDoc(cs, sid, env.now)))
    else
      w1.(states := Put(w1.states, cs.carNumber, ErrorStateDoc(cs, env.now)))
  }

  /** A start with settings and a truthy CommandId sends the start command,
      stores the session record under the CommandId ("started", the car,
      the selected location, station and connector, and no command or party
      unless the record already had them) and sets the car's state to
      "charging" with that session id. Nothing else changes. */
  lemma StartSucceeds(w: EngineState, cs: ChargingState, s: Settings, env: Env)
    requires StartedId(env).Some?
    ensures var r := AfterStart(w, cs, Some(s), env);
      var sid := StartedId(env).value;
      && r.cars == w.cars && r.cdrs == w.cdrs && r.pending == w.pending
      && r.sent == w.sent + [Start(s)]
      && r.sessions.Keys == w.sessions.Keys + {sid}
      && (forall id :: id in w.sessions && id != sid ==> r.sessions[id] == w.sessions[id])
      && r.sessions[sid][Status] == Str("started")
      && r.sessions[sid][CarNumber] == Str(cs.carNumber)
      && r.sessions[sid][LocationId] == Str(s.locationId)
      && r.sessions[sid][StationUid] == Str(s.stationUid)
      && r.sessions[sid][ConnectorId] == Str(s.connectorId)
      && (Command !in Current(w.sessions, sid) ==> Command !in r.sessions[sid])
      && (PartyId !in Current(w.sessions, sid) ==> PartyId !in r.sessions[sid])
      && r.states.Keys == w.states.Keys + {cs.carNumber}
      && (forall car :: car in w.states && car != cs.carNumber ==> r.states[car] == w.states[car])
      && r.states[cs.carNumber][Status] == Str("charging")
      && r.states[cs.carNumber][SessionId] == Str(sid)
  {
    var sid := StartedId(env).value;
    var session := SessionDoc(s, cs.carNumber, env.now);
    var state := ChargingDoc(cs, sid, env.now);
    assert AfterStart(w, cs, Some(s), env) ==
      w.(sent := w.sent + [Start(s)], sessions := Put(w.sessions, sid, session), states := Put(w.states, cs.carNumber, state));
    PutMerges(w.sessions, sid, session);
    PutMerges(w.states, cs.carNumber, state);
  }

  /** When the resolver fails, or the start command throws or returns no
      CommandId, no session record is written and only the car's state is
      set, to "error". */
  lemma StartFails(w: EngineState, cs: ChargingState, settings: Option<Settings>, env: Env)
    requires settings.None? || StartedId(env).None?
    ensures var r := AfterStart(w, cs, settings, env);
      && r.cars == w.cars && r.cdrs == w.cdrs && r.pending == w.pending
      && r.sent == (if settings.Some? then w.sent + [Start(settings.value)] else w.sent)
      && r.sessions == w.sessions
      && r.states.Keys == w.states.Keys + {cs.carNumber}
      && (forall car :: car in w.states && car != cs.carNumber ==> r.states[car] == w.states[car])
      && r.states[cs.carNumber][Status] == Str("error")
  {
    var w1 := if settings.Some? then w.(sent := w.sent + [Start(settings.value)]) else w;
    var state := ErrorStateDoc(cs, env.now);
    assert AfterStart(w, cs, settings, env) == w1.(states := Put(w.states, cs.carNumber, state));
    PutMerges(w.states, cs.carNumber, state);
  }

  lemma StartKeepsSessionsClean(w: EngineState, cs: ChargingState, settings: Option<Settings>, env: Env)
    requires SessionsClean(w.sessions)
    ensures SessionsClean(AfterStart(w, cs, settings, env).sessions)
  {
    if settings.Some? && StartedId(env).Some? {
      var session := SessionDoc(settings.value, cs.carNumber, env.now);
      assert AfterStart(w, cs, settings, env).sessions == Put(w.sessions, StartedId(env).value, session);
      PutKeepsClean(w.sessions, StartedId(env).value, session);
    } else {
      assert AfterStart(w, cs, settings, env).sessions == w.sessions;
    }
  }

  /** `stop_session`. */
  function AfterStop(w: EngineState, id: string, env: Env): (r: EngineState)
    ensures r.cars == w.cars && r.cdrs == w.cdrs
    ensures w.sent <= r.sent && w.pending <= r.pending
  {
    if id !in w.sessions then w
    else
      var session := CachedSession(w.sessions, id);
      var w1 := w.(sent := w.sent + [Stop(StopConfig(session, id, env.now))]);
      if env.stopReply.Failed? then w1
      else
        ReleaseCar(w1.(sessions := Put(w1.sessions, id, session + CompletedFields(env.now))), id, session, env.now)
  }

  /** The rest of an accepted stop: the session's car, when the record
      names one, is set to "plugout" and the final-status fetch is
      scheduled. Only the charging states and the schedule change. */
  function ReleaseCar(w: EngineState, id: string, session: Doc, now: Millis): (r: EngineState)
    ensures r.sessions == w.sessions && r.sent == w.sent && r.cars == w.cars && r.cdrs == w.cdrs
  {
    match StrField(session, CarNumber)
    case None => w
    case Some(car) =>
      w.(states := Put(w.states, car, PlugoutDoc(now)), pending := w.pending + [FetchFinalStatus(id, car)])
  }

  /** Stopping a session the cache does not hold writes and sends nothing. */
  lemma StopUnknown(w: EngineState, id: string, env: Env)
    requires id !in w.sessions
    ensures AfterStop(w, id, env) == w
  {
  }

  /** A stop command that throws leaves the store and the schedule as they
      were; only the command was sent. */
  lemma StopRejected(w: EngineState, id: string, env: Env)
    requires id in w.sessions && env.stopReply.Failed?
    ensures var r := AfterStop(w, id, env);
      && r.sent == w.sent + [Stop(StopConfig(CachedSession(w.sessions, id), id, env.now))]
      && r.sessions == w.sessions && r.states == w.states && r.cdrs == w.cdrs
      && r.cars == w.cars && r.pending == w.pending
  {
  }

  /** An accepted stop completes the session, with an end instant and its
      other fields kept; nothing else in the session collection changes. */
  lemma StopCompletes(w: EngineState, id: string, env: Env)
    requires id in w.sessions && env.stopReply.Pass?
    ensures var r := AfterStop(w, id, env);
      && r.sent == w.sent + [Stop(StopConfig(CachedSession(w.sessions, id), id, env.now))]
      && r.cars == w.cars && r.cdrs == w.cdrs
      && r.sessions.Keys == w.sessions.Keys
      && (forall other :: other in w.sessions && other != id ==> r.sessions[other] == w.sessions[other])
      && r.sessions[id].Keys == w.sessions[id].Keys + {Id, Status, Timestamp, EndTimestamp}
  {
    PutMerges(w.sessions, id, CachedSession(w.sessions, id) + CompletedFields(env.now));
  }

  /** The stored record of an accepted stop reads "completed", with the
      stop instant as its end and its own id. */
  lemma StopMarksCompleted(w: EngineState, id: string, env: Env)
    requires id in w.sessions && env.stopReply.Pass?
    ensures var r := AfterStop(w, id, env);
      && r.sessions[id][Status] == Str("completed")
      && r.sessions[id][EndTimestamp] == Time(env.now)
      && r.sessions[id][Id] == Str(id)
  {
    var record := CachedSession(w.sessions, id) + CompletedFields(env.now);
    assert AfterStop(w, id, env).sessions == Put(w.sessions, id, record);
    PutMerges(w.sessions, id, record);
    assert record[Status] == Str("completed") && record[EndTimestamp] == Time(env.now) && record[Id] == Str(id);
  }

  /** Every other field of the stored record survives the stop. */
  lemma StopKeepsFields(w: EngineState, id: string, env: Env)
    requires id in w.sessions && env.stopReply.Pass?
    ensures var r := AfterStop(w, id, env);
      forall k :: k in w.sessions[id] && k !in CompletedFields(env.now) && k != Id ==>
        r.sessions[id][k] == w.sessions[id][k]
  {
    PutMerges(w.sessions, id, CachedSession(w.sessions, id) + CompletedFields(env.now));
  }

  /** After an accepted stop the car of the session is set to "plugout"
      with an empty session id, and the final-status fetch is scheduled;
      without a string car number the stop ends after the session write. */
  lemma StopReleasesCar(w: EngineState, id: string, env: Env)
    requires id in w.sessions && env.stopReply.Pass?
    ensures var r := AfterStop(w, id, env);
      match StrField(w.sessions[id], CarNumber)
      case Some(car) =>
        && r.states.Keys == w.states.Keys + {car}
        && (forall other :: other in w.states && other != car ==> r.states[other] == w.states[other])
        && r.states[car][Status] == Str("plugout")
        && r.states[car][SessionId] == Str("")
        && r.pending == w.pending + [FetchFinalStatus(id, car)]
        && Delay(r.pending[|w.pending|]) == 30000
      case None =>
        r.states == w.states && r.pending == w.pending
  {
    var session := CachedSession(w.sessions, id);
    assert StrField(session, CarNumber) == StrField(w.sessions[id], CarNumber);
    var r := AfterStop(w, id, env);
    match StrField(session, CarNumber)
    case Some(car) =>
      assert r.states == Put(w.states, car, PlugoutDoc(env.now));
      PutMerges(w.states, car, PlugoutDoc(env.now));
    case None =>
  }

  lemma StopKeepsSessionsClean(w: EngineState, id: string, env: Env)
    requires SessionsClean(w.sessions)
    ensures SessionsClean(AfterStop(w, id, env).sessions)
  {
    if id in w.sessions && env.stopReply.Pass? {
      var record := CachedSession(w.sessions, id) + CompletedFields(env.now);
      assert AfterStop(w, id, env).sessions == Put(w.sessions, id, record);
      PutKeepsClean(w.sessions, id, record);
    } else {
      assert AfterStop(w, id, env).sessions == w.sessions;
    }
  }

  /** One run of `handle_active_session`. */
  function AfterPoll(w: EngineState, id: Option<string>, env: Env): (r: EngineState)
    ensures r.cars == w.cars && r.cdrs == w.cdrs && r.sent == w.sent && r.states == w.states
    ensures w.pending <= r.pending
  {
    match env.statusReply
    case Ok(status) =>
      if Contains(status, "ACTIVE") then w.(pending := w.pending + [PollSession(id)])
      else w.(pending := w.pending + [StopIfOpen(id)])
    case Fail(_) =>
      if id.Some? && id.value in w.sessions then w.(sessions := Put(w.sessions, id.value, PollErrorDoc(env.now))) else w
  }

  /** A status still ACTIVE schedules the next poll; any other status
      schedules the stop check; either way nothing is written. */
  lemma PollAnswered(w: EngineState, id: Option<string>, env: Env)
    requires env.statusReply.Ok?
    ensures var r := AfterPoll(w, id, env);
      && r.sessions == w.sessions && r.states == w.states && r.cdrs == w.cdrs
      && r.sent == w.sent && r.cars == w.cars
      && |r.pending| == |w.pending| + 1 && r.pending[..|w.pending|] == w.pending
    ensures var next := AfterPoll(w, id, env).pending[|w.pending|];
      && (next == PollSession(id) <==> Contains(env.statusReply.value, "ACTIVE"))
      && (next == StopIfOpen(id) <==> !Contains(env.statusReply.value, "ACTIVE"))
      && Delay(next) == if Contains(env.statusReply.value, "ACTIVE") then 30000 else 10000
  {
    assert (w.pending + [PollSession(id)])[..|w.pending|] == w.pending;
    assert (w.pending + [StopIfOpen(id)])[..|w.pending|] == w.pending;
  }

  /** A failed status query schedules nothing; a cached session is marked
      "error" with an end instant, an unknown one is left alone. */
  lemma PollFailed(w: EngineState, id: Option<string>, env: Env)
    requires env.statusReply.Fail?
    ensures var r := AfterPoll(w, id, env);
      && r.pending == w.pending && r.states == w.states && r.cdrs == w.cdrs
      && r.sent == w.sent && r.cars == w.cars
      && (!(id.Some? && id.value in w.sessions) ==> r.sessions == w.sessions)
      && (id.Some? && id.value in w.sessions ==>
            && r.sessions.Keys == w.sessions.Keys
            && r.sessions[id.value][Status] == Str("error")
            && r.sessions[id.value][EndTimestamp] == Time(env.now)
            && (forall other :: other in w.sessions && other != id.value ==> r.sessions[other] == w.sessions[other]))
  {
  }

  lemma PollKeepsSessionsClean(w: EngineState, id: Option<string>, env: Env)
    requires SessionsClean(w.sessions)
    ensures SessionsClean(AfterPoll(w, id, env).sessions)
  {
    if env.statusReply.Fail? && id.Some? && id.value in w.sessions {
      PutKeepsClean(w.sessions, id.value, PollErrorDoc(env.now));
    }
  }

  /** Whether the cached session `id` exists and is not yet completed; an
      absent id names no session. */
  predicate IsOpen(sessions: Collection, id: Option<string>)
  {
    id.Some? && id.value in sessions
    && (Status !in sessions[id.value] || sessions[id.value][Status] != Str("completed"))
  }

  /** The stop check 10 s after a session left ACTIVE: a session that is
      already completed, or unknown, is left alone. */
  function AfterStopCheck(w: EngineState, id: Option<string>, env: Env): (r: EngineState)
    ensures r.cars == w.cars && r.cdrs == w.cdrs
    ensures w.sent <= r.sent && w.pending <= r.pending
  {
    if IsOpen(w.sessions, id) then AfterStop(w, id.value, env) else w
  }

  /** The stop check stops exactly the open sessions. */
  lemma StopCheckStopsOpen(w: EngineState, id: Option<string>, env: Env)
    ensures !IsOpen(w.sessions, id) ==> AfterStopCheck(w, id, env) == w
    ensures IsOpen(w.sessions, id) ==>
      AfterStopCheck(w, id, env).sent == w.sent + [Stop(StopConfig(CachedSession(w.sessions, id.value), id.value, env.now))]
  {
    if IsOpen(w.sessions, id) {
      if env.stopReply.Failed? {
        StopRejected(w, id.value, env);
      } else {
        StopCompletes(w, id.value, env);
      }
    }
  }

  /** The final-status fetch 30 s after a stop. */
  function AfterFinalStatus(w: EngineState, id: string, car: string, env: Env): (r: EngineState)
    ensures r.cars == w.cars && r.states == w.states && r.sent == w.sent && r.pending == w.pending
  {
    match env.finalReply
    case Fail(_) => w
    case Ok(rep) =>
      if !Contains(rep.commandStatus, "COMPLETED") then w
      else w.(cdrs := StoreCdr(w.cdrs, rep.cdr, id, car, env.now),
              sessions := Put(w.sessions, id, FinalRecord(rep, env.now)))
  }

  /** The fields the fetch merges into the session: cost, count and kWh (0
      when the report omits them), the charging time and the instant, and
      the CDR's id when the report carries a CDR. */
  function FinalRecord(rep: StatusReport, now: Millis): (d: Doc)
    ensures Cost in d && d[Cost] == Num(rep.cost.GetOr(0.0))
    ensures Count in d && d[Count] == Num(rep.count.GetOr(0.0))
    ensures Kwh in d && d[Kwh] == Num(rep.kwh.GetOr(0.0))
    ensures Status !in d && Command !in d && PartyId !in d
    ensures CdrId in d <==> rep.cdr.Some?
    ensures rep.cdr.Some? ==> d[CdrId] == Str(ParseCdr(rep.cdr.value).id)
  {
    var update := FinalUpdate(rep, now);
    match rep.cdr
    case None => update
    case Some(v) => update[CdrId := Str(ParseCdr(v).id)]
  }

  /** The CDR store after the fetch: a reported CDR is parsed and stored
      under its own id, with the engine's session id, the car and the
      instant; without a CDR nothing is stored. */
  function StoreCdr(cdrs: map<string, StoredCdr>, cdr: Option<VendorCdr>, id: string, car: string, now: Millis): (r: map<string, StoredCdr>)
    ensures cdr.None? ==> r == cdrs
    ensures cdr.Some? ==>
      var parsed := ParseCdr(cdr.value);
      && r.Keys == cdrs.Keys + {parsed.id}
      && r[parsed.id].cdr.sessionId == id && r[parsed.id].carNumber == car
      && r[parsed.id].cdr == parsed.(sessionId := id)
      && forall other :: other in cdrs && other != parsed.id ==> r[other] == cdrs[other]
  {
    match cdr
    case None => cdrs
    case Some(v) =>
      var parsed := ParseCdr(v);
      cdrs[parsed.id := StoredCdr(parsed.(sessionId := id), car, now)]
  }

  /** Unless the reported status contains COMPLETED, the fetch changes
      nothing. */
  lemma FinalStatusIgnored(w: EngineState, id: string, car: string, env: Env)
    requires !(env.finalReply.Ok? && Contains(env.finalReply.value.commandStatus, "COMPLETED"))
    ensures AfterFinalStatus(w, id, car, env) == w
  {
  }

  /** A completed report gives the session its cost, count and kWh (0 when
      absent), keeps its status and, with a CDR, the CDR's id; no other
      session and nothing outside the sessions and the CDRs changes. */
  lemma FinalStatusRecorded(w: EngineState, id: string, car: string, env: Env)
    requires env.finalReply.Ok? && Contains(env.finalReply.value.commandStatus, "COMPLETED")
    ensures var r := AfterFinalStatus(w, id, car, env);
      var rep := env.finalReply.value;
      && r.cars == w.cars && r.states == w.states && r.sent == w.sent && r.pending == w.pending
      && r.cdrs == StoreCdr(w.cdrs, rep.cdr, id, car, env.now)
      && r.sessions.Keys == w.sessions.Keys + {id}
      && (forall other :: other in w.sessions && other != id ==> r.sessions[other] == w.sessions[other])
      && r.sessions[id][Cost] == Num(rep.cost.GetOr(0.0))
      && r.sessions[id][Count] == Num(rep.count.GetOr(0.0))
      && r.sessions[id][Kwh] == Num(rep.kwh.GetOr(0.0))
      && (Status in Current(w.sessions, id) ==> r.sessions[id][Status] == w.sessions[id][Status])
      && (rep.cdr.Some? ==> r.sessions[id][CdrId] == Str(ParseCdr(rep.cdr.value).id))
  {
    PutMerges(w.sessions, id, FinalRecord(env.finalReply.value, env.now));
  }

  /** A second fetch with the same report, as when a session was stopped
      twice, leaves the store as the first one left it. */
  lemma FinalStatusRepeatable(w: EngineState, id: string, car: string, env: Env)
    ensures AfterFinalStatus(AfterFinalStatus(w, id, car, env), id, car, env) == AfterFinalStatus(w, id, car, env)
  {
    if env.finalReply.Ok? && Contains(env.finalReply.value.commandStatus, "COMPLETED") {
      PutIdempotent(w.sessions, id, FinalRecord(env.finalReply.value, env.now));
    }
  }

  lemma FinalStatusKeepsSessionsClean(w: EngineState, id: string, car: string, env: Env)
    requires SessionsClean(w.sessions)
    ensures SessionsClean(AfterFinalStatus(w, id, car, env).sessions)
  {
    if env.finalReply.Ok? && Contains(env.finalReply.value.commandStatus, "COMPLETED") {
      PutKeepsClean(w.sessions, id, FinalRecord(env.finalReply.value, env.now));
    }
  }

  /** Whether a charging-state record carries a non-empty session id. */
  predicate HasSessionId(cs: ChargingState)
  {
    cs.sessionId.Some? && |cs.sessionId.value| > 0
  }

  /** `handle_status_change`: cars outside the allow-list are ignored;
      "plugin" starts a session, "charging" polls the record's session
      (possibly absent), "plugout" and "error" stop the record's session
      when it names one, and any other status is ignored. */
  ghost function AfterStatusChange(w: EngineState, cs: ChargingState, env: Env): (r: EngineState)
    ensures r.cars == w.cars
    ensures w.sent <= r.sent && w.pending <= r.pending
  {
    if cs.carNumber !in Monitored then w
    else if cs.status == "plugin" then AfterStart(w, cs, Resolution(env, cs), env)
    else if cs.status == "charging" then AfterPoll(w, cs.sessionId, env)
    else if cs.status == "plugout" || cs.status == "error" then
      if HasSessionId(cs) then AfterStop(w, cs.sessionId.value, env) else w
    else w
  }

  /** Records of other cars, with another status, or stopping without a
      session id change nothing. */
  lemma StatusChangeIgnored(w: EngineState, cs: ChargingState, env: Env)
    requires || cs.carNumber !in Monitored
             || cs.status !in {"plugin", "charging", "plugout", "error"}
             || (cs.status in {"plugout", "error"} && !HasSessionId(cs))
    ensures AfterStatusChange(w, cs, env) == w
  {
  }

  lemma StatusChangeKeepsSessionsClean(w: EngineState, cs: ChargingState, env: Env)
    requires SessionsClean(w.sessions)
    ensures SessionsClean(AfterStatusChange(w, cs, env).sessions)
  {
    if cs.carNumber in Monitored {
      if cs.status == "plugin" {
        StartKeepsSessionsClean(w, cs, Resolution(env, cs), env);
      } else if cs.status == "charging" {
        PollKeepsSessionsClean(w, cs.sessionId, env);
      } else if (cs.status == "plugout" || cs.status == "error") && HasSessionId(cs) {
        StopKeepsSessionsClean(w, cs.sessionId.value, env);
      }
    }
  }

  /** A stop sends at most one command, a stop. */
  lemma StopSendsStop(w: EngineState, id: string, env: Env)
    ensures var r := AfterStop(w, id, env);
      || r.sent == w.sent
      || (id in w.sessions && r.sent == w.sent + [Stop(StopConfig(CachedSession(w.sessions, id), id, env.now))])
  {
  }

  /** A start sends at most one command, the start with the resolved
      settings. */
  lemma StartSendsStart(w: EngineState, cs: ChargingState, settings: Option<Settings>, env: Env)
    ensures AfterStart(w, cs, settings, env).sent ==
      if settings.Some? then w.sent + [Start(settings.value)] else w.sent
  {
  }

  /** Only a "plugin" record of a monitored car sends a start command;
      every other record sends at most a stop, and a "charging" record
      sends nothing. */
  lemma OnlyPluginStarts(w: EngineState, cs: ChargingState, env: Env)
    ensures w.sent <= AfterStatusChange(w, cs, env).sent
    ensures !(cs.carNumber in Monitored && cs.status == "plugin") ==>
      forall k :: |w.sent| <= k < |AfterStatusChange(w, cs, env).sent| ==> AfterStatusChange(w, cs, env).sent[k].Stop?
    ensures cs.status == "charging" ==> AfterStatusChange(w, cs, env).sent == w.sent
  {
    if cs.carNumber in Monitored {
      if cs.status == "plugin" {
        StartSendsStart(w, cs, Resolution(env, cs), env);
      } else if cs.status != "charging" && cs.status in {"plugout", "error"} && HasSessionId(cs) {
        StopSendsStop(w, cs.sessionId.value, env);
      }
    }
  }

  // ----- change detection -----

  /** `prev.find(...)`: the first cached record of the car. */
  function FindCar(cars: seq<ChargingState>, carNumber: string): (r: Option<ChargingState>)
    ensures r.None? <==> forall i :: 0 <= i < |cars| ==> cars[i].carNumber != carNumber
    ensures r.Some? ==> exists i :: (0 <= i < |cars| && cars[i] == r.value && r.value.carNumber == carNumber
      && forall j :: 0 <= j < i ==> cars[j].carNumber != carNumber)
    decreases |cars|
  {
    if cars == [] then None
    else if cars[0].carNumber == carNumber then Some(cars[0])
    else
      var r := FindCar(cars[1..], carNumber);
      assert r.Some? ==> exists i :: (0 <= i < |cars| && cars[i] == r.value && r.value.carNumber == carNumber
        && forall j :: 0 <= j < i ==> cars[j].carNumber != carNumber)
      by {
        if r.Some? {
          var i :| 0 <= i < |cars[1..]| && cars[1..][i] == r.value && r.value.carNumber == carNumber
            && forall j :: 0 <= j < i ==> cars[1..][j].carNumber != carNumber;
          assert cars[i + 1] == r.value;
          assert forall j :: 0 <= j < i + 1 ==> cars[j].carNumber != carNumber by {
            forall j | 0 <= j < i + 1 ensures cars[j].carNumber != carNumber {
              if j > 0 { assert cars[j] == cars[1..][j - 1]; }
            }
          }
        }
      }
      r
  }

  /** `prev.map(...)`: every cached record of the car replaced by `c`. */
  function Replace(cars: seq<ChargingState>, c: ChargingState): (r: seq<ChargingState>)
    ensures |r| == |cars|
    ensures forall i :: 0 <= i < |cars| ==> r[i].carNumber == cars[i].carNumber
    ensures forall i :: 0 <= i < |cars| ==> r[i] == (if cars[i].carNumber == c.carNumber then c else cars[i])
  {
    seq(|cars|, i requires 0 <= i < |cars| => if cars[i].carNumber == c.carNumber then c else cars[i])
  }

  /** Whether a record triggers a status transition against the cache: its
      car is not cached, or the cached status differs. */
  predicate Fires(cars: seq<ChargingState>, c: ChargingState)
  {
    FindCar(cars, c.carNumber).None? || FindCar(cars, c.carNumber).value.status != c.status
  }

  /** A record of a car the cache lacks fires; a record that does not fire
      matches a cached record of its car and status; in a cache without
      duplicate cars, a record already cached never fires. */
  lemma QuietMeansCached(cars: seq<ChargingState>, c: ChargingState)
    ensures (forall x :: x in cars ==> x.carNumber != c.carNumber) ==> Fires(cars, c)
    ensures !Fires(cars, c) ==> exists x :: x in cars && x.carNumber == c.carNumber && x.status == c.status
    ensures UniqueCars(cars) && c in cars ==> !Fires(cars, c)
  {
    if UniqueCars(cars) && c in cars {
      FindCarUnique(cars, c);
    }
  }

  /** One record merged into the cache: appended when its car is new,
      replacing the car's record otherwise. */
  function Absorb(cars: seq<ChargingState>, c: ChargingState): seq<ChargingState>
  {
    if FindCar(cars, c.carNumber).None? then cars + [c] else Replace(cars, c)
  }

  /** The cache after merging a batch, record by record. */
  function MergeBatch(cars: seq<ChargingState>, data: seq<ChargingState>): (r: seq<ChargingState>)
    decreases |data|
  {
    if data == [] then cars else Absorb(MergeBatch(cars, data[..|data| - 1]), data[|data| - 1])
  }

  /** The records of a batch that trigger a transition, in batch order. */
  function Triggered(cars: seq<ChargingState>, data: seq<ChargingState>): (r: seq<ChargingState>)
    ensures |r| <= |data|
    decreases |data|
  {
    if data == [] then []
    else
      var init := data[..|data| - 1];
      var last := data[|data| - 1];
      Triggered(cars, init) + (if Fires(MergeBatch(cars, init), last) then [last] else [])
  }

  /** A merged record is in the cache afterwards; the cache grows by one
      exactly when its car was not cached. */
  lemma AbsorbPlaces(cars: seq<ChargingState>, c: ChargingState)
    ensures c in Absorb(cars, c)
    ensures |Absorb(cars, c)| == |cars| + (if FindCar(cars, c.carNumber).None? then 1 else 0)
  {
    if FindCar(cars, c.carNumber).Some? {
      var k :| 0 <= k < |cars| && cars[k] == FindCar(cars, c.carNumber).value
        && cars[k].carNumber == c.carNumber
        && forall j :: 0 <= j < k ==> cars[j].carNumber != c.carNumber;
      assert Absorb(cars, c)[k] == c;
    }
  }

  /** A batch adds at most one record per element to the cache, and its
      last record is in the cache afterwards. */
  lemma {:induction false} MergeBounds(cars: seq<ChargingState>, data: seq<ChargingState>)
    ensures |cars| <= |MergeBatch(cars, data)| <= |cars| + |data|
    ensures data != [] ==> data[|data| - 1] in MergeBatch(cars, data)
    decreases |data|
  {
    if data != [] {
      MergeBounds(cars, data[..|data| - 1]);
      AbsorbPlaces(MergeBatch(cars, data[..|data| - 1]), data[|data| - 1]);
    }
  }

  /** Only records of the batch are scheduled. */
  lemma {:induction false} TriggeredFromBatch(cars: seq<ChargingState>, data: seq<ChargingState>)
    ensures forall x :: x in Triggered(cars, data) ==> x in data
    decreases |data|
  {
    if data != [] {
      var init := data[..|data| - 1];
      TriggeredFromBatch(cars, init);
      forall x | x in Triggered(cars, init) ensures x in data {
        assert x in init;
      }
    }
  }

  /** One more record of the batch: merged into the cache so far, and
      scheduled when it fires against it. */
  lemma MergeStep(cars: seq<ChargingState>, data: seq<ChargingState>, i: nat)
    requires i < |data|
    ensures MergeBatch(cars, data[..i + 1]) == Absorb(MergeBatch(cars, data[..i]), data[i])
    ensures Fires(MergeBatch(cars, data[..i]), data[i]) ==>
      Triggered(cars, data[..i + 1]) == Triggered(cars, data[..i]) + [data[i]]
    ensures !Fires(MergeBatch(cars, data[..i]), data[i]) ==>
      Triggered(cars, data[..i + 1]) == Triggered(cars, data[..i])
  {
    assert data[..i + 1][..i] == data[..i];
    assert Triggered(cars, data[..i]) + [] == Triggered(cars, data[..i]);
  }

  /** The un-awaited transitions a batch schedules. */
  function Scheduled(cs: seq<ChargingState>): (r: seq<Action>)
    ensures |r| == |cs| && forall i :: 0 <= i < |cs| ==> r[i] == HandleStatus(cs[i])
  {
    seq(|cs|, i requires 0 <= i < |cs| => HandleStatus(cs[i]))
  }

  lemma AbsorbKeepsUnique(cars: seq<ChargingState>, c: ChargingState)
    requires UniqueCars(cars)
    ensures UniqueCars(Absorb(cars, c))
  {
  }

  /** Merging keeps car numbers unique in the cache. */
  lemma {:induction false} MergeKeepsUnique(cars: seq<ChargingState>, data: seq<ChargingState>)
    requires UniqueCars(cars)
    ensures UniqueCars(MergeBatch(cars, data))
    decreases |data|
  {
    if data != [] {
      MergeKeepsUnique(cars, data[..|data| - 1]);
      AbsorbKeepsUnique(MergeBatch(cars, data[..|data| - 1]), data[|data| - 1]);
    }
  }

  /** Cached cars keep their positions; new cars are appended after them. */
  lemma {:induction false} MergeKeepsPositions(cars: seq<ChargingState>, data: seq<ChargingState>)
    ensures |MergeBatch(cars, data)| >= |cars|
    ensures forall i :: 0 <= i < |cars| ==> MergeBatch(cars, data)[i].carNumber == cars[i].carNumber
    ensures forall i :: |cars| <= i < |MergeBatch(cars, data)| ==> MergeBatch(cars, data)[i] in data
    decreases |data|
  {
    if data != [] {
      var init := data[..|data| - 1];
      MergeKeepsPositions(cars, init);
      var m := MergeBatch(cars, init);
      var last := data[|data| - 1];
      forall i | |cars| <= i < |MergeBatch(cars, data)| ensures MergeBatch(cars, data)[i] in data {
        if i < |m| {
          assert m[i] in init;
          assert MergeBatch(cars, data)[i] == m[i] || MergeBatch(cars, data)[i] == last;
        } else {
          assert MergeBatch(cars, data)[i] == last;
        }
      }
    }
  }

  /** In a cache without duplicate cars, the lookup finds the one record of
      the car. */
  lemma FindCarUnique(cars: seq<ChargingState>, x: ChargingState)
    requires UniqueCars(cars) && x in cars
    ensures FindCar(cars, x.carNumber) == Some(x)
  {
    var i :| 0 <= i < |cars| && cars[i] == x;
    var r := FindCar(cars, x.carNumber);
    var k :| 0 <= k < |cars| && cars[k] == r.value && r.value.carNumber == x.carNumber
      && forall j :: 0 <= j < k ==> cars[j].carNumber != x.carNumber;
  }

  lemma AbsorbLookup(cars: seq<ChargingState>, c: ChargingState, carNumber: string)
    requires UniqueCars(cars)
    ensures FindCar(Absorb(cars, c), carNumber) ==
      if carNumber == c.carNumber then Some(c) else FindCar(cars, carNumber)
  {
    var a := Absorb(cars, c);
    AbsorbKeepsUnique(cars, c);
    if carNumber == c.carNumber {
      if FindCar(cars, c.carNumber).None? {
        assert a[|cars|] == c;
      } else {
        var k :| 0 <= k < |cars| && cars[k] == FindCar(cars, c.carNumber).value && cars[k].carNumber == c.carNumber;
        assert a[k] == c;
      }
      FindCarUnique(a, c);
    } else {
      match FindCar(cars, carNumber)
      case None =>
        assert forall i :: 0 <= i < |a| ==> a[i].carNumber != carNumber by {
          forall i | 0 <= i < |a| ensures a[i].carNumber != carNumber {
            if i < |cars| { assert a[i].carNumber == cars[i].carNumber; }
          }
        }
      case Some(x) =>
        var k :| 0 <= k < |cars| && cars[k] == x && x.carNumber == carNumber;
        assert a[k] == x;
        FindCarUnique(a, x);
    }
  }

  /** The last record of a car in a batch. */
  function LastFor(data: seq<ChargingState>, carNumber: string): (r: Option<ChargingState>)
    ensures r.Some? ==> r.value in data && r.value.carNumber == carNumber
    ensures r.None? ==> forall i :: 0 <= i < |data| ==> data[i].carNumber != carNumber
    decreases |data|
  {
    if data == [] then None
    else if data[|data| - 1].carNumber == carNumber then Some(data[|data| - 1])
    else LastFor(data[..|data| - 1], carNumber)
  }

  /** After a merge the cache holds, for every car, the batch's last record
      of that car, and the earlier cached record for cars not in the batch. */
  lemma {:induction false} MergeLookup(cars: seq<ChargingState>, data: seq<ChargingState>, carNumber: string)
    requires UniqueCars(cars)
    ensures FindCar(MergeBatch(cars, data), carNumber) ==
      if LastFor(data, carNumber).Some? then LastFor(data, carNumber) else FindCar(cars, carNumber)
    decreases |data|
  {
    if data != [] {
      var init := data[..|data| - 1];
      MergeLookup(cars, init, carNumber);
      MergeKeepsUnique(cars, init);
      AbsorbLookup(MergeBatch(cars, init), data[|data| - 1], carNumber);
    }
  }

  /** No two records of a batch are for the same car. */
  predicate DistinctCars(data: seq<ChargingState>)
  {
    forall i, j :: 0 <= i < j < |data| ==> data[i].carNumber != data[j].carNumber
  }

  lemma {:induction false} LastForDistinct(data: seq<ChargingState>, i: nat)
    requires DistinctCars(data) && i < |data|
    ensures LastFor(data, data[i].carNumber) == Some(data[i])
    decreases |data|
  {
    if i < |data| - 1 {
      LastForDistinct(data[..|data| - 1], i);
    }
  }

  /** A record equal to the cache's record of its car changes nothing and
      does not fire. */
  lemma ReplayOne(m: seq<ChargingState>, c: ChargingState)
    requires UniqueCars(m) && FindCar(m, c.carNumber) == Some(c)
    ensures Absorb(m, c) == m && !Fires(m, c)
  {
    var k :| 0 <= k < |m| && m[k] == c && c.carNumber == c.carNumber
      && forall j :: 0 <= j < k ==> m[j].carNumber != c.carNumber;
    forall i | 0 <= i < |m| && m[i].carNumber == c.carNumber
      ensures m[i] == c
    {
      assert i == k;
    }
    assert Replace(m, c) == m;
  }

  lemma {:induction false} ReplayPrefix(m: seq<ChargingState>, data: seq<ChargingState>, n: nat)
    requires UniqueCars(m) && n <= |data|
    requires forall j :: 0 <= j < |data| ==> FindCar(m, data[j].carNumber) == Some(data[j])
    ensures MergeBatch(m, data[..n]) == m && Triggered(m, data[..n]) == []
    decreases n
  {
    if n > 0 {
      ReplayPrefix(m, data, n - 1);
      MergeStep(m, data, n - 1);
      ReplayOne(m, data[n - 1]);
    }
  }

  /** Replaying a batch without duplicate cars changes nothing and
      triggers nothing: every record already matches the cache. */
  lemma ReplayIsQuiet(cars: seq<ChargingState>, data: seq<ChargingState>)
    requires UniqueCars(cars) && DistinctCars(data)
    ensures MergeBatch(MergeBatch(cars, data), data) == MergeBatch(cars, data)
    ensures Triggered(MergeBatch(cars, data), data) == []
  {
    var m := MergeBatch(cars, data);
    MergeKeepsUnique(cars, data);
    forall j | 0 <= j < |data| ensures FindCar(m, data[j].carNumber) == Some(data[j]) {
      MergeLookup(cars, data, data[j].carNumber);
      LastForDistinct(data, j);
    }
    ReplayPrefix(m, data, |data|);
    assert data[..|data|] == data;
  }

  /** Into an empty cache every record of a batch without duplicate cars
      triggers, in batch order. */
  lemma {:induction false} FirstBatchAllFire(data: seq<ChargingState>)
    requires DistinctCars(data)
    ensures Triggered([], data) == data
    decreases |data|
  {
    if data != [] {
      var init := data[..|data| - 1];
      var last := data[|data| - 1];
      FirstBatchAllFire(init);
      MergeLookup([], init, last.carNumber);
      assert FindCar(MergeBatch([], init), last.carNumber).None?;
    }
  }

  // ----- the engine -----

  /** Runs one scheduled action, removing it from the schedule. */
  ghost function AfterFire(w: EngineState, i: nat, env: Env): (r: EngineState)
    requires i < |w.pending|
    ensures r.cars == w.cars && w.sent <= r.sent
    ensures w.pending[..i] + w.pending[i + 1..] <= r.pending
  {
    var rest := w.(pending := w.pending[..i] + w.pending[i + 1..]);
    match w.pending[i]
    case HandleStatus(cs) => AfterStatusChange(rest, cs, env)
    case PollSession(id) => AfterPoll(rest, id, env)
    case StopIfOpen(id) => AfterStopCheck(rest, id, env)
    case FetchFinalStatus(id, car) => AfterFinalStatus(rest, id, car, env)
  }

  /** Scheduled work keeps the session records clean. */
  lemma FireKeepsSessionsClean(w: EngineState, i: nat, env: Env)
    requires SessionsClean(w.sessions) && i < |w.pending|
    ensures SessionsClean(AfterFire(w, i, env).sessions)
  {
    var rest := w.(pending := w.pending[..i] + w.pending[i + 1..]);
    match w.pending[i]
    case HandleStatus(cs) => StatusChangeKeepsSessionsClean(rest, cs, env);
    case PollSession(id) => PollKeepsSessionsClean(rest, id, env);
    case StopIfOpen(id) => if IsOpen(rest.sessions, id) { StopKeepsSessionsClean(rest, id.value, env); }
    case FetchFinalStatus(id, car) => FinalStatusKeepsSessionsClean(rest, id, car, env);
  }

  class Engine {
    var sessions: Collection
    var states: Collection
    var cdrs: map<string, StoredCdr>
    var cars: seq<ChargingState>
    var sent: seq<Request>
    var pending: seq<Action>

    function W(): EngineState
      reads this
    {
      EngineState(sessions, states, cdrs, cars, sent, pending)
    }

    /** The cached charging-state list holds one record per car. */
    predicate Valid()
      reads this
    {
      UniqueCars(cars)
    }

    /** The engine over the stored documents and the charging states the
        feed delivers first. */
    constructor (sessions0: Collection, states0: Collection, cdrs0: map<string, StoredCdr>, cars0: seq<ChargingState>)
      requires UniqueCars(cars0)
      ensures Valid()
      ensures W() == EngineState(sessions0, states0, cdrs0, cars0, [], [])
    {
      sessions, states, cdrs, cars := sessions0, states0, cdrs0, cars0;
      sent, pending := [], [];
    }

    /** `start_session`; `lookups` and `waits` are the resolver's lookups
        and sleeps. */
    method StartSession(cs: ChargingState, env: Env) returns (lookups: nat, waits: seq<nat>)
      requires Valid()
      modifies this
      ensures Valid()
      ensures W() == AfterStart(old(W()), cs, Resolution(env, cs), env)
      ensures lookups == LastAttempt(Attempts(env, cs), 1) && waits == Waits(lookups)
    {
      var settings;
      settings, lookups, waits := StartSessionSettings(cs, env);
      ResolutionIs(env, cs, settings);
      SendStart(cs, if settings.Ok? then Some(settings.value) else None, env);
    }

    /** The rest of `start_session` once the resolver has answered: send
        the start command and record the session, or mark the car "error". */
    method SendStart(cs: ChargingState, settings: Option<Settings>, env: Env)
      requires Valid()
      modifies this
      ensures Valid()
      ensures W() == AfterStart(old(W()), cs, settings, env)
    {
      if settings.None? {
        states := Put(states, cs.carNumber, ErrorStateDoc(cs, env.now));
        return;
      }
      sent := sent + [Start(settings.value)];
      var sid := StartedId(env);
      if sid.None? {
        states := Put(states, cs.carNumber, ErrorStateDoc(cs, env.now));
        return;
      }
      sessions := Put(sessions, sid.value, SessionDoc(settings.value, cs.carNumber, env.now));
      states := Put(states, cs.carNumber, ChargingDoc(cs, sid.value, env.now));
    }

    /** `stop_session`. */
    method StopSession(id: string, env: Env)
      requires Valid()
      modifies this
      ensures Valid()
      ensures W() == AfterStop(old(W()), id, env)
    {
      if id !in sessions {
        return;
      }
      var session := CachedSession(sessions, id);
      sent := sent + [Stop(StopConfig(session, id, env.now))];
      if env.stopReply.Failed? {
        return;
      }
      sessions := Put(sessions, id, session + CompletedFields(env.now));
      var car := StrField(session, CarNumber);
      if car.None? {
        return;
      }
      states := Put(states, car.value, PlugoutDoc(env.now));
      pending := pending + [FetchFinalStatus(id, car.value)];
    }

    /** One run of `handle_active_session`. */
    method HandleActiveSession(id: Option<string>, env: Env)
      requires Valid()
      modifies this
      ensures Valid()
      ensures W() == AfterPoll(old(W()), id, env)
    {
      match env.statusReply
      case Ok(status) =>
        if Contains(status, "ACTIVE") {
          pending := pending + [PollSession(id)];
        } else {
          pending := pending + [StopIfOpen(id)];
        }
      case Fail(_) =>
        if id.Some? && id.value in sessions {
          sessions := Put(sessions, id.value, PollErrorDoc(env.now));
        }
    }

    /** The stop check scheduled by `handle_active_session`. */
    method StopIfOpenSession(id: Option<string>, env: Env)
      requires Valid()
      modifies this
      ensures Valid()
      ensures W() == AfterStopCheck(old(W()), id, env)
    {
      if IsOpen(sessions, id) {
        StopSession(id.value, env);
      }
    }

    /** The final-status fetch scheduled by `stop_session`. */
    method FetchFinalSessionStatus(id: string, car: string, env: Env)
      requires Valid()
      modifies this
      ensures Valid()
      ensures W() == AfterFinalStatus(old(W()), id, car, env)
    {
      if env.finalReply.Fail? || !Contains(env.finalReply.value.commandStatus, "COMPLETED") {
        return;
      }
      var rep := env.finalReply.value;
      cdrs := StoreCdr(cdrs, rep.cdr, id, car, env.now);
      sessions := Put(sessions, id, FinalRecord(rep, env.now));
    }

    /** `handle_status_change`. */
    method HandleStatusChange(cs: ChargingState, env: Env)
      requires Valid()
      modifies this
      ensures Valid()
      ensures W() == AfterStatusChange(old(W()), cs, env)
    {
      if cs.carNumber !in Monitored {
        return;
      }
      if cs.status == "plugin" {
        var _, _ := StartSession(cs, env);
      } else if cs.status == "charging" {
        HandleActiveSession(cs.sessionId, env);
      } else if cs.status == "plugout" || cs.status == "error" {
        if HasSessionId(cs) {
          StopSession(cs.sessionId.value, env);
        }
      }
    }

    /** `handle_charging_state_add_and_edit`: merges the batch into the
        cached list record by record and schedules a status transition for
        every record whose car is new or whose status changed. */
    method HandleChargingStateAddAndEdit(data: seq<ChargingState>)
      requires Valid()
      modifies this
      ensures Valid()
      ensures W() == old(W()).(cars := MergeBatch(old(cars), data),
                               pending := old(pending) + Scheduled(Triggered(old(cars), data)))
    {
      var cached := cars;
      var prev := cached;
      var scheduled: seq<ChargingState> := [];
      var i := 0;
      assert data[..0] == [];
      while i < |data|
        modifies {}
        invariant 0 <= i <= |data|
        invariant prev == MergeBatch(cached, data[..i])
        invariant scheduled == Triggered(cached, data[..i])
      {
        var newCar := data[i];
        MergeStep(cached, data, i);
        ghost var merged, triggered := MergeBatch(cached, data[..i + 1]), Triggered(cached, data[..i + 1]);
        var oldCar := FindCar(prev, newCar.carNumber);
        if oldCar.None? {
          scheduled := scheduled + [newCar];
          prev := prev + [newCar];
        } else {
          if newCar.status != oldCar.value.status {
            scheduled := scheduled + [newCar];
          }
          prev := Replace(prev, newCar);
        }
        i := i + 1;
        assert merged == MergeBatch(cached, data[..i]) && triggered == Triggered(cached, data[..i]);
      }
      assert data[..i] == data;
      MergeKeepsUnique(cached, data);
      cars := prev;
      pending := pending + Scheduled(scheduled);
    }

    /** The snapshot's `on_remove`: the cached list loses the charging
        states of the removed documents, given by their ids. */
    method OnRemove(removedIds: seq<string>)
      requires Valid()
      modifies this
      ensures Valid()
      ensures W() == old(W()).(cars := RemoveById(old(cars), removedIds))
    {
      RemoveKeepsDistinctCars(cars, removedIds);
      cars := RemoveById(cars, removedIds);
    }

    /** Runs the scheduled action `i`, with the collaborators answering as
        `env` says. */
    method Fire(i: nat, env: Env)
      requires i < |pending|
      requires Valid()
      modifies this
      ensures Valid()
      ensures W() == AfterFire(old(W()), i, env)
    {
      var a := pending[i];
      pending := pending[..i] + pending[i + 1..];
      match a
      case HandleStatus(cs) => HandleStatusChange(cs, env);
      case PollSession(id) => HandleActiveSession(id, env);
      case StopIfOpen(id) => StopIfOpenSession(id, env);
      case FetchFinalStatus(id, car) => FetchFinalSessionStatus(id, car, env);
    }
  }
}
