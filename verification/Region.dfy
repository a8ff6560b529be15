/**
 The regional server: the handlers of tls_device_server.hpp and udp_telemetry_server.hpp, the callbacks and the
 comm-lost tick of regional_server.cpp, each as a function on the state they share.

 Each completion handler is one atomic step. The program runs its handlers on several threads without strands, so
 this is a simplification: the get-then-upsert pairs of the handlers are not atomic there.
 */
module RegionSpec {
  import opened Basics
  import opened Codec
  import opened Proto
  import opened Framing
  import opened WriteQueue
  import opened DeviceRegistry
  import opened DbEvents

  datatype ServerState = IDLE | REGISTRATION_HANDLING | NORMAL_OPERATION | FAULT_HANDLING

  const TRANSITIONS: set<(ServerState, ServerState)> := {
    (IDLE, REGISTRATION_HANDLING), (REGISTRATION_HANDLING, REGISTRATION_HANDLING),
    (REGISTRATION_HANDLING, NORMAL_OPERATION), (NORMAL_OPERATION, NORMAL_OPERATION),
    (NORMAL_OPERATION, FAULT_HANDLING), (FAULT_HANDLING, NORMAL_OPERATION), (FAULT_HANDLING, IDLE)}

  function SwitchTo(s: ServerState, next: ServerState): ServerState {
    if (s, next) in TRANSITIONS then next else s
  }

  // A DeviceSession; a session object is known by a number, its address
  datatype Session = Session(registered: bool, kind: u8, uri: Str, closed: bool, q: Queue)

  // What handlers announce: registrations, alarms handed to the region's sync client, and motion callbacks
  datatype LogEntry =
    | Registered(uri: Str, sid: nat)
    | CommLostAlarm(uri: Str, zoneId: u32, deviceType: u8)
    | DeviceFaultAlarm(uri: Str, zoneId: u32, deviceType: u8, code: u8, text: Str)
    | SensorFaultAlarm(uri: Str, zoneId: u32, code: u8)
    | MotionOn(uri: Str, zoneId: u32)
    | MotionOff(uri: Str, zoneId: u32)

  datatype Region = Region(
    now: u64, reg: View, fsm: ServerState, activeLost: set<Str>,
    sessions: map<Str, nat>,      // the weak pointers of the session map
    live: map<nat, Session>,      // the session objects that exist
    born: nat,                    // how many session objects have been made; the next one gets this number
    lastMotion: map<Str, u8>, log: seq<LogEntry>)

  datatype Input =
    | Accept
    | Receive(sid: nat, body: seq<u8>, unixTime: u32)
    | Close(sid: nat)             // on_close, after any error of the session's socket
    | Expire(sid: nat)            // the last reference to a closed session is gone
    | RunQueue(sid: nat)
    | WriteDone(sid: nat)
    | Telemetry(uri: Str, zoneId: u32, motion: u8)
    | Tick(order: seq<Str>)       // the comm-lost check, iterating over the device map in some order
    | Elapse(ms: nat)

  const CMD_SWITCH_ON: u8 := 1
  const CMD_SWITCH_OFF: u8 := 2
  const CMD_SET_INTENSITY: u8 := 3

  // ----- sessions

  function Queued(r: Region, sid: nat, kind: u8, payload: seq<u8>): Region
    requires sid in r.live
  {
    r.(live := r.live[sid := r.live[sid].(q := Send(r.live[sid].q, Frame(kind, payload)))])
  }

  function HandleRegister(r: Region, sid: nat, req: RegisterReq, unixTime: u32): Region
    requires sid in r.live
  {
    if req.uri == [] || req.zoneId == 0 then Queued(r, sid, REGISTER_NACK, [])
    else
      var s := r.live[sid].(registered := true, kind := req.kind, uri := req.uri);
      var reg := Upserted(r.reg, req.uri, DeviceState(req.kind, req.zoneId, 0, 0, 0, false, r.now));
      var reg := if req.kind == LUMINAIRE then LampRegistered(reg, req.uri, req.zoneId) else reg;
      var r := r.(live := r.live[sid := s], reg := reg, sessions := r.sessions[req.uri := sid],
                  log := r.log + [Registered(req.uri, sid)]);
      Queued(r, sid, REGISTER_ACK, U32Bytes(unixTime))
  }

  function Fresh(kind: u8, zone: u32): DeviceState { DeviceState(kind, zone, 0, 0, 0, false, 0) }

  function HandleStatus(r: Region, sid: nat, s: StatusReport): Region
    requires sid in r.live
  {
    var me := r.live[sid];
    if s.uri !in r.reg.dev && (!me.registered || me.uri == [] || s.uri != me.uri) then r
    else
      var st := if s.uri in r.reg.dev then r.reg.dev[s.uri] else Fresh(me.kind, s.zoneId);
      var st := st.(zoneId := s.zoneId, on := s.on, intensity := s.intensity, powerMw := s.powerMw,
                    lastSeenMs := r.now);
      r.(reg := Upserted(r.reg, s.uri, st))
  }

  function HandleFault(r: Region, sid: nat, f: FaultReport): Region
    requires sid in r.live
  {
    var me := r.live[sid];
    var st := if f.uri in r.reg.dev then r.reg.dev[f.uri]
              else if me.registered && me.uri != [] && f.uri == me.uri then Fresh(me.kind, f.zoneId)
              else Fresh(LUMINAIRE, f.zoneId);
    var reg := Upserted(r.reg, f.uri, st.(zoneId := f.zoneId, fault := true, lastSeenMs := r.now));
    var alarm := DeviceFaultAlarm(f.uri, f.zoneId, if st.kind == LUMINAIRE then 1 else 2, f.code, f.text);
    Queued(r.(reg := reg, fsm := SwitchTo(r.fsm, FAULT_HANDLING), log := r.log + [alarm]), sid, FAULT_ACK, [])
  }

  function OnMessage(r: Region, sid: nat, body: seq<u8>, unixTime: u32): Region
    requires sid in r.live
  {
    if body == [] then r
    else if body[0] == REGISTER_REQ then
      match DecodeRegisterReq(body[1..])
      case Ok(req) => HandleRegister(r, sid, req, unixTime)
      case Err(_) => r
    else if body[0] == STATUS_REPORT then
      match DecodeStatus(body[1..])
      case Ok(s) => HandleStatus(r, sid, s)
      case Err(_) => r
    else if body[0] == FAULT_REPORT then
      match DecodeFault(body[1..])
      case Ok(f) => HandleFault(r, sid, f)
      case Err(_) => r
    else r
  }

  function OnClose(r: Region, sid: nat): Region
    requires sid in r.live
  {
    var uri := r.live[sid].uri;
    var r := r.(live := r.live[sid := r.live[sid].(closed := true)]);
    if uri == [] || uri !in r.sessions then r
    else if r.sessions[uri] in r.live && r.sessions[uri] != sid then r
    else r.(sessions := r.sessions - {uri})
  }

  // ----- what the handlers hand to the database thread

  function StatusEvents(r: Region, sid: nat, s: StatusReport): seq<DbEvent>
    requires sid in r.live
  {
    var me := r.live[sid];
    if s.uri !in r.reg.dev && (!me.registered || me.uri == [] || s.uri != me.uri) then []
    else
      var kind := if s.uri in r.reg.dev then r.reg.dev[s.uri].kind else me.kind;
      var fault := s.uri in r.reg.dev && r.reg.dev[s.uri].fault;
      [DeviceUpsertEvent(s.uri, KindColumn(kind), s.zoneId, fault, s.on, s.intensity, s.powerMw)]
      + if kind == LUMINAIRE then [LampStatusEvent(s.uri, s.zoneId, s.on, s.intensity, s.powerMw)] else []
  }

  const SENSOR_FAULT: Str := [115, 101, 110, 115, 111, 114, 95, 102, 97, 117, 108, 116] // "sensor_fault"

  function SensorFaultEvents(uri: Str, zone: u32, code: u8): seq<DbEvent> {
    [DeviceUpsertEvent(uri, 2, zone, true, 0, 0, 0), FaultEvent(uri, zone, code, SENSOR_FAULT)]
  }

  function MessageEvents(r: Region, sid: nat, body: seq<u8>): seq<DbEvent>
    requires sid in r.live
  {
    if body == [] then []
    else if body[0] == STATUS_REPORT && DecodeStatus(body[1..]).Ok? then
      StatusEvents(r, sid, DecodeStatus(body[1..]).value)
    else if body[0] == FAULT_REPORT && DecodeFault(body[1..]).Ok? then
      var f := DecodeFault(body[1..]).value;
      [FaultEvent(f.uri, f.zoneId, f.code, f.text)]
    else []
  }

  function EventsOf(r: Region, i: Input): seq<DbEvent> {
    match i
    case Receive(sid, body, _) => if sid in r.live then MessageEvents(r, sid, body) else []
    case Telemetry(uri, zone, motion) => if motion == 254 then SensorFaultEvents(uri, zone, 1) else []
    case _ => []
  }

  // ----- commands

  function SendCmd(r: Region, uri: Str, cmd: u8, value: u8): Region {
    if uri !in r.sessions then r
    else if r.sessions[uri] !in r.live then r.(sessions := r.sessions - {uri})
    else
      var sid := r.sessions[uri];
      var me := r.live[sid];
      if me.uri == [] then r
      else
        match EncodeCommand(Command(me.uri, cmd, value))
        case Ok(payload) => Queued(r, sid, CMD, payload)
        case Err(_) => r
  }

  // What send_cmd_to_uri returns
  predicate Reaches(r: Region, uri: Str) { uri in r.sessions && r.sessions[uri] in r.live }

  function SendAllOn(r: Region, lamps: seq<Str>): Region {
    if lamps == [] then r
    else
      var r := SendAllOn(r, lamps[..|lamps| - 1]);
      var u := lamps[|lamps| - 1];
      SendCmd(SendCmd(r, u, CMD_SWITCH_ON, 0), u, CMD_SET_INTENSITY, 60)
  }

  function SendAllOff(r: Region, lamps: seq<Str>): Region {
    if lamps == [] then r
    else SendCmd(SendAllOff(r, lamps[..|lamps| - 1]), lamps[|lamps| - 1], CMD_SWITCH_OFF, 0)
  }

  function OnMotion(r: Region, zone: u32): Region {
    if r.fsm != NORMAL_OPERATION then r else SendAllOn(r, LampsOfZone(r.reg, zone))
  }

  function OffMotion(r: Region, zone: u32): Region {
    if r.fsm != NORMAL_OPERATION then r else SendAllOff(r, LampsOfZone(r.reg, zone))
  }

  // ----- telemetry

  function SeenSensor(r: Region, uri: Str, zone: u32): Region {
    var st := if uri in r.reg.dev then r.reg.dev[uri] else Fresh(SENSOR, zone);
    r.(reg := Upserted(r.reg, uri, st.(kind := SENSOR, zoneId := zone, lastSeenMs := r.now)))
  }

  // The 254 branch, with the sensor fault callback
  function FaultySensor(r: Region, uri: Str, zone: u32): Region
    requires uri in r.reg.dev
  {
    var reg := Upserted(r.reg, uri, r.reg.dev[uri].(fault := true, lastSeenMs := r.now));
    r.(reg := Upserted(reg, uri, DeviceState(SENSOR, zone, 0, 0, 0, true, r.now)),
       fsm := SwitchTo(r.fsm, FAULT_HANDLING), log := r.log + [SensorFaultAlarm(uri, zone, 1)])
  }

  function LastMotion(r: Region, uri: Str): u8 { if uri in r.lastMotion then r.lastMotion[uri] else 0 }

  function Edges(r: Region, uri: Str, zone: u32, motion: u8): Region {
    var prev := LastMotion(r, uri);
    var a := if prev == 0 && motion == 1 then OnMotion(r.(log := r.log + [MotionOn(uri, zone)]), zone) else r;
    var b := if prev == 1 && motion == 0 then OffMotion(a.(log := a.log + [MotionOff(uri, zone)]), zone) else a;
    b.(lastMotion := b.lastMotion[uri := motion])
  }

  function OnTelemetry(r: Region, uri: Str, zone: u32, motion: u8): Region {
    var a := SeenSensor(r, uri, zone);
    var b := if motion == 254 then FaultySensor(a, uri, zone) else a;
    if motion == 0 || motion == 1 then Edges(b, uri, zone, motion) else b
  }

  // ----- the comm-lost check

  function RaiseLost(r: Region, uri: Str): Region {
    if uri in r.activeLost then r
    else
      var known := uri in r.reg.dev;
      var zone := if known then r.reg.dev[uri].zoneId else 0;
      var kind := if !known || r.reg.dev[uri].kind == LUMINAIRE then 1 else 2;
      r.(activeLost := r.activeLost + {uri}, fsm := SwitchTo(r.fsm, FAULT_HANDLING),
         log := r.log + [CommLostAlarm(uri, zone, kind)])
  }

  function RaiseAll(r: Region, lost: seq<Str>): Region {
    if lost == [] then r else RaiseLost(RaiseAll(r, lost[..|lost| - 1]), lost[|lost| - 1])
  }

  function Recover(r: Region, nowLost: set<Str>): Region {
    var r := r.(activeLost := r.activeLost * nowLost);
    if r.activeLost == {} && r.fsm == FAULT_HANDLING then r.(fsm := SwitchTo(r.fsm, NORMAL_OPERATION)) else r
  }

  function OnTick(r: Region, timeoutMs: u64, lost: seq<Str>): Region {
    Recover(RaiseAll(r.(reg := MarkLost(r.reg, r.now, timeoutMs)), lost), set u | u in lost)
  }

  // ----- runs

  ghost predicate Enabled(r: Region, timeoutMs: u64, i: Input) {
    match i
    case Accept => true
    case Receive(sid, _, _) => sid in r.live
    case Close(sid) => sid in r.live
    case Expire(sid) => sid in r.live && r.live[sid].closed
    case RunQueue(sid) => sid in r.live && r.live[sid].q.posted != []
    case WriteDone(sid) => sid in r.live && !r.live[sid].closed && r.live[sid].q.inFlight.Some?
    case Telemetry(_, _, _) => true
    case Tick(order) => Lists(order, LostSet(r.reg.dev, r.now, timeoutMs))
    case Elapse(ms) => r.now + ms < 0x1_0000_0000_0000_0000
  }

  function Step(r: Region, timeoutMs: u64, i: Input): Region {
    match i
    case Accept => r.(live := r.live[r.born := Session(false, LUMINAIRE, [], false, EMPTY)], born := r.born + 1)
    case Receive(sid, body, unixTime) => if sid in r.live then OnMessage(r, sid, body, unixTime) else r
    case Close(sid) => if sid in r.live then OnClose(r, sid) else r
    case Expire(sid) => r.(live := r.live - {sid})
    case RunQueue(sid) =>
      if sid in r.live then r.(live := r.live[sid := r.live[sid].(q := RunPosted(r.live[sid].q))]) else r
    case WriteDone(sid) =>
      if sid in r.live then r.(live := r.live[sid := r.live[sid].(q := DoWrite(Completed(r.live[sid].q)))]) else r
    case Telemetry(uri, zone, motion) => OnTelemetry(r, uri, zone, motion)
    case Tick(order) => OnTick(r, timeoutMs, order)
    case Elapse(ms) => if r.now + ms < 0x1_0000_0000_0000_0000 then r.(now := r.now + ms) else r
  }

  // When io.run starts, after server_ready
  function Boot(now: u64): Region {
    Region(now, View(map[], map[]), SwitchTo(SwitchTo(IDLE, REGISTRATION_HANDLING), NORMAL_OPERATION), {},
           map[], map[], 0, map[], [])
  }

  function After(start: u64, timeoutMs: u64, run: seq<Input>): Region {
    if run == [] then Boot(start)
    else Step(After(start, timeoutMs, run[..|run| - 1]), timeoutMs, run[|run| - 1])
  }

  ghost predicate Possible(start: u64, timeoutMs: u64, run: seq<Input>) {
    forall i :: 0 <= i < |run| ==> Enabled(After(start, timeoutMs, run[..i]), timeoutMs, run[i])
  }

  lemma PossibleInit(start: u64, timeoutMs: u64, run: seq<Input>)
    requires Possible(start, timeoutMs, run) && run != []
    ensures Possible(start, timeoutMs, run[..|run| - 1])
    ensures Enabled(After(start, timeoutMs, run[..|run| - 1]), timeoutMs, run[|run| - 1])
  {
    Initial(run);
  }
}
