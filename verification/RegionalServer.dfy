/**
 tls_device_server.hpp, udp_telemetry_server.hpp and regional_server.cpp as one object: the handlers change the
 shared state as the functions of RegionSpec say. A shared pointer to a session is its number, and locking a weak
 pointer succeeds while the session is in the table of live objects.
 */
module RegionalServer {
  import opened Basics
  import opened Codec
  import opened Proto
  import opened Framing
  import opened WriteQueue
  import opened DeviceRegistry
  import opened DbEvents
  import opened Datagram
  import opened RegionSpec
  import Spec = RegionSpec

  class ServerFsm {
    var state: ServerState

    constructor ()
      ensures state == IDLE
    {
      state := IDLE;
    }

    method SwitchTo(next: ServerState) returns (ok: bool)
      modifies this
      ensures ok <==> (old(state), next) in TRANSITIONS
      ensures state == if ok then next else old(state)
      ensures state == Spec.SwitchTo(old(state), next)
    {
      if (state, next) !in TRANSITIONS {
        return false;
      }
      state := next;
      return true;
    }
  }

  class Server {
    const timeoutMs: u64
    const reg: Registry
    const fsm: ServerFsm
    var now: u64
    var activeLost: set<Str>
    var sessions: map<Str, nat>
    var live: map<nat, Session>
    var born: nat
    var lastMotion: map<Str, u8>
    var db: seq<DbEvent>          // what was passed to the enqueue of the DbWriter
    ghost var log: seq<LogEntry>

    ghost function View(): Region
      reads this, reg, fsm
    {
      Region(now, reg.State(), fsm.state, activeLost, sessions, live, born, lastMotion, log)
    }

    constructor (now: u64, timeoutMs: u64)
      ensures View() == Boot(now) && this.timeoutMs == timeoutMs
      ensures fresh(reg) && fresh(fsm) && db == []
    {
      this.now, this.timeoutMs := now, timeoutMs;
      reg := new Registry();
      fsm := new ServerFsm();
      activeLost, sessions, live, born, lastMotion, db, log := {}, map[], map[], 0, map[], [], [];
      new;
      var _ := fsm.SwitchTo(REGISTRATION_HANDLING);
      var _ := fsm.SwitchTo(NORMAL_OPERATION);
    }

    // ----- DeviceSession

    method QueueSend(sid: nat, kind: u8, payload: seq<u8>)
      requires sid in live
      modifies this`live
      ensures View() == Queued(old(View()), sid, kind, payload)
    {
      var s := live[sid];
      live := live[sid := s.(q := Send(s.q, Frame(kind, payload)))];
    }

    method HandleRegister(sid: nat, req: RegisterReq, unixTime: u32)
      requires sid in live
      modifies this, reg
      ensures View() == Spec.HandleRegister(old(View()), sid, req, unixTime) && db == old(db)
    {
      if req.uri == [] || req.zoneId == 0 {
        QueueSend(sid, REGISTER_NACK, []);
        return;
      }
      live := live[sid := live[sid].(registered := true, kind := req.kind, uri := req.uri)];
      reg.Upsert(req.uri, DeviceState(req.kind, req.zoneId, 0, 0, 0, false, now));
      if req.kind == LUMINAIRE {
        reg.RegisterLamp(req.uri, req.zoneId);
      }
      sessions := sessions[req.uri := sid];
      log := log + [Registered(req.uri, sid)];
      QueueSend(sid, REGISTER_ACK, U32Bytes(unixTime));
    }

    method HandleStatus(sid: nat, s: StatusReport)
      requires sid in live
      modifies this`db, reg
      ensures View() == Spec.HandleStatus(old(View()), sid, s)
      ensures db == old(db) + StatusEvents(old(View()), sid, s)
    {
      var found := reg.Get(s.uri);
      var st: DeviceState;
      if found.None? {
        if !live[sid].registered || live[sid].uri == [] || s.uri != live[sid].uri {
          return;
        }
        st := Fresh(live[sid].kind, s.zoneId);
      } else {
        st := found.value;
      }
      st := st.(zoneId := s.zoneId, on := s.on, intensity := s.intensity, powerMw := s.powerMw, lastSeenMs := now);
      reg.Upsert(s.uri, st);
      db := db + [DeviceUpsertEvent(s.uri, if st.kind == LUMINAIRE then 1 else 2, s.zoneId, st.fault, s.on, s.intensity,
                                    s.powerMw)];
      if st.kind == LUMINAIRE {
        db := db + [LampStatusEvent(s.uri, s.zoneId, s.on, s.intensity, s.powerMw)];
      }
    }

    method HandleFault(sid: nat, f: FaultReport)
      requires sid in live
      modifies this, reg, fsm
      ensures View() == Spec.HandleFault(old(View()), sid, f)
      ensures db == old(db) + [FaultEvent(f.uri, f.zoneId, f.code, f.text)]
    {
      db := db + [FaultEvent(f.uri, f.zoneId, f.code, f.text)];
      var found := reg.Get(f.uri);
      var st: DeviceState;
      if found.Some? {
        st := found.value;
      } else if live[sid].registered && live[sid].uri != [] && f.uri == live[sid].uri {
        st := Fresh(live[sid].kind, f.zoneId);
      } else {
        st := Fresh(LUMINAIRE, f.zoneId);
      }
      st := st.(zoneId := f.zoneId, fault := true, lastSeenMs := now);
      reg.Upsert(f.uri, st);
      // the fault callback
      var _ := fsm.SwitchTo(FAULT_HANDLING);
      log := log + [DeviceFaultAlarm(f.uri, f.zoneId, if st.kind == LUMINAIRE then 1 else 2, f.code, f.text)];
      QueueSend(sid, FAULT_ACK, []);
    }

    method OnMessage(sid: nat, body: seq<u8>, unixTime: u32)
      requires sid in live
      modifies this, reg, fsm
      ensures View() == Step(old(View()), timeoutMs, Receive(sid, body, unixTime))
      ensures db == old(db) + EventsOf(old(View()), Receive(sid, body, unixTime))
    {
      if body == [] {
        return;
      }
      match body[0] {
        case 1 =>
          var req := DecodeRegisterReq(body[1..]);
          if req.Ok? {
            HandleRegister(sid, req.value, unixTime);
          }
        case 4 =>
          var s := DecodeStatus(body[1..]);
          if s.Ok? {
            HandleStatus(sid, s.value);
          }
        case 6 =>
          var f := DecodeFault(body[1..]);
          if f.Ok? {
            HandleFault(sid, f.value);
          }
        case _ =>
      }
    }

    method OnClose(sid: nat)
      requires sid in live
      modifies this
      ensures View() == Step(old(View()), timeoutMs, Close(sid)) && db == old(db)
    {
      var uri := live[sid].uri;
      if uri != [] {
        if uri in sessions {
          if sessions[uri] in live {
            if sessions[uri] == sid {
              sessions := sessions - {uri};
            }
          } else {
            sessions := sessions - {uri};
          }
        }
      }
      live := live[sid := live[sid].(closed := true)];
    }

    // ----- RegionalDeviceServer

    method SendCmdToUri(uri: Str, cmd: u8, value: u8) returns (ok: bool)
      modifies this`live, this`sessions
      ensures View() == SendCmd(old(View()), uri, cmd, value)
      ensures ok == Reaches(old(View()), uri)
    {
      if uri !in sessions {
        return false;
      }
      var sid := sessions[uri];
      if sid !in live {
        sessions := sessions - {uri};
        return false;
      }
      if live[sid].uri != [] {
        var payload := EncodeCommand(Command(live[sid].uri, cmd, value));
        if payload.Ok? {
          QueueSend(sid, CMD, payload.value);
        }
      }
      return true;
    }

    // ----- the callbacks of main

    method MotionOnCallback(zone: u32)
      modifies this`live, this`sessions
      ensures View() == OnMotion(old(View()), zone)
    {
      if fsm.state != NORMAL_OPERATION {
        return;
      }
      var lamps := reg.GetLampsInZone(zone);
      for i := 0 to |lamps|
        invariant View() == SendAllOn(old(View()), lamps[..i])
      {
        assert lamps[..i + 1][..i] == lamps[..i];
        var ok1 := SendCmdToUri(lamps[i], CMD_SWITCH_ON, 0);
        var ok2 := SendCmdToUri(lamps[i], CMD_SET_INTENSITY, 60);
      }
      assert lamps[..|lamps|] == lamps;
    }

    method MotionOffCallback(zone: u32)
      modifies this`live, this`sessions
      ensures View() == OffMotion(old(View()), zone)
    {
      if fsm.state != NORMAL_OPERATION {
        return;
      }
      var lamps := reg.GetLampsInZone(zone);
      for i := 0 to |lamps|
        invariant View() == SendAllOff(old(View()), lamps[..i])
      {
        assert lamps[..i + 1][..i] == lamps[..i];
        var ok := SendCmdToUri(lamps[i], CMD_SWITCH_OFF, 0);
      }
      assert lamps[..|lamps|] == lamps;
    }

    method SensorFaultCallback(uri: Str, zone: u32, code: u8)
      modifies this`log, this`db, reg, fsm
      ensures db == old(db) + SensorFaultEvents(uri, zone, code)
      ensures View() == (
                var r := old(View());
                r.(reg := Upserted(r.reg, uri, DeviceState(SENSOR, zone, 0, 0, 0, true, r.now)),
                   fsm := Spec.SwitchTo(r.fsm, FAULT_HANDLING), log := r.log + [SensorFaultAlarm(uri, zone, code)]))
    {
      var _ := fsm.SwitchTo(FAULT_HANDLING);
      reg.Upsert(uri, DeviceState(SENSOR, zone, 0, 0, 0, true, now));
      db := db + [DeviceUpsertEvent(uri, 2, zone, true, 0, 0, 0)];
      db := db + [FaultEvent(uri, zone, code, SENSOR_FAULT)];
      log := log + [SensorFaultAlarm(uri, zone, code)];
    }

    // ----- UdpTelemetryServer

    method SeeSensor(uri: Str, zone: u32)
      modifies reg
      ensures View() == SeenSensor(old(View()), uri, zone) && uri in reg.dev
    {
      var found := reg.Get(uri);
      if found.Some? {
        reg.Upsert(uri, found.value.(kind := SENSOR, zoneId := zone, lastSeenMs := now));
      } else {
        reg.Upsert(uri, DeviceState(SENSOR, zone, 0, 0, 0, false, now));
      }
    }

    method MarkFaulty(uri: Str, zone: u32)
      requires uri in reg.dev
      modifies this`log, this`db, reg, fsm
      ensures View() == FaultySensor(old(View()), uri, zone)
      ensures db == old(db) + SensorFaultEvents(uri, zone, 1)
    {
      var found := reg.Get(uri);
      if found.Some? {
        reg.Upsert(uri, found.value.(fault := true, lastSeenMs := now));
      }
      SensorFaultCallback(uri, zone, 1);
    }

    method DetectEdges(uri: Str, zone: u32, motion: u8)
      modifies this`log, this`live, this`sessions, this`lastMotion
      ensures View() == Edges(old(View()), uri, zone, motion)
    {
      hide OnMotion, OffMotion;
      var prev := if uri in lastMotion then lastMotion[uri] else 0;
      if prev == 0 && motion == 1 {
        log := log + [MotionOn(uri, zone)];
        MotionOnCallback(zone);
      }
      if prev == 1 && motion == 0 {
        log := log + [MotionOff(uri, zone)];
        MotionOffCallback(zone);
      }
      lastMotion := lastMotion[uri := motion];
    }

    method OnPacket(uri: Str, zone: u32, motion: u8)
      modifies this, reg, fsm
      ensures View() == Step(old(View()), timeoutMs, Telemetry(uri, zone, motion))
      ensures db == old(db) + EventsOf(old(View()), Telemetry(uri, zone, motion))
    {
      hide Upserted, FaultySensor, Edges;
      SeeSensor(uri, zone);
      if motion == 254 {
        MarkFaulty(uri, zone);
      }
      if motion == 0 || motion == 1 {
        DetectEdges(uri, zone, motion);
      }
    }

    // The completion handler of async_receive_from, for a datagram of any length
    method OnDatagram(d: seq<u8>)
      modifies this, reg, fsm
      ensures match Decode(d)
              case Packet(uri, zone, _, motion, _) =>
                && View() == Step(old(View()), timeoutMs, Telemetry(uri, zone, motion))
                && db == old(db) + EventsOf(old(View()), Telemetry(uri, zone, motion))
              case _ => View() == old(View()) && db == old(db)
    {
      hide Step, EventsOf, Decode;
      match Decode(d) {
        case Packet(uri, zone, _, motion, _) => OnPacket(uri, zone, motion);
        case _ =>
      }
    }

    // ----- schedule_comm_lost_check

    method CommLostCheck() returns (lost: seq<Str>)
      modifies this, reg, fsm
      ensures Enabled(old(View()), timeoutMs, Tick(lost))
      ensures View() == Step(old(View()), timeoutMs, Tick(lost)) && db == old(db)
    {
      lost := reg.DetectCommLost(now, timeoutMs);
      var nowLost := set u | u in lost;
      label detected:
      for i := 0 to |lost|
        invariant View() == RaiseAll(old@detected(View()), lost[..i]) && db == old(db)
      {
        var uri := lost[i];
        assert lost[..i + 1][..i] == lost[..i];
        if uri !in activeLost {
          activeLost := activeLost + {uri};
          var _ := fsm.SwitchTo(FAULT_HANDLING);
          var st := reg.Get(uri);
          var zone, kind := 0, 1;
          if st.Some? {
            zone := st.value.zoneId;
            kind := if st.value.kind == LUMINAIRE then 1 else 2;
          }
          log := log + [CommLostAlarm(uri, zone, kind)];
        }
      }
      assert lost[..|lost|] == lost;
      label raised:
      var todo := activeLost;
      while todo != {}
        invariant todo <= activeLost <= old@raised(activeLost)
        invariant View() == old@raised(View()).(activeLost := activeLost) && db == old(db)
        invariant forall u <- old@raised(activeLost) :: u in activeLost <==> u in nowLost || u in todo
        decreases todo
      {
        var uri :| uri in todo;
        todo := todo - {uri};
        if uri !in nowLost {
          activeLost := activeLost - {uri};
        }
      }
      assert activeLost == old@raised(activeLost) * nowLost;
      if activeLost == {} {
        if fsm.state == FAULT_HANDLING {
          var _ := fsm.SwitchTo(NORMAL_OPERATION);
        }
      }
    }
  }
}
