/** What a regional server hands to the database agrees with its registry and with the alarms it raises. */
module RegionDatabase {
  import opened Basics
  import Codec
  import opened Proto
  import opened WriteQueue
  import opened DeviceRegistry
  import opened DbEvents
  import opened RegionSpec
  import opened RegionLaws
  import opened RegionRuns
  import RegionSessions
  import RegionEffects

  // The row of a record
  function Row(u: Str, st: DeviceState): DbEvent {
    DeviceUpsertEvent(u, KindColumn(st.kind), st.zoneId, st.fault, st.on, st.intensity, st.powerMw)
  }

  /** Every row of a device that a handler enqueues is the record the handler leaves in the registry. */
  lemma RowsAreRecords(r: Region, timeoutMs: u64, i: Input, e: DbEvent)
    requires Enabled(r, timeoutMs, i) && e in EventsOf(r, i) && e.DeviceUpsertEvent?
    ensures var b := Step(r, timeoutMs, i); e.uri in b.reg.dev && e == Row(e.uri, b.reg.dev[e.uri])
  {
    hide DecodeRegisterReq, DecodeStatus, DecodeFault, SwitchTo, Send, Edges, Indexed;
  }

  // Everything a run has handed over
  function Handed(start: u64, timeoutMs: u64, run: seq<Input>): seq<DbEvent> {
    if run == [] then []
    else
      var init := run[..|run| - 1];
      Handed(start, timeoutMs, init) + EventsOf(After(start, timeoutMs, init), run[|run| - 1])
  }

  function FaultsIn(db: seq<DbEvent>): seq<DbEvent> {
    if db == [] then []
    else FaultsIn(db[..|db| - 1]) + if db[|db| - 1].FaultEvent? then [db[|db| - 1]] else []
  }

  // The record of an alarm about a reported fault; a lost connection has none
  function FaultRecord(e: LogEntry): seq<DbEvent> {
    match e
    case DeviceFaultAlarm(uri, zone, _, code, text) => [FaultEvent(uri, zone, code, text)]
    case SensorFaultAlarm(uri, zone, code) => [FaultEvent(uri, zone, code, SENSOR_FAULT)]
    case _ => []
  }

  function FaultRecords(log: seq<LogEntry>): seq<DbEvent> {
    if log == [] then [] else FaultRecords(log[..|log| - 1]) + FaultRecord(log[|log| - 1])
  }

  lemma {:induction false} FaultsJoin(a: seq<DbEvent>, b: seq<DbEvent>)
    ensures FaultsIn(a + b) == FaultsIn(a) + FaultsIn(b)
  {
    if b == [] {
      assert a + b == a;
    } else {
      assert (a + b)[..|a + b| - 1] == a + b[..|b| - 1];
      FaultsJoin(a, b[..|b| - 1]);
    }
  }

  lemma {:induction false} RecordsJoin(a: seq<LogEntry>, b: seq<LogEntry>)
    ensures FaultRecords(a + b) == FaultRecords(a) + FaultRecords(b)
  {
    hide FaultRecord;
    if b == [] {
      assert a + b == a;
    } else {
      assert (a + b)[..|a + b| - 1] == a + b[..|b| - 1];
      RecordsJoin(a, b[..|b| - 1]);
    }
  }

  lemma {:induction false} LossesHaveNone(log: seq<LogEntry>)
    requires forall e <- log :: e.CommLostAlarm?
    ensures FaultRecords(log) == []
  {
    if log != [] {
      LossesHaveNone(log[..|log| - 1]);
    }
  }

  lemma StepRecords(r: Region, timeoutMs: u64, i: Input)
    requires Enabled(r, timeoutMs, i)
    ensures FaultsIn(EventsOf(r, i)) == FaultRecords(LogDelta(r, timeoutMs, i))
  {
    match i
    case Tick(order) =>
      EnabledTick(r, timeoutMs, order);
      RegionSessions.TickRegistersNothing(r, order);
      LossesHaveNone(TickLog(r, order));
    case Receive(sid, body, _) =>
      hide MessageEvents, MessageLog;
      MessageRecords(r, sid, body);
    case Telemetry(uri, zone, motion) =>
      hide TelemetryLog, SensorFaultEvents;
      TelemetryRecords(r, uri, zone, motion);
    case _ =>
  }

  lemma TelemetryRecords(r: Region, uri: Str, zone: u32, motion: u8)
    ensures FaultsIn(if motion == 254 then SensorFaultEvents(uri, zone, 1) else [])
            == FaultRecords(TelemetryLog(r, uri, zone, motion))
  {
    hide FaultsIn, FaultRecords;
    FewEvents(SensorFaultEvents(uri, zone, 1));
    FewEvents([]);
    FewEntries(TelemetryLog(r, uri, zone, motion));
  }

  lemma MessageRecords(r: Region, sid: nat, body: seq<u8>)
    requires sid in r.live
    ensures FaultsIn(MessageEvents(r, sid, body)) == FaultRecords(MessageLog(r, sid, body))
  {
    hide DecodeRegisterReq, DecodeStatus, DecodeFault, FaultsIn, FaultRecords;
    FewEvents(MessageEvents(r, sid, body));
    FewEntries(MessageLog(r, sid, body));
  }

  lemma FewEvents(db: seq<DbEvent>)
    ensures db == [] ==> FaultsIn(db) == []
    ensures |db| == 1 ==> FaultsIn(db) == if db[0].FaultEvent? then db else []
    ensures |db| == 2 ==> FaultsIn(db) == (if db[0].FaultEvent? then [db[0]] else [])
                                          + if db[1].FaultEvent? then [db[1]] else []
  {
    if |db| == 1 {
      assert db[..0] == [];
    } else if |db| == 2 {
      assert db[..1][..0] == [];
    }
  }

  lemma FewEntries(log: seq<LogEntry>)
    ensures log == [] ==> FaultRecords(log) == []
    ensures |log| == 1 ==> FaultRecords(log) == FaultRecord(log[0])
  {
    if |log| == 1 {
      assert log[..0] == [];
    }
  }

  /** In every run the fault events handed to the database are exactly the records of the fault alarms raised, in
      order. */
  lemma {:induction false} FaultEventsAreAlarms(start: u64, timeoutMs: u64, run: seq<Input>)
    requires Possible(start, timeoutMs, run)
    ensures FaultsIn(Handed(start, timeoutMs, run)) == FaultRecords(After(start, timeoutMs, run).log)
  {
    if run != [] {
      PossibleInit(start, timeoutMs, run);
      var init, i := run[..|run| - 1], run[|run| - 1];
      var r := After(start, timeoutMs, init);
      FaultEventsAreAlarms(start, timeoutMs, init);
      LogStep(r, timeoutMs, i);
      StepRecords(r, timeoutMs, i);
      hide Step, Enabled, EventsOf, LogDelta, FaultsIn, FaultRecords;
      FaultsJoin(Handed(start, timeoutMs, init), EventsOf(r, i));
      RecordsJoin(r.log, LogDelta(r, timeoutMs, i));
    }
  }

  // ----- status reports reach the database

  // A message that is a status report
  function StatusIn(body: seq<u8>): Option<StatusReport> {
    if body != [] && body[0] == STATUS_REPORT && DecodeStatus(body[1..]).Ok? then Some(DecodeStatus(body[1..]).value)
    else None
  }

  /** A status report of a known device replaces its zone, level and power, keeps its type and fault, and hands over
      exactly its row and, if it is a lamp, its status. One of an unknown device changes nothing and hands over nothing,
      in every run. */
  lemma StatusIsRecorded(start: u64, timeoutMs: u64, run: seq<Input>, sid: nat, body: seq<u8>, unixTime: u32)
    requires Possible(start, timeoutMs, run) && sid in After(start, timeoutMs, run).live && StatusIn(body).Some?
    ensures var r := After(start, timeoutMs, run);
            var i, s := Receive(sid, body, unixTime), StatusIn(body).value;
            var b := Step(r, timeoutMs, i);
            if s.uri in r.reg.dev then
              && s.uri in b.reg.dev
              && var before, st := r.reg.dev[s.uri], b.reg.dev[s.uri];
                 && st == DeviceState(before.kind, s.zoneId, s.on, s.intensity, s.powerMw, before.fault, r.now)
                 && b.reg.dev == r.reg.dev[s.uri := st]
                 && EventsOf(r, i)
                    == [Row(s.uri, st)]
                       + if st.kind == LUMINAIRE
                         then [LampStatusEvent(s.uri, st.zoneId, st.on, st.intensity, st.powerMw)] else []
            else b == r && EventsOf(r, i) == []
  {
    RegionInvariant(start, timeoutMs, run);
    hide After, Possible, DecodeRegisterReq, DecodeStatus, DecodeFault, FsmInv, Indexed;
  }

  // ----- registrations, faults and readings

  // A message that is a fault report
  function FaultIn(body: seq<u8>): Option<FaultReport> {
    if body != [] && body[0] == FAULT_REPORT && DecodeFault(body[1..]).Ok? then Some(DecodeFault(body[1..]).value)
    else None
  }

  /** In every run a reported fault sets the zone, the fault and the time of the device's record, keeps the rest, and
      hands over one event. An unknown device becomes a lamp that is off. */
  lemma FaultIsRecorded(start: u64, timeoutMs: u64, run: seq<Input>, sid: nat, body: seq<u8>, unixTime: u32)
    requires Possible(start, timeoutMs, run) && sid in After(start, timeoutMs, run).live && FaultIn(body).Some?
    ensures var r := After(start, timeoutMs, run);
            var i, f := Receive(sid, body, unixTime), FaultIn(body).value;
            && Step(r, timeoutMs, i).reg.dev
               == r.reg.dev[f.uri := if f.uri in r.reg.dev
                                     then r.reg.dev[f.uri].(zoneId := f.zoneId, fault := true, lastSeenMs := r.now)
                                     else DeviceState(LUMINAIRE, f.zoneId, 0, 0, 0, true, r.now)]
            && EventsOf(r, i) == [FaultEvent(f.uri, f.zoneId, f.code, f.text)]
  {
    RegionInvariant(start, timeoutMs, run);
    hide After, Possible, DecodeRegisterReq, DecodeStatus, DecodeFault, FsmInv, Indexed, Send, SwitchTo;
  }

  /** A registration that names a device and a zone starts the device's record afresh, and hands over nothing. */
  lemma RegistrationIsRecorded(r: Region, timeoutMs: u64, sid: nat, body: seq<u8>, unixTime: u32)
    requires sid in r.live && RegionEffects.Request(body).Some?
    ensures var i, req := Receive(sid, body, unixTime), RegionEffects.Request(body).value;
            && Step(r, timeoutMs, i).reg.dev
               == r.reg.dev[req.uri := DeviceState(req.kind, req.zoneId, 0, 0, 0, false, r.now)]
            && EventsOf(r, i) == []
  {
    hide DecodeRegisterReq, DecodeStatus, DecodeFault, Indexed, Send, Codec.U32Bytes;
  }

  /** A reading sets the type, the zone and the time of the sensor's record and hands over nothing. The fault marker
      starts the record afresh, with the fault set, and hands over exactly its row and the fault. */
  lemma ReadingIsRecorded(r: Region, timeoutMs: u64, uri: Str, zone: u32, motion: u8)
    ensures var i := Telemetry(uri, zone, motion);
            var st := if motion == 254 then DeviceState(SENSOR, zone, 0, 0, 0, true, r.now)
                      else if uri in r.reg.dev
                      then r.reg.dev[uri].(kind := SENSOR, zoneId := zone, lastSeenMs := r.now)
                      else DeviceState(SENSOR, zone, 0, 0, 0, false, r.now);
            && Step(r, timeoutMs, i).reg.dev == r.reg.dev[uri := st]
            && EventsOf(r, i)
               == if motion == 254 then [Row(uri, st), FaultEvent(uri, zone, 1, SENSOR_FAULT)] else []
  {
    EdgesEffect(SeenSensor(r, uri, zone), uri, zone, motion);
    hide Edges, SwitchTo;
  }

  // The lamp reports taken for u, oldest first
  function LampReports(start: u64, timeoutMs: u64, run: seq<Input>, u: Str): seq<DbEvent> {
    if run == [] then []
    else
      var init, i := run[..|run| - 1], run[|run| - 1];
      LampReports(start, timeoutMs, init, u) + LampReport(After(start, timeoutMs, init), i, u)
  }

  function LampReport(r: Region, i: Input, u: Str): seq<DbEvent> {
    if i.Receive? && i.sid in r.live && StatusIn(i.body).Some? && StatusIn(i.body).value.uri == u
       && u in r.reg.dev && r.reg.dev[u].kind == LUMINAIRE
    then
      var s := StatusIn(i.body).value;
      [LampStatusEvent(u, s.zoneId, s.on, s.intensity, s.powerMw)]
    else []
  }

  function LampEventsIn(db: seq<DbEvent>, u: Str): seq<DbEvent> {
    if db == [] then []
    else
      var e := db[|db| - 1];
      LampEventsIn(db[..|db| - 1], u) + if e.LampStatusEvent? && e.uri == u then [e] else []
  }

  lemma {:induction false} LampEventsJoin(a: seq<DbEvent>, b: seq<DbEvent>, u: Str)
    ensures LampEventsIn(a + b, u) == LampEventsIn(a, u) + LampEventsIn(b, u)
  {
    if b == [] {
      assert a + b == a;
    } else {
      assert (a + b)[..|a + b| - 1] == a + b[..|b| - 1];
      LampEventsJoin(a, b[..|b| - 1], u);
    }
  }

  lemma FewLampEvents(db: seq<DbEvent>, u: Str)
    ensures db == [] ==> LampEventsIn(db, u) == []
    ensures |db| == 1 ==> LampEventsIn(db, u) == if db[0].LampStatusEvent? && db[0].uri == u then db else []
    ensures |db| == 2 && !db[0].LampStatusEvent? ==>
              LampEventsIn(db, u) == if db[1].LampStatusEvent? && db[1].uri == u then [db[1]] else []
  {
    if |db| == 1 {
      assert db[..0] == [];
    } else if |db| == 2 {
      assert db[..1][..0] == [];
    }
  }

  lemma LampEventsStep(start: u64, timeoutMs: u64, run: seq<Input>, i: Input, u: Str)
    requires Possible(start, timeoutMs, run) && Enabled(After(start, timeoutMs, run), timeoutMs, i)
    ensures var r := After(start, timeoutMs, run); LampEventsIn(EventsOf(r, i), u) == LampReport(r, i, u)
  {
    var r := After(start, timeoutMs, run);
    FewLampEvents(EventsOf(r, i), u);
    if i.Receive? && StatusIn(i.body).Some? {
      StatusIsRecorded(start, timeoutMs, run, i.sid, i.body, i.unixTime);
      hide After, Possible, Step, EventsOf, LampEventsIn, StatusIn;
    } else {
      hide After, Possible, Enabled, LampEventsIn, DecodeRegisterReq, DecodeStatus, DecodeFault;
    }
  }

  /** In every run the lamp statuses of u handed to the database are exactly the status reports taken for it while it
      was recorded as a lamp, in order. */
  lemma {:induction false} LampStatusesAreReports(start: u64, timeoutMs: u64, run: seq<Input>, u: Str)
    requires Possible(start, timeoutMs, run)
    ensures LampEventsIn(Handed(start, timeoutMs, run), u) == LampReports(start, timeoutMs, run, u)
  {
    if run != [] {
      PossibleInit(start, timeoutMs, run);
      var init, i := run[..|run| - 1], run[|run| - 1];
      LampStatusesAreReports(start, timeoutMs, init, u);
      LampEventsStep(start, timeoutMs, init, i, u);
      hide Step, Enabled, EventsOf, LampReport, LampEventsIn;
      LampEventsJoin(Handed(start, timeoutMs, init), EventsOf(After(start, timeoutMs, init), i), u);
    }
  }
}
