/** The session map, the session queues and the motion events of a regional server, over whole runs. */
module RegionSessions {
  import opened Basics
  import opened Codec
  import opened Proto
  import opened Framing
  import opened WriteQueue
  import opened DeviceRegistry
  import opened RegionSpec
  import opened RegionLaws
  import opened RegionRuns

  // ----- session handover

  // The session that registered u last
  function LastRegistrant(log: seq<LogEntry>, u: Str): Option<nat> {
    if log == [] then None
    else
      var e := log[|log| - 1];
      if Registers(e, u) then Some(e.sid) else LastRegistrant(log[..|log| - 1], u)
  }

  // The session that registered u last, if its object exists and has not been closed
  ghost predicate OpenRegistrant(r: Region, u: Str, s: nat) {
    LastRegistrant(r.log, u) == Some(s) && s in r.live && !r.live[s].closed
  }

  ghost predicate HandoverInv(r: Region) {
    && (forall u <- r.sessions :: LastRegistrant(r.log, u) == Some(r.sessions[u]))
    && (forall u, s :: OpenRegistrant(r, u, s) ==> u in r.sessions)
    && (forall s <- r.live :: s < r.born)
    && (forall u, s :: LastRegistrant(r.log, u) == Some(s) ==> s < r.born)
  }

  lemma {:induction false} NoRegistrations(log: seq<LogEntry>, d: seq<LogEntry>, u: Str)
    requires forall e <- d :: !e.Registered?
    ensures LastRegistrant(log + d, u) == LastRegistrant(log, u)
  {
    if d == [] {
      assert log + d == log;
    } else {
      assert (log + d)[..|log + d| - 1] == log + d[..|d| - 1];
      NoRegistrations(log, d[..|d| - 1], u);
    }
  }

  // A step that registers nothing, closes nothing and removes at most dangling entries keeps the handover
  lemma HandoverFrame(a: Region, b: Region, d: seq<LogEntry>)
    requires HandoverInv(a) && b.log == a.log + d && (forall e <- d :: !e.Registered?)
    requires b.live.Keys == a.live.Keys && b.born == a.born
    requires forall s <- a.live :: b.live[s].closed == a.live[s].closed
    requires forall u <- b.sessions :: u in a.sessions && b.sessions[u] == a.sessions[u]
    requires forall u <- a.sessions :: a.sessions[u] in a.live ==> u in b.sessions
    ensures HandoverInv(b)
  {
    forall u
      ensures LastRegistrant(b.log, u) == LastRegistrant(a.log, u)
    {
      NoRegistrations(a.log, d, u);
    }
    forall u, s | OpenRegistrant(b, u, s)
      ensures u in b.sessions
    {
      assert OpenRegistrant(a, u, s);
    }
  }

  lemma RegisterHandover(r: Region, sid: nat, req: RegisterReq, unixTime: u32)
    requires HandoverInv(r) && sid in r.live
    ensures HandoverInv(HandleRegister(r, sid, req, unixTime))
  {
    var b := HandleRegister(r, sid, req, unixTime);
    if req.uri == [] || req.zoneId == 0 {
      assert r.log + [] == r.log;
      HandoverFrame(r, b, []);
    } else {
      var e := Registered(req.uri, sid);
      assert b.log == r.log + [e] && b.log[..|r.log|] == r.log;
      assert b.sessions == r.sessions[req.uri := sid];
      forall u
        ensures LastRegistrant(b.log, u) == if u == req.uri then Some(sid) else LastRegistrant(r.log, u)
      {}
      forall u, s | OpenRegistrant(b, u, s)
        ensures u in b.sessions
      {
        if u != req.uri {
          assert OpenRegistrant(r, u, s);
        }
      }
    }
  }

  lemma CloseHandover(r: Region, sid: nat)
    requires HandoverInv(r) && sid in r.live
    ensures HandoverInv(OnClose(r, sid))
  {
    var b := OnClose(r, sid);
    forall u, s | OpenRegistrant(b, u, s)
      ensures u in b.sessions
    {
      assert OpenRegistrant(r, u, s);
    }
  }

  lemma HandoverStep(r: Region, timeoutMs: u64, i: Input)
    requires Enabled(r, timeoutMs, i) && HandoverInv(r)
    ensures HandoverInv(Step(r, timeoutMs, i))
  {
    match i
    case Accept =>
      hide *;
      AcceptHandover(r, timeoutMs);
    case Close(sid) =>
      hide HandoverInv, OnClose;
      CloseHandover(r, sid);
    case Expire(sid) =>
      hide *;
      ExpireHandover(r, timeoutMs, sid);
    case Receive(sid, body, unixTime) =>
      hide HandoverInv, OnMessage;
      MessageHandover(r, sid, body, unixTime);
    case Telemetry(uri, zone, motion) =>
      hide HandoverInv, OnTelemetry;
      TelemetryHandover(r, uri, zone, motion);
    case Tick(order) =>
      hide HandoverInv, OnTick;
      TickHandover(r, timeoutMs, order);
    case _ =>
      hide HandoverInv;
      assert r.log + [] == r.log;
      HandoverFrame(r, Step(r, timeoutMs, i), []);
  }

  lemma MessageHandover(r: Region, sid: nat, body: seq<u8>, unixTime: u32)
    requires HandoverInv(r) && sid in r.live
    ensures HandoverInv(OnMessage(r, sid, body, unixTime))
  {
    hide HandoverInv, HandleRegister, HandleStatus, HandleFault, MessageLog, DecodeRegisterReq;
    if body != [] && body[0] == REGISTER_REQ && DecodeRegisterReq(body[1..]).Ok? {
      RegisterHandover(r, sid, DecodeRegisterReq(body[1..]).value, unixTime);
    } else {
      MessageLogs(r, sid, body, unixTime);
      MessageFrame(r, sid, body, unixTime);
      hide OnMessage;
      HandoverFrame(r, OnMessage(r, sid, body, unixTime), MessageLog(r, sid, body));
    }
  }

  lemma TelemetryHandover(r: Region, uri: Str, zone: u32, motion: u8)
    requires HandoverInv(r)
    ensures HandoverInv(OnTelemetry(r, uri, zone, motion))
  {
    TelemetryLogs(r, uri, zone, motion);
    EdgesEffect(SeenSensor(r, uri, zone), uri, zone, motion);
    hide HandoverInv, Edges, SwitchTo, LastMotion;
    HandoverFrame(r, OnTelemetry(r, uri, zone, motion), TelemetryLog(r, uri, zone, motion));
  }

  lemma TickHandover(r: Region, timeoutMs: u64, order: seq<Str>)
    requires HandoverInv(r) && Enabled(r, timeoutMs, Tick(order))
    ensures HandoverInv(OnTick(r, timeoutMs, order))
  {
    TickLogs(r, timeoutMs, order);
    RaiseAllReg(r.(reg := MarkLost(r.reg, r.now, timeoutMs)), order);
    EnabledTick(r, timeoutMs, order);
    TickRegistersNothing(r, order);
    hide HandoverInv, TickLog, RaiseAll, MarkLost;
    HandoverFrame(r, OnTick(r, timeoutMs, order), TickLog(r, order));
  }

  lemma AcceptHandover(r: Region, timeoutMs: u64)
    requires HandoverInv(r)
    ensures HandoverInv(Step(r, timeoutMs, Accept))
  {
    var b := Step(r, timeoutMs, Accept);
    forall u, s | OpenRegistrant(b, u, s)
      ensures u in b.sessions
    {
      assert OpenRegistrant(r, u, s);
    }
  }

  lemma ExpireHandover(r: Region, timeoutMs: u64, sid: nat)
    requires HandoverInv(r) && Enabled(r, timeoutMs, Expire(sid))
    ensures HandoverInv(Step(r, timeoutMs, Expire(sid)))
  {
    var b := Step(r, timeoutMs, Expire(sid));
    forall u, s | OpenRegistrant(b, u, s)
      ensures u in b.sessions
    {
      assert OpenRegistrant(r, u, s);
    }
  }

  lemma MessageFrame(r: Region, sid: nat, body: seq<u8>, unixTime: u32)
    requires sid in r.live
    requires body == [] || body[0] != REGISTER_REQ || DecodeRegisterReq(body[1..]).Err?
    ensures var b := OnMessage(r, sid, body, unixTime);
            && b == r.(reg := b.reg, fsm := b.fsm, log := b.log, live := b.live)
            && b.live.Keys == r.live.Keys
            && (forall s <- r.live :: b.live[s] == r.live[s].(q := b.live[s].q))
            && (forall e <- MessageLog(r, sid, body) :: !e.Registered?)
  {
    hide DecodeStatus, DecodeFault, SwitchTo, Upserted, Send;
  }

  lemma {:induction false} TickRegistersNothing(r: Region, lost: seq<Str>)
    requires forall u <- lost :: u in r.reg.dev
    ensures forall e <- TickLog(r, lost) :: e.CommLostAlarm?
  {
    if lost != [] {
      TickRegistersNothing(r, lost[..|lost| - 1]);
    }
  }

  lemma {:induction false} HandoverHolds(start: u64, timeoutMs: u64, run: seq<Input>)
    requires Possible(start, timeoutMs, run)
    ensures HandoverInv(After(start, timeoutMs, run))
  {
    if run != [] {
      PossibleInit(start, timeoutMs, run);
      HandoverHolds(start, timeoutMs, run[..|run| - 1]);
      HandoverStep(After(start, timeoutMs, run[..|run| - 1]), timeoutMs, run[|run| - 1]);
    }
  }

  /** In every run the entry of u is absent or the session that registered u last, and while that session has not
      closed, send_cmd_to_uri(u) finds it. */
  lemma SessionMapIsCurrent(start: u64, timeoutMs: u64, run: seq<Input>, u: Str)
    requires Possible(start, timeoutMs, run)
    ensures var r := After(start, timeoutMs, run);
            && (u in r.sessions ==> LastRegistrant(r.log, u) == Some(r.sessions[u]))
            && (forall s :: OpenRegistrant(r, u, s) ==> Reaches(r, u) && r.sessions[u] == s)
  {
    HandoverHolds(start, timeoutMs, run);
  }

  /** Closing any other session leaves the newest one in place. */
  lemma ClosingOlderSessionKeepsNewer(start: u64, timeoutMs: u64, run: seq<Input>, u: Str, newest: nat, older: nat)
    requires Possible(start, timeoutMs, run)
    requires var r := After(start, timeoutMs, run);
             OpenRegistrant(r, u, newest) && older in r.live && older != newest
    ensures var b := After(start, timeoutMs, run + [Close(older)]);
            u in b.sessions && b.sessions[u] == newest && Reaches(b, u)
  {
    HandoverHolds(start, timeoutMs, run);
    var r := After(start, timeoutMs, run);
    assert (run + [Close(older)])[..|run|] == run;
    assert u in r.sessions && r.sessions[u] == newest;
  }

  // ----- session queues

  ghost predicate QueueInv(q: Queue) { q.Shape() && q.InOrder() && forall f <- q.sent :: Fits(f) }

  ghost predicate QueuesInv(r: Region) { forall s <- r.live :: QueueInv(r.live[s].q) }

  lemma SendInv(q: Queue, m: Frame)
    requires QueueInv(q) && Fits(m)
    ensures QueueInv(Send(q, m))
  {
    SendKeeps(q, m);
  }

  lemma QueuedKeeps(r: Region, sid: nat, kind: u8, payload: seq<u8>)
    requires QueuesInv(r) && sid in r.live && Fits(Frame(kind, payload))
    ensures QueuesInv(Queued(r, sid, kind, payload))
  {
    SendInv(r.live[sid].q, Frame(kind, payload));
    hide Send, QueueInv;
  }

  lemma CommandFits(c: Command)
    ensures EncodeCommand(c).Ok? ==> Fits(Frame(CMD, EncodeCommand(c).value))
  {}

  lemma SendCmdQueues(r: Region, uri: Str, cmd: u8, value: u8)
    requires QueuesInv(r)
    ensures QueuesInv(SendCmd(r, uri, cmd, value))
  {
    hide EncodeCommand, Queued, QueuesInv, Fits;
    if Reaches(r, uri) && EncodeCommand(Command(r.live[r.sessions[uri]].uri, cmd, value)).Ok? {
      CommandFits(Command(r.live[r.sessions[uri]].uri, cmd, value));
      QueuedKeeps(r, r.sessions[uri], CMD, EncodeCommand(Command(r.live[r.sessions[uri]].uri, cmd, value)).value);
    } else {
      QueuesSame(r, SendCmd(r, uri, cmd, value));
    }
  }

  lemma QueuesSame(a: Region, b: Region)
    requires QueuesInv(a) && b.live == a.live
    ensures QueuesInv(b)
  {}

  lemma {:induction false} SendAllQueues(r: Region, lamps: seq<Str>)
    requires QueuesInv(r)
    ensures QueuesInv(SendAllOn(r, lamps)) && QueuesInv(SendAllOff(r, lamps))
  {
    hide QueuesInv, SendCmd;
    if lamps != [] {
      var init, u := lamps[..|lamps| - 1], lamps[|lamps| - 1];
      SendAllQueues(r, init);
      SendCmdQueues(SendAllOn(r, init), u, CMD_SWITCH_ON, 0);
      SendCmdQueues(SendCmd(SendAllOn(r, init), u, CMD_SWITCH_ON, 0), u, CMD_SET_INTENSITY, 60);
      SendCmdQueues(SendAllOff(r, init), u, CMD_SWITCH_OFF, 0);
    }
  }

  lemma EdgesQueues(r: Region, uri: Str, zone: u32, motion: u8)
    requires QueuesInv(r)
    ensures QueuesInv(Edges(r, uri, zone, motion))
  {
    var on := r.(log := r.log + [MotionOn(uri, zone)]);
    var off := r.(log := r.log + [MotionOff(uri, zone)]);
    QueuesSame(r, on);
    QueuesSame(r, off);
    SendAllQueues(on, LampsOfZone(r.reg, zone));
    SendAllQueues(off, LampsOfZone(r.reg, zone));
    var prev := LastMotion(r, uri);
    var b := if prev == 0 && motion == 1 then OnMotion(on, zone)
             else if prev == 1 && motion == 0 then OffMotion(off, zone) else r;
    hide SendAllOn, SendAllOff, LastMotion, QueuesInv;
    QueuesSame(b, Edges(r, uri, zone, motion));
  }

  lemma QueuesStep(r: Region, timeoutMs: u64, i: Input)
    requires Enabled(r, timeoutMs, i) && QueuesInv(r)
    ensures QueuesInv(Step(r, timeoutMs, i))
  {
    match i
    case Accept => hide QueueInv;
    case RunQueue(sid) =>
      RunPostedKeeps(r.live[sid].q);
      hide RunPosted;
    case WriteDone(sid) =>
      CompletedKeeps(r.live[sid].q);
      DoWriteKeeps(Completed(r.live[sid].q));
      hide DoWrite, Completed;
    case Receive(sid, body, unixTime) =>
      hide OnMessage, QueueInv;
      MessageQueues(r, sid, body, unixTime);
    case Telemetry(uri, zone, motion) =>
      hide OnTelemetry, QueueInv;
      TelemetryQueues(r, uri, zone, motion);
    case Tick(order) =>
      hide RaiseAll, QueueInv;
      RaiseAllReg(r.(reg := MarkLost(r.reg, r.now, timeoutMs)), order);
    case _ => hide QueueInv;
  }

  lemma TelemetryQueues(r: Region, uri: Str, zone: u32, motion: u8)
    requires QueuesInv(r)
    ensures QueuesInv(OnTelemetry(r, uri, zone, motion))
  {
    hide QueuesInv, Edges, SwitchTo;
    var a := SeenSensor(r, uri, zone);
    var c := if motion == 254 then FaultySensor(a, uri, zone) else a;
    QueuesSame(r, c);
    EdgesQueues(c, uri, zone, motion);
  }

  lemma MessageQueues(r: Region, sid: nat, body: seq<u8>, unixTime: u32)
    requires QueuesInv(r) && sid in r.live
    ensures QueuesInv(OnMessage(r, sid, body, unixTime))
  {
    hide DecodeRegisterReq, DecodeStatus, DecodeFault, SwitchTo, Upserted, Send, LampRegistered, QueueInv, U32Bytes;
    U32Size(unixTime);
    forall q: Queue, m: Frame | QueueInv(q) && Fits(m)
      ensures QueueInv(Send(q, m))
    {
      SendInv(q, m);
    }
  }

  /** In every run each session has written, is writing, has queued or has posted everything it was given to send,
      once and in order, with at most one write outstanding; and every frame is short enough for a reader. */
  lemma {:induction false} SessionQueuesInOrder(start: u64, timeoutMs: u64, run: seq<Input>)
    requires Possible(start, timeoutMs, run)
    ensures QueuesInv(After(start, timeoutMs, run))
  {
    if run != [] {
      PossibleInit(start, timeoutMs, run);
      SessionQueuesInOrder(start, timeoutMs, run[..|run| - 1]);
      QueuesStep(After(start, timeoutMs, run[..|run| - 1]), timeoutMs, run[|run| - 1]);
    }
  }

  // ----- motion events

  function Level(log: seq<LogEntry>, u: Str): int {
    if log == [] then 0
    else
      var e := log[|log| - 1];
      Level(log[..|log| - 1], u)
      + if e.MotionOn? && e.uri == u then 1 else if e.MotionOff? && e.uri == u then -1 else 0
  }

  // An on event only when the sensor was off, and the other way round
  ghost predicate Alternates(log: seq<LogEntry>, u: Str) {
    log == []
    || (var init, e := log[..|log| - 1], log[|log| - 1];
        Alternates(init, u)
        && (e.MotionOn? && e.uri == u ==> Level(init, u) == 0)
        && (e.MotionOff? && e.uri == u ==> Level(init, u) == 1))
  }

  ghost predicate MotionInv(r: Region, u: Str) {
    Alternates(r.log, u) && Level(r.log, u) == LastMotion(r, u) <= 1
  }

  lemma {:induction false} NoMotion(log: seq<LogEntry>, d: seq<LogEntry>, u: Str)
    requires forall e <- d :: !e.MotionOn? && !e.MotionOff?
    ensures Level(log + d, u) == Level(log, u) && (Alternates(log, u) ==> Alternates(log + d, u))
  {
    if d == [] {
      assert log + d == log;
    } else {
      assert (log + d)[..|log + d| - 1] == log + d[..|d| - 1];
      NoMotion(log, d[..|d| - 1], u);
    }
  }

  lemma MotionStep(r: Region, timeoutMs: u64, i: Input, u: Str)
    requires Enabled(r, timeoutMs, i) && MotionInv(r, u)
    ensures MotionInv(Step(r, timeoutMs, i), u)
  {
    LogStep(r, timeoutMs, i);
    var b, d := Step(r, timeoutMs, i), LogDelta(r, timeoutMs, i);
    LastMotionStep(r, timeoutMs, i);
    if i.Telemetry? && (i.motion == 0 || i.motion == 1) {
      assert LogDelta(r, timeoutMs, i) == EdgeLog(r, i.uri, i.zoneId, i.motion);
      EdgeMotion(r, b, i.uri, i.zoneId, i.motion, u);
    } else {
      MotionlessDelta(r, timeoutMs, i);
      hide *;
      NoMotion(r.log, d, u);
      SameMotion(r, b, d, u);
    }
  }

  lemma SameMotion(r: Region, b: Region, d: seq<LogEntry>, u: Str)
    requires MotionInv(r, u) && b.log == r.log + d && b.lastMotion == r.lastMotion
    requires Level(r.log + d, u) == Level(r.log, u) && (Alternates(r.log, u) ==> Alternates(r.log + d, u))
    ensures MotionInv(b, u)
  {}

  lemma EdgeMotion(r: Region, b: Region, uri: Str, zone: u32, motion: u8, u: Str)
    requires MotionInv(r, u) && motion <= 1
    requires b.log == r.log + EdgeLog(r, uri, zone, motion) && b.lastMotion == r.lastMotion[uri := motion]
    ensures MotionInv(b, u)
  {
    var d := EdgeLog(r, uri, zone, motion);
    if d == [] {
      assert r.log + d == r.log;
      hide Level, Alternates;
    } else {
      assert d == [d[0]];
      MotionSnoc(r.log, d[0], u);
      hide Level, Alternates;
    }
  }

  lemma MotionSnoc(log: seq<LogEntry>, e: LogEntry, u: Str)
    ensures Level(log + [e], u)
            == Level(log, u) + if e.MotionOn? && e.uri == u then 1 else if e.MotionOff? && e.uri == u then -1 else 0
    ensures Alternates(log + [e], u) <==> Alternates(log, u) && (e.MotionOn? && e.uri == u ==> Level(log, u) == 0)
                                          && (e.MotionOff? && e.uri == u ==> Level(log, u) == 1)
  {
    assert (log + [e])[..|log|] == log;
  }

  lemma MotionlessDelta(r: Region, timeoutMs: u64, i: Input)
    requires Enabled(r, timeoutMs, i) && !(i.Telemetry? && (i.motion == 0 || i.motion == 1))
    ensures forall e <- LogDelta(r, timeoutMs, i) :: !e.MotionOn? && !e.MotionOff?
  {
    if i.Tick? {
      EnabledTick(r, timeoutMs, i.order);
      TickRegistersNothing(r, i.order);
    }
  }

  lemma LastMotionStep(r: Region, timeoutMs: u64, i: Input)
    requires Enabled(r, timeoutMs, i)
    ensures Step(r, timeoutMs, i).lastMotion
            == if i.Telemetry? && (i.motion == 0 || i.motion == 1) then r.lastMotion[i.uri := i.motion]
               else r.lastMotion
  {
    hide Edges, RaiseAll, OnMessage, SwitchTo;
    match i
    case Telemetry(uri, zone, motion) => EdgesEffect(SeenSensor(r, uri, zone), uri, zone, motion);
    case Tick(order) => RaiseAllReg(r.(reg := MarkLost(r.reg, r.now, timeoutMs)), order);
    case Receive(sid, body, unixTime) => MessageKeepsMotion(r, sid, body, unixTime);
    case _ =>
  }

  lemma MessageKeepsMotion(r: Region, sid: nat, body: seq<u8>, unixTime: u32)
    requires sid in r.live
    ensures OnMessage(r, sid, body, unixTime).lastMotion == r.lastMotion
  {
    hide DecodeRegisterReq, DecodeStatus, DecodeFault, SwitchTo, Upserted, Send;
  }

  lemma {:induction false} MotionHolds(start: u64, timeoutMs: u64, run: seq<Input>, u: Str)
    requires Possible(start, timeoutMs, run)
    ensures MotionInv(After(start, timeoutMs, run), u)
  {
    if run != [] {
      PossibleInit(start, timeoutMs, run);
      MotionHolds(start, timeoutMs, run[..|run| - 1], u);
      MotionStep(After(start, timeoutMs, run[..|run| - 1]), timeoutMs, run[|run| - 1], u);
    }
  }

  function OnCount(log: seq<LogEntry>, u: Str): nat {
    if log == [] then 0
    else OnCount(log[..|log| - 1], u) + if log[|log| - 1].MotionOn? && log[|log| - 1].uri == u then 1 else 0
  }

  function OffCount(log: seq<LogEntry>, u: Str): nat {
    if log == [] then 0
    else OffCount(log[..|log| - 1], u) + if log[|log| - 1].MotionOff? && log[|log| - 1].uri == u then 1 else 0
  }

  lemma {:induction false} LevelCounts(log: seq<LogEntry>, u: Str)
    ensures Level(log, u) == OnCount(log, u) - OffCount(log, u)
  {
    if log != [] {
      LevelCounts(log[..|log| - 1], u);
    }
  }

  lemma {:induction false} AlternatesAt(log: seq<LogEntry>, j: nat, u: Str)
    requires Alternates(log, u) && j < |log|
    ensures Alternates(log[..j], u)
    ensures log[j].MotionOn? && log[j].uri == u ==> Level(log[..j], u) == 0
    ensures log[j].MotionOff? && log[j].uri == u ==> Level(log[..j], u) == 1
  {
    if j < |log| - 1 {
      AlternatesAt(log[..|log| - 1], j, u);
      assert log[..|log| - 1][..j] == log[..j];
    }
  }

  /** Whatever readings arrive, the on and off events of a sensor strictly alternate, starting with on, and on events
      minus off events is always its lastMotion. */
  lemma MotionEventsAlternate(start: u64, timeoutMs: u64, run: seq<Input>, u: Str, j: nat)
    requires Possible(start, timeoutMs, run) && j < |After(start, timeoutMs, run).log|
    ensures var r := After(start, timeoutMs, run);
            && OnCount(r.log, u) - OffCount(r.log, u) == LastMotion(r, u) <= 1
            && (r.log[j].MotionOn? && r.log[j].uri == u ==> OnCount(r.log[..j], u) == OffCount(r.log[..j], u))
            && (r.log[j].MotionOff? && r.log[j].uri == u ==> OnCount(r.log[..j], u) == OffCount(r.log[..j], u) + 1)
  {
    MotionHolds(start, timeoutMs, run, u);
    var log := After(start, timeoutMs, run).log;
    LevelCounts(log, u);
    LevelCounts(log[..j], u);
    AlternatesAt(log, j, u);
  }
}
