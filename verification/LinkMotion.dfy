/** The lamps follow motion, end to end. */
module LinkMotion {
  import opened Basics
  import opened Codec
  import opened Proto
  import opened Framing
  import opened WriteQueue
  import opened DeviceRegistry
  import opened LinkSpec
  import opened LinkLaws
  import opened RegionSpec
  import RegionLaws
  import RegionSessions
  import RegionHistory
  import LampSpec
  import LampLaws
  import ProtoLaws
  import SensorSpec
  import SensorLaws

  // ----- the commands that motion calls for

  function CommandFrame(u: Str, cmd: u8, value: u8): Frame { Frame(CMD, CommandBytes(Command(u, cmd, value))) }

  function OnFrames(u: Str): seq<Frame> {
    [CommandFrame(u, CMD_SWITCH_ON, 0), CommandFrame(u, CMD_SET_INTENSITY, 60)]
  }

  function OffFrames(u: Str): seq<Frame> { [CommandFrame(u, CMD_SWITCH_OFF, 0)] }

  // A reading that changes the sensor's last motion
  predicate Edge(r: Region, i: Input) {
    i.Telemetry? && ((LastMotion(r, i.uri) == 0 && i.motion == 1) || (LastMotion(r, i.uri) == 1 && i.motion == 0))
  }

  // What the input makes the region tell the lamp u: 1 for on at 60, 0 for off. An edge counts in NORMAL_OPERATION
  // only, and for the lamps its zone lists.
  function Called(r: Region, u: Str, i: Input): Option<u8> {
    if Edge(r, i) && r.fsm == NORMAL_OPERATION && u in LampsOfZone(r.reg, i.zoneId) then Some(i.motion) else None
  }

  function FramesOf(called: Option<u8>, u: Str): seq<Frame> {
    if called.None? then [] else if called.value == 1 then OnFrames(u) else OffFrames(u)
  }

  // The commands among some frames
  function CommandsIn(fs: seq<Frame>): seq<Frame> {
    if fs == [] then []
    else CommandsIn(fs[..|fs| - 1]) + if fs[|fs| - 1].kind == CMD then [fs[|fs| - 1]] else []
  }

  lemma {:induction false} CommandsJoin(a: seq<Frame>, b: seq<Frame>)
    ensures CommandsIn(a + b) == CommandsIn(a) + CommandsIn(b)
  {
    if b == [] {
      assert a + b == a;
    } else {
      assert (a + b)[..|a + b| - 1] == a + b[..|b| - 1];
      CommandsJoin(a, b[..|b| - 1]);
    }
  }

  lemma {:induction false} AllCommands(fs: seq<Frame>)
    requires forall i :: 0 <= i < |fs| ==> fs[i].kind == CMD
    ensures CommandsIn(fs) == fs
  {
    if fs != [] {
      var init, f := fs[..|fs| - 1], fs[|fs| - 1];
      AllCommands(init);
      assert fs == init + [f] && f.kind == CMD;
    }
  }

  // ----- the history of one connection, since the registration

  function CalledBy(p: Setup, s: Joined, a: Act): Option<u8> {
    if a.Region? && s.got >= 1 then Called(s.r, p.lamp.uri, a.i) else None
  }

  // Every command called for
  function Issued(p: Setup, trace: seq<Joined>, acts: seq<Act>, k: nat): seq<Frame>
    requires k <= |acts| < |trace|
  {
    if k == 0 then []
    else Issued(p, trace, acts, k - 1) + FramesOf(CalledBy(p, trace[k - 1], acts[k - 1]), p.lamp.uri)
  }

  function Later(before: Option<u8>, now: Option<u8>): Option<u8> { if now.Some? then now else before }

  // The last one
  function LastCalled(p: Setup, trace: seq<Joined>, acts: seq<Act>, k: nat): Option<u8>
    requires k <= |acts| < |trace|
  {
    if k == 0 then None
    else Later(LastCalled(p, trace, acts, k - 1), CalledBy(p, trace[k - 1], acts[k - 1]))
  }

  predicate SensorEdge(s: Joined, a: Act, sensor: Str) { a.Region? && Edge(s.r, a.i) && a.i.uri == sensor }

  // Edges of the sensor missed: one in NORMAL_OPERATION leaves none, another one adds one, and a lamp that registers
  // in motion has missed one
  function MissedBy(s: Joined, a: Act, sensor: Str, before: nat): nat {
    if a.Up? && s.got == 0 then LastMotion(s.r, sensor)
    else if SensorEdge(s, a, sensor) then if s.r.fsm == NORMAL_OPERATION then 0 else before + 1
    else before
  }

  function Missed(p: Setup, sensor: Str, trace: seq<Joined>, acts: seq<Act>, k: nat): nat
    requires k <= |acts| < |trace|
  {
    if k == 0 then 0
    else MissedBy(trace[k - 1], acts[k - 1], sensor, Missed(p, sensor, trace, acts, k - 1))
  }

  // There was an edge of the sensor since the registration, and the last one came in NORMAL_OPERATION
  function LastEdgeServed(sensor: Str, trace: seq<Joined>, acts: seq<Act>, k: nat): bool
    requires k <= |acts| < |trace|
  {
    if k == 0 then false
    else
      var s, a := trace[k - 1], acts[k - 1];
      if a.Up? && s.got == 0 then false
      else if SensorEdge(s, a, sensor) then s.r.fsm == NORMAL_OPERATION
      else LastEdgeServed(sensor, trace, acts, k - 1)
  }

  // ----- surroundings

  predicate RegistersAs(body: seq<u8>, u: Str) {
    && body != [] && body[0] == REGISTER_REQ
    && DecodeRegisterReq(body[1..]).Ok? && DecodeRegisterReq(body[1..]).value.uri == u
  }

  // No other session registers the lamp's uri
  predicate Alone(p: Setup, a: Act) { a.Region? && a.i.Receive? ==> !RegistersAs(a.i.body, p.lamp.uri) }

  ghost predicate SoleRun(p: Setup, trace: seq<Joined>, acts: seq<Act>) {
    IsRun(p, trace, acts) && forall k :: 0 <= k < |acts| ==> Alone(p, acts[k])
  }

  // The sensor is in the lamp's zone, and no reading of another one commands the lamp
  predicate OneSensor(p: Setup, sensor: Str, s: Joined, a: Act) {
    a.Region? && a.i.Telemetry? ==>
      && (a.i.uri == sensor ==> a.i.zoneId == p.lamp.zone)
      && (CalledBy(p, s, a).Some? ==> a.i.uri == sensor)
  }

  ghost predicate OneSensorRun(p: Setup, sensor: Str, trace: seq<Joined>, acts: seq<Act>) {
    SoleRun(p, trace, acts) && forall k :: 0 <= k < |acts| ==> OneSensor(p, sensor, trace[k], acts[k])
  }

  // ----- commands reach the lamp's session

  ghost predicate Owns(r: Region, sid: nat, u: Str) {
    && u != [] && ShortStr(u)
    && Bound(r, sid) && r.live[sid].uri == u
    && u in r.sessions && r.sessions[u] == sid
  }

  lemma SendCmdTo(r: Region, sid: nat, u: Str, v: Str, cmd: u8, value: u8)
    requires Owns(r, sid, u)
    ensures var b := SendCmd(r, v, cmd, value);
            && Owns(b, sid, u)
            && b.live[sid].q.sent == r.live[sid].q.sent + if v == u then [CommandFrame(u, cmd, value)] else []
  {
    hide CommandBytes;
  }

  lemma {:induction false} SendAllOnTo(r: Region, sid: nat, u: Str, lamps: seq<Str>)
    requires Owns(r, sid, u) && NoDup(lamps)
    ensures var b := SendAllOn(r, lamps);
            && Owns(b, sid, u)
            && b.live[sid].q.sent == r.live[sid].q.sent + if u in lamps then OnFrames(u) else []
  {
    if lamps != [] {
      var init, v := lamps[..|lamps| - 1], lamps[|lamps| - 1];
      assert lamps == init + [v] && v !in init;
      hide SendCmd, CommandFrame, Owns;
      SendAllOnTo(r, sid, u, init);
      var a := SendAllOn(r, init);
      SendCmdTo(a, sid, u, v, CMD_SWITCH_ON, 0);
      SendCmdTo(SendCmd(a, v, CMD_SWITCH_ON, 0), sid, u, v, CMD_SET_INTENSITY, 60);
    }
  }

  lemma {:induction false} SendAllOffTo(r: Region, sid: nat, u: Str, lamps: seq<Str>)
    requires Owns(r, sid, u) && NoDup(lamps)
    ensures var b := SendAllOff(r, lamps);
            && Owns(b, sid, u)
            && b.live[sid].q.sent == r.live[sid].q.sent + if u in lamps then OffFrames(u) else []
  {
    if lamps != [] {
      var init, v := lamps[..|lamps| - 1], lamps[|lamps| - 1];
      assert lamps == init + [v] && v !in init;
      hide SendCmd, CommandFrame, Owns;
      SendAllOffTo(r, sid, u, init);
      SendCmdTo(SendAllOff(r, init), sid, u, v, CMD_SWITCH_OFF, 0);
    }
  }

  ghost predicate NoDuplicates(v: View) { forall z: u32 :: NoDup(LampsOfZone(v, z)) }

  lemma EdgesTo(r: Region, sid: nat, u: Str, uri: Str, zone: u32, motion: u8)
    requires Owns(r, sid, u) && NoDuplicates(r.reg)
    ensures var b := Edges(r, uri, zone, motion);
            && Owns(b, sid, u)
            && b.live[sid].q.sent
               == r.live[sid].q.sent + FramesOf(Called(r, u, Telemetry(uri, zone, motion)), u)
  {
    hide SendAllOn, SendAllOff, LastMotion, OnFrames, OffFrames;
    var lamps := LampsOfZone(r.reg, zone);
    assert NoDup(lamps);
    SendAllOnTo(r.(log := r.log + [MotionOn(uri, zone)]), sid, u, lamps);
    SendAllOffTo(r.(log := r.log + [MotionOff(uri, zone)]), sid, u, lamps);
  }

  lemma TelemetryTo(r: Region, sid: nat, u: Str, uri: Str, zone: u32, motion: u8)
    requires Owns(r, sid, u) && NoDuplicates(r.reg)
    ensures var b := OnTelemetry(r, uri, zone, motion);
            && Owns(b, sid, u)
            && b.live[sid].q.sent
               == r.live[sid].q.sent + FramesOf(Called(r, u, Telemetry(uri, zone, motion)), u)
  {
    var a := SeenSensor(r, uri, zone);
    assert a.reg.zoneToLamps == r.reg.zoneToLamps && Owns(a, sid, u);
    hide Edges, Owns, SwitchTo, OnFrames, OffFrames;
    if motion <= 1 {
      SameLists(r.reg, a.reg);
      EdgesTo(a, sid, u, uri, zone, motion);
      hide SeenSensor, NoDuplicates;
    } else {
      OwnsSame(a, OnTelemetry(r, uri, zone, motion), sid, u);
    }
  }

  lemma SameLists(v: View, w: View)
    requires NoDuplicates(v) && w.zoneToLamps == v.zoneToLamps
    ensures NoDuplicates(w)
  {
    forall z: u32
      ensures NoDup(LampsOfZone(w, z))
    {
      assert NoDup(LampsOfZone(v, z));
    }
  }

  lemma OwnsSame(r: Region, b: Region, sid: nat, u: Str)
    requires Owns(r, sid, u) && b.live == r.live && b.sessions == r.sessions
    ensures Owns(b, sid, u)
  {}

  lemma OtherMessageTo(r: Region, sid: nat, u: Str, other: nat, body: seq<u8>, unixTime: u32)
    requires Owns(r, sid, u) && other in r.live && other != sid && !RegistersAs(body, u)
    ensures var b := OnMessage(r, other, body, unixTime);
            Owns(b, sid, u) && b.live[sid].q.sent == r.live[sid].q.sent
  {
    hide DecodeRegisterReq, DecodeStatus, DecodeFault, SwitchTo, Send, Upserted, LampRegistered;
  }

  // What any step of the region not on the session's socket sends to it
  lemma RegionTo(r: Region, timeoutMs: u64, i: Input, sid: nat, u: Str)
    requires Owns(r, sid, u) && NoDuplicates(r.reg) && RegionSpec.Enabled(r, timeoutMs, i) && sid < r.born
    requires !OnSocket(i, sid) && (i.Receive? ==> !RegistersAs(i.body, u))
    ensures var b := RegionSpec.Step(r, timeoutMs, i);
            Owns(b, sid, u) && b.live[sid].q.sent == r.live[sid].q.sent + FramesOf(Called(r, u, i), u)
  {
    match i
    case Telemetry(uri, zone, motion) =>
      hide *;
      TelemetryTo(r, sid, u, uri, zone, motion);
      TelemetryIsStep(r, timeoutMs, uri, zone, motion);
    case Receive(other, body, unixTime) =>
      hide OnMessage, RegistersAs, Owns;
      OtherMessageTo(r, sid, u, other, body, unixTime);
    case Tick(order) =>
      hide RaiseAll, Owns;
      RegionLaws.RaiseAllReg(r.(reg := MarkLost(r.reg, r.now, timeoutMs)), order);
      OwnsSame(r, OnTick(r, timeoutMs, order), sid, u);
    case _ =>
      hide RunPosted, DoWrite;
      PlainSendsNothing(r, timeoutMs, i, sid);
  }

  lemma TelemetryIsStep(r: Region, timeoutMs: u64, uri: Str, zone: u32, motion: u8)
    ensures RegionSpec.Step(r, timeoutMs, Telemetry(uri, zone, motion)) == OnTelemetry(r, uri, zone, motion)
  {
    hide OnTelemetry;
  }

  lemma PlainSendsNothing(r: Region, timeoutMs: u64, i: Input, sid: nat)
    requires RegionSpec.Enabled(r, timeoutMs, i) && sid in r.live && sid < r.born && !OnSocket(i, sid)
    requires !i.Telemetry? && !i.Receive? && !i.Tick?
    ensures var b := RegionSpec.Step(r, timeoutMs, i);
            sid in b.live && b.live[sid].q.sent == r.live[sid].q.sent && b.live[sid].uri == r.live[sid].uri
  {}

  // A zone's list only grows
  lemma ListsGrow(r: Region, timeoutMs: u64, i: Input, u: Str, zone: u32)
    requires RegionSpec.Enabled(r, timeoutMs, i) && u in LampsOfZone(r.reg, zone)
    ensures u in LampsOfZone(RegionSpec.Step(r, timeoutMs, i).reg, zone)
  {
    match i
    case Tick(order) =>
      hide RaiseAll;
      RegionLaws.RaiseAllReg(r.(reg := MarkLost(r.reg, r.now, timeoutMs)), order);
    case Telemetry(uri, z, motion) =>
      hide Edges, SwitchTo;
      RegionLaws.EdgesEffect(SeenSensor(r, uri, z), uri, z, motion);
    case Receive(sid, body, unixTime) =>
      hide OnMessage, Indexed, LampsOfZone;
      MessageGrows(r, sid, body, unixTime, u, zone);
    case _ => hide LampsOfZone, DoWrite, RunPosted;
  }

  lemma MessageGrows(r: Region, sid: nat, body: seq<u8>, unixTime: u32, u: Str, zone: u32)
    requires sid in r.live && u in LampsOfZone(r.reg, zone)
    ensures u in LampsOfZone(OnMessage(r, sid, body, unixTime).reg, zone)
  {
    hide DecodeRegisterReq, DecodeStatus, DecodeFault, SwitchTo, Send;
  }

  // ----- what the session has been sent

  ghost predicate Carries(p: Setup, r: Region, sid: nat, issued: seq<Frame>) {
    && Owns(r, sid, p.lamp.uri) && p.lamp.uri in LampsOfZone(r.reg, p.lamp.zone)
    && Sent(r.live[sid].q.sent, issued)
  }

  // The acknowledgement, then the commands and acknowledgements of faults
  ghost predicate Sent(sent: seq<Frame>, issued: seq<Frame>) {
    && sent != [] && sent[0].kind == REGISTER_ACK
    && (forall i :: 1 <= i < |sent| ==> sent[i].kind == CMD || sent[i].kind == FAULT_ACK)
    && CommandsIn(sent[1..]) == issued
  }

  lemma SentOn(sent: seq<Frame>, issued: seq<Frame>, more: seq<Frame>)
    requires Sent(sent, issued) && forall f <- more :: f.kind == CMD || f.kind == FAULT_ACK
    ensures Sent(sent + more, issued + CommandsIn(more))
  {
    assert (sent + more)[1..] == sent[1..] + more;
    CommandsJoin(sent[1..], more);
  }

  lemma FramesAreCommands(called: Option<u8>, u: Str)
    ensures (forall f <- FramesOf(called, u) :: f.kind == CMD) && CommandsIn(FramesOf(called, u)) == FramesOf(called, u)
  {
    AllCommands(FramesOf(called, u));
  }

  lemma RegionCarries(p: Setup, s: Joined, i: Input, issued: seq<Frame>)
    requires LinkInv(p, s) && s.got >= 1 && Carries(p, s.r, s.sid, issued)
    requires LinkSpec.Enabled(p, s, Act.Region(i)) && Alone(p, Act.Region(i))
    ensures Carries(p, RegionSpec.Step(s.r, p.timeoutMs, i), s.sid,
                    issued + FramesOf(Called(s.r, p.lamp.uri, i), p.lamp.uri))
  {
    var called := Called(s.r, p.lamp.uri, i);
    RunLists(p, s);
    hide LinkInv, Owns, NoDuplicates, RegionSpec.Step, RegionSpec.Enabled, Called, RegistersAs, FramesOf;
    RegionTo(s.r, p.timeoutMs, i, s.sid, p.lamp.uri);
    ListsGrow(s.r, p.timeoutMs, i, p.lamp.uri, p.lamp.zone);
    FramesAreCommands(called, p.lamp.uri);
    SentOn(DownQueue(s).sent, issued, FramesOf(called, p.lamp.uri));
  }

  lemma RunLists(p: Setup, s: Joined)
    requires LinkInv(p, s)
    ensures s.sid < s.r.born && NoDuplicates(s.r.reg)
  {
    RunFacts(p, s);
    hide RegionSpec.After, LampLaws.After, LampLaws.Possible, LampLaws.Inv;
    forall z: u32
      ensures NoDup(LampsOfZone(s.r.reg, z))
    {
      RegionHistory.ZoneListsInRuns(p.start, p.timeoutMs, s.inputs, z);
    }
  }

  // The lamp's registration
  lemma RegisterCarries(p: Setup, r: Region, sid: nat, unixTime: u32)
    requires Bound(r, sid) && r.live[sid].uri == [] && r.live[sid].q.sent == []
    ensures Carries(p, HandleRegister(r, sid, Registration(p), unixTime), sid, [])
  {
    var b := HandleRegister(r, sid, Registration(p), unixTime);
    assert b.live[sid].q.sent == [Frame(REGISTER_ACK, U32Bytes(unixTime))];
    assert b.live[sid].q.sent[1..] == [];
    hide U32Bytes;
  }

  lemma ReportCarries(p: Setup, r: Region, b: Region, sid: nat, issued: seq<Frame>)
    requires Carries(p, r, sid, issued) && ReportedBy(p, r, sid, b)
    ensures Carries(p, b, sid, issued)
  {
    var q := r.live[sid].q;
    var ack := [Frame(FAULT_ACK, [])];
    SentOn(q.sent, issued, ack);
    assert CommandsIn(ack) == [] by {
      assert ack[..0] == [];
    }
    assert issued + [] == issued;
    hide SwitchTo, CommandsIn;
    ReportKeepsOwner(p, r, b, sid);
    hide Owns, ReportedBy;
  }

  lemma ReportKeepsOwner(p: Setup, r: Region, b: Region, sid: nat)
    requires Owns(r, sid, p.lamp.uri) && p.lamp.uri in LampsOfZone(r.reg, p.lamp.zone) && ReportedBy(p, r, sid, b)
    ensures Owns(b, sid, p.lamp.uri) && p.lamp.uri in LampsOfZone(b.reg, p.lamp.zone)
    ensures || b.live[sid].q.sent == r.live[sid].q.sent
            || b.live[sid].q.sent == r.live[sid].q.sent + [Frame(FAULT_ACK, [])]
  {
    hide SwitchTo;
  }

  lemma UpCarries(p: Setup, s: Joined, unixTime: u32, issued: seq<Frame>)
    requires LinkInv(p, s) && s.got < |s.l.q.written|
    requires if s.got == 0 then issued == [] else Carries(p, s.r, s.sid, issued)
    ensures Carries(p, UpRegion(s, unixTime), s.sid, issued)
  {
    UpFrame(p, s);
    var f := s.l.q.written[s.got];
    hide RegionSpec.OnMessage, HandleRegister, ReportedBy, LampLaws.IsRegister, LampLaws.IsReport, AreRuns, Carries,
      Counts, Frame.Body;
    if s.got == 0 {
      UpRegisters(p, s.r, s.sid, f, unixTime);
      RegisterCarries(p, s.r, s.sid, unixTime);
    } else {
      UpReports(p, s.r, s.sid, f, unixTime);
      ReportCarries(p, s.r, UpRegion(s, unixTime), s.sid, issued);
    }
  }

  // ----- what the lamp makes of the commands

  datatype Core = Core(state: LampSpec.LampState, intensity: u8)

  function CoreOf(l: LampSpec.Lamp): Core { Core(l.state, l.intensity) }

  // A lamp with this core, whatever the rest
  function LampWith(k: Core): LampSpec.Lamp { LampSpec.Boot().(state := k.state, intensity := k.intensity) }

  function Took(c: LampSpec.Config, k: Core, f: Frame): Core {
    CoreOf(LampSpec.OnMessage(c, LampWith(k), 0, f.Body(), 0))
  }

  function TookAll(c: LampSpec.Config, k: Core, fs: seq<Frame>): Core {
    if fs == [] then k else Took(c, TookAll(c, k, fs[..|fs| - 1]), fs[|fs| - 1])
  }

  /** Without simulated faults, what a message makes of a lamp's state and intensity depends on nothing else. */
  lemma TookIsOnMessage(c: LampSpec.Config, l: LampSpec.Lamp, now: nat, f: Frame, roll: nat)
    requires c.faultPerMille <= 0
    ensures CoreOf(LampSpec.OnMessage(c, l, now, f.Body(), roll)) == Took(c, CoreOf(l), f)
  {
    hide DecodeCommand, StatusBytes, FaultBytes;
  }

  lemma {:induction false} TookAllJoins(c: LampSpec.Config, k: Core, a: seq<Frame>, b: seq<Frame>)
    ensures TookAll(c, k, a + b) == TookAll(c, TookAll(c, k, a), b)
  {
    hide Took;
    if b == [] {
      assert a + b == a;
    } else {
      assert (a + b)[..|a + b| - 1] == a + b[..|b| - 1];
      TookAllJoins(c, k, a, b[..|b| - 1]);
    }
  }

  const DARK := Core(LampSpec.OFF, 0)
  const LIT := Core(LampSpec.ON, 60)

  lemma TookCommand(c: LampSpec.Config, k: Core, u: Str, cmd: u8, value: u8)
    requires c.faultPerMille <= 0 && ShortStr(u)
    ensures Took(c, k, CommandFrame(u, cmd, value))
            == CoreOf(LampSpec.OnCommand(c, LampWith(k), Command(u, cmd, value), 0))
  {
    BodyParts(CommandFrame(u, cmd, value));
    ProtoLaws.CommandExact(CommandBytes(Command(u, cmd, value)), Command(u, cmd, value));
    hide DecodeCommand, CommandBytes, LampSpec.OnCommand;
  }

  lemma EdgeCommands(c: LampSpec.Config, k: Core, u: Str)
    requires c.faultPerMille <= 0 && ShortStr(u) && (k == DARK || k == LIT)
    ensures TookAll(c, k, OnFrames(u)) == LIT && TookAll(c, k, OffFrames(u)) == DARK
  {
    var on, set60 := CommandFrame(u, CMD_SWITCH_ON, 0), CommandFrame(u, CMD_SET_INTENSITY, 60);
    TookCommand(c, k, u, CMD_SWITCH_ON, 0);
    TookCommand(c, Took(c, k, on), u, CMD_SET_INTENSITY, 60);
    TookCommand(c, k, u, CMD_SWITCH_OFF, 0);
    assert OnFrames(u)[..1] == [on] && [on][..0] == [] && OffFrames(u)[..0] == [];
    assert TookAll(c, k, [on]) == Took(c, k, on);
    assert TookAll(c, k, OnFrames(u)) == Took(c, Took(c, k, on), set60);
    hide Took, CommandFrame, StatusBytes;
  }

  lemma FaultAckIsIgnored(c: LampSpec.Config, k: Core, f: Frame)
    requires f.kind == FAULT_ACK
    ensures Took(c, k, f) == k
  {
    BodyParts(f);
  }

  lemma {:induction false} TookCommands(c: LampSpec.Config, k: Core, fs: seq<Frame>)
    requires forall f <- fs :: f.kind == CMD || f.kind == FAULT_ACK
    ensures TookAll(c, k, fs) == TookAll(c, k, CommandsIn(fs))
  {
    if fs != [] {
      var init, f := fs[..|fs| - 1], fs[|fs| - 1];
      TookCommands(c, k, init);
      hide Took;
      if f.kind == CMD {
        assert CommandsIn(fs)[..|CommandsIn(fs)| - 1] == CommandsIn(init);
      } else {
        assert CommandsIn(fs) == CommandsIn(init);
        FaultAckIsIgnored(c, TookAll(c, k, init), f);
      }
    }
  }

  function Shown(called: Option<u8>): Core { if called == Some(1) then LIT else DARK }

  lemma FramesSettle(c: LampSpec.Config, before: Option<u8>, called: Option<u8>, u: Str)
    requires c.faultPerMille <= 0 && ShortStr(u)
    ensures TookAll(c, Shown(before), FramesOf(called, u)) == Shown(Later(before, called))
  {
    EdgeCommands(c, Shown(before), u);
    hide OnFrames, OffFrames, Took;
  }

  /** Whatever came before, a lamp that has taken every command called for since its registration shows the last. */
  lemma {:induction false} CommandsSettle(p: Setup, trace: seq<Joined>, acts: seq<Act>, k: nat)
    requires p.lamp.faultPerMille <= 0 && k <= |acts| < |trace|
    ensures TookAll(p.lamp, DARK, Issued(p, trace, acts, k)) == Shown(LastCalled(p, trace, acts, k))
  {
    hide TookAll, Called, FramesOf, Shown, Later;
    if k == 0 {
      TookNone(p.lamp, DARK);
      assert Shown(None) == DARK by {
        NothingShown();
      }
    } else {
      var called := CalledBy(p, trace[k - 1], acts[k - 1]);
      CommandsSettle(p, trace, acts, k - 1);
      TookAllJoins(p.lamp, DARK, Issued(p, trace, acts, k - 1), FramesOf(called, p.lamp.uri));
      FramesSettle(p.lamp, LastCalled(p, trace, acts, k - 1), called, p.lamp.uri);
    }
  }

  lemma NothingShown()
    ensures Shown(None) == DARK
  {}

  lemma TookNone(c: LampSpec.Config, k: Core)
    ensures TookAll(c, k, []) == k
  {}

  // The lamp has taken the session's first frames
  ghost predicate LampMotion(p: Setup, s: Joined) {
    && s.sid in s.r.live && s.taken <= |DownQueue(s).sent|
    && (s.taken >= 1 ==> CoreOf(s.l) == TookAll(p.lamp, DARK, DownQueue(s).sent[1..s.taken]))
  }

  lemma TimersKeepCore(p: Setup, s: Joined, e: LampSpec.Event)
    requires LampLaws.StateInv(p.lamp, s.l) && s.l.link == LampSpec.Connected && !e.Message? && LampMay(p, s, e)
    ensures CoreOf(LampSpec.Step(p.lamp, s.l, s.r.now, e)) == CoreOf(s.l)
  {}

  lemma FirstDown(c: LampSpec.Config, l: LampSpec.Lamp, now: nat, f: Frame, roll: nat)
    requires l.state == LampSpec.REGISTERING && f.kind == REGISTER_ACK
    ensures CoreOf(LampSpec.OnMessage(c, l, now, f.Body(), roll)) == DARK
  {
    BodyParts(f);
    hide StatusBytes, Frame.Body;
  }

  // The next frame the lamp takes
  lemma TakenIsSent(p: Setup, s: Joined)
    requires LinkInv(p, s) && s.taken < |DownQueue(s).written|
    ensures s.taken < |DownQueue(s).sent| && DownQueue(s).written[s.taken] == DownQueue(s).sent[s.taken]
    ensures s.taken == 0 ==> DownQueue(s).sent[0].kind == REGISTER_ACK && s.l.state == LampSpec.REGISTERING
  {
    RunFacts(p, s);
    hide AreRuns, RegionLaws.SeenInv, LampLaws.Inv, Bound;
  }

  lemma DownMotion(p: Setup, s: Joined, roll: nat)
    requires LinkInv(p, s) && LampMotion(p, s) && p.lamp.faultPerMille <= 0
    requires s.taken < |DownQueue(s).written|
    ensures s.taken < |DownQueue(s).sent|
    ensures var f := DownQueue(s).written[s.taken];
            CoreOf(LampSpec.OnMessage(p.lamp, s.l, s.r.now, f.Body(), roll))
            == TookAll(p.lamp, DARK, DownQueue(s).sent[1..s.taken + 1])
  {
    hide LampSpec.OnMessage, Took, Frame.Body;
    TakenIsSent(p, s);
    hide LinkInv;
    var sent, f := DownQueue(s).sent, DownQueue(s).written[s.taken];
    if s.taken == 0 {
      FirstDown(p.lamp, s.l, s.r.now, f, roll);
      assert sent[1..1] == [];
      TookNone(p.lamp, DARK);
    } else {
      TookIsOnMessage(p.lamp, s.l, s.r.now, f, roll);
      assert sent[1..s.taken + 1][..s.taken - 1] == sent[1..s.taken];
    }
  }

  // What the region adds to the queue does not change what was taken
  lemma RegionKeepsLampMotion(p: Setup, s: Joined, t: Joined)
    requires LampMotion(p, s) && t.l == s.l && t.taken == s.taken
    requires t.sid == s.sid && t.sid in t.r.live && DownQueue(s).sent <= DownQueue(t).sent
    ensures LampMotion(p, t)
  {
    assert s.taken >= 1 ==> DownQueue(t).sent[1..s.taken] == DownQueue(s).sent[1..s.taken];
  }

  lemma LampMotionStep(p: Setup, s: Joined, a: Act)
    requires LinkInv(p, s) && LampMotion(p, s) && LinkSpec.Enabled(p, s, a) && p.lamp.faultPerMille <= 0
    ensures LampMotion(p, LinkSpec.Step(p, s, a))
  {
    match a
    case Region(i) =>
      hide LampMotion, RegionSpec.Step, RegionSpec.Enabled;
      RunLists(p, s);
      RegionPasses(s.r, p.timeoutMs, i, s.sid);
      RegionKeepsLampMotion(p, s, LinkSpec.Step(p, s, a));
    case Up(unixTime) =>
      hide LampMotion, RegionSpec.OnMessage;
      UpEffect(p, s, unixTime);
      assert LinkSpec.Step(p, s, a).r == UpRegion(s, unixTime);
      RegionKeepsLampMotion(p, s, LinkSpec.Step(p, s, a));
    case Lamp(e) =>
      hide LampSpec.Step, TookAll;
      LampKeepsMotion(p, s, e);
    case Down(roll) =>
      hide LampSpec.OnMessage, TookAll, Frame.Body, LinkInv;
      DownMotion(p, s, roll);
      DownShape(p, s, roll);
  }

  lemma LampKeepsMotion(p: Setup, s: Joined, e: LampSpec.Event)
    requires LinkInv(p, s) && LampMotion(p, s) && !e.Message? && LampMay(p, s, e)
    ensures LampMotion(p, LampTakes(p, s, e))
  {
    RunFacts(p, s);
    TimersKeepCore(p, s, e);
    hide LampSpec.Step, LinkInv, Facts, TookAll, Stamps;
  }

  lemma DownShape(p: Setup, s: Joined, roll: nat)
    requires s.sid in s.r.live && s.taken < |DownQueue(s).written|
    ensures var t := LinkSpec.Step(p, s, Down(roll));
            && t.r == s.r && t.got == s.got && t.sid == s.sid && t.taken == s.taken + 1
            && t.l == LampSpec.OnMessage(p.lamp, s.l, s.r.now, DownQueue(s).written[s.taken].Body(), roll)
  {
    hide LampSpec.OnMessage, Stamps, Frame.Body;
  }

  // ----- the two invariants over a run

  ghost predicate Following(p: Setup, s: Joined, issued: seq<Frame>, last: Option<u8>) {
    if s.got == 0 then issued == [] && last == None else Carries(p, s.r, s.sid, issued)
  }

  lemma FollowingStep(p: Setup, s: Joined, a: Act, issued: seq<Frame>, last: Option<u8>)
    requires LinkInv(p, s) && Following(p, s, issued, last) && LinkSpec.Enabled(p, s, a) && Alone(p, a)
    ensures var called := CalledBy(p, s, a);
            Following(p, LinkSpec.Step(p, s, a), issued + FramesOf(called, p.lamp.uri), Later(last, called))
  {
    hide Carries, RegionSpec.Step, LampSpec.Step, RegionSpec.Enabled, LampMay, Called;
    assert issued + [] == issued;
    match a
    case Region(i) =>
      if s.got >= 1 {
        RegionCarries(p, s, i, issued);
      }
    case Up(unixTime) =>
      UpCarries(p, s, unixTime, issued);
      UpIsStep(p, s, unixTime);
    case _ =>
  }

  lemma UpIsStep(p: Setup, s: Joined, unixTime: u32)
    requires s.sid in s.r.live && s.got < |s.l.q.written|
    ensures var t := LinkSpec.Step(p, s, Up(unixTime));
            t.r == UpRegion(s, unixTime) && t.got == s.got + 1 && t.sid == s.sid
  {
    hide RegionSpec.OnMessage;
  }

  lemma BeginFollows(p: Setup, trace: seq<Joined>, acts: seq<Act>)
    requires IsRun(p, trace, acts)
    ensures Following(p, trace[0], [], None) && LampMotion(p, trace[0])
  {
    FirstInv(p, trace, acts);
    var inputs, events :| CanBegin(p, inputs, events) && trace[0] == Begin(p, inputs, events);
    hide RegionSpec.After, LampLaws.After, LampSpec.Step, CanBegin, Carries, AreRuns, Follows;
  }

  lemma {:induction false} RunFollows(p: Setup, trace: seq<Joined>, acts: seq<Act>, k: nat)
    requires SoleRun(p, trace, acts) && k <= |acts|
    ensures Following(p, trace[k], Issued(p, trace, acts, k), LastCalled(p, trace, acts, k))
    ensures p.lamp.faultPerMille <= 0 ==> LampMotion(p, trace[k])
  {
    hide Following, LampMotion, LinkInv, LinkSpec.Enabled, LinkSpec.Step, CanBegin, Begin, Alone, FramesOf, CalledBy;
    if k == 0 {
      BeginFollows(p, trace, acts);
    } else {
      RunFollows(p, trace, acts, k - 1);
      LinkInvariant(p, trace, acts, k - 1);
      assert Follows(p, trace[k - 1], acts[k - 1], trace[k - 1 + 1]);
      FollowingStep(p, trace[k - 1], acts[k - 1], Issued(p, trace, acts, k - 1), LastCalled(p, trace, acts, k - 1));
      if p.lamp.faultPerMille <= 0 {
        LampMotionStep(p, trace[k - 1], acts[k - 1]);
      }
    }
  }

  // ----- the lamp against one sensor

  // Nothing missed, or an even number of edges
  ghost predicate InStep(s: Joined, sensor: Str, last: Option<u8>, missed: nat) {
    && LastMotion(s.r, sensor) <= 1
    && (s.got >= 1 ==> (Shown(last) == Shown(Some(LastMotion(s.r, sensor))) <==> Even(missed)))
  }

  lemma RegionInStep(p: Setup, sensor: Str, s: Joined, t: Joined, i: Input, last: Option<u8>, missed: nat)
    requires OneSensor(p, sensor, s, Act.Region(i)) && InStep(s, sensor, last, missed)
    requires s.got >= 1 ==> p.lamp.uri in LampsOfZone(s.r.reg, p.lamp.zone)
    requires t.got == s.got
    requires t.r.lastMotion
             == if i.Telemetry? && (i.motion == 0 || i.motion == 1) then s.r.lastMotion[i.uri := i.motion]
                else s.r.lastMotion
    ensures InStep(t, sensor, Later(last, CalledBy(p, s, Act.Region(i))), MissedBy(s, Act.Region(i), sensor, missed))
  {
    hide LampsOfZone;
  }

  lemma UpInStep(p: Setup, sensor: Str, s: Joined, t: Joined, unixTime: u32, last: Option<u8>, missed: nat)
    requires InStep(s, sensor, last, missed) && (s.got == 0 ==> last == None)
    requires t.got == s.got + 1 && t.r.lastMotion == s.r.lastMotion
    ensures InStep(t, sensor, Later(last, CalledBy(p, s, Up(unixTime))), MissedBy(s, Up(unixTime), sensor, missed))
  {}

  lemma InStepStep(p: Setup, sensor: Str, s: Joined, a: Act, issued: seq<Frame>, last: Option<u8>, missed: nat)
    requires LinkInv(p, s) && LinkSpec.Enabled(p, s, a) && OneSensor(p, sensor, s, a)
    requires Following(p, s, issued, last) && InStep(s, sensor, last, missed)
    ensures InStep(LinkSpec.Step(p, s, a), sensor, Later(last, CalledBy(p, s, a)), MissedBy(s, a, sensor, missed))
  {
    var t := LinkSpec.Step(p, s, a);
    assert s.got == 0 ==> last == None;
    assert s.got >= 1 ==> p.lamp.uri in LampsOfZone(s.r.reg, p.lamp.zone);
    hide LampSpec.Step, Following, LinkInv, LampMay, LampsOfZone, InStep, OneSensor, CalledBy, MissedBy, Stamps;
    match a
    case Region(i) =>
      RegionSessions.LastMotionStep(s.r, p.timeoutMs, i);
      hide RegionSpec.Step, RegionSpec.Enabled;
      RegionInStep(p, sensor, s, t, i, last, missed);
    case Up(unixTime) =>
      RegionSessions.MessageKeepsMotion(s.r, s.sid, s.l.q.written[s.got].Body(), unixTime);
      UpIsStep(p, s, unixTime);
      hide RegionSpec.OnMessage, LinkSpec.Step;
      UpInStep(p, sensor, s, t, unixTime, last, missed);
    case Lamp(_) => LampInStep(p, sensor, s, t, a, last, missed);
    case Down(_) => LampInStep(p, sensor, s, t, a, last, missed);
  }

  lemma LampInStep(p: Setup, sensor: Str, s: Joined, t: Joined, a: Act, last: Option<u8>, missed: nat)
    requires InStep(s, sensor, last, missed) && (a.Lamp? || a.Down?) && t.got == s.got && t.r == s.r
    ensures InStep(t, sensor, Later(last, CalledBy(p, s, a)), MissedBy(s, a, sensor, missed))
  {}

  lemma BeginInStep(p: Setup, sensor: Str, trace: seq<Joined>, acts: seq<Act>)
    requires IsRun(p, trace, acts)
    ensures InStep(trace[0], sensor, None, 0)
  {
    FirstInv(p, trace, acts);
    RegionSessions.MotionHolds(p.start, p.timeoutMs, trace[0].inputs, sensor);
    var inputs, events :| CanBegin(p, inputs, events) && trace[0] == Begin(p, inputs, events);
    hide RegionSpec.After, LampLaws.After, LampSpec.Step, CanBegin, Follows, RegionSpec.Possible, LampLaws.Possible,
      Bound, SessionPhase, Counts, Shown;
  }

  lemma {:induction false} RunInStep(p: Setup, sensor: Str, trace: seq<Joined>, acts: seq<Act>, k: nat)
    requires OneSensorRun(p, sensor, trace, acts) && k <= |acts|
    ensures InStep(trace[k], sensor, LastCalled(p, trace, acts, k), Missed(p, sensor, trace, acts, k))
  {
    hide Following, LinkInv, LinkSpec.Enabled, LinkSpec.Step, CanBegin, Begin, OneSensor, CalledBy, MissedBy, InStep,
      Issued, LampMotion;
    if k == 0 {
      BeginInStep(p, sensor, trace, acts);
    } else {
      LinkInvariant(p, trace, acts, k - 1);
      RunInStep(p, sensor, trace, acts, k - 1);
      RunFollows(p, trace, acts, k - 1);
      assert Follows(p, trace[k - 1], acts[k - 1], trace[k - 1 + 1]);
      InStepStep(p, sensor, trace[k - 1], acts[k - 1], Issued(p, trace, acts, k - 1), LastCalled(p, trace, acts, k - 1),
                 Missed(p, sensor, trace, acts, k - 1));
    }
  }

  lemma {:induction false} ServedMissesNothing(p: Setup, sensor: Str, trace: seq<Joined>, acts: seq<Act>, k: nat)
    requires k <= |acts| < |trace| && LastEdgeServed(sensor, trace, acts, k)
    ensures Missed(p, sensor, trace, acts, k) == 0
  {
    if k > 0 && LastEdgeServed(sensor, trace, acts, k - 1) {
      ServedMissesNothing(p, sensor, trace, acts, k - 1);
    }
  }

  // ----- the results

  // The lamp after taking these frames
  function TakesAll(c: LampSpec.Config, l: LampSpec.Lamp, now: nat, fs: seq<Frame>): LampSpec.Lamp {
    if fs == [] then l
    else LampSpec.OnMessage(c, TakesAll(c, l, now, fs[..|fs| - 1]), now, fs[|fs| - 1].Body(), 0)
  }

  // The lamp once it has taken everything its session has in flight, queued or posted
  function Settled(p: Setup, s: Joined): LampSpec.Lamp
    requires s.sid in s.r.live && s.taken <= |DownQueue(s).sent|
  {
    TakesAll(p.lamp, s.l, s.r.now, DownQueue(s).sent[s.taken..])
  }

  lemma {:induction false} TakesAllCore(c: LampSpec.Config, l: LampSpec.Lamp, now: nat, fs: seq<Frame>)
    requires c.faultPerMille <= 0
    ensures CoreOf(TakesAll(c, l, now, fs)) == TookAll(c, CoreOf(l), fs)
  {
    hide LampSpec.OnMessage, Took;
    if fs != [] {
      var init := fs[..|fs| - 1];
      TakesAllCore(c, l, now, init);
      TookIsOnMessage(c, TakesAll(c, l, now, init), now, fs[|fs| - 1], 0);
    }
  }

  lemma AcknowledgementDarkens(c: LampSpec.Config, k: Core, f: Frame)
    requires k.state == LampSpec.REGISTERING && f.kind == REGISTER_ACK
    ensures Took(c, k, f) == DARK
  {
    BodyParts(f);
    hide StatusBytes;
  }

  lemma SettledFresh(c: LampSpec.Config, k: Core, sent: seq<Frame>)
    requires k.state == LampSpec.REGISTERING && sent != [] && sent[0].kind == REGISTER_ACK
    ensures TookAll(c, k, sent) == TookAll(c, DARK, sent[1..])
  {
    AcknowledgementDarkens(c, k, sent[0]);
    TookOne(c, k, sent[0]);
    hide Took, TookAll;
    assert sent == [sent[0]] + sent[1..];
    TookAllJoins(c, k, [sent[0]], sent[1..]);
  }

  lemma SettledLater(c: LampSpec.Config, k: Core, sent: seq<Frame>, taken: nat)
    requires 1 <= taken <= |sent| && k == TookAll(c, DARK, sent[1..taken])
    ensures TookAll(c, k, sent[taken..]) == TookAll(c, DARK, sent[1..])
  {
    hide Took, TookAll;
    assert sent[1..] == sent[1..taken] + sent[taken..];
    TookAllJoins(c, DARK, sent[1..taken], sent[taken..]);
  }

  // Everything the session has sent, taken from the acknowledgement on
  lemma SettledCore(p: Setup, s: Joined)
    requires LinkInv(p, s) && LampMotion(p, s) && s.got >= 1 && p.lamp.faultPerMille <= 0
    ensures s.taken <= |DownQueue(s).sent|
    ensures CoreOf(Settled(p, s)) == TookAll(p.lamp, DARK, DownQueue(s).sent[1..])
  {
    var sent := DownQueue(s).sent;
    assert s.taken == 0 ==> s.l.state == LampSpec.REGISTERING;
    assert sent != [] && sent[0].kind == REGISTER_ACK;
    hide LinkInv, TakesAll, Took, TookAll;
    TakesAllCore(p.lamp, s.l, s.r.now, sent[s.taken..]);
    if s.taken == 0 {
      assert sent[0..] == sent;
      SettledFresh(p.lamp, CoreOf(s.l), sent);
    } else {
      SettledLater(p.lamp, CoreOf(s.l), sent, s.taken);
    }
  }

  lemma TookOne(c: LampSpec.Config, k: Core, f: Frame)
    ensures TookAll(c, k, [f]) == Took(c, k, f)
  {
    assert [f][..0] == [];
    hide Took;
  }

  /** In every run of a live connection in which no other session registers the lamp: after the acknowledgement the
      session has been sent exactly the commands called for since the registration, in order, by the edges that came in
      NORMAL_OPERATION in a zone that lists the lamp; and besides them only acknowledgements of faults. */
  lemma SessionIsSentItsCommands(p: Setup, trace: seq<Joined>, acts: seq<Act>, k: nat)
    requires SoleRun(p, trace, acts) && k <= |acts| && trace[k].got >= 1
    ensures var s := trace[k];
            && s.sid in s.r.live && DownQueue(s).sent != []
            && DownQueue(s).sent[0].kind == REGISTER_ACK
            && CommandsIn(DownQueue(s).sent[1..]) == Issued(p, trace, acts, k)
            && forall f <- DownQueue(s).sent[1..] :: f.kind == CMD || f.kind == FAULT_ACK
  {
    RunFollows(p, trace, acts, k);
    assert Carries(p, trace[k].r, trace[k].sid, Issued(p, trace, acts, k));
    hide SoleRun, Issued, CommandsIn, LampMotion;
  }

  /** And if the lamp simulates no faults: once it has taken what is queued or in flight, it is on at 60 if the last
      command called for was on, and off at 0 if it was off or there was none, whatever came before. */
  lemma LampShowsLastCommand(p: Setup, trace: seq<Joined>, acts: seq<Act>, k: nat)
    requires SoleRun(p, trace, acts) && k <= |acts| && trace[k].got >= 1 && p.lamp.faultPerMille <= 0
    ensures var s := trace[k];
            && s.sid in s.r.live && s.taken <= |DownQueue(s).sent|
            && CoreOf(Settled(p, s)) == Shown(LastCalled(p, trace, acts, k))
  {
    var s := trace[k];
    RunFollows(p, trace, acts, k);
    LinkInvariant(p, trace, acts, k);
    SessionIsSentItsCommands(p, trace, acts, k);
    SettledCore(p, s);
    hide LinkInv, SoleRun, LampMotion, Following, Settled, TookAll, CommandsIn, Issued, LastCalled, Shown;
    TookCommands(p.lamp, DARK, DownQueue(s).sent[1..]);
    CommandsSettle(p, trace, acts, k);
  }

  /** With one sensor: the settled lamp shows the sensor's lastMotion (on at 60 for 1, off at 0 for 0) exactly when an
      even number of edges has been missed. None is missed once the last edge since the registration came in
      NORMAL_OPERATION. */
  lemma LampFollowsMotion(p: Setup, sensor: Str, trace: seq<Joined>, acts: seq<Act>, k: nat)
    requires OneSensorRun(p, sensor, trace, acts) && k <= |acts| && trace[k].got >= 1 && p.lamp.faultPerMille <= 0
    ensures var s := trace[k];
            && s.sid in s.r.live && s.taken <= |DownQueue(s).sent| && LastMotion(s.r, sensor) <= 1
            && var follows := CoreOf(Settled(p, s)) == Shown(Some(LastMotion(s.r, sensor)));
               && (follows <==> Even(Missed(p, sensor, trace, acts, k)))
               && (LastEdgeServed(sensor, trace, acts, k) ==> follows)
  {
    hide *;
    OneSensorRuns(p, sensor, trace, acts);
    LampShowsLastCommand(p, trace, acts, k);
    RunInStep(p, sensor, trace, acts, k);
    InStepMeans(trace[k], sensor, LastCalled(p, trace, acts, k), Missed(p, sensor, trace, acts, k));
    if LastEdgeServed(sensor, trace, acts, k) {
      ServedMissesNothing(p, sensor, trace, acts, k);
      SensorLaws.ZeroIsEven();
    }
  }

  lemma OneSensorRuns(p: Setup, sensor: Str, trace: seq<Joined>, acts: seq<Act>)
    requires OneSensorRun(p, sensor, trace, acts)
    ensures SoleRun(p, trace, acts) && |trace| == |acts| + 1
  {
    hide OneSensor, Alone, Follows, CanBegin, Begin;
  }

  lemma InStepMeans(s: Joined, sensor: Str, last: Option<u8>, missed: nat)
    requires InStep(s, sensor, last, missed) && s.got >= 1
    ensures LastMotion(s.r, sensor) <= 1
    ensures Shown(last) == Shown(Some(LastMotion(s.r, sensor))) <==> Even(missed)
  {}

  /** If all packets of the sensor have arrived in order: the settled lamp shows what the sensor sees now exactly when
      the changes the sensor has hidden and the edges the lamp has missed are even together. */
  lemma LampFollowsSensor(p: Setup, sensor: Str, trace: seq<Joined>, acts: seq<Act>, k: nat,
                          a: SensorSpec.Arguments, ticks: seq<SensorSpec.Event>)
    requires OneSensorRun(p, sensor, trace, acts) && k <= |acts| && trace[k].got >= 1 && p.lamp.faultPerMille <= 0
    requires SensorLaws.Possible(a, ticks)
    requires SensorLaws.Motions(trace[k].inputs, sensor) == SensorLaws.Carried(SensorLaws.After(a, ticks).sent)
    ensures var s := trace[k];
            && s.sid in s.r.live && s.taken <= |DownQueue(s).sent|
            && (CoreOf(Settled(p, s)) == Shown(Some(SensorLaws.After(a, ticks).prev.motion))
                <==> Even(Missed(p, sensor, trace, acts, k) + SensorLaws.Hidden(a, ticks)))
  {
    hide *;
    OneSensorRuns(p, sensor, trace, acts);
    LampFollowsMotion(p, sensor, trace, acts, k);
    LampShows(p, sensor, trace, acts, k);
    RegionInputs(p, sensor, trace, acts, k);
    MotionIsLevel(a, ticks);
    SensorLaws.ServerMirrorsSensor(a, ticks, p.start, p.timeoutMs, trace[k].inputs, sensor);
    TwoParities(CoreOf(Settled(p, trace[k])), LastMotion(trace[k].r, sensor), SensorLaws.After(a, ticks).prev.motion,
                Missed(p, sensor, trace, acts, k), SensorLaws.Hidden(a, ticks));
  }

  lemma MotionIsLevel(a: SensorSpec.Arguments, ticks: seq<SensorSpec.Event>)
    requires SensorLaws.Possible(a, ticks)
    ensures SensorLaws.After(a, ticks).prev.motion <= 1
  {
    SensorLaws.SensorInvariant(a, ticks);
  }

  lemma RegionInputs(p: Setup, sensor: Str, trace: seq<Joined>, acts: seq<Act>, k: nat)
    requires OneSensorRun(p, sensor, trace, acts) && k <= |acts|
    ensures RegionSpec.Possible(p.start, p.timeoutMs, trace[k].inputs)
    ensures trace[k].r == RegionSpec.After(p.start, p.timeoutMs, trace[k].inputs)
  {
    LinkInvariant(p, trace, acts, k);
    hide IsRun, RegionSpec.After, LampLaws.After, RegionSpec.Possible, LampLaws.Possible, Bound, Counts;
  }

  lemma LampShows(p: Setup, sensor: Str, trace: seq<Joined>, acts: seq<Act>, k: nat)
    requires OneSensorRun(p, sensor, trace, acts) && k <= |acts| && trace[k].got >= 1 && p.lamp.faultPerMille <= 0
    ensures trace[k].sid in trace[k].r.live && trace[k].taken <= |DownQueue(trace[k]).sent|
    ensures CoreOf(Settled(p, trace[k])) == DARK || CoreOf(Settled(p, trace[k])) == LIT
  {
    hide IsRun, LastCalled, Settled, OneSensor, Alone, DownQueue;
    LampShowsLastCommand(p, trace, acts, k);
  }

  lemma TwoParities(core: Core, last: u8, now: u8, missed: nat, hidden: nat)
    requires last <= 1 && now <= 1 && (core == DARK || core == LIT)
    requires (core == Shown(Some(last)) <==> Even(missed)) && (last == now <==> Even(hidden))
    ensures core == Shown(Some(now)) <==> Even(missed + hidden)
  {}
}
