/** Runs of connections: motion lights a lamp and its heartbeats arrive; a lamp that has moved still follows its old
    zone; a lamp misses an edge that comes while the server handles a fault. */
module LinkExample {
  import opened Basics
  import opened Proto
  import opened Framing
  import opened WriteQueue
  import opened DeviceRegistry
  import opened LinkSpec
  import opened LinkLaws
  import opened RegionSpec
  import opened LinkTiming
  import opened LinkMotion
  import opened LinkProgress
  import RegionLaws
  import LampSpec
  import LampLaws
  import ProtoLaws

  // ----- a lamp registers

  function RegisterFrame(p: Setup): Frame { Frame(REGISTER_REQ, RegisterReqBytes(Registration(p))) }

  lemma Boots(p: Setup, inputs: seq<Input>)
    requires RegionSpec.Possible(p.start, p.timeoutMs, inputs)
    ensures var s, r := Begin(p, inputs, []), RegionSpec.After(p.start, p.timeoutMs, inputs);
            && CanBegin(p, inputs, []) && s.sid in s.r.live
            && s.r == r.(live := s.r.live, born := s.r.born)
            && s.l.q.posted == [RegisterFrame(p)] && s.l.q.outQ == [] && !s.l.q.writing && s.l.q.written == []
            && s.l.link == LampSpec.Connected && !s.l.pendingFault && s.l.state == LampSpec.REGISTERING
            && s.got == 0
  {
    hide RegionSpec.After, RegisterReqBytes;
  }

  lemma Writes(p: Setup, s: Joined)
    requires s.sid in s.r.live && s.l.link == LampSpec.Connected && !s.l.pendingFault
    requires s.l.q.posted == [RegisterFrame(p)] && s.l.q.outQ == [] && !s.l.q.writing && s.l.q.written == []
    ensures var t := LinkSpec.Step(p, s, Lamp(LampSpec.RunPosted));
            var v := LinkSpec.Step(p, t, Lamp(LampSpec.Written));
            && LinkSpec.Enabled(p, s, Lamp(LampSpec.RunPosted)) && LinkSpec.Enabled(p, t, Lamp(LampSpec.Written))
            && t.r == s.r && v.r == s.r && t.sid == v.sid == s.sid && t.got == v.got == s.got
            && v.l.q.written == [RegisterFrame(p)] && v.l.state == s.l.state
  {
    hide RegisterFrame, Stamps;
  }

  lemma Registers(p: Setup, s: Joined)
    requires s.sid in s.r.live && s.l.q.written == [RegisterFrame(p)] && s.got == 0
    ensures var t := LinkSpec.Step(p, s, Up(0));
            && LinkSpec.Enabled(p, s, Up(0))
            && t.sid == s.sid && t.sid in t.r.live && t.got == 1 && t.l == s.l
            && t.r.fsm == s.r.fsm && t.r.lastMotion == s.r.lastMotion && t.r.now == s.r.now
            && p.lamp.uri in LampsOfZone(t.r.reg, p.lamp.zone)
            && (forall z: u32 :: p.lamp.uri in LampsOfZone(s.r.reg, z) ==> p.lamp.uri in LampsOfZone(t.r.reg, z))
            && t.inputs == s.inputs + [Receive(s.sid, RegisterFrame(p).Body(), 0)]
  {
    UpRegisters(p, s.r, s.sid, RegisterFrame(p), 0);
    hide RegionSpec.OnMessage, RegionSpec.HandleRegister, RegisterFrame, Stamps, Frame.Body;
    var r := RegionSpec.HandleRegister(s.r, s.sid, Registration(p), 0);
    assert UpRegion(s, 0) == r;
    RegisterIndexes(p, s.r, s.sid);
  }

  lemma RegisterIndexes(p: Setup, r: Region, sid: nat)
    requires sid in r.live
    ensures var b := RegionSpec.HandleRegister(r, sid, Registration(p), 0);
            && sid in b.live && b.fsm == r.fsm && b.lastMotion == r.lastMotion && b.now == r.now
            && p.lamp.uri in LampsOfZone(b.reg, p.lamp.zone)
            && (forall z: u32 :: p.lamp.uri in LampsOfZone(r.reg, z) ==> p.lamp.uri in LampsOfZone(b.reg, z))
  {
    hide Codec.U32Bytes, Send;
  }

  // The state after the registration, on top of the region after the inputs
  ghost predicate IsRegistered(p: Setup, inputs: seq<Input>, s: Joined) {
    var r := RegionSpec.After(p.start, p.timeoutMs, inputs);
    && s.got == 1 && s.sid in s.r.live && s.l.state == LampSpec.REGISTERING
    && s.r.fsm == r.fsm && s.r.lastMotion == r.lastMotion && s.r.now == r.now
    && p.lamp.uri in LampsOfZone(s.r.reg, p.lamp.zone)
    && (forall z: u32 :: p.lamp.uri in LampsOfZone(r.reg, z) ==> p.lamp.uri in LampsOfZone(s.r.reg, z))
    && exists sid, body :: s.inputs == inputs + [Accept] + [Receive(sid, body, 0)]
  }

  lemma GoodStart(p: Setup, sensor: Str, delay: nat, inputs: seq<Input>)
    requires CanBegin(p, inputs, [])
    ensures Good(p, delay, [Begin(p, inputs, [])], []) && OneSensorRun(p, sensor, [Begin(p, inputs, [])], [])
  {
    hide CanBegin, Begin;
    var trace := [Begin(p, inputs, [])];
    assert IsRun(p, trace, []) by {
      assert CanBegin(p, inputs, []) && trace[0] == Begin(p, inputs, []);
    }
  }

  lemma QuietActs(p: Setup, sensor: Str, delay: nat, s: Joined, a: Act)
    requires a.Lamp? || a.Up?
    ensures Alone(p, a) && OneSensor(p, sensor, s, a) && Timely(delay, s, a) && CalledBy(p, s, a) == None
    ensures forall last :: Later(last, CalledBy(p, s, a)) == last
    ensures forall before :: MissedBy(s, a, sensor, before)
                             == if a.Up? && s.got == 0 then LastMotion(s.r, sensor) else before
  {}

  lemma NoHistory(p: Setup, sensor: Str, s: Joined)
    ensures LastCalled(p, [s], [], 0) == None && Missed(p, sensor, [s], [], 0) == 0
  {}

  lemma LampRegisters(p: Setup, sensor: Str, delay: nat, inputs: seq<Input>)
    returns (trace: seq<Joined>, acts: seq<Act>)
    requires RegionSpec.Possible(p.start, p.timeoutMs, inputs)
    ensures Good(p, delay, trace, acts) && OneSensorRun(p, sensor, trace, acts)
    ensures |trace| == |acts| + 1 && IsRegistered(p, inputs, End(trace))
    ensures LastCalled(p, trace, acts, |acts|) == None
    ensures Missed(p, sensor, trace, acts, |acts|)
            == LastMotion(RegionSpec.After(p.start, p.timeoutMs, inputs), sensor)
  {
    hide *;
    var s := Begin(p, inputs, []);
    Boots(p, inputs);
    GoodStart(p, sensor, delay, inputs);
    NoHistory(p, sensor, s);
    Writes(p, s);
    var s1 := LinkSpec.Step(p, s, Lamp(LampSpec.RunPosted));
    var s2 := LinkSpec.Step(p, s1, Lamp(LampSpec.Written));
    Registers(p, s2);
    var s3 := LinkSpec.Step(p, s2, Up(0));
    QuietActs(p, sensor, delay, s, Lamp(LampSpec.RunPosted));
    QuietActs(p, sensor, delay, s1, Lamp(LampSpec.Written));
    QuietActs(p, sensor, delay, s2, Up(0));
    EndOfGrown([], s);
    assert [] + [s] == [s];
    var t1, b1 := Grow(p, sensor, delay, [s], [], Lamp(LampSpec.RunPosted));
    EndOfGrown([s], s1);
    var t2, b2 := Grow(p, sensor, delay, t1, b1, Lamp(LampSpec.Written));
    EndOfGrown(t1, s2);
    trace, acts := Grow(p, sensor, delay, t2, b2, Up(0));
    EndOfGrown(t2, s3);
    RegisteredIs(p, inputs, s, s2, s3);
    SameMotion(s2.r, RegionSpec.After(p.start, p.timeoutMs, inputs), sensor);
  }

  lemma SameMotion(a: Region, b: Region, sensor: Str)
    requires a.lastMotion == b.lastMotion
    ensures LastMotion(a, sensor) == LastMotion(b, sensor)
  {}

  lemma RegisteredIs(p: Setup, inputs: seq<Input>, s: Joined, s2: Joined, t: Joined)
    requires RegionSpec.Possible(p.start, p.timeoutMs, inputs) && s == Begin(p, inputs, [])
    requires var s1 := LinkSpec.Step(p, s, Lamp(LampSpec.RunPosted));
             s.sid in s.r.live && s1.sid in s1.r.live && s2 == LinkSpec.Step(p, s1, Lamp(LampSpec.Written))
    requires s2.sid in s2.r.live && s2.l.q.written == [RegisterFrame(p)] && s2.got == 0 && s2.r == s.r
    requires t == LinkSpec.Step(p, s2, Up(0)) && s2.l.state == LampSpec.REGISTERING
    ensures IsRegistered(p, inputs, t)
  {
    Boots(p, inputs);
    Registers(p, s2);
    assert s2.inputs == inputs + [Accept] by {
      hide RegionSpec.Step, LampSpec.Step, Stamps, RegionSpec.After;
    }
    hide LinkSpec.Step, Begin, RegionSpec.After, RegisterFrame, Frame.Body, CanBegin;
  }

  // ----- motion lights the lamp

  lemma Reading(p: Setup, s: Joined, uri: Str, zone: u32, motion: u8)
    requires s.sid in s.r.live
    ensures var i := Telemetry(uri, zone, motion);
            var t := LinkSpec.Step(p, s, Act.Region(i));
            && LinkSpec.Enabled(p, s, Act.Region(i)) && Alone(p, Act.Region(i))
            && t.sid == s.sid && t.got == s.got && t.l == s.l && t.r.now == s.r.now && t.sid in t.r.live
            && t.inputs == s.inputs + [i]
            && (motion <= 1 ==> t.r.fsm == s.r.fsm && t.r.lastMotion == s.r.lastMotion[uri := motion])
            && (motion == 254 && s.r.fsm == NORMAL_OPERATION ==>
                  t.r.fsm == FAULT_HANDLING && t.r.lastMotion == s.r.lastMotion)
  {
    RegionLaws.EdgesEffect(SeenSensor(s.r, uri, zone), uri, zone, motion);
    RegionLaws.Transitions();
    hide Edges, Stamps, Upserted, SwitchTo;
  }

  lemma RiseCalls(p: Setup, sensor: Str, delay: nat, s: Joined)
    requires s.got >= 1 && LastMotion(s.r, sensor) == 0 && s.r.fsm == NORMAL_OPERATION
    requires p.lamp.uri in LampsOfZone(s.r.reg, p.lamp.zone)
    ensures var a := Act.Region(Telemetry(sensor, p.lamp.zone, 1));
            && CalledBy(p, s, a) == Some(1) && OneSensor(p, sensor, s, a) && Timely(delay, s, a)
            && forall last :: Later(last, Some(1)) == Some(1)
  {}

  // The region and the lamp have handled everything, and the lamp's heartbeat was started now
  lemma TimePasses(p: Setup, sensor: Str, delay: nat, s: Joined, ms: nat)
    requires p.lamp.heartbeatS > 0 && ms == HeartbeatMs(p) && LinkInv(p, s)
    requires s.got == |s.l.q.sent| && s.taken == |DownQueue(s).sent| && JustStarted(p, s.l, s.r.now)
    requires s.r.now + ms < 0x1_0000_0000_0000_0000
    ensures var a := Act.Region(Elapse(ms));
            var t := LinkSpec.Step(p, s, a);
            && s.sid in s.r.live && LinkSpec.Enabled(p, s, a) && Alone(p, a) && Timely(delay, s, a)
            && CalledBy(p, s, a) == None && OneSensor(p, sensor, s, a) && (forall last :: Later(last, None) == last)
            && t.sid == s.sid && t.sid in t.r.live && t.got == s.got && t.l == s.l && t.r.now == s.r.now + ms
            && t.r.lastMotion == s.r.lastMotion
  {
    hide LinkInv, LampLaws.StateInv, LampLaws.QueueInv, Stamps;
    Numbers(p, s);
    assert Delivered(s.upAt, s.got, s.r.now + ms, delay) && Delivered(s.downAt, s.taken, s.r.now + ms, delay);
    var t := LinkSpec.Step(p, s, Act.Region(Elapse(ms)));
    assert RegionSpec.Step(s.r, p.timeoutMs, Elapse(ms)) == s.r.(now := s.r.now + ms);
    assert t.l == s.l && t.r == s.r.(now := s.r.now + ms) && t.got == s.got && t.sid == s.sid;
    hide LinkSpec.Step;
  }

  lemma Beats(p: Setup, sensor: Str, delay: nat, s: Joined)
    requires s.sid in s.r.live && LinkInv(p, s)
    ensures var a := Lamp(LampSpec.HeartbeatTimer);
            var t := LinkSpec.Step(p, s, a);
            && LinkSpec.Enabled(p, s, a) && Alone(p, a) && Timely(delay, s, a) && CalledBy(p, s, a) == None
            && OneSensor(p, sensor, s, a) && (forall last :: Later(last, None) == last)
            && t.sid == s.sid && t.got == s.got && t.r == s.r
  {
    hide Stamps, AreRuns, Bound, Counts, SessionPhase;
  }

  lemma NoInputs(p: Setup)
    ensures RegionSpec.Possible(p.start, p.timeoutMs, [])
    ensures RegionSpec.After(p.start, p.timeoutMs, []) == Boot(p.start)
    ensures Boot(p.start).fsm == NORMAL_OPERATION && Boot(p.start).lastMotion == map[] && Boot(p.start).now == p.start
  {}

  lemma RegisteredMeans(p: Setup, inputs: seq<Input>, s: Joined, sensor: Str)
    requires IsRegistered(p, inputs, s)
    ensures var r := RegionSpec.After(p.start, p.timeoutMs, inputs);
            && s.got == 1 && s.sid in s.r.live && s.l.state == LampSpec.REGISTERING
            && s.r.fsm == r.fsm && s.r.lastMotion == r.lastMotion && s.r.now == r.now
            && p.lamp.uri in LampsOfZone(s.r.reg, p.lamp.zone)
            && (r.lastMotion == map[] ==> LastMotion(s.r, sensor) == 0)
  {
    hide RegionSpec.After;
  }

  lemma GoodInv(p: Setup, delay: nat, trace: seq<Joined>, acts: seq<Act>)
    requires Good(p, delay, trace, acts)
    ensures |trace| == |acts| + 1 && LinkInv(p, End(trace)) && End(trace).sid in End(trace).r.live
  {
    hide LinkInv, IsRun, SoleRun;
    GoodLength(p, delay, trace, acts);
    LastInv(p, trace, acts);
  }

  lemma FreshWhileRegistering(p: Setup, s: Joined)
    requires p.lamp.heartbeatS > 0 && s.l.state == LampSpec.REGISTERING
    ensures JustStarted(p, s.l, s.r.now)
  {}

  // A registered lamp, its zone's sensor sees motion, and everything arrives
  lemma MotionArrives(p: Setup, sensor: Str, delay: nat) returns (trace: seq<Joined>, acts: seq<Act>)
    requires p.lamp.faultPerMille <= 0 && p.lamp.heartbeatS > 0
    ensures Good(p, delay, trace, acts) && OneSensorRun(p, sensor, trace, acts) && |trace| == |acts| + 1
    ensures var s := End(trace);
            && s.sid in s.r.live && CoreOf(s.l) == Shown(Some(1)) && s.r.now == p.start && JustStarted(p, s.l, s.r.now)
            && s.got >= 1 && s.got == |s.l.q.sent| && s.taken == |DownQueue(s).sent|
    ensures LastCalled(p, trace, acts, |acts|) == Some(1)
  {
    hide *;
    NoInputs(p);
    var t1, b1 := LampRegisters(p, sensor, delay, []);
    var rise := Act.Region(Telemetry(sensor, p.lamp.zone, 1));
    RegisteredMeans(p, [], End(t1), sensor);
    RiseCalls(p, sensor, delay, End(t1));
    Reading(p, End(t1), sensor, p.lamp.zone, 1);
    var t2, b2 := Grow(p, sensor, delay, t1, b1, rise);
    EndOfGrown(t1, LinkSpec.Step(p, End(t1), rise));
    FreshWhileRegistering(p, End(t2));
    trace, acts := EverythingCanArrive(p, sensor, delay, t2, b2);
    GoesOnMeans(p, sensor, t2, b2, trace, acts);
  }

  /** For every lamp without simulated faults and every sensor there is a run, in time whatever the delay, in which the
      lamp registers and its zone sees motion, everything arrives and lights it; then a whole heartbeat period passes,
      the heartbeat fires, and everything arrives again. */
  lemma MotionLightsLamp(p: Setup, sensor: Str, delay: nat)
    returns (trace: seq<Joined>, acts: seq<Act>, lit: nat)
    requires p.lamp.faultPerMille <= 0 && p.lamp.heartbeatS > 0
    requires p.start + HeartbeatMs(p) < 0x1_0000_0000_0000_0000
    ensures Good(p, delay, trace, acts) && OneSensorRun(p, sensor, trace, acts) && |trace| == |acts| + 1
    ensures lit + 2 <= |acts| && CoreOf(trace[lit].l) == LIT && trace[lit].r.now == p.start
    ensures acts[lit] == Act.Region(Elapse(HeartbeatMs(p))) && acts[lit + 1] == Lamp(LampSpec.HeartbeatTimer)
    ensures var s := End(trace);
            CoreOf(s.l) == LIT && s.r.now == p.start + HeartbeatMs(p) && s.got == |s.l.q.sent|
  {
    hide *;
    var pass, beat := Act.Region(Elapse(HeartbeatMs(p))), Lamp(LampSpec.HeartbeatTimer);
    var t1, b1 := MotionArrives(p, sensor, delay);
    GoodInv(p, delay, t1, b1);
    TimePasses(p, sensor, delay, End(t1), HeartbeatMs(p));
    var t2, b2 := Grow(p, sensor, delay, t1, b1, pass);
    EndOfGrown(t1, LinkSpec.Step(p, End(t1), pass));
    GoodInv(p, delay, t2, b2);
    Beats(p, sensor, delay, End(t2));
    var t3, b3 := Grow(p, sensor, delay, t2, b2, beat);
    EndOfGrown(t2, LinkSpec.Step(p, End(t2), beat));
    trace, acts := EverythingCanArrive(p, sensor, delay, t3, b3);
    GoesOnMeans(p, sensor, t3, b3, trace, acts);
    lit := |b1|;
    EndIs(t1, b1);
    Middle(t1, b1, t3, b3, trace, acts, pass, beat);
    LitIsShown();
  }

  lemma LitIsShown()
    ensures Shown(Some(1)) == LIT
  {}

  lemma Middle(t1: seq<Joined>, b1: seq<Act>, t3: seq<Joined>, b3: seq<Act>, trace: seq<Joined>, acts: seq<Act>,
               x: Act, y: Act)
    requires |t1| == |b1| + 1 && t1 <= t3 <= trace && b3 == b1 + [x] + [y] && b3 <= acts
    ensures |b1| + 2 <= |acts| && |b1| < |trace| && trace[|b1|] == t1[|b1|] && acts[|b1|] == x && acts[|b1| + 1] == y
  {
    assert acts[|b1|] == b3[|b1|] && acts[|b1| + 1] == b3[|b1| + 1];
  }

  // ----- an edge missed

  lemma FaultReading(p: Setup, sensor: Str, other: Str, zone: u32, delay: nat, s: Joined)
    requires other != sensor
    ensures var a := Act.Region(Telemetry(other, zone, 254));
            && CalledBy(p, s, a) == None && OneSensor(p, sensor, s, a) && Timely(delay, s, a)
            && (forall last :: Later(last, None) == last)
            && (forall before :: MissedBy(s, a, sensor, before) == before)
  {}

  lemma DroppedEdge(p: Setup, sensor: Str, delay: nat, s: Joined)
    requires s.r.fsm == FAULT_HANDLING && LastMotion(s.r, sensor) == 0
    ensures var a := Act.Region(Telemetry(sensor, p.lamp.zone, 1));
            && CalledBy(p, s, a) == None && OneSensor(p, sensor, s, a) && Timely(delay, s, a)
            && (forall last :: Later(last, None) == last) && MissedBy(s, a, sensor, 0) == 1
  {}

  /** A lamp can miss an edge: motion that begins while another sensor's fault is handled leaves it dark, with nothing
      on its way. */
  lemma EdgeCanBeMissed(p: Setup, sensor: Str, other: Str, zone: u32, delay: nat)
    returns (trace: seq<Joined>, acts: seq<Act>)
    requires p.lamp.faultPerMille <= 0 && p.lamp.heartbeatS > 0 && other != sensor
    ensures Good(p, delay, trace, acts) && OneSensorRun(p, sensor, trace, acts) && |trace| == |acts| + 1
    ensures Missed(p, sensor, trace, acts, |acts|) == 1
    ensures var s := End(trace);
            && s.got >= 1 && s.sid in s.r.live && s.taken == |DownQueue(s).sent|
            && LastMotion(s.r, sensor) == 1 && CoreOf(s.l) == DARK
  {
    hide *;
    NoInputs(p);
    var fault, rise := Act.Region(Telemetry(other, zone, 254)), Act.Region(Telemetry(sensor, p.lamp.zone, 1));
    var t1, b1 := LampRegisters(p, sensor, delay, []);
    RegisteredMeans(p, [], End(t1), sensor);
    NoMotionYet(Boot(p.start), sensor);
    FaultReading(p, sensor, other, zone, delay, End(t1));
    Reading(p, End(t1), other, zone, 254);
    var t2, b2 := Grow(p, sensor, delay, t1, b1, fault);
    EndOfGrown(t1, LinkSpec.Step(p, End(t1), fault));
    SameMotion(End(t2).r, End(t1).r, sensor);
    DroppedEdge(p, sensor, delay, End(t2));
    Reading(p, End(t2), sensor, p.lamp.zone, 1);
    var t3, b3 := Grow(p, sensor, delay, t2, b2, rise);
    EndOfGrown(t2, LinkSpec.Step(p, End(t2), rise));
    trace, acts := EverythingCanArrive(p, sensor, delay, t3, b3);
    GoesOnMeans(p, sensor, t3, b3, trace, acts);
    NothingShown();
    EndIs(trace, acts);
    NothingLeft(p, End(trace));
    LampFollowsMotion(p, sensor, trace, acts, |acts|);
    OneIsOdd(LastMotion(End(trace).r, sensor));
  }

  lemma NoMotionYet(r: Region, sensor: Str)
    requires r.lastMotion == map[]
    ensures LastMotion(r, sensor) == 0
  {}

  lemma OneIsOdd(last: u8)
    ensures !Even(1)
    ensures last <= 1 && Shown(Some(last)) != DARK ==> last == 1
  {}

  // ----- a lamp that has moved

  function OldInputs(p: Setup, oldZone: u32): seq<Input> {
    [Accept, Receive(0, Frame(REGISTER_REQ, RegisterReqBytes(RegisterReq(LUMINAIRE, p.lamp.uri, oldZone))).Body(), 0)]
  }

  lemma OldRegistration(p: Setup, oldZone: u32)
    requires oldZone != 0
    ensures var r := RegionSpec.After(p.start, p.timeoutMs, OldInputs(p, oldZone));
            && RegionSpec.Possible(p.start, p.timeoutMs, OldInputs(p, oldZone))
            && r.fsm == NORMAL_OPERATION && r.lastMotion == map[] && p.lamp.uri in LampsOfZone(r.reg, oldZone)
  {
    var a, b := OldInputs(p, oldZone)[0], OldInputs(p, oldZone)[1];
    var req := RegisterReq(LUMINAIRE, p.lamp.uri, oldZone);
    NoInputs(p);
    hide RegionSpec.Possible, RegionSpec.After;
    RegionRunOn(p.start, p.timeoutMs, [], a);
    RegionRunOn(p.start, p.timeoutMs, [] + [a], b);
    assert OldInputs(p, oldZone) == [] + [a] + [b];
    BodyParts(Frame(REGISTER_REQ, RegisterReqBytes(req)));
    ProtoLaws.RegisterReqExact(RegisterReqBytes(req), req);
    hide RegisterReqBytes, DecodeRegisterReq, Frame.Body;
  }

  lemma OldZoneCalls(p: Setup, other: Str, oldZone: u32, delay: nat, s: Joined)
    requires s.got >= 1 && LastMotion(s.r, other) == 0 && s.r.fsm == NORMAL_OPERATION
    requires p.lamp.uri in LampsOfZone(s.r.reg, oldZone)
    ensures var a := Act.Region(Telemetry(other, oldZone, 1));
            CalledBy(p, s, a) == Some(1) && Timely(delay, s, a) && forall last :: Later(last, Some(1)) == Some(1)
  {}

  lemma OldListKept(p: Setup, inputs: seq<Input>, s: Joined, oldZone: u32)
    requires IsRegistered(p, inputs, s)
    requires p.lamp.uri in LampsOfZone(RegionSpec.After(p.start, p.timeoutMs, inputs).reg, oldZone)
    ensures p.lamp.uri in LampsOfZone(s.r.reg, oldZone)
  {
    hide RegionSpec.After, LampsOfZone;
  }

  /** The lists of lamps are never pruned, so a lamp that has moved still obeys its old zone: with the only reading ever
      taken one of another zone, it ends up on. */
  lemma OldZoneLightsMovedLamp(p: Setup, other: Str, oldZone: u32, delay: nat)
    returns (trace: seq<Joined>, acts: seq<Act>, moved: nat)
    requires p.lamp.faultPerMille <= 0 && p.lamp.heartbeatS > 0 && oldZone != 0 && oldZone != p.lamp.zone
    ensures Good(p, delay, trace, acts) && |trace| == |acts| + 1 && moved < |acts|
    ensures acts[moved] == Act.Region(Telemetry(other, oldZone, 1)) && NoReadings(trace[moved].inputs)
    ensures CoreOf(End(trace).l) == LIT
  {
    hide *;
    var inputs := OldInputs(p, oldZone);
    var rise := Act.Region(Telemetry(other, oldZone, 1));
    OldRegistration(p, oldZone);
    var t1, b1 := LampRegisters(p, other, delay, inputs);
    RegisteredMeans(p, inputs, End(t1), other);
    OldListKept(p, inputs, End(t1), oldZone);
    NothingRead(p, oldZone, End(t1));
    OldZoneCalls(p, other, oldZone, delay, End(t1));
    Reading(p, End(t1), other, oldZone, 1);
    var t2, b2 := Grow(p, other, delay, t1, b1, rise);
    EndOfGrown(t1, LinkSpec.Step(p, End(t1), rise));
    trace, acts := EverythingCanArrive(p, other, delay, t2, b2);
    GoesOnMeans(p, other, t2, b2, trace, acts);
    LitIsShown();
    moved := |b1|;
    EndIs(t1, b1);
    Turned(t1, b1, t2, b2, trace, acts, rise);
  }

  lemma Turned(t1: seq<Joined>, b1: seq<Act>, t2: seq<Joined>, b2: seq<Act>, trace: seq<Joined>, acts: seq<Act>, x: Act)
    requires |t1| == |b1| + 1 && t1 <= t2 <= trace && b2 == b1 + [x] && b2 <= acts
    ensures |b1| < |acts| && |b1| < |trace| && trace[|b1|] == t1[|b1|] && acts[|b1|] == x
  {
    assert acts[|b1|] == b2[|b1|];
  }

  predicate NoReadings(inputs: seq<Input>) { forall i <- inputs :: !i.Telemetry? }

  lemma NothingRead(p: Setup, oldZone: u32, s: Joined)
    requires IsRegistered(p, OldInputs(p, oldZone), s)
    ensures NoReadings(s.inputs)
  {
    hide RegionSpec.After, Frame.Body;
  }
}
