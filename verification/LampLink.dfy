/**
 One connection between a lamp and its regional server: the two programs joined by the frames their write queues have
 written. Everything else the region does goes on meanwhile: other devices, telemetry, ticks.
 */
module LinkSpec {
  import opened Basics
  import opened Proto
  import opened Framing
  import opened WriteQueue
  import RegionSpec
  import LampSpec
  import LampLaws

  // When the region started, its timeout, and the arguments of a lamp the region does not refuse
  datatype Parameters = Parameters(start: u64, timeoutMs: u64, lamp: LampSpec.Config)
  type Setup = p: Parameters | p.lamp.uri != [] && p.lamp.zone != 0
    witness Parameters(0, 0, LampSpec.Arguments([1], 1, 10, 0))

  datatype Joined = Joined(
    r: RegionSpec.Region, l: LampSpec.Lamp,
    sid: nat,                            // the lamp's session in the region
    got: nat, taken: nat,                // how many frames the region has got from the lamp, and the lamp has taken
    upAt: seq<nat>, downAt: seq<nat>,    // when each frame of the connection was handed to queue_send
    inputs: seq<RegionSpec.Input>, events: seq<LampLaws.Occurrence>) // the runs of both, from their boots

  datatype Act =
    | Region(i: RegionSpec.Input)        // any step of the region but one on this session's socket
    | Lamp(e: LampSpec.Event)            // a timer or a completed write of the lamp
    | Up(unixTime: u32)                  // the region gets the lamp's next frame
    | Down(roll: nat)                    // the lamp takes the session's next frame

  // The write queue of the lamp's session
  function DownQueue(s: Joined): Queue
    requires s.sid in s.r.live
  {
    s.r.live[s.sid].q
  }

  predicate OnSocket(i: RegionSpec.Input, sid: nat) {
    (i.Receive? && i.sid == sid) || (i.Close? && i.sid == sid) || (i.Expire? && i.sid == sid)
  }

  // The connection stays up
  ghost predicate Enabled(p: Parameters, s: Joined, a: Act)
    requires s.sid in s.r.live
  {
    match a
    case Region(i) => RegionSpec.Enabled(s.r, p.timeoutMs, i) && !OnSocket(i, s.sid)
    case Lamp(e) => !e.Message? && LampMay(p, s, e)
    case Up(_) => s.got < |s.l.q.written|
    case Down(roll) =>
      s.taken < |DownQueue(s).written|
      && LampMay(p, s, LampSpec.Message(DownQueue(s).written[s.taken].Body(), roll))
  }

  predicate LampMay(p: Parameters, s: Joined, e: LampSpec.Event) {
    LampSpec.Enabled(s.l, e) && LampSpec.Step(p.lamp, s.l, s.r.now, e).link == LampSpec.Connected
  }

  function Stamps(n: int, now: nat): seq<nat> { if n <= 0 then [] else Stamps(n - 1, now) + [now] }

  function RegionTakes(p: Parameters, s: Joined, i: RegionSpec.Input): Joined
    requires s.sid in s.r.live
  {
    var r := RegionSpec.Step(s.r, p.timeoutMs, i);
    var sent := if s.sid in r.live then |r.live[s.sid].q.sent| else 0;
    s.(r := r, downAt := s.downAt + Stamps(sent - |s.downAt|, s.r.now), inputs := s.inputs + [i])
  }

  function LampTakes(p: Parameters, s: Joined, e: LampSpec.Event): Joined {
    var l := LampSpec.Step(p.lamp, s.l, s.r.now, e);
    s.(l := l, upAt := s.upAt + Stamps(|l.q.sent| - |s.upAt|, s.r.now),
       events := s.events + [LampLaws.Occurrence(s.r.now, e)])
  }

  function Step(p: Parameters, s: Joined, a: Act): Joined
    requires s.sid in s.r.live
  {
    match a
    case Region(i) => RegionTakes(p, s, i)
    case Lamp(e) => LampTakes(p, s, e)
    case Up(unixTime) =>
      if s.got < |s.l.q.written|
      then RegionTakes(p, s, RegionSpec.Receive(s.sid, s.l.q.written[s.got].Body(), unixTime)).(got := s.got + 1)
      else s
    case Down(roll) =>
      if s.taken < |DownQueue(s).written|
      then LampTakes(p, s, LampSpec.Message(DownQueue(s).written[s.taken].Body(), roll)).(taken := s.taken + 1)
      else s
  }

  // ----- runs

  // The region has accepted the connection and the lamp's handshake is done
  function Begin(p: Parameters, inputs: seq<RegionSpec.Input>, events: seq<LampLaws.Occurrence>): Joined {
    var r := RegionSpec.After(p.start, p.timeoutMs, inputs);
    var l := LampSpec.Step(p.lamp, LampLaws.After(p.lamp, events), r.now, LampSpec.HandshakeDone);
    Joined(RegionSpec.Step(r, p.timeoutMs, RegionSpec.Accept), l, r.born, 0, 0, [r.now], [],
           inputs + [RegionSpec.Accept], events + [LampLaws.Occurrence(r.now, LampSpec.HandshakeDone)])
  }

  ghost predicate CanBegin(p: Parameters, inputs: seq<RegionSpec.Input>, events: seq<LampLaws.Occurrence>) {
    && RegionSpec.Possible(p.start, p.timeoutMs, inputs)
    && LampLaws.Possible(p.lamp, events)
    && LampLaws.After(p.lamp, events).link == LampSpec.Connecting
  }

  // trace[k + 1] follows trace[k] by the act acts[k]
  ghost predicate IsRun(p: Parameters, trace: seq<Joined>, acts: seq<Act>) {
    && |trace| == |acts| + 1
    && (exists inputs, events :: CanBegin(p, inputs, events) && trace[0] == Begin(p, inputs, events))
    && forall k :: 0 <= k < |acts| ==> Follows(p, trace[k], acts[k], trace[k + 1])
  }

  ghost predicate Follows(p: Parameters, s: Joined, a: Act, t: Joined) {
    s.sid in s.r.live && Enabled(p, s, a) && t == Step(p, s, a)
  }
}

/** What every connection keeps. */
module LinkLaws {
  import opened Basics
  import opened Proto
  import opened Framing
  import opened WriteQueue
  import opened DeviceRegistry
  import opened LinkSpec
  import RegionSpec
  import RegionLaws
  import RegionRuns
  import RegionSessions
  import LampSpec
  import LampLaws
  import ProtoLaws

  // ----- what a step elsewhere in the region does to a session

  ghost predicate Grew(q: Queue, p: Queue) { q.sent <= p.sent && q.written <= p.written }

  // uri is the only key under which the session map finds the session; none does before it registers
  ghost predicate Bound(r: RegionSpec.Region, sid: nat) {
    && sid in r.live
    && forall v <- r.sessions :: r.sessions[v] == sid ==> v != [] && v == r.live[sid].uri
  }

  ghost predicate Passed(a: RegionSpec.Region, b: RegionSpec.Region, sid: nat)
    requires sid in a.live
  {
    && sid in b.live
    && b.live[sid] == a.live[sid].(q := b.live[sid].q)
    && Grew(a.live[sid].q, b.live[sid].q)
    && (a.live[sid].uri == [] ==> b.live[sid].q.sent == a.live[sid].q.sent)
    && forall v <- b.sessions :: b.sessions[v] == sid ==> v in a.sessions && a.sessions[v] == sid
  }

  lemma SendCmdPasses(r: RegionSpec.Region, sid: nat, v: Str, cmd: u8, value: u8)
    requires sid in r.live
    ensures Passed(r, RegionSpec.SendCmd(r, v, cmd, value), sid)
  {}

  lemma PassedTransitive(a: RegionSpec.Region, b: RegionSpec.Region, c: RegionSpec.Region, sid: nat)
    requires sid in a.live && Passed(a, b, sid) && Passed(b, c, sid)
    ensures Passed(a, c, sid)
  {}

  lemma {:induction false} SendAllPasses(r: RegionSpec.Region, sid: nat, lamps: seq<Str>)
    requires sid in r.live
    ensures Passed(r, RegionSpec.SendAllOn(r, lamps), sid) && Passed(r, RegionSpec.SendAllOff(r, lamps), sid)
  {
    if lamps != [] {
      var init, u := lamps[..|lamps| - 1], lamps[|lamps| - 1];
      SendAllPasses(r, sid, init);
      var on, off := RegionSpec.SendAllOn(r, init), RegionSpec.SendAllOff(r, init);
      SendCmdPasses(on, sid, u, RegionSpec.CMD_SWITCH_ON, 0);
      var on1 := RegionSpec.SendCmd(on, u, RegionSpec.CMD_SWITCH_ON, 0);
      SendCmdPasses(on1, sid, u, RegionSpec.CMD_SET_INTENSITY, 60);
      SendCmdPasses(off, sid, u, RegionSpec.CMD_SWITCH_OFF, 0);
      assert sid in on.live && sid in on1.live && sid in off.live;
      hide RegionSpec.SendCmd, Passed;
      PassedTransitive(r, on, on1, sid);
      PassedTransitive(r, on1, RegionSpec.SendCmd(on1, u, RegionSpec.CMD_SET_INTENSITY, 60), sid);
      PassedTransitive(r, off, RegionSpec.SendCmd(off, u, RegionSpec.CMD_SWITCH_OFF, 0), sid);
    }
  }

  lemma EdgesPass(r: RegionSpec.Region, sid: nat, uri: Str, zone: u32, motion: u8)
    requires sid in r.live
    ensures Passed(r, RegionSpec.Edges(r, uri, zone, motion), sid)
  {
    var on := r.(log := r.log + [RegionSpec.MotionOn(uri, zone)]);
    var off := r.(log := r.log + [RegionSpec.MotionOff(uri, zone)]);
    SendAllPasses(on, sid, LampsOfZone(r.reg, zone));
    SendAllPasses(off, sid, LampsOfZone(r.reg, zone));
    hide RegionSpec.SendAllOn, RegionSpec.SendAllOff, RegionSpec.LastMotion;
  }

  lemma OtherMessagePasses(r: RegionSpec.Region, sid: nat, other: nat, body: seq<u8>, unixTime: u32)
    requires sid in r.live && other in r.live && other != sid
    ensures Passed(r, RegionSpec.OnMessage(r, other, body, unixTime), sid)
  {
    hide DecodeRegisterReq, DecodeStatus, DecodeFault, Send, Upserted, RegionSpec.SwitchTo;
  }

  lemma RegionPasses(r: RegionSpec.Region, timeoutMs: u64, i: RegionSpec.Input, sid: nat)
    requires RegionSpec.Enabled(r, timeoutMs, i) && sid in r.live && sid < r.born && !OnSocket(i, sid)
    ensures Passed(r, RegionSpec.Step(r, timeoutMs, i), sid)
  {
    match i
    case Telemetry(uri, zone, motion) =>
      hide RegionSpec.OnTelemetry, Passed;
      TelemetryPasses(r, sid, uri, zone, motion);
    case Tick(order) =>
      hide RegionSpec.RaiseAll, Grew;
      RegionLaws.RaiseAllReg(r.(reg := MarkLost(r.reg, r.now, timeoutMs)), order);
      GrewNot(r.live[sid].q);
    case Receive(other, body, unixTime) =>
      hide RegionSpec.OnMessage, Passed;
      OtherMessagePasses(r, sid, other, body, unixTime);
    case _ =>
      hide Passed;
      PlainPasses(r, timeoutMs, i, sid);
  }

  lemma TelemetryPasses(r: RegionSpec.Region, sid: nat, uri: Str, zone: u32, motion: u8)
    requires sid in r.live
    ensures Passed(r, RegionSpec.OnTelemetry(r, uri, zone, motion), sid)
  {
    var a := RegionSpec.SeenSensor(r, uri, zone);
    var b := if motion == 254 then RegionSpec.FaultySensor(a, uri, zone) else a;
    hide RegionSpec.Edges, RegionSpec.SwitchTo;
    EdgesPass(b, sid, uri, zone, motion);
  }

  lemma GrewNot(q: Queue)
    ensures Grew(q, q)
  {}

  lemma PlainPasses(r: RegionSpec.Region, timeoutMs: u64, i: RegionSpec.Input, sid: nat)
    requires RegionSpec.Enabled(r, timeoutMs, i) && sid in r.live && sid < r.born && !OnSocket(i, sid)
    requires !i.Telemetry? && !i.Tick? && !i.Receive?
    ensures Passed(r, RegionSpec.Step(r, timeoutMs, i), sid)
  {
    GrewNot(r.live[sid].q);
    match i
    case RunQueue(_) =>
    case WriteDone(_) =>
    case _ => hide Grew;
  }

  // ----- the two runs

  ghost predicate AreRuns(p: Parameters, s: Joined) {
    && RegionSpec.Possible(p.start, p.timeoutMs, s.inputs)
    && s.r == RegionSpec.After(p.start, p.timeoutMs, s.inputs)
    && LampLaws.Possible(p.lamp, s.events)
    && s.l == LampLaws.After(p.lamp, s.events)
  }

  lemma RegionRunOn(start: u64, timeoutMs: u64, inputs: seq<RegionSpec.Input>, i: RegionSpec.Input)
    requires RegionSpec.Possible(start, timeoutMs, inputs)
    requires RegionSpec.Enabled(RegionSpec.After(start, timeoutMs, inputs), timeoutMs, i)
    ensures RegionSpec.Possible(start, timeoutMs, inputs + [i])
    ensures RegionSpec.After(start, timeoutMs, inputs + [i])
            == RegionSpec.Step(RegionSpec.After(start, timeoutMs, inputs), timeoutMs, i)
  {
    hide RegionSpec.Enabled, RegionSpec.Step;
    var run := inputs + [i];
    assert run[..|run| - 1] == inputs;
    forall k | 0 <= k < |run|
      ensures RegionSpec.Enabled(RegionSpec.After(start, timeoutMs, run[..k]), timeoutMs, run[k])
    {
      if k < |inputs| {
        assert run[..k] == inputs[..k] && run[k] == inputs[k];
      } else {
        assert run[..k] == inputs;
      }
    }
  }

  lemma LampRunOn(c: LampSpec.Config, events: seq<LampLaws.Occurrence>, now: nat, e: LampSpec.Event)
    requires LampLaws.Possible(c, events) && LampSpec.Enabled(LampLaws.After(c, events), e)
    ensures LampLaws.Possible(c, events + [LampLaws.Occurrence(now, e)])
    ensures LampLaws.After(c, events + [LampLaws.Occurrence(now, e)])
            == LampSpec.Step(c, LampLaws.After(c, events), now, e)
  {
    hide LampSpec.Enabled, LampSpec.Step;
    var run := events + [LampLaws.Occurrence(now, e)];
    assert run[..|run| - 1] == events;
    forall k | 0 <= k < |run|
      ensures LampSpec.Enabled(LampLaws.After(c, run[..k]), run[k].event)
    {
      if k < |events| {
        assert run[..k] == events[..k] && run[k] == events[k];
      } else {
        assert run[..k] == events;
      }
    }
  }

  // ----- the invariant

  // Before the registration is processed the session has nothing; from then on it is the lamp's, and its first frame
  // is the acknowledgement
  predicate SessionPhase(p: Setup, s: Joined)
    requires s.sid in s.r.live
  {
    var me := s.r.live[s.sid];
    !me.closed &&
    if s.got == 0 then me.uri == [] && me.q.sent == []
    else me.uri == p.lamp.uri && p.lamp.uri in s.r.reg.dev && me.q.sent != [] && me.q.sent[0].kind == REGISTER_ACK
  }

  predicate LampPhase(p: Setup, s: Joined) { s.l.state == LampSpec.REGISTERING <==> s.taken == 0 }

  ghost predicate Counts(s: Joined)
    requires s.sid in s.r.live
  {
    && s.got <= |s.l.q.written| && s.taken <= |DownQueue(s).written|
    && |s.upAt| == |s.l.q.sent| && |s.downAt| == |DownQueue(s).sent|
  }

  ghost predicate LinkInv(p: Setup, s: Joined) {
    && AreRuns(p, s)
    && s.l.link == LampSpec.Connected
    && Bound(s.r, s.sid)
    && SessionPhase(p, s) && LampPhase(p, s) && Counts(s)
  }

  // What the invariants of the region's and the lamp's own runs give
  ghost predicate Facts(p: Parameters, s: Joined)
    requires s.sid in s.r.live
  {
    && s.sid < s.r.born
    && RegionLaws.SeenInv(s.r) && RegionSessions.QueuesInv(s.r)
    && LampLaws.Inv(p.lamp, s.l)
    && s.l.q.written <= s.l.q.sent && DownQueue(s).written <= DownQueue(s).sent
  }

  lemma RunFacts(p: Parameters, s: Joined)
    requires AreRuns(p, s) && s.l.link == LampSpec.Connected && s.sid in s.r.live
    ensures Facts(p, s)
  {
    RegionRuns.RegionInvariant(p.start, p.timeoutMs, s.inputs);
    RegionSessions.HandoverHolds(p.start, p.timeoutMs, s.inputs);
    RegionSessions.SessionQueuesInOrder(p.start, p.timeoutMs, s.inputs);
    LampLaws.LampInvariant(p.lamp, s.events);
    hide RegionSpec.After, LampLaws.After, RegionLaws.SeenInv, LampLaws.SentInv, LampLaws.StateInv;
    WrittenPrefix(s.l.q);
    WrittenPrefix(DownQueue(s));
  }

  lemma WrittenPrefix(q: Queue)
    requires q.InOrder()
    ensures q.written <= q.sent
  {
    assert q.written + q.InFlight() + q.outQ + q.posted == q.written + (q.InFlight() + q.outQ + q.posted);
  }

  lemma {:induction false} StampsLength(n: int, now: nat)
    ensures |Stamps(n, now)| == (if n <= 0 then 0 else n) && (forall t <- Stamps(n, now) :: t == now)
  {
    if n > 0 {
      StampsLength(n - 1, now);
    }
  }

  // ----- what the lamp's frames do in the region

  function Registration(p: Setup): RegisterReq { RegisterReq(LUMINAIRE, p.lamp.uri, p.lamp.zone) }

  lemma BodyParts(f: Frame)
    ensures f.Body() != [] && f.Body()[0] == f.kind && f.Body()[1..] == f.payload
  {}

  lemma UpRegisters(p: Setup, r: RegionSpec.Region, sid: nat, f: Frame, unixTime: u32)
    requires sid in r.live && LampLaws.IsRegister(p.lamp, f)
    ensures RegionSpec.OnMessage(r, sid, f.Body(), unixTime)
            == RegionSpec.HandleRegister(r, sid, Registration(p), unixTime)
  {
    BodyParts(f);
    ProtoLaws.RegisterReqExact(f.payload, Registration(p));
    hide RegionSpec.HandleRegister, DecodeRegisterReq, RegisterReqBytes;
  }

  ghost predicate ReportedBy(p: Setup, r: RegionSpec.Region, sid: nat, b: RegionSpec.Region)
    requires sid in r.live
  {
    || (exists s: StatusReport ::
          s.uri == p.lamp.uri && s.zoneId == p.lamp.zone && b == RegionSpec.HandleStatus(r, sid, s))
    || b == RegionSpec.HandleFault(r, sid, LampSpec.SimulatedFault(p.lamp))
  }

  lemma UpReports(p: Setup, r: RegionSpec.Region, sid: nat, f: Frame, unixTime: u32)
    requires sid in r.live && LampLaws.IsReport(p.lamp, f)
    ensures ReportedBy(p, r, sid, RegionSpec.OnMessage(r, sid, f.Body(), unixTime))
  {
    BodyParts(f);
    hide RegionSpec.HandleStatus, RegionSpec.HandleFault, DecodeStatus, DecodeFault, StatusBytes, FaultBytes;
    if LampLaws.IsFault(p.lamp, f) {
      ProtoLaws.FaultExact(f.payload, LampSpec.SimulatedFault(p.lamp));
    } else {
      var s: StatusReport :| f.payload == StatusBytes(s) && s.uri == p.lamp.uri && s.zoneId == p.lamp.zone;
      ProtoLaws.StatusExact(f.payload, s);
      assert RegionSpec.OnMessage(r, sid, f.Body(), unixTime) == RegionSpec.HandleStatus(r, sid, s);
    }
  }

  lemma RegisterEffect(p: Setup, r: RegionSpec.Region, sid: nat, unixTime: u32)
    requires sid in r.live
    ensures var b := RegionSpec.HandleRegister(r, sid, Registration(p), unixTime);
            && sid in b.live && b.live[sid].uri == p.lamp.uri && b.live[sid].closed == r.live[sid].closed
            && Grew(r.live[sid].q, b.live[sid].q)
            && b.live[sid].q.sent == r.live[sid].q.sent + [Frame(REGISTER_ACK, Codec.U32Bytes(unixTime))]
            && b.sessions == r.sessions[p.lamp.uri := sid]
            && p.lamp.uri in b.reg.dev && b.reg.dev[p.lamp.uri].lastSeenMs == r.now == b.now
  {}

  lemma ReportEffect(p: Setup, r: RegionSpec.Region, sid: nat, b: RegionSpec.Region)
    requires sid in r.live && p.lamp.uri in r.reg.dev && ReportedBy(p, r, sid, b)
    ensures sid in b.live && b.live[sid] == r.live[sid].(q := b.live[sid].q)
    ensures Grew(r.live[sid].q, b.live[sid].q) && b.sessions == r.sessions
    ensures p.lamp.uri in b.reg.dev && b.reg.dev[p.lamp.uri].lastSeenMs == r.now == b.now
  {
    hide RegionSpec.SwitchTo;
  }

  // ----- one step

  lemma BeginRuns(p: Parameters, inputs: seq<RegionSpec.Input>, events: seq<LampLaws.Occurrence>)
    requires CanBegin(p, inputs, events)
    ensures AreRuns(p, Begin(p, inputs, events))
  {
    hide LampSpec.Step, RegionSpec.Step;
    RegionRunOn(p.start, p.timeoutMs, inputs, RegionSpec.Accept);
    LampRunOn(p.lamp, events, RegionSpec.After(p.start, p.timeoutMs, inputs).now, LampSpec.HandshakeDone);
  }

  lemma BeginInv(p: Setup, inputs: seq<RegionSpec.Input>, events: seq<LampLaws.Occurrence>)
    requires CanBegin(p, inputs, events)
    ensures LinkInv(p, Begin(p, inputs, events))
  {
    BeginRuns(p, inputs, events);
    RegionSessions.HandoverHolds(p.start, p.timeoutMs, inputs);
    LampLaws.LampInvariant(p.lamp, events);
    hide RegionSpec.After, RegionSpec.Possible, LampLaws.After, LampLaws.Possible, AreRuns, LampLaws.SentInv;
    NewcomerUnknown(RegionSpec.After(p.start, p.timeoutMs, inputs));
    hide RegionSessions.HandoverInv, RegisterReqBytes;
  }

  lemma NewcomerUnknown(r: RegionSpec.Region)
    requires RegionSessions.HandoverInv(r)
    ensures forall v <- r.sessions :: r.sessions[v] < r.born
  {
    forall v | v in r.sessions
      ensures r.sessions[v] < r.born
    {
      assert RegionSessions.LastRegistrant(r.log, v) == Some(r.sessions[v]);
    }
  }

  // A step of the region that adds to the session's queue and keeps the rest of the link
  lemma RegionKeepsCounts(p: Setup, s: Joined, i: RegionSpec.Input)
    requires s.sid in s.r.live && Counts(s)
    requires var b := RegionSpec.Step(s.r, p.timeoutMs, i);
             s.sid in b.live && Grew(DownQueue(s), b.live[s.sid].q)
    ensures Counts(RegionTakes(p, s, i))
  {
    hide RegionSpec.Step;
    StampsLength(|RegionSpec.Step(s.r, p.timeoutMs, i).live[s.sid].q.sent| - |s.downAt|, s.r.now);
  }

  lemma RegionStep(p: Setup, s: Joined, i: RegionSpec.Input)
    requires LinkInv(p, s) && Enabled(p, s, Region(i))
    ensures LinkInv(p, Step(p, s, Region(i)))
  {
    RunFacts(p, s);
    RegionPasses(s.r, p.timeoutMs, i, s.sid);
    RegionLaws.SeenStep(s.r, p.timeoutMs, i);
    RegionRunOn(p.start, p.timeoutMs, s.inputs, i);
    hide RegionSpec.Step, RegionSpec.After, RegionSpec.Possible, LampLaws.After, LampLaws.Possible;
    RegionKeepsCounts(p, s, i);
  }

  // The region after the lamp's next frame
  function UpRegion(s: Joined, unixTime: u32): RegionSpec.Region
    requires s.sid in s.r.live && s.got < |s.l.q.written|
  {
    RegionSpec.OnMessage(s.r, s.sid, s.l.q.written[s.got].Body(), unixTime)
  }

  lemma UpFrame(p: Setup, s: Joined)
    requires LinkInv(p, s) && s.got < |s.l.q.written|
    ensures if s.got == 0 then LampLaws.IsRegister(p.lamp, s.l.q.written[s.got])
            else LampLaws.IsReport(p.lamp, s.l.q.written[s.got])
  {
    RunFacts(p, s);
    hide AreRuns, RegionLaws.SeenInv, RegionSessions.QueuesInv, LampLaws.StateInv, LampLaws.QueueInv,
      LampLaws.IsReport, LampLaws.IsRegister, Bound, SessionPhase;
    assert s.l.q.written[s.got] == s.l.q.sent[s.got];
  }

  lemma UpEffect(p: Setup, s: Joined, unixTime: u32)
    requires LinkInv(p, s) && s.got < |s.l.q.written|
    ensures var b := UpRegion(s, unixTime);
            && Bound(b, s.sid) && Grew(DownQueue(s), b.live[s.sid].q) && b.now == s.r.now
            && b.live[s.sid].uri == p.lamp.uri && !b.live[s.sid].closed
            && p.lamp.uri in b.reg.dev && b.reg.dev[p.lamp.uri].lastSeenMs == b.now
            && b.live[s.sid].q.sent != [] && b.live[s.sid].q.sent[0].kind == REGISTER_ACK
  {
    UpFrame(p, s);
    var f := s.l.q.written[s.got];
    hide RegionSpec.OnMessage, RegionSpec.HandleRegister, ReportedBy, LampLaws.IsRegister, LampLaws.IsReport, AreRuns,
      Counts, Frame.Body;
    if s.got == 0 {
      UpRegisters(p, s.r, s.sid, f, unixTime);
      RegisterEffect(p, s.r, s.sid, unixTime);
    } else {
      UpReports(p, s.r, s.sid, f, unixTime);
      ReportEffect(p, s.r, s.sid, UpRegion(s, unixTime));
    }
  }

  lemma UpStep(p: Setup, s: Joined, unixTime: u32)
    requires LinkInv(p, s) && Enabled(p, s, Up(unixTime))
    ensures LinkInv(p, Step(p, s, Up(unixTime)))
  {
    var i := RegionSpec.Receive(s.sid, s.l.q.written[s.got].Body(), unixTime);
    RegionRunOn(p.start, p.timeoutMs, s.inputs, i);
    UpEffect(p, s, unixTime);
    assert RegionSpec.Step(s.r, p.timeoutMs, i) == UpRegion(s, unixTime);
    hide RegionSpec.Step, UpRegion, Grew, Bound, RegionSpec.After, RegionSpec.Possible, LampLaws.After,
      LampLaws.Possible;
    RegionKeepsCounts(p, s, i);
  }

  lemma LampKeepsCounts(p: Setup, s: Joined, e: LampSpec.Event)
    requires s.sid in s.r.live && Counts(s) && LampLaws.Inv(p.lamp, s.l) && s.l.link == LampSpec.Connected
    requires LampMay(p, s, e)
    ensures Counts(LampTakes(p, s, e))
  {
    LampLaws.SentStep(p.lamp, s.l, s.r.now, e);
    WrittenGrows(p.lamp, s.l, s.r.now, e);
    hide LampSpec.Step;
    StampsLength(|LampSpec.Step(p.lamp, s.l, s.r.now, e).q.sent| - |s.upAt|, s.r.now);
  }

  lemma WrittenGrows(c: LampSpec.Config, l: LampSpec.Lamp, now: nat, e: LampSpec.Event)
    requires l.link == LampSpec.Connected && LampSpec.Enabled(l, e)
    requires LampSpec.Step(c, l, now, e).link == LampSpec.Connected
    ensures l.q.written <= LampSpec.Step(c, l, now, e).q.written
  {
    if e.Message? {
      hide LampSpec.OnMessage;
      MessageKeepsWritten(c, l, now, e.body, e.roll);
    } else {
      hide LampSpec.OnMessage, StatusBytes, FaultBytes, RegisterReqBytes;
    }
  }

  lemma MessageKeepsWritten(c: LampSpec.Config, l: LampSpec.Lamp, now: nat, body: seq<u8>, roll: nat)
    ensures LampSpec.OnMessage(c, l, now, body, roll).q.written == l.q.written
  {
    hide DecodeCommand, LampSpec.OnCommand, StatusBytes;
    if body != [] && body[0] == CMD && DecodeCommand(body[1..]).Ok? {
      CommandKeepsWritten(c, l, DecodeCommand(body[1..]).value, roll);
    }
  }

  lemma CommandKeepsWritten(c: LampSpec.Config, l: LampSpec.Lamp, cmd: Command, roll: nat)
    ensures LampSpec.OnCommand(c, l, cmd, roll).q.written == l.q.written
  {
    hide StatusBytes, FaultBytes;
  }

  // Only the acknowledgement takes a connected lamp out of REGISTERING, and nothing takes it back
  lemma LampStateStep(p: Setup, s: Joined, e: LampSpec.Event)
    requires LampLaws.StateInv(p.lamp, s.l) && s.l.link == LampSpec.Connected && LampMay(p, s, e)
    ensures var m := LampSpec.Step(p.lamp, s.l, s.r.now, e);
            && (s.l.state != LampSpec.REGISTERING ==> m.state != LampSpec.REGISTERING)
            && (!e.Message? ==> (m.state == LampSpec.REGISTERING <==> s.l.state == LampSpec.REGISTERING))
            && (e.Message? && e.body != [] && e.body[0] == REGISTER_ACK ==> m.state != LampSpec.REGISTERING)
  {
    LampLaws.StateStep(p.lamp, s.l, s.r.now, e);
    if e.Message? {
      hide LampSpec.OnCommand, DecodeCommand;
    }
  }

  lemma LampStep(p: Setup, s: Joined, e: LampSpec.Event)
    requires LinkInv(p, s) && Enabled(p, s, Lamp(e))
    ensures LinkInv(p, Step(p, s, Lamp(e)))
  {
    RunFacts(p, s);
    LampRunOn(p.lamp, s.events, s.r.now, e);
    LampKeepsCounts(p, s, e);
    LampStateStep(p, s, e);
    hide LampSpec.Step, RegionSpec.After, RegionSpec.Possible, LampLaws.After, LampLaws.Possible, LampLaws.Inv,
      LampLaws.StateInv;
  }

  lemma DownStep(p: Setup, s: Joined, roll: nat)
    requires LinkInv(p, s) && Enabled(p, s, Down(roll))
    ensures LinkInv(p, Step(p, s, Down(roll)))
  {
    RunFacts(p, s);
    var f := DownQueue(s).written[s.taken];
    var e := LampSpec.Message(f.Body(), roll);
    assert f == DownQueue(s).sent[s.taken];
    BodyParts(f);
    LampRunOn(p.lamp, s.events, s.r.now, e);
    LampKeepsCounts(p, s, e);
    LampStateStep(p, s, e);
    hide LampSpec.Step, RegionSpec.After, RegionSpec.Possible, LampLaws.After, LampLaws.Possible, LampLaws.Inv,
      LampLaws.StateInv, Frame.Body;
  }

  lemma LinkStep(p: Setup, s: Joined, a: Act)
    requires LinkInv(p, s) && Enabled(p, s, a)
    ensures LinkInv(p, Step(p, s, a))
  {
    hide Step, LinkInv, Enabled;
    match a
    case Region(i) => RegionStep(p, s, i);
    case Lamp(e) => LampStep(p, s, e);
    case Up(unixTime) => UpStep(p, s, unixTime);
    case Down(roll) => DownStep(p, s, roll);
  }

  lemma FirstInv(p: Setup, trace: seq<Joined>, acts: seq<Act>)
    requires IsRun(p, trace, acts)
    ensures LinkInv(p, trace[0])
  {
    hide LinkInv, CanBegin, Begin, Follows;
    var inputs, events :| CanBegin(p, inputs, events) && trace[0] == Begin(p, inputs, events);
    BeginInv(p, inputs, events);
  }

  /** Throughout a connection the region and the lamp are in runs of their own, the session map finds the session under
      the lamp's uri only, and the lamp is registering until it takes the first frame, the acknowledgement. */
  lemma {:induction false} LinkInvariant(p: Setup, trace: seq<Joined>, acts: seq<Act>, k: nat)
    requires IsRun(p, trace, acts) && k <= |acts|
    ensures LinkInv(p, trace[k])
  {
    hide LinkInv, CanBegin, Begin, Enabled, Step;
    if k == 0 {
      FirstInv(p, trace, acts);
    } else {
      LinkInvariant(p, trace, acts, k - 1);
      assert Follows(p, trace[k - 1], acts[k - 1], trace[k - 1 + 1]);
      LinkStep(p, trace[k - 1], acts[k - 1]);
    }
  }

  // ----- the bytes between the two

  lemma LampFrameFits(c: LampSpec.Config, f: Frame)
    requires LampLaws.IsRegister(c, f) || LampLaws.IsReport(c, f)
    ensures Fits(f)
  {}

  lemma WrittenIsRead(fs: seq<Frame>)
    requires forall f <- fs :: Fits(f)
    ensures Deframe(StreamBytes(fs)) == Received(Bodies(fs), Incomplete)
  {
    StreamDelivers(fs, []);
    assert StreamBytes(fs) + [] == StreamBytes(fs) && Deframe([]) == Received([], Incomplete);
    assert Bodies(fs) + [] == Bodies(fs);
  }

  /** Read chains deliver what the acts of a connection hand over: each side's stream of written frames is read as
      exactly their bodies, for no frame of either side is too long. */
  lemma StreamsDeliver(p: Setup, trace: seq<Joined>, acts: seq<Act>, k: nat)
    requires IsRun(p, trace, acts) && k <= |acts|
    ensures var s := trace[k];
            && Deframe(StreamBytes(s.l.q.written)) == Received(Bodies(s.l.q.written), Incomplete)
            && s.sid in s.r.live
            && Deframe(StreamBytes(DownQueue(s).written)) == Received(Bodies(DownQueue(s).written), Incomplete)
  {
    var s := trace[k];
    LinkInvariant(p, trace, acts, k);
    RunFacts(p, s);
    hide IsRun, AreRuns, Deframe, StreamBytes, Bodies, Fits, LampLaws.IsRegister, LampLaws.IsReport, LampLaws.StateInv,
      RegionLaws.SeenInv;
    forall f | f in s.l.q.written
      ensures Fits(f)
    {
      var i :| 0 <= i < |s.l.q.written| && s.l.q.written[i] == f;
      assert s.l.q.sent[i] == f && (i == 0 || LampLaws.IsReport(p.lamp, s.l.q.sent[i]));
      LampFrameFits(p.lamp, f);
    }
    forall f | f in DownQueue(s).written
      ensures Fits(f)
    {
      assert RegionSessions.QueueInv(DownQueue(s)) && f in DownQueue(s).sent;
    }
    WrittenIsRead(s.l.q.written);
    WrittenIsRead(DownQueue(s).written);
  }
}
