/** A lamp without a zone or a uri: the region refuses it, and it never counts as registered. */
module LinkRefusal {
  import opened Basics
  import opened Codec
  import opened Proto
  import opened Framing
  import opened WriteQueue
  import opened DeviceRegistry
  import opened LinkSpec
  import RegionSpec
  import RegionSessions
  import RegionEffects
  import LampSpec
  import LampLaws
  import LampEffects
  import LinkLaws
  import ProtoLaws

  type Refused = p: Parameters | p.lamp.uri == [] || p.lamp.zone == 0
    witness Parameters(0, 0, LampSpec.Arguments([1], 0, 10, 0))

  function Request(p: Refused): RegisterReq { RegisterReq(LUMINAIRE, p.lamp.uri, p.lamp.zone) }

  // ----- the invariant

  // The session never registers; it answers with a refusal first, and then with acknowledgements of faults at most
  ghost predicate SessionRefuses(s: Joined) {
    && s.sid in s.r.live && s.sid < s.r.born
    && s.r.live[s.sid].uri == []
    && (forall v <- s.r.sessions :: s.r.sessions[v] != s.sid)
    && var sent := s.r.live[s.sid].q.sent;
       && (s.got == 0 ==> sent == [])
       && (s.got >= 1 ==> sent != [] && sent[0] == Frame(REGISTER_NACK, []))
  }

  ghost predicate RefusedInv(p: Refused, s: Joined) {
    && LinkLaws.AreRuns(p, s)
    && s.l.link == LampSpec.Connected && s.l.state == LampSpec.REGISTERING && s.taken == 0
    && SessionRefuses(s)
    && s.got <= |s.l.q.written| && RegionSessions.QueuesInv(s.r)
  }

  // ----- the region's steps

  lemma RefusalEffect(p: Refused, r: RegionSpec.Region, sid: nat, f: Frame, unixTime: u32)
    requires sid in r.live && LampLaws.IsRegister(p.lamp, f)
    ensures RegionSpec.OnMessage(r, sid, f.Body(), unixTime) == RegionSpec.Queued(r, sid, REGISTER_NACK, [])
  {
    LinkLaws.BodyParts(f);
    ProtoLaws.RegisterReqExact(f.payload, Request(p));
    hide DecodeRegisterReq, RegisterReqBytes, RegionSpec.Queued;
  }

  lemma ReportEffect(p: Refused, r: RegionSpec.Region, sid: nat, f: Frame, unixTime: u32)
    requires sid in r.live && LampLaws.IsReport(p.lamp, f)
    ensures var b := RegionSpec.OnMessage(r, sid, f.Body(), unixTime);
            && b.sessions == r.sessions && b.born == r.born && sid in b.live && b.live[sid].uri == r.live[sid].uri
            && r.live[sid].q.sent <= b.live[sid].q.sent
  {
    LinkLaws.BodyParts(f);
    assert f.kind == STATUS_REPORT || f.kind == FAULT_REPORT;
    hide DecodeStatus, DecodeFault, RegionSpec.SwitchTo, Upserted, LampLaws.IsReport, Frame.Body;
  }

  lemma UpRefused(p: Refused, s: Joined, unixTime: u32)
    requires RefusedInv(p, s) && s.got < |s.l.q.written|
    ensures SessionRefuses(s.(r := RegionSpec.OnMessage(s.r, s.sid, s.l.q.written[s.got].Body(), unixTime),
                              got := s.got + 1))
  {
    var f := s.l.q.written[s.got];
    WrittenKind(p, s);
    hide LinkLaws.AreRuns, RegionSpec.OnMessage, LampLaws.IsRegister, LampLaws.IsReport, Frame.Body;
    if s.got == 0 {
      RefusalEffect(p, s.r, s.sid, f, unixTime);
    } else {
      ReportEffect(p, s.r, s.sid, f, unixTime);
    }
  }

  // The lamp's first frame is its registration, the others are reports
  lemma WrittenKind(p: Refused, s: Joined)
    requires RefusedInv(p, s) && s.got < |s.l.q.written|
    ensures if s.got == 0 then LampLaws.IsRegister(p.lamp, s.l.q.written[s.got])
            else LampLaws.IsReport(p.lamp, s.l.q.written[s.got])
  {
    LampLaws.LampInvariant(p.lamp, s.events);
    LinkLaws.WrittenPrefix(s.l.q);
    assert s.l.q.written[s.got] == s.l.q.sent[s.got];
    hide LampLaws.After, LampLaws.Possible, RegionSpec.After, RegionSpec.Possible;
  }

  lemma OtherRefused(s: Joined, b: RegionSpec.Region)
    requires SessionRefuses(s) && LinkLaws.Passed(s.r, b, s.sid) && b.born >= s.r.born
    ensures SessionRefuses(s.(r := b))
  {}

  // ----- the lamp's steps

  // A refused lamp that stays connected takes nothing, for the first frame it can take is the refusal
  lemma TakesNothing(p: Refused, s: Joined, roll: nat)
    requires RefusedInv(p, s) && s.taken < |DownQueue(s).written|
    ensures var e := LampSpec.Message(DownQueue(s).written[s.taken].Body(), roll);
            && LampEffects.Reconnecting(LampSpec.Step(p.lamp, s.l, s.r.now, e), s.r.now)
            && !Enabled(p, s, Down(roll))
  {
    var q := DownQueue(s);
    assert RegionSessions.QueueInv(q);
    LinkLaws.WrittenPrefix(q);
    assert q.written[0] == q.sent[0] && q.sent != [] && s.got >= 1;
    var f := q.written[0];
    LinkLaws.BodyParts(f);
    LampEffects.ConnectionGivenUp(p.lamp, s.l, s.r.now, f.Body(), roll);
    hide LinkLaws.AreRuns, Frame.Body;
  }

  lemma LampStaysRegistering(p: Refused, s: Joined, e: LampSpec.Event)
    requires RefusedInv(p, s) && !e.Message? && LampMay(p, s, e)
    ensures var m := LampSpec.Step(p.lamp, s.l, s.r.now, e);
            m.state == LampSpec.REGISTERING && s.l.q.written <= m.q.written
  {
    LampLaws.LampInvariant(p.lamp, s.events);
    hide LampLaws.After, LampLaws.Possible, RegionSpec.After, RegionSpec.Possible, LampLaws.SentInv;
    LampLaws.StateStep(p.lamp, s.l, s.r.now, e);
    LinkLaws.WrittenGrows(p.lamp, s.l, s.r.now, e);
    hide LampLaws.QueueInv, RegisterReqBytes, StatusBytes, FaultBytes;
  }

  // ----- runs

  lemma RegionActRefused(p: Refused, s: Joined, i: RegionSpec.Input)
    requires RefusedInv(p, s) && Enabled(p, s, Region(i))
    ensures RefusedInv(p, Step(p, s, Region(i)))
  {
    LinkLaws.RegionPasses(s.r, p.timeoutMs, i, s.sid);
    LinkLaws.RegionRunOn(p.start, p.timeoutMs, s.inputs, i);
    RegionSessions.QueuesStep(s.r, p.timeoutMs, i);
    RegionEffects.BornGrows(s.r, p.timeoutMs, i);
    hide RegionSpec.Step, RegionSpec.Enabled, RegionSpec.After, RegionSpec.Possible, LampLaws.After, LampLaws.Possible,
      RegionSessions.QueuesInv, Stamps, SessionRefuses;
    OtherRefused(s, RegionSpec.Step(s.r, p.timeoutMs, i));
    SameRefusal(s.(r := RegionSpec.Step(s.r, p.timeoutMs, i)), Step(p, s, Region(i)));
  }

  lemma SameRefusal(s: Joined, t: Joined)
    requires SessionRefuses(s) && t.r == s.r && t.sid == s.sid && t.got == s.got
    ensures SessionRefuses(t)
  {}

  lemma UpActRefused(p: Refused, s: Joined, unixTime: u32)
    requires RefusedInv(p, s) && Enabled(p, s, Up(unixTime))
    ensures RefusedInv(p, Step(p, s, Up(unixTime)))
  {
    var i := RegionSpec.Receive(s.sid, s.l.q.written[s.got].Body(), unixTime);
    UpRefused(p, s, unixTime);
    LinkLaws.RegionRunOn(p.start, p.timeoutMs, s.inputs, i);
    RegionSessions.QueuesStep(s.r, p.timeoutMs, i);
    var b := RegionSpec.OnMessage(s.r, s.sid, s.l.q.written[s.got].Body(), unixTime);
    assert RegionSpec.Step(s.r, p.timeoutMs, i) == b;
    hide RegionSpec.Step, RegionSpec.OnMessage, RegionSpec.After, RegionSpec.Possible, LampLaws.After,
      LampLaws.Possible, RegionSessions.QueuesInv, Stamps, SessionRefuses;
    SameRefusal(s.(r := b, got := s.got + 1), Step(p, s, Up(unixTime)));
  }

  lemma LampActRefused(p: Refused, s: Joined, e: LampSpec.Event)
    requires RefusedInv(p, s) && Enabled(p, s, Lamp(e))
    ensures RefusedInv(p, Step(p, s, Lamp(e)))
  {
    LampStaysRegistering(p, s, e);
    LinkLaws.LampRunOn(p.lamp, s.events, s.r.now, e);
    hide LampSpec.Step, LampSpec.Enabled, RegionSpec.After, RegionSpec.Possible, LampLaws.After, LampLaws.Possible,
      RegionSessions.QueuesInv, Stamps, SessionRefuses;
    SameRefusal(s, Step(p, s, Lamp(e)));
  }

  lemma RefusedStep(p: Refused, s: Joined, a: Act)
    requires RefusedInv(p, s) && s.sid in s.r.live && Enabled(p, s, a)
    ensures RefusedInv(p, Step(p, s, a)) && !a.Down?
  {
    if a.Down? {
      assert s.taken < |DownQueue(s).written|;
      hide RefusedInv, Enabled, Step;
      TakesNothing(p, s, a.roll);
    } else {
      hide RefusedInv, Enabled, Step;
      match a
      case Region(i) => RegionActRefused(p, s, i);
      case Up(unixTime) => UpActRefused(p, s, unixTime);
      case Lamp(e) => LampActRefused(p, s, e);
    }
  }

  lemma BeginRefused(p: Refused, inputs: seq<RegionSpec.Input>, events: seq<LampLaws.Occurrence>)
    requires CanBegin(p, inputs, events)
    ensures RefusedInv(p, Begin(p, inputs, events))
  {
    var s := Begin(p, inputs, events);
    LinkLaws.BeginRuns(p, inputs, events);
    RegionSessions.HandoverHolds(p.start, p.timeoutMs, inputs);
    RegionSessions.SessionQueuesInOrder(p.start, p.timeoutMs, inputs + [RegionSpec.Accept]);
    LampLaws.LampInvariant(p.lamp, events);
    hide RegionSpec.After, RegionSpec.Possible, LampLaws.After, LampLaws.Possible, LampLaws.SentInv,
      RegionSessions.QueuesInv;
    LinkLaws.NewcomerUnknown(RegionSpec.After(p.start, p.timeoutMs, inputs));
    hide RegionSessions.HandoverInv, RegisterReqBytes;
  }

  lemma {:induction false} RefusedHolds(p: Refused, trace: seq<Joined>, acts: seq<Act>, k: nat)
    requires IsRun(p, trace, acts) && k <= |acts|
    ensures RefusedInv(p, trace[k])
  {
    hide RefusedInv, CanBegin, Begin, Enabled, Step;
    if k == 0 {
      var inputs, events :| CanBegin(p, inputs, events) && trace[0] == Begin(p, inputs, events);
      BeginRefused(p, inputs, events);
    } else {
      RefusedHolds(p, trace, acts, k - 1);
      assert Follows(p, trace[k - 1], acts[k - 1], trace[k - 1 + 1]);
      RefusedStep(p, trace[k - 1], acts[k - 1]);
    }
  }

  /** In every run of a connection of a lamp without a zone or a uri: the lamp keeps registering and takes nothing, the
      region never takes the session for a device, and once it has got the registration the first frame of the session
      is the refusal. Whenever the lamp takes that frame it gives up the connection, with the reconnect timer two
      seconds on. */
  lemma RefusedLampReconnects(p: Refused, trace: seq<Joined>, acts: seq<Act>, k: nat, roll: nat)
    requires IsRun(p, trace, acts) && k <= |acts|
    ensures var s := trace[k];
            && s.sid in s.r.live && s.r.live[s.sid].uri == [] && s.l.state == LampSpec.REGISTERING && s.taken == 0
            && (forall v <- s.r.sessions :: s.r.sessions[v] != s.sid)
            && (s.got >= 1 ==> DownQueue(s).sent != [] && DownQueue(s).sent[0] == Frame(REGISTER_NACK, []))
            && (DownQueue(s).written != [] ==>
                  var e := LampSpec.Message(DownQueue(s).written[0].Body(), roll);
                  LampEffects.Reconnecting(LampSpec.Step(p.lamp, s.l, s.r.now, e), s.r.now))
  {
    RefusedHolds(p, trace, acts, k);
    var s := trace[k];
    if DownQueue(s).written != [] {
      TakesNothing(p, s, roll);
    }
    hide IsRun, LinkLaws.AreRuns, RegionSessions.QueuesInv, LampSpec.Step;
  }
}
