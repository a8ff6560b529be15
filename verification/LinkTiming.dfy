/** A connected lamp is never flagged as lost when its heartbeat and the delivery delays fit in the region's timeout. */
module LinkTiming {
  import opened Basics
  import opened Proto
  import opened Framing
  import opened WriteQueue
  import opened DeviceRegistry
  import opened LinkSpec
  import opened LinkLaws
  import RegionSpec
  import RegionLaws
  import RegionRuns
  import RegionSessions
  import LampSpec
  import LampLaws

  function Max(a: nat, b: nat): nat { if a < b then b else a }

  // Time passes only while no frame of the connection has waited longer than delay since it was handed to queue_send,
  // and a running heartbeat timer fires when it is due
  ghost predicate Timely(delay: nat, s: Joined, a: Act) {
    a.Region? && a.i.Elapse? ==>
      var t := s.r.now + a.i.ms;
      && Delivered(s.upAt, s.got, t, delay) && Delivered(s.downAt, s.taken, t, delay)
      && (s.l.state != LampSpec.REGISTERING && s.l.heartbeatTimer.Some? ==> t <= s.l.heartbeatTimer.value)
  }

  ghost predicate Delivered(at: seq<nat>, done: nat, now: nat, delay: nat) {
    forall i :: done <= i < |at| ==> now <= at[i] + delay
  }

  ghost predicate TimedRun(p: Setup, delay: nat, trace: seq<Joined>, acts: seq<Act>) {
    IsRun(p, trace, acts) && forall k :: 0 <= k < |acts| ==> Timely(delay, trace[k], acts[k])
  }

  function HeartbeatMs(p: Setup): nat
    requires p.lamp.heartbeatS > 0
  {
    1000 * p.lamp.heartbeatS
  }

  // The longest time between two sends of a registered lamp
  function Gap(p: Setup, delay: nat): nat
    requires p.lamp.heartbeatS > 0
  {
    Max(HeartbeatMs(p), delay)
  }

  // ----- the invariant

  // registered is when the region processed the registration
  ghost predicate Gaps(at: seq<nat>, registered: nat, gap: nat) {
    forall i :: 1 <= i < |at| ==> at[i] <= Max(registered, at[i - 1]) + gap
  }

  ghost predicate NotAfter(at: seq<nat>, now: nat) { forall t <- at :: t <= now }

  ghost predicate Heard(p: Setup, delay: nat, s: Joined)
    requires p.lamp.heartbeatS > 0
  {
    s.got >= 1 ==>
      && s.got <= |s.upAt| && s.downAt != [] && p.lamp.uri in s.r.reg.dev
      && Gaps(s.upAt, s.downAt[0], Gap(p, delay))
      && Max(s.downAt[0], s.upAt[s.got - 1]) <= s.r.reg.dev[p.lamp.uri].lastSeenMs
  }

  ghost predicate Beating(p: Setup, l: LampSpec.Lamp, upAt: seq<nat>, now: nat)
    requires p.lamp.heartbeatS > 0
  {
    l.state != LampSpec.REGISTERING ==>
      upAt != [] && l.heartbeatTimer.Some? && now <= l.heartbeatTimer.value <= upAt[|upAt| - 1] + HeartbeatMs(p)
  }

  ghost predicate TimingInv(p: Setup, delay: nat, s: Joined)
    requires p.lamp.heartbeatS > 0
  {
    && Heard(p, delay, s) && Beating(p, s.l, s.upAt, s.r.now)
    && Delivered(s.upAt, s.got, s.r.now, delay) && Delivered(s.downAt, s.taken, s.r.now, delay)
    && NotAfter(s.upAt, s.r.now) && NotAfter(s.downAt, s.r.now)
  }

  // ----- sequences of times

  lemma DeliveredOn(at: seq<nat>, done: nat, more: seq<nat>, now: nat, delay: nat)
    requires Delivered(at, done, now, delay) && NotAfter(at, now) && (forall t <- more :: t == now)
    ensures Delivered(at + more, done, now, delay) && NotAfter(at + more, now)
  {
    forall i | done <= i < |at + more|
      ensures now <= (at + more)[i] + delay
    {
      if i >= |at| {
        assert more[i - |at|] in more;
      }
    }
  }

  lemma GapsBefore(at: seq<nat>, registered: nat, gap: nat)
    requires NotAfter(at, registered)
    ensures Gaps(at, registered, gap)
  {
    forall i | 1 <= i < |at|
      ensures at[i] <= Max(registered, at[i - 1]) + gap
    {
      assert at[i] in at;
    }
  }

  lemma {:induction false} GapsOn(at: seq<nat>, n: int, now: nat, registered: nat, gap: nat)
    requires Gaps(at, registered, gap) && at != []
    requires now <= Max(registered, at[|at| - 1]) + gap
    ensures Gaps(at + Stamps(n, now), registered, gap)
  {
    if n <= 0 {
      assert at + [] == at;
    } else {
      GapsOn(at, n - 1, now, registered, gap);
      var init := at + Stamps(n - 1, now);
      assert at + Stamps(n, now) == init + [now];
      StampsLength(n - 1, now);
      assert init[|init| - 1] == now || init == at;
    }
  }

  // ----- steps of the region

  lemma SeenNeverBack(r: RegionSpec.Region, timeoutMs: u64, i: RegionSpec.Input, u: Str)
    requires RegionSpec.Enabled(r, timeoutMs, i) && RegionLaws.SeenInv(r) && u in r.reg.dev
    ensures var b := RegionSpec.Step(r, timeoutMs, i);
            && u in b.reg.dev && r.reg.dev[u].lastSeenMs <= b.reg.dev[u].lastSeenMs
            && b.now == r.now + if i.Elapse? then i.ms else 0
  {
    match i
    case Tick(order) =>
      hide RegionSpec.RaiseAll, IsLost;
      RegionLaws.RaiseAllReg(r.(reg := MarkLost(r.reg, r.now, timeoutMs)), order);
    case Telemetry(uri, zone, motion) =>
      hide RegionSpec.OnTelemetry;
      TelemetryNeverBack(r, uri, zone, motion, u);
    case Receive(sid, body, unixTime) =>
      hide RegionSpec.OnMessage;
      MessageNeverBack(r, sid, body, unixTime, u);
    case _ =>
  }

  lemma TelemetryNeverBack(r: RegionSpec.Region, uri: Str, zone: u32, motion: u8, u: Str)
    requires RegionLaws.SeenInv(r) && u in r.reg.dev
    ensures var b := RegionSpec.OnTelemetry(r, uri, zone, motion);
            u in b.reg.dev && r.reg.dev[u].lastSeenMs <= b.reg.dev[u].lastSeenMs && b.now == r.now
  {
    hide RegionSpec.Edges, RegionSpec.SwitchTo;
    RegionLaws.EdgesEffect(RegionSpec.SeenSensor(r, uri, zone), uri, zone, motion);
  }

  lemma MessageNeverBack(r: RegionSpec.Region, sid: nat, body: seq<u8>, unixTime: u32, u: Str)
    requires RegionLaws.SeenInv(r) && u in r.reg.dev && sid in r.live
    ensures var b := RegionSpec.OnMessage(r, sid, body, unixTime);
            u in b.reg.dev && r.reg.dev[u].lastSeenMs <= b.reg.dev[u].lastSeenMs && b.now == r.now
  {
    hide RegionSpec.HandleRegister, RegionSpec.HandleStatus, RegionSpec.HandleFault, DecodeRegisterReq, DecodeStatus,
      DecodeFault;
    if body != [] {
      var req, s, f := DecodeRegisterReq(body[1..]), DecodeStatus(body[1..]), DecodeFault(body[1..]);
      if req.Ok? {
        RegisterNotBack(r, sid, req.value, unixTime, u);
      }
      if s.Ok? {
        StatusNotBack(r, sid, s.value, u);
      }
      if f.Ok? {
        FaultNotBack(r, sid, f.value, u);
      }
    }
  }

  ghost predicate NotBack(r: RegionSpec.Region, b: RegionSpec.Region, u: Str)
    requires u in r.reg.dev
  {
    u in b.reg.dev && r.reg.dev[u].lastSeenMs <= b.reg.dev[u].lastSeenMs && b.now == r.now
  }

  lemma RegisterNotBack(r: RegionSpec.Region, sid: nat, req: RegisterReq, unixTime: u32, u: Str)
    requires RegionLaws.SeenInv(r) && u in r.reg.dev && sid in r.live
    ensures NotBack(r, RegionSpec.HandleRegister(r, sid, req, unixTime), u)
  {
    hide Send, Indexed;
  }

  lemma StatusNotBack(r: RegionSpec.Region, sid: nat, s: StatusReport, u: Str)
    requires RegionLaws.SeenInv(r) && u in r.reg.dev && sid in r.live
    ensures NotBack(r, RegionSpec.HandleStatus(r, sid, s), u)
  {
    hide Indexed;
  }

  lemma FaultNotBack(r: RegionSpec.Region, sid: nat, f: FaultReport, u: Str)
    requires RegionLaws.SeenInv(r) && u in r.reg.dev && sid in r.live
    ensures NotBack(r, RegionSpec.HandleFault(r, sid, f), u)
  {
    hide Send, RegionSpec.SwitchTo, Indexed;
  }

  lemma RegionEffect(r: RegionSpec.Region, timeoutMs: u64, i: RegionSpec.Input, sid: nat, u: Str)
    requires RegionSpec.Enabled(r, timeoutMs, i) && RegionLaws.SeenInv(r)
    requires sid in r.live && sid < r.born && !OnSocket(i, sid)
    ensures var b := RegionSpec.Step(r, timeoutMs, i);
            && Passed(r, b, sid)
            && b.now == r.now + (if i.Elapse? then i.ms else 0)
            && (i.Elapse? ==> b.live == r.live)
            && (u in r.reg.dev ==> u in b.reg.dev && r.reg.dev[u].lastSeenMs <= b.reg.dev[u].lastSeenMs)
  {
    RegionPasses(r, timeoutMs, i, sid);
    ClockOf(r, timeoutMs, i);
    if u in r.reg.dev {
      SeenNeverBack(r, timeoutMs, i, u);
    }
    if !i.Elapse? {
      hide *;
    }
  }

  // What a step of the region not on the lamp's socket does to the times
  lemma RegionTimes(p: Setup, s: Joined, i: RegionSpec.Input)
    requires LinkInv(p, s) && Enabled(p, s, Region(i))
    ensures var t := Step(p, s, Region(i));
            && t.got == s.got && t.taken == s.taken && t.upAt == s.upAt && t.l == s.l
            && t.r.now == s.r.now + (if i.Elapse? then i.ms else 0)
            && s.downAt <= t.downAt && (forall x <- t.downAt[|s.downAt|..] :: x == s.r.now)
            && (s.got == 0 || i.Elapse? ==> t.downAt == s.downAt)
            && (p.lamp.uri in s.r.reg.dev ==>
                  && p.lamp.uri in t.r.reg.dev
                  && s.r.reg.dev[p.lamp.uri].lastSeenMs <= t.r.reg.dev[p.lamp.uri].lastSeenMs)
  {
    hide RegionSpec.Step, AreRuns, LampLaws.Inv, RegionLaws.SeenInv, RegionSpec.Enabled, RegionSessions.QueuesInv;
    RunFacts(p, s);
    RegionEffect(s.r, p.timeoutMs, i, s.sid, p.lamp.uri);
    var b := RegionSpec.Step(s.r, p.timeoutMs, i);
    var more := Stamps(|b.live[s.sid].q.sent| - |s.downAt|, s.r.now);
    StampsLength(|b.live[s.sid].q.sent| - |s.downAt|, s.r.now);
    hide Stamps;
    assert (s.downAt + more)[|s.downAt|..] == more;
    assert more == [] ==> s.downAt + more == s.downAt;
  }

  lemma ClockOf(r: RegionSpec.Region, timeoutMs: u64, i: RegionSpec.Input)
    requires RegionSpec.Enabled(r, timeoutMs, i)
    ensures RegionSpec.Step(r, timeoutMs, i).now == r.now + if i.Elapse? then i.ms else 0
  {
    match i
    case Tick(order) =>
      hide RegionSpec.RaiseAll;
      RegionLaws.RaiseAllReg(r.(reg := MarkLost(r.reg, r.now, timeoutMs)), order);
    case Telemetry(uri, zone, motion) =>
      hide RegionSpec.Edges, RegionSpec.SwitchTo;
      RegionLaws.EdgesEffect(RegionSpec.SeenSensor(r, uri, zone), uri, zone, motion);
    case Receive(sid, body, unixTime) =>
      hide DecodeRegisterReq, DecodeStatus, DecodeFault, Send, RegionSpec.SwitchTo;
    case _ =>
  }

  lemma RegionHeard(p: Setup, delay: nat, s: Joined, t: Joined)
    requires p.lamp.heartbeatS > 0 && Heard(p, delay, s)
    requires t.got == s.got && t.upAt == s.upAt && s.downAt <= t.downAt
    requires p.lamp.uri in s.r.reg.dev ==>
               && p.lamp.uri in t.r.reg.dev
               && s.r.reg.dev[p.lamp.uri].lastSeenMs <= t.r.reg.dev[p.lamp.uri].lastSeenMs
    ensures Heard(p, delay, t)
  {
    hide Gaps, Gap;
  }

  lemma RegionTiming(p: Setup, delay: nat, s: Joined, i: RegionSpec.Input)
    requires p.lamp.heartbeatS > 0 && LinkInv(p, s) && TimingInv(p, delay, s)
    requires s.sid in s.r.live && Enabled(p, s, Region(i)) && Timely(delay, s, Region(i))
    ensures TimingInv(p, delay, Step(p, s, Region(i)))
  {
    RegionTimes(p, s, i);
    var t := Step(p, s, Region(i));
    hide LinkInv, Step, Enabled, Heard;
    RegionHeard(p, delay, s, t);
    var more := t.downAt[|s.downAt|..];
    assert t.downAt == s.downAt + more;
    if !i.Elapse? {
      DeliveredOn(s.downAt, s.taken, more, s.r.now, delay);
    }
  }

  lemma Numbers(p: Setup, s: Joined)
    requires LinkInv(p, s)
    ensures s.sid in s.r.live && s.l.link == LampSpec.Connected
    ensures s.got <= |s.upAt| == |s.l.q.sent| && s.taken <= |s.downAt| == |DownQueue(s).sent|
    ensures s.got < |s.l.q.written| ==> s.got < |s.upAt|
    ensures if s.got == 0 then s.downAt == [] else s.downAt != [] && p.lamp.uri in s.r.reg.dev
    ensures LampSpec.REGISTERING == s.l.state <==> s.taken == 0
    ensures LampLaws.StateInv(p.lamp, s.l) && LampLaws.QueueInv(p.lamp, s.l)
  {
    RunFacts(p, s);
    hide AreRuns, RegionLaws.SeenInv, RegionSessions.QueuesInv, Bound, LampLaws.SentInv, LampLaws.StateInv;
  }

  // What the lamp's next frame does to the times
  lemma UpTimes(p: Setup, s: Joined, unixTime: u32)
    requires LinkInv(p, s) && s.sid in s.r.live && Enabled(p, s, Up(unixTime))
    ensures var t := Step(p, s, Up(unixTime));
            && t.got == s.got + 1 && t.taken == s.taken && t.upAt == s.upAt && t.l == s.l
            && t.r.now == s.r.now
            && (exists n: int :: t.downAt == s.downAt + Stamps(n, s.r.now) && (s.got == 0 ==> n >= 1))
            && p.lamp.uri in t.r.reg.dev && t.r.reg.dev[p.lamp.uri].lastSeenMs == s.r.now
  {
    hide LinkInv, RegionSpec.OnMessage, LampLaws.StateInv, LampLaws.QueueInv, Stamps;
    UpEffect(p, s, unixTime);
    Numbers(p, s);
    UpShape(p, s, unixTime);
  }

  lemma UpShape(p: Setup, s: Joined, unixTime: u32)
    requires s.sid in s.r.live && s.got < |s.l.q.written| && s.sid in UpRegion(s, unixTime).live
    ensures var b, t := UpRegion(s, unixTime), Step(p, s, Up(unixTime));
            && t.r == b && t.got == s.got + 1 && t.taken == s.taken && t.upAt == s.upAt && t.l == s.l
            && t.downAt == s.downAt + Stamps(|b.live[s.sid].q.sent| - |s.downAt|, s.r.now)
  {
    hide RegionSpec.OnMessage, Stamps;
  }

  lemma UpTiming(p: Setup, delay: nat, s: Joined, unixTime: u32)
    requires p.lamp.heartbeatS > 0 && LinkInv(p, s) && TimingInv(p, delay, s)
    requires s.sid in s.r.live && Enabled(p, s, Up(unixTime))
    ensures TimingInv(p, delay, Step(p, s, Up(unixTime)))
  {
    UpTimes(p, s, unixTime);
    Numbers(p, s);
    var t := Step(p, s, Up(unixTime));
    assert s.got < |s.upAt|;
    hide LinkInv, Step, Enabled, Stamps, LampLaws.StateInv, LampLaws.QueueInv;
    var n: int :| t.downAt == s.downAt + Stamps(n, s.r.now) && (s.got == 0 ==> n >= 1);
    StampsLength(n, s.r.now);
    DeliveredOn(s.downAt, s.taken, Stamps(n, s.r.now), s.r.now, delay);
    UpHeard(p, delay, s, t, Stamps(n, s.r.now));
  }

  lemma UpHeard(p: Setup, delay: nat, s: Joined, t: Joined, more: seq<nat>)
    requires p.lamp.heartbeatS > 0 && Heard(p, delay, s) && NotAfter(s.upAt, s.r.now) && NotAfter(s.downAt, s.r.now)
    requires s.got < |s.upAt| && t.got == s.got + 1 && t.upAt == s.upAt
    requires t.downAt == s.downAt + more && (forall x <- more :: x == s.r.now)
    requires if s.got == 0 then s.downAt == [] && more != [] else s.downAt != []
    requires p.lamp.uri in t.r.reg.dev && t.r.reg.dev[p.lamp.uri].lastSeenMs == s.r.now
    ensures Heard(p, delay, t)
  {
    assert s.upAt[s.got] in s.upAt;
    if s.got == 0 {
      assert t.downAt[0] == more[0] && more[0] in more;
      GapsBefore(s.upAt, s.r.now, Gap(p, delay));
    } else {
      assert s.downAt[0] in s.downAt;
    }
    hide Gaps;
  }

  // ----- steps of the lamp

  // A handler of a registered lamp leaves the heartbeat timer alone, or sends and starts it anew
  lemma HeartbeatStep(p: Setup, l: LampSpec.Lamp, now: nat, e: LampSpec.Event)
    requires p.lamp.heartbeatS > 0 && LampLaws.StateInv(p.lamp, l) && l.link == LampSpec.Connected
    requires LampSpec.Enabled(l, e) && LampSpec.Step(p.lamp, l, now, e).link == LampSpec.Connected
    requires LampSpec.Step(p.lamp, l, now, e).state != LampSpec.REGISTERING
    ensures var m := LampSpec.Step(p.lamp, l, now, e);
            || (m.heartbeatTimer == l.heartbeatTimer && l.state != LampSpec.REGISTERING)
            || (m.heartbeatTimer == Some(now + HeartbeatMs(p)) && |m.q.sent| > |l.q.sent|)
  {
    match e
    case Message(body, roll) =>
      if body != [] && body[0] == CMD && DecodeCommand(body[1..]).Ok? {
        CommandKeepsTimer(p.lamp, l, DecodeCommand(body[1..]).value, roll);
        hide LampSpec.OnCommand, DecodeCommand;
      } else {
        hide DecodeCommand, StatusBytes;
      }
    case _ => hide StatusBytes, FaultBytes, RegisterReqBytes;
  }

  lemma CommandKeepsTimer(c: LampSpec.Config, l: LampSpec.Lamp, cmd: Command, roll: nat)
    ensures LampSpec.OnCommand(c, l, cmd, roll).heartbeatTimer == l.heartbeatTimer
    ensures l.state == LampSpec.REGISTERING ==> LampSpec.OnCommand(c, l, cmd, roll).state == LampSpec.REGISTERING
  {
    hide StatusBytes, FaultBytes;
  }

  // What a step of the lamp does to the times
  lemma LampTimes(p: Setup, delay: nat, s: Joined, e: LampSpec.Event)
    requires p.lamp.heartbeatS > 0 && LinkInv(p, s) && TimingInv(p, delay, s) && LampMay(p, s, e)
    ensures var t := LampTakes(p, s, e);
            && Beating(p, t.l, t.upAt, s.r.now)
            && Delivered(t.upAt, s.got, s.r.now, delay) && NotAfter(t.upAt, s.r.now)
            && s.upAt <= t.upAt
  {
    hide LampSpec.Step, LampSpec.Enabled, LinkInv, LampLaws.IsReport, Heard, Stamps, LampLaws.StateInv,
      LampLaws.QueueInv;
    Numbers(p, s);
    var m := LampSpec.Step(p.lamp, s.l, s.r.now, e);
    LampLaws.SentStep(p.lamp, s.l, s.r.now, e);
    var n := |m.q.sent| - |s.upAt|;
    StampsLength(n, s.r.now);
    DeliveredOn(s.upAt, s.got, Stamps(n, s.r.now), s.r.now, delay);
    if m.state != LampSpec.REGISTERING {
      HeartbeatStep(p, s.l, s.r.now, e);
      LastStamp(s.upAt, n, s.r.now);
    }
  }

  lemma LastStamp(at: seq<nat>, n: int, now: nat)
    requires NotAfter(at, now)
    ensures n > 0 || at != [] ==> var all := at + Stamps(n, now);
                                  && all != [] && (n > 0 ==> all[|all| - 1] == now)
                                  && (at != [] ==> at[|at| - 1] <= all[|all| - 1])
  {
    StampsLength(n, now);
    assert at != [] ==> at[|at| - 1] in at;
  }

  lemma LampGaps(p: Setup, delay: nat, s: Joined, e: LampSpec.Event)
    requires p.lamp.heartbeatS > 0 && LinkInv(p, s) && TimingInv(p, delay, s) && s.got >= 1
    ensures s.downAt != []
    ensures Gaps(LampTakes(p, s, e).upAt, s.downAt[0], Gap(p, delay))
  {
    hide LampSpec.Step, AreRuns, Gaps;
    GapsOn(s.upAt, |LampTakes(p, s, e).l.q.sent| - |s.upAt|, s.r.now, s.downAt[0], Gap(p, delay));
  }

  lemma LampTiming(p: Setup, delay: nat, s: Joined, e: LampSpec.Event, taken: nat)
    requires p.lamp.heartbeatS > 0 && LinkInv(p, s) && TimingInv(p, delay, s) && LampMay(p, s, e)
    requires s.taken <= taken
    ensures TimingInv(p, delay, LampTakes(p, s, e).(taken := taken))
  {
    var t := LampTakes(p, s, e).(taken := taken);
    assert t.r == s.r && t.downAt == s.downAt && t.got == s.got;
    hide LinkInv, LampTakes, LampMay, Heard, Beating;
    LampTimes(p, delay, s, e);
    if s.got >= 1 {
      LampGaps(p, delay, s, e);
    }
    LampHeard(p, delay, s, t);
  }

  lemma LampHeard(p: Setup, delay: nat, s: Joined, t: Joined)
    requires p.lamp.heartbeatS > 0 && Heard(p, delay, s)
    requires t.r == s.r && t.downAt == s.downAt && t.got == s.got && s.upAt <= t.upAt
    requires s.got >= 1 ==> s.downAt != [] && Gaps(t.upAt, s.downAt[0], Gap(p, delay))
    ensures Heard(p, delay, t)
  {
    hide Gaps, Gap;
  }

  // ----- the result

  lemma BeginTimes(p: Setup, inputs: seq<RegionSpec.Input>, events: seq<LampLaws.Occurrence>)
    ensures var s := Begin(p, inputs, events);
            s.got == 0 && s.taken == 0 && s.upAt == [s.r.now] && s.downAt == []
  {
    hide RegionSpec.After, LampLaws.After, LampSpec.Step;
  }

  lemma BeginTiming(p: Setup, delay: nat, inputs: seq<RegionSpec.Input>, events: seq<LampLaws.Occurrence>)
    requires p.lamp.heartbeatS > 0 && CanBegin(p, inputs, events)
    ensures TimingInv(p, delay, Begin(p, inputs, events))
  {
    hide CanBegin, Begin, LinkInv, Heard, LampLaws.StateInv, LampLaws.QueueInv;
    var s := Begin(p, inputs, events);
    BeginInv(p, inputs, events);
    BeginTimes(p, inputs, events);
    Numbers(p, s);
    NotHeard(p, delay, s);
  }

  lemma FirstTiming(p: Setup, delay: nat, trace: seq<Joined>, acts: seq<Act>)
    requires p.lamp.heartbeatS > 0 && IsRun(p, trace, acts)
    ensures TimingInv(p, delay, trace[0])
  {
    hide CanBegin, Begin, TimingInv, Follows;
    var inputs, events :| CanBegin(p, inputs, events) && trace[0] == Begin(p, inputs, events);
    BeginTiming(p, delay, inputs, events);
  }

  lemma NotHeard(p: Setup, delay: nat, s: Joined)
    requires p.lamp.heartbeatS > 0 && s.got == 0
    ensures Heard(p, delay, s)
  {}

  lemma LampActTiming(p: Setup, delay: nat, s: Joined, e: LampSpec.Event)
    requires p.lamp.heartbeatS > 0 && LinkInv(p, s) && s.sid in s.r.live && TimingInv(p, delay, s)
    requires Enabled(p, s, Lamp(e))
    ensures TimingInv(p, delay, Step(p, s, Lamp(e)))
  {
    hide TimingInv, LinkInv, LampTakes, LampMay;
    LampTiming(p, delay, s, e, s.taken);
    LampTakesNothing(p, s, e);
  }

  lemma LampTakesNothing(p: Setup, s: Joined, e: LampSpec.Event)
    ensures LampTakes(p, s, e) == LampTakes(p, s, e).(taken := s.taken)
  {
    hide LampSpec.Step, Stamps;
  }

  lemma DownActTiming(p: Setup, delay: nat, s: Joined, roll: nat)
    requires p.lamp.heartbeatS > 0 && LinkInv(p, s) && s.sid in s.r.live && TimingInv(p, delay, s)
    requires Enabled(p, s, Down(roll))
    ensures TimingInv(p, delay, Step(p, s, Down(roll)))
  {
    hide TimingInv, LinkInv, LampTakes, LampMay, Frame.Body;
    LampTiming(p, delay, s, LampSpec.Message(DownQueue(s).written[s.taken].Body(), roll), s.taken + 1);
  }

  lemma TimingStep(p: Setup, delay: nat, s: Joined, a: Act)
    requires p.lamp.heartbeatS > 0 && LinkInv(p, s) && s.sid in s.r.live && TimingInv(p, delay, s)
    requires Enabled(p, s, a) && Timely(delay, s, a)
    ensures TimingInv(p, delay, Step(p, s, a))
  {
    hide *;
    match a
    case Region(i) => RegionTiming(p, delay, s, i);
    case Up(unixTime) => UpTiming(p, delay, s, unixTime);
    case Lamp(e) => LampActTiming(p, delay, s, e);
    case Down(roll) => DownActTiming(p, delay, s, roll);
  }

  lemma {:induction false} TimingHolds(p: Setup, delay: nat, trace: seq<Joined>, acts: seq<Act>, k: nat)
    requires p.lamp.heartbeatS > 0 && TimedRun(p, delay, trace, acts) && k <= |acts|
    ensures TimingInv(p, delay, trace[k])
  {
    hide TimingInv, LinkInv, Enabled, Step, Timely, CanBegin, Begin;
    if k == 0 {
      FirstTiming(p, delay, trace, acts);
    } else {
      TimingHolds(p, delay, trace, acts, k - 1);
      LinkInvariant(p, trace, acts, k - 1);
      assert Follows(p, trace[k - 1], acts[k - 1], trace[k - 1 + 1]);
      TimingStep(p, delay, trace[k - 1], acts[k - 1]);
    }
  }

  lemma HeardRecently(p: Setup, delay: nat, s: Joined)
    requires p.lamp.heartbeatS > 0 && LinkInv(p, s) && TimingInv(p, delay, s) && s.got >= 1
    ensures s.r.now - s.r.reg.dev[p.lamp.uri].lastSeenMs <= delay + Max(1000 * p.lamp.heartbeatS, delay)
  {
    hide AreRuns;
    var seen, registered := s.r.reg.dev[p.lamp.uri].lastSeenMs, s.downAt[0];
    if s.got < |s.upAt| {
      assert s.upAt[s.got] <= Max(registered, s.upAt[s.got - 1]) + Gap(p, delay);
    } else if s.l.state == LampSpec.REGISTERING {
      assert s.r.now <= registered + delay;
    } else {
      assert s.r.now <= s.upAt[s.got - 1] + HeartbeatMs(p);
    }
  }

  /** In every run of a connection that stays up, with every frame delivered within delay and the lamp's heartbeat timer
      firing when due: from the moment the region has processed the registration, the lamp was heard from at most
      delay plus the larger of its heartbeat period and delay ago. If that fits in the timeout, no tick flags it. */
  lemma ConnectedLampIsNeverLost(p: Setup, delay: nat, trace: seq<Joined>, acts: seq<Act>, k: nat)
    requires p.lamp.heartbeatS > 0 && TimedRun(p, delay, trace, acts) && k <= |acts| && trace[k].got >= 1
    ensures var r, u := trace[k].r, p.lamp.uri;
            && u in r.reg.dev
            && 0 <= r.now - r.reg.dev[u].lastSeenMs <= delay + Max(1000 * p.lamp.heartbeatS, delay)
            && (delay + Max(1000 * p.lamp.heartbeatS, delay) <= p.timeoutMs
                ==> u !in LostSet(r.reg.dev, r.now, p.timeoutMs))
  {
    TimingHolds(p, delay, trace, acts, k);
    LinkInvariant(p, trace, acts, k);
    HeardRecently(p, delay, trace[k]);
    RunFacts(p, trace[k]);
    var r := trace[k].r;
    assert r.reg.dev[p.lamp.uri].lastSeenMs <= r.now;
    hide TimedRun, TimingInv, AreRuns;
    RegionRuns.NoWrap(r.now, r.reg.dev[p.lamp.uri].lastSeenMs);
  }
}
