/** Nothing gets stuck in a connection: from every state everything sent can still arrive. */
module LinkProgress {
  import opened Basics
  import opened Proto
  import opened Framing
  import opened WriteQueue
  import opened LinkSpec
  import opened LinkLaws
  import opened LinkTiming
  import opened LinkMotion
  import RegionSpec
  import LampSpec
  import LampLaws

  // A run in which the theorems about time and about commands apply
  ghost predicate Good(p: Setup, delay: nat, trace: seq<Joined>, acts: seq<Act>) {
    SoleRun(p, trace, acts) && TimedRun(p, delay, trace, acts)
  }

  lemma GoodLength(p: Setup, delay: nat, trace: seq<Joined>, acts: seq<Act>)
    requires Good(p, delay, trace, acts)
    ensures |trace| == |acts| + 1 && IsRun(p, trace, acts) && SoleRun(p, trace, acts)
  {
    hide Alone, Follows, CanBegin, Begin, Timely;
  }

  // The second run goes on from the first, and no motion is told to the lamp or missed by it
  ghost predicate GoesOn(p: Setup, sensor: Str, trace: seq<Joined>, acts: seq<Act>, t: seq<Joined>, b: seq<Act>) {
    && trace <= t && acts <= b && |trace| == |acts| + 1 && |t| == |b| + 1
    && LastCalled(p, t, b, |b|) == LastCalled(p, trace, acts, |acts|)
    && Missed(p, sensor, t, b, |b|) == Missed(p, sensor, trace, acts, |acts|)
    && (OneSensorRun(p, sensor, trace, acts) ==> OneSensorRun(p, sensor, t, b))
  }

  lemma GoesOnJoins(p: Setup, sensor: Str, trace: seq<Joined>, acts: seq<Act>, t: seq<Joined>, b: seq<Act>,
                    v: seq<Joined>, c: seq<Act>)
    requires GoesOn(p, sensor, trace, acts, t, b) && GoesOn(p, sensor, t, b, v, c)
    ensures GoesOn(p, sensor, trace, acts, v, c)
  {
    hide LastCalled, Missed, OneSensorRun;
  }

  function End(trace: seq<Joined>): Joined
    requires trace != []
  {
    trace[|trace| - 1]
  }

  // ----- one more step

  lemma RunGrows(p: Setup, trace: seq<Joined>, acts: seq<Act>, a: Act)
    requires IsRun(p, trace, acts) && End(trace).sid in End(trace).r.live && LinkSpec.Enabled(p, End(trace), a)
    ensures IsRun(p, trace + [LinkSpec.Step(p, End(trace), a)], acts + [a])
  {
    var t, b := trace + [LinkSpec.Step(p, End(trace), a)], acts + [a];
    assert Follows(p, End(trace), a, LinkSpec.Step(p, End(trace), a));
    hide Follows, CanBegin, Begin, LinkSpec.Step;
    assert t[0] == trace[0];
    forall k | 0 <= k < |b|
      ensures Follows(p, t[k], b[k], t[k + 1])
    {
      if k < |acts| {
        assert t[k] == trace[k] && b[k] == acts[k] && t[k + 1] == trace[k + 1];
      }
    }
  }

  lemma {:induction false} SamePast(p: Setup, trace: seq<Joined>, acts: seq<Act>, t: seq<Joined>, b: seq<Act>, k: nat)
    requires trace <= t && acts <= b && |trace| == |acts| + 1 && |t| == |b| + 1 && k <= |acts|
    ensures LastCalled(p, t, b, k) == LastCalled(p, trace, acts, k)
  {
    hide CalledBy, Later;
    if k > 0 {
      SamePast(p, trace, acts, t, b, k - 1);
      assert t[k - 1] == trace[k - 1] && b[k - 1] == acts[k - 1];
    }
  }

  lemma {:induction false} SameMissed(p: Setup, sensor: Str, trace: seq<Joined>, acts: seq<Act>, t: seq<Joined>,
                                      b: seq<Act>, k: nat)
    requires trace <= t && acts <= b && |trace| == |acts| + 1 && |t| == |b| + 1 && k <= |acts|
    ensures Missed(p, sensor, t, b, k) == Missed(p, sensor, trace, acts, k)
  {
    hide MissedBy;
    if k > 0 {
      SameMissed(p, sensor, trace, acts, t, b, k - 1);
      assert t[k - 1] == trace[k - 1] && b[k - 1] == acts[k - 1];
    }
  }

  lemma Grow(p: Setup, sensor: Str, delay: nat, trace: seq<Joined>, acts: seq<Act>, a: Act)
    returns (t: seq<Joined>, b: seq<Act>)
    requires Good(p, delay, trace, acts) && trace != [] && End(trace).sid in End(trace).r.live
    requires LinkSpec.Enabled(p, End(trace), a) && Alone(p, a) && Timely(delay, End(trace), a)
    ensures t == trace + [LinkSpec.Step(p, End(trace), a)] && b == acts + [a] && Good(p, delay, t, b)
    ensures |t| == |b| + 1 && |trace| == |acts| + 1
    ensures LastCalled(p, t, b, |b|) == Later(LastCalled(p, trace, acts, |acts|), CalledBy(p, End(trace), a))
    ensures Missed(p, sensor, t, b, |b|) == MissedBy(End(trace), a, sensor, Missed(p, sensor, trace, acts, |acts|))
    ensures OneSensorRun(p, sensor, trace, acts) && OneSensor(p, sensor, End(trace), a)
            ==> OneSensorRun(p, sensor, t, b)
  {
    hide LinkSpec.Enabled, LinkSpec.Step, Alone, OneSensor, Timely, IsRun, CalledBy, Later, MissedBy;
    GoodLength(p, delay, trace, acts);
    t, b := trace + [LinkSpec.Step(p, End(trace), a)], acts + [a];
    RunGrows(p, trace, acts, a);
    SamePast(p, trace, acts, t, b, |acts|);
    SameMissed(p, sensor, trace, acts, t, b, |acts|);
    assert t[|acts|] == End(trace) && b[|acts|] == a;
    forall k | 0 <= k < |b|
      ensures Alone(p, b[k]) && Timely(delay, t[k], b[k])
      ensures OneSensorRun(p, sensor, trace, acts) && OneSensor(p, sensor, End(trace), a)
              ==> OneSensor(p, sensor, t[k], b[k])
    {
      if k < |acts| {
        assert t[k] == trace[k] && b[k] == acts[k];
      }
    }
  }

  // ----- the steps that only move frames

  predicate Moves(a: Act, sid: nat) {
    match a
    case Region(i) => i == RegionSpec.RunQueue(sid) || i == RegionSpec.WriteDone(sid)
    case Lamp(e) => e == LampSpec.RunPosted || e == LampSpec.Written
    case Up(_) => true
    case Down(_) => true
  }

  // The heartbeat timer of a registered lamp was started now
  predicate JustStarted(p: Setup, l: LampSpec.Lamp, now: nat)
    requires p.lamp.heartbeatS > 0
  {
    l.state != LampSpec.REGISTERING ==> l.heartbeatTimer == Some(now + HeartbeatMs(p))
  }

  lemma MovesAreGood(p: Setup, sensor: Str, delay: nat, s: Joined, a: Act)
    requires Moves(a, s.sid) && s.got >= 1
    ensures Alone(p, a) && OneSensor(p, sensor, s, a) && Timely(delay, s, a)
    ensures forall last :: Later(last, CalledBy(p, s, a)) == last
    ensures forall before :: MissedBy(s, a, sensor, before) == before
  {}

  lemma FreshStep(p: Setup, s: Joined, e: LampSpec.Event)
    requires p.lamp.heartbeatS > 0 && LinkInv(p, s) && LampMay(p, s, e) && JustStarted(p, s.l, s.r.now)
    ensures JustStarted(p, LampSpec.Step(p.lamp, s.l, s.r.now, e), s.r.now)
  {
    hide LinkInv, LampSpec.Step, LampSpec.Enabled, LampLaws.QueueInv, LampLaws.StateInv;
    Numbers(p, s);
    if LampSpec.Step(p.lamp, s.l, s.r.now, e).state != LampSpec.REGISTERING {
      HeartbeatStep(p, s.l, s.r.now, e);
    }
  }

  lemma MoveGoesOn(p: Setup, sensor: Str, trace: seq<Joined>, acts: seq<Act>, t: seq<Joined>, b: seq<Act>,
                   s: Joined, a: Act)
    requires |trace| == |acts| + 1 && |t| == |b| + 1 && trace <= t && b == acts + [a] && OneSensor(p, sensor, s, a)
    requires LastCalled(p, t, b, |b|) == Later(LastCalled(p, trace, acts, |acts|), CalledBy(p, s, a))
    requires Missed(p, sensor, t, b, |b|) == MissedBy(s, a, sensor, Missed(p, sensor, trace, acts, |acts|))
    requires OneSensorRun(p, sensor, trace, acts) ==> OneSensorRun(p, sensor, t, b)
    requires forall last :: Later(last, CalledBy(p, s, a)) == last
    requires forall before :: MissedBy(s, a, sensor, before) == before
    ensures GoesOn(p, sensor, trace, acts, t, b)
  {
    hide LastCalled, Missed, OneSensorRun, Later, CalledBy, MissedBy, OneSensor;
  }

  lemma StaysOn(p: Setup, sensor: Str, trace: seq<Joined>, acts: seq<Act>)
    requires |trace| == |acts| + 1
    ensures GoesOn(p, sensor, trace, acts, trace, acts)
  {}

  // What is still to do until every frame of a queue is written and taken
  function Pending(q: Queue, taken: nat): int {
    4 * |q.posted| + 3 * |q.outQ| + (if q.inFlight.Some? then 2 else 0) + |q.written| - taken
  }

  lemma RunPostedProgress(q: Queue, taken: nat)
    requires q.Shape() && q.posted != []
    ensures Pending(RunPosted(q), taken) < Pending(q, taken) && RunPosted(q).sent == q.sent
    ensures RunPosted(q).written == q.written
  {}

  lemma WrittenProgress(q: Queue, taken: nat)
    requires q.Shape() && q.inFlight.Some?
    ensures Pending(DoWrite(Completed(q)), taken) < Pending(q, taken) && DoWrite(Completed(q)).sent == q.sent
  {}

  lemma NothingPending(q: Queue, taken: nat)
    requires q.Shape() && q.InOrder() && taken <= |q.written| && Pending(q, taken) <= 0
    ensures taken == |q.sent|
  {
    assert q.written + q.InFlight() + q.outQ + q.posted == q.written;
  }

  // ----- the session's frames reach the lamp

  ghost predicate DownKinds(s: Joined)
    requires s.sid in s.r.live
  {
    forall f <- DownQueue(s).sent :: f.kind == REGISTER_ACK || f.kind == CMD || f.kind == FAULT_ACK
  }

  lemma KindsHold(p: Setup, trace: seq<Joined>, acts: seq<Act>)
    requires SoleRun(p, trace, acts) && |trace| == |acts| + 1 && End(trace).got >= 1
    ensures LinkInv(p, End(trace)) && DownKinds(End(trace))
  {
    hide IsRun, Issued, CommandsIn, LinkInv;
    LinkInvariant(p, trace, acts, |acts|);
    SessionIsSentItsCommands(p, trace, acts, |acts|);
    var sent := DownQueue(End(trace)).sent;
    assert sent == [sent[0]] + sent[1..];
  }

  lemma StaysConnected(c: LampSpec.Config, l: LampSpec.Lamp, now: nat, f: Frame)
    requires f.kind != REGISTER_NACK && l.link == LampSpec.Connected
    ensures LampSpec.OnMessage(c, l, now, f.Body(), 1000).link == LampSpec.Connected
    ensures f.kind == FAULT_ACK ==> LampSpec.OnMessage(c, l, now, f.Body(), 1000) == l
  {
    BodyParts(f);
    hide DecodeCommand, StatusBytes, FaultBytes, Frame.Body;
  }

  // The lamp's answer to what is on its way would be nothing
  ghost predicate NoReply(s: Joined)
    requires s.sid in s.r.live
  {
    forall i :: s.taken <= i < |DownQueue(s).sent| ==> DownQueue(s).sent[i].kind == FAULT_ACK
  }

  function DownAct(s: Joined): Act
    requires s.sid in s.r.live
  {
    if DownQueue(s).posted != [] then Act.Region(RegionSpec.RunQueue(s.sid))
    else if DownQueue(s).inFlight.Some? then Act.Region(RegionSpec.WriteDone(s.sid))
    else Down(1000)
  }

  // What a step towards the lamp changes and keeps
  ghost predicate DownMoved(p: Setup, s: Joined, t: Joined)
    requires s.sid in s.r.live && p.lamp.heartbeatS > 0
  {
    && t.sid == s.sid && t.sid in t.r.live && t.r.now == s.r.now && t.got == s.got
    && DownQueue(t).sent == DownQueue(s).sent && s.taken <= t.taken
    && (JustStarted(p, s.l, s.r.now) ==> JustStarted(p, t.l, t.r.now))
    && (NoReply(s) ==> t.l.q.sent == s.l.q.sent)
  }

  // What a step of the session's write queue does
  ghost predicate QueueMoved(s: Joined, t: Joined, q: Queue) {
    && t.sid == s.sid && t.got == s.got && t.taken == s.taken && t.l == s.l
    && t.r.now == s.r.now && t.sid in t.r.live && DownQueue(t) == q
  }

  lemma QueueShapes(p: Setup, s: Joined)
    requires s.sid in s.r.live
    ensures QueueMoved(s, LinkSpec.Step(p, s, Act.Region(RegionSpec.RunQueue(s.sid))), RunPosted(DownQueue(s)))
    ensures QueueMoved(s, LinkSpec.Step(p, s, Act.Region(RegionSpec.WriteDone(s.sid))),
                       DoWrite(Completed(DownQueue(s))))
  {
    hide Stamps, RunPosted, DoWrite, Completed;
  }

  lemma QueueStepDown(p: Setup, s: Joined)
    requires p.lamp.heartbeatS > 0 && LinkInv(p, s) && !DownAct(s).Down?
    ensures var a := DownAct(s); var t := LinkSpec.Step(p, s, a);
            && LinkSpec.Enabled(p, s, a) && DownMoved(p, s, t)
            && Pending(DownQueue(t), t.taken) < Pending(DownQueue(s), s.taken)
  {
    RunFacts(p, s);
    var q := DownQueue(s);
    assert q.Shape() && LinkSpec.Enabled(p, s, DownAct(s));
    hide LinkInv, Facts, Pending, RunPosted, DoWrite, Completed, NoReply, LinkSpec.Step, LinkSpec.Enabled;
    QueueShapes(p, s);
    if q.posted != [] {
      RunPostedProgress(q, s.taken);
    } else {
      WrittenProgress(q, s.taken);
    }
  }

  lemma TakeIsMessage(p: Setup, s: Joined, f: Frame)
    requires s.l.link == LampSpec.Connected
    requires LampSpec.OnMessage(p.lamp, s.l, s.r.now, f.Body(), 1000).link == LampSpec.Connected
    ensures LampMay(p, s, LampSpec.Message(f.Body(), 1000))
    ensures LampSpec.Step(p.lamp, s.l, s.r.now, LampSpec.Message(f.Body(), 1000))
            == LampSpec.OnMessage(p.lamp, s.l, s.r.now, f.Body(), 1000)
  {
    hide LampSpec.OnMessage, Frame.Body;
  }

  lemma TakeStep(p: Setup, s: Joined)
    requires p.lamp.heartbeatS > 0 && LinkInv(p, s) && DownKinds(s) && s.taken < |DownQueue(s).written|
    ensures var t := LinkSpec.Step(p, s, Down(1000));
            && LinkSpec.Enabled(p, s, Down(1000)) && DownMoved(p, s, t)
            && Pending(DownQueue(t), t.taken) < Pending(DownQueue(s), s.taken)
  {
    RunFacts(p, s);
    var f := DownQueue(s).written[s.taken];
    assert f == DownQueue(s).sent[s.taken] && f in DownQueue(s).sent;
    assert s.l.link == LampSpec.Connected;
    hide LinkInv, LampSpec.OnMessage, Facts, Frame.Body, LinkSpec.Step, LampMay, LampSpec.Step;
    StaysConnected(p.lamp, s.l, s.r.now, f);
    TakeIsMessage(p, s, f);
    DownShape(p, s, 1000);
    var t := LinkSpec.Step(p, s, Down(1000));
    if JustStarted(p, s.l, s.r.now) {
      FreshStep(p, s, LampSpec.Message(f.Body(), 1000));
    }
  }

  lemma DownStep(p: Setup, s: Joined)
    requires p.lamp.heartbeatS > 0 && LinkInv(p, s) && DownKinds(s) && Pending(DownQueue(s), s.taken) > 0
    ensures var a := DownAct(s); var t := LinkSpec.Step(p, s, a);
            && LinkSpec.Enabled(p, s, a) && DownMoved(p, s, t) && Moves(a, s.sid)
            && Pending(DownQueue(t), t.taken) < Pending(DownQueue(s), s.taken)
  {
    if DownAct(s).Down? {
      RunFacts(p, s);
      assert DownQueue(s).Shape();
      assert s.taken < |DownQueue(s).written|;
      hide LinkInv, Facts, DownMoved, LinkSpec.Step, LinkSpec.Enabled, DownKinds;
      TakeStep(p, s);
    } else {
      hide LinkInv, DownMoved, LinkSpec.Step, LinkSpec.Enabled, DownKinds, Pending;
      QueueStepDown(p, s);
    }
  }

  lemma DownMovedJoins(p: Setup, s: Joined, t: Joined, v: Joined)
    requires p.lamp.heartbeatS > 0 && s.sid in s.r.live && DownMoved(p, s, t) && DownMoved(p, t, v)
    ensures DownMoved(p, s, v)
  {}

  function DownToDo(s: Joined): nat {
    if s.sid in s.r.live && Pending(DownQueue(s), s.taken) > 0 then Pending(DownQueue(s), s.taken) else 0
  }

  lemma OneDown(p: Setup, sensor: Str, delay: nat, trace: seq<Joined>, acts: seq<Act>)
    returns (t: seq<Joined>, b: seq<Act>)
    requires p.lamp.heartbeatS > 0 && Good(p, delay, trace, acts) && trace != [] && End(trace).got >= 1
    requires DownToDo(End(trace)) > 0
    ensures Good(p, delay, t, b) && GoesOn(p, sensor, trace, acts, t, b) && t != []
    ensures End(trace).sid in End(trace).r.live && DownMoved(p, End(trace), End(t))
    ensures End(t).got >= 1 && DownToDo(End(t)) < DownToDo(End(trace))
  {
    var s := End(trace);
    hide *;
    GoodLength(p, delay, trace, acts);
    KindsHold(p, trace, acts);
    LastInv(p, trace, acts);
    var v := LinkSpec.Step(p, s, DownAct(s));
    ToDo(s);
    DownStep(p, s);
    MovesAreGood(p, sensor, delay, s, DownAct(s));
    t, b := Grow(p, sensor, delay, trace, acts, DownAct(s));
    EndOfGrown(trace, v);
    MoveGoesOn(p, sensor, trace, acts, t, b, s, DownAct(s));
    DownMovedMeans(p, s, v);
    ToDo(v);
  }

  lemma ToDo(s: Joined)
    requires s.sid in s.r.live
    ensures DownToDo(s) == if Pending(DownQueue(s), s.taken) > 0 then Pending(DownQueue(s), s.taken) else 0
  {}

  /** From every state of a run the session's frames can all reach the lamp, by steps that only move frames. */
  lemma {:induction false} LampCanTakeAll(p: Setup, sensor: Str, delay: nat, trace: seq<Joined>, acts: seq<Act>)
    returns (t: seq<Joined>, b: seq<Act>)
    requires p.lamp.heartbeatS > 0 && Good(p, delay, trace, acts) && trace != [] && End(trace).got >= 1
    ensures Good(p, delay, t, b) && GoesOn(p, sensor, trace, acts, t, b) && t != []
    ensures End(trace).sid in End(trace).r.live && DownMoved(p, End(trace), End(t))
    ensures End(t).taken == |DownQueue(End(t)).sent|
    decreases DownToDo(End(trace))
  {
    hide *;
    if DownToDo(End(trace)) > 0 {
      var t1, b1 := OneDown(p, sensor, delay, trace, acts);
      t, b := LampCanTakeAll(p, sensor, delay, t1, b1);
      DownMovedJoins(p, End(trace), End(t1), End(t));
      GoesOnJoins(p, sensor, trace, acts, t1, b1, t, b);
    } else {
      GoodLength(p, delay, trace, acts);
      LastInv(p, trace, acts);
      ToDo(End(trace));
      t, b := trace, acts;
      StaysOn(p, sensor, trace, acts);
      DownAllTaken(p, End(trace));
    }
  }

  lemma DownAllTaken(p: Setup, s: Joined)
    requires p.lamp.heartbeatS > 0 && LinkInv(p, s) && Pending(DownQueue(s), s.taken) <= 0
    ensures s.taken == |DownQueue(s).sent| && DownMoved(p, s, s)
  {
    RunFacts(p, s);
    hide AreRuns, LampLaws.Inv, JustStarted;
    NothingPending(DownQueue(s), s.taken);
  }

  // ----- the lamp's frames reach the region

  function UpAct(s: Joined): Act {
    if s.l.q.posted != [] then Lamp(LampSpec.RunPosted)
    else if s.l.q.inFlight.Some? then Lamp(LampSpec.Written)
    else Up(0)
  }

  // A pending fault is one more frame
  function UpPending(s: Joined): int { Pending(s.l.q, s.got) + if s.l.pendingFault then 5 else 0 }

  // What a step towards the region changes and keeps
  ghost predicate UpMoved(p: Setup, s: Joined, t: Joined)
    requires s.sid in s.r.live && p.lamp.heartbeatS > 0
  {
    && t.sid == s.sid && t.sid in t.r.live && t.r.now == s.r.now && t.taken == s.taken && s.got <= t.got
    && DownQueue(s).sent <= DownQueue(t).sent
    && (forall i :: |DownQueue(s).sent| <= i < |DownQueue(t).sent| ==> DownQueue(t).sent[i].kind == FAULT_ACK)
    && (JustStarted(p, s.l, s.r.now) ==> JustStarted(p, t.l, t.r.now))
  }

  lemma LampQueueProgress(c: LampSpec.Config, l: LampSpec.Lamp, now: nat, got: nat)
    requires l.q.Shape() && l.link == LampSpec.Connected
    ensures l.q.posted != [] ==>
              var m := LampSpec.Step(c, l, now, LampSpec.RunPosted);
              && m.link == LampSpec.Connected && m.pendingFault == l.pendingFault
              && Pending(m.q, got) < Pending(l.q, got)
    ensures l.q.inFlight.Some? ==>
              var m := LampSpec.Step(c, l, now, LampSpec.Written);
              && m.link == LampSpec.Connected
              && Pending(m.q, got) + (if m.pendingFault then 5 else 0)
                 < Pending(l.q, got) + if l.pendingFault then 5 else 0
  {
    hide FaultBytes;
  }

  lemma LampShape(p: Setup, s: Joined, e: LampSpec.Event)
    requires s.sid in s.r.live
    ensures var t := LinkSpec.Step(p, s, Lamp(e));
            && t.r == s.r && t.sid == s.sid && t.got == s.got && t.taken == s.taken
            && t.l == LampSpec.Step(p.lamp, s.l, s.r.now, e)
  {
    hide LampSpec.Step, Stamps;
  }

  lemma WriteStep(p: Setup, s: Joined)
    requires p.lamp.heartbeatS > 0 && LinkInv(p, s) && !UpAct(s).Up?
    ensures var a := UpAct(s); var t := LinkSpec.Step(p, s, a);
            LinkSpec.Enabled(p, s, a) && UpMoved(p, s, t) && UpPending(t) < UpPending(s)
  {
    var a := UpAct(s);
    RunFacts(p, s);
    assert s.l.q.Shape() && s.l.link == LampSpec.Connected && LampSpec.Enabled(s.l, a.e);
    hide LinkInv, Facts, LampSpec.Step, LampSpec.Enabled, LinkSpec.Step, Pending;
    LampQueueProgress(p.lamp, s.l, s.r.now, s.got);
    LampShape(p, s, a.e);
    if JustStarted(p, s.l, s.r.now) {
      FreshStep(p, s, a.e);
    }
  }

  lemma ReportAnswer(p: Setup, r: RegionSpec.Region, b: RegionSpec.Region, sid: nat)
    requires sid in r.live && ReportedBy(p, r, sid, b)
    ensures sid in b.live
    ensures || b.live[sid].q.sent == r.live[sid].q.sent
            || b.live[sid].q.sent == r.live[sid].q.sent + [Frame(FAULT_ACK, [])]
  {
    hide RegionSpec.SwitchTo;
  }

  lemma GetStep(p: Setup, s: Joined)
    requires p.lamp.heartbeatS > 0 && LinkInv(p, s) && s.got >= 1 && s.got < |s.l.q.written|
    ensures var t := LinkSpec.Step(p, s, Up(0));
            LinkSpec.Enabled(p, s, Up(0)) && UpMoved(p, s, t) && UpPending(t) < UpPending(s)
  {
    UpFrame(p, s);
    UpEffect(p, s, 0);
    var b := UpRegion(s, 0);
    UpReports(p, s.r, s.sid, s.l.q.written[s.got], 0);
    ReportAnswer(p, s.r, b, s.sid);
    hide LinkInv, RegionSpec.OnMessage, ReportedBy, LampLaws.IsReport, LinkSpec.Step, Grew, Bound;
    UpIsStep(p, s, 0);
    UpKeepsLamp(p, s);
  }

  lemma UpKeepsLamp(p: Setup, s: Joined)
    requires s.sid in s.r.live
    ensures var t := LinkSpec.Step(p, s, Up(0)); t.l == s.l && t.taken == s.taken
  {
    hide RegionSpec.OnMessage, Stamps;
  }

  lemma UpStep(p: Setup, s: Joined)
    requires p.lamp.heartbeatS > 0 && LinkInv(p, s) && s.got >= 1 && UpPending(s) > 0
    ensures var a := UpAct(s); var t := LinkSpec.Step(p, s, a);
            && LinkSpec.Enabled(p, s, a) && UpMoved(p, s, t) && Moves(a, s.sid)
            && UpPending(t) < UpPending(s)
  {
    if UpAct(s).Up? {
      RunFacts(p, s);
      assert s.l.q.Shape() && (s.l.pendingFault ==> s.l.q.writing || s.l.q.posted != []);
      assert s.got < |s.l.q.written|;
      hide LinkInv, Facts, UpMoved, LinkSpec.Step, LinkSpec.Enabled, Pending;
      GetStep(p, s);
    } else {
      hide LinkInv, UpMoved, LinkSpec.Step, LinkSpec.Enabled, Pending;
      WriteStep(p, s);
    }
  }

  lemma UpMovedJoins(p: Setup, s: Joined, t: Joined, v: Joined)
    requires p.lamp.heartbeatS > 0 && s.sid in s.r.live && UpMoved(p, s, t) && UpMoved(p, t, v)
    ensures UpMoved(p, s, v)
  {}

  function UpToDo(s: Joined): nat { if UpPending(s) > 0 then UpPending(s) else 0 }

  lemma OneUp(p: Setup, sensor: Str, delay: nat, trace: seq<Joined>, acts: seq<Act>)
    returns (t: seq<Joined>, b: seq<Act>)
    requires p.lamp.heartbeatS > 0 && Good(p, delay, trace, acts) && trace != [] && End(trace).got >= 1
    requires UpPending(End(trace)) > 0
    ensures Good(p, delay, t, b) && GoesOn(p, sensor, trace, acts, t, b) && t != []
    ensures End(trace).sid in End(trace).r.live && UpMoved(p, End(trace), End(t))
    ensures End(t).got >= 1 && UpPending(End(t)) < UpPending(End(trace))
  {
    var s := End(trace);
    hide *;
    GoodLength(p, delay, trace, acts);
    LastInv(p, trace, acts);
    var v := LinkSpec.Step(p, s, UpAct(s));
    UpStep(p, s);
    MovesAreGood(p, sensor, delay, s, UpAct(s));
    t, b := Grow(p, sensor, delay, trace, acts, UpAct(s));
    EndOfGrown(trace, v);
    MoveGoesOn(p, sensor, trace, acts, t, b, s, UpAct(s));
    UpMovedGets(p, s, v);
  }

  /** From every state of a run after the registration the lamp's frames can all reach the region, by steps that only
      move frames. */
  lemma {:induction false} RegionCanGetAll(p: Setup, sensor: Str, delay: nat, trace: seq<Joined>, acts: seq<Act>)
    returns (t: seq<Joined>, b: seq<Act>)
    requires p.lamp.heartbeatS > 0 && Good(p, delay, trace, acts) && trace != [] && End(trace).got >= 1
    ensures Good(p, delay, t, b) && GoesOn(p, sensor, trace, acts, t, b) && t != []
    ensures End(trace).sid in End(trace).r.live && UpMoved(p, End(trace), End(t))
    ensures End(t).got == |End(t).l.q.sent|
    decreases UpToDo(End(trace))
  {
    hide *;
    if UpPending(End(trace)) > 0 {
      var t1, b1 := OneUp(p, sensor, delay, trace, acts);
      UpToDoFalls(End(trace), End(t1));
      t, b := RegionCanGetAll(p, sensor, delay, t1, b1);
      UpMovedJoins(p, End(trace), End(t1), End(t));
      GoesOnJoins(p, sensor, trace, acts, t1, b1, t, b);
    } else {
      GoodLength(p, delay, trace, acts);
      LastInv(p, trace, acts);
      t, b := trace, acts;
      StaysOn(p, sensor, trace, acts);
      UpAllGot(p, End(trace));
    }
  }

  lemma UpToDoFalls(s: Joined, t: Joined)
    requires 0 < UpPending(s) && UpPending(t) < UpPending(s)
    ensures UpToDo(t) < UpToDo(s)
  {}

  lemma LastInv(p: Setup, trace: seq<Joined>, acts: seq<Act>)
    requires IsRun(p, trace, acts) && |trace| == |acts| + 1
    ensures LinkInv(p, End(trace)) && End(trace).sid in End(trace).r.live
  {
    LinkInvariant(p, trace, acts, |acts|);
    hide IsRun, AreRuns;
  }

  lemma EndOfGrown(trace: seq<Joined>, v: Joined)
    ensures End(trace + [v]) == v
  {}

  lemma UpMovedGets(p: Setup, s: Joined, v: Joined)
    requires p.lamp.heartbeatS > 0 && s.sid in s.r.live && UpMoved(p, s, v)
    ensures v.got >= s.got && v.sid in v.r.live
  {}

  lemma UpAllGot(p: Setup, s: Joined)
    requires p.lamp.heartbeatS > 0 && LinkInv(p, s) && UpPending(s) <= 0
    ensures s.got == |s.l.q.sent| && UpMoved(p, s, s)
  {
    RunFacts(p, s);
    hide AreRuns, LampLaws.StateInv, LampLaws.SentInv, JustStarted;
    NothingPending(s.l.q, s.got);
  }

  // ----- the result

  /** From every state after the registration, without time passing and by steps that only move frames, everything sent
      in either direction can arrive; and then the lamp is what LampShowsLastCommand says. */
  lemma EverythingCanArrive(p: Setup, sensor: Str, delay: nat, trace: seq<Joined>, acts: seq<Act>)
    returns (t: seq<Joined>, b: seq<Act>)
    requires p.lamp.heartbeatS > 0 && p.lamp.faultPerMille <= 0
    requires Good(p, delay, trace, acts) && trace != [] && End(trace).got >= 1
    ensures Good(p, delay, t, b) && GoesOn(p, sensor, trace, acts, t, b) && t != []
    ensures var s, v := End(trace), End(t);
            && v.sid == s.sid && v.sid in v.r.live && v.r.now == s.r.now && v.got >= s.got
            && v.got == |v.l.q.sent| && v.taken == |DownQueue(v).sent|
            && (JustStarted(p, s.l, s.r.now) ==> JustStarted(p, v.l, v.r.now))
            && |trace| == |acts| + 1 && CoreOf(v.l) == Shown(LastCalled(p, trace, acts, |acts|))
  {
    hide *;
    var t1, b1 := LampCanTakeAll(p, sensor, delay, trace, acts);
    DownMovedMeans(p, End(trace), End(t1));
    var t2, b2 := RegionCanGetAll(p, sensor, delay, t1, b1);
    UpMovedMeans(p, End(t1), End(t2));
    t, b := LampCanTakeAll(p, sensor, delay, t2, b2);
    DownMovedMeans(p, End(t2), End(t));
    GoesOnJoins(p, sensor, trace, acts, t1, b1, t2, b2);
    GoesOnJoins(p, sensor, trace, acts, t2, b2, t, b);
    GoesOnMeans(p, sensor, trace, acts, t, b);
    GoodLength(p, delay, t, b);
    EndIs(t, b);
    LampShowsLastCommand(p, t, b, |b|);
    NothingLeft(p, End(t));
  }

  lemma GoesOnMeans(p: Setup, sensor: Str, trace: seq<Joined>, acts: seq<Act>, t: seq<Joined>, b: seq<Act>)
    requires GoesOn(p, sensor, trace, acts, t, b)
    ensures |trace| == |acts| + 1 && |t| == |b| + 1 && trace <= t && acts <= b
    ensures LastCalled(p, t, b, |b|) == LastCalled(p, trace, acts, |acts|)
    ensures Missed(p, sensor, t, b, |b|) == Missed(p, sensor, trace, acts, |acts|)
    ensures OneSensorRun(p, sensor, trace, acts) ==> OneSensorRun(p, sensor, t, b)
  {
    hide LastCalled, Missed, OneSensorRun;
  }

  lemma EndIs(trace: seq<Joined>, acts: seq<Act>)
    requires |trace| == |acts| + 1
    ensures End(trace) == trace[|acts|]
  {}

  lemma DownMovedMeans(p: Setup, s: Joined, t: Joined)
    requires p.lamp.heartbeatS > 0 && s.sid in s.r.live && DownMoved(p, s, t)
    ensures t.sid == s.sid && t.sid in t.r.live && t.r.now == s.r.now && t.got == s.got
    ensures JustStarted(p, s.l, s.r.now) ==> JustStarted(p, t.l, t.r.now)
    ensures NoReply(s) ==> t.l.q.sent == s.l.q.sent
  {
    hide NoReply, JustStarted;
  }

  lemma UpMovedMeans(p: Setup, s: Joined, t: Joined)
    requires p.lamp.heartbeatS > 0 && s.sid in s.r.live && UpMoved(p, s, t) && s.taken == |DownQueue(s).sent|
    ensures t.sid == s.sid && t.sid in t.r.live && t.r.now == s.r.now && s.got <= t.got && NoReply(t)
    ensures JustStarted(p, s.l, s.r.now) ==> JustStarted(p, t.l, t.r.now)
  {
    hide JustStarted;
  }

  lemma NothingLeft(p: Setup, s: Joined)
    requires s.sid in s.r.live && s.taken == |DownQueue(s).sent|
    ensures Settled(p, s) == s.l
  {
    assert DownQueue(s).sent[s.taken..] == [];
  }
}
