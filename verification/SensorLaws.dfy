/** What the regional server knows of a sensor's motion, over whole runs of both. */
module SensorLaws {
  import opened Basics
  import opened SensorSpec
  import RegionSpec
  import RegionSessions

  // ----- runs

  function After(a: Arguments, run: seq<Event>): Sensor {
    if run == [] then Boot() else Step(a, After(a, run[..|run| - 1]), run[|run| - 1])
  }

  ghost predicate Possible(a: Arguments, run: seq<Event>) {
    forall i :: 0 <= i < |run| ==> Enabled(After(a, run[..i]), run[i])
  }

  lemma PossibleInit(a: Arguments, run: seq<Event>)
    requires Possible(a, run) && run != []
    ensures Possible(a, run[..|run| - 1]) && Enabled(After(a, run[..|run| - 1]), run[|run| - 1])
  {
    Initial(run);
  }

  // Event number i is a tick that the sensor ends in ACTIVE
  predicate ActiveTick(a: Arguments, run: seq<Event>, i: nat)
    requires i < |run|
  {
    run[i].Tick? && After(a, run[..i + 1]).state == ACTIVE
  }

  // From event number from on every tick ends in ACTIVE
  ghost predicate ActiveFrom(a: Arguments, run: seq<Event>, from: nat) {
    forall i :: from <= i < |run| && run[i].Tick? ==> ActiveTick(a, run, i)
  }

  lemma ActiveInit(a: Arguments, run: seq<Event>, from: nat)
    requires ActiveFrom(a, run, from) && run != []
    ensures ActiveFrom(a, run[..|run| - 1], from)
    ensures from < |run| && run[|run| - 1].Tick? ==> After(a, run).state == ACTIVE
  {
    var init := run[..|run| - 1];
    forall i | from <= i < |init| && init[i].Tick?
      ensures ActiveTick(a, init, i)
    {
      assert ActiveTick(a, run, i) && init[..i + 1] == run[..i + 1];
    }
    if from < |run| && run[|run| - 1].Tick? {
      assert ActiveTick(a, run, |run| - 1) && run[..|run|] == run;
    }
  }

  // ----- the mirror: what a receiver of all packets, in order, takes the motion to be

  function Mirror(sent: seq<Packet>): u8 {
    if sent == [] then 0
    else if sent[|sent| - 1].reading.motion <= 1 then sent[|sent| - 1].reading.motion
    else Mirror(sent[..|sent| - 1])
  }

  // The tick of the last packet that carries a reading
  function LastReport(sent: seq<Packet>): Option<nat> {
    if sent == [] then None
    else if sent[|sent| - 1].reading.motion <= 1 then Some(sent[|sent| - 1].at)
    else LastReport(sent[..|sent| - 1])
  }

  lemma Snoc(sent: seq<Packet>, p: Packet)
    ensures Mirror(sent + [p]) == if p.reading.motion <= 1 then p.reading.motion else Mirror(sent)
    ensures LastReport(sent + [p]) == if p.reading.motion <= 1 then Some(p.at) else LastReport(sent)
  {
    assert (sent + [p])[..|sent|] == sent;
  }

  predicate SensorInv(a: Arguments, s: Sensor) {
    && s.state in {REGISTERING, ACTIVE, FAULT}
    && (s.state == REGISTERING ==> s.ackArmed)
    && (s.state == FAULT && a.faultResetS > 0 ==> s.resetArmed)
    && s.prev.motion <= 1
    && match LastReport(s.sent)
       case None => s.lastHeartbeat == -999999
       case Some(at) => s.lastHeartbeat <= at < s.seconds
  }

  // ----- the three ways a tick can go

  // This tick simulates a fault
  predicate Fails(a: Arguments, s: Sensor, roll: nat) {
    s.state == ACTIVE && a.faultPerMille > 0 && roll <= a.faultPerMille
  }

  // This tick sends its reading
  predicate Sends(a: Arguments, s: Sensor, x: Reading, roll: nat) {
    s.state == ACTIVE && !Fails(a, s, roll) && Reports(a, s, x)
  }

  lemma TickWays(a: Arguments, s: Sensor, x: Reading, roll: nat)
    ensures var t := OnTick(a, s, x, roll);
            && t.prev == x && t.seconds == s.seconds + 1 && t.ackArmed == s.ackArmed
            && t.state == (if Fails(a, s, roll) then FAULT else s.state)
            && t.resetArmed == (s.resetArmed || (Fails(a, s, roll) && a.faultResetS > 0))
            && t.sent == (if Fails(a, s, roll) then s.sent + [Packet(s.seconds, FAULT_MARKER)]
                          else if Sends(a, s, x, roll) then s.sent + [Packet(s.seconds, x)] else s.sent)
            && t.lastHeartbeat
               == if Sends(a, s, x, roll) && HeartbeatDue(a, s) then s.seconds else s.lastHeartbeat
  {
    hide Reports, HeartbeatDue;
  }

  lemma TickEffect(a: Arguments, s: Sensor, x: Reading, roll: nat)
    requires SensorInv(a, s) && x.motion <= 1
    ensures var t := OnTick(a, s, x, roll);
            && SensorInv(a, t)
            && (t.state == ACTIVE <==> s.state == ACTIVE && !Fails(a, s, roll))
            && Mirror(t.sent) == (if Sends(a, s, x, roll) then x.motion else Mirror(s.sent))
            && LastReport(t.sent) == (if Sends(a, s, x, roll) then Some(s.seconds) else LastReport(s.sent))
  {
    hide OnTick, Reports, HeartbeatDue, Mirror, LastReport;
    TickWays(a, s, x, roll);
    if Fails(a, s, roll) {
      Snoc(s.sent, Packet(s.seconds, FAULT_MARKER));
    } else if Sends(a, s, x, roll) {
      Snoc(s.sent, Packet(s.seconds, x));
    }
  }

  // An active tick that sees the motion change sends it
  lemma ChangesAreSent(a: Arguments, s: Sensor, x: Reading, roll: nat)
    requires s.prev.motion <= 1 && x.motion <= 1 && x.motion != s.prev.motion
    ensures Sends(a, s, x, roll) <==> s.state == ACTIVE && !Fails(a, s, roll)
  {}

  /** In every run a sensor is registering, active or faulty; a timer brings it out of registering, and out of a fault
      when resets are configured. */
  lemma {:induction false} SensorInvariant(a: Arguments, run: seq<Event>)
    requires Possible(a, run)
    ensures SensorInv(a, After(a, run))
  {
    if run != [] {
      PossibleInit(a, run);
      var init, e := run[..|run| - 1], run[|run| - 1];
      SensorInvariant(a, init);
      SensorStep(a, After(a, init), e);
      hide Step, Enabled, Possible, SensorInv;
    }
  }

  lemma SensorStep(a: Arguments, s: Sensor, e: Event)
    requires SensorInv(a, s) && Enabled(s, e)
    ensures SensorInv(a, Step(a, s, e))
  {
    if e.Tick? {
      TickEffect(a, s, e.x, e.roll);
      hide OnTick, SensorInv;
    } else {
      hide LastReport;
    }
  }

  // ----- when the mirror shows the current motion

  // Changes of motion hidden after one more event: a tick that sends hides none, another one hides what it sees change
  function HiddenBy(a: Arguments, s: Sensor, e: Event, before: nat): nat {
    if !e.Tick? then before
    else if Sends(a, s, e.x, e.roll) then 0
    else before + if e.x.motion != s.prev.motion then 1 else 0
  }

  // The changes of motion that ticks have seen since the last report
  function Hidden(a: Arguments, run: seq<Event>): nat {
    if run == [] then 0
    else HiddenBy(a, After(a, run[..|run| - 1]), run[|run| - 1], Hidden(a, run[..|run| - 1]))
  }

  predicate Exact(s: Sensor, hidden: nat) {
    Mirror(s.sent) <= 1 && (Mirror(s.sent) == s.prev.motion <==> Even(hidden))
  }

  lemma ExactStep(a: Arguments, s: Sensor, e: Event, before: nat)
    requires SensorInv(a, s) && Enabled(s, e) && Exact(s, before)
    ensures Exact(Step(a, s, e), HiddenBy(a, s, e, before))
  {
    if e.Tick? {
      hide OnTick, Sends, Mirror, LastReport;
      TickWays(a, s, e.x, e.roll);
      TickEffect(a, s, e.x, e.roll);
    }
  }

  /** The packets of a sensor, received in order, give its current motion exactly when an even number of changes has
      been hidden since its last report, in every run and whatever faults it holds. */
  lemma {:induction false} MirrorIsExact(a: Arguments, run: seq<Event>)
    requires Possible(a, run)
    ensures Mirror(After(a, run).sent) <= 1
    ensures Mirror(After(a, run).sent) == After(a, run).prev.motion <==> Even(Hidden(a, run))
  {
    if run != [] {
      PossibleInit(a, run);
      var init := run[..|run| - 1];
      MirrorIsExact(a, init);
      SensorInvariant(a, init);
      hide Step, HiddenBy, Mirror, Even, SensorInv, Enabled, Possible;
      ExactStep(a, After(a, init), run[|run| - 1], Hidden(a, init));
    }
  }

  const FAULTY := Arguments(25, 10, 30, 5, 1)

  // The motion at tick 0 is reported, the fall at tick 1 is hidden by a fault, and tick 2 has nothing new to report
  const STALE: seq<Event> := [AckTimer, Tick(Simulated(0), 1000), Tick(Simulated(1), 1), ResetTimer,
                              Tick(Simulated(2), 1000)]

  /** A fault can leave an active sensor with a last report that is not its motion. */
  lemma MirrorCanBeStale()
    ensures Possible(FAULTY, STALE)
    ensures var s := After(FAULTY, STALE);
            && s.state == ACTIVE && s.prev.motion == 0 && Mirror(s.sent) == 1
            && s.sent == [Packet(0, Simulated(0)), Packet(1, FAULT_MARKER)]
  {
    var s0 := Boot();
    var s1 := OnAck(s0);
    var s2 := OnTick(FAULTY, s1, Simulated(0), 1000);
    var s3 := OnTick(FAULTY, s2, Simulated(1), 1);
    var s4 := OnReset(s3);
    var s5 := OnTick(FAULTY, s4, Simulated(2), 1000);
    var first, marker := Packet(0, Simulated(0)), Packet(1, FAULT_MARKER);
    StaleStates();
    hide OnTick, OnReset, OnAck, Boot;
    assert STALE[..0] == [] && After(FAULTY, STALE[..0]) == s0;
    assert STALE[..1][..0] == STALE[..0] && After(FAULTY, STALE[..1]) == s1;
    assert STALE[..2][..1] == STALE[..1] && After(FAULTY, STALE[..2]) == s2;
    assert STALE[..3][..2] == STALE[..2] && After(FAULTY, STALE[..3]) == s3;
    assert STALE[..4][..3] == STALE[..3] && After(FAULTY, STALE[..4]) == s4;
    assert STALE[..5] == STALE && STALE[..5][..4] == STALE[..4] && After(FAULTY, STALE) == s5;
    Snoc([], first);
    Snoc([] + [first], marker);
  }

  // The states of that run
  lemma StaleStates()
    ensures var s1 := OnAck(Boot());
            var s2 := OnTick(FAULTY, s1, Simulated(0), 1000);
            var s3 := OnTick(FAULTY, s2, Simulated(1), 1);
            var s5 := OnTick(FAULTY, OnReset(s3), Simulated(2), 1000);
            && Boot().ackArmed && s3.resetArmed && s5.state == ACTIVE && s5.prev.motion == 0
            && s5.sent == [] + [Packet(0, Simulated(0))] + [Packet(1, FAULT_MARKER)]
  {}

  // A tick that ends active leaves no change hidden that it saw itself
  lemma {:induction false} ActiveHidesNothing(a: Arguments, run: seq<Event>)
    requires Possible(a, run) && ActiveFrom(a, run, 0)
    ensures Hidden(a, run) == 0
  {
    if run != [] {
      PossibleInit(a, run);
      ActiveInit(a, run, 0);
      var init, e := run[..|run| - 1], run[|run| - 1];
      ActiveHidesNothing(a, init);
      SensorInvariant(a, init);
      if e.Tick? {
        var s := After(a, init);
        hide OnTick, Sends, Mirror;
        TickEffect(a, s, e.x, e.roll);
        if e.x.motion != s.prev.motion {
          ChangesAreSent(a, s, e.x, e.roll);
        }
      }
    }
  }

  /** A sensor that ended every tick active: its packets, received in order, always give its current motion. */
  lemma ActiveSensorIsMirrored(a: Arguments, run: seq<Event>)
    requires Possible(a, run) && ActiveFrom(a, run, 0)
    ensures Mirror(After(a, run).sent) == After(a, run).prev.motion
  {
    ActiveHidesNothing(a, run);
    MirrorIsExact(a, run);
  }

  /** With a positive heartbeat, after every tick that ends active the last report is less than heartbeatS ticks old,
      whatever faults came before. There is none only while the heartbeat, which counts from -999999, is not yet due. */
  lemma ReportsKeepPace(a: Arguments, run: seq<Event>, x: Reading, roll: nat)
    requires Possible(a, run + [Tick(x, roll)]) && a.heartbeatS > 0
    requires After(a, run + [Tick(x, roll)]).state == ACTIVE
    ensures var s := After(a, run + [Tick(x, roll)]);
            match LastReport(s.sent)
            case Some(at) => 0 <= s.seconds - 1 - at < a.heartbeatS
            case None => s.seconds - 1 + 999999 < a.heartbeatS
  {
    var whole := run + [Tick(x, roll)];
    PossibleInit(a, whole);
    assert whole[..|whole| - 1] == run;
    SensorInvariant(a, run);
    assert After(a, whole) == OnTick(a, After(a, run), x, roll);
    hide OnTick, After, Possible, LastReport, Mirror;
    TickWays(a, After(a, run), x, roll);
    TickEffect(a, After(a, run), x, roll);
  }

  function Ticks(run: seq<Event>): nat {
    if run == [] then 0 else Ticks(run[..|run| - 1]) + if run[|run| - 1].Tick? then 1 else 0
  }

  lemma {:induction false} SecondsAreTicks(a: Arguments, run: seq<Event>)
    ensures After(a, run).seconds == Ticks(run)
  {
    if run != [] {
      var init, e := run[..|run| - 1], run[|run| - 1];
      SecondsAreTicks(a, init);
      if e.Tick? {
        TickWays(a, After(a, init), e.x, e.roll);
        hide OnTick;
      }
    }
  }

  // If the last report came at the tick or later, nothing is hidden
  predicate Revealed(s: Sensor, hidden: nat, tick: nat) {
    LastReport(s.sent).Some? && LastReport(s.sent).value >= tick ==> hidden == 0
  }

  lemma RevealedStep(a: Arguments, s: Sensor, e: Event, before: nat, tick: nat)
    requires SensorInv(a, s) && Enabled(s, e) && Revealed(s, before, tick)
    requires e.Tick? ==> Step(a, s, e).state == ACTIVE
    ensures Revealed(Step(a, s, e), HiddenBy(a, s, e, before), tick)
  {
    if e.Tick? {
      hide OnTick, Sends, Mirror, LastReport;
      TickEffect(a, s, e.x, e.roll);
      if e.x.motion != s.prev.motion {
        ChangesAreSent(a, s, e.x, e.roll);
      }
    }
  }

  // Once a report came after event number from, nothing is hidden from an active sensor
  lemma {:induction false} NoneHiddenAfterReport(a: Arguments, run: seq<Event>, from: nat)
    requires Possible(a, run) && from <= |run| && ActiveFrom(a, run, from)
    ensures Revealed(After(a, run), Hidden(a, run), Ticks(run[..from]))
  {
    hide Ticks, Hidden, Revealed, SensorInv, Enabled;
    if from == |run| {
      assert run[..from] == run;
      RevealedAtOnce(a, run);
    } else {
      PossibleInit(a, run);
      ActiveInit(a, run, from);
      var init := run[..|run| - 1];
      NoneHiddenAfterReport(a, init, from);
      assert init[..from] == run[..from];
      RevealedNext(a, run, Ticks(run[..from]));
    }
  }

  lemma RevealedAtOnce(a: Arguments, run: seq<Event>)
    requires Possible(a, run)
    ensures Revealed(After(a, run), Hidden(a, run), Ticks(run))
  {
    SensorInvariant(a, run);
    SecondsAreTicks(a, run);
    hide After, Hidden, Ticks, Possible;
  }

  lemma RevealedNext(a: Arguments, run: seq<Event>, tick: nat)
    requires run != [] && Possible(a, run[..|run| - 1])
    requires Enabled(After(a, run[..|run| - 1]), run[|run| - 1])
    requires run[|run| - 1].Tick? ==> After(a, run).state == ACTIVE
    requires Revealed(After(a, run[..|run| - 1]), Hidden(a, run[..|run| - 1]), tick)
    ensures Revealed(After(a, run), Hidden(a, run), tick)
  {
    var init := run[..|run| - 1];
    SensorInvariant(a, init);
    hide Step, HiddenBy, Revealed, SensorInv, Enabled, Possible;
    RevealedStep(a, After(a, init), run[|run| - 1], Hidden(a, init), tick);
  }

  /** Whatever faults came before, once heartbeatS ticks in a row have ended active the packets give the current motion
      again. */
  lemma MirrorRecovers(a: Arguments, run: seq<Event>, from: nat)
    requires Possible(a, run) && from < |run| && ActiveFrom(a, run, from) && run[|run| - 1].Tick?
    requires a.heartbeatS > 0 && Ticks(run) - Ticks(run[..from]) >= a.heartbeatS
    ensures Mirror(After(a, run).sent) == After(a, run).prev.motion
  {
    hide After, Possible, ActiveFrom, Ticks, LastReport, Mirror, Hidden;
    var init, e := run[..|run| - 1], run[|run| - 1];
    assert init + [Tick(e.x, e.roll)] == run;
    ActiveInit(a, run, from);
    ReportsKeepPace(a, init, e.x, e.roll);
    SecondsAreTicks(a, run);
    NoneHiddenAfterReport(a, run, from);
    MirrorIsExact(a, run);
  }

  // ----- what a tick sends

  // x differs from the reading before it enough to be reported
  predicate Differs(a: Arguments, before: Reading, x: Reading) {
    || x.motion != before.motion
    || x.lux - before.lux >= a.luxThreshold || before.lux - x.lux >= a.luxThreshold
    || x.temp - before.temp >= a.tempThreshold || before.temp - x.temp >= a.tempThreshold
  }

  // The reading of the last tick, and those the program starts from
  function LastReading(run: seq<Event>): Reading {
    if run == [] then Reading(200, 0, 235)
    else if run[|run| - 1].Tick? then run[|run| - 1].x
    else LastReading(run[..|run| - 1])
  }

  lemma {:induction false} PrevIsLastReading(a: Arguments, run: seq<Event>)
    ensures After(a, run).prev == LastReading(run)
  {
    if run != [] {
      var init, e := run[..|run| - 1], run[|run| - 1];
      PrevIsLastReading(a, init);
      if e.Tick? {
        TickWays(a, After(a, init), e.x, e.roll);
        hide OnTick;
      }
    }
  }

  lemma TickSends(a: Arguments, s: Sensor, x: Reading, roll: nat)
    requires s.prev.motion <= 1 && x.motion <= 1
    ensures var t := OnTick(a, s, x, roll);
            var failed := s.state == ACTIVE && a.faultPerMille > 0 && roll <= a.faultPerMille;
            var due := a.heartbeatS > 0 && s.seconds - s.lastHeartbeat >= a.heartbeatS;
            && t.state == (if failed then FAULT else s.state)
            && t.sent == (if failed then s.sent + [Packet(s.seconds, Reading(0, 254, 0))]
                          else if s.state == ACTIVE && (Differs(a, s.prev, x) || due)
                          then s.sent + [Packet(s.seconds, x)] else s.sent)
            && t.lastHeartbeat == (if !failed && s.state == ACTIVE && due then s.seconds else s.lastHeartbeat)
            && t.resetArmed == (s.resetArmed || (failed && a.faultResetS > 0))
  {
    hide Fails, MaybeFault;
    TickWays(a, s, x, roll);
    assert Fails(a, s, roll) == (s.state == ACTIVE && a.faultPerMille > 0 && roll <= a.faultPerMille) by {
      FailsMeans(a, s, roll);
    }
    assert Reports(a, s, x) == (Differs(a, s.prev, x) || HeartbeatDue(a, s));
  }

  lemma FailsMeans(a: Arguments, s: Sensor, roll: nat)
    ensures Fails(a, s, roll) == (s.state == ACTIVE && a.faultPerMille > 0 && roll <= a.faultPerMille)
  {}

  /** In every run: a tick of an active sensor whose die comes up a fault sends the fault marker. Any other tick of an
      active sensor sends its reading exactly when the motion has changed since the reading before, or the light or the
      temperature by its threshold at least, or the heartbeat is due. A sensor that is not active sends nothing. */
  lemma TickSendsExactly(a: Arguments, run: seq<Event>, x: Reading, roll: nat)
    requires Possible(a, run + [Tick(x, roll)])
    ensures var s, t := After(a, run), After(a, run + [Tick(x, roll)]);
            var due := a.heartbeatS > 0 && s.seconds - s.lastHeartbeat >= a.heartbeatS;
            if s.state != ACTIVE then t.sent == s.sent && t.state == s.state
            else if 0 < a.faultPerMille && roll <= a.faultPerMille then
              t.state == FAULT && t.sent == s.sent + [Packet(Ticks(run), Reading(0, 254, 0))]
              && (a.faultResetS > 0 ==> t.resetArmed)
            else
              t.state == ACTIVE
              && t.sent == s.sent + if Differs(a, LastReading(run), x) || due then [Packet(Ticks(run), x)] else []
  {
    var whole := run + [Tick(x, roll)];
    PossibleInit(a, whole);
    assert whole[..|whole| - 1] == run;
    SensorInvariant(a, run);
    PrevIsLastReading(a, run);
    SecondsAreTicks(a, run);
    assert After(a, whole) == OnTick(a, After(a, run), x, roll);
    assert After(a, run).sent + [] == After(a, run).sent;
    hide OnTick, After, Possible, Differs;
    TickSends(a, After(a, run), x, roll);
  }

  // The heartbeat last sent, if any
  ghost predicate HeartbeatIsReport(s: Sensor) {
    s.lastHeartbeat == -999999
    || exists k :: 0 <= k < |s.sent| && s.sent[k].at == s.lastHeartbeat && s.sent[k].reading.motion <= 1
  }

  /** The tick that the heartbeat counts from is that of a report, once there has been a due one. */
  lemma {:induction false} HeartbeatCountsFromReport(a: Arguments, run: seq<Event>)
    requires Possible(a, run)
    ensures HeartbeatIsReport(After(a, run))
  {
    if run != [] {
      PossibleInit(a, run);
      var init, e := run[..|run| - 1], run[|run| - 1];
      HeartbeatCountsFromReport(a, init);
      SensorInvariant(a, init);
      if e.Tick? {
        hide OnTick, Possible, Differs;
        TickSends(a, After(a, init), e.x, e.roll);
        KeepsReport(After(a, init), After(a, run));
      }
    }
  }

  lemma KeepsReport(s: Sensor, t: Sensor)
    requires HeartbeatIsReport(s) && s.sent <= t.sent
    requires t.lastHeartbeat != s.lastHeartbeat ==>
               |t.sent| > 0 && t.sent[|t.sent| - 1].at == t.lastHeartbeat && t.sent[|t.sent| - 1].reading.motion <= 1
    ensures HeartbeatIsReport(t)
  {
    if k :| 0 <= k < |s.sent| && s.sent[k].at == s.lastHeartbeat && s.sent[k].reading.motion <= 1 {
      assert t.sent[k] == s.sent[k];
    }
  }

  lemma {:induction false} SentOnlyGrows(a: Arguments, run: seq<Event>, k: nat)
    requires k <= |run|
    ensures After(a, run[..k]).sent <= After(a, run).sent
  {
    if k == |run| {
      assert run[..k] == run;
    } else {
      var init, e := run[..|run| - 1], run[|run| - 1];
      SentOnlyGrows(a, init, k);
      assert init[..k] == run[..k];
      if e.Tick? {
        TickWays(a, After(a, init), e.x, e.roll);
        hide OnTick;
      }
    }
  }

  /** In every run each reading taken by a tick that ended active was sent, under its tick, or lies within both
      thresholds of the one before it and shows the same motion. */
  lemma ReadingsAreSentOrClose(a: Arguments, run: seq<Event>, j: nat)
    requires Possible(a, run) && j < |run| && ActiveTick(a, run, j)
    ensures Packet(Ticks(run[..j]), run[j].x) in After(a, run).sent || !Differs(a, LastReading(run[..j]), run[j].x)
  {
    TickAt(a, run, j);
    hide *;
    PossiblePrefix(a, run, j + 1);
    SentOnlyGrows(a, run, j + 1);
    SentOrClose(a, run[..j], run[j].x, run[j].roll, After(a, run).sent);
  }

  lemma TickAt(a: Arguments, run: seq<Event>, j: nat)
    requires j < |run| && ActiveTick(a, run, j)
    ensures run[j].Tick? && After(a, run[..j + 1]).state == ACTIVE
    ensures run[..j + 1] == run[..j] + [Tick(run[j].x, run[j].roll)]
  {
    hide After;
  }

  lemma SentOrClose(a: Arguments, run: seq<Event>, x: Reading, roll: nat, all: seq<Packet>)
    requires Possible(a, run + [Tick(x, roll)]) && After(a, run + [Tick(x, roll)]).state == ACTIVE
    requires After(a, run + [Tick(x, roll)]).sent <= all
    ensures Packet(Ticks(run), x) in all || !Differs(a, LastReading(run), x)
  {
    hide *;
    if Differs(a, LastReading(run), x) {
      ActiveSends(a, run, x, roll);
      LastStays(After(a, run).sent, Packet(Ticks(run), x), all);
    }
  }

  lemma ActiveSends(a: Arguments, run: seq<Event>, x: Reading, roll: nat)
    requires Possible(a, run + [Tick(x, roll)]) && After(a, run + [Tick(x, roll)]).state == ACTIVE
    ensures var s, t := After(a, run), After(a, run + [Tick(x, roll)]);
            var due := a.heartbeatS > 0 && s.seconds - s.lastHeartbeat >= a.heartbeatS;
            t.sent == s.sent + if Differs(a, LastReading(run), x) || due then [Packet(Ticks(run), x)] else []
  {
    TickSendsExactly(a, run, x, roll);
    hide After, Possible, Differs, Ticks, LastReading;
  }

  lemma LastStays(sent: seq<Packet>, p: Packet, all: seq<Packet>)
    requires sent + [p] <= all
    ensures p in all
  {
    assert all[|sent|] == (sent + [p])[|sent|];
  }

  lemma PossiblePrefix(a: Arguments, run: seq<Event>, k: nat)
    requires Possible(a, run) && k <= |run|
    ensures Possible(a, run[..k])
  {
    var init := run[..k];
    forall i | 0 <= i < |init|
      ensures Enabled(After(a, init[..i]), init[i])
    {
      assert init[..i] == run[..i] && init[i] == run[i];
    }
  }

  // ----- what the program itself measures

  // Every tick measures what the program does
  ghost predicate Measured(run: seq<Event>) {
    forall i :: 0 <= i < |run| && run[i].Tick? ==> run[i].x == Simulated(Ticks(run[..i]))
  }

  // How far light and temperature are in tick n from the tick before
  function LightStep(n: nat): nat { if n % 60 == 0 then 59 else 1 }

  function TemperatureStep(n: nat): nat { if n % 20 != 0 then 0 else if n % 120 == 0 then 5 else 1 }

  lemma SeventhsMove(n: nat)
    requires n > 0
    ensures if n % 7 == 0 then (n - 1) % 7 == 6 else (n - 1) % 7 == n % 7 - 1
  {
    var q, k := n / 7, n % 7;
    assert n - 1 == if k == 0 then 7 * (q - 1) + 6 else 7 * q + (k - 1);
  }

  lemma SixtiethsMove(n: nat)
    requires n > 0
    ensures if n % 60 == 0 then (n - 1) % 60 == 59 else (n - 1) % 60 == n % 60 - 1
  {
    var q, k := n / 60, n % 60;
    assert n - 1 == if k == 0 then 60 * (q - 1) + 59 else 60 * q + (k - 1);
  }

  lemma SixthsMove(n: nat)
    requires n > 0
    ensures if n % 6 == 0 then (n - 1) % 6 == 5 else (n - 1) % 6 == n % 6 - 1
  {
    var q, k := n / 6, n % 6;
    assert n - 1 == if k == 0 then 6 * (q - 1) + 5 else 6 * q + (k - 1);
  }

  lemma TwentiesMove(n: nat)
    requires n > 0
    ensures (n - 1) / 20 == if n % 20 == 0 then n / 20 - 1 else n / 20
  {
    var q, k := n / 20, n % 20;
    assert n - 1 == if k == 0 then 20 * (q - 1) + 19 else 20 * q + (k - 1);
  }

  lemma SixTwenties(n: nat)
    requires n % 20 == 0
    ensures n % 120 == 0 <==> n / 20 % 6 == 0
  {
    var q := n / 20;
    assert n == 20 * (6 * (q / 6) + q % 6);
    assert n == 120 * (q / 6) + 20 * (q % 6);
  }

  lemma TemperatureMoves(n: nat)
    requires n > 0
    ensures var b, x := Simulated(n - 1).temp, Simulated(n).temp;
            (if x < b then b - x else x - b) == TemperatureStep(n)
  {
    TwentiesMove(n);
    if n % 20 == 0 {
      SixTwenties(n);
      SixthsMove(n / 20);
    }
  }

  lemma LightMoves(n: nat)
    requires n > 0
    ensures var b, x := Simulated(n - 1).lux, Simulated(n).lux;
            (if x < b then b - x else x - b) == LightStep(n)
  {
    SixtiethsMove(n);
  }

  lemma MotionMoves(n: nat)
    requires n > 0
    ensures Simulated(n - 1).motion != Simulated(n).motion <==> n % 7 <= 1
  {
    SeventhsMove(n);
  }

  lemma SimulationMoves(a: Arguments, n: nat)
    ensures var before := if n == 0 then Reading(200, 0, 235) else Simulated(n - 1);
            Differs(a, before, Simulated(n))
            <==> n % 7 <= 1 || LightStep(n) >= a.luxThreshold || TemperatureStep(n) >= a.tempThreshold
  {
    if n > 0 {
      MotionMoves(n);
      LightMoves(n);
      TemperatureMoves(n);
      hide Simulated, LightStep, TemperatureStep;
    }
  }

  lemma {:induction false} LastMeasured(run: seq<Event>)
    requires Measured(run)
    ensures LastReading(run) == if Ticks(run) == 0 then Reading(200, 0, 235) else Simulated(Ticks(run) - 1)
  {
    if run != [] {
      var init := run[..|run| - 1];
      forall i | 0 <= i < |init| && init[i].Tick?
        ensures init[i].x == Simulated(Ticks(init[..i]))
      {
        assert init[..i] == run[..i] && run[i].Tick?;
      }
      LastMeasured(init);
      hide Simulated;
    }
  }

  /** The program's own readings, in every run: an active sensor without a fault in tick n sends exactly when n is 0 or
      1 modulo 7, where its motion begins or ends, when the light or the temperature moves by its threshold, or when the
      heartbeat is due. */
  lemma ProgramReports(a: Arguments, run: seq<Event>, roll: nat)
    requires Measured(run) && Possible(a, run + [Tick(Simulated(Ticks(run)), roll)])
    requires After(a, run + [Tick(Simulated(Ticks(run)), roll)]).state == ACTIVE
    ensures var s, t, n := After(a, run), After(a, run + [Tick(Simulated(Ticks(run)), roll)]), Ticks(run);
            var due := a.heartbeatS > 0 && s.seconds - s.lastHeartbeat >= a.heartbeatS;
            t.sent == s.sent + if n % 7 <= 1 || LightStep(n) >= a.luxThreshold
                                  || TemperatureStep(n) >= a.tempThreshold || due
                               then [Packet(n, Simulated(n))] else []
  {
    hide *;
    ActiveSends(a, run, Simulated(Ticks(run)), roll);
    LastMeasured(run);
    SimulationMoves(a, Ticks(run));
  }

  // ----- a faulty sensor comes back

  /** The acknowledgement makes a registering sensor active, and the fault reset a faulty one. */
  lemma TimersActivate(a: Arguments, run: seq<Event>)
    requires Possible(a, run)
    ensures var s := After(a, run);
            && (s.state == REGISTERING ==> Enabled(s, AckTimer) && Step(a, s, AckTimer).state == ACTIVE)
            && (s.state == FAULT && a.faultResetS > 0 ==>
                  Enabled(s, ResetTimer) && Step(a, s, ResetTimer).state == ACTIVE)
            && (Enabled(s, AckTimer) ==> Step(a, s, AckTimer).sent == s.sent)
            && (Enabled(s, ResetTimer) ==> Step(a, s, ResetTimer).sent == s.sent)
  {
    SensorInvariant(a, run);
    hide After, Possible;
  }

  function Fired(run: seq<Event>, e: Event): nat {
    if run == [] then 0 else Fired(run[..|run| - 1], e) + if run[|run| - 1] == e then 1 else 0
  }

  // How many fault markers have been sent
  function Markers(sent: seq<Packet>): nat {
    if sent == [] then 0
    else Markers(sent[..|sent| - 1]) + if sent[|sent| - 1].reading.motion == 254 then 1 else 0
  }

  lemma MarkersSnoc(sent: seq<Packet>, p: Packet)
    ensures Markers(sent + [p]) == Markers(sent) + if p.reading.motion == 254 then 1 else 0
  {
    assert (sent + [p])[..|sent|] == sent;
  }

  predicate OnceEach(s: Sensor, acks: nat, resets: nat) {
    acks + (if s.ackArmed then 1 else 0) == 1 && resets + (if s.resetArmed then 1 else 0) <= Markers(s.sent)
  }

  lemma OnceStep(a: Arguments, s: Sensor, e: Event, acks: nat, resets: nat)
    requires Enabled(s, e) && OnceEach(s, acks, resets)
    ensures OnceEach(Step(a, s, e), acks + (if e.AckTimer? then 1 else 0), resets + if e.ResetTimer? then 1 else 0)
  {
    if e.Tick? {
      TickWays(a, s, e.x, e.roll);
      MarkersSnoc(s.sent, Packet(s.seconds, FAULT_MARKER));
      MarkersSnoc(s.sent, Packet(s.seconds, e.x));
      hide OnTick, Fails, Sends, Markers;
    }
  }

  /** In every run the acknowledgement comes at most once, and at most one reset for each fault that was sent. */
  lemma {:induction false} TimersFireOnce(a: Arguments, run: seq<Event>)
    requires Possible(a, run)
    ensures Fired(run, AckTimer) <= 1 && Fired(run, ResetTimer) <= Markers(After(a, run).sent)
    ensures OnceEach(After(a, run), Fired(run, AckTimer), Fired(run, ResetTimer))
  {
    if run != [] {
      PossibleInit(a, run);
      TimersFireOnce(a, run[..|run| - 1]);
      OnceStep(a, After(a, run[..|run| - 1]), run[|run| - 1], Fired(run[..|run| - 1], AckTimer),
               Fired(run[..|run| - 1], ResetTimer));
      hide Step, Enabled, Possible;
    }
  }

  // ----- with the regional server

  // The readings a region took from uri, oldest first
  function Motions(inputs: seq<RegionSpec.Input>, uri: Str): seq<u8> {
    if inputs == [] then []
    else
      var i := inputs[|inputs| - 1];
      Motions(inputs[..|inputs| - 1], uri) + if i.Telemetry? && i.uri == uri then [i.motion] else []
  }

  function Carried(sent: seq<Packet>): seq<u8> {
    if sent == [] then [] else Carried(sent[..|sent| - 1]) + [sent[|sent| - 1].reading.motion]
  }

  // The last reading that is 0 or 1
  function LastLevel(motions: seq<u8>): u8 {
    if motions == [] then 0
    else if motions[|motions| - 1] <= 1 then motions[|motions| - 1] else LastLevel(motions[..|motions| - 1])
  }

  lemma {:induction false} MirrorOfCarried(sent: seq<Packet>)
    ensures Mirror(sent) == LastLevel(Carried(sent))
  {
    if sent != [] {
      var init := sent[..|sent| - 1];
      MirrorOfCarried(init);
      assert Carried(sent)[..|Carried(sent)| - 1] == Carried(init);
    }
  }

  /** A regional server's lastMotion is the last 0 or 1 it took from the sensor, in every run and whatever else
      happens. */
  lemma {:induction false} LastMotionIsLastLevel(start: u64, timeoutMs: u64, inputs: seq<RegionSpec.Input>, uri: Str)
    requires RegionSpec.Possible(start, timeoutMs, inputs)
    ensures RegionSpec.LastMotion(RegionSpec.After(start, timeoutMs, inputs), uri) == LastLevel(Motions(inputs, uri))
  {
    if inputs != [] {
      var init, i := inputs[..|inputs| - 1], inputs[|inputs| - 1];
      RegionSpec.PossibleInit(start, timeoutMs, inputs);
      LastMotionIsLastLevel(start, timeoutMs, init, uri);
      RegionSessions.LastMotionStep(RegionSpec.After(start, timeoutMs, init), timeoutMs, i);
      hide RegionSpec.Step;
      var ms := Motions(init, uri);
      if i.Telemetry? && i.uri == uri {
        assert (ms + [i.motion])[..|ms|] == ms;
      } else {
        assert ms + [] == ms;
      }
    }
  }

  lemma ZeroIsEven()
    ensures Even(0)
  {}

  /** When the packets of a sensor have all arrived, in order, the server's lastMotion is the sensor's current motion
      exactly when an even number of changes is hidden, and so whenever the sensor has ended every tick active. */
  lemma ServerMirrorsSensor(a: Arguments, run: seq<Event>, start: u64, timeoutMs: u64,
                            inputs: seq<RegionSpec.Input>, uri: Str)
    requires Possible(a, run)
    requires RegionSpec.Possible(start, timeoutMs, inputs) && Motions(inputs, uri) == Carried(After(a, run).sent)
    ensures var last := RegionSpec.LastMotion(RegionSpec.After(start, timeoutMs, inputs), uri);
            && (last == After(a, run).prev.motion <==> Even(Hidden(a, run)))
            && (ActiveFrom(a, run, 0) ==> last == After(a, run).prev.motion)
  {
    hide *;
    MirrorIsExact(a, run);
    if ActiveFrom(a, run, 0) {
      ActiveHidesNothing(a, run);
      ZeroIsEven();
    }
    MirrorOfCarried(After(a, run).sent);
    LastMotionIsLastLevel(start, timeoutMs, inputs, uri);
  }

  lemma Appended(inputs: seq<RegionSpec.Input>, i: RegionSpec.Input, uri: Str, sent: seq<Packet>, p: Packet)
    ensures Motions(inputs + [i], uri) == Motions(inputs, uri) + if i.Telemetry? && i.uri == uri then [i.motion] else []
    ensures Carried(sent + [p]) == Carried(sent) + [p.reading.motion]
  {
    assert (inputs + [i])[..|inputs|] == inputs && (sent + [p])[..|sent|] == sent;
  }

  /** So a fault can leave the server with a motion that is over, though every packet arrived. */
  lemma ServerCanBeStale(start: u64, timeoutMs: u64, uri: Str, zone: u32)
    ensures var inputs := [RegionSpec.Telemetry(uri, zone, 1), RegionSpec.Telemetry(uri, zone, 254)];
            var s := After(FAULTY, STALE);
            && RegionSpec.Possible(start, timeoutMs, inputs) && Motions(inputs, uri) == Carried(s.sent)
            && RegionSpec.LastMotion(RegionSpec.After(start, timeoutMs, inputs), uri) == 1
            && s.state == ACTIVE && s.prev.motion == 0
  {
    var on, marker := RegionSpec.Telemetry(uri, zone, 1), RegionSpec.Telemetry(uri, zone, 254);
    var inputs, first, second := [on, marker], Packet(0, Simulated(0)), Packet(1, FAULT_MARKER);
    hide RegionSpec.Step, RegionSpec.After, After;
    MirrorCanBeStale();
    assert RegionSpec.Possible(start, timeoutMs, inputs) by {
      forall i | 0 <= i < |inputs|
        ensures RegionSpec.Enabled(RegionSpec.After(start, timeoutMs, inputs[..i]), timeoutMs, inputs[i])
      {
        assert inputs[i].Telemetry?;
      }
    }
    assert inputs == [] + [on] + [marker] && After(FAULTY, STALE).sent == [] + [first] + [second];
    Appended([], on, uri, [], first);
    Appended([] + [on], marker, uri, [] + [first], second);
    MirrorOfCarried([] + [first] + [second]);
    LastMotionIsLastLevel(start, timeoutMs, inputs, uri);
  }
}
