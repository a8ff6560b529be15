/** What every run of the lamp keeps: its state machine, its power law and its write queue. */
module LampLaws {
  import opened Basics
  import opened Codec
  import opened Proto
  import opened Framing
  import opened WriteQueue
  import opened LampSpec

  // ----- runs: any handlers at any times

  datatype Occurrence = Occurrence(now: nat, event: Event)

  function After(c: Config, run: seq<Occurrence>): Lamp {
    if run == [] then Boot()
    else Step(c, After(c, run[..|run| - 1]), run[|run| - 1].now, run[|run| - 1].event)
  }

  ghost predicate Possible(c: Config, run: seq<Occurrence>) {
    forall i :: 0 <= i < |run| ==> Enabled(After(c, run[..i]), run[i].event)
  }

  // ----- the invariant

  // Off means no power; on means 70 W plus 0.8 W for each step of a positive intensity
  predicate PowerLaw(on: u8, intensity: u8, powerMw: u32) {
    || (on == 0 && powerMw == 0)
    || (on == 1 && intensity >= 1 && var i: int := intensity; powerMw == 70000 + 800 * i)
  }

  ghost predicate IsStatus(c: Config, f: Frame) {
    && f.kind == STATUS_REPORT
    && exists r: StatusReport :: f.payload == StatusBytes(r) && r.uri == c.uri && r.zoneId == c.zone
                                 && PowerLaw(r.on, r.intensity, r.powerMw)
  }

  predicate IsFault(c: Config, f: Frame) { f == Frame(FAULT_REPORT, FaultBytes(SimulatedFault(c))) }

  predicate IsRegister(c: Config, f: Frame) {
    f == Frame(REGISTER_REQ, RegisterReqBytes(RegisterReq(LUMINAIRE, c.uri, c.zone)))
  }

  ghost predicate IsReport(c: Config, f: Frame) { IsStatus(c, f) || IsFault(c, f) }

  predicate StateInv(c: Config, l: Lamp) {
    && (l.state == OFF ==> l.intensity == 0)
    && (l.state == ON ==> l.intensity >= 1)
    && (l.link == Connected <==> l.state in {REGISTERING, OFF, ON, FAULT})
    && (l.link != Connected ==> l.state == UNREGISTERED)
    // something always brings the lamp on
    && (l.state in {OFF, ON, FAULT} && c.heartbeatS > 0 ==> l.heartbeatTimer.Some?)
    && (l.state == REGISTERING ==> l.registerTimer.Some?)
    && (l.link == Waiting ==> l.reconnectTimer.Some?)
  }

  predicate QueueInv(c: Config, l: Lamp) {
    && l.q.Shape()
    && (l.link == Connecting ==> l.q.posted == [] && !l.q.writing)
    && (l.link == Connected ==> l.q.InOrder())
    // a pending fault is never stranded
    && (l.pendingFault ==> l.link != Connected || l.q.writing || l.q.posted != [])
    && (l.pendingFault ==> l.pendingMsg == SimulatedFault(c))
  }

  // A connection sends its registration first and then only lawful reports
  ghost predicate SentInv(c: Config, l: Lamp) {
    l.link == Connected ==>
      |l.q.sent| >= 1 && IsRegister(c, l.q.sent[0]) && forall i :: 1 <= i < |l.q.sent| ==> IsReport(c, l.q.sent[i])
  }

  ghost predicate Inv(c: Config, l: Lamp) { StateInv(c, l) && QueueInv(c, l) && SentInv(c, l) }

  // ----- one step

  lemma StateStep(c: Config, l: Lamp, now: nat, e: Event)
    requires StateInv(c, l) && Enabled(l, e)
    ensures StateInv(c, Step(c, l, now, e))
    ensures Follows(l.state, Step(c, l, now, e).state)
  {
    if e.Message? {
      MessageState(c, l, now, e.body, e.roll);
    } else {
      hide OnMessage, StatusBytes, RegisterReqBytes, FaultBytes;
    }
  }

  lemma MessageState(c: Config, l: Lamp, now: nat, body: seq<u8>, roll: nat)
    requires StateInv(c, l) && l.link != Connecting
    ensures StateInv(c, OnMessage(c, l, now, body, roll))
    ensures Follows(l.state, OnMessage(c, l, now, body, roll).state)
  {
    hide OnCommand, DecodeCommand, StatusBytes;
    if body != [] && body[0] == CMD && DecodeCommand(body[1..]).Ok? {
      CommandState(c, l, DecodeCommand(body[1..]).value, roll);
    }
  }

  // A state change that the table allows, or a reset
  predicate Follows(a: LampState, b: LampState) { a == b || Allowed(a, b) || b == UNREGISTERED }

  lemma SimulatedState(c: Config, l: Lamp, roll: nat)
    ensures var m := MaybeSimulateFault(c, SendStatus(c, l), roll);
            && (m.state == l.state || (l.state in {ON, OFF} && m.state == FAULT))
            && m.intensity == l.intensity && m.link == l.link && m.heartbeatTimer == l.heartbeatTimer
            && m.registerTimer == l.registerTimer && m.reconnectTimer == l.reconnectTimer
  {}

  lemma CommandState(c: Config, l: Lamp, cmd: Command, roll: nat)
    requires StateInv(c, l)
    ensures StateInv(c, OnCommand(c, l, cmd, roll))
    ensures Follows(l.state, OnCommand(c, l, cmd, roll).state)
  {
    var dimmed := l.(intensity := cmd.value);
    hide MaybeSimulateFault, StatusBytes;
    if cmd.cmd == 1 && l.state == OFF {
      SimulatedState(c, SwitchTo(l, ON).(intensity := if l.intensity < 30 then 30 else l.intensity), roll);
    } else if cmd.cmd == 3 && cmd.value == 0 && l.state == ON {
      SimulatedState(c, SwitchTo(dimmed, OFF), roll);
    } else if cmd.cmd == 3 && cmd.value > 0 && l.state == OFF {
      SimulatedState(c, SwitchTo(dimmed, ON), roll);
    } else if cmd.cmd == 3 {
      SimulatedState(c, dimmed, roll);
    }
  }

  lemma QueueSendKeeps(c: Config, l: Lamp, kind: u8, payload: seq<u8>)
    requires QueueInv(c, l) && l.link != Connecting
    ensures QueueInv(c, QueueSend(l, kind, payload))
  {
    SendKeeps(l.q, Frame(kind, payload));
  }

  lemma FaultKeeps(c: Config, l: Lamp, roll: nat)
    requires QueueInv(c, l) && l.link != Connecting
    ensures QueueInv(c, MaybeSimulateFault(c, l, roll))
  {
    QueueSendKeeps(c, SwitchTo(l, FAULT), FAULT_REPORT, FaultBytes(SimulatedFault(c)));
  }

  lemma StatusKeeps(c: Config, l: Lamp, roll: nat)
    requires QueueInv(c, l) && l.link != Connecting
    ensures QueueInv(c, SendStatus(c, l)) && QueueInv(c, MaybeSimulateFault(c, SendStatus(c, l), roll))
  {
    QueueSendKeeps(c, l, STATUS_REPORT, StatusBytes(Report(c, l)));
    FaultKeeps(c, SendStatus(c, l), roll);
  }

  lemma CommandKeeps(c: Config, l: Lamp, cmd: Command, roll: nat)
    requires QueueInv(c, l) && l.link != Connecting
    ensures QueueInv(c, OnCommand(c, l, cmd, roll))
  {
    hide MaybeSimulateFault, SendStatus;
    forall m: Lamp | QueueInv(c, m) && m.link != Connecting
      ensures QueueInv(c, SendStatus(c, m)) && QueueInv(c, MaybeSimulateFault(c, SendStatus(c, m), roll))
    {
      StatusKeeps(c, m, roll);
    }
  }

  lemma WrittenKeeps(c: Config, l: Lamp)
    requires QueueInv(c, l) && l.link == Connected && l.q.inFlight.Some?
    ensures QueueInv(c, OnWritten(c, l))
  {
    CompletedKeeps(l.q);
    var q := Completed(l.q);
    var r := if l.pendingFault then Send(q, Frame(FAULT_REPORT, FaultBytes(l.pendingMsg))) else q;
    assert r.InOrder() by {
      assert q.written + q.InFlight() + q.outQ + q.posted + [Frame(FAULT_REPORT, FaultBytes(l.pendingMsg))]
          == q.written + q.InFlight() + q.outQ + (q.posted + [Frame(FAULT_REPORT, FaultBytes(l.pendingMsg))]);
    }
    DoWriteKeeps(r);
  }

  lemma QueueStep(c: Config, l: Lamp, now: nat, e: Event)
    requires StateInv(c, l) && QueueInv(c, l) && Enabled(l, e)
    ensures QueueInv(c, Step(c, l, now, e))
  {
    match e
    case HeartbeatTimer =>
      hide StatusBytes;
      if l.link == Connected {
        QueueSendKeeps(c, l, STATUS_REPORT, StatusBytes(Report(c, l)));
      }
    case RunPosted => RunPostedKeeps(l.q);
    case Written =>
      hide StateInv, OnWritten;
      WrittenKeeps(c, l);
    case Message(body, roll) =>
      hide OnMessage;
      MessageKeeps(c, l, now, body, roll);
    case HandshakeDone => hide RegisterReqBytes;
    case _ =>
  }

  lemma MessageKeeps(c: Config, l: Lamp, now: nat, body: seq<u8>, roll: nat)
    requires QueueInv(c, l) && l.link != Connecting
    ensures QueueInv(c, OnMessage(c, l, now, body, roll))
  {
    hide OnCommand, DecodeCommand, SendStatus;
    if body != [] && body[0] == CMD && DecodeCommand(body[1..]).Ok? {
      CommandKeeps(c, l, DecodeCommand(body[1..]).value, roll);
    } else if body != [] && body[0] == REGISTER_ACK {
      StatusKeeps(c, SwitchTo(l, OFF).(intensity := 0, registerTimer := None), roll);
    }
  }

  // What one handler hands to queue_send while the connection lasts
  ghost predicate Extends(c: Config, l: Lamp, m: Lamp) {
    && l.q.sent <= m.q.sent
    && forall i :: |l.q.sent| <= i < |m.q.sent| ==> IsReport(c, m.q.sent[i])
  }

  lemma ReportLawful(c: Config, l: Lamp)
    requires l.state == ON ==> l.intensity >= 1
    ensures IsStatus(c, Frame(STATUS_REPORT, StatusBytes(Report(c, l))))
  {
    var r := Report(c, l);
    assert r.uri == c.uri && r.zoneId == c.zone && PowerLaw(r.on, r.intensity, r.powerMw);
  }

  lemma StatusExtends(c: Config, l: Lamp, roll: nat)
    requires l.state == ON ==> l.intensity >= 1
    ensures Extends(c, l, SendStatus(c, l))
    ensures Extends(c, l, MaybeSimulateFault(c, SendStatus(c, l), roll))
  {
    ReportLawful(c, l);
  }

  lemma SentStep(c: Config, l: Lamp, now: nat, e: Event)
    requires StateInv(c, l) && QueueInv(c, l) && Enabled(l, e)
    requires l.link == Connected && Step(c, l, now, e).link == Connected
    ensures Extends(c, l, Step(c, l, now, e))
  {
    match e
    case HeartbeatTimer => StatusExtends(c, l, 0);
    case Message(body, roll) =>
      hide OnMessage, Extends;
      MessageExtends(c, l, now, body, roll);
    case _ => hide IsReport, StatusBytes, RegisterReqBytes;
  }

  lemma MessageExtends(c: Config, l: Lamp, now: nat, body: seq<u8>, roll: nat)
    requires StateInv(c, l) && l.link == Connected && OnMessage(c, l, now, body, roll).link == Connected
    ensures Extends(c, l, OnMessage(c, l, now, body, roll))
  {
    hide OnCommand, DecodeCommand, StatusBytes, IsReport;
    if body != [] && body[0] == CMD && DecodeCommand(body[1..]).Ok? {
      CommandExtends(c, l, DecodeCommand(body[1..]).value, roll);
    } else if body != [] && body[0] == REGISTER_ACK {
      StatusExtends(c, SwitchTo(l, OFF).(intensity := 0, registerTimer := None), 0);
    }
  }

  lemma CommandExtends(c: Config, l: Lamp, cmd: Command, roll: nat)
    requires StateInv(c, l)
    ensures Extends(c, l, OnCommand(c, l, cmd, roll))
  {
    hide MaybeSimulateFault, SendStatus, IsReport;
    forall m: Lamp | m.state == ON ==> m.intensity >= 1
      ensures Extends(c, m, SendStatus(c, m))
      ensures Extends(c, m, MaybeSimulateFault(c, SendStatus(c, m), roll))
    {
      StatusExtends(c, m, roll);
    }
  }

  lemma InvStep(c: Config, l: Lamp, now: nat, e: Event)
    requires Inv(c, l) && Enabled(l, e)
    ensures Inv(c, Step(c, l, now, e))
  {
    StateStep(c, l, now, e);
    QueueStep(c, l, now, e);
    if e.HandshakeDone? {
      RegistersFirst(c, l, now);
    } else if Step(c, l, now, e).link == Connected {
      OnlyHandshakeConnects(c, l, now, e);
      SentStep(c, l, now, e);
      hide Step, StateInv, QueueInv, IsReport, IsRegister;
      ExtendsKeeps(c, l, Step(c, l, now, e));
    }
  }

  lemma RegistersFirst(c: Config, l: Lamp, now: nat)
    requires StateInv(c, l) && Enabled(l, HandshakeDone)
    ensures SentInv(c, Step(c, l, now, HandshakeDone))
  {
    hide RegisterReqBytes, IsReport;
  }

  lemma OnlyHandshakeConnects(c: Config, l: Lamp, now: nat, e: Event)
    requires StateInv(c, l) && Enabled(l, e) && !e.HandshakeDone? && Step(c, l, now, e).link == Connected
    ensures l.link == Connected
  {
    if e.Message? {
      hide OnCommand, DecodeCommand, SendStatus;
      if e.body != [] && e.body[0] == CMD && DecodeCommand(e.body[1..]).Ok? {
        CommandKeepsLink(c, l, DecodeCommand(e.body[1..]).value, e.roll);
      } else {
        StatusKeepsLink(c, SwitchTo(l, OFF).(intensity := 0, registerTimer := None));
      }
    }
  }

  lemma CommandKeepsLink(c: Config, l: Lamp, cmd: Command, roll: nat)
    ensures OnCommand(c, l, cmd, roll).link == l.link
  {
    hide StatusBytes, FaultBytes;
  }

  lemma StatusKeepsLink(c: Config, l: Lamp)
    ensures SendStatus(c, l).link == l.link
  {}

  lemma ExtendsKeeps(c: Config, l: Lamp, m: Lamp)
    requires SentInv(c, l) && l.link == Connected && m.link == Connected && Extends(c, l, m)
    ensures SentInv(c, m)
  {
    assert m.q.sent[0] == l.q.sent[0];
  }

  // ----- the results

  /** In every run of messages, timers and socket errors the invariant holds: OFF has intensity 0 and ON at least 1,
      a live timer always brings the lamp on, the write queue keeps everything sent in order with at most one write
      outstanding, no pending fault is stranded, and only lawful reports are sent. */
  lemma {:induction false} LampInvariant(c: Config, run: seq<Occurrence>)
    requires Possible(c, run)
    ensures Inv(c, After(c, run))
  {
    if run != [] {
      var init, last := run[..|run| - 1], run[|run| - 1];
      Initial(run);
      LampInvariant(c, init);
      assert Enabled(After(c, run[..|init|]), last.event);
      InvStep(c, After(c, init), last.now, last.event);
    }
  }

  /** Every handler leaves the state alone, follows the transition table, or resets the lamp to UNREGISTERED. */
  lemma TransitionsFollowTable(c: Config, run: seq<Occurrence>, last: Occurrence)
    requires Possible(c, run) && Enabled(After(c, run), last.event)
    ensures var a, b := After(c, run).state, After(c, run + [last]).state;
            a == b || Allowed(a, b) || b == UNREGISTERED
  {
    LampInvariant(c, run);
    StateStep(c, After(c, run), last.now, last.event);
    hide Step, Inv;
    assert (run + [last])[..|run|] == run;
  }

  /** A pending fault goes out right after the write in flight, as the last message sent so far. */
  lemma PendingFaultIsSent(c: Config, run: seq<Occurrence>, now: nat)
    requires Possible(c, run) && After(c, run).pendingFault && Enabled(After(c, run), Written)
    ensures var l, m := After(c, run), After(c, run + [Occurrence(now, Written)]);
            && m.q.sent == l.q.sent + [Frame(FAULT_REPORT, FaultBytes(SimulatedFault(c)))]
            && m.q.written == l.q.written + [l.q.inFlight.value] && !m.pendingFault
  {
    LampInvariant(c, run);
    assert (run + [Occurrence(now, Written)])[..|run|] == run;
  }

  /** While nothing waits in the queue and no write is outstanding, everything sent has been written. */
  lemma IdleQueueHasWrittenAll(c: Config, run: seq<Occurrence>)
    requires Possible(c, run)
    ensures var l := After(c, run);
            l.link == Connected && l.q.posted == [] && !l.q.writing ==> l.q.written == l.q.sent && !l.pendingFault
  {
    LampInvariant(c, run);
  }
}
