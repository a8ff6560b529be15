/** What each message, timer and error does to a lamp, in terms of its state, its reports and its timers. */
module LampEffects {
  import opened Basics
  import opened Codec
  import opened Proto
  import opened Framing
  import opened WriteQueue
  import opened LampSpec
  import opened LampLaws
  import ProtoLaws

  // ----- reports and simulated faults

  function Status(c: Config, on: u8, intensity: u8, powerMw: u32): Frame {
    Frame(STATUS_REPORT, StatusBytes(StatusReport(c.uri, c.zone, on, intensity, powerMw)))
  }

  function OnStatus(c: Config, intensity: u8): Frame {
    var i: int := intensity;
    Status(c, 1, intensity, 70000 + 800 * i)
  }

  function OffStatus(c: Config): Frame { Status(c, 0, 0, 0) }

  function Fault(c: Config): Frame {
    Frame(FAULT_REPORT, FaultBytes(FaultReport(c.uri, c.zone, 1, FAULT_TEXT)))
  }

  // The die that a command throws comes up a fault
  predicate Faults(c: Config, roll: nat) { roll < c.faultPerMille }

  // m is l at the intensity, after reporting, and then perhaps faulty: the fault is sent, or waits for the write in
  // flight or the messages queued
  predicate Reported(c: Config, l: Lamp, m: Lamp, state: LampState, intensity: u8, report: Frame, roll: nat) {
    var busy := l.q.writing || l.q.outQ != [];
    && m.intensity == intensity && m.link == l.link
    && m.state == (if Faults(c, roll) then FAULT else state)
    && m.q.sent == l.q.sent + [report] + (if Faults(c, roll) && !busy then [Fault(c)] else [])
    && m.pendingFault == (l.pendingFault || (Faults(c, roll) && busy))
  }

  // Nothing is sent
  predicate Silent(l: Lamp, m: Lamp) {
    m.state == l.state && m.link == l.link && m.q == l.q && m.pendingFault == l.pendingFault
  }

  function CommandBody(cmd: Command): seq<u8> { Frame(CMD, CommandBytes(cmd)).Body() }

  lemma SimulationEffect(c: Config, l: Lamp, state: LampState, intensity: u8, roll: nat)
    requires state == ON || state == OFF
    ensures var on := l.(state := state, intensity := intensity);
            var m := MaybeSimulateFault(c, SendStatus(c, on), roll);
            Reported(c, l, m, state, intensity, Frame(STATUS_REPORT, StatusBytes(Report(c, on))), roll)
  {
    hide StatusBytes, FaultBytes;
    var on := l.(state := state, intensity := intensity);
    var report := Frame(STATUS_REPORT, StatusBytes(Report(c, on)));
    assert l.q.sent + [report] + [] == l.q.sent + [report];
  }

  lemma SimulatedStatus(c: Config, l: Lamp)
    ensures l.state == ON ==> Frame(STATUS_REPORT, StatusBytes(Report(c, l))) == OnStatus(c, l.intensity)
    ensures l.state == OFF && l.intensity == 0 ==> Frame(STATUS_REPORT, StatusBytes(Report(c, l))) == OffStatus(c)
    ensures l.state != ON ==> Frame(STATUS_REPORT, StatusBytes(Report(c, l))) == Status(c, 0, l.intensity, 0)
  {
    hide StatusBytes;
  }

  /** The table of commands, for a lamp in any state. SWITCH_ON of a lamp that is off: on, at 30 at least,
      one report of 70 W and 0.8 W a step. SWITCH_OFF of one that is on: off at 0, one report. SET_INTENSITY v of one
      that is on or off: v, and on exactly when v is positive, one report. Then perhaps a fault, but not after
      SWITCH_OFF. Any other command, or in any other state: nothing is sent. */
  lemma CommandTable(c: Config, l: Lamp, now: nat, cmd: Command, roll: nat)
    requires ShortStr(cmd.uri)
    ensures var m := Step(c, l, now, Message(CommandBody(cmd), roll));
            if cmd.cmd == 1 && l.state == OFF then
              var i := if l.intensity < 30 then 30 else l.intensity;
              Reported(c, l, m, ON, i, OnStatus(c, i), roll)
            else if cmd.cmd == 2 && l.state == ON then
              m.state == OFF && m.intensity == 0 && m.link == l.link && m.q.sent == l.q.sent + [OffStatus(c)]
              && m.pendingFault == l.pendingFault
            else if cmd.cmd == 3 && (l.state == ON || l.state == OFF) then
              if cmd.value > 0 then Reported(c, l, m, ON, cmd.value, OnStatus(c, cmd.value), roll)
              else Reported(c, l, m, OFF, 0, OffStatus(c), roll)
            else
              Silent(l, m) && m.intensity == if cmd.cmd == 3 then cmd.value else l.intensity
  {
    var f := Frame(CMD, CommandBytes(cmd));
    assert f.Body() != [] && f.Body()[0] == CMD && f.Body()[1..] == CommandBytes(cmd);
    ProtoLaws.CommandExact(CommandBytes(cmd), cmd);
    CommandEffect(c, l, cmd, roll);
    hide DecodeCommand, CommandBytes, OnCommand, Frame.Body, Reported, Silent;
  }

  lemma CommandEffect(c: Config, l: Lamp, cmd: Command, roll: nat)
    ensures var m := OnCommand(c, l, cmd, roll);
            if cmd.cmd == 1 && l.state == OFF then
              var i := if l.intensity < 30 then 30 else l.intensity;
              Reported(c, l, m, ON, i, OnStatus(c, i), roll)
            else if cmd.cmd == 2 && l.state == ON then
              m.state == OFF && m.intensity == 0 && m.link == l.link && m.q.sent == l.q.sent + [OffStatus(c)]
              && m.pendingFault == l.pendingFault
            else if cmd.cmd == 3 && (l.state == ON || l.state == OFF) then
              if cmd.value > 0 then Reported(c, l, m, ON, cmd.value, OnStatus(c, cmd.value), roll)
              else Reported(c, l, m, OFF, 0, OffStatus(c), roll)
            else
              Silent(l, m) && m.intensity == if cmd.cmd == 3 then cmd.value else l.intensity
  {
    var state, i := ON, if l.intensity < 30 then 30 else l.intensity;
    if cmd.cmd == 3 {
      state, i := if cmd.value > 0 then ON else OFF, cmd.value;
    }
    SimulationEffect(c, l, state, i, roll);
    SimulatedStatus(c, l.(state := state, intensity := i));
    SimulatedStatus(c, l.(state := OFF, intensity := 0));
    assert l.state == ON ==> SwitchTo(l, OFF) == l.(state := OFF);
    assert l.state == OFF ==> SwitchTo(l, ON) == l.(state := ON);
    hide MaybeSimulateFault, Reported, StatusBytes, OnStatus, OffStatus, Status, SwitchTo;
  }

  // ----- acknowledgement and heartbeat

  // A body that begins with the message type
  predicate Is(body: seq<u8>, kind: u8) { body != [] && body[0] == kind }

  /** The acknowledgement takes a lamp that is registering, or on, to off at 0, with one report and the heartbeat timer
      started; in any other state it only stops the register timer. */
  lemma AcknowledgementEffect(c: Config, l: Lamp, now: nat, body: seq<u8>, roll: nat)
    requires Is(body, REGISTER_ACK)
    ensures var m := Step(c, l, now, Message(body, roll));
            && m.registerTimer == None && m.link == l.link
            && if l.state == REGISTERING || l.state == ON then
                 && m.state == OFF && m.intensity == 0 && m.q.sent == l.q.sent + [OffStatus(c)]
                 && m.heartbeatTimer == if c.heartbeatS > 0 then Some(now + 1000 * c.heartbeatS) else l.heartbeatTimer
               else Silent(l, m) && m.intensity == l.intensity && m.heartbeatTimer == l.heartbeatTimer
  {
    hide StatusBytes;
  }

  /** The heartbeat reports what a registered lamp is, and starts the timer anew. */
  lemma HeartbeatEffect(c: Config, l: Lamp, now: nat)
    requires StateInv(c, l)
    ensures var m := Step(c, l, now, HeartbeatTimer);
            && m.state == l.state && m.intensity == l.intensity && m.link == l.link
            && m.q.sent == l.q.sent + (if l.state == ON then [OnStatus(c, l.intensity)]
                                       else if l.state == OFF then [OffStatus(c)]
                                       else if l.state == FAULT then [Status(c, 0, l.intensity, 0)] else [])
            && (c.heartbeatS > 0 ==> m.heartbeatTimer == Some(now + 1000 * c.heartbeatS))
  {
    hide StatusBytes;
    SimulatedStatus(c, l);
    assert l.q.sent + [] == l.q.sent;
  }

  // ----- losing the connection

  // The lamp has given up its connection and will connect again in two seconds
  predicate Reconnecting(l: Lamp, now: nat) {
    && l.state == UNREGISTERED && l.link == Waiting && l.reconnectTimer == Some(now + 2000)
    && l.registerTimer == None && l.heartbeatTimer == None
    && l.q.outQ == [] && !l.q.writing && l.q.inFlight == None
  }

  /** A registration that times out, is refused, a socket error and the reset of a faulty lamp each give up the
      connection, with the reconnect timer two seconds on. */
  lemma ConnectionGivenUp(c: Config, l: Lamp, now: nat, body: seq<u8>, roll: nat)
    ensures l.state == REGISTERING ==> Reconnecting(Step(c, l, now, RegisterTimer), now)
    ensures Is(body, REGISTER_NACK) ==> Reconnecting(Step(c, l, now, Message(body, roll)), now)
    ensures Reconnecting(Step(c, l, now, SocketError), now)
    ensures l.state == FAULT ==> Reconnecting(Step(c, l, now, ResetTimer), now)
  {}

  /** And only then: a lamp keeps its connection through every other event. */
  lemma ConnectionKept(c: Config, l: Lamp, now: nat, e: Event)
    requires StateInv(c, l) && Enabled(l, e) && l.link == Connected
    requires !e.SocketError? && !(e.RegisterTimer? && l.state == REGISTERING) && !(e.ResetTimer? && l.state == FAULT)
    requires !(e.Message? && Is(e.body, REGISTER_NACK))
    ensures Step(c, l, now, e).link == Connected && Step(c, l, now, e).state in {REGISTERING, OFF, ON, FAULT}
  {
    StateStep(c, l, now, e);
    if e.Message? {
      hide OnCommand, DecodeCommand, SendStatus;
      if Is(e.body, CMD) && DecodeCommand(e.body[1..]).Ok? {
        CommandKeepsLink(c, l, DecodeCommand(e.body[1..]).value, e.roll);
      } else {
        StatusKeepsLink(c, SwitchTo(l, OFF).(intensity := 0, registerTimer := None));
      }
    }
  }

  /** A new connection begins with the registration as its only message, and its timeout five seconds on, whatever the
      lamp was before. */
  lemma HandshakeEffect(c: Config, l: Lamp, now: nat)
    requires l.state != REGISTERING
    ensures IsNewConnection(c, Step(c, l, now, HandshakeDone), now)
  {
    hide RegisterReqBytes;
  }

  predicate IsNewConnection(c: Config, l: Lamp, now: nat) {
    && l.link == Connected && l.state == REGISTERING && l.registerTimer == Some(now + 5000)
    && l.q.sent == [Frame(REGISTER_REQ, RegisterReqBytes(RegisterReq(LUMINAIRE, c.uri, c.zone)))] && l.q.written == []
  }

  // ----- a lamp can always register again

  // The event is due: a timer whose deadline is now, the handshake of the connection being made, a reset of a faulty
  // lamp, or what an old socket leaves behind
  predicate Due(l: Lamp, now: nat, e: Event) {
    match e
    case RegisterTimer => l.state == REGISTERING && l.registerTimer == Some(now)
    case ReconnectTimer => l.reconnectTimer == Some(now)
    case HandshakeDone => true
    case ResetTimer => l.state == FAULT
    case RunPosted => l.link == Waiting
    case SocketError => l.link == Waiting && l.q.writing
    case _ => false
  }

  // What still separates the lamp from its next registration
  function ToRegister(l: Lamp): nat {
    match l.link
    case Connecting => 1
    case Waiting => 2 + 2 * |l.q.posted| + if l.q.writing then 1 else 0
    case Connected => 4 + 2 * |l.q.posted|
  }

  function NextEvent(l: Lamp): Event {
    match l.link
    case Connecting => HandshakeDone
    case Waiting => if l.q.posted != [] then RunPosted else if l.q.writing then SocketError else ReconnectTimer
    case Connected => if l.state == FAULT then ResetTimer else RegisterTimer
  }

  function NextTime(l: Lamp): nat {
    match NextEvent(l)
    case ReconnectTimer => if l.reconnectTimer.Some? then l.reconnectTimer.value else 0
    case RegisterTimer => if l.registerTimer.Some? then l.registerTimer.value else 0
    case _ => 0
  }

  lemma NextIsDue(c: Config, l: Lamp)
    requires StateInv(c, l) && QueueInv(c, l) && (l.link == Connected ==> l.state == REGISTERING || l.state == FAULT)
    ensures Enabled(l, NextEvent(l)) && Due(l, NextTime(l), NextEvent(l))
    ensures var m := Step(c, l, NextTime(l), NextEvent(l));
            if l.link == Connecting then IsNewConnection(c, m, NextTime(l))
            else ToRegister(m) < ToRegister(l) && m.link != Connected
  {
    hide RegisterReqBytes;
  }

  lemma RunOn(c: Config, run: seq<Occurrence>, now: nat, e: Event)
    requires Possible(c, run) && Enabled(After(c, run), e)
    ensures Possible(c, run + [Occurrence(now, e)])
    ensures After(c, run + [Occurrence(now, e)]) == Step(c, After(c, run), now, e)
  {
    hide Enabled, Step;
    var more := run + [Occurrence(now, e)];
    assert more[..|run|] == run;
    forall i | 0 <= i < |more|
      ensures Enabled(After(c, more[..i]), more[i].event)
    {
      if i < |run| {
        assert more[..i] == run[..i] && more[i] == run[i];
      }
    }
  }

  /** From every reachable state in which the lamp is not registered, or is faulty and is reset, the handlers that are
      due bring it to a new connection that begins with a registration. */
  lemma {:induction false} CanRegisterAgain(c: Config, run: seq<Occurrence>) returns (end: seq<Occurrence>, now: nat)
    requires Possible(c, run) && After(c, run).state != ON && After(c, run).state != OFF
    ensures Possible(c, end) && run < end && IsNewConnection(c, After(c, end), now)
    ensures forall k :: |run| <= k < |end| ==> Due(After(c, end[..k]), end[k].now, end[k].event)
    decreases ToRegister(After(c, run))
  {
    var l := After(c, run);
    LampInvariant(c, run);
    NextIsDue(c, l);
    var t, e := NextTime(l), NextEvent(l);
    var m := Step(c, l, t, e);
    RunOn(c, run, t, e);
    var run1 := run + [Occurrence(t, e)];
    assert run1[..|run|] == run;
    if l.link == Connecting {
      end, now := run1, t;
      hide *;
    } else {
      LampInvariant(c, run1);
      assert m.state != ON && m.state != OFF;
      hide *;
      end, now := CanRegisterAgain(c, run1);
      assert end[..|run|] == run && end[|run|] == run1[|run|];
    }
  }
}
