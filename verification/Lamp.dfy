/**
 luminaire_client.cpp: the lamp's state machine, timers and write queue, each handler as a function on states.
 The program has one io.run thread, so each completion handler is one atomic step.
 */
module LampSpec {
  import opened Basics
  import opened Codec
  import opened Proto
  import opened Framing
  import opened WriteQueue

  datatype LampState = IDLE | UNREGISTERED | REGISTERING | OFF | ON | FAULT

  const TRANSITIONS: set<(LampState, LampState)> := {
    (IDLE, UNREGISTERED), (UNREGISTERED, REGISTERING), (REGISTERING, OFF), (REGISTERING, UNREGISTERED),
    (OFF, ON), (ON, OFF), (ON, FAULT), (OFF, FAULT), (FAULT, IDLE)}

  // The program's arguments; a longer uri makes put_str throw out of send_register
  datatype Arguments = Arguments(uri: Str, zone: u32, heartbeatS: int, faultPerMille: int)
  type Config = a: Arguments | ShortStr(a.uri) witness Arguments([], 0, 10, 0)

  // Connecting: resolving, connecting or shaking hands. Waiting: the reconnect timer runs, the socket is closed.
  datatype Link = Connecting | Connected | Waiting

  datatype Lamp = Lamp(
    state: LampState, intensity: u8, link: Link,
    q: Queue,
    pendingFault: bool, pendingMsg: FaultReport,
    registerTimer: Option<nat>, reconnectTimer: Option<nat>, heartbeatTimer: Option<nat>)

  datatype Event =
    | SocketError                       // failure of resolve, connect, handshake, read or write, bad length, abort
    | HandshakeDone
    | ReconnectTimer
    | RegisterTimer
    | HeartbeatTimer
    | ResetTimer
    | RunPosted
    | Written
    | Message(body: seq<u8>, roll: nat) // roll is what urand(0,999) would return

  // ----- the handlers as functions

  predicate Allowed(a: LampState, b: LampState) { (a, b) in TRANSITIONS }

  function SwitchTo(l: Lamp, next: LampState): Lamp {
    if Allowed(l.state, next) then l.(state := next) else l
  }

  function QueueSend(l: Lamp, kind: u8, payload: seq<u8>): Lamp { l.(q := Send(l.q, Frame(kind, payload))) }

  function ScheduleReconnect(l: Lamp, now: nat): Lamp {
    l.(link := Waiting, registerTimer := None, heartbeatTimer := None,
       q := l.q.(outQ := [], writing := false, inFlight := None), state := UNREGISTERED,
       reconnectTimer := Some(now + 2000))
  }

  function ScheduleHeartbeat(c: Config, l: Lamp, now: nat): Lamp {
    if c.heartbeatS <= 0 then l else l.(heartbeatTimer := Some(now + 1000 * c.heartbeatS))
  }

  function PowerMw(l: Lamp): u32 { if l.state == ON then var i: int := l.intensity; 70000 + 800 * i else 0 }

  function Report(c: Config, l: Lamp): StatusReport {
    StatusReport(c.uri, c.zone, if l.state == ON then 1 else 0, l.intensity, PowerMw(l))
  }

  function SendStatus(c: Config, l: Lamp): Lamp {
    QueueSend(l, STATUS_REPORT, StatusBytes(Report(c, l)))
  }

  const FAULT_TEXT: Str := [102, 97, 117, 108, 116, 95, 100, 101, 116, 101, 99, 116, 101, 100] // "fault_detected"

  function SimulatedFault(c: Config): FaultReport { FaultReport(c.uri, c.zone, 1, FAULT_TEXT) }

  function RequestFault(c: Config, l: Lamp): Lamp {
    if l.q.writing || l.q.outQ != [] then l.(pendingFault := true, pendingMsg := SimulatedFault(c))
    else QueueSend(l, FAULT_REPORT, FaultBytes(SimulatedFault(c)))
  }

  function MaybeSimulateFault(c: Config, l: Lamp, roll: nat): Lamp {
    if c.faultPerMille <= 0 || (l.state != ON && l.state != OFF) || roll >= c.faultPerMille then l
    else RequestFault(c, SwitchTo(l, FAULT))
  }

  function SendRegister(c: Config, l: Lamp, now: nat): Lamp {
    var l := if l.state != UNREGISTERED && l.state != REGISTERING then l.(state := UNREGISTERED) else l;
    if !Allowed(l.state, REGISTERING) then l
    else
      var l := QueueSend(SwitchTo(l, REGISTERING), REGISTER_REQ,
                         RegisterReqBytes(RegisterReq(LUMINAIRE, c.uri, c.zone)));
      l.(registerTimer := Some(now + 5000))
  }

  function OnCommand(c: Config, l: Lamp, cmd: Command, roll: nat): Lamp {
    if cmd.cmd == 1 then
      if l.state != OFF then l
      else
        var l := SwitchTo(l, ON);
        MaybeSimulateFault(c, SendStatus(c, l.(intensity := if l.intensity < 30 then 30 else l.intensity)), roll)
    else if cmd.cmd == 2 then
      if l.state != ON then l else SendStatus(c, SwitchTo(l, OFF).(intensity := 0))
    else if cmd.cmd == 3 then
      var l := l.(intensity := cmd.value);
      var l := if l.intensity == 0 && l.state == ON then SwitchTo(l, OFF)
               else if l.intensity > 0 && l.state == OFF then SwitchTo(l, ON) else l;
      if l.state == ON || l.state == OFF then MaybeSimulateFault(c, SendStatus(c, l), roll) else l
    else l
  }

  function OnMessage(c: Config, l: Lamp, now: nat, body: seq<u8>, roll: nat): Lamp {
    if body == [] then l
    else if body[0] == REGISTER_ACK then
      var l := l.(registerTimer := None);
      if !Allowed(l.state, OFF) then l
      else ScheduleHeartbeat(c, SendStatus(c, SwitchTo(l, OFF).(intensity := 0)), now)
    else if body[0] == REGISTER_NACK then
      ScheduleReconnect(SwitchTo(l.(registerTimer := None), UNREGISTERED), now)
    else if body[0] == CMD then
      match DecodeCommand(body[1..])
      case Ok(cmd) => OnCommand(c, l, cmd, roll)
      case Err(_) => l
    else l
  }

  function OnWritten(c: Config, l: Lamp): Lamp {
    var l := l.(q := Completed(l.q));
    var l := if l.pendingFault then QueueSend(l.(pendingFault := false), FAULT_REPORT, FaultBytes(l.pendingMsg))
             else l;
    l.(q := DoWrite(l.q))
  }

  function OnHeartbeat(c: Config, l: Lamp, now: nat): Lamp {
    var l := if l.state == ON || l.state == OFF || l.state == FAULT then SendStatus(c, l) else l;
    ScheduleHeartbeat(c, l, now)
  }

  function OnRegisterTimer(l: Lamp, now: nat): Lamp {
    if l.state == REGISTERING then ScheduleReconnect(SwitchTo(l, UNREGISTERED), now) else l
  }

  function OnReset(l: Lamp, now: nat): Lamp {
    if l.state == FAULT then ScheduleReconnect(SwitchTo(SwitchTo(l, IDLE), UNREGISTERED), now) else l
  }

  function Step(c: Config, l: Lamp, now: nat, e: Event): Lamp {
    match e
    case SocketError => ScheduleReconnect(l, now)
    case HandshakeDone => SendRegister(c, l.(link := Connected, q := l.q.(sent := [], written := [])), now)
    case ReconnectTimer => l.(link := Connecting, reconnectTimer := None)
    case RegisterTimer => OnRegisterTimer(l, now)
    case HeartbeatTimer => OnHeartbeat(c, l, now)
    case ResetTimer => OnReset(l, now)
    case RunPosted => l.(q := WriteQueue.RunPosted(l.q))
    case Written => OnWritten(c, l)
    case Message(body, roll) => OnMessage(c, l, now, body, roll)
  }

  /**
   When a handler can run. Completions of a closed socket and lambdas still posted for it run before the reconnect
   timer, two seconds later, fires. The register and heartbeat timers may fire at any time, which covers a wait whose
   handler was already queued when the timer was cancelled.
   */
  predicate Enabled(l: Lamp, e: Event) {
    match e
    case SocketError => true
    case HandshakeDone => l.link == Connecting
    case ReconnectTimer => l.link == Waiting && l.q.posted == [] && !l.q.writing
    case RegisterTimer => true
    case HeartbeatTimer => true
    case ResetTimer => true
    case RunPosted => l.q.posted != []
    case Written => l.link == Connected && l.q.inFlight.Some?
    case Message(_, _) => l.link != Connecting
  }

  // The state after start(): boot_done, then do_connect
  function Boot(): Lamp {
    Lamp(UNREGISTERED, 0, Connecting, EMPTY, false, FaultReport([], 0, 0, []), None, None, None)
  }
}
