/** sensor_udp.cpp: the sensor's state machine and the body of its one-second tick, as functions on states. */
module SensorSpec {
  import opened Basics

  datatype SensorState = IDLE | UNREGISTERED | REGISTERING | ACTIVE | FAULT

  const TRANSITIONS: set<(SensorState, SensorState)> := {
    (IDLE, UNREGISTERED), (UNREGISTERED, REGISTERING), (REGISTERING, ACTIVE), (REGISTERING, UNREGISTERED),
    (ACTIVE, ACTIVE), (ACTIVE, FAULT), (FAULT, IDLE)}

  // The program's arguments
  datatype Arguments = Arguments(luxThreshold: u16, tempThreshold: int, heartbeatS: int, faultPerMille: u32,
                                 faultResetS: int)

  datatype Reading = Reading(lux: u16, motion: u8, temp: int)

  // A telemetry packet; at is the tick that sent it
  datatype Packet = Packet(at: nat, reading: Reading)

  const FAULT_MARKER := Reading(0, 254, 0)

  datatype Sensor = Sensor(
    state: SensorState, prev: Reading, seconds: nat, lastHeartbeat: int,
    ackArmed: bool, resetArmed: bool,   // the timer of the demo acknowledgement, the fault reset timer
    sent: seq<Packet>)                  // history

  // What the program measures in its tick number seconds
  function Simulated(seconds: nat): Reading {
    Reading(180 + seconds % 60, if seconds % 7 == 0 then 1 else 0, 235 + seconds / 20 % 6)
  }

  function SwitchTo(s: SensorState, next: SensorState): SensorState {
    if (s, next) in TRANSITIONS then next else s
  }

  function Abs(x: int): nat { if x < 0 then -x else x }

  predicate Rise(s: Sensor, x: Reading) { s.prev.motion == 0 && x.motion == 1 }

  predicate Fall(s: Sensor, x: Reading) { s.prev.motion == 1 && x.motion == 0 }

  predicate HeartbeatDue(a: Arguments, s: Sensor) {
    a.heartbeatS > 0 && s.seconds - s.lastHeartbeat >= a.heartbeatS
  }

  predicate Reports(a: Arguments, s: Sensor, x: Reading) {
    || Rise(s, x) || Fall(s, x)
    || Abs(x.lux - s.prev.lux) >= a.luxThreshold || Abs(x.temp - s.prev.temp) >= a.tempThreshold
    || HeartbeatDue(a, s)
  }

  function ArmFaultReset(a: Arguments, s: Sensor): Sensor {
    if a.faultResetS > 0 then s.(resetArmed := true) else s
  }

  // roll is what urand(1,1000) would return
  function MaybeFault(a: Arguments, s: Sensor, roll: nat): Sensor {
    if s.state == ACTIVE && a.faultPerMille > 0 && roll <= a.faultPerMille then
      ArmFaultReset(a, s.(state := SwitchTo(s.state, FAULT), sent := s.sent + [Packet(s.seconds, FAULT_MARKER)]))
    else s
  }

  function OnTick(a: Arguments, s: Sensor, x: Reading, roll: nat): Sensor {
    var t := MaybeFault(a, s, roll);
    var t := if t.state == ACTIVE && Reports(a, s, x)
             then t.(sent := t.sent + [Packet(s.seconds, x)],
                     lastHeartbeat := if HeartbeatDue(a, s) then s.seconds else s.lastHeartbeat)
             else t;
    t.(prev := x, seconds := s.seconds + 1)
  }

  function OnAck(s: Sensor): Sensor {
    var s := s.(ackArmed := false);
    if s.state == REGISTERING then s.(state := SwitchTo(s.state, ACTIVE)) else s
  }

  function OnReset(s: Sensor): Sensor {
    var s := s.(resetArmed := false);
    if s.state == FAULT
    then s.(state := SwitchTo(SwitchTo(SwitchTo(SwitchTo(s.state, IDLE), UNREGISTERED), REGISTERING), ACTIVE))
    else s
  }

  // Any readings and rolls, which covers those of the program
  datatype Event = Tick(x: Reading, roll: nat) | AckTimer | ResetTimer

  predicate Enabled(s: Sensor, e: Event) {
    match e
    case Tick(x, _) => x.motion <= 1
    case AckTimer => s.ackArmed
    case ResetTimer => s.resetArmed
  }

  function Step(a: Arguments, s: Sensor, e: Event): Sensor {
    match e
    case Tick(x, roll) => OnTick(a, s, x, roll)
    case AckTimer => OnAck(s)
    case ResetTimer => OnReset(s)
  }

  function Boot(): Sensor {
    Sensor(SwitchTo(SwitchTo(IDLE, UNREGISTERED), REGISTERING), Reading(200, 0, 235), 0, -999999, true, false, [])
  }
}

/** sensor_udp.cpp: the objects that its main function updates. */
module SensorNode {
  import opened Basics
  import opened SensorSpec

  class SensorFsm {
    var st: SensorState

    constructor ()
      ensures st == IDLE
    {
      st := IDLE;
    }

    method SwitchTo(next: SensorState) returns (ok: bool)
      modifies this
      ensures ok <==> (old(st), next) in TRANSITIONS
      ensures st == if ok then next else old(st)
      ensures st == SensorSpec.SwitchTo(old(st), next)
    {
      ok := (st, next) in TRANSITIONS;
      if ok {
        st := next;
      }
    }
  }

  class Node {
    const cfg: Arguments
    const fsm: SensorFsm
    var lux: u16
    var prevLux: u16
    var motion: u8
    var prevMotion: u8
    var temp: int
    var prevTemp: int
    var secondsElapsed: nat
    var lastHeartbeat: int
    var ackArmed: bool
    var resetArmed: bool
    var sent: seq<Packet>

    ghost function State(): Sensor
      reads this, fsm
    {
      Sensor(fsm.st, Reading(prevLux, prevMotion, prevTemp), secondsElapsed, lastHeartbeat, ackArmed, resetArmed, sent)
    }

    constructor (cfg: Arguments)
      ensures fresh(fsm) && this.cfg == cfg && State() == Boot()
    {
      this.cfg := cfg;
      fsm := new SensorFsm();
      lux, prevLux, motion, prevMotion, temp, prevTemp := 200, 200, 0, 0, 235, 235;
      secondsElapsed, lastHeartbeat := 0, -999999;
      ackArmed, resetArmed, sent := false, false, [];
      new;
      var _ := fsm.SwitchTo(UNREGISTERED);
      var registering := fsm.SwitchTo(REGISTERING);
      if registering {
        ackArmed := true;
      }
    }

    method SendTelemetry(x: Reading)
      modifies this`sent
      ensures sent == old(sent) + [Packet(secondsElapsed, x)]
    {
      sent := sent + [Packet(secondsElapsed, x)];
    }

    method ArmFaultReset()
      modifies this`resetArmed
      ensures State() == SensorSpec.ArmFaultReset(cfg, old(State()))
    {
      if cfg.faultResetS > 0 {
        resetArmed := true;
      }
    }

    method AckTimerFires()
      modifies this`ackArmed, fsm
      ensures State() == OnAck(old(State()))
    {
      ackArmed := false;
      if fsm.st == REGISTERING {
        var _ := fsm.SwitchTo(ACTIVE);
      }
    }

    method FaultResetFires()
      modifies this`resetArmed, fsm
      ensures State() == OnReset(old(State()))
    {
      resetArmed := false;
      if fsm.st == FAULT {
        var _ := fsm.SwitchTo(IDLE);
        var _ := fsm.SwitchTo(UNREGISTERED);
        var _ := fsm.SwitchTo(REGISTERING);
        var _ := fsm.SwitchTo(ACTIVE);
      }
    }

    // The simulated measurement
    method Measure()
      modifies this`lux, this`motion, this`temp
      ensures Reading(lux, motion, temp) == Simulated(secondsElapsed)
    {
      lux := 180 + secondsElapsed % 60;
      motion := if secondsElapsed % 7 == 0 then 1 else 0;
      temp := 235 + secondsElapsed / 20 % 6;
    }

    method SimulateFault(roll: nat)
      modifies this`sent, this`resetArmed, fsm
      ensures State() == MaybeFault(cfg, old(State()), roll)
    {
      if fsm.st == ACTIVE && cfg.faultPerMille > 0 && roll <= cfg.faultPerMille {
        var failed := fsm.SwitchTo(FAULT);
        if failed {
          SendTelemetry(FAULT_MARKER);
          ArmFaultReset();
        }
      }
    }

    method DetectEvents() returns (event: bool, heartbeatDue: bool)
      ensures event == Reports(cfg, State(), Reading(lux, motion, temp)) && heartbeatDue == HeartbeatDue(cfg, State())
    {
      var rise := prevMotion == 0 && motion == 1;
      var fall := prevMotion == 1 && motion == 0;
      var luxChanged := Abs(lux - prevLux) >= cfg.luxThreshold;
      var tempChanged := Abs(temp - prevTemp) >= cfg.tempThreshold;
      heartbeatDue := cfg.heartbeatS > 0 && secondsElapsed - lastHeartbeat >= cfg.heartbeatS;
      event := rise || fall || luxChanged || tempChanged || heartbeatDue;
    }

    method TickFires(roll: nat)
      modifies this, fsm
      ensures State() == OnTick(cfg, old(State()), Simulated(old(secondsElapsed)), roll)
    {
      hide Simulated, Reports, HeartbeatDue, MaybeFault;
      Measure();
      var event, heartbeatDue := DetectEvents();
      SimulateFault(roll);
      if fsm.st == ACTIVE && event {
        var _ := fsm.SwitchTo(ACTIVE);
        SendTelemetry(Reading(lux, motion, temp));
        if heartbeatDue {
          lastHeartbeat := secondsElapsed;
        }
      }
      prevMotion, prevLux, prevTemp := motion, lux, temp;
      secondsElapsed := secondsElapsed + 1;
    }
  }
}
