/** luminaire_client.cpp: the class, whose handlers change the state as the functions of LampSpec say. */
module LampClient {
  import opened Basics
  import opened Codec
  import opened Proto
  import opened Framing
  import opened WriteQueue
  import opened LampSpec
  import Spec = LampSpec

  class LuminaireClient {
    const cfg: Config
    var state: LampState
    var intensity: u8
    var link: Link
    var posted: seq<Frame>
    var outQ: seq<Frame>
    var writing: bool
    var inFlight: Option<Frame>
    var pendingFault: bool
    var pendingMsg: FaultReport
    var registerTimer: Option<nat>
    var reconnectTimer: Option<nat>
    var heartbeatTimer: Option<nat>
    ghost var sent: seq<Frame>
    ghost var written: seq<Frame>

    ghost function View(): Lamp
      reads this
    {
      Lamp(state, intensity, link, Queue(posted, outQ, writing, inFlight, sent, written), pendingFault, pendingMsg,
           registerTimer, reconnectTimer, heartbeatTimer)
    }

    constructor (cfg: Config)
      ensures this.cfg == cfg && View() == Boot()
    {
      this.cfg := cfg;
      state, intensity, link := IDLE, 0, Connecting;
      posted, outQ, writing, inFlight := [], [], false, None;
      pendingFault, pendingMsg := false, FaultReport([], 0, 0, []);
      registerTimer, reconnectTimer, heartbeatTimer := None, None, None;
      sent, written := [], [];
      new;
      var _ := SwitchToState(UNREGISTERED);
    }

    method SwitchToState(next: LampState) returns (ok: bool)
      modifies this`state
      ensures ok <==> (old(state), next) in TRANSITIONS
      ensures state == if ok then next else old(state)
      ensures View() == SwitchTo(old(View()), next)
    {
      if (state, next) !in TRANSITIONS {
        return false;
      }
      state := next;
      return true;
    }

    method QueueSend(kind: u8, payload: seq<u8>)
      modifies this`posted, this`sent
      ensures View() == Spec.QueueSend(old(View()), kind, payload)
    {
      posted := posted + [Frame(kind, payload)];
      sent := sent + [Frame(kind, payload)];
    }

    method DoWrite()
      modifies this`outQ, this`writing, this`inFlight
      ensures View() == old(View()).(q := WriteQueue.DoWrite(old(View()).q))
    {
      if outQ == [] {
        writing, inFlight := false, None;
        return;
      }
      writing := true;
      inFlight := Some(outQ[0]);
      outQ := outQ[1..];
    }

    method CloseSocket()
      modifies this`link, this`inFlight
      ensures View() == old(View()).(link := Waiting, q := old(View()).q.(inFlight := None))
    {
      link, inFlight := Waiting, None;
    }

    method ScheduleReconnect(now: nat)
      modifies this
      ensures View() == Spec.ScheduleReconnect(old(View()), now)
    {
      CloseSocket();
      registerTimer := None;
      heartbeatTimer := None;
      outQ := [];
      writing := false;
      if state != UNREGISTERED {
        state := UNREGISTERED;
      }
      reconnectTimer := Some(now + 2000);
    }

    method ScheduleHeartbeat(now: nat)
      modifies this`heartbeatTimer
      ensures View() == Spec.ScheduleHeartbeat(cfg, old(View()), now)
    {
      if cfg.heartbeatS <= 0 {
        return;
      }
      heartbeatTimer := Some(now + 1000 * cfg.heartbeatS);
    }

    method SendStatus()
      modifies this`posted, this`sent
      ensures View() == Spec.SendStatus(cfg, old(View()))
    {
      var on: u8 := if state == ON then 1 else 0;
      var brightness: int := intensity;
      var power: u32 := if on != 0 then 70000 + 800 * brightness else 0;
      QueueSend(STATUS_REPORT, StatusBytes(StatusReport(cfg.uri, cfg.zone, on, intensity, power)));
    }

    method RequestFault()
      modifies this`posted, this`sent, this`pendingFault, this`pendingMsg
      ensures View() == Spec.RequestFault(cfg, old(View()))
    {
      var f := FaultReport(cfg.uri, cfg.zone, 1, FAULT_TEXT);
      if writing || outQ != [] {
        pendingFault := true;
        pendingMsg := f;
      } else {
        QueueSend(FAULT_REPORT, FaultBytes(f));
      }
    }

    method MaybeSimulateFault(roll: nat)
      modifies this
      ensures View() == Spec.MaybeSimulateFault(cfg, old(View()), roll)
    {
      if cfg.faultPerMille <= 0 {
        return;
      }
      if state != ON && state != OFF {
        return;
      }
      if roll < cfg.faultPerMille {
        var ok := SwitchToState(FAULT);
        if ok {
          RequestFault();
        }
      }
    }

    method SendRegister(now: nat)
      modifies this`state, this`posted, this`sent, this`registerTimer
      ensures View() == Spec.SendRegister(cfg, old(View()), now)
    {
      hide RegisterReqBytes;
      if state != UNREGISTERED && state != REGISTERING {
        state := UNREGISTERED;
      }
      var ok := SwitchToState(REGISTERING);
      if !ok {
        return;
      }
      QueueSend(REGISTER_REQ, RegisterReqBytes(RegisterReq(LUMINAIRE, cfg.uri, cfg.zone)));
      registerTimer := Some(now + 5000);
    }

    method HandshakeDone(now: nat)
      modifies this
      ensures View() == Step(cfg, old(View()), now, Event.HandshakeDone)
    {
      hide Spec.SendRegister;
      link, sent, written := Connected, [], [];
      SendRegister(now);
    }

    method RegisterTimeout(now: nat)
      modifies this
      ensures View() == Step(cfg, old(View()), now, RegisterTimer)
    {
      if state == REGISTERING {
        var _ := SwitchToState(UNREGISTERED);
        ScheduleReconnect(now);
      }
    }

    method Heartbeat(now: nat)
      modifies this
      ensures View() == Step(cfg, old(View()), now, HeartbeatTimer)
    {
      if state == ON || state == OFF || state == FAULT {
        SendStatus();
      }
      ScheduleHeartbeat(now);
    }

    method ManualReset(now: nat)
      modifies this
      ensures View() == Step(cfg, old(View()), now, ResetTimer)
    {
      if state == FAULT {
        var ok := SwitchToState(IDLE);
        if ok {
          var _ := SwitchToState(UNREGISTERED);
          ScheduleReconnect(now);
        }
      }
    }

    // The lambda posted by queue_send
    method RunPosted(now: nat)
      requires posted != []
      modifies this
      ensures View() == Step(cfg, old(View()), now, Event.RunPosted)
    {
      outQ := outQ + [posted[0]];
      posted := posted[1..];
      if !writing {
        DoWrite();
      }
    }

    // The completion handler of async_write_frame
    method WriteCompleted(now: nat, failed: bool)
      requires inFlight.Some?
      modifies this
      ensures View() == Step(cfg, old(View()), now, if failed then SocketError else Event.Written)
    {
      if failed {
        ScheduleReconnect(now);
        return;
      }
      written := written + [inFlight.value];
      if pendingFault {
        pendingFault := false;
        QueueSend(FAULT_REPORT, FaultBytes(pendingMsg));
      }
      DoWrite();
    }

    method OnMessage(now: nat, body: seq<u8>, roll: nat)
      modifies this
      ensures View() == Step(cfg, old(View()), now, Message(body, roll))
    {
      if body == [] {
        return;
      }
      var t := body[0];
      if t == REGISTER_ACK {
        registerTimer := None;
        var ok := SwitchToState(OFF);
        if ok {
          intensity := 0;
          SendStatus();
          ScheduleHeartbeat(now);
        }
        return;
      }
      if t == REGISTER_NACK {
        registerTimer := None;
        var _ := SwitchToState(UNREGISTERED);
        ScheduleReconnect(now);
        return;
      }
      if t == CMD {
        var decoded := DecodeCommand(body[1..]);
        if decoded.Ok? {
          OnCommand(decoded.value, roll);
        }
      }
    }

    method OnCommand(cmd: Command, roll: nat)
      modifies this
      ensures View() == Spec.OnCommand(cfg, old(View()), cmd, roll)
    {
      if cmd.cmd == 1 {
        if state == OFF {
          var ok := SwitchToState(ON);
          if ok {
            intensity := if intensity < 30 then 30 else intensity;
            SendStatus();
            MaybeSimulateFault(roll);
          }
        }
      } else if cmd.cmd == 2 {
        if state == ON {
          var ok := SwitchToState(OFF);
          if ok {
            intensity := 0;
            SendStatus();
          }
        }
      } else if cmd.cmd == 3 {
        intensity := cmd.value;
        if intensity == 0 && state == ON {
          var _ := SwitchToState(OFF);
        } else if intensity > 0 && state == OFF {
          var _ := SwitchToState(ON);
        }
        if state == ON || state == OFF {
          SendStatus();
          MaybeSimulateFault(roll);
        }
      }
    }
  }
}
