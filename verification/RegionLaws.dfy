/** What every run of a regional server keeps. */
module RegionLaws {
  import opened Basics
  import opened Codec
  import opened Proto
  import opened Framing
  import opened WriteQueue
  import opened DeviceRegistry
  import opened RegionSpec
  import ProtoLaws

  // ----- commands touch nothing but write queues and dangling session entries

  ghost predicate OnlyQueues(a: Region, b: Region) {
    && b == a.(live := b.live, sessions := b.sessions)
    && b.live.Keys == a.live.Keys
    && (forall sid <- a.live :: b.live[sid] == a.live[sid].(q := b.live[sid].q))
    && (forall u <- b.sessions :: u in a.sessions && b.sessions[u] == a.sessions[u])
    && (forall u <- a.sessions :: a.sessions[u] in a.live ==> u in b.sessions)
  }

  lemma SendCmdOnlyQueues(r: Region, uri: Str, cmd: u8, value: u8)
    ensures OnlyQueues(r, SendCmd(r, uri, cmd, value))
  {}

  lemma OnlyQueuesTransitive(a: Region, b: Region, c: Region)
    requires OnlyQueues(a, b) && OnlyQueues(b, c)
    ensures OnlyQueues(a, c)
  {}

  lemma {:induction false} SendAllOnlyQueues(r: Region, lamps: seq<Str>)
    ensures OnlyQueues(r, SendAllOn(r, lamps)) && OnlyQueues(r, SendAllOff(r, lamps))
  {
    if lamps != [] {
      var init, u := lamps[..|lamps| - 1], lamps[|lamps| - 1];
      SendAllOnlyQueues(r, init);
      var a, b := SendAllOn(r, init), SendAllOff(r, init);
      SendCmdOnlyQueues(a, u, CMD_SWITCH_ON, 0);
      var a1 := SendCmd(a, u, CMD_SWITCH_ON, 0);
      SendCmdOnlyQueues(a1, u, CMD_SET_INTENSITY, 60);
      SendCmdOnlyQueues(b, u, CMD_SWITCH_OFF, 0);
      hide OnlyQueues, SendCmd;
      OnlyQueuesTransitive(r, a, a1);
      OnlyQueuesTransitive(r, a1, SendCmd(a1, u, CMD_SET_INTENSITY, 60));
      OnlyQueuesTransitive(r, b, SendCmd(b, u, CMD_SWITCH_OFF, 0));
    }
  }

  // The log entries Edges adds
  function EdgeLog(r: Region, uri: Str, zone: u32, motion: u8): seq<LogEntry> {
    if LastMotion(r, uri) == 0 && motion == 1 then [MotionOn(uri, zone)]
    else if LastMotion(r, uri) == 1 && motion == 0 then [MotionOff(uri, zone)] else []
  }

  lemma MotionOnlyQueues(r: Region, zone: u32)
    ensures OnlyQueues(r, OnMotion(r, zone)) && OnlyQueues(r, OffMotion(r, zone))
  {
    hide SendAllOn, SendAllOff, LampsOfZone;
    SendAllOnlyQueues(r, LampsOfZone(r.reg, zone));
  }

  lemma OnlyQueuesWith(a: Region, b: Region, last: map<Str, u8>)
    requires OnlyQueues(a, b)
    ensures OnlyQueues(a.(lastMotion := last), b.(lastMotion := last))
  {}

  lemma EdgesEffect(r: Region, uri: Str, zone: u32, motion: u8)
    ensures OnlyQueues(r.(log := r.log + EdgeLog(r, uri, zone, motion), lastMotion := r.lastMotion[uri := motion]),
                       Edges(r, uri, zone, motion))
  {
    var last := r.lastMotion[uri := motion];
    if LastMotion(r, uri) == 0 && motion == 1 {
      var on := r.(log := r.log + [MotionOn(uri, zone)]);
      MotionOnlyQueues(on, zone);
      hide OnMotion, OffMotion, LastMotion;
      OnlyQueuesWith(on, OnMotion(on, zone), last);
      assert OnMotion(on, zone).lastMotion == r.lastMotion;
    } else if LastMotion(r, uri) == 1 && motion == 0 {
      var off := r.(log := r.log + [MotionOff(uri, zone)]);
      MotionOnlyQueues(off, zone);
      hide OnMotion, OffMotion, LastMotion;
      OnlyQueuesWith(off, OffMotion(off, zone), last);
      assert OffMotion(off, zone).lastMotion == r.lastMotion;
    } else {
      assert r.log + [] == r.log;
      hide OnMotion, OffMotion, LastMotion;
    }
  }

  // ----- the server's state machine

  predicate FsmInv(r: Region) {
    && r.fsm in {NORMAL_OPERATION, FAULT_HANDLING}
    && (r.activeLost != {} ==> r.fsm == FAULT_HANDLING)
  }

  lemma Transitions()
    ensures SwitchTo(NORMAL_OPERATION, FAULT_HANDLING) == FAULT_HANDLING
    ensures SwitchTo(FAULT_HANDLING, FAULT_HANDLING) == FAULT_HANDLING
    ensures SwitchTo(FAULT_HANDLING, NORMAL_OPERATION) == NORMAL_OPERATION
    ensures (FAULT_HANDLING, FAULT_HANDLING) !in TRANSITIONS
  {}

  lemma {:induction false} RaiseAllEffect(r: Region, lost: seq<Str>)
    requires FsmInv(r)
    ensures var b := RaiseAll(r, lost);
            && FsmInv(b) && b == r.(activeLost := b.activeLost, fsm := b.fsm, log := b.log)
            && b.activeLost == r.activeLost + (set u | u in lost)
  {
    Transitions();
    hide SwitchTo;
    if lost != [] {
      var init, u := lost[..|lost| - 1], lost[|lost| - 1];
      RaiseAllEffect(r, init);
      assert lost == init + [u];
      var a := RaiseAll(r, init);
      assert RaiseLost(a, u).activeLost == a.activeLost + {u};
    }
  }

  /** After a tick activeLost is the set the tick returned, and the server handles a fault exactly when it is not
      empty, although FAULT_HANDLING to FAULT_HANDLING is a refused transition. */
  lemma TickSettles(r: Region, timeoutMs: u64, lost: seq<Str>)
    requires FsmInv(r)
    ensures var b := OnTick(r, timeoutMs, lost);
            && FsmInv(b)
            && b.activeLost == (set u | u in lost)
            && (b.fsm == FAULT_HANDLING <==> lost != [])
  {
    Transitions();
    hide SwitchTo, RaiseAll, MarkLost;
    var a := r.(reg := MarkLost(r.reg, r.now, timeoutMs));
    RaiseAllEffect(a, lost);
    var nowLost := set u | u in lost;
    assert RaiseAll(a, lost).activeLost * nowLost == nowLost;
    assert lost != [] <==> nowLost != {} by {
      if lost != [] {
        assert lost[0] in nowLost;
      }
    }
  }

  lemma FsmStep(r: Region, timeoutMs: u64, i: Input)
    requires FsmInv(r)
    ensures FsmInv(Step(r, timeoutMs, i))
  {
    Transitions();
    hide SwitchTo, OnTick, Edges, Upserted, LampRegistered, DecodeRegisterReq, DecodeStatus, DecodeFault, DoWrite;
    match i
    case Tick(order) => TickSettles(r, timeoutMs, order);
    case Telemetry(uri, zone, motion) => EdgesEffect(SeenSensor(r, uri, zone), uri, zone, motion);
    case _ =>
  }

  // ----- time and known devices

  ghost predicate SeenInv(r: Region) {
    && (forall u <- r.reg.dev :: r.reg.dev[u].lastSeenMs <= r.now)
    && (forall sid <- r.live :: (r.live[sid].registered <==> r.live[sid].uri != [])
                                && ShortStr(r.live[sid].uri)
                                && (r.live[sid].registered ==> r.live[sid].uri in r.reg.dev))
  }

  lemma ShortFromWire(body: seq<u8>)
    ensures DecodeRegisterReq(body).Ok? ==> ShortStr(DecodeRegisterReq(body).value.uri)
  {
    if DecodeRegisterReq(body).Ok? {
      ProtoLaws.RegisterReqExact(body, DecodeRegisterReq(body).value);
    }
  }

  // Every record was written no later than now, and no device is forgotten
  ghost predicate Records(a: View, b: View, now: u64) {
    && (forall u <- a.dev :: u in b.dev)
    && (forall u <- b.dev :: b.dev[u].lastSeenMs <= now)
  }

  lemma MessageRecords(r: Region, sid: nat, body: seq<u8>, unixTime: u32)
    requires SeenInv(r) && sid in r.live
    ensures SeenInv(OnMessage(r, sid, body, unixTime))
    ensures Records(r.reg, OnMessage(r, sid, body, unixTime).reg, r.now)
  {
    hide HandleRegister, HandleStatus, HandleFault, DecodeRegisterReq, DecodeStatus, DecodeFault;
    if body != [] {
      ShortFromWire(body[1..]);
      if body[0] == REGISTER_REQ && DecodeRegisterReq(body[1..]).Ok? {
        RegisterRecords(r, sid, DecodeRegisterReq(body[1..]).value, unixTime);
      } else if body[0] == STATUS_REPORT && DecodeStatus(body[1..]).Ok? {
        StatusRecords(r, sid, DecodeStatus(body[1..]).value);
      } else if body[0] == FAULT_REPORT && DecodeFault(body[1..]).Ok? {
        FaultRecords(r, sid, DecodeFault(body[1..]).value);
      }
    }
  }

  lemma RegisterRecords(r: Region, sid: nat, req: RegisterReq, unixTime: u32)
    requires SeenInv(r) && sid in r.live && ShortStr(req.uri)
    ensures var b := HandleRegister(r, sid, req, unixTime); SeenInv(b) && Records(r.reg, b.reg, r.now)
  {
    hide Send, U32Bytes, Indexed;
  }

  lemma StatusRecords(r: Region, sid: nat, s: StatusReport)
    requires SeenInv(r) && sid in r.live
    ensures var b := HandleStatus(r, sid, s); SeenInv(b) && Records(r.reg, b.reg, r.now)
  {
    hide Indexed;
  }

  lemma FaultRecords(r: Region, sid: nat, f: FaultReport)
    requires SeenInv(r) && sid in r.live
    ensures var b := HandleFault(r, sid, f); SeenInv(b) && Records(r.reg, b.reg, r.now)
  {
    hide Send, SwitchTo, Indexed;
  }

  lemma SeenStep(r: Region, timeoutMs: u64, i: Input)
    requires SeenInv(r)
    ensures SeenInv(Step(r, timeoutMs, i))
    ensures forall u <- r.reg.dev :: u in Step(r, timeoutMs, i).reg.dev
  {
    match i
    case Tick(order) =>
      hide SeenInv, OnTick;
      TickRecords(r, timeoutMs, order);
    case Telemetry(uri, zone, motion) =>
      hide SeenInv, OnTelemetry;
      TelemetryRecords(r, uri, zone, motion);
    case Receive(sid, body, unixTime) =>
      hide SeenInv, OnMessage;
      if sid in r.live {
        MessageRecords(r, sid, body, unixTime);
      }
    case _ =>
      hide SeenInv;
      PlainRecords(r, timeoutMs, i);
  }

  lemma PlainRecords(r: Region, timeoutMs: u64, i: Input)
    requires SeenInv(r) && !i.Tick? && !i.Telemetry? && !i.Receive?
    ensures SeenInv(Step(r, timeoutMs, i)) && Step(r, timeoutMs, i).reg == r.reg
  {
    hide DoWrite, Completed, RunPosted;
  }

  lemma TickRecords(r: Region, timeoutMs: u64, order: seq<Str>)
    requires SeenInv(r)
    ensures SeenInv(OnTick(r, timeoutMs, order))
    ensures Records(r.reg, OnTick(r, timeoutMs, order).reg, r.now)
  {
    RaiseAllReg(r.(reg := MarkLost(r.reg, r.now, timeoutMs)), order);
    hide RaiseAll, IsLost, SwitchTo;
  }

  lemma TelemetryRecords(r: Region, uri: Str, zone: u32, motion: u8)
    requires SeenInv(r)
    ensures SeenInv(OnTelemetry(r, uri, zone, motion))
    ensures Records(r.reg, OnTelemetry(r, uri, zone, motion).reg, r.now)
  {
    hide Edges, SwitchTo, Indexed;
    EdgesEffect(SeenSensor(r, uri, zone), uri, zone, motion);
  }

  lemma {:induction false} RaiseAllReg(r: Region, lost: seq<Str>)
    ensures var b := RaiseAll(r, lost); b == r.(activeLost := b.activeLost, fsm := b.fsm, log := b.log)
  {
    if lost != [] {
      RaiseAllReg(r, lost[..|lost| - 1]);
    }
  }
}
