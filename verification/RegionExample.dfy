/** Runs of a regional server in which it does less than one would expect. */
module RegionExample {
  import opened Basics
  import opened Codec
  import opened Proto
  import opened Framing
  import opened WriteQueue
  import opened DeviceRegistry
  import opened RegionSpec
  import opened RegionLaws
  import opened RegionRuns
  import LinkLaws
  import ProtoLaws
  import CentralStore
  import SyncNet

  // A region that knows one device
  ghost predicate Knows(r: Region, u: Str, seen: u64, fault: bool) {
    r.reg.dev.Keys == {u} && r.reg.dev[u].lastSeenMs == seen && r.reg.dev[u].fault == fault
  }

  lemma Runs(start: u64, timeoutMs: u64, run: seq<Input>, i: Input)
    requires Possible(start, timeoutMs, run) && Enabled(After(start, timeoutMs, run), timeoutMs, i)
    ensures Possible(start, timeoutMs, run + [i])
    ensures After(start, timeoutMs, run + [i]) == Step(After(start, timeoutMs, run), timeoutMs, i)
  {
    LinkLaws.RegionRunOn(start, timeoutMs, run, i);
  }

  lemma Booted(start: u64, timeoutMs: u64)
    ensures Possible(start, timeoutMs, []) && After(start, timeoutMs, []) == Boot(start)
    ensures Boot(start).fsm == NORMAL_OPERATION && Boot(start).reg.dev == map[] && Boot(start).log == []
    ensures Boot(start).now == start && Boot(start).activeLost == {} && Boot(start).lastMotion == map[]
    ensures Boot(start).live == map[] && Boot(start).born == 0
  {}

  lemma Heard(r: Region, timeoutMs: u64, u: Str, zone: u32)
    requires r.reg.dev == map[] && LastMotion(r, u) == 0
    ensures var b := Step(r, timeoutMs, Telemetry(u, zone, 0));
            && Knows(b, u, r.now, false) && b.now == r.now && b.fsm == r.fsm && b.activeLost == r.activeLost
            && b.log == r.log
    ensures Enabled(r, timeoutMs, Telemetry(u, zone, 0))
  {
    EdgesEffect(SeenSensor(r, u, zone), u, zone, 0);
    hide Edges;
  }

  lemma Waits(r: Region, timeoutMs: u64, ms: nat)
    requires r.now + ms < 0x1_0000_0000_0000_0000
    ensures Step(r, timeoutMs, Elapse(ms)) == r.(now := r.now + ms) && Enabled(r, timeoutMs, Elapse(ms))
  {}

  // The tick of a region that knows one device
  lemma TickOne(r: Region, timeoutMs: u64, u: Str, seen: u64, fault: bool)
    requires Knows(r, u, seen, fault) && 0 < seen <= r.now && FsmInv(r)
    ensures var lost := !fault && r.now - seen > timeoutMs;
            var order: seq<Str> := if lost then [u] else [];
            var b := Step(r, timeoutMs, Tick(order));
            && Enabled(r, timeoutMs, Tick(order)) && Knows(b, u, seen, fault || lost) && b.now == r.now
            && b.fsm == (if lost then FAULT_HANDLING else NORMAL_OPERATION)
            && b.activeLost == (if lost then {u} else {}) && b.live == r.live
            && AlarmCount(b.log, u) == AlarmCount(r.log, u) + if lost && u !in r.activeLost then 1 else 0
  {
    var lost := !fault && r.now - seen > timeoutMs;
    var order: seq<Str> := if lost then [u] else [];
    hide *;
    LostOne(r, timeoutMs, u, seen, fault);
    KnowsOne(r, u, seen, fault);
    TickLogs(r, timeoutMs, order);
    TickSettles(r, timeoutMs, order);
    TickFrame(r, timeoutMs, order);
    TwoStates(OnTick(r, timeoutMs, order));
    KnowsSame(r.(reg := MarkLost(r.reg, r.now, timeoutMs)), OnTick(r, timeoutMs, order), u, seen, fault || lost);
    LogsOne(r, order, u);
    if lost {
      assert (set v | v in order) == {u};
    } else {
      assert (set v | v in order) == {};
    }
  }

  lemma TwoStates(r: Region)
    requires FsmInv(r)
    ensures r.fsm == NORMAL_OPERATION || r.fsm == FAULT_HANDLING
  {}

  lemma TickFrame(r: Region, timeoutMs: u64, order: seq<Str>)
    requires Lists(order, LostSet(r.reg.dev, r.now, timeoutMs))
    ensures Enabled(r, timeoutMs, Tick(order)) && Step(r, timeoutMs, Tick(order)) == OnTick(r, timeoutMs, order)
    ensures OnTick(r, timeoutMs, order).live == r.live && OnTick(r, timeoutMs, order).now == r.now
  {
    RaiseAllReg(r.(reg := MarkLost(r.reg, r.now, timeoutMs)), order);
    hide RaiseAll, MarkLost, LostSet, Lists;
  }

  lemma KnowsSame(a: Region, b: Region, u: Str, seen: u64, fault: bool)
    requires Knows(a, u, seen, fault) && b.reg == a.reg
    ensures Knows(b, u, seen, fault)
  {}

  lemma LostOne(r: Region, timeoutMs: u64, u: Str, seen: u64, fault: bool)
    requires Knows(r, u, seen, fault) && 0 < seen <= r.now
    ensures var lost := !fault && r.now - seen > timeoutMs;
            && Lists(if lost then [u] else [], LostSet(r.reg.dev, r.now, timeoutMs))
            && Knows(r.(reg := MarkLost(r.reg, r.now, timeoutMs)), u, seen, fault || lost)
  {
    NoWrap(r.now, seen);
    hide SubU64;
    var order: seq<Str> := if !fault && r.now - seen > timeoutMs then [u] else [];
    assert forall v :: v in Elems(order) <==> v in LostSet(r.reg.dev, r.now, timeoutMs);
  }

  lemma LogsOne(r: Region, order: seq<Str>, u: Str)
    requires u in r.reg.dev && (order == [u] || order == [])
    ensures AlarmCount(r.log + TickLog(r, order), u)
            == AlarmCount(r.log, u) + if order == [u] && u !in r.activeLost then 1 else 0
  {
    assert order[..0] == [];
    if order == [u] && u !in r.activeLost {
      assert TickLog(r, order) == [] + [LostAlarm(r, u)];
      assert (r.log + [LostAlarm(r, u)])[..|r.log|] == r.log;
    } else {
      assert TickLog(r, order) == [] && r.log + [] == r.log;
    }
  }

  /** A tick can take the server back to NORMAL_OPERATION while a device it has reported lost is still silent: a sensor
      reports once, the timeout passes, one tick reports the loss, and the next one forgets it. */
  lemma SilentButNormal(u: Str, zone: u32)
    ensures var early := [Telemetry(u, zone, 0)] + [Elapse(25000)] + [Tick([u])];
            var run := early + [Elapse(5000)] + [Tick([])];
            var r := After(1, 20000, run);
            && Possible(1, 20000, run) && After(1, 20000, early).fsm == FAULT_HANDLING
            && r.fsm == NORMAL_OPERATION && u in r.reg.dev && r.now - r.reg.dev[u].lastSeenMs > 20000
  {
    var i0, i1, i2, i3, i4 := Telemetry(u, zone, 0), Elapse(25000), Tick([u]), Elapse(5000), Tick([]);
    var r0 := Boot(1);
    Booted(1, 20000);
    Heard(r0, 20000, u, zone);
    var r1 := Step(r0, 20000, i0);
    Waits(r1, 20000, 25000);
    var r2 := r1.(now := r1.now + 25000);
    TickOne(r2, 20000, u, 1, false);
    var r3 := Step(r2, 20000, i2);
    Waits(r3, 20000, 5000);
    var r4 := r3.(now := r3.now + 5000);
    TickOne(r4, 20000, u, 1, true);
    hide Step, Enabled, Possible, After, Boot;
    Runs(1, 20000, [], i0);
    assert [] + [i0] == [i0];
    Runs(1, 20000, [i0], i1);
    Runs(1, 20000, [i0] + [i1], i2);
    Runs(1, 20000, [i0] + [i1] + [i2], i3);
    Runs(1, 20000, [i0] + [i1] + [i2] + [i3], i4);
  }

  /** So can it right after a device has reported a fault. */
  lemma FaultForgotten(u: Str, zone: u32)
    ensures var run := [Telemetry(u, zone, 254)] + [Tick([])];
            && Possible(1, 20000, run) && After(1, 20000, [Telemetry(u, zone, 254)]).fsm == FAULT_HANDLING
            && After(1, 20000, run).fsm == NORMAL_OPERATION && Knows(After(1, 20000, run), u, 1, true)
  {
    var i0, i1, r0 := Telemetry(u, zone, 254), Tick([]), Boot(1);
    Booted(1, 20000);
    Transitions();
    var r1 := Step(r0, 20000, i0);
    assert Knows(r1, u, 1, true) && r1.fsm == FAULT_HANDLING && r1.now == 1 by {
      hide SwitchTo;
    }
    TickOne(r1, 20000, u, 1, true);
    hide Step, Possible, After, Boot, SwitchTo;
    Runs(1, 20000, [], i0);
    assert [] + [i0] == [i0];
    Runs(1, 20000, [i0], i1);
  }

  // ----- a second loss without an alarm

  function Registering(u: Str, zone: u32): seq<u8> {
    Frame(REGISTER_REQ, RegisterReqBytes(RegisterReq(LUMINAIRE, u, zone))).Body()
  }

  lemma Registers(r: Region, timeoutMs: u64, sid: nat, u: Str, zone: u32)
    requires sid in r.live && r.reg.dev.Keys <= {u} && u != [] && zone != 0 && ShortStr(u)
    ensures var i := Receive(sid, Registering(u, zone), 0);
            var b := Step(r, timeoutMs, i);
            && Enabled(r, timeoutMs, i) && Knows(b, u, r.now, false) && b.now == r.now && b.fsm == r.fsm
            && b.activeLost == r.activeLost && sid in b.live
            && AlarmCount(b.log, u) == AlarmCount(r.log, u)
  {
    var req := RegisterReq(LUMINAIRE, u, zone);
    LinkLaws.BodyParts(Frame(REGISTER_REQ, RegisterReqBytes(req)));
    ProtoLaws.RegisterReqExact(RegisterReqBytes(req), req);
    hide RegisterReqBytes, DecodeRegisterReq, Frame.Body, Send, U32Bytes;
    assert OnMessage(r, sid, Registering(u, zone), 0) == HandleRegister(r, sid, req, 0);
    assert (r.log + [Registered(u, sid)])[..|r.log|] == r.log;
  }

  // Registered, silent for five seconds, lost by a tick
  lemma LosesOnce(r: Region, u: Str, zone: u32)
    requires 0 in r.live && r.reg.dev.Keys <= {u} && u != [] && zone != 0 && ShortStr(u) && FsmInv(r)
    requires 0 < r.now < 1000000
    ensures var a := Step(r, 1000, Receive(0, Registering(u, zone), 0));
            var b := Step(a, 1000, Elapse(5000));
            var c := Step(b, 1000, Tick([u]));
            && Enabled(r, 1000, Receive(0, Registering(u, zone), 0)) && Enabled(a, 1000, Elapse(5000))
            && Enabled(b, 1000, Tick([u]))
            && Knows(c, u, r.now, true) && c.now == r.now + 5000 && FsmInv(c) && c.activeLost == {u} && 0 in c.live
            && AlarmCount(c.log, u) == AlarmCount(r.log, u) + if u in r.activeLost then 0 else 1
  {
    Registers(r, 1000, 0, u, zone);
    var a := Step(r, 1000, Receive(0, Registering(u, zone), 0));
    Waits(a, 1000, 5000);
    hide Step, Enabled;
    TickOne(a.(now := a.now + 5000), 1000, u, r.now, false);
  }

  /** With a timeout shorter than the time between two ticks a device lost, registered again and lost again within one
      such time raises no second alarm. */
  lemma SecondLossIsSilent(u: Str, zone: u32)
    requires u != [] && zone != 0 && ShortStr(u)
    ensures var once := [Receive(0, Registering(u, zone), 0)] + [Elapse(5000)] + [Tick([u])];
            var run := [Accept] + once + once;
            && Possible(1, 1000, run)
            && AlarmCount(After(1, 1000, [Accept] + once).log, u) == 1 && AlarmCount(After(1, 1000, run).log, u) == 1
  {
    var i, j, k := Receive(0, Registering(u, zone), 0), Elapse(5000), Tick([u]);
    Booted(1, 1000);
    var r0 := Step(Boot(1), 1000, Accept);
    assert 0 in r0.live && FsmInv(r0) && r0.now == 1 && r0.reg.dev == map[] && r0.activeLost == {} && r0.log == [];
    assert Enabled(Boot(1), 1000, Accept);
    hide Step, Enabled, Possible, After, Boot, FsmInv, Knows, Registering;
    LosesOnce(r0, u, zone);
    var r1 := Step(Step(Step(r0, 1000, i), 1000, j), 1000, k);
    KnowsOne(r1, u, 1, true);
    LosesOnce(r1, u, zone);
    Runs(1, 1000, [], Accept);
    assert [] + [Accept] == [Accept];
    ThreeMore([Accept], i, j, k);
    var first := [Accept] + ([i] + [j] + [k]);
    ThreeMore(first, i, j, k);
  }

  lemma KnowsOne(r: Region, u: Str, seen: u64, fault: bool)
    requires Knows(r, u, seen, fault)
    ensures r.reg.dev.Keys == {u}
  {}

  lemma ThreeMore(run: seq<Input>, i: Input, j: Input, k: Input)
    requires Possible(1, 1000, run) && Enabled(After(1, 1000, run), 1000, i)
    requires var a := Step(After(1, 1000, run), 1000, i);
             Enabled(a, 1000, j) && Enabled(Step(a, 1000, j), 1000, k)
    ensures var more := run + ([i] + [j] + [k]);
            && Possible(1, 1000, more)
            && After(1, 1000, more) == Step(Step(Step(After(1, 1000, run), 1000, i), 1000, j), 1000, k)
  {
    hide Step, Enabled, Possible, After;
    Runs(1, 1000, run, i);
    Runs(1, 1000, run + [i], j);
    Runs(1, 1000, run + [i] + [j], k);
    assert run + ([i] + [j] + [k]) == run + [i] + [j] + [k];
  }

  // ----- a closed session that is still found

  lemma MapsTo(r: Region, timeoutMs: u64, sid: nat, u: Str, zone: u32)
    requires sid in r.live && u != [] && zone != 0 && ShortStr(u)
    ensures var i := Receive(sid, Registering(u, zone), 0);
            var b := Step(r, timeoutMs, i);
            && Enabled(r, timeoutMs, i) && b.sessions == r.sessions[u := sid]
            && sid in b.live && b.live[sid].uri == u && b.live[sid].closed == r.live[sid].closed
  {
    var req := RegisterReq(LUMINAIRE, u, zone);
    LinkLaws.BodyParts(Frame(REGISTER_REQ, RegisterReqBytes(req)));
    ProtoLaws.RegisterReqExact(RegisterReqBytes(req), req);
    hide RegisterReqBytes, DecodeRegisterReq, Frame.Body, Send, U32Bytes, Upserted, LampRegistered;
    assert OnMessage(r, sid, Registering(u, zone), 0) == HandleRegister(r, sid, req, 0);
  }

  lemma ClosesOne(r: Region, timeoutMs: u64, u: Str, v: Str)
    requires 0 in r.live && r.sessions == map[u := 0][v := 0] && r.live[0].uri == v && u != v && v != []
    ensures var b := Step(r, timeoutMs, Close(0));
            && Enabled(r, timeoutMs, Close(0)) && Reaches(b, u) && !Reaches(b, v) && b.live[0].closed
            && b.live[0].uri == v
  {}

  /** A session that registers a second device forgets to remove the first when it closes: the closed session is still
      found under the uri it registered first, and a command for that device would name the other one. */
  lemma RenamedSessionStaysReached(u: Str, v: Str, zone: u32)
    requires u != v && u != [] && v != [] && zone != 0 && ShortStr(u) && ShortStr(v)
    ensures var run := [Accept] + [Receive(0, Registering(u, zone), 0)] + [Receive(0, Registering(v, zone), 0)]
                       + [Close(0)];
            var b := After(1, 1000, run);
            && Possible(1, 1000, run) && Reaches(b, u) && !Reaches(b, v) && b.live[0].closed && b.live[0].uri == v
  {
    var i, j := Receive(0, Registering(u, zone), 0), Receive(0, Registering(v, zone), 0);
    Booted(1, 1000);
    var r0 := Step(Boot(1), 1000, Accept);
    assert 0 in r0.live && r0.sessions == map[] && Enabled(Boot(1), 1000, Accept);
    hide Step, Enabled, Possible, After, Boot, Reaches, Registering;
    MapsTo(r0, 1000, 0, u, zone);
    var r1 := Step(r0, 1000, i);
    MapsTo(r1, 1000, 0, v, zone);
    var r2 := Step(r1, 1000, j);
    ClosesOne(r2, 1000, u, v);
    Runs(1, 1000, [], Accept);
    assert [] + [Accept] == [Accept];
    Runs(1, 1000, [Accept], i);
    Runs(1, 1000, [Accept] + [i], j);
    Runs(1, 1000, [Accept] + [i] + [j], Close(0));
  }

  // ----- a payload the central server refuses

  function LargePayload(regionId: u32, version: u32): RegionSyncUp {
    RegionSyncUp(regionId, version, seq(50000, i requires 0 <= i < 50000 => ZonePower(i + 1, 0)),
                 seq(50000, i requires 0 <= i < 50000 => ZoneDeviceSummary(i + 1, 1, 0, 0, 0, 0)))
  }

  /** The counts allow a payload for 50000 zones, with one lamp in each, but the central server never shows it. */
  lemma LargePayloadIsRefused(st: CentralStore.Store, regionId: u32, version: u32)
    ensures ProtoLaws.Counted(LargePayload(regionId, version))
    ensures SyncNet.Receive(st, LargePayload(regionId, version)) == st
    ensures !SyncNet.Acknowledged(LargePayload(regionId, version))
  {
    SyncNet.ReceiveShowsPayload(st, LargePayload(regionId, version));
    hide SyncNet.Receive, SyncNet.Acknowledged, CentralStore.Image;
  }
}
