/** The registry of a regional server is the registry of the operations its handlers perform, in order. */
module RegionHistory {
  import opened Basics
  import opened Proto
  import opened DeviceRegistry
  import opened RegionSpec
  import RegionLaws
  import History = RegistryLaws

  function Applied(v: View, ops: seq<History.Op>): View {
    if ops == [] then v else History.Apply(Applied(v, ops[..|ops| - 1]), ops[|ops| - 1])
  }

  // The registry operations of one message
  function MessageOps(r: Region, sid: nat, body: seq<u8>): seq<History.Op>
    requires sid in r.live
  {
    var me := r.live[sid];
    var mine := (u: Str) => me.registered && me.uri != [] && u == me.uri;
    if body == [] then []
    else if body[0] == REGISTER_REQ && DecodeRegisterReq(body[1..]).Ok? then
      var req := DecodeRegisterReq(body[1..]).value;
      if req.uri == [] || req.zoneId == 0 then []
      else
        [History.UpsertOp(req.uri, DeviceState(req.kind, req.zoneId, 0, 0, 0, false, r.now))]
        + if req.kind == LUMINAIRE then [History.RegisterOp(req.uri, req.zoneId)] else []
    else if body[0] == STATUS_REPORT && DecodeStatus(body[1..]).Ok? then
      var s := DecodeStatus(body[1..]).value;
      if s.uri in r.reg.dev then
        [History.UpsertOp(s.uri, DeviceState(r.reg.dev[s.uri].kind, s.zoneId, s.on, s.intensity, s.powerMw,
                                             r.reg.dev[s.uri].fault, r.now))]
      else if mine(s.uri) then
        [History.UpsertOp(s.uri, DeviceState(me.kind, s.zoneId, s.on, s.intensity, s.powerMw, false, r.now))]
      else []
    else if body[0] == FAULT_REPORT && DecodeFault(body[1..]).Ok? then
      var f := DecodeFault(body[1..]).value;
      if f.uri in r.reg.dev then
        [History.UpsertOp(f.uri, r.reg.dev[f.uri].(zoneId := f.zoneId, fault := true, lastSeenMs := r.now))]
      else
        var kind := if mine(f.uri) then me.kind else LUMINAIRE;
        [History.UpsertOp(f.uri, DeviceState(kind, f.zoneId, 0, 0, 0, true, r.now))]
    else []
  }

  function OpsOf(r: Region, timeoutMs: u64, i: Input): seq<History.Op> {
    match i
    case Receive(sid, body, _) => if sid in r.live then MessageOps(r, sid, body) else []
    case Telemetry(uri, zone, motion) =>
      var st := if uri in r.reg.dev then r.reg.dev[uri].(kind := SENSOR, zoneId := zone, lastSeenMs := r.now)
                else DeviceState(SENSOR, zone, 0, 0, 0, false, r.now);
      [History.UpsertOp(uri, st)]
      + if motion == 254
        then [History.UpsertOp(uri, st.(fault := true)),
              History.UpsertOp(uri, DeviceState(SENSOR, zone, 0, 0, 0, true, r.now))]
        else []
    case Tick(_) => [History.DetectOp(r.now, timeoutMs)]
    case _ => []
  }

  // The operations of a whole run
  function Ops(start: u64, timeoutMs: u64, run: seq<Input>): seq<History.Op> {
    if run == [] then []
    else
      var init := run[..|run| - 1];
      Ops(start, timeoutMs, init) + OpsOf(After(start, timeoutMs, init), timeoutMs, run[|run| - 1])
  }

  lemma {:induction false} AppliedOn(before: seq<History.Op>, ops: seq<History.Op>)
    ensures History.After(before + ops) == Applied(History.After(before), ops)
  {
    if ops == [] {
      assert before + ops == before;
    } else {
      assert (before + ops)[..|before + ops| - 1] == before + ops[..|ops| - 1];
      AppliedOn(before, ops[..|ops| - 1]);
    }
  }

  lemma Few(v: View, a: History.Op, b: History.Op, c: History.Op)
    ensures Applied(v, []) == v && Applied(v, [a]) == History.Apply(v, a)
    ensures Applied(v, [a] + [b]) == History.Apply(History.Apply(v, a), b)
    ensures Applied(v, [a] + [b, c]) == History.Apply(History.Apply(History.Apply(v, a), b), c)
  {
    assert [a][..0] == [] && ([a] + [b])[..1] == [a] && ([a] + [b, c])[..2] == [a] + [b];
  }

  lemma MessageApplies(r: Region, sid: nat, body: seq<u8>, unixTime: u32)
    requires sid in r.live
    ensures OnMessage(r, sid, body, unixTime).reg == Applied(r.reg, MessageOps(r, sid, body))
  {
    hide DecodeRegisterReq, DecodeStatus, DecodeFault, SwitchTo, WriteQueue.Send, Applied, Indexed;
    var ops := MessageOps(r, sid, body);
    var none := History.DetectOp(0, 0);
    if body != [] && body[0] == REGISTER_REQ && |ops| == 2 {
      Few(r.reg, ops[0], ops[1], none);
      hide MessageOps;
      assert ops == [ops[0]] + [ops[1]];
    } else if |ops| == 0 {
      Few(r.reg, none, none, none);
      assert ops == [];
    } else {
      Few(r.reg, ops[0], none, none);
      assert ops == [ops[0]];
    }
  }

  lemma StepApplies(r: Region, timeoutMs: u64, i: Input)
    requires Enabled(r, timeoutMs, i)
    ensures Step(r, timeoutMs, i).reg == Applied(r.reg, OpsOf(r, timeoutMs, i))
  {
    hide OnMessage, MessageOps, Edges, RaiseAll, SwitchTo, Applied, Indexed;
    var ops := OpsOf(r, timeoutMs, i);
    var none := History.DetectOp(0, 0);
    Few(r.reg, none, none, none);
    match i
    case Receive(sid, body, unixTime) => MessageApplies(r, sid, body, unixTime);
    case Telemetry(uri, zone, motion) =>
      RegionLaws.EdgesEffect(SeenSensor(r, uri, zone), uri, zone, motion);
      if motion == 254 {
        Few(r.reg, ops[0], ops[1], ops[2]);
      } else {
        assert ops == [ops[0]];
        Few(r.reg, ops[0], none, none);
      }
    case Tick(order) =>
      RegionLaws.RaiseAllReg(r.(reg := MarkLost(r.reg, r.now, timeoutMs)), order);
      Few(r.reg, ops[0], none, none);
    case _ =>
  }

  /** In every run of a regional server the registry is what the operations of its handlers, in order, make of an empty
      one. */
  lemma {:induction false} RegistryFollowsHandlers(start: u64, timeoutMs: u64, run: seq<Input>)
    requires Possible(start, timeoutMs, run)
    ensures After(start, timeoutMs, run).reg == History.After(Ops(start, timeoutMs, run))
  {
    if run != [] {
      PossibleInit(start, timeoutMs, run);
      var init, i := run[..|run| - 1], run[|run| - 1];
      RegistryFollowsHandlers(start, timeoutMs, init);
      StepApplies(After(start, timeoutMs, init), timeoutMs, i);
      AppliedOn(Ops(start, timeoutMs, init), OpsOf(After(start, timeoutMs, init), timeoutMs, i));
      hide Step, OpsOf, Applied, History.After;
    }
  }

  /** So in every run each zone lists exactly the devices that some handler named a lamp of that zone, once each, in
      first-seen order; a motion event commands each of them once. */
  lemma ZoneListsInRuns(start: u64, timeoutMs: u64, run: seq<Input>, zone: u32)
    requires Possible(start, timeoutMs, run)
    ensures var lamps, ops := LampsOfZone(After(start, timeoutMs, run).reg, zone), Ops(start, timeoutMs, run);
            && NoDup(lamps)
            && (forall u :: u in lamps <==> History.Named(ops, zone, u))
            && (forall i, j :: 0 <= i < j < |lamps| ==> History.NamedBefore(ops, zone, lamps[i], lamps[j]))
  {
    RegistryFollowsHandlers(start, timeoutMs, run);
    History.ZoneIndexIsFirstSeen(Ops(start, timeoutMs, run), zone);
  }

  // The handlers register a lamp only right after storing its record
  lemma StepRegistersKnown(r: Region, timeoutMs: u64, i: Input)
    ensures var ops := OpsOf(r, timeoutMs, i);
            forall k :: 0 <= k < |ops| && ops[k].RegisterOp?
              ==> k == 1 && ops[0].UpsertOp? && History.Names(ops[0], ops[1].zone, ops[1].uri)
  {
    hide DecodeRegisterReq, DecodeStatus, DecodeFault;
  }

  lemma KnownOn(before: seq<History.Op>, ops: seq<History.Op>)
    requires History.Known(before)
    requires forall k :: 0 <= k < |ops| && ops[k].RegisterOp?
               ==> k == 1 && ops[0].UpsertOp? && History.Names(ops[0], ops[1].zone, ops[1].uri)
    ensures History.Known(before + ops)
  {
    var all := before + ops;
    hide History.Names;
    forall i | 0 <= i < |all| && all[i].RegisterOp?
      ensures exists j :: 0 <= j < i && History.Names(all[j], all[i].zone, all[i].uri) && all[j].UpsertOp?
    {
      if i < |before| {
        var j :| 0 <= j < i && History.Names(before[j], before[i].zone, before[i].uri) && before[j].UpsertOp?;
        assert all[j] == before[j];
      } else {
        assert all[i] == ops[i - |before|] && all[|before|] == ops[0];
      }
    }
  }

  lemma {:induction false} HandlersRegisterKnown(start: u64, timeoutMs: u64, run: seq<Input>)
    ensures History.Known(Ops(start, timeoutMs, run))
  {
    if run != [] {
      var init := run[..|run| - 1];
      HandlersRegisterKnown(start, timeoutMs, init);
      StepRegistersKnown(After(start, timeoutMs, init), timeoutMs, run[|run| - 1]);
      hide History.Known, OpsOf, After;
      KnownOn(Ops(start, timeoutMs, init), OpsOf(After(start, timeoutMs, init), timeoutMs, run[|run| - 1]));
    }
  }

  /** In every run in which no device changes its type or zone and all zones are non-zero, each zone's list is the scan
      of the device map for lamps of that zone. */
  lemma ZoneListsAreScans(start: u64, timeoutMs: u64, run: seq<Input>, zone: u32, u: Str)
    requires Possible(start, timeoutMs, run) && History.Stable(Ops(start, timeoutMs, run))
    ensures var reg := After(start, timeoutMs, run).reg;
            u in LampsOfZone(reg, zone) <==> u in reg.dev && reg.dev[u].kind == LUMINAIRE && reg.dev[u].zoneId == zone
  {
    RegistryFollowsHandlers(start, timeoutMs, run);
    HandlersRegisterKnown(start, timeoutMs, run);
    History.ZoneIndexAgreesWithScan(Ops(start, timeoutMs, run), zone, u);
  }
}
