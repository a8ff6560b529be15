/** The power a region reports agrees with the lamps it reports on, from the lamp to the central server. */
module PowerLaws {
  import opened Basics
  import opened Codec
  import opened Proto
  import opened ProtoLaws
  import opened Framing
  import opened DeviceRegistry
  import opened RegionSpec
  import opened RegionLaws
  import opened RegionRuns
  import LampLaws
  import Lamps = LampSpec
  import CentralStore

  // ----- every record obeys the lamp's power law

  ghost predicate Lawful(dev: map<Str, DeviceState>) {
    forall u <- dev :: LampLaws.PowerLaw(dev[u].on, dev[u].intensity, dev[u].powerMw)
  }

  // A status report, if the body is one, obeys the law
  predicate LawfulBody(body: seq<u8>) {
    body != [] && body[0] == STATUS_REPORT && DecodeStatus(body[1..]).Ok? ==>
      var s := DecodeStatus(body[1..]).value; LampLaws.PowerLaw(s.on, s.intensity, s.powerMw)
  }

  ghost predicate FromLamps(run: seq<Input>) {
    forall i <- run :: i.Receive? ==> LawfulBody(i.body)
  }

  lemma LawfulMessage(r: Region, sid: nat, body: seq<u8>, unixTime: u32)
    requires sid in r.live && Lawful(r.reg.dev) && LawfulBody(body)
    ensures Lawful(OnMessage(r, sid, body, unixTime).reg.dev)
  {
    hide DecodeRegisterReq, DecodeStatus, DecodeFault, SwitchTo, WriteQueue.Send, Indexed;
  }

  lemma LawfulStep(r: Region, timeoutMs: u64, i: Input)
    requires Enabled(r, timeoutMs, i) && Lawful(r.reg.dev) && (i.Receive? ==> LawfulBody(i.body))
    ensures Lawful(Step(r, timeoutMs, i).reg.dev)
  {
    hide OnMessage, OnTelemetry, RaiseAll, SwitchTo, LawfulBody, LampLaws.PowerLaw;
    match i
    case Receive(sid, body, unixTime) => LawfulMessage(r, sid, body, unixTime);
    case Telemetry(uri, zone, motion) => LawfulTelemetry(r, uri, zone, motion);
    case Tick(order) => RaiseAllReg(r.(reg := MarkLost(r.reg, r.now, timeoutMs)), order);
    case _ =>
  }

  lemma LawfulTelemetry(r: Region, uri: Str, zone: u32, motion: u8)
    requires Lawful(r.reg.dev)
    ensures Lawful(OnTelemetry(r, uri, zone, motion).reg.dev)
  {
    hide Edges, SwitchTo, Indexed;
    EdgesEffect(SeenSensor(r, uri, zone), uri, zone, motion);
  }

  /** While status reports come only from lamps, every record keeps the law. */
  lemma {:induction false} RecordsAreLawful(start: u64, timeoutMs: u64, run: seq<Input>)
    requires Possible(start, timeoutMs, run) && FromLamps(run)
    ensures Lawful(After(start, timeoutMs, run).reg.dev)
  {
    if run != [] {
      var init, last := run[..|run| - 1], run[|run| - 1];
      PossibleInit(start, timeoutMs, run);
      assert last in run;
      assert forall i <- init :: i in run;
      RecordsAreLawful(start, timeoutMs, init);
      LawfulStep(After(start, timeoutMs, init), timeoutMs, last);
    }
  }

  /** Whatever a lamp's connection carries in any of its runs is lawful. */
  lemma LampsSendLawfulBodies(c: Lamps.Config, run: seq<LampLaws.Occurrence>, i: nat)
    requires LampLaws.Possible(c, run) && LampLaws.After(c, run).link == Lamps.Connected
    requires i < |LampLaws.After(c, run).q.sent|
    ensures LawfulBody(LampLaws.After(c, run).q.sent[i].Body())
  {
    LampLaws.LampInvariant(c, run);
    var l := LampLaws.After(c, run);
    assert i == 0 || LampLaws.IsReport(c, l.q.sent[i]);
    assert LampLaws.IsRegister(c, l.q.sent[0]);
    hide LampLaws.After, LampLaws.Inv, LampLaws.Possible, LawfulBody, LampLaws.IsStatus;
    LawfulFrame(c, l.q.sent[i]);
  }

  lemma LawfulFrame(c: Lamps.Config, f: Frame)
    requires LampLaws.IsRegister(c, f) || LampLaws.IsReport(c, f)
    ensures LawfulBody(f.Body())
  {
    assert f.Body()[1..] == f.payload && f.Body()[0] == f.kind;
    if LampLaws.IsStatus(c, f) {
      var r: StatusReport :| f.payload == StatusBytes(r) && r.uri == c.uri && r.zoneId == c.zone
                             && LampLaws.PowerLaw(r.on, r.intensity, r.powerMw);
      hide StatusBytes, DecodeStatus;
      StatusExact(f.payload, r);
    } else {
      hide DecodeStatus, RegisterReqBytes, FaultBytes;
    }
  }

  // ----- sums

  ghost function OnAmong(dev: map<Str, DeviceState>, s: set<Str>): set<Str>
    requires s <= dev.Keys
  {
    set u | u in s && dev[u].on != 0
  }

  lemma {:induction false} SumBounds(dev: map<Str, DeviceState>, s: set<Str>)
    requires s <= dev.Keys && Lawful(dev)
    ensures 70800 * |OnAmong(dev, s)| <= PowerOf(dev, s) <= 274000 * |OnAmong(dev, s)|
  {
    if s == {} {
      assert OnAmong(dev, s) == {};
    } else {
      var u :| u in s;
      PowerRemove(dev, s, u);
      SumBounds(dev, s - {u});
      assert LampLaws.PowerLaw(dev[u].on, dev[u].intensity, dev[u].powerMw);
      if dev[u].on != 0 {
        assert OnAmong(dev, s) == OnAmong(dev, s - {u}) + {u};
      } else {
        assert OnAmong(dev, s) == OnAmong(dev, s - {u});
      }
    }
  }

  /** With at most 15675 lamps on in a zone its power entry does not wrap: it is the true sum, and it lies between
      70.8 W and 274 W for each lamp the summary of the same registry counts as on. */
  lemma PowerAgreesWithLampCount(start: u64, timeoutMs: u64, run: seq<Input>,
                                 power: seq<ZonePower>, summary: seq<ZoneDeviceSummary>,
                                 p: ZonePower, s: ZoneDeviceSummary)
    requires Possible(start, timeoutMs, run) && FromLamps(run)
    requires var dev := After(start, timeoutMs, run).reg.dev;
             && IsPowerSum(dev, power) && IsSummary(dev, summary)
             && |Among(dev, dev.Keys, IsLampOn, p.zoneId)| <= 15675
    requires p in power && s in summary && p.zoneId == s.zoneId
    ensures var dev := After(start, timeoutMs, run).reg.dev;
            p.powerMw == PowerOf(dev, Among(dev, dev.Keys, IsLamp, p.zoneId))
    ensures 70800 * s.lampOn <= p.powerMw <= 274000 * s.lampOn
  {
    RecordsAreLawful(start, timeoutMs, run);
    hide After, Possible, FromLamps, Lawful, IsPowerSum, IsSummary, Among, PowerOf;
    ZoneAgrees(After(start, timeoutMs, run).reg.dev, power, summary, p, s);
  }

  lemma Bounded(sum: nat, on: nat)
    requires 70800 * on <= sum <= 274000 * on && on <= 15675
    ensures ToU32(sum) == sum && ToU16(on) == on
  {}

  lemma ZoneAgrees(dev: map<Str, DeviceState>, power: seq<ZonePower>, summary: seq<ZoneDeviceSummary>,
                   p: ZonePower, s: ZoneDeviceSummary)
    requires Lawful(dev) && IsPowerSum(dev, power) && IsSummary(dev, summary)
    requires p in power && s in summary && p.zoneId == s.zoneId
    requires |Among(dev, dev.Keys, IsLampOn, p.zoneId)| <= 15675
    ensures p.powerMw == PowerOf(dev, Among(dev, dev.Keys, IsLamp, p.zoneId))
    ensures 70800 * s.lampOn <= p.powerMw <= 274000 * s.lampOn
  {
    var lamps := Among(dev, dev.Keys, IsLamp, p.zoneId);
    assert p.powerMw == ZonePowerMw(dev, dev.Keys, p.zoneId) && s == ZoneSummary(dev, dev.Keys, s.zoneId);
    assert OnAmong(dev, lamps) == Among(dev, dev.Keys, IsLampOn, p.zoneId);
    hide Lawful, IsPowerSum, IsSummary, Among, PowerOf, OnAmong;
    SumBounds(dev, lamps);
    Bounded(PowerOf(dev, lamps), |OnAmong(dev, lamps)|);
  }

  // ----- the central server shows the aggregations of one registry state

  lemma {:induction false} PowerMapOf(xs: seq<ZonePower>, i: nat)
    requires NoDup(ZoneIds(xs)) && i < |xs|
    ensures xs[i].zoneId in CentralStore.PowerMap(xs) && CentralStore.PowerMap(xs)[xs[i].zoneId] == xs[i].powerMw
    ensures CentralStore.PowerMap(xs).Keys == Elems(ZoneIds(xs))
  {
    var init, last := xs[..|xs| - 1], xs[|xs| - 1];
    var ids := ZoneIds(xs);
    assert ZoneIds(init) == ids[..|init|];
    assert ids == ZoneIds(init) + [last.zoneId];
    assert forall z :: z in Elems(ids) <==> z in Elems(ZoneIds(init)) || z == last.zoneId by {
      forall z
        ensures z in Elems(ids) <==> z in Elems(ZoneIds(init)) || z == last.zoneId
      {
        assert z in ids <==> z in ZoneIds(init) || z == last.zoneId;
      }
    }
    if init == [] {
      assert Elems(ZoneIds(init)) == {} && CentralStore.PowerMap(init) == map[];
    } else {
      PowerMapOf(init, if i < |init| then i else 0);
    }
    if i < |init| {
      assert ids[i] != ids[|init|];
    }
  }

  lemma {:induction false} SummaryMapOf(xs: seq<ZoneDeviceSummary>, z: u32)
    requires Increasing(xs)
    ensures z in CentralStore.SummaryMap(xs) ==> CentralStore.SummaryMap(xs)[z] in xs
                                                 && CentralStore.SummaryMap(xs)[z].zoneId == z
    ensures forall s <- xs :: s.zoneId in CentralStore.SummaryMap(xs)
  {
    if xs != [] {
      var init, last := xs[..|xs| - 1], xs[|xs| - 1];
      assert xs == init + [last];
      SummaryMapOf(init, z);
    }
  }

  lemma StoredPower(dev: map<Str, DeviceState>, xs: seq<ZonePower>, z: u32)
    requires IsPowerSum(dev, xs)
    ensures z in CentralStore.PowerMap(xs) <==> z in ZonesOf(dev, dev.Keys, IsLamp)
    ensures z in CentralStore.PowerMap(xs) ==> CentralStore.PowerMap(xs)[z] == ZonePowerMw(dev, dev.Keys, z)
  {
    hide ZonesOf, ZonePowerMw;
    if xs != [] {
      PowerMapOf(xs, 0);
    } else {
      assert Elems(ZoneIds(xs)) == {};
    }
    if z in CentralStore.PowerMap(xs) {
      assert z in Elems(ZoneIds(xs));
      var i :| 0 <= i < |xs| && ZoneIds(xs)[i] == z;
      PowerMapOf(xs, i);
      assert xs[i] in xs;
    }
  }

  lemma StoredSummary(dev: map<Str, DeviceState>, xs: seq<ZoneDeviceSummary>, z: u32)
    requires IsSummary(dev, xs)
    ensures z in CentralStore.SummaryMap(xs) <==> z in ZonesOf(dev, dev.Keys, Anything)
    ensures z in CentralStore.SummaryMap(xs) ==> CentralStore.SummaryMap(xs)[z] == ZoneSummary(dev, dev.Keys, z)
  {
    hide ZonesOf, ZoneSummary;
    SummaryMapOf(xs, z);
    if z in ZonesOf(dev, dev.Keys, Anything) {
      var s :| s in xs && s.zoneId == z;
    }
  }

  /** What the central server stores for a payload taken from a registry state is that state's aggregation: the power
      of exactly the zones with a lamp, and the counters of exactly the zones with a device. */
  lemma StoredImageIsTheAggregation(dev: map<Str, DeviceState>, up: RegionSyncUp)
    requires IsPowerSum(dev, up.zonePowerSum) && IsSummary(dev, up.zoneDeviceSummary)
    ensures CentralStore.Image(up).zonePowerMw
            == map z | z in ZonesOf(dev, dev.Keys, IsLamp) :: ZonePowerMw(dev, dev.Keys, z)
    ensures CentralStore.Image(up).zoneSummary
            == map z | z in ZonesOf(dev, dev.Keys, Anything) :: ZoneSummary(dev, dev.Keys, z)
  {
    hide ZonesOf, ZoneSummary, ZonePowerMw, IsPowerSum, IsSummary, CentralStore.PowerMap, CentralStore.SummaryMap;
    forall z: u32
      ensures z in CentralStore.PowerMap(up.zonePowerSum) <==> z in ZonesOf(dev, dev.Keys, IsLamp)
      ensures z in CentralStore.PowerMap(up.zonePowerSum)
              ==> CentralStore.PowerMap(up.zonePowerSum)[z] == ZonePowerMw(dev, dev.Keys, z)
    {
      StoredPower(dev, up.zonePowerSum, z);
    }
    forall z: u32
      ensures z in CentralStore.SummaryMap(up.zoneDeviceSummary) <==> z in ZonesOf(dev, dev.Keys, Anything)
      ensures z in CentralStore.SummaryMap(up.zoneDeviceSummary)
              ==> CentralStore.SummaryMap(up.zoneDeviceSummary)[z] == ZoneSummary(dev, dev.Keys, z)
    {
      StoredSummary(dev, up.zoneDeviceSummary, z);
    }
  }
}
