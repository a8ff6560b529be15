/** Laws of the registry: conservation over the zones, and the zone index against its history. */
module RegistryLaws {
  import opened Basics
  import opened Proto
  import opened DeviceRegistry

  // ----- the aggregations conserve devices and power

  // The devices sel selects, outside zone 0
  ghost function Zoned(dev: map<Str, DeviceState>, sel: Selector): set<Str> {
    set u | u in dev && sel(dev[u]) && dev[u].zoneId != 0
  }

  ghost function InZones(dev: map<Str, DeviceState>, sel: Selector, zones: seq<u32>): set<Str> {
    set u | u in dev && sel(dev[u]) && dev[u].zoneId in zones
  }

  ghost function CountTotal(dev: map<Str, DeviceState>, sel: Selector, zones: seq<u32>): nat {
    if zones == [] then 0
    else CountTotal(dev, sel, zones[..|zones| - 1]) + |Among(dev, dev.Keys, sel, zones[|zones| - 1])|
  }

  ghost function PowerTotal(dev: map<Str, DeviceState>, zones: seq<u32>): nat {
    if zones == [] then 0
    else PowerTotal(dev, zones[..|zones| - 1]) + PowerOf(dev, Among(dev, dev.Keys, IsLamp, zones[|zones| - 1]))
  }

  lemma {:induction false} PowerUnion(dev: map<Str, DeviceState>, a: set<Str>, b: set<Str>)
    requires a + b <= dev.Keys && a !! b
    ensures PowerOf(dev, a + b) == PowerOf(dev, a) + PowerOf(dev, b)
  {
    if b == {} {
      assert a + b == a;
    } else {
      var u :| u in b;
      PowerRemove(dev, b, u);
      PowerRemove(dev, a + b, u);
      assert a + b - {u} == a + (b - {u});
      PowerUnion(dev, a, b - {u});
    }
  }

  lemma {:induction false} TotalsOverZones(dev: map<Str, DeviceState>, sel: Selector, zones: seq<u32>)
    requires NoDup(zones)
    ensures CountTotal(dev, sel, zones) == |InZones(dev, sel, zones)|
    ensures sel == IsLamp ==> PowerTotal(dev, zones) == PowerOf(dev, InZones(dev, sel, zones))
  {
    if zones == [] {
      assert InZones(dev, sel, zones) == {};
    } else {
      var init, z := zones[..|zones| - 1], zones[|zones| - 1];
      var a, b := InZones(dev, sel, init), Among(dev, dev.Keys, sel, z);
      assert zones == init + [z];
      assert InZones(dev, sel, zones) == a + b;
      assert z !in init;
      assert a !! b;
      TotalsOverZones(dev, sel, init);
      PowerUnion(dev, a, b);
    }
  }

  ghost function SummaryZones(out: seq<ZoneDeviceSummary>): seq<u32> {
    seq(|out|, i requires 0 <= i < |out| => out[i].zoneId)
  }

  /** Summing over the zones of a summary counts every device outside zone 0 exactly once. */
  lemma SummaryConservesDevices(dev: map<Str, DeviceState>, out: seq<ZoneDeviceSummary>, sel: Selector)
    requires IsSummary(dev, out)
    ensures CountTotal(dev, sel, SummaryZones(out)) == |Zoned(dev, sel)|
  {
    var zones := SummaryZones(out);
    TotalsOverZones(dev, sel, zones);
    forall u | u in Zoned(dev, sel)
      ensures u in InZones(dev, sel, zones)
    {
      assert Anything(dev[u]);
      assert dev[u].zoneId in ZonesOf(dev, dev.Keys, Anything);
      var i :| 0 <= i < |out| && out[i].zoneId == dev[u].zoneId;
      assert zones[i] == dev[u].zoneId;
    }
    forall u | u in InZones(dev, sel, zones)
      ensures u in Zoned(dev, sel)
    {
      var i :| 0 <= i < |zones| && zones[i] == dev[u].zoneId;
      assert out[i] in out && out[i].zoneId in ZonesOf(dev, dev.Keys, Anything);
    }
    assert InZones(dev, sel, zones) == Zoned(dev, sel);
  }

  /** Summing over the zones of a power list counts the power of every lamp outside zone 0 exactly once. */
  lemma PowerListConservesPower(dev: map<Str, DeviceState>, out: seq<ZonePower>)
    requires IsPowerSum(dev, out)
    ensures PowerTotal(dev, ZoneIds(out)) == PowerOf(dev, Zoned(dev, IsLamp))
  {
    TotalsOverZones(dev, IsLamp, ZoneIds(out));
    forall u | u in dev && IsLamp(dev[u])
      ensures dev[u].zoneId in ZoneIds(out) <==> dev[u].zoneId != 0
    {
      assert dev[u].zoneId in ZoneIds(out) <==> dev[u].zoneId in Elems(ZoneIds(out));
    }
    assert InZones(dev, IsLamp, ZoneIds(out)) == Zoned(dev, IsLamp);
  }

  lemma {:induction false} SubsetSize<T>(a: set<T>, b: set<T>)
    requires a <= b
    ensures |a| <= |b|
  {
    if x :| x in a {
      SubsetSize(a - {x}, b - {x});
    }
  }

  lemma SmallCount(dev: map<Str, DeviceState>, sel: Selector, sub: Selector, zone: u32)
    requires |Among(dev, dev.Keys, sel, zone)| <= U16_MAX && (forall d :: sub(d) ==> sel(d))
    ensures ToU16(|Among(dev, dev.Keys, sub, zone)|) == |Among(dev, dev.Keys, sub, zone)|
  {
    SubsetSize(Among(dev, dev.Keys, sub, zone), Among(dev, dev.Keys, sel, zone));
  }

  /** With at most 65535 lamps and 65535 sensors in a zone its counters do not wrap: the five are the true counts, and
      the power list has the zone exactly when its lampTotal is positive. */
  lemma ExactWithoutWrap(dev: map<Str, DeviceState>, power: seq<ZonePower>, out: seq<ZoneDeviceSummary>,
                         s: ZoneDeviceSummary)
    requires IsPowerSum(dev, power) && IsSummary(dev, out) && s in out
    requires |Among(dev, dev.Keys, IsLamp, s.zoneId)| <= U16_MAX
    requires |Among(dev, dev.Keys, IsSensor, s.zoneId)| <= U16_MAX
    ensures s.lampTotal == |Among(dev, dev.Keys, IsLamp, s.zoneId)|
    ensures s.lampOn == |Among(dev, dev.Keys, IsLampOn, s.zoneId)|
    ensures s.lampFault == |Among(dev, dev.Keys, IsLampFault, s.zoneId)|
    ensures s.sensorTotal == |Among(dev, dev.Keys, IsSensor, s.zoneId)|
    ensures s.sensorFault == |Among(dev, dev.Keys, IsSensorFault, s.zoneId)|
    ensures s.lampTotal > 0 <==> exists p <- power :: p.zoneId == s.zoneId
  {
    SummaryEntry(dev, out, s);
    SmallCount(dev, IsLamp, IsLamp, s.zoneId);
    SmallCount(dev, IsLamp, IsLampOn, s.zoneId);
    SmallCount(dev, IsLamp, IsLampFault, s.zoneId);
    SmallCount(dev, IsSensor, IsSensor, s.zoneId);
    SmallCount(dev, IsSensor, IsSensorFault, s.zoneId);
    hide IsPowerSum, IsSummary, Among, ToU16;
    PowerListed(dev, power, s.zoneId);
  }

  lemma SummaryEntry(dev: map<Str, DeviceState>, out: seq<ZoneDeviceSummary>, s: ZoneDeviceSummary)
    requires IsSummary(dev, out) && s in out
    ensures s == ZoneSummary(dev, dev.Keys, s.zoneId) && s.zoneId != 0
  {
    assert s.zoneId in ZonesOf(dev, dev.Keys, Anything);
  }

  lemma PowerListed(dev: map<Str, DeviceState>, power: seq<ZonePower>, zone: u32)
    requires IsPowerSum(dev, power) && zone != 0
    ensures Among(dev, dev.Keys, IsLamp, zone) != {} <==> exists p <- power :: p.zoneId == zone
  {
    assert zone in ZonesOf(dev, dev.Keys, IsLamp) <==> zone in ZoneIds(power) by {
      assert zone in ZoneIds(power) <==> zone in Elems(ZoneIds(power));
    }
    if u :| u in Among(dev, dev.Keys, IsLamp, zone) {
      var i :| 0 <= i < |power| && ZoneIds(power)[i] == zone;
      assert power[i] in power;
    }
    if p :| p in power && p.zoneId == zone {
      var i :| 0 <= i < |power| && power[i] == p;
      assert ZoneIds(power)[i] == zone;
      var u :| u in dev && IsLamp(dev[u]) && dev[u].zoneId == zone;
      assert u in Among(dev, dev.Keys, IsLamp, zone);
    }
  }

  // ----- the zone index against the history of the registry; each operation is one critical section

  datatype Op =
    | UpsertOp(uri: Str, st: DeviceState)
    | RegisterOp(uri: Str, zone: u32)
    | DetectOp(now: u64, timeoutMs: u64)

  function Apply(v: View, op: Op): View {
    match op
    case UpsertOp(uri, st) => Upserted(v, uri, st)
    case RegisterOp(uri, zone) => LampRegistered(v, uri, zone)
    case DetectOp(now, timeoutMs) => MarkLost(v, now, timeoutMs)
  }

  function After(ops: seq<Op>): View {
    if ops == [] then View(map[], map[]) else Apply(After(ops[..|ops| - 1]), ops[|ops| - 1])
  }

  // op names uri as a lamp of the zone
  predicate Names(op: Op, zone: u32, uri: Str) {
    || (op.UpsertOp? && op.uri == uri && op.st.kind == LUMINAIRE && op.st.zoneId == zone && zone != 0)
    || (op.RegisterOp? && op.uri == uri && op.zone == zone)
  }

  ghost predicate Named(ops: seq<Op>, zone: u32, uri: Str) {
    exists i :: 0 <= i < |ops| && Names(ops[i], zone, uri)
  }

  // Some operation names a before any operation names b
  ghost predicate NamedBefore(ops: seq<Op>, zone: u32, a: Str, b: Str) {
    exists i :: 0 <= i < |ops| && Names(ops[i], zone, a) && !Named(ops[..i + 1], zone, b)
  }

  lemma StillBefore(init: seq<Op>, op: Op, zone: u32, a: Str, b: Str)
    requires NamedBefore(init, zone, a, b)
    ensures NamedBefore(init + [op], zone, a, b)
  {
    var k :| 0 <= k < |init| && Names(init[k], zone, a) && !Named(init[..k + 1], zone, b);
    var ops := init + [op];
    assert ops[..k + 1] == init[..k + 1] && ops[k] == init[k];
  }

  lemma NewIsAfter(init: seq<Op>, op: Op, zone: u32, a: Str, b: Str)
    requires Named(init, zone, a) && !Named(init, zone, b)
    ensures NamedBefore(init + [op], zone, a, b)
  {
    var k :| 0 <= k < |init| && Names(init[k], zone, a);
    var ops := init + [op];
    assert ops[..k + 1] == init[..k + 1] && ops[k] == init[k];
    assert !Named(ops[..k + 1], zone, b);
  }

  /** Whatever the history, the lamps of a zone are exactly those named in it, each once, in first-seen order. */
  lemma {:induction false} ZoneIndexIsFirstSeen(ops: seq<Op>, zone: u32)
    ensures var lamps := LampsOfZone(After(ops), zone);
            && NoDup(lamps)
            && (forall u :: u in lamps <==> Named(ops, zone, u))
            && (forall i, j :: 0 <= i < j < |lamps| ==> NamedBefore(ops, zone, lamps[i], lamps[j]))
  {
    if ops == [] {
    } else {
      var init, op := ops[..|ops| - 1], ops[|ops| - 1];
      ZoneIndexIsFirstSeen(init, zone);
      var before, lamps := LampsOfZone(After(init), zone), LampsOfZone(After(ops), zone);
      var u := if op.DetectOp? then [] else op.uri;
      IndexStep(After(init), op, zone);
      assert ops == init + [op];
      forall w
        ensures Named(ops, zone, w) <==> Named(init, zone, w) || Names(op, zone, w)
      {
        NamedSnoc(init, op, zone, w);
      }
      forall i, j | 0 <= i < j < |lamps|
        ensures NamedBefore(ops, zone, lamps[i], lamps[j])
      {
        if j < |before| {
          assert NamedBefore(init, zone, before[i], before[j]);
          StillBefore(init, op, zone, lamps[i], lamps[j]);
        } else {
          assert lamps[i] in before && lamps[j] !in before;
          NewIsAfter(init, op, zone, lamps[i], lamps[j]);
        }
      }
    }
  }

  lemma NamedSnoc(init: seq<Op>, op: Op, zone: u32, w: Str)
    ensures Named(init + [op], zone, w) <==> Named(init, zone, w) || Names(op, zone, w)
  {
    var ops := init + [op];
    assert ops[|init|] == op;
    assert forall i :: 0 <= i < |init| ==> ops[i] == init[i];
  }

  // One operation appends at most the lamp it names
  lemma IndexStep(v: View, op: Op, zone: u32)
    ensures LampsOfZone(Apply(v, op), zone)
            == if !op.DetectOp? && Names(op, zone, op.uri) && op.uri !in LampsOfZone(v, zone)
               then LampsOfZone(v, zone) + [op.uri] else LampsOfZone(v, zone)
  {}

  // No URI ever changes its type or zone, and zones are non-zero
  ghost predicate Stable(ops: seq<Op>) {
    && (forall i, j :: 0 <= i < |ops| && 0 <= j < |ops| && ops[i].UpsertOp? && ops[j].UpsertOp?
                       && ops[i].uri == ops[j].uri
          ==> ops[i].st.kind == ops[j].st.kind && ops[i].st.zoneId == ops[j].st.zoneId)
    && (forall i :: 0 <= i < |ops| && ops[i].UpsertOp? ==> ops[i].st.zoneId != 0)
  }

  // Only lamps already known are registered
  ghost predicate Known(ops: seq<Op>) {
    forall i :: 0 <= i < |ops| && ops[i].RegisterOp?
      ==> exists j :: 0 <= j < i && Names(ops[j], ops[i].zone, ops[i].uri) && ops[j].UpsertOp?
  }

  // Every record has the type and zone of the upserts of its URI
  lemma {:induction false} RecordsFollowUpserts(ops: seq<Op>)
    requires Stable(ops)
    ensures forall i :: 0 <= i < |ops| && ops[i].UpsertOp?
              ==> ops[i].uri in After(ops).dev
                  && After(ops).dev[ops[i].uri].kind == ops[i].st.kind
                  && After(ops).dev[ops[i].uri].zoneId == ops[i].st.zoneId
    ensures forall u :: u in After(ops).dev
              ==> exists i :: 0 <= i < |ops| && ops[i].UpsertOp? && ops[i].uri == u
  {
    if ops != [] {
      var init, op := ops[..|ops| - 1], ops[|ops| - 1];
      RecordsFollowUpserts(init);
      forall u | u in After(ops).dev
        ensures exists i :: 0 <= i < |ops| && ops[i].UpsertOp? && ops[i].uri == u
      {
        if u in After(init).dev {
          var i :| 0 <= i < |init| && init[i].UpsertOp? && init[i].uri == u;
          assert ops[i] == init[i];
        } else {
          assert ops[|init|].UpsertOp? && ops[|init|].uri == u;
        }
      }
      forall i | 0 <= i < |ops| && ops[i].UpsertOp?
        ensures ops[i].uri in After(ops).dev
        ensures After(ops).dev[ops[i].uri].kind == ops[i].st.kind
        ensures After(ops).dev[ops[i].uri].zoneId == ops[i].st.zoneId
      {
        if i < |init| {
          assert init[i] == ops[i];
        }
      }
    }
  }

  /** While no URI changes type or zone, the index agrees with a scan of the device map. */
  lemma ZoneIndexAgreesWithScan(ops: seq<Op>, zone: u32, u: Str)
    requires Stable(ops) && Known(ops)
    ensures u in LampsOfZone(After(ops), zone)
            <==> u in After(ops).dev && After(ops).dev[u].kind == LUMINAIRE && After(ops).dev[u].zoneId == zone
  {
    ZoneIndexIsFirstSeen(ops, zone);
    RecordsFollowUpserts(ops);
    if u in LampsOfZone(After(ops), zone) {
      var i :| 0 <= i < |ops| && Names(ops[i], zone, u);
      if ops[i].RegisterOp? {
        var j :| 0 <= j < i && Names(ops[j], zone, u) && ops[j].UpsertOp?;
      }
    }
    if u in After(ops).dev && After(ops).dev[u].kind == LUMINAIRE && After(ops).dev[u].zoneId == zone {
      var i :| 0 <= i < |ops| && ops[i].UpsertOp? && ops[i].uri == u;
      assert Names(ops[i], zone, u);
    }
  }
}
