/** registry.hpp: the device map of a region, its zone index and its two aggregations. */
module DeviceRegistry {
  import opened Basics
  import opened Proto

  datatype DeviceState = DeviceState(
    kind: u8, zoneId: u32, on: u8, intensity: u8, powerMw: u32, fault: bool, lastSeenMs: u64)

  datatype View = View(dev: map<Str, DeviceState>, zoneToLamps: map<u32, seq<Str>>)

  // ----- what the operations do to the view

  function Indexed(idx: map<u32, seq<Str>>, zone: u32, uri: Str): map<u32, seq<Str>> {
    var v := if zone in idx then idx[zone] else [];
    idx[zone := if uri in v then v else v + [uri]]
  }

  function Upserted(v: View, uri: Str, st: DeviceState): View {
    View(v.dev[uri := st],
         if st.kind == LUMINAIRE && st.zoneId != 0 then Indexed(v.zoneToLamps, st.zoneId, uri) else v.zoneToLamps)
  }

  function LampRegistered(v: View, uri: Str, zone: u32): View {
    v.(zoneToLamps := Indexed(v.zoneToLamps, zone, uri))
  }

  function LampsOfZone(v: View, zone: u32): seq<Str> {
    if zone in v.zoneToLamps then v.zoneToLamps[zone] else []
  }

  predicate IsLost(st: DeviceState, now: u64, timeoutMs: u64) {
    !st.fault && st.lastSeenMs > 0 && SubU64(now, st.lastSeenMs) > timeoutMs
  }

  function LostSet(dev: map<Str, DeviceState>, now: u64, timeoutMs: u64): set<Str> {
    set u | u in dev && IsLost(dev[u], now, timeoutMs)
  }

  function MarkLost(v: View, now: u64, timeoutMs: u64): View {
    v.(dev := map u | u in v.dev ::
         if IsLost(v.dev[u], now, timeoutMs) then v.dev[u].(fault := true) else v.dev[u])
  }

  // ----- what the aggregations mean

  type Selector = DeviceState -> bool

  const IsLamp: Selector := (d: DeviceState) => d.kind == LUMINAIRE
  const IsLampOn: Selector := (d: DeviceState) => d.kind == LUMINAIRE && d.on != 0
  const IsLampFault: Selector := (d: DeviceState) => d.kind == LUMINAIRE && d.fault
  const IsSensor: Selector := (d: DeviceState) => d.kind != LUMINAIRE
  const IsSensorFault: Selector := (d: DeviceState) => d.kind != LUMINAIRE && d.fault

  // The devices among s that sel selects in one zone
  ghost function Among(dev: map<Str, DeviceState>, s: set<Str>, sel: Selector, zone: u32): set<Str>
    requires s <= dev.Keys
  {
    set u | u in s && sel(dev[u]) && dev[u].zoneId == zone
  }

  // The zones, other than 0, of the devices among s that sel selects
  ghost function ZonesOf(dev: map<Str, DeviceState>, s: set<Str>, sel: Selector): set<u32>
    requires s <= dev.Keys
  {
    set u | u in s && sel(dev[u]) && dev[u].zoneId != 0 :: dev[u].zoneId
  }

  const Anything: Selector := (d: DeviceState) => true

  ghost function PowerOf(dev: map<Str, DeviceState>, s: set<Str>): nat
    requires s <= dev.Keys
  {
    if s == {} then 0 else var u :| u in s; dev[u].powerMw + PowerOf(dev, s - {u})
  }

  ghost function ZonePowerMw(dev: map<Str, DeviceState>, s: set<Str>, zone: u32): u32
    requires s <= dev.Keys
  {
    ToU32(PowerOf(dev, Among(dev, s, IsLamp, zone)))
  }

  ghost function ZoneSummary(dev: map<Str, DeviceState>, s: set<Str>, zone: u32): (z: ZoneDeviceSummary)
    requires s <= dev.Keys
    ensures z.zoneId == zone
  {
    ZoneDeviceSummary(zone,
                      ToU16(|Among(dev, s, IsLamp, zone)|), ToU16(|Among(dev, s, IsLampOn, zone)|),
                      ToU16(|Among(dev, s, IsLampFault, zone)|), ToU16(|Among(dev, s, IsSensor, zone)|),
                      ToU16(|Among(dev, s, IsSensorFault, zone)|))
  }

  /** out has one entry for each zone with a lamp, in some order, holding the u32 sum of the lamp powers. */
  ghost predicate IsPowerSum(dev: map<Str, DeviceState>, out: seq<ZonePower>) {
    && Lists(ZoneIds(out), ZonesOf(dev, dev.Keys, IsLamp))
    && forall z <- out :: z.powerMw == ZonePowerMw(dev, dev.Keys, z.zoneId)
  }

  ghost function ZoneIds(out: seq<ZonePower>): (ids: seq<u32>)
    ensures |ids| == |out|
  {
    seq(|out|, i requires 0 <= i < |out| => out[i].zoneId)
  }

  /** out has one entry for each zone with a device, by increasing zone, holding the u16 counts. */
  ghost predicate IsSummary(dev: map<Str, DeviceState>, out: seq<ZoneDeviceSummary>) {
    && Increasing(out)
    && (forall z :: z in ZonesOf(dev, dev.Keys, Anything) <==> exists s <- out :: s.zoneId == z)
    && forall s <- out :: s == ZoneSummary(dev, dev.Keys, s.zoneId)
  }

  ghost predicate Increasing(out: seq<ZoneDeviceSummary>) {
    forall i, j :: 0 <= i < j < |out| ==> out[i].zoneId < out[j].zoneId
  }

  // ----- the class; each method is one critical section of its mutex

  class Registry {
    var dev: map<Str, DeviceState>
    var zoneToLamps: map<u32, seq<Str>>

    ghost function State(): View
      reads this
    {
      View(dev, zoneToLamps)
    }

    constructor ()
      ensures State() == View(map[], map[])
    {
      dev := map[];
      zoneToLamps := map[];
    }

    method Upsert(uri: Str, st: DeviceState)
      modifies this
      ensures State() == Upserted(old(State()), uri, st)
    {
      dev := dev[uri := st];
      if st.kind == LUMINAIRE && st.zoneId != 0 {
        var v := if st.zoneId in zoneToLamps then zoneToLamps[st.zoneId] else [];
        if uri !in v {
          v := v + [uri];
        }
        zoneToLamps := zoneToLamps[st.zoneId := v];
      }
    }

    method RegisterLamp(uri: Str, zone: u32)
      modifies this
      ensures State() == LampRegistered(old(State()), uri, zone)
    {
      var v := if zone in zoneToLamps then zoneToLamps[zone] else [];
      if uri !in v {
        v := v + [uri];
      }
      zoneToLamps := zoneToLamps[zone := v];
    }

    method Get(uri: Str) returns (st: Option<DeviceState>)
      ensures st == if uri in dev then Some(dev[uri]) else None
    {
      st := if uri in dev then Some(dev[uri]) else None;
    }

    method GetLampsInZone(zone: u32) returns (lamps: seq<Str>)
      ensures lamps == LampsOfZone(State(), zone)
    {
      lamps := if zone in zoneToLamps then zoneToLamps[zone] else [];
    }

    // The order of lost is that of the iteration over the map
    method DetectCommLost(now: u64, timeoutMs: u64) returns (lost: seq<Str>)
      modifies this
      ensures State() == MarkLost(old(State()), now, timeoutMs)
      ensures Lists(lost, LostSet(old(dev), now, timeoutMs))
    {
      lost := [];
      var todo := dev.Keys;
      while todo != {}
        invariant todo <= dev.Keys == old(dev).Keys && zoneToLamps == old(zoneToLamps)
        invariant forall u <- todo :: dev[u] == old(dev)[u]
        invariant forall u | u in dev && u !in todo ::
                    dev[u] == MarkLost(old(State()), now, timeoutMs).dev[u]
        invariant NoDup(lost)
        invariant forall u :: u in lost <==> u in LostSet(old(dev), now, timeoutMs) && u !in todo
        decreases todo
      {
        var uri :| uri in todo;
        todo := todo - {uri};
        var st := dev[uri];
        if !st.fault && st.lastSeenMs > 0 && SubU64(now, st.lastSeenMs) > timeoutMs {
          dev := dev[uri := st.(fault := true)];
          lost := lost + [uri];
        }
      }
    }

    method ZonePowerSum() returns (out: seq<ZonePower>)
      ensures IsPowerSum(dev, out)
    {
      hide ZonePowerMw, Among, PowerOf, ToU32;
      var sums: map<u32, u32> := map[];
      var todo := dev.Keys;
      ghost var done := {};
      while todo != {}
        invariant todo !! done && todo + done == dev.Keys
        invariant sums.Keys == ZonesOf(dev, done, IsLamp)
        invariant forall z <- sums :: sums[z] == ZonePowerMw(dev, done, z)
        decreases todo
      {
        var uri :| uri in todo;
        todo := todo - {uri};
        PowerStep(dev, done, uri);
        done := done + {uri};
        var st := dev[uri];
        if st.zoneId != 0 {
          if st.kind == LUMINAIRE {
            var sum: int := if st.zoneId in sums then sums[st.zoneId] else 0;
            sums := sums[st.zoneId := ToU32(sum + st.powerMw)];
          }
        }
      }
      assert done == dev.Keys;
      out := ListSums(sums);
    }

    method ZoneDeviceSummary() returns (out: seq<ZoneDeviceSummary>)
      ensures IsSummary(dev, out)
    {
      hide ZoneSummary, Count, Among;
      var acc: map<u32, ZoneDeviceSummary> := map[];
      var todo := dev.Keys;
      ghost var done := {};
      while todo != {}
        invariant todo !! done && todo + done == dev.Keys
        invariant acc.Keys == ZonesOf(dev, done, Anything)
        invariant forall z <- acc :: acc[z] == ZoneSummary(dev, done, z)
        decreases todo
      {
        var uri :| uri in todo;
        todo := todo - {uri};
        SummaryStep(dev, done, uri);
        done := done + {uri};
        var st := dev[uri];
        if st.zoneId != 0 {
          var a := if st.zoneId in acc then acc[st.zoneId] else Proto.ZoneDeviceSummary(st.zoneId, 0, 0, 0, 0, 0);
          acc := acc[st.zoneId := Count(a, st)];
        }
      }
      assert done == dev.Keys;
      out := SortSummaries(acc);
      forall z
        ensures z in ZonesOf(dev, dev.Keys, Anything) <==> exists s <- out :: s.zoneId == z
      {
        assert z in acc <==> z in ZonesOf(dev, dev.Keys, Anything);
      }
    }
  }

  // out.push_back for every entry of the unordered map
  method ListSums(sums: map<u32, u32>) returns (out: seq<ZonePower>)
    ensures Lists(ZoneIds(out), sums.Keys)
    ensures forall p <- out :: p.zoneId in sums && p.powerMw == sums[p.zoneId]
  {
    out := [];
    var zones := sums.Keys;
    while zones != {}
      invariant zones <= sums.Keys
      invariant Lists(ZoneIds(out), sums.Keys - zones)
      invariant forall p <- out :: p.zoneId in sums && p.powerMw == sums[p.zoneId]
      decreases zones
    {
      var z :| z in zones;
      ListsAdd(ZoneIds(out), sums.Keys - zones, z);
      zones := zones - {z};
      assert ZoneIds(out + [ZonePower(z, sums[z])]) == ZoneIds(out) + [z];
      assert sums.Keys - zones == sums.Keys - (zones + {z}) + {z};
      out := out + [ZonePower(z, sums[z])];
    }
  }

  // push_back of every accumulator, then std::sort
  method SortSummaries(acc: map<u32, ZoneDeviceSummary>) returns (out: seq<ZoneDeviceSummary>)
    requires forall z <- acc :: acc[z].zoneId == z
    ensures Increasing(out)
    ensures forall s <- out :: s.zoneId in acc && s == acc[s.zoneId]
    ensures forall z :: z in acc <==> exists s <- out :: s.zoneId == z
  {
    out := [];
    var zones := acc.Keys;
    while zones != {}
      invariant zones <= acc.Keys
      invariant Increasing(out)
      invariant forall s :: s in out <==> s.zoneId in acc.Keys - zones && s == acc[s.zoneId]
      decreases zones
    {
      var z :| z in zones;
      zones := zones - {z};
      out := InsertByZone(out, acc[z]);
    }
    forall z | z in acc
      ensures exists s <- out :: s.zoneId == z
    {
      assert acc[z] in out;
    }
  }

  // The branch that counts one device
  function Count(a: ZoneDeviceSummary, st: DeviceState): ZoneDeviceSummary {
    if st.kind == LUMINAIRE then
      var a := a.(lampTotal := ToU16(a.lampTotal + 1));
      var a := if st.on != 0 then a.(lampOn := ToU16(a.lampOn + 1)) else a;
      if st.fault then a.(lampFault := ToU16(a.lampFault + 1)) else a
    else
      var a := a.(sensorTotal := ToU16(a.sensorTotal + 1));
      if st.fault then a.(sensorFault := ToU16(a.sensorFault + 1)) else a
  }

  // push_back of each entry and the final std::sort, as an insertion sort
  method InsertByZone(s: seq<ZoneDeviceSummary>, x: ZoneDeviceSummary) returns (t: seq<ZoneDeviceSummary>)
    requires Increasing(s) && forall y <- s :: y.zoneId != x.zoneId
    ensures Increasing(t)
    ensures forall y :: y in t <==> y in s || y == x
  {
    hide Increasing;
    var i := 0;
    while i < |s| && s[i].zoneId < x.zoneId
      invariant 0 <= i <= |s|
      invariant forall j :: 0 <= j < i ==> s[j].zoneId < x.zoneId
    {
      i := i + 1;
    }
    t := s[..i] + ([x] + s[i..]);
    Inserted(s, i, x);
  }

  lemma Inserted(s: seq<ZoneDeviceSummary>, i: nat, x: ZoneDeviceSummary)
    requires Increasing(s) && i <= |s|
    requires forall j :: 0 <= j < i ==> s[j].zoneId < x.zoneId
    requires i < |s| ==> x.zoneId < s[i].zoneId
    ensures var t := s[..i] + ([x] + s[i..]); Increasing(t) && forall y :: y in t <==> y in s || y == x
  {
    var a, b := s[..i], s[i..];
    assert s == a + b;
    assert forall y :: y in s <==> y in a || y in b;
    Between(a, x, b);
    hide Increasing;
  }

  lemma Between(a: seq<ZoneDeviceSummary>, x: ZoneDeviceSummary, b: seq<ZoneDeviceSummary>)
    requires Increasing(a + b)
    requires forall j :: 0 <= j < |a| ==> a[j].zoneId < x.zoneId
    requires b != [] ==> x.zoneId < b[0].zoneId
    ensures Increasing(a + ([x] + b))
  {
    var t := a + ([x] + b);
    forall i, j | 0 <= i < j < |t|
      ensures t[i].zoneId < t[j].zoneId
    {
      var k, m := if i <= |a| then i else i - 1, if j <= |a| then j else j - 1;
      if i != |a| && j != |a| {
        assert t[i] == (a + b)[k] && t[j] == (a + b)[m];
      } else if i == |a| && j > |a| + 1 {
        assert (a + b)[|a|] == b[0] && t[j] == (a + b)[m];
      }
    }
  }

  // ----- one more device counted

  lemma {:induction false} PowerRemove(dev: map<Str, DeviceState>, s: set<Str>, u: Str)
    requires u in s && s <= dev.Keys
    ensures PowerOf(dev, s) == dev[u].powerMw + PowerOf(dev, s - {u})
  {
    var v :| v in s && PowerOf(dev, s) == dev[v].powerMw + PowerOf(dev, s - {v});
    if u != v {
      PowerRemove(dev, s - {v}, u);
      PowerRemove(dev, s - {u}, v);
      assert s - {v} - {u} == s - {u} - {v};
    }
  }

  lemma AmongAdd(dev: map<Str, DeviceState>, s: set<Str>, u: Str, sel: Selector, zone: u32)
    requires u in dev && u !in s && s <= dev.Keys
    ensures Among(dev, s + {u}, sel, zone)
            == if sel(dev[u]) && dev[u].zoneId == zone then Among(dev, s, sel, zone) + {u} else Among(dev, s, sel, zone)
    ensures u !in Among(dev, s, sel, zone)
  {}

  lemma ZonesAdd(dev: map<Str, DeviceState>, s: set<Str>, u: Str, sel: Selector)
    requires u in dev && u !in s && s <= dev.Keys
    ensures ZonesOf(dev, s + {u}, sel)
            == if sel(dev[u]) && dev[u].zoneId != 0 then ZonesOf(dev, s, sel) + {dev[u].zoneId}
               else ZonesOf(dev, s, sel)
  {}

  lemma PowerAdd(dev: map<Str, DeviceState>, s: set<Str>, u: Str, z: u32)
    requires u in dev && u !in s && s <= dev.Keys
    ensures ZonePowerMw(dev, s + {u}, z)
            == if dev[u].kind == LUMINAIRE && dev[u].zoneId == z
               then ToU32(ZonePowerMw(dev, s, z) + dev[u].powerMw) else ZonePowerMw(dev, s, z)
  {
    AmongAdd(dev, s, u, IsLamp, z);
    var a := Among(dev, s, IsLamp, z);
    if dev[u].kind == LUMINAIRE && dev[u].zoneId == z {
      PowerRemove(dev, a + {u}, u);
      assert a + {u} - {u} == a;
    }
    hide Among, PowerOf;
  }

  lemma NoPower(dev: map<Str, DeviceState>, s: set<Str>, z: u32)
    requires s <= dev.Keys && z != 0 && z !in ZonesOf(dev, s, IsLamp)
    ensures ZonePowerMw(dev, s, z) == 0
  {
    assert Among(dev, s, IsLamp, z) == {};
  }

  lemma PowerStep(dev: map<Str, DeviceState>, s: set<Str>, u: Str)
    requires u in dev && u !in s && s <= dev.Keys
    ensures ZonesOf(dev, s + {u}, IsLamp)
            == if dev[u].kind == LUMINAIRE && dev[u].zoneId != 0
               then ZonesOf(dev, s, IsLamp) + {dev[u].zoneId} else ZonesOf(dev, s, IsLamp)
    ensures forall z: u32 :: ZonePowerMw(dev, s + {u}, z)
              == if dev[u].kind == LUMINAIRE && dev[u].zoneId == z
                 then ToU32(ZonePowerMw(dev, s, z) + dev[u].powerMw) else ZonePowerMw(dev, s, z)
    ensures forall z: u32 :: z != 0 && z !in ZonesOf(dev, s, IsLamp) ==> ZonePowerMw(dev, s, z) == 0
  {
    ZonesAdd(dev, s, u, IsLamp);
    hide ZonePowerMw, ZonesOf, ToU32;
    forall z: u32 {
      PowerAdd(dev, s, u, z);
    }
    forall z: u32 | z != 0 && z !in ZonesOf(dev, s, IsLamp) {
      NoPower(dev, s, z);
    }
  }

  lemma SizeAdd(dev: map<Str, DeviceState>, s: set<Str>, u: Str, sel: Selector, zone: u32)
    requires u in dev && u !in s && s <= dev.Keys
    ensures ToU16(|Among(dev, s + {u}, sel, zone)|)
            == var n := ToU16(|Among(dev, s, sel, zone)|);
               if sel(dev[u]) && dev[u].zoneId == zone then ToU16(n + 1) else n
  {
    AmongAdd(dev, s, u, sel, zone);
  }

  lemma SummaryAdd(dev: map<Str, DeviceState>, s: set<Str>, u: Str, z: u32)
    requires u in dev && u !in s && s <= dev.Keys
    ensures ZoneSummary(dev, s + {u}, z)
            == if dev[u].zoneId == z then Count(ZoneSummary(dev, s, z), dev[u]) else ZoneSummary(dev, s, z)
  {
    hide Among, ToU16;
    SizeAdd(dev, s, u, IsLamp, z);
    SizeAdd(dev, s, u, IsLampOn, z);
    SizeAdd(dev, s, u, IsLampFault, z);
    SizeAdd(dev, s, u, IsSensor, z);
    SizeAdd(dev, s, u, IsSensorFault, z);
  }

  lemma NoneAmong(dev: map<Str, DeviceState>, s: set<Str>, sel: Selector, z: u32)
    requires s <= dev.Keys && z != 0 && z !in ZonesOf(dev, s, Anything)
    ensures Among(dev, s, sel, z) == {}
  {
    assert forall v :: v in s && dev[v].zoneId == z ==> !Anything(dev[v]) || z in ZonesOf(dev, s, Anything);
  }

  lemma SummaryNone(dev: map<Str, DeviceState>, s: set<Str>, z: u32)
    requires s <= dev.Keys && z != 0 && z !in ZonesOf(dev, s, Anything)
    ensures ZoneSummary(dev, s, z) == Proto.ZoneDeviceSummary(z, 0, 0, 0, 0, 0)
  {
    NoneAmong(dev, s, IsLamp, z);
    NoneAmong(dev, s, IsLampOn, z);
    NoneAmong(dev, s, IsLampFault, z);
    NoneAmong(dev, s, IsSensor, z);
    NoneAmong(dev, s, IsSensorFault, z);
  }

  lemma SummaryStep(dev: map<Str, DeviceState>, s: set<Str>, u: Str)
    requires u in dev && u !in s && s <= dev.Keys
    ensures ZonesOf(dev, s + {u}, Anything)
            == if dev[u].zoneId != 0 then ZonesOf(dev, s, Anything) + {dev[u].zoneId} else ZonesOf(dev, s, Anything)
    ensures forall z: u32 :: ZoneSummary(dev, s + {u}, z)
              == if dev[u].zoneId == z then Count(ZoneSummary(dev, s, z), dev[u]) else ZoneSummary(dev, s, z)
    ensures forall z: u32 :: z != 0 && z !in ZonesOf(dev, s, Anything)
              ==> ZoneSummary(dev, s, z) == Proto.ZoneDeviceSummary(z, 0, 0, 0, 0, 0)
  {
    ZonesAdd(dev, s, u, Anything);
    hide ZoneSummary, Count, ZonesOf;
    forall z: u32 {
      SummaryAdd(dev, s, u, z);
    }
    forall z: u32 | z != 0 && z !in ZonesOf(dev, s, Anything) {
      SummaryNone(dev, s, z);
    }
  }
}
