/** The nested snapshot that central_tls_server.hpp encodes and admin_cli.cpp decodes. */
module AdminSnapshot {
  import opened Basics
  import opened Codec
  import opened Proto
  import opened CentralStore

  datatype ZoneReport = ZoneReport(power: ZonePower, counters: ZoneDeviceSummary)

  datatype RegionReport = RegionReport(regionId: u32, version: u32, zones: seq<ZoneReport>)

  datatype Snapshot = Snapshot(regions: seq<RegionReport>, alarms: seq<Alarm>)

  function ZoneBytes(z: ZoneReport): seq<u8> { PowerBytes(z.power) + CountersBytes(z.counters) }

  function ZonesBytes(zones: seq<ZoneReport>): seq<u8> { U16Bytes(ToU16(|zones|)) + Flat(ZoneBytes, zones) }

  function RegionBytes(r: RegionReport): seq<u8> {
    U32Bytes(r.regionId) + (U32Bytes(r.version) + ZonesBytes(r.zones))
  }

  function RegionsBytes(rs: seq<RegionReport>): seq<u8> { U16Bytes(ToU16(|rs|)) + Flat(RegionBytes, rs) }

  function AlarmsBytes(xs: seq<Alarm>): seq<u8> { U16Bytes(ToU16(|xs|)) + Flat(AlarmBytes, xs) }

  // The counts are cast to u16
  function SnapshotBytes(s: Snapshot): seq<u8> { RegionsBytes(s.regions) + AlarmsBytes(s.alarms) }

  // ----- print_snapshot, returning what it prints

  function GetZone(d: seq<u8>, p: nat): Result<(ZoneReport, nat)> {
    var (power, p) :- GetPower(d, p);
    var (counters, p) :- GetCounters(d, p, power.zoneId);
    Ok((ZoneReport(power, counters), p))
  }

  // A u16 count and that many records
  function GetList<T>(get: (seq<u8>, nat) -> Result<(T, nat)>, d: seq<u8>, p: nat): Result<(seq<T>, nat)> {
    var (n, p) :- GetU16(d, p);
    Many(get, d, p, n)
  }

  function GetRegion(d: seq<u8>, p: nat): Result<(RegionReport, nat)> {
    var (rid, p) :- GetU32(d, p);
    var (version, p) :- GetU32(d, p);
    var (zones, p) :- GetList(GetZone, d, p);
    Ok((RegionReport(rid, version, zones), p))
  }

  function ParseSnapshot(d: seq<u8>): Result<Snapshot> {
    var (regions, p) :- GetList(GetRegion, d, 0);
    if p >= |d| then Ok(Snapshot(regions, []))
    else
      var (alarms, p) :- GetList(GetAlarm, d, p);
      Ok(Snapshot(regions, alarms))
  }

  // The inner loop of print_snapshot
  method ReadZones(d: seq<u8>, start: nat) returns (r: Result<(seq<ZoneReport>, nat)>)
    ensures r == GetList(GetZone, d, start)
  {
    var zones :- GetU16(d, start);
    var xs: seq<ZoneReport> := [];
    var p := zones.1;
    for z := 0 to zones.0
      invariant Many(GetZone, d, zones.1, z) == Ok((xs, p))
    {
      var x := GetZone(d, p);
      if x.Err? {
        ManyStaysErr(GetZone, d, zones.1, z + 1, zones.0);
        return Err(x.error);
      }
      xs := xs + [x.value.0];
      p := x.value.1;
    }
    r := Ok((xs, p));
  }

  method PrintSnapshot(d: seq<u8>) returns (r: Result<Snapshot>)
    ensures r == ParseSnapshot(d)
  {
    var regions :- GetU16(d, 0);
    var rs: seq<RegionReport> := [];
    var p := regions.1;
    for i := 0 to regions.0
      invariant Many(GetRegion, d, regions.1, i) == Ok((rs, p))
    {
      var next := GetRegion(d, p);
      if next.Err? {
        ManyStaysErr(GetRegion, d, regions.1, i + 1, regions.0);
      }
      var rid :- GetU32(d, p);
      var version :- GetU32(d, rid.1);
      var zones := ReadZones(d, version.1);
      if zones.Err? {
        return Err(zones.error);
      }
      rs := rs + [RegionReport(rid.0, version.0, zones.value.0)];
      p := zones.value.1;
    }
    if p >= |d| {
      return Ok(Snapshot(rs, []));
    }
    var count :- GetU16(d, p);
    var alarms: seq<Alarm> := [];
    p := count.1;
    for i := 0 to count.0
      invariant Many(GetAlarm, d, count.1, i) == Ok((alarms, p))
    {
      var x := GetAlarm(d, p);
      if x.Err? {
        ManyStaysErr(GetAlarm, d, count.1, i + 1, count.0);
        return Err(x.error);
      }
      alarms := alarms + [x.value.0];
      p := x.value.1;
    }
    r := Ok(Snapshot(rs, alarms));
  }

  // ----- encode_admin_snapshot

  const NO_COUNTERS := Proto.ZoneDeviceSummary(0, 0, 0, 0, 0, 0)

  // The counters reported for a zone: zeros when the region sent no summary for it
  function ReportedCounters(agg: RegionAggregate, zone: u32): ZoneDeviceSummary {
    (if zone in agg.zoneSummary then agg.zoneSummary[zone] else NO_COUNTERS).(zoneId := zone)
  }

  ghost function ZoneKeys(zones: seq<ZoneReport>): (ks: seq<u32>)
    ensures |ks| == |zones|
  {
    seq(|zones|, i requires 0 <= i < |zones| => zones[i].power.zoneId)
  }

  // zones reports the zones of agg that have a power entry, each once, in some order
  ghost predicate ReportsZones(zones: seq<ZoneReport>, agg: RegionAggregate) {
    && Lists(ZoneKeys(zones), agg.zonePowerMw.Keys)
    && forall z <- zones :: z.power.zoneId in agg.zonePowerMw
                            && z == ZoneReport(ZonePower(z.power.zoneId, agg.zonePowerMw[z.power.zoneId]),
                                               ReportedCounters(agg, z.power.zoneId))
  }

  ghost function RegionKeys(rs: seq<RegionReport>): (ks: seq<u32>)
    ensures |ks| == |rs|
  {
    seq(|rs|, i requires 0 <= i < |rs| => rs[i].regionId)
  }

  ghost predicate ReportsRegions(rs: seq<RegionReport>, regions: map<u32, RegionAggregate>) {
    && Lists(RegionKeys(rs), regions.Keys)
    && forall r <- rs :: r.regionId in regions && r.version == regions[r.regionId].version
                         && ReportsZones(r.zones, regions[r.regionId])
  }

  // s reports every region of the store, in some order, and its alarms
  ghost predicate Reports(s: Snapshot, st: Store) {
    ReportsRegions(s.regions, st.regions) && s.alarms == st.alarms
  }

  method PutZones(b: seq<u8>, agg: RegionAggregate) returns (out: seq<u8>)
    ensures exists zones :: ReportsZones(zones, agg) && out == b + Flat(ZoneBytes, zones)
  {
    out := b;
    ghost var zones: seq<ZoneReport> := [];
    var todo := agg.zonePowerMw.Keys;
    while todo != {}
      invariant todo <= agg.zonePowerMw.Keys
      invariant Lists(ZoneKeys(zones), agg.zonePowerMw.Keys - todo)
      invariant forall z <- zones :: z.power.zoneId in agg.zonePowerMw
                  && z == ZoneReport(ZonePower(z.power.zoneId, agg.zonePowerMw[z.power.zoneId]),
                                     ReportedCounters(agg, z.power.zoneId))
      invariant out == b + Flat(ZoneBytes, zones)
      decreases todo
    {
      var zid :| zid in todo;
      ListsAdd(ZoneKeys(zones), agg.zonePowerMw.Keys - todo, zid);
      assert agg.zonePowerMw.Keys - todo + {zid} == agg.zonePowerMw.Keys - (todo - {zid});
      todo := todo - {zid};
      var power := ZonePower(zid, agg.zonePowerMw[zid]);
      var counters := ReportedCounters(agg, zid);
      ghost var before := out;
      out := PutPower(out, power);
      out := PutCounters(out, counters);
      ghost var z := ZoneReport(power, counters);
      Assoc(before, PowerBytes(power), CountersBytes(counters));
      assert ZoneKeys(zones + [z]) == ZoneKeys(zones) + [zid];
      FlatAdd(ZoneBytes, zones, z, b);
      zones := zones + [z];
    }
    assert ReportsZones(zones, agg);
  }

  method PutRegions(b: seq<u8>, regions: map<u32, RegionAggregate>) returns (out: seq<u8>)
    ensures exists rs :: ReportsRegions(rs, regions) && out == b + Flat(RegionBytes, rs)
  {
    hide Flat, ReportsZones, RegionBytes, U32Bytes, U16Bytes, ZoneBytes;
    out := b;
    ghost var rs: seq<RegionReport> := [];
    FlatEmpty(RegionBytes, rs, b);
    var todo := regions.Keys;
    while todo != {}
      invariant todo <= regions.Keys
      invariant Lists(RegionKeys(rs), regions.Keys - todo)
      invariant forall r <- rs :: r.regionId in regions && r.version == regions[r.regionId].version
                  && ReportsZones(r.zones, regions[r.regionId])
      invariant out == b + Flat(RegionBytes, rs)
      decreases todo
    {
      var rid :| rid in todo;
      ListsAdd(RegionKeys(rs), regions.Keys - todo, rid);
      assert regions.Keys - todo + {rid} == regions.Keys - (todo - {rid});
      todo := todo - {rid};
      var agg := regions[rid];
      ghost var before := out;
      out := out + U32Bytes(rid);
      out := out + U32Bytes(agg.version);
      out := out + U16Bytes(ToU16(|agg.zonePowerMw|));
      ghost var head := out;
      out := PutZones(out, agg);
      ghost var zones :| ReportsZones(zones, agg) && out == head + Flat(ZoneBytes, zones);
      ZonesCounted(zones, agg);
      ghost var r := RegionReport(rid, agg.version, zones);
      RegionAppended(before, r, head, out);
      assert RegionKeys(rs + [r]) == RegionKeys(rs) + [rid];
      FlatAdd(RegionBytes, rs, r, b);
      rs := rs + [r];
    }
    assert ReportsRegions(rs, regions);
  }

  lemma ZonesCounted(zones: seq<ZoneReport>, agg: RegionAggregate)
    requires ReportsZones(zones, agg)
    ensures |zones| == |agg.zonePowerMw|
  {
    ListsSize(ZoneKeys(zones), agg.zonePowerMw.Keys);
  }

  lemma RegionAppended(before: seq<u8>, r: RegionReport, head: seq<u8>, out: seq<u8>)
    requires head == before + U32Bytes(r.regionId) + U32Bytes(r.version) + U16Bytes(ToU16(|r.zones|))
    requires out == head + Flat(ZoneBytes, r.zones)
    ensures out == before + RegionBytes(r)
  {}

  // Throws when a string is too long for put_str
  method PutAlarms(b: seq<u8>, alarms: seq<Alarm>) returns (r: Result<seq<u8>>)
    ensures r == if forall a <- alarms :: ShortStr(a.uri) && ShortStr(a.text) then Ok(b + Flat(AlarmBytes, alarms))
                 else Err(StringTooLong)
  {
    hide Flat, AlarmBytes;
    var out := b;
    assert b == b + Flat(AlarmBytes, alarms[..0]) by {
      FlatEmpty(AlarmBytes, alarms[..0], b);
    }
    for i := 0 to |alarms|
      invariant forall a <- alarms[..i] :: ShortStr(a.uri) && ShortStr(a.text)
      invariant out == b + Flat(AlarmBytes, alarms[..i])
    {
      var a := alarms[i];
      assert alarms[..i + 1] == alarms[..i] + [a];
      var bytes := EncodeAlarm(a);
      if bytes.Err? {
        assert a in alarms;
        return Err(StringTooLong);
      }
      FlatAdd(AlarmBytes, alarms[..i], a, b);
      out := out + bytes.value;
    }
    assert alarms[..|alarms|] == alarms;
    r := Ok(out);
  }

  lemma RegionsCounted(rs: seq<RegionReport>, regions: map<u32, RegionAggregate>)
    requires ReportsRegions(rs, regions)
    ensures |rs| == |regions|
  {
    ListsSize(RegionKeys(rs), regions.Keys);
  }

  method EncodeAdminSnapshot(st: Central) returns (r: Result<seq<u8>>)
    ensures if forall a <- st.alarms :: ShortStr(a.uri) && ShortStr(a.text)
            then exists s :: Reports(s, st.View()) && r == Ok(SnapshotBytes(s))
            else r == Err(StringTooLong)
  {
    hide Flat, U16Bytes, ReportsRegions;
    var out := U16Bytes(ToU16(|st.regions|));
    ghost var head := out;
    out := PutRegions(out, st.regions);
    ghost var rs :| ReportsRegions(rs, st.regions) && out == head + Flat(RegionBytes, rs);
    RegionsCounted(rs, st.regions);
    ghost var s := Snapshot(rs, st.alarms);
    assert Reports(s, st.View());
    assert out == RegionsBytes(rs);
    out := out + U16Bytes(ToU16(|st.alarms|));
    Assoc(RegionsBytes(rs), U16Bytes(ToU16(|st.alarms|)), Flat(AlarmBytes, st.alarms));
    hide RegionsBytes;
    r := PutAlarms(out, st.alarms);
  }

  lemma FlatEmpty<T>(put: T -> seq<u8>, xs: seq<T>, head: seq<u8>)
    requires xs == []
    ensures head == head + Flat(put, xs)
  {}

  lemma FlatAdd<T>(put: T -> seq<u8>, xs: seq<T>, x: T, head: seq<u8>)
    ensures head + Flat(put, xs) + put(x) == head + Flat(put, xs + [x])
  {
    assert (xs + [x])[..|xs|] == xs;
    Assoc(head, Flat(put, xs), put(x));
  }

  lemma {:induction false} ListsSize<T>(s: seq<T>, m: set<T>)
    requires Lists(s, m)
    ensures |s| == |m|
  {
    if s == [] {
      assert m == {};
    } else {
      var init, x := s[..|s| - 1], s[|s| - 1];
      assert s == init + [x] && x !in init;
      forall y
        ensures y in Elems(init) <==> y in m - {x}
      {
        assert y in s <==> y in init || y == x;
        assert y in m <==> y in Elems(s);
      }
      assert Elems(init) == m - {x};
      ListsSize(init, m - {x});
    }
  }
}
