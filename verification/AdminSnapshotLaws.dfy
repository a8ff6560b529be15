/** The snapshot the administrator reads is the store of the central server. */
module AdminSnapshotLaws {
  import opened Basics
  import opened Codec
  import opened Proto
  import opened ProtoLaws
  import opened CentralStore
  import opened AdminSnapshot

  // ----- exactness of each level

  lemma {:induction false} ListExact<T(!new)>(
      get: (seq<u8>, nat) -> Result<(T, nat)>, put: T -> seq<u8>, ok: T -> bool,
      d: seq<u8>, p: nat, xs: seq<T>, q: nat)
    requires Exact(get, put, ok)
    ensures GetList(get, d, p) == Ok((xs, q))
            <==> |xs| <= U16_MAX && (forall x <- xs :: ok(x)) && At(d, p, q, U16Bytes(ToU16(|xs|)) + Flat(put, xs))
  {
    if GetList(get, d, p).Ok? {
      ManyLength(get, d, p + 2, GetU16(d, p).value.0);
    }
    var e := Flat(put, xs);
    AtConcat(d, p, q, U16Bytes(ToU16(|xs|)), e);
    if |xs| <= U16_MAX {
      var n: u16 := |xs|;
      assert At(d, p, p + 2, U16Bytes(n)) ==> p + 2 <= |d|;
      assert GetList(get, d, p) == Ok((xs, q))
             <==> GetU16(d, p) == Ok((n, p + 2)) && Many(get, d, p + 2, n) == Ok((xs, q));
      hide At, GetU16, U16Bytes, Many, GetList, Flat;
      U16Exact(d, p, n, p + 2);
      if p + 2 <= |d| {
        ManyExact(get, put, ok, d, p + 2, n, xs, q);
      }
    }
  }

  predicate ZoneOk(z: ZoneReport) { z.counters.zoneId == z.power.zoneId }

  lemma ZoneExact(d: seq<u8>, p: nat, v: ZoneReport, q: nat)
    ensures GetZone(d, p) == Ok((v, q)) <==> ZoneOk(v) && At(d, p, q, ZoneBytes(v))
  {
    var m := p + 8;
    assert |PowerBytes(v.power)| == 8;
    assert GetZone(d, p) == Ok((v, q))
           <==> ZoneOk(v) && GetPower(d, p) == Ok((v.power, m))
                && GetCounters(d, m, v.counters.zoneId) == Ok((v.counters, q));
    hide GetZone, GetPower, GetCounters, At, PowerBytes, CountersBytes, ZoneOk;
    AtConcat(d, p, q, PowerBytes(v.power), CountersBytes(v.counters));
    PowerExact(d, p, v.power, m);
    CountersExact(d, m, v.counters, q);
  }

  lemma ZonesExact(d: seq<u8>, p: nat, xs: seq<ZoneReport>, q: nat)
    ensures GetList(GetZone, d, p) == Ok((xs, q))
            <==> |xs| <= U16_MAX && (forall z <- xs :: ZoneOk(z)) && At(d, p, q, ZonesBytes(xs))
  {
    forall d: seq<u8>, p: nat, v: ZoneReport, q: nat
      ensures GetZone(d, p) == Ok((v, q)) <==> ZoneOk(v) && At(d, p, q, ZoneBytes(v))
    {
      ZoneExact(d, p, v, q);
    }
    ListExact(GetZone, ZoneBytes, ZoneOk, d, p, xs, q);
  }

  predicate RegionOk(r: RegionReport) { |r.zones| <= U16_MAX && forall z <- r.zones :: ZoneOk(z) }

  lemma RegionExact(d: seq<u8>, p: nat, v: RegionReport, q: nat)
    ensures GetRegion(d, p) == Ok((v, q)) <==> RegionOk(v) && At(d, p, q, RegionBytes(v))
  {
    assert GetRegion(d, p) == Ok((v, q))
           <==> GetU32(d, p) == Ok((v.regionId, p + 4)) && GetU32(d, p + 4) == Ok((v.version, p + 8))
                && GetList(GetZone, d, p + 8) == Ok((v.zones, q));
    assert |U32Bytes(v.regionId)| == 4 && |U32Bytes(v.version)| == 4;
    hide GetRegion, GetU32, GetList, At, U32Bytes, ZonesBytes, ZoneOk;
    AtConcat(d, p, q, U32Bytes(v.regionId), U32Bytes(v.version) + ZonesBytes(v.zones));
    AtConcat(d, p + 4, q, U32Bytes(v.version), ZonesBytes(v.zones));
    U32Exact(d, p, v.regionId, p + 4);
    U32Exact(d, p + 4, v.version, p + 8);
    ZonesExact(d, p + 8, v.zones, q);
  }

  lemma RegionsExact(d: seq<u8>, p: nat, xs: seq<RegionReport>, q: nat)
    ensures GetList(GetRegion, d, p) == Ok((xs, q))
            <==> |xs| <= U16_MAX && (forall r <- xs :: RegionOk(r)) && At(d, p, q, RegionsBytes(xs))
  {
    forall d: seq<u8>, p: nat, v: RegionReport, q: nat
      ensures GetRegion(d, p) == Ok((v, q)) <==> RegionOk(v) && At(d, p, q, RegionBytes(v))
    {
      RegionExact(d, p, v, q);
    }
    ListExact(GetRegion, RegionBytes, RegionOk, d, p, xs, q);
  }

  lemma AlarmsExact(d: seq<u8>, p: nat, xs: seq<Alarm>, q: nat)
    ensures GetList(GetAlarm, d, p) == Ok((xs, q))
            <==> |xs| <= U16_MAX && (forall a <- xs :: ShortAlarm(a)) && At(d, p, q, AlarmsBytes(xs))
  {
    forall d: seq<u8>, p: nat, v: Alarm, q: nat
      ensures GetAlarm(d, p) == Ok((v, q)) <==> ShortAlarm(v) && At(d, p, q, AlarmBytes(v))
    {
      AlarmExact(d, p, v, q);
    }
    ListExact(GetAlarm, AlarmBytes, ShortAlarm, d, p, xs, q);
  }

  // Everything in the snapshot fits its count
  predicate Encodable(s: Snapshot) {
    && |s.regions| <= U16_MAX && (forall r <- s.regions :: RegionOk(r))
    && |s.alarms| <= U16_MAX && (forall a <- s.alarms :: ShortAlarm(a))
  }

  /** Reading the bytes of a snapshot gives the snapshot back exactly when everything in it fits its count. */
  lemma SnapshotRoundTrip(s: Snapshot)
    ensures ParseSnapshot(SnapshotBytes(s)) == Ok(s) <==> Encodable(s)
  {
    var d := SnapshotBytes(s);
    var m := |RegionsBytes(s.regions)|;
    assert |AlarmsBytes(s.alarms)| >= 2 by {
      assert |U16Bytes(ToU16(|s.alarms|))| == 2;
    }
    assert d[0..|d|] == d;
    AtConcat(d, 0, |d|, RegionsBytes(s.regions), AlarmsBytes(s.alarms));
    assert At(d, 0, m, RegionsBytes(s.regions)) && At(d, m, |d|, AlarmsBytes(s.alarms));
    RegionsExact(d, 0, s.regions, m);
    AlarmsExact(d, m, s.alarms, |d|);
    if ParseSnapshot(d) == Ok(s) {
      var p := GetList(GetRegion, d, 0).value.1;
      RegionsExact(d, 0, s.regions, p);
      if p < |d| {
        AlarmsExact(d, p, s.alarms, GetList(GetAlarm, d, p).value.1);
      }
    }
  }

  // ----- reachable stores

  function PushedAlarms(bodies: seq<seq<u8>>): seq<Alarm> {
    if bodies == [] then []
    else
      var b := bodies[|bodies| - 1];
      PushedAlarms(bodies[..|bodies| - 1])
      + if b != [] && b[0] == ALARM_UP && DecodeAlarm(b[1..]).Ok? then [DecodeAlarm(b[1..]).value] else []
  }

  ghost predicate StoreInv(st: Store) {
    && (forall r <- st.regions :: |st.regions[r].zonePowerMw| <= U16_MAX
          && forall z <- st.regions[r].zoneSummary :: st.regions[r].zoneSummary[z].zoneId == z)
    && (forall a <- st.alarms :: ShortAlarm(a))
    && |st.alarms| <= MAX_ALARMS
  }

  lemma {:induction false} PowerMapSize(xs: seq<ZonePower>)
    ensures |PowerMap(xs)| <= |xs|
  {
    if xs != [] {
      PowerMapSize(xs[..|xs| - 1]);
      var m, z := PowerMap(xs[..|xs| - 1]), xs[|xs| - 1];
      assert PowerMap(xs).Keys == m.Keys + {z.zoneId};
      assert |m.Keys + {z.zoneId}| <= |m.Keys| + 1;
    }
  }

  lemma {:induction false} SummaryMapKeys(xs: seq<ZoneDeviceSummary>)
    ensures forall z <- SummaryMap(xs) :: SummaryMap(xs)[z].zoneId == z
  {
    if xs != [] {
      SummaryMapKeys(xs[..|xs| - 1]);
    }
  }

  lemma DecodedAlarmIsShort(d: seq<u8>)
    requires DecodeAlarm(d).Ok?
    ensures ShortAlarm(DecodeAlarm(d).value)
  {
    var r := GetAlarm(d, 0).value;
    AlarmExact(d, 0, r.0, r.1);
  }

  lemma HandleKeeps(st: Store, body: seq<u8>)
    requires StoreInv(st)
    ensures StoreInv(Handle(st, body))
  {
    hide ParseRegionSync, DecodeAlarm;
    if body != [] && body[0] == REGION_SYNC_UP && ParseRegionSync(body[1..]).Ok? {
      var up := ParseRegionSync(body[1..]).value;
      RegionSyncDecodesExactly(body[1..], up);
      PowerMapSize(up.zonePowerSum);
      SummaryMapKeys(up.zoneDeviceSummary);
    }
    if body != [] && body[0] == ALARM_UP && DecodeAlarm(body[1..]).Ok? {
      DecodedAlarmIsShort(body[1..]);
    }
  }

  /** Whatever message bodies arrive, the store keeps counts and strings the snapshot can carry, and its alarms are
      the last 2000 pushed, in order. */
  lemma {:induction false} ReachableStore(bodies: seq<seq<u8>>)
    ensures var st := HandleAll(Store(map[], []), bodies);
            StoreInv(st) && st.alarms == LastAlarms(PushedAlarms(bodies))
  {
    if bodies != [] {
      var init, b := bodies[..|bodies| - 1], bodies[|bodies| - 1];
      var before := HandleAll(Store(map[], []), init);
      ReachableStore(init);
      HandleKeeps(before, b);
      var pushed := PushedAlarms(init);
      var added := if b != [] && b[0] == ALARM_UP && DecodeAlarm(b[1..]).Ok? then [DecodeAlarm(b[1..]).value] else [];
      assert PushedAlarms(bodies) == pushed + added;
      assert HandleAll(Store(map[], []), bodies) == Handle(before, b);
      assert pushed + [] == pushed;
      hide StoreInv, ParseRegionSync, DecodeAlarm, HandleAll, PushedAlarms, LastAlarms;
      if added != [] {
        LastOfLast(pushed, added[0]);
      }
    }
  }

  lemma LastOfLast(xs: seq<Alarm>, a: Alarm)
    ensures LastAlarms(LastAlarms(xs) + [a]) == LastAlarms(xs + [a])
  {}

  lemma ReportIsEncodable(s: Snapshot, st: Store)
    requires Reports(s, st) && StoreInv(st)
    ensures Encodable(s) <==> |st.regions| <= U16_MAX
  {
    ListsSize(RegionKeys(s.regions), st.regions.Keys);
    forall r | r in s.regions
      ensures RegionOk(r)
    {
      ListsSize(ZoneKeys(r.zones), st.regions[r.regionId].zonePowerMw.Keys);
    }
  }

  /** For every store the server can reach, put_str never throws, and the administrator reads every region, every zone
      with a power entry, and exactly the last 2000 alarms, provided there are at most 65535 regions; with more the
      snapshot never reads back. */
  lemma AdminSeesTheStore(bodies: seq<seq<u8>>, s: Snapshot)
    requires Reports(s, HandleAll(Store(map[], []), bodies))
    ensures var st := HandleAll(Store(map[], []), bodies);
            && (ParseSnapshot(SnapshotBytes(s)) == Ok(s) <==> |st.regions| <= U16_MAX)
            && (forall a <- st.alarms :: ShortStr(a.uri) && ShortStr(a.text))
            && s.alarms == LastAlarms(PushedAlarms(bodies))
  {
    ReachableStore(bodies);
    ReportIsEncodable(s, HandleAll(Store(map[], []), bodies));
    SnapshotRoundTrip(s);
    hide ParseSnapshot, SnapshotBytes, Encodable, HandleAll, PushedAlarms;
  }
}
