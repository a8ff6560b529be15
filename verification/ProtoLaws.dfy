/** What the encoders and decoders of proto.hpp promise each other. */
module ProtoLaws {
  import opened Basics
  import opened Codec
  import opened Proto

  // ----- records

  lemma PowerExact(d: seq<u8>, p: nat, v: ZonePower, q: nat)
    ensures GetPower(d, p) == Ok((v, q)) <==> At(d, p, q, PowerBytes(v))
  {
    AtConcat(d, p, q, U32Bytes(v.zoneId), U32Bytes(v.powerMw));
    U32Exact(d, p, v.zoneId, p + 4);
    U32Exact(d, p + 4, v.powerMw, q);
  }

  lemma CountersExact(d: seq<u8>, p: nat, v: ZoneDeviceSummary, q: nat)
    ensures GetCounters(d, p, v.zoneId) == Ok((v, q)) <==> At(d, p, q, CountersBytes(v))
  {
    var e4 := U16Bytes(v.sensorTotal) + U16Bytes(v.sensorFault);
    var e3 := U16Bytes(v.lampFault) + e4;
    AtConcat(d, p, q, U16Bytes(v.lampTotal), U16Bytes(v.lampOn) + e3);
    AtConcat(d, p + 2, q, U16Bytes(v.lampOn), e3);
    AtConcat(d, p + 4, q, U16Bytes(v.lampFault), e4);
    AtConcat(d, p + 6, q, U16Bytes(v.sensorTotal), U16Bytes(v.sensorFault));
    U16Exact(d, p, v.lampTotal, p + 2);
    U16Exact(d, p + 2, v.lampOn, p + 4);
    U16Exact(d, p + 4, v.lampFault, p + 6);
    U16Exact(d, p + 6, v.sensorTotal, p + 8);
    U16Exact(d, p + 8, v.sensorFault, q);
  }

  lemma SummaryExact(d: seq<u8>, p: nat, v: ZoneDeviceSummary, q: nat)
    ensures GetSummary(d, p) == Ok((v, q)) <==> At(d, p, q, SummaryBytes(v))
  {
    AtConcat(d, p, q, U32Bytes(v.zoneId), CountersBytes(v));
    U32Exact(d, p, v.zoneId, p + 4);
    CountersExact(d, p + 4, v, q);
  }

  // The strings of an alarm are short enough for their u16 lengths
  predicate ShortAlarm(a: Alarm) { ShortStr(a.uri) && ShortStr(a.text) }

  lemma AlarmAt(d: seq<u8>, p: nat, v: Alarm, m: nat, q: nat)
    requires m == p + 14 + |StrBytes(v.uri)|
    ensures At(d, p, q, AlarmBytes(v))
            <==> At(d, p, p + 4, U32Bytes(v.regionId)) && At(d, p + 4, p + 8, U32Bytes(v.tsUnix))
                 && At(d, p + 8, p + 9, [v.deviceType]) && At(d, p + 9, p + 13, U32Bytes(v.zoneId))
                 && At(d, p + 13, p + 14, [v.code]) && At(d, p + 14, m, StrBytes(v.uri))
                 && At(d, m, q, StrBytes(v.text))
  {
    hide At, StrBytes;
    var e5 := StrBytes(v.uri) + StrBytes(v.text);
    var e4 := [v.code] + e5;
    var e3 := U32Bytes(v.zoneId) + e4;
    var e2 := [v.deviceType] + e3;
    AtConcat(d, p, q, U32Bytes(v.regionId), U32Bytes(v.tsUnix) + e2);
    AtConcat(d, p + 4, q, U32Bytes(v.tsUnix), e2);
    AtConcat(d, p + 8, q, [v.deviceType], e3);
    AtConcat(d, p + 9, q, U32Bytes(v.zoneId), e4);
    AtConcat(d, p + 13, q, [v.code], e5);
    AtConcat(d, p + 14, q, StrBytes(v.uri), StrBytes(v.text));
  }

  lemma AlarmGets(d: seq<u8>, p: nat, v: Alarm, m: nat, q: nat)
    requires m == p + 14 + |StrBytes(v.uri)|
    ensures GetAlarm(d, p) == Ok((v, q))
            <==> GetU32(d, p) == Ok((v.regionId, p + 4)) && GetU32(d, p + 4) == Ok((v.tsUnix, p + 8))
                 && GetU8(d, p + 8) == Ok((v.deviceType, p + 9)) && GetU32(d, p + 9) == Ok((v.zoneId, p + 13))
                 && GetU8(d, p + 13) == Ok((v.code, p + 14)) && GetStr(d, p + 14) == Ok((v.uri, m))
                 && GetStr(d, m) == Ok((v.text, q))
  {
    if GetStr(d, p + 14).Ok? {
      assert GetStr(d, p + 14).value.1 == p + 16 + |GetStr(d, p + 14).value.0|;
    }
  }

  lemma AlarmExact(d: seq<u8>, p: nat, v: Alarm, q: nat)
    ensures GetAlarm(d, p) == Ok((v, q)) <==> ShortAlarm(v) && At(d, p, q, AlarmBytes(v))
  {
    var m := p + 14 + |StrBytes(v.uri)|;
    AlarmAt(d, p, v, m, q);
    AlarmGets(d, p, v, m, q);
    assert ShortAlarm(v) <==> ShortStr(v.uri) && ShortStr(v.text);
    hide *;
    U32Exact(d, p, v.regionId, p + 4);
    U32Exact(d, p + 4, v.tsUnix, p + 8);
    U8Exact(d, p + 8, v.deviceType, p + 9);
    U32Exact(d, p + 9, v.zoneId, p + 13);
    U8Exact(d, p + 13, v.code, p + 14);
    StrExact(d, p + 14, v.uri, m);
    StrExact(d, m, v.text, q);
  }

  // ----- small messages: a decoder accepts exactly the encodings, followed by anything

  lemma StatusGets(d: seq<u8>, v: StatusReport, m: nat)
    requires m == |StrBytes(v.uri)|
    ensures DecodeStatus(d) == Ok(v)
            <==> GetStr(d, 0) == Ok((v.uri, m)) && GetU32(d, m) == Ok((v.zoneId, m + 4))
                 && GetU8(d, m + 4) == Ok((v.on, m + 5)) && GetU8(d, m + 5) == Ok((v.intensity, m + 6))
                 && GetU32(d, m + 6) == Ok((v.powerMw, m + 10))
  {}

  lemma StatusAt(d: seq<u8>, v: StatusReport, m: nat)
    requires m == |StrBytes(v.uri)|
    ensures StatusBytes(v) <= d
            <==> At(d, 0, m, StrBytes(v.uri)) && At(d, m, m + 4, U32Bytes(v.zoneId))
                 && At(d, m + 4, m + 5, [v.on]) && At(d, m + 5, m + 6, [v.intensity])
                 && At(d, m + 6, m + 10, U32Bytes(v.powerMw))
  {
    var e2 := [v.intensity] + U32Bytes(v.powerMw);
    PrefixAt(d, StatusBytes(v));
    AtConcat(d, 0, m + 10, StrBytes(v.uri), U32Bytes(v.zoneId) + ([v.on] + e2));
    AtConcat(d, m, m + 10, U32Bytes(v.zoneId), [v.on] + e2);
    AtConcat(d, m + 4, m + 10, [v.on], e2);
    AtConcat(d, m + 5, m + 10, [v.intensity], U32Bytes(v.powerMw));
  }

  lemma StatusExact(d: seq<u8>, v: StatusReport)
    ensures DecodeStatus(d) == Ok(v) <==> ShortStr(v.uri) && StatusBytes(v) <= d
  {
    var m := |StrBytes(v.uri)|;
    StatusGets(d, v, m);
    StatusAt(d, v, m);
    hide *;
    StrExact(d, 0, v.uri, m);
    U32Exact(d, m, v.zoneId, m + 4);
    U8Exact(d, m + 4, v.on, m + 5);
    U8Exact(d, m + 5, v.intensity, m + 6);
    U32Exact(d, m + 6, v.powerMw, m + 10);
  }

  lemma CommandExact(d: seq<u8>, v: Command)
    ensures DecodeCommand(d) == Ok(v) <==> ShortStr(v.uri) && CommandBytes(v) <= d
  {
    var m := |StrBytes(v.uri)|;
    PrefixAt(d, CommandBytes(v));
    AtConcat(d, 0, m + 2, StrBytes(v.uri), [v.cmd] + [v.value]);
    AtConcat(d, m, m + 2, [v.cmd], [v.value]);
    assert DecodeCommand(d) == Ok(v) <==> GetStr(d, 0) == Ok((v.uri, m)) && GetU8(d, m) == Ok((v.cmd, m + 1))
                                          && GetU8(d, m + 1) == Ok((v.value, m + 2));
    hide GetStr, GetU8, At, DecodeCommand;
    StrExact(d, 0, v.uri, m);
    U8Exact(d, m, v.cmd, m + 1);
    U8Exact(d, m + 1, v.value, m + 2);
  }

  lemma FaultGets(d: seq<u8>, v: FaultReport, m: nat, q: nat)
    requires m == |StrBytes(v.uri)| && q == m + 5 + |StrBytes(v.text)|
    ensures DecodeFault(d) == Ok(v)
            <==> GetStr(d, 0) == Ok((v.uri, m)) && GetU32(d, m) == Ok((v.zoneId, m + 4))
                 && GetU8(d, m + 4) == Ok((v.code, m + 5)) && GetStr(d, m + 5) == Ok((v.text, q))
  {}

  lemma FaultAt(d: seq<u8>, v: FaultReport, m: nat, q: nat)
    requires m == |StrBytes(v.uri)| && q == m + 5 + |StrBytes(v.text)|
    ensures FaultBytes(v) <= d
            <==> At(d, 0, m, StrBytes(v.uri)) && At(d, m, m + 4, U32Bytes(v.zoneId))
                 && At(d, m + 4, m + 5, [v.code]) && At(d, m + 5, q, StrBytes(v.text))
  {
    PrefixAt(d, FaultBytes(v));
    AtConcat(d, 0, q, StrBytes(v.uri), U32Bytes(v.zoneId) + ([v.code] + StrBytes(v.text)));
    AtConcat(d, m, q, U32Bytes(v.zoneId), [v.code] + StrBytes(v.text));
    AtConcat(d, m + 4, q, [v.code], StrBytes(v.text));
  }

  lemma FaultExact(d: seq<u8>, v: FaultReport)
    ensures DecodeFault(d) == Ok(v) <==> ShortStr(v.uri) && ShortStr(v.text) && FaultBytes(v) <= d
  {
    var m := |StrBytes(v.uri)|;
    var q := m + 5 + |StrBytes(v.text)|;
    FaultGets(d, v, m, q);
    FaultAt(d, v, m, q);
    hide *;
    StrExact(d, 0, v.uri, m);
    U32Exact(d, m, v.zoneId, m + 4);
    U8Exact(d, m + 4, v.code, m + 5);
    StrExact(d, m + 5, v.text, q);
  }

  lemma RegisterReqExact(d: seq<u8>, v: RegisterReq)
    ensures DecodeRegisterReq(d) == Ok(v) <==> ShortStr(v.uri) && RegisterReqBytes(v) <= d
  {
    var m := 1 + |StrBytes(v.uri)|;
    PrefixAt(d, RegisterReqBytes(v));
    AtConcat(d, 0, m + 4, [v.kind], StrBytes(v.uri) + U32Bytes(v.zoneId));
    AtConcat(d, 1, m + 4, StrBytes(v.uri), U32Bytes(v.zoneId));
    assert DecodeRegisterReq(d) == Ok(v) <==> GetU8(d, 0) == Ok((v.kind, 1)) && GetStr(d, 1) == Ok((v.uri, m))
                                              && GetU32(d, m) == Ok((v.zoneId, m + 4));
    hide GetStr, GetU8, GetU32, At, DecodeRegisterReq;
    U8Exact(d, 0, v.kind, 1);
    StrExact(d, 1, v.uri, m);
    U32Exact(d, m, v.zoneId, m + 4);
  }

  lemma PrefixAt(d: seq<u8>, e: seq<u8>)
    ensures e <= d <==> At(d, 0, |e|, e)
  {}

  // ----- the region synchronisation message

  // Both lists fit their u16 counts
  predicate Counted(s: RegionSyncUp) {
    |s.zonePowerSum| <= U16_MAX && |s.zoneDeviceSummary| <= U16_MAX
  }

  lemma PowersExact(d: seq<u8>, p: nat, n: nat, xs: seq<ZonePower>, q: nat)
    requires p <= |d|
    ensures Many(GetPower, d, p, n) == Ok((xs, q)) <==> |xs| == n && At(d, p, q, Flat(PowerBytes, xs))
  {
    forall d: seq<u8>, p: nat, v: ZonePower, q: nat
      ensures GetPower(d, p) == Ok((v, q)) <==> At(d, p, q, PowerBytes(v))
    {
      PowerExact(d, p, v, q);
    }
    ManyExact(GetPower, PowerBytes, (z: ZonePower) => true, d, p, n, xs, q);
  }

  lemma SummariesExact(d: seq<u8>, p: nat, n: nat, xs: seq<ZoneDeviceSummary>, q: nat)
    requires p <= |d|
    ensures Many(GetSummary, d, p, n) == Ok((xs, q)) <==> |xs| == n && At(d, p, q, Flat(SummaryBytes, xs))
  {
    forall d: seq<u8>, p: nat, v: ZoneDeviceSummary, q: nat
      ensures GetSummary(d, p) == Ok((v, q)) <==> At(d, p, q, SummaryBytes(v))
    {
      SummaryExact(d, p, v, q);
    }
    ManyExact(GetSummary, SummaryBytes, (z: ZoneDeviceSummary) => true, d, p, n, xs, q);
  }

  // The part read before the "p >= e" test
  function ParseHead(d: seq<u8>): Result<(RegionSyncUp, nat)> {
    var (region, p) :- GetU32(d, 0);
    var (version, p) :- GetU32(d, p);
    var (cnt, p) :- GetU16(d, p);
    var (powers, p) :- Many(GetPower, d, p, cnt);
    Ok((RegionSyncUp(region, version, powers, []), p))
  }

  lemma HeadGets(d: seq<u8>, s: RegionSyncUp, q: nat)
    ensures ParseHead(d) == Ok((s.(zoneDeviceSummary := []), q))
            <==> |s.zonePowerSum| <= U16_MAX
                 && GetU32(d, 0) == Ok((s.regionId, 4)) && GetU32(d, 4) == Ok((s.version, 8))
                 && GetU16(d, 8) == Ok((|s.zonePowerSum|, 10))
                 && Many(GetPower, d, 10, |s.zonePowerSum|) == Ok((s.zonePowerSum, q))
  {
    if ParseHead(d).Ok? {
      ManyLength(GetPower, d, 10, GetU16(d, 8).value.0);
    }
  }

  lemma HeadAt(d: seq<u8>, s: RegionSyncUp, q: nat)
    ensures At(d, 0, q, LegacyBytes(s))
            <==> At(d, 0, 4, U32Bytes(s.regionId)) && At(d, 4, 8, U32Bytes(s.version))
                 && At(d, 8, 10, U16Bytes(ToU16(|s.zonePowerSum|)))
                 && At(d, 10, q, Flat(PowerBytes, s.zonePowerSum))
  {
    var e3 := U16Bytes(ToU16(|s.zonePowerSum|)) + Flat(PowerBytes, s.zonePowerSum);
    AtConcat(d, 0, q, U32Bytes(s.regionId), U32Bytes(s.version) + e3);
    AtConcat(d, 4, q, U32Bytes(s.version), e3);
    AtConcat(d, 8, q, U16Bytes(ToU16(|s.zonePowerSum|)), Flat(PowerBytes, s.zonePowerSum));
  }

  lemma HeadExact(d: seq<u8>, s: RegionSyncUp, q: nat)
    ensures ParseHead(d) == Ok((s.(zoneDeviceSummary := []), q))
            <==> |s.zonePowerSum| <= U16_MAX && At(d, 0, q, LegacyBytes(s))
  {
    HeadAt(d, s, q);
    if |s.zonePowerSum| <= U16_MAX {
      var n: u16 := |s.zonePowerSum|;
      assert ToU16(|s.zonePowerSum|) == n;
      assert At(d, 8, 10, U16Bytes(n)) ==> 10 <= |d|;
      hide *;
      HeadGets(d, s, q);
      U32Exact(d, 0, s.regionId, 4);
      U32Exact(d, 4, s.version, 8);
      U16Exact(d, 8, n, 10);
      if 10 <= |d| {
        PowersExact(d, 10, n, s.zonePowerSum, q);
      }
    } else {
      hide *;
      HeadGets(d, s, q);
    }
  }

  // The part read after it
  function ParseTail(d: seq<u8>, p: nat): Result<(seq<ZoneDeviceSummary>, nat)> {
    var (scnt, p) :- GetU16(d, p);
    Many(GetSummary, d, p, scnt)
  }

  function TailBytes(xs: seq<ZoneDeviceSummary>): seq<u8> { U16Bytes(ToU16(|xs|)) + Flat(SummaryBytes, xs) }

  lemma TailGets(d: seq<u8>, p: nat, xs: seq<ZoneDeviceSummary>, q: nat)
    ensures ParseTail(d, p) == Ok((xs, q))
            <==> |xs| <= U16_MAX && GetU16(d, p) == Ok((|xs|, p + 2))
                 && Many(GetSummary, d, p + 2, |xs|) == Ok((xs, q))
  {
    if ParseTail(d, p).Ok? {
      ManyLength(GetSummary, d, p + 2, GetU16(d, p).value.0);
    }
  }

  lemma TailExact(d: seq<u8>, p: nat, xs: seq<ZoneDeviceSummary>, q: nat)
    ensures ParseTail(d, p) == Ok((xs, q)) <==> |xs| <= U16_MAX && At(d, p, q, TailBytes(xs))
  {
    if |xs| <= U16_MAX {
      var n: u16 := |xs|;
      var e := Flat(SummaryBytes, xs);
      assert TailBytes(xs) == U16Bytes(n) + e;
      assert At(d, p, p + 2, U16Bytes(n)) ==> p + 2 <= |d|;
      hide *;
      TailGets(d, p, xs, q);
      AtConcat(d, p, q, U16Bytes(n), e);
      U16Exact(d, p, n, p + 2);
      if p + 2 <= |d| {
        SummariesExact(d, p + 2, n, xs, q);
      }
    } else {
      hide *;
      TailGets(d, p, xs, q);
    }
  }

  lemma ParseSplits(d: seq<u8>)
    ensures ParseRegionSync(d) == (
              var (head, p) :- ParseHead(d);
              if p >= |d| then Ok(head)
              else
                var (xs, p) :- ParseTail(d, p);
                Ok(head.(zoneDeviceSummary := xs)))
  {}

  /** The decoder is characterised completely: it returns s exactly on the encoding of s followed by anything,
      and on the short form of a message without summaries followed by nothing. */
  lemma RegionSyncDecodesExactly(d: seq<u8>, s: RegionSyncUp)
    ensures ParseRegionSync(d) == Ok(s)
            <==> Counted(s) && (RegionSyncBytes(s) <= d || (s.zoneDeviceSummary == [] && d == LegacyBytes(s)))
  {
    var q, end := |LegacyBytes(s)|, |RegionSyncBytes(s)|;
    ParseSplits(d);
    HeadExact(d, s, q);
    TailExact(d, q, s.zoneDeviceSummary, end);
    AtConcat(d, 0, end, LegacyBytes(s), TailBytes(s.zoneDeviceSummary));
    PrefixAt(d, RegionSyncBytes(s));
    assert d[0..|d|] == d;
    if ParseRegionSync(d) == Ok(s) {
      var p := ParseHead(d).value.1;
      HeadExact(d, s, p);
      if p < |d| {
        TailExact(d, q, s.zoneDeviceSummary, ParseTail(d, q).value.1);
      }
    }
  }

  /** Round trip with anything after the encoding: it holds exactly when both lists fit their counts. */
  lemma RegionSyncRoundTrip(s: RegionSyncUp, trailing: seq<u8>)
    ensures ParseRegionSync(RegionSyncBytes(s) + trailing) == Ok(s) <==> Counted(s)
  {
    RegionSyncDecodesExactly(RegionSyncBytes(s) + trailing, s);
  }

  lemma LegacyLength(s: RegionSyncUp)
    ensures |LegacyBytes(s)| == 10 + 8 * |s.zonePowerSum|
    ensures |RegionSyncBytes(s)| == 12 + 8 * |s.zonePowerSum| + 14 * |s.zoneDeviceSummary|
  {
    FlatLength(PowerBytes, s.zonePowerSum, 8);
    FlatLength(SummaryBytes, s.zoneDeviceSummary, 14);
  }

  /** A truncated encoding is rejected, except when it is cut right after the power list:
      that one reads as the same message without summaries. */
  lemma RegionSyncPrefix(s: RegionSyncUp, k: nat)
    requires Counted(s) && k < |RegionSyncBytes(s)|
    ensures var r := ParseRegionSync(RegionSyncBytes(s)[..k]);
            if k == 10 + 8 * |s.zonePowerSum| then r == Ok(s.(zoneDeviceSummary := [])) else r.Err?
  {
    var d := RegionSyncBytes(s);
    var cut := s.(zoneDeviceSummary := []);
    LegacyLength(s);
    LegacyLength(cut);
    if k == 10 + 8 * |s.zonePowerSum| {
      assert d[..k] == LegacyBytes(cut);
      RegionSyncDecodesExactly(d[..k], cut);
    } else if ParseRegionSync(d[..k]).Ok? {
      var t := ParseRegionSync(d[..k]).value;
      RegionSyncDecodesExactly(d[..k], t);
      RegionSyncDecodesExactly(d, t);
      RegionSyncDecodesExactly(d, s);
      LegacyLength(t);
      if d[..k] == LegacyBytes(t) {
        SameCount(s, t, d);
      }
    }
  }

  lemma SameCount(s: RegionSyncUp, t: RegionSyncUp, d: seq<u8>)
    requires |s.zonePowerSum| <= U16_MAX && |t.zonePowerSum| <= U16_MAX
    requires LegacyBytes(s) <= d && LegacyBytes(t) <= d
    ensures |s.zonePowerSum| == |t.zonePowerSum|
  {
    PrefixAt(d, LegacyBytes(s));
    PrefixAt(d, LegacyBytes(t));
    HeadExact(d, s, |LegacyBytes(s)|);
    HeadExact(d, t, |LegacyBytes(t)|);
  }
}
