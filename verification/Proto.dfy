/** The messages of proto.hpp with their encoders and decoders. */
module Proto {
  import opened Basics
  import opened Codec

  const REGISTER_REQ: u8 := 1
  const REGISTER_ACK: u8 := 2
  const REGISTER_NACK: u8 := 3
  const STATUS_REPORT: u8 := 4
  const CMD: u8 := 5
  const FAULT_REPORT: u8 := 6
  const FAULT_ACK: u8 := 7
  const REGION_SYNC_UP: u8 := 20
  const REGION_SYNC_ACK: u8 := 21
  const ALARM_UP: u8 := 22
  const ALARM_ACK: u8 := 23
  const ADMIN_SNAPSHOT_REQ: u8 := 40
  const ADMIN_SNAPSHOT_ACK: u8 := 41

  // DeviceType is cast from the wire byte unchecked: every byte that is not LUMINAIRE acts as a sensor
  const LUMINAIRE: u8 := 1
  const SENSOR: u8 := 2

  datatype RegisterReq = RegisterReq(kind: u8, uri: Str, zoneId: u32)

  datatype StatusReport = StatusReport(uri: Str, zoneId: u32, on: u8, intensity: u8, powerMw: u32)

  datatype Command = Command(uri: Str, cmd: u8, value: u8)

  datatype FaultReport = FaultReport(uri: Str, zoneId: u32, code: u8, text: Str)

  datatype ZoneDeviceSummary = ZoneDeviceSummary(
    zoneId: u32, lampTotal: u16, lampOn: u16, lampFault: u16, sensorTotal: u16, sensorFault: u16)

  datatype ZonePower = ZonePower(zoneId: u32, powerMw: u32)

  datatype RegionSyncUp = RegionSyncUp(
    regionId: u32, version: u32, zonePowerSum: seq<ZonePower>, zoneDeviceSummary: seq<ZoneDeviceSummary>)

  // AlarmUp on the wire, AlarmRecord in the central store
  datatype Alarm = Alarm(regionId: u32, tsUnix: u32, deviceType: u8, zoneId: u32, code: u8, uri: Str, text: Str)

  // ----- the bytes of each message

  function RegisterReqBytes(r: RegisterReq): seq<u8> {
    [r.kind] + (StrBytes(r.uri) + U32Bytes(r.zoneId))
  }

  function StatusBytes(s: StatusReport): seq<u8> {
    StrBytes(s.uri) + (U32Bytes(s.zoneId) + ([s.on] + ([s.intensity] + U32Bytes(s.powerMw))))
  }

  function CommandBytes(c: Command): seq<u8> {
    StrBytes(c.uri) + ([c.cmd] + [c.value])
  }

  function FaultBytes(f: FaultReport): seq<u8> {
    StrBytes(f.uri) + (U32Bytes(f.zoneId) + ([f.code] + StrBytes(f.text)))
  }

  function AlarmBytes(a: Alarm): seq<u8> {
    U32Bytes(a.regionId) + (U32Bytes(a.tsUnix) + ([a.deviceType] + (U32Bytes(a.zoneId) + ([a.code]
    + (StrBytes(a.uri) + StrBytes(a.text))))))
  }

  function PowerBytes(z: ZonePower): seq<u8> { U32Bytes(z.zoneId) + U32Bytes(z.powerMw) }

  // The five u16 counters, in the order both the sync payload and the admin snapshot use
  function CountersBytes(z: ZoneDeviceSummary): seq<u8> {
    U16Bytes(z.lampTotal) + (U16Bytes(z.lampOn) + (U16Bytes(z.lampFault)
    + (U16Bytes(z.sensorTotal) + U16Bytes(z.sensorFault))))
  }

  function SummaryBytes(z: ZoneDeviceSummary): seq<u8> { U32Bytes(z.zoneId) + CountersBytes(z) }

  // The counts are cast to u16, so a longer list is announced modulo 65536
  function LegacyBytes(s: RegionSyncUp): seq<u8> {
    U32Bytes(s.regionId) + (U32Bytes(s.version)
    + (U16Bytes(ToU16(|s.zonePowerSum|)) + Flat(PowerBytes, s.zonePowerSum)))
  }

  function RegionSyncBytes(s: RegionSyncUp): seq<u8> {
    LegacyBytes(s) + (U16Bytes(ToU16(|s.zoneDeviceSummary|)) + Flat(SummaryBytes, s.zoneDeviceSummary))
  }

  // ----- encoders that can throw

  function EncodeCommand(c: Command): Result<seq<u8>> {
    if ShortStr(c.uri) then Ok(CommandBytes(c)) else Err(StringTooLong)
  }

  function EncodeAlarm(a: Alarm): Result<seq<u8>> {
    if ShortStr(a.uri) && ShortStr(a.text) then Ok(AlarmBytes(a)) else Err(StringTooLong)
  }

  // ----- decoders

  function DecodeRegisterReq(d: seq<u8>): Result<RegisterReq> {
    var (kind, p) :- GetU8(d, 0);
    var (uri, p) :- GetStr(d, p);
    var (zone, p) :- GetU32(d, p);
    Ok(RegisterReq(kind, uri, zone))
  }

  function DecodeStatus(d: seq<u8>): Result<StatusReport> {
    var (uri, p) :- GetStr(d, 0);
    var (zone, p) :- GetU32(d, p);
    var (on, p) :- GetU8(d, p);
    var (intensity, p) :- GetU8(d, p);
    var (power, p) :- GetU32(d, p);
    Ok(StatusReport(uri, zone, on, intensity, power))
  }

  function DecodeCommand(d: seq<u8>): Result<Command> {
    var (uri, p) :- GetStr(d, 0);
    var (cmd, p) :- GetU8(d, p);
    var (value, p) :- GetU8(d, p);
    Ok(Command(uri, cmd, value))
  }

  function DecodeFault(d: seq<u8>): Result<FaultReport> {
    var (uri, p) :- GetStr(d, 0);
    var (zone, p) :- GetU32(d, p);
    var (code, p) :- GetU8(d, p);
    var (text, p) :- GetStr(d, p);
    Ok(FaultReport(uri, zone, code, text))
  }

  function GetAlarm(d: seq<u8>, p: nat): Result<(Alarm, nat)> {
    var (region, p) :- GetU32(d, p);
    var (ts, p) :- GetU32(d, p);
    var (kind, p) :- GetU8(d, p);
    var (zone, p) :- GetU32(d, p);
    var (code, p) :- GetU8(d, p);
    var (uri, p) :- GetStr(d, p);
    var (text, p) :- GetStr(d, p);
    Ok((Alarm(region, ts, kind, zone, code, uri, text), p))
  }

  function DecodeAlarm(d: seq<u8>): Result<Alarm> {
    var (a, p) :- GetAlarm(d, 0);
    Ok(a)
  }

  function GetPower(d: seq<u8>, p: nat): Result<(ZonePower, nat)> {
    var (z, p) :- GetU32(d, p);
    var (pw, p) :- GetU32(d, p);
    Ok((ZonePower(z, pw), p))
  }

  function GetCounters(d: seq<u8>, p: nat, zone: u32): Result<(ZoneDeviceSummary, nat)> {
    var (lampTotal, p) :- GetU16(d, p);
    var (lampOn, p) :- GetU16(d, p);
    var (lampFault, p) :- GetU16(d, p);
    var (sensorTotal, p) :- GetU16(d, p);
    var (sensorFault, p) :- GetU16(d, p);
    Ok((ZoneDeviceSummary(zone, lampTotal, lampOn, lampFault, sensorTotal, sensorFault), p))
  }

  function GetSummary(d: seq<u8>, p: nat): Result<(ZoneDeviceSummary, nat)> {
    var (zone, p) :- GetU32(d, p);
    GetCounters(d, p, zone)
  }

  // What decode_region_sync_up returns; the method below runs its loops
  function ParseRegionSync(d: seq<u8>): Result<RegionSyncUp> {
    var (region, p) :- GetU32(d, 0);
    var (version, p) :- GetU32(d, p);
    var (cnt, p) :- GetU16(d, p);
    var (powers, p) :- Many(GetPower, d, p, cnt);
    if p >= |d| then Ok(RegionSyncUp(region, version, powers, []))
    else
      var (scnt, p) :- GetU16(d, p);
      var (summaries, p) :- Many(GetSummary, d, p, scnt);
      Ok(RegionSyncUp(region, version, powers, summaries))
  }

  method PutPower(b: seq<u8>, z: ZonePower) returns (out: seq<u8>)
    ensures out == b + PowerBytes(z)
  {
    out := b + U32Bytes(z.zoneId);
    out := out + U32Bytes(z.powerMw);
  }

  method PutCounters(b: seq<u8>, z: ZoneDeviceSummary) returns (out: seq<u8>)
    ensures out == b + CountersBytes(z)
  {
    out := b + U16Bytes(z.lampTotal);
    out := out + U16Bytes(z.lampOn);
    out := out + U16Bytes(z.lampFault);
    out := out + U16Bytes(z.sensorTotal);
    out := out + U16Bytes(z.sensorFault);
  }

  method EncodeRegionSync(s: RegionSyncUp) returns (b: seq<u8>)
    ensures b == RegionSyncBytes(s)
  {
    hide U32Bytes, U16Bytes, ToU16, CountersBytes;
    b := U32Bytes(s.regionId);
    b := b + U32Bytes(s.version);
    b := b + U16Bytes(ToU16(|s.zonePowerSum|));
    ghost var head := b;
    for i := 0 to |s.zonePowerSum|
      invariant b == head + Flat(PowerBytes, s.zonePowerSum[..i])
    {
      FlatStep(PowerBytes, s.zonePowerSum, i, head);
      b := PutPower(b, s.zonePowerSum[i]);
    }
    assert s.zonePowerSum[..|s.zonePowerSum|] == s.zonePowerSum;
    assert b == LegacyBytes(s);
    b := b + U16Bytes(ToU16(|s.zoneDeviceSummary|));
    ghost var mid := b;
    for i := 0 to |s.zoneDeviceSummary|
      invariant b == mid + Flat(SummaryBytes, s.zoneDeviceSummary[..i])
    {
      FlatStep(SummaryBytes, s.zoneDeviceSummary, i, mid);
      ghost var before := b;
      b := b + U32Bytes(s.zoneDeviceSummary[i].zoneId);
      b := PutCounters(b, s.zoneDeviceSummary[i]);
      Assoc(before, U32Bytes(s.zoneDeviceSummary[i].zoneId), CountersBytes(s.zoneDeviceSummary[i]));
    }
    assert s.zoneDeviceSummary[..|s.zoneDeviceSummary|] == s.zoneDeviceSummary;
  }

  method DecodeRegionSync(d: seq<u8>) returns (r: Result<RegionSyncUp>)
    ensures r == ParseRegionSync(d)
  {
    var region :- GetU32(d, 0);
    var version :- GetU32(d, region.1);
    var cnt :- GetU16(d, version.1);
    var s := RegionSyncUp(region.0, version.0, [], []);
    var p := cnt.1;
    for i := 0 to cnt.0
      invariant s == RegionSyncUp(region.0, version.0, s.zonePowerSum, [])
      invariant Many(GetPower, d, cnt.1, i) == Ok((s.zonePowerSum, p))
    {
      var z := GetPower(d, p);
      if z.Err? {
        ManyStaysErr(GetPower, d, cnt.1, i + 1, cnt.0);
        return Err(z.error);
      }
      s := s.(zonePowerSum := s.zonePowerSum + [z.value.0]);
      p := z.value.1;
    }
    if p >= |d| {
      return Ok(s);
    }
    ghost var powers := s.zonePowerSum;
    var scnt :- GetU16(d, p);
    p := scnt.1;
    for i := 0 to scnt.0
      invariant s == RegionSyncUp(region.0, version.0, powers, s.zoneDeviceSummary)
      invariant Many(GetSummary, d, scnt.1, i) == Ok((s.zoneDeviceSummary, p))
    {
      var z := GetSummary(d, p);
      if z.Err? {
        ManyStaysErr(GetSummary, d, scnt.1, i + 1, scnt.0);
        return Err(z.error);
      }
      s := s.(zoneDeviceSummary := s.zoneDeviceSummary + [z.value.0]);
      p := z.value.1;
    }
    r := Ok(s);
  }
}
