/** central_store.hpp and the message handling of central_tls_server.hpp. */
module CentralStore {
  import opened Basics
  import opened Codec
  import opened Proto
  import opened Framing

  const MAX_ALARMS := 2000

  datatype RegionAggregate = RegionAggregate(
    version: u32, zonePowerMw: map<u32, u32>, zoneSummary: map<u32, ZoneDeviceSummary>)

  datatype Store = Store(regions: map<u32, RegionAggregate>, alarms: seq<Alarm>)

  // ----- what the operations do; in a list a later entry for the same zone wins

  function PowerMap(xs: seq<ZonePower>): map<u32, u32> {
    if xs == [] then map[]
    else PowerMap(xs[..|xs| - 1])[xs[|xs| - 1].zoneId := xs[|xs| - 1].powerMw]
  }

  function SummaryMap(xs: seq<ZoneDeviceSummary>): map<u32, ZoneDeviceSummary> {
    if xs == [] then map[]
    else SummaryMap(xs[..|xs| - 1])[xs[|xs| - 1].zoneId := xs[|xs| - 1]]
  }

  // How the store shows one synchronisation message
  function Image(up: RegionSyncUp): RegionAggregate {
    RegionAggregate(up.version, PowerMap(up.zonePowerSum), SummaryMap(up.zoneDeviceSummary))
  }

  function LastAlarms(xs: seq<Alarm>): seq<Alarm> {
    if |xs| > MAX_ALARMS then xs[|xs| - MAX_ALARMS..] else xs
  }

  function Handle(st: Store, body: seq<u8>): Store {
    if body == [] then st
    else if body[0] == REGION_SYNC_UP then
      match ParseRegionSync(body[1..])
      case Ok(up) => st.(regions := st.regions[up.regionId := Image(up)])
      case Err(_) => st
    else if body[0] == ALARM_UP then
      match DecodeAlarm(body[1..])
      case Ok(a) => st.(alarms := LastAlarms(st.alarms + [a]))
      case Err(_) => st
    else st
  }

  // The acknowledgements sent for one message; the answer to a snapshot request is encoded in AdminSnapshot
  function Acks(body: seq<u8>): seq<Frame> {
    if body == [] then []
    else if body[0] == REGION_SYNC_UP then
      match ParseRegionSync(body[1..])
      case Ok(up) => [Frame(REGION_SYNC_ACK, U32Bytes(up.regionId) + U32Bytes(up.version) + [1])]
      case Err(_) => []
    else if body[0] == ALARM_UP then
      match DecodeAlarm(body[1..])
      case Ok(a) => [Frame(ALARM_ACK, U32Bytes(a.regionId) + U32Bytes(a.tsUnix) + [1])]
      case Err(_) => []
    else []
  }

  function HandleAll(st: Store, bodies: seq<seq<u8>>): Store {
    if bodies == [] then st else Handle(HandleAll(st, bodies[..|bodies| - 1]), bodies[|bodies| - 1])
  }

  // ----- the classes

  class Central {
    var regions: map<u32, RegionAggregate>
    var alarms: seq<Alarm>

    ghost function View(): Store
      reads this
    {
      Store(regions, alarms)
    }

    constructor ()
      ensures View() == Store(map[], [])
    {
      regions := map[];
      alarms := [];
    }

    method UpsertRegion(up: RegionSyncUp)
      modifies this`regions
      ensures regions == old(regions)[up.regionId := Image(up)]
    {
      var agg := if up.regionId in regions then regions[up.regionId] else RegionAggregate(0, map[], map[]);
      agg := agg.(version := up.version);
      agg := agg.(zonePowerMw := map[]);
      for i := 0 to |up.zonePowerSum|
        invariant agg == RegionAggregate(up.version, PowerMap(up.zonePowerSum[..i]), agg.zoneSummary)
      {
        assert up.zonePowerSum[..i + 1][..i] == up.zonePowerSum[..i];
        var zp := up.zonePowerSum[i];
        agg := agg.(zonePowerMw := agg.zonePowerMw[zp.zoneId := zp.powerMw]);
      }
      assert up.zonePowerSum[..|up.zonePowerSum|] == up.zonePowerSum;
      agg := agg.(zoneSummary := map[]);
      for i := 0 to |up.zoneDeviceSummary|
        invariant agg == RegionAggregate(up.version, PowerMap(up.zonePowerSum),
                                         SummaryMap(up.zoneDeviceSummary[..i]))
      {
        assert up.zoneDeviceSummary[..i + 1][..i] == up.zoneDeviceSummary[..i];
        var zs := up.zoneDeviceSummary[i];
        agg := agg.(zoneSummary := agg.zoneSummary[zs.zoneId := zs]);
      }
      assert up.zoneDeviceSummary[..|up.zoneDeviceSummary|] == up.zoneDeviceSummary;
      regions := regions[up.regionId := agg];
    }

    method PushAlarm(a: Alarm)
      modifies this`alarms
      ensures alarms == LastAlarms(old(alarms) + [a])
    {
      alarms := alarms + [a];
      if |alarms| > MAX_ALARMS {
        alarms := alarms[|alarms| - MAX_ALARMS..];
      }
    }
  }

  lemma HandleNone(st: Store)
    ensures HandleAll(st, []) == st
  {}

  lemma HandleOneMore(st: Store, bodies: seq<seq<u8>>, body: seq<u8>)
    ensures HandleAll(st, bodies + [body]) == Handle(HandleAll(st, bodies), body)
  {
    assert (bodies + [body])[..|bodies|] == bodies;
  }
}
