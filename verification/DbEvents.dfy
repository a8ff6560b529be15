/** The events of db.hpp that the servers hand to the database thread, without time stamps and the region's own id. */
module DbEvents {
  import opened Basics
  import opened Proto

  datatype DbEvent =
    | DeviceUpsertEvent(uri: Str, kind: u8, zoneId: u32, fault: bool, on: u8, intensity: u8, powerMw: u32)
    | LampStatusEvent(uri: Str, zoneId: u32, on: u8, intensity: u8, powerMw: u32)
    | FaultEvent(uri: Str, zoneId: u32, code: u8, text: Str)
    | RegionSyncEvent(regionId: u32, version: u32, zonePowerSum: seq<ZonePower>)

  // The type column: 1 for a lamp, 2 for anything else
  function KindColumn(kind: u8): u8 { if kind == LUMINAIRE then 1 else 2 }
}
