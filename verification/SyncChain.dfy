/** region_sync_client.hpp: the chain of completion handlers that sends one synchronisation after the other. */
module SyncChain {
  import opened Basics
  import opened Proto

  // An asynchronous operation whose handler has not run; up is what the lambda captures
  datatype Operation =
    | TimerWait
    | Resolve(up: RegionSyncUp)
    | Connect(up: RegionSyncUp)
    | Handshake(up: RegionSyncUp)
    | WriteFrame(up: RegionSyncUp)
    | ReadHeader(up: RegionSyncUp)
    | ReadBody(up: RegionSyncUp)

  // Operations started on sock_
  predicate UsesSocket(op: Operation) { !op.TimerWait? && !op.Resolve? }

  datatype Chain = Chain(
    regionId: u32, version: u32,
    pending: multiset<Operation>,   // every operation outstanding
    log: seq<RegionSyncUp>,         // history: the payloads prepared
    failed: bool)                   // history: some stage has failed

  // ++version_ and the payload; sock_ is replaced and resolving starts. version_ wraps like any uint32_t.
  function DoSyncOnce(c: Chain, power: seq<ZonePower>, summary: seq<ZoneDeviceSummary>): Chain {
    var up := RegionSyncUp(c.regionId, ToU32(c.version + 1), power, summary);
    c.(version := up.version, log := c.log + [up], pending := c.pending + multiset{Resolve(up)})
  }

  function ScheduleTick(c: Chain): Chain { c.(pending := c.pending + multiset{TimerWait}) }

  // The operation that a handler without error starts
  function Next(op: Operation): Operation
    requires !op.TimerWait?
  {
    match op
    case Resolve(up) => Connect(up)
    case Connect(up) => Handshake(up)
    case Handshake(up) => WriteFrame(up)
    case WriteFrame(up) => ReadHeader(up)
    case ReadHeader(up) => ReadBody(up)
    case ReadBody(_) => TimerWait
  }

  // The handler of op; power and summary are what the registry returns if it prepares a payload
  function Complete(c: Chain, op: Operation, ok: bool, power: seq<ZonePower>, summary: seq<ZoneDeviceSummary>): Chain {
    var c := c.(pending := c.pending - multiset{op});
    if op.TimerWait? then (if ok then DoSyncOnce(c, power, summary) else c)
    else if !ok then ScheduleTick(c.(failed := true))
    else c.(pending := c.pending + multiset{Next(op)})
  }

  // start(true), before any device has registered
  function Start(regionId: u32): Chain {
    DoSyncOnce(Chain(regionId, 0, multiset{}, [], false), [], [])
  }
}
