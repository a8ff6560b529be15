/** region_sync_client.hpp: the client whose handlers change the chain as the functions of SyncChain say. */
module RegionSync {
  import opened Basics
  import opened Proto
  import opened DeviceRegistry
  import opened SyncChain
  import Spec = SyncChain

  class RegionSyncClient {
    const reg: Registry
    const regionId: u32
    var version: u32
    var pending: multiset<Operation>
    ghost var log: seq<RegionSyncUp>
    ghost var failed: bool

    ghost function View(): Chain
      reads this
    {
      Chain(regionId, version, pending, log, failed)
    }

    constructor (reg: Registry, regionId: u32)
      ensures View() == Chain(regionId, 0, multiset{}, [], false) && this.reg == reg
    {
      this.reg, this.regionId := reg, regionId;
      version, pending, log, failed := 0, multiset{}, [], false;
    }

    method ScheduleTick()
      modifies this`pending
      ensures View() == Spec.ScheduleTick(old(View()))
    {
      pending := pending + multiset{TimerWait};
    }

    method DoSyncOnce() returns (power: seq<ZonePower>, summary: seq<ZoneDeviceSummary>)
      modifies this
      ensures View() == Spec.DoSyncOnce(old(View()), power, summary)
      ensures IsPowerSum(reg.dev, power) && IsSummary(reg.dev, summary)
    {
      version := ToU32(version + 1);
      power := reg.ZonePowerSum();
      summary := reg.ZoneDeviceSummary();
      var up := RegionSyncUp(regionId, version, power, summary);
      log := log + [up];
      pending := pending + multiset{Resolve(up)};
    }

    // One completion handler
    method Complete(op: Operation, ok: bool) returns (power: seq<ZonePower>, summary: seq<ZoneDeviceSummary>)
      requires op in pending
      modifies this
      ensures View() == Spec.Complete(old(View()), op, ok, power, summary)
      ensures op.TimerWait? && ok ==> IsPowerSum(reg.dev, power) && IsSummary(reg.dev, summary)
    {
      hide IsPowerSum, IsSummary, ToU32;
      power, summary := [], [];
      pending := pending - multiset{op};
      if op.TimerWait? {
        if ok {
          power, summary := DoSyncOnce();
        }
        return;
      }
      if !ok {
        failed := true;
        ScheduleTick();
        return;
      }
      match op {
        case Resolve(up) => pending := pending + multiset{Connect(up)};
        case Connect(up) => pending := pending + multiset{Handshake(up)};
        case Handshake(up) => pending := pending + multiset{WriteFrame(up)};
        case WriteFrame(up) => pending := pending + multiset{ReadHeader(up)};
        case ReadHeader(up) => pending := pending + multiset{ReadBody(up)};
        case ReadBody(_) => ScheduleTick();
      }
    }
  }
}
