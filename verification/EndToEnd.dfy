/** From the registries of the regions to what the administrator reads. */
module EndToEnd {
  import opened Basics
  import opened Proto
  import opened Framing
  import opened DeviceRegistry
  import opened CentralStore
  import opened AdminSnapshot
  import opened AdminSnapshotLaws
  import opened SyncNet
  import RegionSpec
  import PowerLaws
  import SyncChain

  // The whole run of one regional server
  datatype Source = Source(start: u64, timeoutMs: u64, inputs: seq<RegionSpec.Input>)

  // Its registry after n inputs
  function RegistryAfter(src: Source, n: nat): map<Str, DeviceState>
    requires n <= |src.inputs|
  {
    RegionSpec.After(src.start, src.timeoutMs, src.inputs[..n]).reg.dev
  }

  // The two lists are the aggregations of one of its registry states
  ghost predicate Aggregates(src: Source, n: nat, power: seq<ZonePower>, summary: seq<ZoneDeviceSummary>) {
    n <= |src.inputs| && IsPowerSum(RegistryAfter(src, n), power) && IsSummary(RegistryAfter(src, n), summary)
  }

  ghost predicate Real(sources: map<u32, Source>, id: u32, power: seq<ZonePower>, summary: seq<ZoneDeviceSummary>) {
    id in sources && exists n :: Aggregates(sources[id], n, power, summary)
  }

  // Every payload after the first is taken from one registry state of its region
  ghost predicate FromRegions(sources: map<u32, Source>, run: seq<Act>) {
    && (forall id <- sources ::
          RegionSpec.Possible(sources[id].start, sources[id].timeoutMs, sources[id].inputs))
    && forall i :: 0 <= i < |run| ==> Takes(sources, run[i])
  }

  ghost predicate Takes(sources: map<u32, Source>, a: Act) {
    a.Complete? && a.op.TimerWait? ==> Real(sources, a.regionId, a.power, a.summary)
  }

  ghost predicate RealLogs(sources: map<u32, Source>, w: World) {
    forall id <- w.chains :: RealLog(sources, id, w.chains[id].log)
  }

  ghost predicate RealLog(sources: map<u32, Source>, id: u32, log: seq<RegionSyncUp>) {
    forall i :: 0 <= i < |log| ==> Real(sources, id, log[i].zonePowerSum, log[i].zoneDeviceSummary)
  }

  // The first payload is empty, as the registry is at boot
  lemma FirstIsReal(sources: map<u32, Source>, id: u32)
    requires id in sources
    ensures Real(sources, id, [], [])
  {
    var src := sources[id];
    assert src.inputs[..0] == [] && RegistryAfter(src, 0) == map[];
    assert Aggregates(src, 0, [], []);
  }

  lemma RealStep(sources: map<u32, Source>, w: World, a: Act)
    requires RealLogs(sources, w) && Takes(sources, a)
    ensures RealLogs(sources, Step(w, a))
  {
    hide Receive, Acknowledged, Real, Handle;
    if a.Complete? && a.regionId in w.chains {
      var id, c := a.regionId, w.chains[a.regionId];
      assert RealLog(sources, id, c.log);
      ChainGrows(c, a.op, a.ok, a.power, a.summary);
      assert RealLog(sources, id, SyncChain.Complete(c, a.op, a.ok, a.power, a.summary).log);
      hide SyncChain.Complete, RealLog;
    }
  }

  lemma ChainGrows(c: SyncChain.Chain, op: SyncChain.Operation, ok: bool, power: seq<ZonePower>,
                   summary: seq<ZoneDeviceSummary>)
    ensures var log := SyncChain.Complete(c, op, ok, power, summary).log;
            || log == c.log
            || (op.TimerWait? && |log| == |c.log| + 1 && log[..|c.log|] == c.log
                && log[|c.log|].zonePowerSum == power && log[|c.log|].zoneDeviceSummary == summary)
  {}

  lemma {:induction false} RealHolds(sources: map<u32, Source>, ids: set<u32>, run: seq<Act>)
    requires ids <= sources.Keys && FromRegions(sources, run)
    ensures RealLogs(sources, After(ids, run))
  {
    hide Real, Step;
    if run == [] {
      forall id | id in ids
        ensures RealLog(sources, id, SyncChain.Start(id).log)
      {
        FirstIsReal(sources, id);
      }
    } else {
      var init := run[..|run| - 1];
      assert forall i :: 0 <= i < |init| ==> init[i] == run[i];
      RealHolds(sources, ids, init);
      RealStep(sources, After(ids, init), run[|run| - 1]);
    }
  }

  // ----- the central server's store is made by the messages it gets

  function BodiesOf(a: Act): seq<seq<u8>> {
    match a
    case Deliver(s) => Deframe(FrameBytes(SyncFrame(s.up))).bodies
    case Other(body) => [body]
    case _ => []
  }

  function AllBodies(run: seq<Act>): seq<seq<u8>> {
    if run == [] then [] else AllBodies(run[..|run| - 1]) + BodiesOf(run[|run| - 1])
  }

  lemma {:induction false} HandleAllJoins(st: Store, a: seq<seq<u8>>, b: seq<seq<u8>>)
    ensures HandleAll(st, a + b) == HandleAll(HandleAll(st, a), b)
  {
    hide Handle;
    if b == [] {
      assert a + b == a;
    } else {
      assert (a + b)[..|a + b| - 1] == a + b[..|b| - 1];
      HandleAllJoins(st, a, b[..|b| - 1]);
    }
  }

  lemma StepHandles(w: World, a: Act)
    ensures Step(w, a).central == HandleAll(w.central, BodiesOf(a))
  {
    hide Handle, Deframe, FrameBytes, SyncChain.Complete;
    if a.Other? {
      assert [] + [a.body] == [a.body];
      HandleNone(w.central);
      HandleOneMore(w.central, [], a.body);
      hide HandleAll;
    }
  }

  lemma {:induction false} CentralHandles(ids: set<u32>, run: seq<Act>)
    ensures After(ids, run).central == HandleAll(Store(map[], []), AllBodies(run))
  {
    hide Step, HandleAll, BodiesOf;
    if run == [] {
      HandleNone(Store(map[], []));
    } else {
      var init, a := run[..|run| - 1], run[|run| - 1];
      CentralHandles(ids, init);
      StepHandles(After(ids, init), a);
      HandleAllJoins(Store(map[], []), AllBodies(init), BodiesOf(a));
    }
  }

  // ----- the result

  // The report of a region shows the aggregation of a registry
  ghost predicate ShowsRegistry(report: RegionReport, dev: map<Str, DeviceState>) {
    && (forall z: u32 :: z in ZoneKeys(report.zones) <==> z in ZonesOf(dev, dev.Keys, IsLamp))
    && forall r <- report.zones :: r.power == ZonePower(r.power.zoneId, ZonePowerMw(dev, dev.Keys, r.power.zoneId))
                                   && r.counters == ZoneSummary(dev, dev.Keys, r.power.zoneId)
  }

  lemma LampZonesHaveDevices(dev: map<Str, DeviceState>, z: u32)
    requires z in ZonesOf(dev, dev.Keys, IsLamp)
    ensures z in ZonesOf(dev, dev.Keys, Anything)
  {
    var u :| u in dev && IsLamp(dev[u]) && dev[u].zoneId == z;
    assert Anything(dev[u]);
  }

  lemma ReportShows(report: RegionReport, up: RegionSyncUp, dev: map<Str, DeviceState>)
    requires IsPowerSum(dev, up.zonePowerSum) && IsSummary(dev, up.zoneDeviceSummary)
    requires ReportsZones(report.zones, Image(up))
    ensures ShowsRegistry(report, dev)
  {
    PowerLaws.StoredImageIsTheAggregation(dev, up);
    hide IsPowerSum, IsSummary, Image, ZonePowerMw, ZoneSummary, ZonesOf;
    var agg := Image(up);
    forall z: u32
      ensures z in ZoneKeys(report.zones) <==> z in ZonesOf(dev, dev.Keys, IsLamp)
    {
      assert z in ZoneKeys(report.zones) <==> z in Elems(ZoneKeys(report.zones));
    }
    forall r | r in report.zones
      ensures r.power == ZonePower(r.power.zoneId, ZonePowerMw(dev, dev.Keys, r.power.zoneId))
      ensures r.counters == ZoneSummary(dev, dev.Keys, r.power.zoneId)
    {
      LampZonesHaveDevices(dev, r.power.zoneId);
    }
  }

  /** With any number of regions, each a run of its own, and any loss, delay and reordering: what the administrator
      reads for a region, version aside, is the aggregation of one registry state that the region was in - every zone
      with a lamp, its power and its counters - provided there are at most 65535 regions. */
  lemma AdministratorReadsAggregation(sources: map<u32, Source>, ids: set<u32>, run: seq<Act>, s: Snapshot,
                                      report: RegionReport)
    requires Possible(ids, run) && ids <= sources.Keys && FromRegions(sources, run)
    requires Reports(s, After(ids, run).central) && |After(ids, run).central.regions| <= U16_MAX
    requires report in s.regions
    ensures ParseSnapshot(SnapshotBytes(s)) == Ok(s)
    ensures report.regionId in sources
    ensures exists n: nat :: n <= |sources[report.regionId].inputs|
                             && ShowsRegistry(report, RegistryAfter(sources[report.regionId], n))
  {
    var w, id := After(ids, run), report.regionId;
    CentralHandles(ids, run);
    hide After, Possible, FromRegions, ParseSnapshot, SnapshotBytes, HandleAll, AllBodies, ShowsRegistry;
    AdminSeesTheStore(AllBodies(run), s);
    CentralIsNeverTorn(ids, run, id);
    RealHolds(sources, ids, run);
    var log := w.chains[id].log;
    var i :| 0 <= i < |log| && w.central.regions[id] == Image(log[i]);
    assert RealLog(sources, id, log);
    var n :| Aggregates(sources[id], n, log[i].zonePowerSum, log[i].zoneDeviceSummary);
    ReportShows(report, log[i], RegistryAfter(sources[id], n));
  }
}
