/** Any number of regions synchronising with the central server over a network that loses, delays and reorders. */
module SyncNet {
  import opened Basics
  import opened Codec
  import opened Proto
  import opened ProtoLaws
  import opened Framing
  import opened CentralStore
  import opened SyncChain

  // A synchronisation frame on its own connection
  datatype Sent = Sent(regionId: u32, up: RegionSyncUp)

  datatype World = World(
    chains: map<u32, Chain>,   // one regional server for each region id
    net: set<Sent>,            // frames sent and neither received nor lost
    acked: set<Sent>,          // frames the central server has acknowledged
    central: Store)

  datatype Act =
    | Complete(regionId: u32, op: Operation, ok: bool, power: seq<ZonePower>, summary: seq<ZoneDeviceSummary>)
    | Deliver(s: Sent)
    | Lose(s: Sent)
    | Other(body: seq<u8>)     // any other message to the central server

  function SyncFrame(up: RegionSyncUp): Frame { Frame(REGION_SYNC_UP, RegionSyncBytes(up)) }

  // What the central server makes of the connection that carries the frame
  function Receive(st: Store, up: RegionSyncUp): Store {
    HandleAll(st, Deframe(FrameBytes(SyncFrame(up))).bodies)
  }

  predicate Acknowledged(up: RegionSyncUp) {
    var r := Deframe(FrameBytes(SyncFrame(up)));
    |r.bodies| > 0 && Acks(r.bodies[0]) != []
  }

  /**
   A handler runs when its operation is outstanding. Payloads have at most 65535 zones in each list and versions do
   not wrap. An acknowledgement can be read once the central server has sent it.
   */
  ghost predicate Enabled(w: World, a: Act) {
    match a
    case Complete(id, op, ok, power, summary) =>
      && id in w.chains && op in w.chains[id].pending
      && (op.TimerWait? ==> ok && w.chains[id].version < 0xFFFF_FFFF && |power| <= U16_MAX && |summary| <= U16_MAX)
      && (op.ReadHeader? && ok ==> Sent(id, op.up) in w.acked)
    case Deliver(s) => s in w.net
    case Lose(s) => s in w.net
    case Other(body) => body == [] || body[0] != REGION_SYNC_UP
  }

  function Step(w: World, a: Act): World {
    match a
    case Complete(id, op, ok, power, summary) =>
      if id !in w.chains then w
      else
        var w := w.(chains := w.chains[id := SyncChain.Complete(w.chains[id], op, ok, power, summary)]);
        // send_sync hands the frame to async_write
        if op.Handshake? && ok then w.(net := w.net + {Sent(id, op.up)}) else w
    case Deliver(s) =>
      w.(net := w.net - {s}, central := Receive(w.central, s.up),
         acked := if Acknowledged(s.up) then w.acked + {s} else w.acked)
    case Lose(s) => w.(net := w.net - {s})
    case Other(body) => w.(central := Handle(w.central, body))
  }

  function Boot(ids: set<u32>): World {
    World(map id | id in ids :: Start(id), {}, {}, Store(map[], []))
  }

  function After(ids: set<u32>, run: seq<Act>): World {
    if run == [] then Boot(ids) else Step(After(ids, run[..|run| - 1]), run[|run| - 1])
  }

  ghost predicate Possible(ids: set<u32>, run: seq<Act>) {
    forall i :: 0 <= i < |run| ==> Enabled(After(ids, run[..i]), run[i])
  }

  // ----- one frame at the central server

  lemma FrameSize(up: RegionSyncUp)
    requires Counted(up)
    ensures 1 + |RegionSyncBytes(up)| == 13 + 8 * |up.zonePowerSum| + 14 * |up.zoneDeviceSummary|
    ensures 1 + |RegionSyncBytes(up)| < 0x1_0000_0000
  {
    LegacyLength(up);
  }

  lemma DecodesItself(up: RegionSyncUp)
    requires Counted(up)
    ensures ParseRegionSync(RegionSyncBytes(up)) == Ok(up)
  {
    RegionSyncRoundTrip(up, []);
    assert RegionSyncBytes(up) + [] == RegionSyncBytes(up);
  }

  /** The central server shows a payload exactly, and acknowledges it, when its frame is at most MAX_BODY long,
      13 + 8n + 14m bytes for n power and m summary entries; otherwise it drops the frame. */
  lemma ReceiveShowsPayload(st: Store, up: RegionSyncUp)
    requires Counted(up)
    ensures if 13 + 8 * |up.zonePowerSum| + 14 * |up.zoneDeviceSummary| <= MAX_BODY
            then Receive(st, up) == st.(regions := st.regions[up.regionId := Image(up)]) && Acknowledged(up)
            else Receive(st, up) == st && !Acknowledged(up)
  {
    FrameSize(up);
    DecodesItself(up);
    var f := SyncFrame(up);
    DeliveredIffFits(f, []);
    assert FrameBytes(f) + [] == FrameBytes(f);
    assert Deframe([]).bodies == [];
    hide Deframe, FrameBytes, ParseRegionSync, RegionSyncBytes, Image;
    HandleNone(st);
    var body := f.Body();
    assert body[1..] == f.payload && body[0] == REGION_SYNC_UP;
    if Fits(f) {
      assert [] + [body] == [body];
      HandleOneMore(st, [], body);
    }
  }

  // ----- invariants

  // Payload number i of a chain has version i + 1
  ghost predicate ChainInv(c: Chain) {
    && |c.pending| == 1
    && c.version == |c.log| && c.log != []
    && (forall i :: 0 <= i < |c.log| ==>
          c.log[i].version == i + 1 && c.log[i].regionId == c.regionId && Counted(c.log[i]))
    && (forall op <- c.pending :: !op.TimerWait? ==> op.up == c.log[|c.log| - 1])
  }

  ghost predicate Prepared(c: Chain, up: RegionSyncUp) {
    1 <= up.version <= |c.log| && c.log[up.version - 1] == up
  }

  ghost predicate NetInv(w: World) {
    && (forall id <- w.chains :: w.chains[id].regionId == id && ChainInv(w.chains[id]))
    && (forall s <- w.net + w.acked :: s.regionId in w.chains && s.up.regionId == s.regionId
                                       && Prepared(w.chains[s.regionId], s.up))
  }

  // agg is the image of the payload with its version
  ghost predicate Shows(c: Chain, agg: RegionAggregate) {
    1 <= agg.version <= |c.log| && agg == Image(c.log[agg.version - 1])
  }

  ghost predicate Untorn(w: World) {
    forall id <- w.central.regions :: id in w.chains && Shows(w.chains[id], w.central.regions[id])
  }

  lemma Singleton<T>(m: multiset<T>, x: T)
    requires |m| == 1 && x in m
    ensures m == multiset{x} && m - multiset{x} == multiset{}
  {
    assert |m - multiset{x}| == 0;
    assert m == (m - multiset{x}) + multiset{x};
  }

  lemma ChainStep(c: Chain, op: Operation, ok: bool, power: seq<ZonePower>, summary: seq<ZoneDeviceSummary>)
    requires ChainInv(c) && op in c.pending
    requires op.TimerWait? ==> ok && c.version < 0xFFFF_FFFF && |power| <= U16_MAX && |summary| <= U16_MAX
    ensures ChainInv(SyncChain.Complete(c, op, ok, power, summary))
    ensures c.log <= SyncChain.Complete(c, op, ok, power, summary).log
  {
    Singleton(c.pending, op);
    var b := SyncChain.Complete(c, op, ok, power, summary);
    assert c.pending - multiset{op} + multiset{TimerWait} == multiset{TimerWait};
    if op.TimerWait? {
      var up := b.log[|b.log| - 1];
      assert b.pending == multiset{Resolve(up)};
    }
  }

  lemma PreparedKept(c: Chain, b: Chain, up: RegionSyncUp)
    requires Prepared(c, up) && c.log <= b.log
    ensures Prepared(b, up)
  {}

  lemma NetStep(w: World, a: Act)
    requires NetInv(w) && Enabled(w, a)
    ensures NetInv(Step(w, a))
    ensures forall id <- w.chains :: id in Step(w, a).chains && w.chains[id].log <= Step(w, a).chains[id].log
  {
    hide Receive, Acknowledged, Handle, ChainInv, Prepared;
    if a.Complete? {
      NetComplete(w, a.regionId, a.op, a.ok, a.power, a.summary);
    }
  }

  lemma NetComplete(w: World, id: u32, op: Operation, ok: bool, power: seq<ZonePower>, summary: seq<ZoneDeviceSummary>)
    requires NetInv(w) && Enabled(w, Act.Complete(id, op, ok, power, summary))
    ensures var b := Step(w, Act.Complete(id, op, ok, power, summary));
            NetInv(b) && b.chains.Keys == w.chains.Keys && w.central == b.central
            && forall j <- w.chains :: w.chains[j].log <= b.chains[j].log
  {
    hide *;
    CompleteApplies(w, id, op, ok, power, summary);
    var b, c := Step(w, Act.Complete(id, op, ok, power, summary)), w.chains[id];
    var c' := SyncChain.Complete(c, op, ok, power, summary);
    ChainStep(c, op, ok, power, summary);
    CompleteEffect(w, id, op, ok, power, summary);
    if op.Handshake? && ok {
      CurrentIsPrepared(c, op);
      NetFrame(w, b, id, c', {Sent(id, op.up)});
    } else {
      NetFrame(w, b, id, c', {});
    }
  }

  lemma CompleteApplies(w: World, id: u32, op: Operation, ok: bool, power: seq<ZonePower>,
                        summary: seq<ZoneDeviceSummary>)
    requires NetInv(w) && Enabled(w, Act.Complete(id, op, ok, power, summary))
    ensures id in w.chains && w.chains[id].regionId == id && ChainInv(w.chains[id]) && op in w.chains[id].pending
    ensures op.TimerWait? ==> ok && w.chains[id].version < 0xFFFF_FFFF && |power| <= U16_MAX && |summary| <= U16_MAX
  {}

  lemma CompleteEffect(w: World, id: u32, op: Operation, ok: bool, power: seq<ZonePower>,
                       summary: seq<ZoneDeviceSummary>)
    requires id in w.chains
    ensures var b := Step(w, Act.Complete(id, op, ok, power, summary));
            && b.chains == w.chains[id := SyncChain.Complete(w.chains[id], op, ok, power, summary)]
            && b.acked == w.acked && b.central == w.central
            && b.net == w.net + if op.Handshake? && ok then {Sent(id, op.up)} else {}
    ensures SyncChain.Complete(w.chains[id], op, ok, power, summary).regionId == w.chains[id].regionId
  {}

  lemma NetFrame(w: World, b: World, id: u32, c': Chain, added: set<Sent>)
    requires NetInv(w) && id in w.chains && ChainInv(c') && c'.regionId == id && w.chains[id].log <= c'.log
    requires b.chains == w.chains[id := c'] && b.acked == w.acked && b.net <= w.net + added
    requires forall s <- added :: s.regionId == s.up.regionId == id && Prepared(w.chains[id], s.up)
    ensures NetInv(b)
  {
    hide ChainInv, Prepared;
    forall s | s in b.net + b.acked
      ensures s.regionId in b.chains && s.up.regionId == s.regionId && Prepared(b.chains[s.regionId], s.up)
    {
      assert s in w.net + w.acked || s in added;
      PreparedKept(w.chains[s.regionId], b.chains[s.regionId], s.up);
    }
  }

  lemma CurrentIsPrepared(c: Chain, op: Operation)
    requires ChainInv(c) && op in c.pending && !op.TimerWait?
    ensures Prepared(c, op.up) && op.up.regionId == c.regionId && op.up == c.log[|c.log| - 1]
  {}

  lemma HandleOther(st: Store, body: seq<u8>)
    requires body == [] || body[0] != REGION_SYNC_UP
    ensures Handle(st, body).regions == st.regions
  {}

  lemma UntornStep(w: World, a: Act)
    requires NetInv(w) && Untorn(w) && Enabled(w, a)
    ensures Untorn(Step(w, a))
  {
    match a
    case Complete(id, op, ok, power, summary) =>
      NetComplete(w, id, op, ok, power, summary);
      var b := Step(w, a);
      hide Step, NetInv, Image, Enabled;
      LogsGrow(w, b);
    case Deliver(s) => UntornDeliver(w, s);
    case Lose(_) =>
    case Other(body) => HandleOther(w.central, body);
  }

  lemma LogsGrow(w: World, b: World)
    requires Untorn(w) && b.central == w.central && b.chains.Keys == w.chains.Keys
    requires forall j <- w.chains :: w.chains[j].log <= b.chains[j].log
    ensures Untorn(b)
  {
    hide Image;
  }

  lemma DeliverApplies(w: World, s: Sent)
    requires NetInv(w) && s in w.net
    ensures s.regionId in w.chains && s.up.regionId == s.regionId && Counted(s.up)
    ensures Shows(w.chains[s.regionId], Image(s.up))
  {
    assert s in w.net + w.acked;
    var c := w.chains[s.regionId];
    assert ChainInv(c) && Prepared(c, s.up);
  }

  lemma UntornDeliver(w: World, s: Sent)
    requires NetInv(w) && Untorn(w) && s in w.net
    ensures Untorn(Step(w, Deliver(s)))
  {
    DeliverApplies(w, s);
    ReceiveShowsPayload(w.central, s.up);
    hide Receive, Acknowledged, Image, Shows, NetInv, Counted;
  }

  lemma {:induction false} NetHolds(ids: set<u32>, run: seq<Act>)
    requires Possible(ids, run)
    ensures NetInv(After(ids, run)) && Untorn(After(ids, run))
    ensures After(ids, run).chains.Keys == ids
  {
    if run == [] {
      StartInv(ids);
    } else {
      var init := run[..|run| - 1];
      PossibleInit(ids, run);
      NetHolds(ids, init);
      NetStep(After(ids, init), run[|run| - 1]);
      UntornStep(After(ids, init), run[|run| - 1]);
    }
  }

  lemma StartInv(ids: set<u32>)
    ensures NetInv(Boot(ids)) && Untorn(Boot(ids))
  {
    forall id | id in ids
      ensures ChainInv(Start(id))
    {
      var c := Start(id);
      assert c.pending == multiset{Resolve(c.log[0])};
    }
  }

  lemma PossibleInit(ids: set<u32>, run: seq<Act>)
    requires Possible(ids, run) && run != []
    ensures Possible(ids, run[..|run| - 1]) && Enabled(After(ids, run[..|run| - 1]), run[|run| - 1])
  {
    Initial(run);
  }

  // ----- results

  /** With any number of regions and any loss, delay or reordering, what the central server shows for a region is all
      of one payload: the one the region prepared under the version shown. */
  lemma CentralIsNeverTorn(ids: set<u32>, run: seq<Act>, id: u32)
    requires Possible(ids, run) && id in After(ids, run).central.regions
    ensures var w := After(ids, run);
            && id in w.chains
            && var agg, log := w.central.regions[id], w.chains[id].log;
               exists i :: 0 <= i < |log| && log[i].version == agg.version && agg == Image(log[i])
                           && forall j :: 0 <= j < |log| && log[j].version == agg.version ==> j == i
  {
    NetHolds(ids, run);
    var w := After(ids, run);
    var agg, log := w.central.regions[id], w.chains[id].log;
    assert Shows(w.chains[id], agg) && ChainInv(w.chains[id]);
    assert log[agg.version - 1].version == agg.version;
  }

  /** In every reachable state of every region exactly one operation is outstanding, so the socket is never replaced
      under a pending operation, and the versions prepared are 1, 2, 3 and so on. */
  lemma ChainIsSingle(ids: set<u32>, run: seq<Act>, id: u32, op: Operation)
    requires Possible(ids, run) && id in After(ids, run).chains && op in After(ids, run).chains[id].pending
    ensures var c := After(ids, run).chains[id];
            && c.pending == multiset{op}
            && (op.TimerWait? ==> forall other <- c.pending :: !UsesSocket(other))
            && c.version == |c.log|
            && (forall i :: 0 <= i < |c.log| ==> c.log[i].version == i + 1)
  {
    NetHolds(ids, run);
    Singleton(After(ids, run).chains[id].pending, op);
  }

  // ----- while no stage has failed, the central server is at the region's version between synchronisations

  ghost function CentralVersion(w: World, id: u32): nat {
    if id in w.central.regions then w.central.regions[id].version else 0
  }

  ghost predicate NoFrames(w: World, id: u32) { forall s <- w.net :: s.regionId != id }

  ghost predicate Stage(w: World, id: u32, version: nat, current: Sent, op: Operation) {
    match op
    case TimerWait => NoFrames(w, id) && CentralVersion(w, id) == version
    case ReadBody(_) => NoFrames(w, id) && CentralVersion(w, id) == version
    case WriteFrame(_) => Travelling(w, id, version, current)
    case ReadHeader(_) => Travelling(w, id, version, current)
    case _ => NoFrames(w, id) && current !in w.acked && CentralVersion(w, id) == version - 1
  }

  // The current frame is on its way, lost or refused, or it has been received and acknowledged
  ghost predicate Travelling(w: World, id: u32, version: nat, current: Sent) {
    && (forall s <- w.net :: s.regionId == id ==> s == current)
    && if current in w.acked then current !in w.net && CentralVersion(w, id) == version
       else CentralVersion(w, id) == version - 1
  }

  ghost predicate InStep(w: World, id: u32)
    requires id in w.chains && w.chains[id].log != []
  {
    var c := w.chains[id];
    c.failed || forall op <- c.pending :: Stage(w, id, c.version, Sent(id, c.log[|c.log| - 1]), op)
  }

  ghost predicate AllInStep(w: World) {
    forall id <- w.chains :: w.chains[id].log != [] && InStep(w, id)
  }

  // The stages of one region depend only on its own frames and its own entry
  lemma StageFrame(w: World, b: World, id: u32, version: nat, current: Sent, op: Operation)
    requires Stage(w, id, version, current, op) && current.regionId == id
    requires forall s: Sent :: s.regionId == id ==> (s in b.net <==> s in w.net) && (s in b.acked <==> s in w.acked)
    requires CentralVersion(b, id) == CentralVersion(w, id)
    ensures Stage(b, id, version, current, op)
  {}

  lemma OwnStage(w: World, b: World, id: u32, c: Chain, op: Operation, ok: bool, power: seq<ZonePower>,
                 summary: seq<ZoneDeviceSummary>)
    requires NetInv(w) && Enabled(w, Act.Complete(id, op, ok, power, summary))
    requires w.chains[id] == c && InStep(w, id) && b == Step(w, Act.Complete(id, op, ok, power, summary))
    requires b.chains[id].log != []
    ensures InStep(b, id)
  {
    CompleteApplies(w, id, op, ok, power, summary);
    CompleteEffect(w, id, op, ok, power, summary);
    Singleton(c.pending, op);
    assert op in c.pending;
    if !b.chains[id].failed {
      assert Stage(w, id, c.version, Sent(id, c.log[|c.log| - 1]), op);
      if op.TimerWait? {
        TimerStage(w, b, id, c, power, summary);
      } else {
        CurrentIsPrepared(c, op);
        hide NetInv, InStep, ChainInv, Stage;
        NextStage(w, b, id, c, op);
      }
    }
  }

  lemma TimerStage(w: World, b: World, id: u32, c: Chain, power: seq<ZonePower>, summary: seq<ZoneDeviceSummary>)
    requires NetInv(w) && Enabled(w, Act.Complete(id, TimerWait, true, power, summary)) && w.chains[id] == c
    requires b == Step(w, Act.Complete(id, TimerWait, true, power, summary))
    requires c.pending == multiset{TimerWait} && c.log != []
    requires Stage(w, id, c.version, Sent(id, c.log[|c.log| - 1]), TimerWait)
    ensures b.chains[id].log != [] && InStep(b, id)
  {
    var c' := b.chains[id];
    var next := Sent(id, c'.log[|c'.log| - 1]);
    assert c.pending - multiset{TimerWait} == multiset{};
    assert c'.pending == multiset{Resolve(next.up)};
    AckedArePrepared(w, id);
    assert ChainInv(c) && next !in w.acked;
  }

  lemma NextStage(w: World, b: World, id: u32, c: Chain, op: Operation)
    requires id in w.chains && w.chains[id] == c && c.pending == multiset{op} && c.log != [] && !op.TimerWait?
    requires op.up == c.log[|c.log| - 1] && !c.failed
    requires Stage(w, id, c.version, Sent(id, op.up), op)
    requires op.ReadHeader? ==> Sent(id, op.up) in w.acked
    requires b == Step(w, Act.Complete(id, op, true, [], []))
    ensures InStep(b, id)
  {
    assert multiset{op} - multiset{op} == multiset{};
    var c' := b.chains[id];
    assert c'.version == c.version && c'.log == c.log;
    assert c'.pending == multiset{Next(op)};
    assert !c'.failed;
    CompleteEffect(w, id, op, true, [], []);
    SameEntry(w, b, id);
    hide SyncChain.Complete, Step, CentralVersion;
    StageNext(w, b, id, c.version, Sent(id, op.up), op);
  }

  lemma StageNext(w: World, b: World, id: u32, version: nat, current: Sent, op: Operation)
    requires !op.TimerWait? && op.up == current.up && current.regionId == id && Stage(w, id, version, current, op)
    requires op.ReadHeader? ==> current in w.acked
    requires b.acked == w.acked && b.net == w.net + if op.Handshake? then {current} else {}
    requires CentralVersion(b, id) == CentralVersion(w, id)
    ensures Stage(b, id, version, current, Next(op))
  {}

  lemma AckedArePrepared(w: World, id: u32)
    requires NetInv(w) && id in w.chains
    ensures forall s <- w.acked :: s.regionId == id ==> Prepared(w.chains[id], s.up)
  {
    hide Prepared;
    forall s | s in w.acked && s.regionId == id
      ensures Prepared(w.chains[id], s.up)
    {
      assert s in w.net + w.acked;
    }
  }

  // A step that is not a handler of this region
  lemma InStepFrame(w: World, b: World, id: u32)
    requires id in w.chains && w.chains[id].log != [] && InStep(w, id)
    requires id in b.chains && b.chains[id] == w.chains[id]
    requires forall s: Sent :: s.regionId == id ==> (s in b.net <==> s in w.net) && (s in b.acked <==> s in w.acked)
    requires CentralVersion(b, id) == CentralVersion(w, id)
    ensures InStep(b, id)
  {
    var c := w.chains[id];
    var current := Sent(id, c.log[|c.log| - 1]);
    if !c.failed {
      forall op | op in c.pending
        ensures Stage(b, id, c.version, current, op)
      {
        StageFrame(w, b, id, c.version, current, op);
      }
    }
  }

  lemma DeliverEffect(w: World, s: Sent)
    requires NetInv(w) && s in w.net
    ensures var b := Step(w, Deliver(s));
            && b.chains == w.chains && b.net == w.net - {s}
            && b.acked == (if Acknowledged(s.up) then w.acked + {s} else w.acked)
            && (forall id: u32 :: CentralVersion(b, id)
                  == if id == s.regionId && Acknowledged(s.up) then s.up.version else CentralVersion(w, id))
    ensures s.regionId in w.chains
  {
    DeliverApplies(w, s);
    ReceiveShowsPayload(w.central, s.up);
    assert Image(s.up).version == s.up.version;
    hide Receive, Acknowledged, Image, Shows, NetInv, Counted;
  }

  lemma LatestVersion(w: World, id: u32)
    requires NetInv(w) && id in w.chains
    ensures var c := w.chains[id]; c.log != [] && c.log[|c.log| - 1].version == c.version
  {
    assert ChainInv(w.chains[id]);
  }

  lemma StageDelivered(w: World, b: World, s: Sent, id: u32, version: nat, current: Sent, op: Operation)
    requires Stage(w, id, version, current, op) && s in w.net && s.regionId == id
    requires b.net == w.net - {s} && current.up.version == version
    requires (b.acked == w.acked && CentralVersion(b, id) == CentralVersion(w, id))
             || (b.acked == w.acked + {s} && CentralVersion(b, id) == s.up.version)
    ensures Stage(b, id, version, current, op)
  {}

  lemma DeliveredStage(w: World, b: World, s: Sent)
    requires NetInv(w) && s in w.net && b == Step(w, Deliver(s))
    requires s.regionId in w.chains && w.chains[s.regionId].log != [] && InStep(w, s.regionId)
    requires s.regionId in b.chains && b.chains[s.regionId].log != []
    ensures InStep(b, s.regionId)
  {
    hide *;
    DeliverEffect(w, s);
    LatestVersion(w, s.regionId);
    DeliveredInStep(w, b, s);
  }

  lemma DeliveredInStep(w: World, b: World, s: Sent)
    requires s in w.net && b.chains == w.chains && b.net == w.net - {s}
    requires (b.acked == w.acked && CentralVersion(b, s.regionId) == CentralVersion(w, s.regionId))
             || (b.acked == w.acked + {s} && CentralVersion(b, s.regionId) == s.up.version)
    requires s.regionId in w.chains && w.chains[s.regionId].log != [] && InStep(w, s.regionId)
    requires var log := w.chains[s.regionId].log; log[|log| - 1].version == w.chains[s.regionId].version
    ensures InStep(b, s.regionId)
  {
    hide Stage, CentralVersion;
    var c := w.chains[s.regionId];
    if !c.failed {
      forall op | op in c.pending
        ensures Stage(b, s.regionId, c.version, Sent(s.regionId, c.log[|c.log| - 1]), op)
      {
        StageDelivered(w, b, s, s.regionId, c.version, Sent(s.regionId, c.log[|c.log| - 1]), op);
      }
    }
  }

  lemma LostStage(w: World, s: Sent)
    requires s in w.net && s.regionId in w.chains && w.chains[s.regionId].log != [] && InStep(w, s.regionId)
    ensures InStep(Step(w, Lose(s)), s.regionId)
  {
    var b, id := Step(w, Lose(s)), s.regionId;
    var c := w.chains[id];
    var current := Sent(id, c.log[|c.log| - 1]);
    if !c.failed {
      forall op | op in c.pending
        ensures Stage(b, id, c.version, current, op)
      {
        assert Stage(w, id, c.version, current, op);
      }
    }
  }

  lemma CompleteInStep(w: World, r: u32, op: Operation, ok: bool, power: seq<ZonePower>,
                       summary: seq<ZoneDeviceSummary>, id: u32)
    requires NetInv(w) && Enabled(w, Act.Complete(r, op, ok, power, summary))
    requires id in w.chains && w.chains[id].log != [] && InStep(w, id)
    requires var b := Step(w, Act.Complete(r, op, ok, power, summary)); id in b.chains && b.chains[id].log != []
    ensures InStep(Step(w, Act.Complete(r, op, ok, power, summary)), id)
  {
    hide *;
    var b := Step(w, Act.Complete(r, op, ok, power, summary));
    CompleteApplies(w, r, op, ok, power, summary);
    CompleteEffect(w, r, op, ok, power, summary);
    if r == id {
      OwnStage(w, b, id, w.chains[id], op, ok, power, summary);
    } else {
      SameEntry(w, b, id);
      InStepFrame(w, b, id);
    }
  }

  lemma SameEntry(w: World, b: World, id: u32)
    requires b.central.regions == w.central.regions
    ensures CentralVersion(b, id) == CentralVersion(w, id)
  {}

  lemma OneInStep(w: World, a: Act, id: u32)
    requires NetInv(w) && Enabled(w, a) && id in w.chains && w.chains[id].log != [] && InStep(w, id)
    requires id in Step(w, a).chains && Step(w, a).chains[id].log != []
    ensures InStep(Step(w, a), id)
  {
    hide *;
    match a
    case Complete(r, op, ok, power, summary) => CompleteInStep(w, r, op, ok, power, summary, id);
    case Deliver(s) => DeliverInStep(w, s, id);
    case Lose(s) => LoseInStep(w, s, id);
    case Other(body) => OtherInStep(w, body, id);
  }

  lemma DeliverInStep(w: World, s: Sent, id: u32)
    requires NetInv(w) && Enabled(w, Deliver(s)) && id in w.chains && w.chains[id].log != [] && InStep(w, id)
    requires id in Step(w, Deliver(s)).chains && Step(w, Deliver(s)).chains[id].log != []
    ensures InStep(Step(w, Deliver(s)), id)
  {
    assert s in w.net;
    hide *;
    DeliverEffect(w, s);
    if s.regionId == id {
      DeliveredStage(w, Step(w, Deliver(s)), s);
    } else {
      InStepFrame(w, Step(w, Deliver(s)), id);
    }
  }

  lemma LoseInStep(w: World, s: Sent, id: u32)
    requires Enabled(w, Lose(s)) && id in w.chains && w.chains[id].log != [] && InStep(w, id)
    ensures id in Step(w, Lose(s)).chains && Step(w, Lose(s)).chains[id] == w.chains[id]
    ensures InStep(Step(w, Lose(s)), id)
  {
    var b := Step(w, Lose(s));
    assert s in w.net && b == w.(net := w.net - {s});
    hide *;
    if s.regionId == id {
      LostStage(w, s);
    } else {
      SameEntry(w, b, id);
      InStepFrame(w, b, id);
    }
  }

  lemma OtherInStep(w: World, body: seq<u8>, id: u32)
    requires Enabled(w, Other(body)) && id in w.chains && w.chains[id].log != [] && InStep(w, id)
    ensures id in Step(w, Other(body)).chains && Step(w, Other(body)).chains[id] == w.chains[id]
    ensures InStep(Step(w, Other(body)), id)
  {
    var b := Step(w, Other(body));
    assert b == w.(central := Handle(w.central, body)) && (body == [] || body[0] != REGION_SYNC_UP);
    hide *;
    HandleOther(w.central, body);
    SameEntry(w, b, id);
    InStepFrame(w, b, id);
  }

  lemma StartInStep(ids: set<u32>)
    ensures AllInStep(Boot(ids))
  {
    forall id | id in ids
      ensures InStep(Boot(ids), id)
    {
      var c := Start(id);
      assert c.pending == multiset{Resolve(c.log[0])};
    }
  }

  lemma {:induction false} InStepHolds(ids: set<u32>, run: seq<Act>)
    requires Possible(ids, run)
    ensures AllInStep(After(ids, run))
  {
    NetHolds(ids, run);
    assert forall id <- After(ids, run).chains :: ChainInv(After(ids, run).chains[id]);
    if run == [] {
      StartInStep(ids);
    } else {
      var init := run[..|run| - 1];
      PossibleInit(ids, run);
      InStepHolds(ids, init);
      NetHolds(ids, init);
      hide InStep, Step, Enabled, NetInv, Untorn, Possible, ChainInv;
      forall id | id in After(ids, run).chains
        ensures InStep(After(ids, run), id)
      {
        assert InStep(After(ids, init), id);
        OneInStep(After(ids, init), run[|run| - 1], id);
      }
    }
  }

  /** While no stage of a region has failed, the version the central server shows for it between two synchronisations
      is the version the region counts. */
  lemma CentralKeepsUp(ids: set<u32>, run: seq<Act>, id: u32)
    requires Possible(ids, run) && id in ids
    ensures var w := After(ids, run);
            id in w.chains && (!w.chains[id].failed && TimerWait in w.chains[id].pending ==>
              id in w.central.regions && w.central.regions[id].version == w.chains[id].version)
  {
    NetHolds(ids, run);
    InStepHolds(ids, run);
    var w := After(ids, run);
    assert ChainInv(w.chains[id]) && InStep(w, id);
    hide After, Possible, Enabled;
  }
}
