/** Every synchronisation hands over its frame, and from every state the central server can still get the next one. */
module SyncProgress {
  import opened Basics
  import opened Proto
  import opened ProtoLaws
  import opened Framing
  import opened CentralStore
  import opened SyncChain
  import opened SyncNet

  // ----- what has entered the network

  // Every frame that was in the network at some time
  function Entered(ids: set<u32>, run: seq<Act>): set<Sent> {
    if run == [] then {} else Entered(ids, run[..|run| - 1]) + After(ids, run).net
  }

  // The frame is being written, or its acknowledgement awaited
  predicate IsSending(op: Operation) { op.WriteFrame? || op.ReadHeader? || op.ReadBody? }

  // A frame has entered the network exactly when its chain has got past the handshake
  ghost predicate OneEntered(id: u32, c: Chain, entered: set<Sent>) {
    forall op <- c.pending :: !op.TimerWait? ==> (Sent(id, op.up) in entered <==> IsSending(op))
  }

  ghost predicate EnteredInv(w: World, entered: set<Sent>) {
    && w.net <= entered && w.acked <= entered
    && (forall s <- entered :: s.regionId in w.chains && Prepared(w.chains[s.regionId], s.up))
    && (forall id <- w.chains :: OneEntered(id, w.chains[id], entered))
  }

  lemma CompleteEntered(w: World, id: u32, op: Operation, ok: bool, power: seq<ZonePower>,
                        summary: seq<ZoneDeviceSummary>, entered: set<Sent>)
    requires NetInv(w) && EnteredInv(w, entered) && Enabled(w, Act.Complete(id, op, ok, power, summary))
    ensures var b := Step(w, Act.Complete(id, op, ok, power, summary)); EnteredInv(b, entered + b.net)
  {
    hide *;
    CompleteApplies(w, id, op, ok, power, summary);
    var c := w.chains[id];
    CompleteEffect(w, id, op, ok, power, summary);
    ChainStep(c, op, ok, power, summary);
    OwnEntered(w, id, c, op, ok, power, summary, entered);
    var more: set<Sent> := {};
    if op.Handshake? && ok {
      more := {Sent(id, op.up)};
      CurrentIsPrepared(c, op);
    }
    EnteredFrame(w, Step(w, Act.Complete(id, op, ok, power, summary)), id, entered, more);
  }

  lemma EnteredFrame(w: World, b: World, id: u32, entered: set<Sent>, more: set<Sent>)
    requires EnteredInv(w, entered) && id in w.chains && b.chains.Keys == w.chains.Keys
    requires forall j <- w.chains :: j != id ==> b.chains[j] == w.chains[j]
    requires w.chains[id].log <= b.chains[id].log && b.net == w.net + more && b.acked == w.acked
    requires forall s <- more :: s.regionId == id && Prepared(w.chains[id], s.up)
    requires OneEntered(id, b.chains[id], entered + w.net + more)
    ensures EnteredInv(b, entered + b.net)
  {
    assert entered + w.net + more == entered + b.net;
    forall s | s in entered + b.net
      ensures s.regionId in b.chains && Prepared(b.chains[s.regionId], s.up)
    {
      assert s in entered || s in more;
    }
    forall j | j in b.chains
      ensures OneEntered(j, b.chains[j], entered + b.net)
    {
      if j != id {
        OtherEntered(j, w.chains[j], entered, more, id);
        assert entered + more == entered + b.net;
      }
    }
  }

  lemma OtherEntered(j: u32, c: Chain, entered: set<Sent>, more: set<Sent>, id: u32)
    requires OneEntered(j, c, entered) && j != id && forall s <- more :: s.regionId == id
    ensures OneEntered(j, c, entered + more)
  {}

  // What the handler does to its own chain
  lemma OwnEntered(w: World, id: u32, c: Chain, op: Operation, ok: bool, power: seq<ZonePower>,
                   summary: seq<ZoneDeviceSummary>, entered: set<Sent>)
    requires id in w.chains && w.chains[id] == c && ChainInv(c) && op in c.pending && c.regionId == id
    requires op.TimerWait? ==> ok && c.version < 0xFFFF_FFFF
    requires EnteredInv(w, entered)
    ensures var more: set<Sent> := if op.Handshake? && ok then {Sent(id, op.up)} else {};
            OneEntered(id, SyncChain.Complete(c, op, ok, power, summary), entered + w.net + more)
  {
    Singleton(c.pending, op);
    assert OneEntered(id, c, entered) && entered + w.net == entered;
    if op.TimerWait? {
      TimerEntered(id, c, power, summary, entered);
    } else if ok {
      NextEntered(id, c, op, power, summary, entered);
    } else {
      assert SyncChain.Complete(c, op, ok, power, summary).pending == multiset{TimerWait};
    }
  }

  lemma TimerEntered(id: u32, c: Chain, power: seq<ZonePower>, summary: seq<ZoneDeviceSummary>, entered: set<Sent>)
    requires ChainInv(c) && c.pending == multiset{TimerWait} && c.version < 0xFFFF_FFFF
    requires forall s <- entered :: s.regionId == id ==> Prepared(c, s.up)
    ensures OneEntered(id, SyncChain.Complete(c, TimerWait, true, power, summary), entered)
  {
    var up := RegionSyncUp(c.regionId, c.version + 1, power, summary);
    assert SyncChain.Complete(c, TimerWait, true, power, summary).pending == multiset{Resolve(up)};
    assert !Prepared(c, up);
    hide SyncChain.Complete, ChainInv, Prepared;
  }

  lemma NextEntered(id: u32, c: Chain, op: Operation, power: seq<ZonePower>, summary: seq<ZoneDeviceSummary>,
                    entered: set<Sent>)
    requires c.pending == multiset{op} && !op.TimerWait? && OneEntered(id, c, entered)
    ensures var more: set<Sent> := if op.Handshake? then {Sent(id, op.up)} else {};
            OneEntered(id, SyncChain.Complete(c, op, true, power, summary), entered + more)
  {
    assert SyncChain.Complete(c, op, true, power, summary).pending == multiset{Next(op)};
    assert op in c.pending;
    hide SyncChain.Complete;
  }

  lemma EnteredStep(w: World, a: Act, entered: set<Sent>)
    requires NetInv(w) && EnteredInv(w, entered) && Enabled(w, a)
    ensures EnteredInv(Step(w, a), entered + Step(w, a).net)
  {
    hide *;
    if a.Complete? {
      CompleteEntered(w, a.regionId, a.op, a.ok, a.power, a.summary, entered);
      assert a == Act.Complete(a.regionId, a.op, a.ok, a.power, a.summary);
    } else {
      NothingSent(w, a);
      SameEntered(w, Step(w, a), entered);
    }
  }

  lemma NothingSent(w: World, a: Act)
    requires Enabled(w, a) && !a.Complete?
    ensures var b := Step(w, a); b.chains == w.chains && b.net <= w.net && b.acked <= w.acked + w.net
  {
    hide Receive, Acknowledged, Handle;
  }

  lemma SameEntered(w: World, b: World, entered: set<Sent>)
    requires EnteredInv(w, entered) && b.chains == w.chains && b.net <= w.net && b.acked <= w.acked + w.net
    ensures EnteredInv(b, entered + b.net)
  {
    hide OneEntered, Prepared;
    assert entered + b.net == entered;
  }

  lemma {:induction false} EnteredHolds(ids: set<u32>, run: seq<Act>)
    requires Possible(ids, run)
    ensures EnteredInv(After(ids, run), Entered(ids, run))
  {
    if run != [] {
      var init := run[..|run| - 1];
      PossibleInit(ids, run);
      EnteredHolds(ids, init);
      NetHolds(ids, init);
      hide Step, Enabled, NetInv, EnteredInv, Untorn;
      EnteredStep(After(ids, init), run[|run| - 1], Entered(ids, init));
    }
  }

  /** In every run the frame of a synchronisation has entered the network exactly when its handshake is done: not while
      it resolves, connects or shakes hands, and always while it is written or its acknowledgement awaited. */
  lemma EverySyncIsHandedOver(ids: set<u32>, run: seq<Act>, id: u32, op: Operation)
    requires Possible(ids, run) && id in After(ids, run).chains && op in After(ids, run).chains[id].pending
    requires !op.TimerWait?
    ensures Sent(id, op.up) in Entered(ids, run) <==> op.WriteFrame? || op.ReadHeader? || op.ReadBody?
  {
    EnteredHolds(ids, run);
    assert OneEntered(id, After(ids, run).chains[id], Entered(ids, run));
  }

  // ----- finishing a synchronisation

  predicate FitsFrame(up: RegionSyncUp) {
    13 + 8 * |up.zonePowerSum| + 14 * |up.zoneDeviceSummary| <= MAX_BODY
  }

  predicate ShowsNow(w: World, id: u32, up: RegionSyncUp) {
    id in w.central.regions && w.central.regions[id] == Image(up)
  }

  // The chain is sending up, and the frame is not lost
  ghost predicate Ready(w: World, id: u32, up: RegionSyncUp, op: Operation) {
    && id in w.chains && w.chains[id].pending == multiset{op} && !op.TimerWait? && op.up == up && up.regionId == id
    && Counted(up) && FitsFrame(up)
    && match op
       case WriteFrame(_) => Sent(id, up) in w.net || (Sent(id, up) in w.acked && ShowsNow(w, id, up))
       case ReadHeader(_) => Sent(id, up) in w.net || (Sent(id, up) in w.acked && ShowsNow(w, id, up))
       case ReadBody(_) => ShowsNow(w, id, up)
       case _ => true
  }

  // The chain waits for its timer, and the central server shows up
  ghost predicate Finished(w: World, id: u32, up: RegionSyncUp) {
    id in w.chains && w.chains[id].pending == multiset{TimerWait} && ShowsNow(w, id, up)
  }

  function ToGo(w: World, id: u32, up: RegionSyncUp, op: Operation): nat {
    match op
    case TimerWait => 0
    case Resolve(_) => 8
    case Connect(_) => 7
    case Handshake(_) => 6
    case WriteFrame(_) => if Sent(id, up) in w.net then 5 else 4
    case ReadHeader(_) => if Sent(id, up) in w.net then 3 else 2
    case ReadBody(_) => 1
  }

  function Advance(w: World, id: u32, up: RegionSyncUp, op: Operation): Act {
    if (op.WriteFrame? || op.ReadHeader?) && Sent(id, up) in w.net then Deliver(Sent(id, up))
    else Act.Complete(id, op, true, [], [])
  }

  lemma DeliverAdvances(w: World, id: u32, up: RegionSyncUp, op: Operation)
    requires Ready(w, id, up, op) && (op.WriteFrame? || op.ReadHeader?) && Sent(id, up) in w.net
    ensures var b := Step(w, Deliver(Sent(id, up)));
            && Ready(b, id, up, op) && b.chains == w.chains && ToGo(b, id, up, op) < ToGo(w, id, up, op)
  {
    ReceiveShowsPayload(w.central, up);
    hide Receive, Acknowledged, Image;
  }

  lemma CompleteAdvances(w: World, id: u32, up: RegionSyncUp, op: Operation)
    requires Ready(w, id, up, op) && !((op.WriteFrame? || op.ReadHeader?) && Sent(id, up) in w.net)
    ensures var b := Step(w, Act.Complete(id, op, true, [], []));
            && Enabled(w, Act.Complete(id, op, true, [], []))
            && b.chains == w.chains[id := w.chains[id].(pending := multiset{Next(op)})]
            && (if op.ReadBody? then Finished(b, id, up)
                else Ready(b, id, up, Next(op)) && ToGo(b, id, up, Next(op)) < ToGo(w, id, up, op))
  {
    CompleteEffect(w, id, op, true, [], []);
    assert multiset{op} - multiset{op} == multiset{};
    assert SyncChain.Complete(w.chains[id], op, true, [], []) == w.chains[id].(pending := multiset{Next(op)});
    hide Image, Step, SyncChain.Complete;
  }

  lemma RunOn(ids: set<u32>, run: seq<Act>, a: Act)
    requires Possible(ids, run) && Enabled(After(ids, run), a)
    ensures Possible(ids, run + [a]) && After(ids, run + [a]) == Step(After(ids, run), a)
  {
    hide Enabled, Step;
    var more := run + [a];
    assert more[..|run|] == run;
    forall i | 0 <= i < |more|
      ensures Enabled(After(ids, more[..i]), more[i])
    {
      if i < |run| {
        assert more[..i] == run[..i] && more[i] == run[i];
      }
    }
  }

  // A handler of the region that succeeds, or the delivery of its frame
  predicate Smooth(a: Act, id: u32, up: RegionSyncUp) {
    (a.Complete? && a.regionId == id && a.ok) || a == Deliver(Sent(id, up))
  }

  lemma AdvanceIsSmooth(w: World, id: u32, up: RegionSyncUp, op: Operation)
    ensures Smooth(Advance(w, id, up, op), id, up)
  {}

  // What the chain counts, apart from the operation it waits for
  ghost predicate SameCounts(a: Chain, b: Chain) { b == a.(pending := b.pending) }

  lemma {:induction false} Finish(ids: set<u32>, run: seq<Act>, id: u32, up: RegionSyncUp, op: Operation)
    returns (end: seq<Act>)
    requires Possible(ids, run) && Ready(After(ids, run), id, up, op)
    ensures Possible(ids, end) && run <= end && Finished(After(ids, end), id, up)
    ensures forall k :: |run| <= k < |end| ==> Smooth(end[k], id, up)
    ensures id in After(ids, run).chains && SameCounts(After(ids, run).chains[id], After(ids, end).chains[id])
    decreases ToGo(After(ids, run), id, up, op)
  {
    var w := After(ids, run);
    var a := Advance(w, id, up, op);
    hide After, Possible, Step, Enabled, Ready, Finished, ToGo, Smooth;
    AdvanceIsSmooth(w, id, up, op);
    ReadyChain(w, id, up, op);
    if a.Deliver? {
      DeliverAdvances(w, id, up, op);
      DeliverEnabled(w, Sent(id, up));
      RunOn(ids, run, a);
      end := Finish(ids, run + [a], id, up, op);
    } else {
      CompleteAdvances(w, id, up, op);
      RunOn(ids, run, a);
      if op.ReadBody? {
        end := run + [a];
      } else {
        end := Finish(ids, run + [a], id, up, Next(op));
      }
    }
  }

  lemma ReadyChain(w: World, id: u32, up: RegionSyncUp, op: Operation)
    requires Ready(w, id, up, op)
    ensures id in w.chains && !op.TimerWait?
  {}

  lemma DeliverEnabled(w: World, s: Sent)
    requires s in w.net
    ensures Enabled(w, Deliver(s))
  {}

  // The frame was handed over, and neither travels nor was acknowledged: it is lost, or was refused
  ghost predicate IsLost(w: World, id: u32, op: Operation) {
    (op.WriteFrame? || op.ReadHeader?) && Sent(id, op.up) !in w.net && Sent(id, op.up) !in w.acked
  }

  lemma UnfailedIsReady(ids: set<u32>, run: seq<Act>, id: u32, op: Operation)
    requires Possible(ids, run) && id in ids
    requires var w := After(ids, run);
             && id in w.chains && op in w.chains[id].pending && !op.TimerWait? && !w.chains[id].failed
             && FitsFrame(op.up) && !IsLost(w, id, op)
    ensures Ready(After(ids, run), id, op.up, op) && op.up.version == After(ids, run).chains[id].version
  {
    NetHolds(ids, run);
    InStepHolds(ids, run);
    hide *;
    OneUnfailed(After(ids, run), id, op);
  }

  lemma OneUnfailed(w: World, id: u32, op: Operation)
    requires NetInv(w) && Untorn(w) && AllInStep(w)
    requires id in w.chains && op in w.chains[id].pending && !op.TimerWait? && !w.chains[id].failed
    requires FitsFrame(op.up) && !IsLost(w, id, op)
    ensures Ready(w, id, op.up, op) && op.up.version == w.chains[id].version
  {
    hide *;
    Outstanding(w, id, op);
    StageOf(w, id, op);
    ShowsCurrent(w, id, op);
    StageIsReady(w, id, op);
  }

  // The operation outstanding, and the payload it is about
  lemma Outstanding(w: World, id: u32, op: Operation)
    requires NetInv(w) && id in w.chains && op in w.chains[id].pending && !op.TimerWait?
    ensures var c := w.chains[id];
            && c.pending == multiset{op} && c.log != [] && op.up == c.log[|c.log| - 1] && c.version == |c.log|
            && op.up.version == c.version && op.up.regionId == id && Counted(op.up)
  {
    assert ChainInv(w.chains[id]);
    Singleton(w.chains[id].pending, op);
    hide Counted;
  }

  lemma StageOf(w: World, id: u32, op: Operation)
    requires AllInStep(w) && id in w.chains && op in w.chains[id].pending && !w.chains[id].failed
    requires var c := w.chains[id]; !op.TimerWait? && c.log != [] && op.up == c.log[|c.log| - 1]
    ensures Stage(w, id, w.chains[id].version, Sent(id, op.up), op)
  {
    assert InStep(w, id);
    hide Stage;
  }

  lemma ShowsCurrent(w: World, id: u32, op: Operation)
    requires Untorn(w) && id in w.chains
    requires var c := w.chains[id]; !op.TimerWait? && c.log != [] && op.up == c.log[|c.log| - 1] && c.version == |c.log|
    ensures CentralVersion(w, id) == w.chains[id].version ==> ShowsNow(w, id, op.up)
  {
    hide Image;
    if CentralVersion(w, id) == w.chains[id].version {
      assert Shows(w.chains[id], w.central.regions[id]);
    }
  }

  lemma StageIsReady(w: World, id: u32, op: Operation)
    requires id in w.chains && w.chains[id].pending == multiset{op} && !op.TimerWait? && op.up.regionId == id
    requires Counted(op.up) && FitsFrame(op.up) && !IsLost(w, id, op)
    requires Stage(w, id, w.chains[id].version, Sent(id, op.up), op)
    requires CentralVersion(w, id) == w.chains[id].version ==> ShowsNow(w, id, op.up)
    ensures Ready(w, id, op.up, op)
  {
    hide Counted, FitsFrame, ShowsNow, NoFrames, CentralVersion;
  }

  /** From every reachable state of a region that has not failed and is synchronising a payload that fits a frame, with
      the frame not lost, handlers that succeed and the delivery of the frame lead to a state in which the region waits
      for its timer and the central server shows exactly its payload, under exactly its version. */
  lemma SyncCanFinish(ids: set<u32>, run: seq<Act>, id: u32, op: Operation) returns (end: seq<Act>)
    requires Possible(ids, run) && id in ids
    requires var w := After(ids, run);
             && id in w.chains && op in w.chains[id].pending && !op.TimerWait? && !w.chains[id].failed
             && FitsFrame(op.up) && !IsLost(w, id, op)
    ensures Possible(ids, end) && run <= end && forall k :: |run| <= k < |end| ==> Smooth(end[k], id, op.up)
    ensures var w, v := After(ids, run), After(ids, end);
            && id in v.chains && v.chains[id].pending == multiset{TimerWait} && !v.chains[id].failed
            && v.chains[id].version == w.chains[id].version && v.chains[id].log == w.chains[id].log
            && id in v.central.regions && v.central.regions[id] == Image(op.up)
            && v.central.regions[id].version == v.chains[id].version
  {
    UnfailedIsReady(ids, run, id, op);
    hide After, Possible, Ready, Smooth, IsLost;
    end := Finish(ids, run, id, op.up, op);
  }

  // ----- recovering from any state

  lemma FailsToTimer(w: World, id: u32, op: Operation)
    requires NetInv(w) && id in w.chains && op in w.chains[id].pending && !op.TimerWait?
    ensures var a := Act.Complete(id, op, false, [], []);
            && Enabled(w, a) && Step(w, a).chains.Keys == w.chains.Keys
            && Step(w, a).chains[id] == w.chains[id].(pending := multiset{TimerWait}, failed := true)
  {
    CompleteEffect(w, id, op, false, [], []);
    assert ChainInv(w.chains[id]);
    Singleton(w.chains[id].pending, op);
    hide Step;
  }

  lemma TimerToResolve(w: World, id: u32, power: seq<ZonePower>, summary: seq<ZoneDeviceSummary>)
    requires NetInv(w) && id in w.chains && w.chains[id].pending == multiset{TimerWait}
    requires w.chains[id].version < 0xFFFF_FFFF && |power| <= U16_MAX && |summary| <= U16_MAX
    requires 13 + 8 * |power| + 14 * |summary| <= MAX_BODY
    ensures var a := Act.Complete(id, TimerWait, true, power, summary);
            var up := RegionSyncUp(id, w.chains[id].version + 1, power, summary);
            && Enabled(w, a) && Ready(Step(w, a), id, up, Resolve(up)) && id in Step(w, a).chains
            && Step(w, a).chains[id].version == w.chains[id].version + 1
  {
    CompleteEffect(w, id, TimerWait, true, power, summary);
    assert w.chains[id].regionId == id;
    assert multiset{TimerWait} - multiset{TimerWait} == multiset{};
    hide Step;
  }

  /** From every reachable state whatever has failed, been lost or been refused: the region can give up what it is
      doing, and the next payload it prepares, if it fits a frame, can reach the central server, which then shows
      exactly the region's version. */
  lemma SyncCanRecover(ids: set<u32>, run: seq<Act>, id: u32, power: seq<ZonePower>, summary: seq<ZoneDeviceSummary>)
    returns (end: seq<Act>)
    requires Possible(ids, run) && id in ids && id in After(ids, run).chains
    requires After(ids, run).chains[id].version < 0xFFFF_FFFF && |power| <= U16_MAX && |summary| <= U16_MAX
    requires 13 + 8 * |power| + 14 * |summary| <= MAX_BODY
    ensures Possible(ids, end) && run <= end
    ensures var w, v := After(ids, run), After(ids, end);
            var up := RegionSyncUp(id, w.chains[id].version + 1, power, summary);
            && id in v.chains && v.chains[id].pending == multiset{TimerWait} && v.chains[id].version == up.version
            && id in v.central.regions && v.central.regions[id] == Image(up)
  {
    hide *;
    var run1 := GiveUp(ids, run, id);
    end := NextFinishes(ids, run1, id, power, summary);
    FinishedMeans(After(ids, end), id, RegionSyncUp(id, After(ids, run).chains[id].version + 1, power, summary));
  }

  lemma NextFinishes(ids: set<u32>, run: seq<Act>, id: u32, power: seq<ZonePower>, summary: seq<ZoneDeviceSummary>)
    returns (end: seq<Act>)
    requires Possible(ids, run) && id in After(ids, run).chains
    requires After(ids, run).chains[id].pending == multiset{TimerWait}
    requires After(ids, run).chains[id].version < 0xFFFF_FFFF && |power| <= U16_MAX && |summary| <= U16_MAX
    requires 13 + 8 * |power| + 14 * |summary| <= MAX_BODY
    ensures Possible(ids, end) && run <= end
    ensures var w, v := After(ids, run), After(ids, end);
            && Finished(v, id, RegionSyncUp(id, w.chains[id].version + 1, power, summary))
            && id in v.chains && v.chains[id].version == w.chains[id].version + 1
  {
    hide *;
    var w := After(ids, run);
    NetHolds(ids, run);
    TimerToResolve(w, id, power, summary);
    var a := Act.Complete(id, TimerWait, true, power, summary);
    RunOn(ids, run, a);
    var up := RegionSyncUp(id, w.chains[id].version + 1, power, summary);
    end := Finish(ids, run + [a], id, up, Resolve(up));
    FinishedMeans(After(ids, end), id, up);
    SameVersion(After(ids, run + [a]), After(ids, end), id);
  }

  lemma FinishedMeans(w: World, id: u32, up: RegionSyncUp)
    requires Finished(w, id, up)
    ensures id in w.chains && w.chains[id].pending == multiset{TimerWait}
    ensures id in w.central.regions && w.central.regions[id] == Image(up)
  {
    hide Image;
  }

  lemma SameVersion(w: World, v: World, id: u32)
    requires id in w.chains && id in v.chains && SameCounts(w.chains[id], v.chains[id])
    ensures v.chains[id].version == w.chains[id].version
  {}

  // Whatever the region does fails, so that it waits for its timer
  lemma GiveUp(ids: set<u32>, run: seq<Act>, id: u32) returns (end: seq<Act>)
    requires Possible(ids, run) && id in After(ids, run).chains
    ensures Possible(ids, end) && run <= end && id in After(ids, end).chains
    ensures After(ids, end).chains[id].pending == multiset{TimerWait}
    ensures After(ids, end).chains[id].version == After(ids, run).chains[id].version
  {
    var w := After(ids, run);
    NetHolds(ids, run);
    hide *;
    OneOutstanding(w, id);
    var op :| op in w.chains[id].pending && w.chains[id].pending == multiset{op};
    end := run;
    if !op.TimerWait? {
      FailsToTimer(w, id, op);
      end := run + [Act.Complete(id, op, false, [], [])];
      RunOn(ids, run, Act.Complete(id, op, false, [], []));
    }
  }

  lemma OneOutstanding(w: World, id: u32)
    requires NetInv(w) && id in w.chains
    ensures exists op :: op in w.chains[id].pending && w.chains[id].pending == multiset{op}
  {
    assert ChainInv(w.chains[id]);
    var op :| op in w.chains[id].pending;
    Singleton(w.chains[id].pending, op);
  }

  // ----- a lost frame

  lemma LostStep(w: World, a: Act, id: u32, op: Operation)
    requires NetInv(w) && Enabled(w, a) && id in w.chains && w.chains[id].pending == multiset{op} && IsLost(w, id, op)
    requires id in Step(w, a).chains && !Step(w, a).chains[id].failed
    ensures var b := Step(w, a);
            exists next: Operation :: b.chains[id] == w.chains[id].(pending := multiset{next}) && IsLost(b, id, next)
                                      && next.up == op.up
  {
    if a.Complete? && a.regionId == id {
      OwnLost(w, a, id, op);
    } else {
      OthersSendNothing(w, a, id, op);
      hide *;
    }
  }

  lemma OwnLost(w: World, a: Act, id: u32, op: Operation)
    requires Enabled(w, a) && id in w.chains && w.chains[id].pending == multiset{op} && IsLost(w, id, op)
    requires a.Complete? && a.regionId == id && id in Step(w, a).chains && !Step(w, a).chains[id].failed
    ensures var b := Step(w, a);
            exists next: Operation :: b.chains[id] == w.chains[id].(pending := multiset{next}) && IsLost(b, id, next)
                                      && next.up == op.up
  {
    var b := Step(w, a);
    assert a.op == op;
    CompleteEffect(w, id, op, a.ok, a.power, a.summary);
    assert multiset{op} - multiset{op} == multiset{};
    assert b.chains[id] == w.chains[id].(pending := multiset{ReadHeader(op.up)});
    assert IsLost(b, id, ReadHeader(op.up));
  }

  lemma OthersSendNothing(w: World, a: Act, id: u32, op: Operation)
    requires Enabled(w, a) && id in w.chains && w.chains[id].pending == multiset{op} && IsLost(w, id, op)
    requires !(a.Complete? && a.regionId == id)
    ensures var b := Step(w, a);
            id in b.chains && b.chains[id] == w.chains[id].(pending := multiset{op}) && IsLost(b, id, op)
  {
    hide Receive, Acknowledged, Handle, SyncChain.Complete;
  }

  // v is w except that the region awaits the write or the acknowledgement of the same frame, which is lost
  ghost predicate StillLost(w: World, v: World, id: u32, op: Operation) {
    && id in w.chains && id in v.chains && !op.TimerWait?
    && exists next: Operation :: v.chains[id] == w.chains[id].(pending := multiset{next}) && IsLost(v, id, next)
                                 && next.up == op.up
  }

  lemma LostOn(w: World, m: World, a: Act, id: u32, op: Operation)
    requires NetInv(m) && Enabled(m, a) && StillLost(w, m, id, op)
    requires id in Step(m, a).chains && !Step(m, a).chains[id].failed
    ensures StillLost(w, Step(m, a), id, op)
  {
    var mid: Operation :| m.chains[id] == w.chains[id].(pending := multiset{mid}) && IsLost(m, id, mid)
                          && mid.up == op.up;
    hide Step, NetInv, Enabled;
    LostStep(m, a, id, mid);
  }

  /** A frame that is lost or refused stays so: until the region notices a failure it waits for the acknowledgement, and
      the central server never shows that payload. */
  lemma {:induction false} LostNeverFinishes(ids: set<u32>, run: seq<Act>, more: seq<Act>, id: u32, op: Operation)
    requires Possible(ids, run + more) && Possible(ids, run) && id in After(ids, run).chains
    requires After(ids, run).chains[id].pending == multiset{op} && IsLost(After(ids, run), id, op)
    requires id in After(ids, run + more).chains && !After(ids, run + more).chains[id].failed
    ensures StillLost(After(ids, run), After(ids, run + more), id, op)
  {
    if more == [] {
      assert run + more == run;
      assert After(ids, run).chains[id] == After(ids, run).chains[id].(pending := multiset{op});
    } else {
      var all, init, a := run + more, more[..|more| - 1], more[|more| - 1];
      assert all[..|all| - 1] == run + init && all[|all| - 1] == a;
      hide *;
      PossibleInit(ids, all);
      NetHolds(ids, run + init);
      NetHolds(ids, run);
      NetHolds(ids, all);
      AfterLast(ids, all);
      FailedStays(After(ids, run + init), a, id);
      LostNeverFinishes(ids, run, init, id, op);
      LostOn(After(ids, run), After(ids, run + init), a, id, op);
    }
  }

  lemma AfterLast(ids: set<u32>, run: seq<Act>)
    requires run != []
    ensures After(ids, run) == Step(After(ids, run[..|run| - 1]), run[|run| - 1])
  {}

  lemma FailedStays(w: World, a: Act, id: u32)
    requires id in w.chains
    ensures id in Step(w, a).chains && (w.chains[id].failed ==> Step(w, a).chains[id].failed)
  {
    hide Receive, Acknowledged, Handle;
  }
}
