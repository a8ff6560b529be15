/** When a regional server raises an alarm for every device it loses. */
module RegionAlarms {
  import opened Basics
  import opened Proto
  import opened Framing
  import opened WriteQueue
  import opened DeviceRegistry
  import opened RegionSpec
  import opened RegionLaws
  import opened RegionRuns
  import LinkTiming

  // ----- the time of the last tick

  function LastTick(start: u64, timeoutMs: u64, run: seq<Input>): Option<u64> {
    if run == [] then None
    else if run[|run| - 1].Tick? then Some(After(start, timeoutMs, run[..|run| - 1]).now)
    else LastTick(start, timeoutMs, run[..|run| - 1])
  }

  // A device the last tick returned is still faulty, or has registered since
  ghost predicate LostSince(r: Region, last: Option<u64>) {
    && (last.None? ==> r.activeLost == {})
    && (last.Some? ==>
          && last.value <= r.now
          && forall u <- r.activeLost :: u in r.reg.dev
                                         && (r.reg.dev[u].fault || r.reg.dev[u].lastSeenMs >= last.value))
  }

  lemma OthersKeepActiveLost(r: Region, timeoutMs: u64, i: Input)
    requires Enabled(r, timeoutMs, i) && !i.Tick?
    ensures Step(r, timeoutMs, i).activeLost == r.activeLost && Step(r, timeoutMs, i).now >= r.now
  {
    LinkTiming.ClockOf(r, timeoutMs, i);
    match i
    case Telemetry(uri, zone, motion) =>
      hide Edges, SwitchTo;
      EdgesEffect(SeenSensor(r, uri, zone), uri, zone, motion);
    case Receive(sid, body, unixTime) =>
      hide DecodeRegisterReq, DecodeStatus, DecodeFault, Send, SwitchTo, Upserted;
    case _ =>
  }

  lemma RegistrationIsSeen(r: Region, timeoutMs: u64, i: Input, u: Str, sid: nat)
    requires Enabled(r, timeoutMs, i) && i.Receive? && Registered(u, sid) in LogDelta(r, timeoutMs, i)
    ensures var b := Step(r, timeoutMs, i); u in b.reg.dev && b.reg.dev[u].lastSeenMs == r.now
  {
    hide DecodeRegisterReq, DecodeStatus, DecodeFault, Send, SwitchTo;
  }

  lemma OtherStepLost(r: Region, timeoutMs: u64, i: Input, last: Option<u64>)
    requires Enabled(r, timeoutMs, i) && !i.Tick? && SeenInv(r) && LostSince(r, last)
    ensures LostSince(Step(r, timeoutMs, i), last)
  {
    var b := Step(r, timeoutMs, i);
    OthersKeepActiveLost(r, timeoutMs, i);
    hide Step, Enabled, SeenInv, LogDelta;
    if last.Some? {
      forall u | u in b.activeLost
        ensures u in b.reg.dev && (b.reg.dev[u].fault || b.reg.dev[u].lastSeenMs >= last.value)
      {
        LinkTiming.SeenNeverBack(r, timeoutMs, i, u);
        if r.reg.dev[u].fault {
          FaultKept(r, timeoutMs, i, u);
          if sid :| i.Receive? && Registered(u, sid) in LogDelta(r, timeoutMs, i) {
            RegistrationIsSeen(r, timeoutMs, i, u, sid);
          }
        }
      }
    }
  }

  lemma TickLost(r: Region, timeoutMs: u64, order: seq<Str>)
    requires Enabled(r, timeoutMs, Tick(order)) && FsmInv(r)
    ensures LostSince(Step(r, timeoutMs, Tick(order)), Some(r.now))
  {
    TickSettles(r, timeoutMs, order);
    TickLogs(r, timeoutMs, order);
    RaiseAllReg(r.(reg := MarkLost(r.reg, r.now, timeoutMs)), order);
    hide OnTick, FsmInv, TickLog, RaiseAll, IsLost;
  }

  lemma {:induction false} LostHolds(start: u64, timeoutMs: u64, run: seq<Input>)
    requires Possible(start, timeoutMs, run)
    ensures LostSince(After(start, timeoutMs, run), LastTick(start, timeoutMs, run))
  {
    if run != [] {
      PossibleInit(start, timeoutMs, run);
      var init, i := run[..|run| - 1], run[|run| - 1];
      LostHolds(start, timeoutMs, init);
      RegionInvariant(start, timeoutMs, init);
      hide Step, Enabled, SeenInv, FsmInv, LostSince;
      if i.Tick? {
        TickLost(After(start, timeoutMs, init), timeoutMs, i.order);
      } else {
        OtherStepLost(After(start, timeoutMs, init), timeoutMs, i, LastTick(start, timeoutMs, init));
      }
    }
  }

  lemma NotTwice(r: Region, timeoutMs: u64, order: seq<Str>, last: Option<u64>, u: Str)
    requires LostSince(r, last) && (last.Some? ==> r.now - last.value <= timeoutMs) && u in r.activeLost
    requires u in order ==> u in r.reg.dev && !r.reg.dev[u].fault && r.now - r.reg.dev[u].lastSeenMs > timeoutMs
    ensures u !in order
  {}

  /** If the last tick is no longer ago than the timeout, a tick raises an alarm for exactly the devices it returns. */
  lemma EveryLossIsAlarmed(start: u64, timeoutMs: u64, run: seq<Input>, order: seq<Str>)
    requires Possible(start, timeoutMs, run) && Enabled(After(start, timeoutMs, run), timeoutMs, Tick(order))
    requires var last := LastTick(start, timeoutMs, run);
             last.Some? ==> After(start, timeoutMs, run).now - last.value <= timeoutMs
    ensures var r, b := After(start, timeoutMs, run), After(start, timeoutMs, run + [Tick(order)]);
            && r.log <= b.log
            && forall u :: SomeLoses(b.log[|r.log|..], u) <==> u in order
  {
    var r, last := After(start, timeoutMs, run), LastTick(start, timeoutMs, run);
    TickAlarms(start, timeoutMs, run, order);
    LostHolds(start, timeoutMs, run);
    RegionInvariant(start, timeoutMs, run);
    hide After, Possible, LastTick, SomeLoses, FsmInv;
    forall u | u in r.activeLost
      ensures u !in order
    {
      LostExactly(r, timeoutMs, order, u);
      hide SeenInv, LostSince, Enabled;
      NotTwice(r, timeoutMs, order, last, u);
    }
  }
}
