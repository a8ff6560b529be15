/** Safety of whole runs of a regional server: clocks, alarms, sessions and motion events. */
module RegionRuns {
  import opened Basics
  import opened Codec
  import opened Proto
  import opened Framing
  import opened WriteQueue
  import opened DeviceRegistry
  import opened RegionSpec
  import opened RegionLaws

  // ----- what one step appends to the log

  function MessageLog(r: Region, sid: nat, body: seq<u8>): seq<LogEntry>
    requires sid in r.live
  {
    if body == [] then []
    else if body[0] == REGISTER_REQ then
      match DecodeRegisterReq(body[1..])
      case Ok(req) => if req.uri == [] || req.zoneId == 0 then [] else [Registered(req.uri, sid)]
      case Err(_) => []
    else if body[0] == FAULT_REPORT then
      match DecodeFault(body[1..])
      case Ok(f) =>
        var lamp := if f.uri in r.reg.dev then r.reg.dev[f.uri].kind == LUMINAIRE
                    else r.live[sid].registered && f.uri == r.live[sid].uri && r.live[sid].uri != []
                         ==> r.live[sid].kind == LUMINAIRE;
        [DeviceFaultAlarm(f.uri, f.zoneId, if lamp then 1 else 2, f.code, f.text)]
      case Err(_) => []
    else []
  }

  function TelemetryLog(r: Region, uri: Str, zone: u32, motion: u8): seq<LogEntry> {
    if motion == 254 then [SensorFaultAlarm(uri, zone, 1)]
    else if motion == 0 || motion == 1 then EdgeLog(r, uri, zone, motion) else []
  }

  // The alarm a tick raises for a device it has just lost
  function LostAlarm(r: Region, uri: Str): LogEntry
    requires uri in r.reg.dev
  {
    CommLostAlarm(uri, r.reg.dev[uri].zoneId, if r.reg.dev[uri].kind == LUMINAIRE then 1 else 2)
  }

  // Only devices the previous tick did not return raise one
  function TickLog(r: Region, lost: seq<Str>): seq<LogEntry>
    requires forall u <- lost :: u in r.reg.dev
  {
    if lost == [] then []
    else
      var u := lost[|lost| - 1];
      TickLog(r, lost[..|lost| - 1]) + if u in r.activeLost then [] else [LostAlarm(r, u)]
  }

  ghost function LogDelta(r: Region, timeoutMs: u64, i: Input): seq<LogEntry>
    requires Enabled(r, timeoutMs, i)
  {
    match i
    case Receive(sid, body, _) => MessageLog(r, sid, body)
    case Telemetry(uri, zone, motion) => TelemetryLog(r, uri, zone, motion)
    case Tick(order) => EnabledTick(r, timeoutMs, order); TickLog(r, order)
    case _ => []
  }

  lemma {:induction false} RaiseAllLog(a: Region, r: Region, lost: seq<Str>)
    requires NoDup(lost) && (forall u <- lost :: u in r.reg.dev)
    requires a.activeLost == r.activeLost && a.log == r.log && a.reg.dev.Keys == r.reg.dev.Keys
    requires forall u <- r.reg.dev :: a.reg.dev[u].(fault := r.reg.dev[u].fault) == r.reg.dev[u]
    ensures var b := RaiseAll(a, lost);
            && b.log == r.log + TickLog(r, lost)
            && b.activeLost == r.activeLost + (set u | u in lost)
            && b.reg == a.reg
  {
    hide SwitchTo;
    assert r.log + [] == r.log;
    if lost != [] {
      var init, u := lost[..|lost| - 1], lost[|lost| - 1];
      assert lost == init + [u];
      RaiseAllLog(a, r, init);
      RaiseLostLog(RaiseAll(a, init), r, u);
      hide RaiseLost;
      assert u !in init;
    }
  }

  lemma RaiseLostLog(a: Region, r: Region, u: Str)
    requires u in r.reg.dev && u in a.reg.dev && (u in a.activeLost <==> u in r.activeLost)
    requires a.reg.dev[u].(fault := r.reg.dev[u].fault) == r.reg.dev[u]
    ensures var b := RaiseLost(a, u);
            && b.log == a.log + (if u in r.activeLost then [] else [LostAlarm(r, u)])
            && b.activeLost == a.activeLost + {u} && b.reg == a.reg
  {
    hide SwitchTo;
    var st := a.reg.dev[u].(fault := r.reg.dev[u].fault);
    assert st.zoneId == a.reg.dev[u].zoneId && st.kind == a.reg.dev[u].kind;
    assert a.log + [] == a.log;
  }

  lemma TickLogs(r: Region, timeoutMs: u64, lost: seq<Str>)
    requires Lists(lost, LostSet(r.reg.dev, r.now, timeoutMs))
    ensures forall u <- lost :: u in r.reg.dev && IsLost(r.reg.dev[u], r.now, timeoutMs)
    ensures OnTick(r, timeoutMs, lost).log == r.log + TickLog(r, lost)
    ensures OnTick(r, timeoutMs, lost).reg == MarkLost(r.reg, r.now, timeoutMs)
  {
    forall u | u in lost
      ensures u in r.reg.dev && IsLost(r.reg.dev[u], r.now, timeoutMs)
    {
      assert u in Elems(lost);
    }
    hide IsLost;
    var a := r.(reg := MarkLost(r.reg, r.now, timeoutMs));
    RaiseAllLog(a, r, lost);
  }

  lemma EnabledTick(r: Region, timeoutMs: u64, order: seq<Str>)
    requires Enabled(r, timeoutMs, Tick(order))
    ensures forall u <- order :: u in r.reg.dev
  {
    forall u | u in order
      ensures u in r.reg.dev
    {
      assert u in Elems(order);
    }
  }

  lemma MessageLogs(r: Region, sid: nat, body: seq<u8>, unixTime: u32)
    requires sid in r.live
    ensures OnMessage(r, sid, body, unixTime).log == r.log + MessageLog(r, sid, body)
  {
    hide DecodeRegisterReq, DecodeStatus, DecodeFault, SwitchTo, Send, Upserted, LampRegistered;
    assert r.log + [] == r.log;
  }

  lemma TelemetryLogs(r: Region, uri: Str, zone: u32, motion: u8)
    ensures OnTelemetry(r, uri, zone, motion).log == r.log + TelemetryLog(r, uri, zone, motion)
  {
    EdgesEffect(SeenSensor(r, uri, zone), uri, zone, motion);
    hide SwitchTo, Edges, Upserted;
    assert r.log + [] == r.log;
  }

  lemma LogStep(r: Region, timeoutMs: u64, i: Input)
    requires Enabled(r, timeoutMs, i)
    ensures Step(r, timeoutMs, i).log == r.log + LogDelta(r, timeoutMs, i)
  {
    hide OnMessage, OnTelemetry, OnTick, MessageLog, TelemetryLog, TickLog, RunPosted, DoWrite, Completed;
    assert r.log + [] == r.log;
    match i
    case Receive(sid, body, unixTime) => MessageLogs(r, sid, body, unixTime);
    case Telemetry(uri, zone, motion) => TelemetryLogs(r, uri, zone, motion);
    case Tick(order) =>
      EnabledTick(r, timeoutMs, order);
      TickLogs(r, timeoutMs, order);
    case _ =>
  }

  // ----- one comm-lost alarm for each episode

  predicate Loses(e: LogEntry, u: Str) { e.CommLostAlarm? && e.uri == u }

  predicate Registers(e: LogEntry, u: Str) { e.Registered? && e.uri == u }

  // The last alarm for u has not been followed by a registration of u
  function Pending(log: seq<LogEntry>, u: Str): bool {
    if log == [] then false
    else
      var e := log[|log| - 1];
      Loses(e, u) || (!Registers(e, u) && Pending(log[..|log| - 1], u))
  }

  // Every alarm for u comes when none is pending
  ghost predicate Spaced(log: seq<LogEntry>, u: Str) {
    log == [] || (Spaced(log[..|log| - 1], u) && (Loses(log[|log| - 1], u) ==> !Pending(log[..|log| - 1], u)))
  }

  ghost predicate EpisodeInv(r: Region, u: Str) {
    Spaced(r.log, u) && (Pending(r.log, u) ==> u in r.reg.dev && r.reg.dev[u].fault)
  }

  lemma Snoc(log: seq<LogEntry>, e: LogEntry, u: Str)
    ensures Pending(log + [e], u) <==> Loses(e, u) || (!Registers(e, u) && Pending(log, u))
    ensures Spaced(log + [e], u) <==> Spaced(log, u) && (Loses(e, u) ==> !Pending(log, u))
  {
    assert (log + [e])[..|log|] == log;
  }

  /** No reachable step other than a registration of u clears its fault flag. */
  lemma FaultKept(r: Region, timeoutMs: u64, i: Input, u: Str)
    requires Enabled(r, timeoutMs, i) && u in r.reg.dev && r.reg.dev[u].fault
    ensures var b := Step(r, timeoutMs, i);
            && u in b.reg.dev
            && (b.reg.dev[u].fault || (i.Receive? && exists sid :: Registered(u, sid) in LogDelta(r, timeoutMs, i)))
  {
    match i
    case Receive(sid, body, unixTime) =>
      hide OnMessage, MessageLog;
      MessageKeepsFault(r, sid, body, unixTime, u);
    case Telemetry(uri, zone, motion) =>
      hide Edges, SwitchTo;
      EdgesEffect(SeenSensor(r, uri, zone), uri, zone, motion);
    case Tick(order) =>
      hide OnTick;
      TickLogs(r, timeoutMs, order);
    case _ => hide RunPosted, DoWrite;
  }

  lemma MessageKeepsFault(r: Region, sid: nat, body: seq<u8>, unixTime: u32, u: Str)
    requires sid in r.live && u in r.reg.dev && r.reg.dev[u].fault
    ensures var b := OnMessage(r, sid, body, unixTime);
            && u in b.reg.dev && (b.reg.dev[u].fault || Registered(u, sid) in MessageLog(r, sid, body))
  {
    hide DecodeRegisterReq, DecodeStatus, DecodeFault, SwitchTo, Send, Indexed, U32Bytes;
    var d := MessageLog(r, sid, body);
    assert d != [] && d[0].Registered? ==> d[0] in d && d[0] == Registered(d[0].uri, sid);
  }

  lemma {:induction false} TickEpisodes(r: Region, lost: seq<Str>, u: Str)
    requires NoDup(lost) && (forall v <- lost :: v in r.reg.dev && !r.reg.dev[v].fault)
    requires EpisodeInv(r, u)
    ensures var log := r.log + TickLog(r, lost);
            Spaced(log, u) && (Pending(log, u) ==> Pending(r.log, u) || u in lost)
  {
    assert r.log + [] == r.log;
    if lost != [] {
      var init, v := lost[..|lost| - 1], lost[|lost| - 1];
      assert lost == init + [v] && v !in init;
      TickEpisodes(r, init, u);
      var log := r.log + TickLog(r, init);
      if v in r.activeLost {
        assert TickLog(r, lost) == TickLog(r, init);
      } else {
        assert r.log + TickLog(r, lost) == log + [LostAlarm(r, v)];
        Snoc(log, LostAlarm(r, v), u);
        assert v == u ==> !Pending(log, u);
      }
    }
  }

  lemma EpisodeStep(r: Region, timeoutMs: u64, i: Input, u: Str)
    requires Enabled(r, timeoutMs, i) && EpisodeInv(r, u)
    ensures EpisodeInv(Step(r, timeoutMs, i), u)
  {
    LogStep(r, timeoutMs, i);
    var d := LogDelta(r, timeoutMs, i);
    if i.Tick? {
      TickLogs(r, timeoutMs, i.order);
      TickEpisodes(r, i.order, u);
      TickFaults(r, timeoutMs, i.order, u);
    } else {
      ShortDelta(r, timeoutMs, i);
      if d == [] {
        assert r.log + d == r.log;
      } else {
        assert d == [d[0]];
        Snoc(r.log, d[0], u);
      }
      if Pending(r.log, u) {
        FaultKept(r, timeoutMs, i, u);
      }
    }
  }

  lemma TickFaults(r: Region, timeoutMs: u64, lost: seq<Str>, u: Str)
    requires Lists(lost, LostSet(r.reg.dev, r.now, timeoutMs))
    ensures u in lost || (u in r.reg.dev && r.reg.dev[u].fault)
            ==> u in OnTick(r, timeoutMs, lost).reg.dev && OnTick(r, timeoutMs, lost).reg.dev[u].fault
  {
    TickLogs(r, timeoutMs, lost);
  }

  lemma ShortDelta(r: Region, timeoutMs: u64, i: Input)
    requires Enabled(r, timeoutMs, i) && !i.Tick?
    ensures |LogDelta(r, timeoutMs, i)| <= 1
    ensures forall e <- LogDelta(r, timeoutMs, i) :: !e.CommLostAlarm?
  {}

  lemma {:induction false} EpisodesHold(start: u64, timeoutMs: u64, run: seq<Input>, u: Str)
    requires Possible(start, timeoutMs, run)
    ensures EpisodeInv(After(start, timeoutMs, run), u)
  {
    if run != [] {
      PossibleInit(start, timeoutMs, run);
      EpisodesHold(start, timeoutMs, run[..|run| - 1], u);
      EpisodeStep(After(start, timeoutMs, run[..|run| - 1]), timeoutMs, run[|run| - 1], u);
    }
  }

  function AlarmCount(log: seq<LogEntry>, u: Str): nat {
    if log == [] then 0 else AlarmCount(log[..|log| - 1], u) + if Loses(log[|log| - 1], u) then 1 else 0
  }

  function RegistrationCount(log: seq<LogEntry>, u: Str): nat {
    if log == [] then 0 else RegistrationCount(log[..|log| - 1], u) + if Registers(log[|log| - 1], u) then 1 else 0
  }

  lemma {:induction false} SpacedCounts(log: seq<LogEntry>, u: Str)
    requires Spaced(log, u)
    ensures AlarmCount(log, u) + (if Pending(log, u) then 0 else 1) <= RegistrationCount(log, u) + 1
  {
    if log != [] {
      SpacedCounts(log[..|log| - 1], u);
    }
  }

  lemma {:induction false} PendingUntilRegistered(log: seq<LogEntry>, i: nat, u: Str)
    requires i < |log| && Loses(log[i], u)
    requires forall k :: i < k < |log| ==> !Registers(log[k], u)
    ensures Pending(log, u)
  {
    if i < |log| - 1 {
      PendingUntilRegistered(log[..|log| - 1], i, u);
    }
  }

  lemma {:induction false} SpacedAt(log: seq<LogEntry>, j: nat, u: Str)
    requires Spaced(log, u) && j < |log| && Loses(log[j], u)
    ensures !Pending(log[..j], u)
  {
    if j < |log| - 1 {
      SpacedAt(log[..|log| - 1], j, u);
      assert log[..|log| - 1][..j] == log[..j];
    }
  }

  /** In every run, between two comm-lost alarms for the same device lies a registration of that device;
      so a device raises at most one alarm more than it registers. */
  lemma OneAlarmPerEpisode(start: u64, timeoutMs: u64, run: seq<Input>, u: Str)
    requires Possible(start, timeoutMs, run)
    ensures var log := After(start, timeoutMs, run).log;
            && (forall i, j :: 0 <= i < j < |log| && Loses(log[i], u) && Loses(log[j], u)
                  ==> exists k :: i < k < j && Registers(log[k], u))
            && AlarmCount(log, u) <= RegistrationCount(log, u) + 1
  {
    EpisodesHold(start, timeoutMs, run, u);
    var log := After(start, timeoutMs, run).log;
    SpacedCounts(log, u);
    forall i, j | 0 <= i < j < |log| && Loses(log[i], u) && Loses(log[j], u)
      ensures exists k :: i < k < j && Registers(log[k], u)
    {
      SpacedAt(log, j, u);
      if forall k :: i < k < j ==> !Registers(log[k], u) {
        PendingUntilRegistered(log[..j], i, u);
      }
    }
  }

  // ----- time

  lemma {:induction false} RegionInvariant(start: u64, timeoutMs: u64, run: seq<Input>)
    requires Possible(start, timeoutMs, run)
    ensures FsmInv(After(start, timeoutMs, run)) && SeenInv(After(start, timeoutMs, run))
  {
    if run != [] {
      PossibleInit(start, timeoutMs, run);
      var r := After(start, timeoutMs, run[..|run| - 1]);
      RegionInvariant(start, timeoutMs, run[..|run| - 1]);
      FsmStep(r, timeoutMs, run[|run| - 1]);
      SeenStep(r, timeoutMs, run[|run| - 1]);
    } else {
      BootFsm(start);
    }
  }

  lemma BootFsm(start: u64)
    ensures Boot(start).fsm == NORMAL_OPERATION
  {}

  lemma NoWrap(now: u64, seen: u64)
    requires seen <= now
    ensures SubU64(now, seen) == now - seen
  {}

  lemma LostExactly(r: Region, timeoutMs: u64, order: seq<Str>, u: Str)
    requires SeenInv(r) && Lists(order, LostSet(r.reg.dev, r.now, timeoutMs))
    ensures u in order <==> u in r.reg.dev && !r.reg.dev[u].fault && r.reg.dev[u].lastSeenMs > 0
                            && r.now - r.reg.dev[u].lastSeenMs > timeoutMs
  {
    assert u in order <==> u in Elems(order);
    if u in r.reg.dev {
      NoWrap(r.now, r.reg.dev[u].lastSeenMs);
    }
    hide SubU64;
  }

  lemma RemainingAreFresh(r: Region, timeoutMs: u64, u: Str)
    requires SeenInv(r) && u in r.reg.dev
    ensures var st := MarkLost(r.reg, r.now, timeoutMs).dev[u];
            !st.fault && st.lastSeenMs > 0 ==> r.now - st.lastSeenMs <= timeoutMs
  {
    NoWrap(r.now, r.reg.dev[u].lastSeenMs);
    hide SubU64;
  }

  /** In every run the clock is never behind a record, so the unsigned subtraction does not wrap, and a tick returns
      exactly the devices without a fault that were heard from longer than the timeout ago. After it, every device
      without a fault that was ever heard from was heard from within the timeout. */
  lemma DetectionIsExact(start: u64, timeoutMs: u64, run: seq<Input>, order: seq<Str>)
    requires Possible(start, timeoutMs, run) && Enabled(After(start, timeoutMs, run), timeoutMs, Tick(order))
    ensures var r, b := After(start, timeoutMs, run), After(start, timeoutMs, run + [Tick(order)]);
            && (forall u <- r.reg.dev :: r.reg.dev[u].lastSeenMs <= r.now)
            && (forall u :: u in order <==> u in r.reg.dev && !r.reg.dev[u].fault && r.reg.dev[u].lastSeenMs > 0
                                            && r.now - r.reg.dev[u].lastSeenMs > timeoutMs)
            && (forall u <- b.reg.dev :: !b.reg.dev[u].fault && b.reg.dev[u].lastSeenMs > 0
                                         ==> b.now - b.reg.dev[u].lastSeenMs <= timeoutMs)
  {
    var r := After(start, timeoutMs, run);
    RegionInvariant(start, timeoutMs, run);
    assert (run + [Tick(order)])[..|run|] == run;
    TickLogs(r, timeoutMs, order);
    RaiseAllReg(r.(reg := MarkLost(r.reg, r.now, timeoutMs)), order);
    var b := OnTick(r, timeoutMs, order);
    assert b.now == r.now && b.reg == MarkLost(r.reg, r.now, timeoutMs);
    assert After(start, timeoutMs, run + [Tick(order)]) == b;
    hide OnTick, LostSet, IsLost, FsmInv, After, Possible;
    forall u
      ensures u in order <==> u in r.reg.dev && !r.reg.dev[u].fault && r.reg.dev[u].lastSeenMs > 0
                              && r.now - r.reg.dev[u].lastSeenMs > timeoutMs
    {
      LostExactly(r, timeoutMs, order, u);
    }
    forall u | u in b.reg.dev
      ensures !b.reg.dev[u].fault && b.reg.dev[u].lastSeenMs > 0 ==> b.now - b.reg.dev[u].lastSeenMs <= timeoutMs
    {
      RemainingAreFresh(r, timeoutMs, u);
    }
  }

  /** In every run the server is in NORMAL_OPERATION or FAULT_HANDLING, a device in activeLost means FAULT_HANDLING,
      and after each tick activeLost is what the tick returned and decides the state. */
  lemma ServerStateFollowsTicks(start: u64, timeoutMs: u64, run: seq<Input>, order: seq<Str>)
    requires Possible(start, timeoutMs, run) && Enabled(After(start, timeoutMs, run), timeoutMs, Tick(order))
    ensures var r, b := After(start, timeoutMs, run), After(start, timeoutMs, run + [Tick(order)]);
            && r.fsm in {NORMAL_OPERATION, FAULT_HANDLING}
            && (r.activeLost != {} ==> r.fsm == FAULT_HANDLING)
            && b.activeLost == (set u | u in order)
            && b.fsm == if order != [] then FAULT_HANDLING else NORMAL_OPERATION
  {
    RegionInvariant(start, timeoutMs, run);
    assert (run + [Tick(order)])[..|run|] == run;
    TickSettles(After(start, timeoutMs, run), timeoutMs, order);
    hide OnTick, SeenInv;
  }

  ghost predicate SomeLoses(d: seq<LogEntry>, u: Str) {
    exists k :: 0 <= k < |d| && Loses(d[k], u)
  }

  /** A tick raises the alarm for exactly those devices it has just lost that the previous tick did not return. */
  lemma TickAlarms(start: u64, timeoutMs: u64, run: seq<Input>, order: seq<Str>)
    requires Possible(start, timeoutMs, run) && Enabled(After(start, timeoutMs, run), timeoutMs, Tick(order))
    ensures var r, b := After(start, timeoutMs, run), After(start, timeoutMs, run + [Tick(order)]);
            && r.log <= b.log
            && forall u :: SomeLoses(b.log[|r.log|..], u) <==> u in order && u !in r.activeLost
  {
    var r := After(start, timeoutMs, run);
    assert (run + [Tick(order)])[..|run|] == run;
    EnabledTick(r, timeoutMs, order);
    TickLogs(r, timeoutMs, order);
    var b, d := After(start, timeoutMs, run + [Tick(order)]), TickLog(r, order);
    assert b.log == r.log + d;
    assert b.log[|r.log|..] == d;
    TickLogNames(r, order);
  }

  lemma {:induction false} TickLogNames(r: Region, lost: seq<Str>)
    requires forall u <- lost :: u in r.reg.dev
    ensures forall u :: SomeLoses(TickLog(r, lost), u) <==> u in lost && u !in r.activeLost
  {
    if lost != [] {
      var init, v := lost[..|lost| - 1], lost[|lost| - 1];
      TickLogNames(r, init);
      assert lost == init + [v];
      var a := TickLog(r, init);
      if v in r.activeLost {
        assert TickLog(r, lost) == a;
      } else {
        assert TickLog(r, lost) == a + [LostAlarm(r, v)];
        forall u
          ensures SomeLoses(a + [LostAlarm(r, v)], u) <==> SomeLoses(a, u) || u == v
        {
          SomeLosesSnoc(a, LostAlarm(r, v), u);
        }
      }
    }
  }

  lemma SomeLosesSnoc(a: seq<LogEntry>, e: LogEntry, u: Str)
    ensures SomeLoses(a + [e], u) <==> SomeLoses(a, u) || Loses(e, u)
  {
    assert (a + [e])[|a|] == e;
    if k :| 0 <= k < |a| && Loses(a[k], u) {
      assert Loses((a + [e])[k], u);
    }
  }

  /** A registered session always has a record, so the branches for an unknown device of a registered session are
      never taken: the status of an unknown device changes nothing, and its fault makes it a lamp. */
  lemma UnknownDeviceBranches(start: u64, timeoutMs: u64, run: seq<Input>, sid: nat, s: StatusReport, f: FaultReport)
    requires Possible(start, timeoutMs, run)
    requires var r := After(start, timeoutMs, run);
             sid in r.live && s.uri !in r.reg.dev && f.uri !in r.reg.dev
    ensures var r := After(start, timeoutMs, run);
            && HandleStatus(r, sid, s) == r
            && HandleFault(r, sid, f).reg.dev[f.uri] == DeviceState(LUMINAIRE, f.zoneId, 0, 0, 0, true, r.now)
  {
    RegionInvariant(start, timeoutMs, run);
    hide SwitchTo;
  }
}
