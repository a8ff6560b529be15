/**
 What single inputs do in every run of a regional server: its state, closing sessions, answers and dangling entries.
 */
module RegionEffects {
  import opened Basics
  import opened Codec
  import opened Proto
  import opened Framing
  import opened WriteQueue
  import opened DeviceRegistry
  import opened RegionSpec
  import opened RegionLaws
  import opened RegionRuns
  import opened RegionSessions

  // ----- the server's state follows the alarms

  predicate IsAlarm(e: LogEntry) { e.DeviceFaultAlarm? || e.SensorFaultAlarm? || e.CommLostAlarm? }

  ghost predicate HasAlarm(d: seq<LogEntry>) { exists k :: 0 <= k < |d| && IsAlarm(d[k]) }

  lemma MessageState(r: Region, sid: nat, body: seq<u8>, unixTime: u32)
    requires sid in r.live && FsmInv(r)
    ensures var b, d := OnMessage(r, sid, body, unixTime), MessageLog(r, sid, body);
            |d| <= 1 && b.fsm == if d != [] && IsAlarm(d[0]) then FAULT_HANDLING else r.fsm
  {
    Transitions();
    hide SwitchTo, DecodeRegisterReq, DecodeStatus, DecodeFault, Send, Upserted, LampRegistered;
  }

  lemma TelemetryState(r: Region, uri: Str, zone: u32, motion: u8)
    requires FsmInv(r)
    ensures var b, d := OnTelemetry(r, uri, zone, motion), TelemetryLog(r, uri, zone, motion);
            |d| <= 1 && b.fsm == if d != [] && IsAlarm(d[0]) then FAULT_HANDLING else r.fsm
  {
    Transitions();
    EdgesEffect(SeenSensor(r, uri, zone), uri, zone, motion);
    hide SwitchTo, Edges, Upserted;
  }

  lemma OneAlarm(d: seq<LogEntry>)
    requires |d| <= 1
    ensures HasAlarm(d) <==> d != [] && IsAlarm(d[0])
  {}

  lemma {:induction false} AlarmsOfTick(r: Region, lost: seq<Str>)
    requires forall u <- lost :: u in r.reg.dev
    ensures HasAlarm(TickLog(r, lost)) <==> exists u <- lost :: u !in r.activeLost
  {
    if lost != [] {
      var init, u := lost[..|lost| - 1], lost[|lost| - 1];
      AlarmsOfTick(r, init);
      assert lost == init + [u];
      if u in r.activeLost {
        assert TickLog(r, lost) == TickLog(r, init);
      } else {
        assert TickLog(r, lost)[|TickLog(r, init)|] == LostAlarm(r, u) && IsAlarm(LostAlarm(r, u));
        assert u in lost;
      }
    }
  }

  lemma TickState(r: Region, timeoutMs: u64, order: seq<Str>)
    requires FsmInv(r) && Enabled(r, timeoutMs, Tick(order))
    ensures forall u <- order :: u in r.reg.dev
    ensures OnTick(r, timeoutMs, order).fsm
            == if HasAlarm(TickLog(r, order)) || (r.fsm == FAULT_HANDLING && order != []) then FAULT_HANDLING
               else NORMAL_OPERATION
  {
    EnabledTick(r, timeoutMs, order);
    TickSettles(r, timeoutMs, order);
    AlarmsOfTick(r, order);
    hide OnTick, TickLog, HasAlarm;
    if order != [] {
      assert order[0] in order;
    }
  }

  /** In every run the server handles a fault after a step exactly when the step raised an alarm (of a device, a sensor
      or a lost connection), or the server did before and the step was not a tick that returned nothing. */
  lemma StateFollowsAlarms(start: u64, timeoutMs: u64, run: seq<Input>, i: Input)
    requires Possible(start, timeoutMs, run) && Enabled(After(start, timeoutMs, run), timeoutMs, i)
    ensures var r, b := After(start, timeoutMs, run), After(start, timeoutMs, run + [i]);
            && r.log <= b.log
            && b.fsm == if HasAlarm(b.log[|r.log|..]) || (r.fsm == FAULT_HANDLING && i != Tick([]))
                        then FAULT_HANDLING else NORMAL_OPERATION
  {
    var r := After(start, timeoutMs, run);
    RegionInvariant(start, timeoutMs, run);
    LogStep(r, timeoutMs, i);
    assert (run + [i])[..|run|] == run;
    assert Step(r, timeoutMs, i).log[|r.log|..] == LogDelta(r, timeoutMs, i);
    StepState(r, timeoutMs, i);
    hide Step, Enabled, Possible, SeenInv, FsmInv, HasAlarm, LogDelta;
  }

  lemma StepState(r: Region, timeoutMs: u64, i: Input)
    requires FsmInv(r) && Enabled(r, timeoutMs, i)
    ensures Step(r, timeoutMs, i).fsm
            == if HasAlarm(LogDelta(r, timeoutMs, i)) || (r.fsm == FAULT_HANDLING && i != Tick([]))
               then FAULT_HANDLING else NORMAL_OPERATION
  {
    match i
    case Receive(sid, body, unixTime) =>
      hide OnMessage, MessageLog, HasAlarm;
      MessageState(r, sid, body, unixTime);
      OneAlarm(MessageLog(r, sid, body));
    case Telemetry(uri, zone, motion) =>
      hide OnTelemetry, TelemetryLog, HasAlarm;
      TelemetryState(r, uri, zone, motion);
      OneAlarm(TelemetryLog(r, uri, zone, motion));
    case Tick(order) =>
      hide OnTick, HasAlarm;
      TickState(r, timeoutMs, order);
    case _ =>
      OneAlarm([]);
      hide RunPosted, DoWrite, HasAlarm;
  }

  // ----- closing

  lemma CloseStep(r: Region, timeoutMs: u64, s: nat)
    requires s in r.live
    ensures var b, u := Step(r, timeoutMs, Close(s)), r.live[s].uri;
            && s in b.live && b.live[s] == r.live[s].(closed := true) && b.log == r.log && b.reg == r.reg
            && b.live.Keys == r.live.Keys
            && (u in b.sessions && u != [] ==> u in r.sessions && b.sessions[u] == r.sessions[u] != s
                                               && b.sessions[u] in b.live)
            && (forall v :: v != u ==> (v in b.sessions <==> v in r.sessions)
                                       && (v in b.sessions ==> b.sessions[v] == r.sessions[v]))
  {}

  /** In every run closing a session removes its own entry and dangling ones under its uri, and changes no other entry.
      A device whose last registrant it was, open until then, is no longer reached exactly if the session still bears
      that device's uri. */
  lemma CloseRemovesOwnEntry(start: u64, timeoutMs: u64, run: seq<Input>, s: nat)
    requires Possible(start, timeoutMs, run) && s in After(start, timeoutMs, run).live
    ensures var r, b := After(start, timeoutMs, run), After(start, timeoutMs, run + [Close(s)]);
            var u := r.live[s].uri;
            && (u in b.sessions ==> b.sessions[u] != s && b.sessions[u] in b.live)
            && (forall v :: v != u ==> (v in b.sessions <==> v in r.sessions)
                                       && (v in b.sessions ==> b.sessions[v] == r.sessions[v]))
            && (forall v :: OpenRegistrant(r, v, s) ==> (Reaches(b, v) <==> v != u))
  {
    var r := After(start, timeoutMs, run);
    HandoverHolds(start, timeoutMs, run);
    NoEmptyKey(start, timeoutMs, run);
    assert (run + [Close(s)])[..|run|] == run;
    CloseStep(r, timeoutMs, s);
    hide After, Possible, Step;
  }

  lemma NoEmptyKeyStep(r: Region, timeoutMs: u64, i: Input)
    requires [] !in r.sessions && Enabled(r, timeoutMs, i)
    ensures [] !in Step(r, timeoutMs, i).sessions
  {
    match i
    case Tick(order) =>
      hide RaiseAll;
      RaiseAllReg(r.(reg := MarkLost(r.reg, r.now, timeoutMs)), order);
    case Telemetry(uri, zone, motion) =>
      hide Edges, SwitchTo;
      EdgesEffect(SeenSensor(r, uri, zone), uri, zone, motion);
    case Receive(sid, body, unixTime) =>
      hide DecodeRegisterReq, DecodeStatus, DecodeFault, Send, SwitchTo, Upserted, LampRegistered;
    case _ =>
  }

  lemma {:induction false} NoEmptyKey(start: u64, timeoutMs: u64, run: seq<Input>)
    requires Possible(start, timeoutMs, run)
    ensures [] !in After(start, timeoutMs, run).sessions
  {
    if run != [] {
      PossibleInit(start, timeoutMs, run);
      NoEmptyKey(start, timeoutMs, run[..|run| - 1]);
      NoEmptyKeyStep(After(start, timeoutMs, run[..|run| - 1]), timeoutMs, run[|run| - 1]);
      hide Step, Enabled;
    }
  }

  // ----- answers

  // What a message is answered with: a registration by its acknowledgement, or by a refusal if it names no device or
  // no zone, and a fault by its acknowledgement
  function AnswerTo(body: seq<u8>, unixTime: u32): seq<Frame> {
    if body == [] then []
    else if body[0] == REGISTER_REQ && DecodeRegisterReq(body[1..]).Ok? then
      var req := DecodeRegisterReq(body[1..]).value;
      if req.uri != [] && req.zoneId != 0 then [Frame(REGISTER_ACK, U32Bytes(unixTime))] else [Frame(REGISTER_NACK, [])]
    else if body[0] == FAULT_REPORT && DecodeFault(body[1..]).Ok? then [Frame(FAULT_ACK, [])]
    else []
  }

  // The answers to everything a session has received, in order
  function Answers(run: seq<Input>, sid: nat): seq<Frame> {
    if run == [] then []
    else
      var i := run[|run| - 1];
      Answers(run[..|run| - 1], sid) + if i.Receive? && i.sid == sid then AnswerTo(i.body, i.unixTime) else []
  }

  // The frames that are not commands
  function RepliesIn(fs: seq<Frame>): seq<Frame> {
    if fs == [] then []
    else RepliesIn(fs[..|fs| - 1]) + if fs[|fs| - 1].kind != CMD then [fs[|fs| - 1]] else []
  }

  lemma RepliesSnoc(fs: seq<Frame>, f: Frame)
    ensures RepliesIn(fs + [f]) == RepliesIn(fs) + if f.kind != CMD then [f] else []
  {
    assert (fs + [f])[..|fs|] == fs;
  }

  // b differs from a in commands at most, as far as the session's frames go
  ghost predicate OnlyCommands(a: Region, b: Region, sid: nat) {
    sid in a.live ==> sid in b.live && RepliesIn(b.live[sid].q.sent) == RepliesIn(a.live[sid].q.sent)
  }

  lemma SendCmdOnlyCommands(r: Region, v: Str, cmd: u8, value: u8, sid: nat)
    ensures OnlyCommands(r, SendCmd(r, v, cmd, value), sid)
  {
    hide EncodeCommand, RepliesIn;
    if Reaches(r, v) && sid == r.sessions[v] {
      var me := r.live[sid];
      if me.uri != [] && EncodeCommand(Command(me.uri, cmd, value)).Ok? {
        RepliesSnoc(me.q.sent, Frame(CMD, EncodeCommand(Command(me.uri, cmd, value)).value));
      }
    }
  }

  lemma {:induction false} SendAllOnlyCommands(r: Region, lamps: seq<Str>, sid: nat)
    ensures OnlyCommands(r, SendAllOn(r, lamps), sid) && OnlyCommands(r, SendAllOff(r, lamps), sid)
  {
    hide SendCmd, RepliesIn;
    if lamps != [] {
      var init, u := lamps[..|lamps| - 1], lamps[|lamps| - 1];
      SendAllOnlyCommands(r, init, sid);
      SendCmdOnlyCommands(SendAllOn(r, init), u, CMD_SWITCH_ON, 0, sid);
      SendCmdOnlyCommands(SendCmd(SendAllOn(r, init), u, CMD_SWITCH_ON, 0), u, CMD_SET_INTENSITY, 60, sid);
      SendCmdOnlyCommands(SendAllOff(r, init), u, CMD_SWITCH_OFF, 0, sid);
    }
  }

  lemma TelemetryOnlyCommands(r: Region, uri: Str, zone: u32, motion: u8, sid: nat)
    ensures OnlyCommands(r, OnTelemetry(r, uri, zone, motion), sid)
  {
    var a := SeenSensor(r, uri, zone);
    var lamps := LampsOfZone(a.reg, zone);
    hide SendAllOn, SendAllOff, RepliesIn, SwitchTo, LastMotion, LampsOfZone, Upserted;
    SendAllOnlyCommands(a.(log := a.log + [MotionOn(uri, zone)]), lamps, sid);
    SendAllOnlyCommands(a.(log := a.log + [MotionOff(uri, zone)]), lamps, sid);
  }

  lemma MessageAnswers(r: Region, sid: nat, body: seq<u8>, unixTime: u32)
    requires sid in r.live
    ensures var b := OnMessage(r, sid, body, unixTime);
            && b.live.Keys == r.live.Keys
            && b.live[sid].q.sent == r.live[sid].q.sent + AnswerTo(body, unixTime)
            && forall s <- r.live :: s != sid ==> b.live[s] == r.live[s]
  {
    hide DecodeRegisterReq, DecodeStatus, DecodeFault, SwitchTo, Upserted, LampRegistered, U32Bytes;
    assert r.live[sid].q.sent + [] == r.live[sid].q.sent;
  }

  lemma {:induction false} AnswersAreReplies(fs: seq<Frame>, body: seq<u8>, unixTime: u32)
    ensures RepliesIn(fs + AnswerTo(body, unixTime)) == RepliesIn(fs) + AnswerTo(body, unixTime)
  {
    hide DecodeRegisterReq, DecodeFault, U32Bytes, RepliesIn;
    var answer := AnswerTo(body, unixTime);
    if answer == [] {
      assert fs + answer == fs;
    } else {
      assert answer == [answer[0]] && answer[0].kind != CMD;
      RepliesSnoc(fs, answer[0]);
    }
  }

  // How one input changes the replies of a session that exists before and after it
  lemma RepliesStep(r: Region, timeoutMs: u64, i: Input, sid: nat)
    requires Enabled(r, timeoutMs, i) && sid in r.live && sid < r.born && sid in Step(r, timeoutMs, i).live
    ensures RepliesIn(Step(r, timeoutMs, i).live[sid].q.sent)
            == RepliesIn(r.live[sid].q.sent) + if i.Receive? && i.sid == sid then AnswerTo(i.body, i.unixTime) else []
  {
    hide RepliesIn, AnswerTo;
    match i
    case Receive(s, body, unixTime) =>
      hide OnMessage;
      MessageAnswers(r, s, body, unixTime);
      AnswersAreReplies(r.live[s].q.sent, body, unixTime);
    case Telemetry(uri, zone, motion) =>
      hide OnTelemetry;
      TelemetryOnlyCommands(r, uri, zone, motion, sid);
    case Tick(order) =>
      hide RaiseAll;
      RaiseAllReg(r.(reg := MarkLost(r.reg, r.now, timeoutMs)), order);
    case _ =>
  }

  lemma LiveStep(r: Region, timeoutMs: u64, i: Input, sid: nat)
    requires Enabled(r, timeoutMs, i) && sid in Step(r, timeoutMs, i).live
    ensures sid in r.live || (i.Accept? && sid == r.born && Step(r, timeoutMs, i).live[sid].q.sent == [])
    ensures Step(r, timeoutMs, i).born >= r.born
  {
    BornGrows(r, timeoutMs, i);
    match i
    case Tick(order) =>
      hide RaiseAll;
      RaiseAllReg(r.(reg := MarkLost(r.reg, r.now, timeoutMs)), order);
    case Telemetry(uri, zone, motion) =>
      hide Edges, SwitchTo;
      EdgesEffect(SeenSensor(r, uri, zone), uri, zone, motion);
    case Receive(s, body, unixTime) =>
      hide OnMessage;
      MessageAnswers(r, s, body, unixTime);
    case _ => hide RunPosted, DoWrite;
  }

  lemma {:induction false} NothingBeforeBirth(start: u64, timeoutMs: u64, run: seq<Input>, sid: nat)
    requires Possible(start, timeoutMs, run) && sid >= After(start, timeoutMs, run).born
    ensures Answers(run, sid) == [] && LastRequest(run, sid) == None
  {
    if run != [] {
      var init, i := run[..|run| - 1], run[|run| - 1];
      PossibleInit(start, timeoutMs, run);
      HandoverHolds(start, timeoutMs, init);
      BornGrows(After(start, timeoutMs, init), timeoutMs, i);
      NothingBeforeBirth(start, timeoutMs, init, sid);
      hide Step, AnswerTo;
    }
  }

  lemma BornGrows(r: Region, timeoutMs: u64, i: Input)
    requires Enabled(r, timeoutMs, i)
    ensures Step(r, timeoutMs, i).born >= r.born
  {
    match i
    case Tick(order) =>
      hide RaiseAll;
      RaiseAllReg(r.(reg := MarkLost(r.reg, r.now, timeoutMs)), order);
    case Telemetry(uri, zone, motion) =>
      hide Edges, SwitchTo;
      EdgesEffect(SeenSensor(r, uri, zone), uri, zone, motion);
    case Receive(s, body, unixTime) =>
      hide DecodeRegisterReq, DecodeStatus, DecodeFault, Send, SwitchTo, Upserted, LampRegistered;
    case _ =>
  }

  /** In every run what a session was given to send besides commands is exactly the answers to the messages it received,
      in order. */
  lemma {:induction false} SessionAnswersMessages(start: u64, timeoutMs: u64, run: seq<Input>, sid: nat)
    requires Possible(start, timeoutMs, run) && sid in After(start, timeoutMs, run).live
    ensures RepliesIn(After(start, timeoutMs, run).live[sid].q.sent) == Answers(run, sid)
  {
    if run != [] {
      var init, i := run[..|run| - 1], run[|run| - 1];
      var r := After(start, timeoutMs, init);
      PossibleInit(start, timeoutMs, run);
      HandoverHolds(start, timeoutMs, init);
      LiveStep(r, timeoutMs, i, sid);
      if sid in r.live {
        SessionAnswersMessages(start, timeoutMs, init, sid);
        assert sid < r.born;
        hide Step, Enabled, RepliesIn, AnswerTo, HandoverInv;
        RepliesStep(r, timeoutMs, i, sid);
      } else {
        NothingBeforeBirth(start, timeoutMs, init, sid);
        hide Step, Enabled, AnswerTo, HandoverInv;
        assert Answers(run, sid) == [] + [];
      }
    }
  }

  // ----- dangling entries

  // b maps what a does, except the dangling entries of lamps
  ghost predicate Pruned(a: Region, b: Region, lamps: seq<Str>) {
    && b.live.Keys == a.live.Keys
    && (forall v :: v in b.sessions <==> v in a.sessions && (v in lamps ==> a.sessions[v] in a.live))
    && (forall v <- b.sessions :: b.sessions[v] == a.sessions[v])
  }

  lemma SendCmdPrunes(r: Region, u: Str, cmd: u8, value: u8)
    ensures Pruned(r, SendCmd(r, u, cmd, value), [u])
  {
    hide EncodeCommand, Send;
  }

  lemma PrunedJoins(a: Region, b: Region, c: Region, lamps: seq<Str>, more: seq<Str>)
    requires Pruned(a, b, lamps) && Pruned(b, c, more)
    ensures Pruned(a, c, lamps + more)
  {
    assert forall v :: v in lamps + more <==> v in lamps || v in more;
    assert forall v <- b.sessions :: b.sessions[v] in b.live <==> a.sessions[v] in a.live;
  }

  lemma PrunedTwice(a: Region, b: Region, lamps: seq<Str>, u: Str)
    requires Pruned(a, b, lamps + [u] + [u])
    ensures Pruned(a, b, lamps + [u])
  {
    assert forall v :: v in lamps + [u] + [u] <==> v in lamps + [u];
  }

  lemma {:induction false} SendAllPrunes(r: Region, lamps: seq<Str>)
    ensures Pruned(r, SendAllOn(r, lamps), lamps) && Pruned(r, SendAllOff(r, lamps), lamps)
  {
    if lamps != [] {
      var init, u := lamps[..|lamps| - 1], lamps[|lamps| - 1];
      SendAllPrunes(r, init);
      var a, b := SendAllOn(r, init), SendAllOff(r, init);
      var a1 := SendCmd(a, u, CMD_SWITCH_ON, 0);
      SendCmdPrunes(a, u, CMD_SWITCH_ON, 0);
      SendCmdPrunes(a1, u, CMD_SET_INTENSITY, 60);
      SendCmdPrunes(b, u, CMD_SWITCH_OFF, 0);
      hide Pruned, SendCmd;
      PrunedJoins(r, a, a1, init, [u]);
      PrunedJoins(r, a1, SendCmd(a1, u, CMD_SET_INTENSITY, 60), init + [u], [u]);
      PrunedTwice(r, SendCmd(a1, u, CMD_SET_INTENSITY, 60), init, u);
      PrunedJoins(r, b, SendCmd(b, u, CMD_SWITCH_OFF, 0), init, [u]);
      assert init + [u] == lamps;
    }
  }

  // A reading that commands the lamps of its zone
  predicate Commands(r: Region, uri: Str, motion: u8) {
    r.fsm == NORMAL_OPERATION
    && ((LastMotion(r, uri) == 0 && motion == 1) || (LastMotion(r, uri) == 1 && motion == 0))
  }

  /** In every run a reading that commands the lamps of its zone removes exactly their dangling entries from the session
      map; any other reading leaves the map alone. */
  lemma CommandsPrune(start: u64, timeoutMs: u64, run: seq<Input>, uri: Str, zone: u32, motion: u8)
    requires Possible(start, timeoutMs, run)
    ensures var r, b := After(start, timeoutMs, run), After(start, timeoutMs, run + [Telemetry(uri, zone, motion)]);
            Pruned(r, b, if Commands(r, uri, motion) then LampsOfZone(r.reg, zone) else [])
  {
    hide *;
    Heard(start, timeoutMs, run, uri, zone, motion);
    TelemetryPrunes(After(start, timeoutMs, run), uri, zone, motion);
  }

  lemma Heard(start: u64, timeoutMs: u64, run: seq<Input>, uri: Str, zone: u32, motion: u8)
    ensures After(start, timeoutMs, run + [Telemetry(uri, zone, motion)])
            == OnTelemetry(After(start, timeoutMs, run), uri, zone, motion)
  {
    hide OnTelemetry;
    assert (run + [Telemetry(uri, zone, motion)])[..|run|] == run;
  }

  lemma TelemetryPrunes(r: Region, uri: Str, zone: u32, motion: u8)
    ensures Pruned(r, OnTelemetry(r, uri, zone, motion),
                   if Commands(r, uri, motion) then LampsOfZone(r.reg, zone) else [])
  {
    hide *;
    SeenIsQuiet(r, uri, zone);
    EdgesPrune(SeenSensor(r, uri, zone), uri, zone, motion);
    TelemetryIs(r, uri, zone, motion);
  }

  lemma SeenIsQuiet(r: Region, uri: Str, zone: u32)
    ensures var a := SeenSensor(r, uri, zone);
            && a == r.(reg := a.reg) && LampsOfZone(a.reg, zone) == LampsOfZone(r.reg, zone)
            && forall motion :: Commands(a, uri, motion) == Commands(r, uri, motion)
  {}

  lemma TelemetryIs(r: Region, uri: Str, zone: u32, motion: u8)
    requires var a := SeenSensor(r, uri, zone);
             && a == r.(reg := a.reg) && Commands(a, uri, motion) == Commands(r, uri, motion)
             && LampsOfZone(a.reg, zone) == LampsOfZone(r.reg, zone)
             && Pruned(a, Edges(a, uri, zone, motion),
                       if Commands(a, uri, motion) then LampsOfZone(a.reg, zone) else [])
    ensures Pruned(r, OnTelemetry(r, uri, zone, motion),
                   if Commands(r, uri, motion) then LampsOfZone(r.reg, zone) else [])
  {
    hide SeenSensor, Edges, Upserted, SwitchTo, LampsOfZone;
  }

  lemma EdgesPrune(r: Region, uri: Str, zone: u32, motion: u8)
    ensures Pruned(r, Edges(r, uri, zone, motion),
                   if Commands(r, uri, motion) then LampsOfZone(r.reg, zone) else [])
  {
    var lamps := LampsOfZone(r.reg, zone);
    SendAllPrunes(r.(log := r.log + [MotionOn(uri, zone)]), lamps);
    SendAllPrunes(r.(log := r.log + [MotionOff(uri, zone)]), lamps);
    hide SendAllOn, SendAllOff, LampsOfZone;
  }

  // ----- what a session is

  // The registration that is accepted, if the message is one
  function Request(body: seq<u8>): Option<RegisterReq> {
    if body != [] && body[0] == REGISTER_REQ && DecodeRegisterReq(body[1..]).Ok? then
      var req := DecodeRegisterReq(body[1..]).value;
      if req.uri != [] && req.zoneId != 0 then Some(req) else None
    else None
  }

  // The last registration accepted from a session
  function LastRequest(run: seq<Input>, sid: nat): Option<RegisterReq> {
    if run == [] then None
    else
      var i := run[|run| - 1];
      if i.Receive? && i.sid == sid && Request(i.body).Some? then Request(i.body)
      else LastRequest(run[..|run| - 1], sid)
  }

  predicate Bears(s: Session, req: Option<RegisterReq>) {
    match req
    case None => !s.registered && s.kind == LUMINAIRE && s.uri == []
    case Some(q) => s.registered && s.kind == q.kind && s.uri == q.uri
  }

  lemma BearsMessage(r: Region, s: nat, body: seq<u8>, unixTime: u32, sid: nat, before: Option<RegisterReq>)
    requires s in r.live && sid in r.live && Bears(r.live[sid], before)
    ensures var b := OnMessage(r, s, body, unixTime);
            sid in b.live && Bears(b.live[sid], if s == sid && Request(body).Some? then Request(body) else before)
  {
    hide DecodeRegisterReq, DecodeStatus, DecodeFault, SwitchTo, Upserted, LampRegistered, U32Bytes, Send;
  }

  lemma BearsStep(r: Region, timeoutMs: u64, i: Input, sid: nat, before: Option<RegisterReq>)
    requires Enabled(r, timeoutMs, i) && sid in r.live && sid < r.born && sid in Step(r, timeoutMs, i).live
    requires Bears(r.live[sid], before)
    ensures Bears(Step(r, timeoutMs, i).live[sid],
                  if i.Receive? && i.sid == sid && Request(i.body).Some? then Request(i.body) else before)
  {
    match i
    case Receive(s, body, unixTime) =>
      hide OnMessage, Bears, Request;
      BearsMessage(r, s, body, unixTime, sid, before);
    case Telemetry(uri, zone, motion) =>
      hide Edges, SwitchTo, Upserted;
      EdgesEffect(SeenSensor(r, uri, zone), uri, zone, motion);
    case Tick(order) =>
      hide RaiseAll, Bears;
      RaiseAllReg(r.(reg := MarkLost(r.reg, r.now, timeoutMs)), order);
    case _ => hide RunPosted, DoWrite;
  }

  /** In every run a session bears the uri and the type of the last registration accepted from it, and is registered
      exactly if there was one. */
  lemma {:induction false} SessionIsItsRegistration(start: u64, timeoutMs: u64, run: seq<Input>, sid: nat)
    requires Possible(start, timeoutMs, run) && sid in After(start, timeoutMs, run).live
    ensures Bears(After(start, timeoutMs, run).live[sid], LastRequest(run, sid))
  {
    if run != [] {
      var init, i := run[..|run| - 1], run[|run| - 1];
      var r := After(start, timeoutMs, init);
      PossibleInit(start, timeoutMs, run);
      HandoverHolds(start, timeoutMs, init);
      LiveStep(r, timeoutMs, i, sid);
      if sid in r.live {
        SessionIsItsRegistration(start, timeoutMs, init, sid);
        assert sid < r.born;
        hide Step, Enabled, Bears, Request, HandoverInv;
        BearsStep(r, timeoutMs, i, sid, LastRequest(init, sid));
      } else {
        NothingBeforeBirth(start, timeoutMs, init, sid);
        BornBare(r, timeoutMs);
        hide Step, Enabled, Bears, Request, HandoverInv;
      }
    }
  }

  lemma BornBare(r: Region, timeoutMs: u64)
    ensures var b := Step(r, timeoutMs, Accept); r.born in b.live && Bears(b.live[r.born], None)
  {}

  // ----- acknowledgements and refusals, counted

  function CountKind(fs: seq<Frame>, kind: u8): nat {
    if fs == [] then 0 else CountKind(fs[..|fs| - 1], kind) + if fs[|fs| - 1].kind == kind then 1 else 0
  }

  function RegistrationsBy(log: seq<LogEntry>, sid: nat): nat {
    if log == [] then 0
    else
      var e := log[|log| - 1];
      RegistrationsBy(log[..|log| - 1], sid) + if e.Registered? && e.sid == sid then 1 else 0
  }

  // A registration that names no device or no zone
  predicate IsRefusable(body: seq<u8>) {
    && body != [] && body[0] == REGISTER_REQ && DecodeRegisterReq(body[1..]).Ok?
    && (DecodeRegisterReq(body[1..]).value.uri == [] || DecodeRegisterReq(body[1..]).value.zoneId == 0)
  }

  function RefusablesOf(run: seq<Input>, sid: nat): nat {
    if run == [] then 0
    else
      var i := run[|run| - 1];
      RefusablesOf(run[..|run| - 1], sid) + if i.Receive? && i.sid == sid && IsRefusable(i.body) then 1 else 0
  }

  lemma {:induction false} CountReplies(fs: seq<Frame>, kind: u8)
    requires kind != CMD
    ensures CountKind(RepliesIn(fs), kind) == CountKind(fs, kind)
  {
    if fs != [] {
      var init, f := fs[..|fs| - 1], fs[|fs| - 1];
      CountReplies(init, kind);
      CountJoins(RepliesIn(init), if f.kind != CMD then [f] else [], kind);
      assert f.kind != CMD ==> [f][..0] == [];
    }
  }

  lemma {:induction false} CountJoins(a: seq<Frame>, b: seq<Frame>, kind: u8)
    ensures CountKind(a + b, kind) == CountKind(a, kind) + CountKind(b, kind)
  {
    if b == [] {
      assert a + b == a;
    } else {
      assert (a + b)[..|a + b| - 1] == a + b[..|b| - 1];
      CountJoins(a, b[..|b| - 1], kind);
    }
  }

  lemma {:induction false} RegistrationsJoin(a: seq<LogEntry>, b: seq<LogEntry>, sid: nat)
    ensures RegistrationsBy(a + b, sid) == RegistrationsBy(a, sid) + RegistrationsBy(b, sid)
  {
    if b == [] {
      assert a + b == a;
    } else {
      assert (a + b)[..|a + b| - 1] == a + b[..|b| - 1];
      RegistrationsJoin(a, b[..|b| - 1], sid);
    }
  }

  lemma {:induction false} NoneRegistered(d: seq<LogEntry>, sid: nat)
    requires forall e <- d :: !e.Registered?
    ensures RegistrationsBy(d, sid) == 0
  {
    if d != [] {
      NoneRegistered(d[..|d| - 1], sid);
    }
  }

  lemma CountAnswer(body: seq<u8>, unixTime: u32)
    ensures CountKind(AnswerTo(body, unixTime), REGISTER_NACK) == if IsRefusable(body) then 1 else 0
    ensures CountKind(AnswerTo(body, unixTime), REGISTER_ACK)
            == if body != [] && body[0] == REGISTER_REQ && DecodeRegisterReq(body[1..]).Ok? && !IsRefusable(body) then 1
               else 0
  {
    hide DecodeRegisterReq, DecodeFault, U32Bytes;
    var answer := AnswerTo(body, unixTime);
    assert |answer| == 1 ==> answer[..0] == [];
  }

  lemma CountDelta(r: Region, timeoutMs: u64, i: Input, sid: nat)
    requires Enabled(r, timeoutMs, i)
    ensures RegistrationsBy(LogDelta(r, timeoutMs, i), sid)
            == if i.Receive? && i.sid == sid then CountKind(AnswerTo(i.body, i.unixTime), REGISTER_ACK) else 0
  {
    match i
    case Tick(order) =>
      EnabledTick(r, timeoutMs, order);
      TickRegistersNothing(r, order);
      NoneRegistered(TickLog(r, order), sid);
    case Receive(s, body, unixTime) =>
      CountAnswer(body, unixTime);
      hide DecodeRegisterReq, DecodeStatus, DecodeFault, CountKind, AnswerTo;
      var d := MessageLog(r, s, body);
      assert |d| <= 1 && (|d| == 1 ==> d[..0] == []);
    case Telemetry(uri, zone, motion) =>
      NoneRegistered(TelemetryLog(r, uri, zone, motion), sid);
    case _ =>
  }

  lemma {:induction false} CountAnswers(start: u64, timeoutMs: u64, run: seq<Input>, sid: nat)
    requires Possible(start, timeoutMs, run)
    ensures CountKind(Answers(run, sid), REGISTER_ACK) == RegistrationsBy(After(start, timeoutMs, run).log, sid)
    ensures CountKind(Answers(run, sid), REGISTER_NACK) == RefusablesOf(run, sid)
  {
    if run != [] {
      var init, i := run[..|run| - 1], run[|run| - 1];
      var r := After(start, timeoutMs, init);
      PossibleInit(start, timeoutMs, run);
      CountAnswers(start, timeoutMs, init, sid);
      LogStep(r, timeoutMs, i);
      CountDelta(r, timeoutMs, i, sid);
      hide Step, Enabled, AnswerTo, LogDelta, IsRefusable, CountKind, RegistrationsBy;
      RegistrationsJoin(r.log, LogDelta(r, timeoutMs, i), sid);
      if i.Receive? && i.sid == sid {
        CountAnswer(i.body, i.unixTime);
        CountJoins(Answers(init, sid), AnswerTo(i.body, i.unixTime), REGISTER_ACK);
        CountJoins(Answers(init, sid), AnswerTo(i.body, i.unixTime), REGISTER_NACK);
      } else {
        assert Answers(run, sid) == Answers(init, sid);
      }
    }
  }

  /** In every run a session was given as many acknowledgements to send as it has registered, and as many refusals as it
      has received registrations without a device or a zone. */
  lemma RegistrationsAreAnswered(start: u64, timeoutMs: u64, run: seq<Input>, sid: nat)
    requires Possible(start, timeoutMs, run) && sid in After(start, timeoutMs, run).live
    ensures var r := After(start, timeoutMs, run);
            && CountKind(r.live[sid].q.sent, REGISTER_ACK) == RegistrationsBy(r.log, sid)
            && CountKind(r.live[sid].q.sent, REGISTER_NACK) == RefusablesOf(run, sid)
  {
    SessionAnswersMessages(start, timeoutMs, run, sid);
    CountAnswers(start, timeoutMs, run, sid);
    CountReplies(After(start, timeoutMs, run).live[sid].q.sent, REGISTER_ACK);
    CountReplies(After(start, timeoutMs, run).live[sid].q.sent, REGISTER_NACK);
    hide After, Possible, CountKind, RepliesIn, Answers, RegistrationsBy, RefusablesOf;
  }
}
