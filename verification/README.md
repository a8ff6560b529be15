# Verification of the street-lighting control plane

A Dafny model of the control plane of the lighting system: lamps and motion sensors, the regional servers they talk to,
and the central server that aggregates the regions. The model follows the C++ sources handler by handler; its theorems
are about whole runs of the programs, alone and joined together.

`dafny verify dfyconfig.toml` checks everything.

## How the model is built

Each program is modelled twice.

- As **functions on states**: one function for each completion handler, and a `Step` that picks the handler of an
  input. Runs are sequences of inputs; the theorems are lemmas about every run.
- As **classes** with the fields of the C++ objects, whose methods update them in place. Each method's `ensures` ties
  the new state to the function of the same handler, so a theorem about the functions is one about the class.

| file | what it holds |
|---|---|
| `Basics`, `Codec`, `Proto`, `ProtoLaws`, `Framing`, `Datagram` | integer widths, the big-endian codec, the messages, the frames and what a reader makes of a byte stream, the telemetry datagram |
| `WriteQueue` | the serialised write queue that lamp and session share |
| `Registry`, `RegistryLaws` | the device map, its zone index, its two aggregations |
| `Region`, `RegionalServer`, `RegionLaws`, `RegionRuns`, `RegionSessions`, `RegionHistory`, `RegionAlarms`, `RegionEffects`, `RegionDatabase`, `RegionExample` | the regional server |
| `Lamp`, `LuminaireClient`, `LampLaws`, `LampEffects` | the lamp |
| `Sensor`, `SensorLaws` | the sensor, and what a region knows of its motion |
| `LampLink`, `LinkTiming`, `LinkMotion`, `LinkProgress`, `LinkRefusal`, `LinkExample` | one lamp and its region joined by a connection |
| `SyncChain`, `RegionSyncClient`, `SyncNet`, `SyncProgress` | synchronisation of any number of regions with the central server |
| `CentralStore`, `CentralTlsServer`, `CentralLaws`, `AdminSnapshot`, `AdminSnapshotLaws`, `PowerLaws` | the central server and its snapshot |
| `EndToEnd` | from the registries of the regions to what the administrator reads |
| `DbEvents`, `DbWriter` | the events for the database and the queue to the database thread |

## What the proofs show about the code

Most of what the design promises holds. Where the code does less than one would expect, a lemma gives a run in which it
does, and another one says exactly when it does not.

- A lamp is never flagged while its connection lasts if the timeout is at least one delivery delay plus the larger of
  the heartbeat period and that delay (`LinkTiming.ConnectedLampIsNeverLost`). So one heartbeat period plus two delays
  is enough.
- A fault can leave an active sensor, and the region that got all its packets, with a motion that is over
  (`SensorLaws.MirrorCanBeStale`, `SensorLaws.ServerCanBeStale`). What the region knows is the current motion exactly
  when an even number of changes has been hidden since the last report (`SensorLaws.MirrorIsExact`,
  `SensorLaws.ServerMirrorsSensor`); heartbeat_s ticks in a row that end active make it so (`SensorLaws.MirrorRecovers`).
- A lamp shows the last command that motion called for, and an edge calls for one only if it comes in NORMAL_OPERATION,
  while last_motion_ follows every edge. So motion that begins while some fault is handled leaves the lamp dark
  (`LinkExample.EdgeCanBeMissed`). With one sensor the lamp shows last_motion_ exactly when an even number of edges has
  been missed (`LinkMotion.LampFollowsMotion`).
- The zone index is never pruned, so a lamp that has moved still obeys its old zone
  (`LinkExample.OldZoneLightsMovedLamp`). Its session is sent the commands of every zone that lists it
  (`LinkMotion.SessionIsSentItsCommands`); it follows the sensor of its own zone if no other sensor has an edge in a
  zone that lists it.
- The set `active_lost` is what the last tick returned, not the devices still silent, and alone decides the state after
  a tick (`RegionRuns.ServerStateFollowsTicks`). A tick can therefore take the server back to NORMAL_OPERATION while a
  device it has reported is still silent (`RegionExample.SilentButNormal`) or right after one has reported a fault
  (`RegionExample.FaultForgotten`). The comment at regional_server.cpp:127 speaks of recovered devices; the code
  removes every device the present tick did not return. The model follows the code.
- With a timeout below the time between two ticks (5 s at regional_server.cpp:93) a device lost, registered and lost
  again raises no second alarm (`RegionExample.SecondLossIsSilent`). A tick raises an alarm for exactly the devices it
  returns that the previous one did not (`RegionRuns.TickAlarms`), and for all it returns if the previous tick is no
  longer ago than the timeout (`RegionAlarms.EveryLossIsAlarmed`).
- The central session refuses a frame whose body is longer than 1 MiB (13 + 8n + 14m bytes for n power and m summary
  entries), so such a payload is never shown. The limit bites before the 65535 entries the counts allow: a payload for
  50000 zones is refused (`SyncNet.ReceiveShowsPayload`, `RegionExample.LargePayloadIsRefused`).
- The synchronisation sets no deadline on the acknowledgement (region_sync_client.hpp:136-168). A frame that is lost or
  refused leaves the region waiting until its socket fails (`SyncProgress.LostNeverFinishes`); a frame that is neither
  can always finish, and after a failure the next payload can (`SyncProgress.SyncCanFinish`, `SyncCanRecover`).
- A closing session removes the entry of the uri it bears last (tls_device_server.hpp:277-289). One that registered two
  devices is still found under the first one after it has closed, and a command for that device would carry the other
  one's uri (`RegionExample.RenamedSessionStaysReached`). A device is no longer reached after its session closed exactly
  if the session still bears its uri (`RegionEffects.CloseRemovesOwnEntry`).
- A second acknowledgement turns a lit lamp off, because ON to OFF is in the table (luminaire_client.cpp:367-375,
  `LampEffects.AcknowledgementEffect`).
- With more than 65535 regions the administrator's snapshot never reads back (`AdminSnapshotLaws.AdminSeesTheStore`).
  A zone with sensors and no lamp has no power entry and so is not in the snapshot at all
  (`EndToEnd.AdministratorReadsAggregation`).
- region_sync_client.hpp:32-34 marks the summary list as new. The decoder accepts the older form without it only as a
  message that ends exactly after the power list (`ProtoLaws.RegionSyncPrefix`).

## Assumptions

- Each completion handler is one atomic step. The lamp has one `io.run` thread (luminaire_client.cpp:474), so this is
  exact there. The regional server runs its handlers on several threads without strands (regional_server.cpp:295-300)
  and its get-then-upsert pairs (tls_device_server.hpp:139-154) are not atomic; there it is a simplification. The
  methods of `DeviceRegistry.Registry` are single critical sections, and the laws in `RegistryLaws` claim only what
  those give.
- No regional handler runs before `server_ready`, because `io.run` starts after it (regional_server.cpp:291-300).
- Clocks, the values random generators return, the order in which hash maps iterate and the success or failure of each
  network stage are inputs of the model. The regional clock is monotone.
- Ticks of the comm-lost check come at any times; where the 5 s between them matter, a theorem says so.
- Completions of a lamp's old socket arrive before its reconnect timer fires two seconds later.
- For the central server: no version wraps, no region restarts, and payloads have at most 65535 entries in each list.

## Model

| member | source | states |
|---|---|---|
| Framing.BuildFrame | framed_tls.hpp:40-51 | the bytes of a frame: byte-swapped length, type, payload |
| Framing.ReadFrame | framed_tls.hpp:53-64 | the result is b exactly when the stream begins with a length-prefixed b, and nothing when it ends early; so a stream that starts with a frame gives its body |
| Framing.HeaderRoundTrip | proto.hpp:51-57 | the byte swap puts a length on the wire in big-endian order and restores it on reading |
| Framing.DeliveredIffFits | central_tls_server.hpp:43-71 | a frame reaches on_message exactly when its body is at most 1 MiB; a longer one ends the read chain |
| Framing.StreamDelivers | tls_device_server.hpp:235-275 | a session gets exactly the bodies written, in order, whatever follows on the stream |
| Datagram.DatagramRoundTrip | proto.hpp:173-179 | what send_telemetry fills in the server reads back, whatever follows in the buffer, with the uri cut at its first zero and at 47 bytes |
| Datagram.UriSurvives | sensor_udp.cpp:102-119 | a uri comes through unchanged exactly when it has at most 47 bytes, none of them zero |
| Codec.U32Exact | proto.hpp:67-82 | get_u32 returns v and advances exactly when the four bytes at the cursor are put_u32 of v |
| Codec.StrExact | proto.hpp:83-93 | get_str returns s exactly when the bytes at the cursor are put_str of s and s fits its count |
| ProtoLaws.StatusExact | proto.hpp:250-268 | the status decoder returns a report exactly on its encoding followed by anything |
| ProtoLaws.CommandExact | proto.hpp:270-282 | the same for commands |
| ProtoLaws.FaultExact | proto.hpp:284-300 | the same for fault reports with their two strings |
| ProtoLaws.RegisterReqExact | proto.hpp:183-197 | the same for registrations |
| ProtoLaws.AlarmExact | proto.hpp:208-231 | an alarm is read from a cursor exactly when its encoding stands there |
| Proto.EncodeRegionSync | proto.hpp:303-328 | the loop produces the nested format, counts cast to u16 |
| Proto.DecodeRegionSync | proto.hpp:330-361 | the loops compute the parse, with its early return and its errors |
| ProtoLaws.RegionSyncDecodesExactly | proto.hpp:330-361 | the decoder returns s exactly on encodings of s with trailing bytes and on the legacy short form without them |
| ProtoLaws.RegionSyncRoundTrip | proto.hpp:303-361 | decode inverts encode, trailing bytes ignored, if and only if both lists fit their u16 counts |
| ProtoLaws.RegionSyncPrefix | proto.hpp:345-348 | every strict prefix is rejected except the one of length 10+8n, which reads as the message without summaries |
| WriteQueue.SendKeeps | tls_device_server.hpp:71-77 | queue_send loses and reorders nothing |
| WriteQueue.RunPostedKeeps | tls_device_server.hpp:73-76 | the posted lambda keeps the order and leaves a write outstanding |
| WriteQueue.DoWriteKeeps | tls_device_server.hpp:79-100 | do_write keeps the order and writes exactly when something is queued |
| DeviceRegistry.Registry.Upsert | registry.hpp:32-42 | the record is stored; a lamp outside zone 0 is indexed once |
| DeviceRegistry.Registry.RegisterLamp | registry.hpp:139-144 | the lamp is indexed once, in any zone |
| DeviceRegistry.Registry.GetLampsInZone | registry.hpp:146-151 | the zone's list, empty for an unknown zone |
| DeviceRegistry.Registry.DetectCommLost | registry.hpp:126-137 | exactly the devices silent for longer than the timeout are returned, once each, and exactly they become faulty |
| DeviceRegistry.Registry.ZonePowerSum | registry.hpp:52-69 | for any iteration order: one entry for each non-zero zone with a lamp, with the u32 sum of its lamps' power |
| DeviceRegistry.Registry.ZoneDeviceSummary | registry.hpp:71-118 | strictly increasing zones, exactly those with a device, with the u16 counts of the five filters |
| RegistryLaws.SummaryConservesDevices | registry.hpp:84-98 | the counts over all zones add up to the devices outside zone 0, for every filter |
| RegistryLaws.PowerListConservesPower | registry.hpp:56-63 | the sums over all zones add up to the power of all lamps outside zone 0 |
| RegistryLaws.ExactWithoutWrap | registry.hpp:71-118 | with at most 65535 lamps and 65535 sensors in a zone its counters do not wrap, and the power list has the zone exactly when lamp_total is positive |
| RegistryLaws.ZoneIndexIsFirstSeen | registry.hpp:32-42 | after any history a zone lists exactly the URIs named its lamps, once each, in first-seen order |
| RegistryLaws.ZoneIndexAgreesWithScan | registry.hpp:139-151 | while no URI changes zone or type the index equals a scan of the device map |
| RegionalServer.ServerFsm.SwitchTo | regional_server.cpp:51-71 | the state changes exactly along the table, and the result says whether |
| RegionalServer.Server.HandleRegister | tls_device_server.hpp:103-134 | the whole new state of a registration, or of its refusal |
| RegionalServer.Server.HandleStatus | tls_device_server.hpp:137-170 | the whole new state and database events of a status report, with the branches for unknown devices |
| RegionalServer.Server.HandleFault | tls_device_server.hpp:173-213 | the whole new state and database event of a fault report, with the fault callback |
| RegionalServer.Server.OnMessage | tls_device_server.hpp:216-233 | dispatch on the type byte; undecodable messages change nothing |
| RegionalServer.Server.OnClose | tls_device_server.hpp:277-289 | the map entry goes only if it is this session's or dangling |
| RegionalServer.Server.SendCmdToUri | tls_device_server.hpp:344-359 | the command is queued on the session the map finds, and the result says whether one was found |
| RegionalServer.Server.MotionOnCallback | regional_server.cpp:215-231 | two commands for each lamp of the zone, in index order, only in NORMAL_OPERATION |
| RegionalServer.Server.MotionOffCallback | regional_server.cpp:233-247 | one command for each lamp of the zone |
| RegionalServer.Server.SensorFaultCallback | regional_server.cpp:250-289 | the sensor's record is replaced by a faulty one, two database events are enqueued and an alarm raised |
| RegionalServer.Server.OnPacket | udp_telemetry_server.hpp:62-117 | the whole new state and database events after a decoded packet |
| RegionalServer.Server.OnDatagram | udp_telemetry_server.hpp:46-117 | the same for a datagram of any length: a short one changes nothing |
| RegionalServer.Server.CommLostCheck | regional_server.cpp:92-144 | the whole new state after a tick, for any iteration order |
| RegionLaws.TickSettles | regional_server.cpp:92-144 | after a tick active_lost is its list, and the server handles a fault exactly when that is not empty |
| RegionRuns.RegionInvariant | regional_server.cpp:39-71 | in every run the state is NORMAL or FAULT, no record is newer than the clock, every registered session has a record |
| RegionRuns.DetectionIsExact | registry.hpp:126-137 | in every run the subtraction does not wrap, a tick returns exactly the silent devices, and afterwards every device without a fault was heard from within the timeout |
| RegionRuns.ServerStateFollowsTicks | regional_server.cpp:127-140 | in every run a non-empty active_lost implies FAULT_HANDLING and each tick decides the state, although FAULT to FAULT is refused |
| RegionRuns.FaultKept | tls_device_server.hpp:103-213 | no reachable step but a registration of u clears u's fault flag |
| RegionRuns.OneAlarmPerEpisode | regional_server.cpp:97-134 | between two comm-lost alarms for u lies a registration of u; alarms never exceed registrations plus one |
| RegionRuns.TickAlarms | regional_server.cpp:100-124 | a tick raises an alarm for exactly the devices it returned that the previous tick did not |
| RegionEffects.StateFollowsAlarms | regional_server.cpp:92-289 | in every run a step leaves the server in FAULT_HANDLING exactly when it raised an alarm of a device, a sensor or a lost connection, or the server was there and the step was not a tick that returned nothing |
| RegionAlarms.EveryLossIsAlarmed | regional_server.cpp:92-134 | if the previous tick is no longer ago than the timeout, a tick raises an alarm for exactly the devices it returns |
| RegionExample.SilentButNormal | regional_server.cpp:127-140 | a run in which a tick returns the server to NORMAL_OPERATION while a device reported lost is still silent |
| RegionExample.FaultForgotten | regional_server.cpp:136-140 | a run in which a tick does so right after a fault |
| RegionExample.SecondLossIsSilent | regional_server.cpp:100-124 | a run in which a device is lost twice with a registration between and only one alarm |
| RegionExample.RenamedSessionStaysReached | tls_device_server.hpp:277-289 | a run in which a session registers two devices, closes, and is still found under the first |
| RegionDatabase.RowsAreRecords | tls_device_server.hpp:149-165 | every device row a handler enqueues is the record it leaves in the registry |
| RegionDatabase.FaultEventsAreAlarms | regional_server.cpp:190-289 | in every run the fault events enqueued are exactly the records of the fault alarms raised, in order |
| RegionDatabase.StatusIsRecorded | tls_device_server.hpp:137-170 | in every run a status report of a known device leaves the record it describes and hands over exactly that row, and for a lamp its status; one of an unknown device does neither |
| RegionDatabase.FaultIsRecorded | tls_device_server.hpp:173-213 | in every run a fault report sets zone, fault and time of the record, keeps the rest, makes an unknown device a lamp that is off, and hands over exactly one event |
| RegionDatabase.RegistrationIsRecorded | tls_device_server.hpp:103-134 | a registration with device and zone starts the record afresh and hands over nothing |
| RegionDatabase.ReadingIsRecorded | udp_telemetry_server.hpp:62-117 | a reading sets type, zone and time of the sensor's record and hands over nothing; the fault marker starts a faulty record and hands over its row and the fault |
| RegionDatabase.LampStatusesAreReports | tls_device_server.hpp:156-169 | in every run the lamp statuses of u handed over are exactly the reports taken for it while it was recorded as a lamp, in order |
| RegionRuns.UnknownDeviceBranches | tls_device_server.hpp:141-147 | the branches for an unknown device of a registered session are never taken in any run |
| RegionSessions.SessionMapIsCurrent | tls_device_server.hpp:127-130 | in every run the map entry of u is absent or u's last registrant; while that one is open send_cmd_to_uri finds it |
| RegionSessions.ClosingOlderSessionKeepsNewer | tls_device_server.hpp:277-289 | closing an older session never evicts a newer one |
| RegionEffects.CloseRemovesOwnEntry | tls_device_server.hpp:277-289 | in every run a closing session leaves no entry of its own or a dead one under its uri and changes no other; its device is no longer reached exactly if the session still bears that uri |
| RegionEffects.CommandsPrune | tls_device_server.hpp:344-359 | in every run a reading that commands the lamps of its zone removes exactly their dangling entries from the session map, and any other reading none |
| RegionEffects.SessionIsItsRegistration | tls_device_server.hpp:103-134 | in every run a session bears uri and type of the last registration accepted from it, and is registered exactly if there was one |
| RegionEffects.SessionAnswersMessages | tls_device_server.hpp:103-213 | in every run what a session was given to send besides commands is exactly the answers to the messages it received, in order |
| RegionEffects.RegistrationsAreAnswered | tls_device_server.hpp:103-134 | in every run a session was given as many REGISTER_ACK as it registered, and as many REGISTER_NACK as it got registrations without device or zone |
| RegionSessions.SessionQueuesInOrder | tls_device_server.hpp:66-100 | in every run written, in flight, queued and posted together are everything sent, in order, and every frame is short enough for a reader |
| RegionSessions.MotionEventsAlternate | udp_telemetry_server.hpp:94-116 | per URI on and off events strictly alternate starting with on, and their difference is last_motion_, whatever readings arrive |
| RegionHistory.RegistryFollowsHandlers | tls_device_server.hpp:103-213 | in every run the registry is what the handlers' operations make of an empty one |
| RegionHistory.ZoneListsInRuns | regional_server.cpp:219-230 | in every run a zone's list is duplicate-free, in first-seen order, and exactly the devices named its lamps |
| RegionHistory.ZoneListsAreScans | registry.hpp:139-151 | in every run in which no device changes type or zone and zones are non-zero, each list equals the scan of the device map |
| LampClient.LuminaireClient.constructor | luminaire_client.cpp:91-94 | the state after boot |
| LampClient.LuminaireClient.SwitchToState | luminaire_client.cpp:107-125 | the state changes exactly along the table |
| LampClient.LuminaireClient.ScheduleReconnect | luminaire_client.cpp:140-160 | socket, queue, timers and state are reset and the reconnect timer armed |
| LampClient.LuminaireClient.CloseSocket | luminaire_client.cpp:133-138 | the write in flight is given up with the socket |
| LampClient.LuminaireClient.SendRegister | luminaire_client.cpp:238-264 | the registration is sent and its timeout armed |
| LampClient.LuminaireClient.HandshakeDone | luminaire_client.cpp:182-191 | a new connection begins with a registration |
| LampClient.LuminaireClient.RegisterTimeout | luminaire_client.cpp:256-263 | a lamp still registering reconnects |
| LampClient.LuminaireClient.Heartbeat | luminaire_client.cpp:267-278 | a registered lamp reports; the timer is armed again |
| LampClient.LuminaireClient.ManualReset | luminaire_client.cpp:322-329 | a faulty lamp reboots and reconnects |
| LampClient.LuminaireClient.RequestFault | luminaire_client.cpp:295-309 | the fault is queued, or deferred while a write is outstanding |
| LampClient.LuminaireClient.RunPosted | luminaire_client.cpp:204-207 | the posted message joins the queue and writing starts |
| LampClient.LuminaireClient.WriteCompleted | luminaire_client.cpp:221-234 | the deferred fault is sent, then the next write starts |
| LampClient.LuminaireClient.OnMessage | luminaire_client.cpp:360-424 | the whole new state after any message |
| LampClient.LuminaireClient.OnCommand | luminaire_client.cpp:388-415 | the three commands with their branches |
| LampLaws.LampInvariant | luminaire_client.cpp:107-424 | in every run OFF has intensity 0, ON at least 1, a timer always brings the lamp on, the queue keeps order, no pending fault is stranded, only lawful reports follow the registration |
| LampLaws.TransitionsFollowTable | luminaire_client.cpp:80-88 | every state change is in the table or a reset to UNREGISTERED |
| LampLaws.PendingFaultIsSent | luminaire_client.cpp:227-232 | a pending fault is sent right after the write in flight |
| LampLaws.IdleQueueHasWrittenAll | luminaire_client.cpp:210-235 | an idle queue has written everything sent in the connection |
| LampEffects.CommandTable | luminaire_client.cpp:384-417 | state, intensity and reports after every command in every state: on at 30 or more, off at 0, set to v and on exactly when v is positive, each with one report of those values and perhaps a fault; nothing otherwise |
| LampEffects.AcknowledgementEffect | luminaire_client.cpp:367-375 | the acknowledgement takes a registering or lit lamp to off at 0 with one report and the heartbeat started, and stops the register timer in any state |
| LampEffects.HeartbeatEffect | luminaire_client.cpp:267-289 | the heartbeat sends one report of what a registered lamp is, and arms itself anew |
| LampEffects.HandshakeEffect | luminaire_client.cpp:238-264 | a new connection begins with the registration as its only message, and its timeout five seconds on |
| LampEffects.ConnectionGivenUp | luminaire_client.cpp:140-160 | a registration that times out, its refusal, a socket error and the reset of a faulty lamp each leave the lamp UNREGISTERED, the socket closed and the reconnect timer two seconds on |
| LampEffects.ConnectionKept | luminaire_client.cpp:140-424 | and no other event gives up a connection |
| LampEffects.CanRegisterAgain | luminaire_client.cpp:140-264 | from every reachable state of a lamp that is not registered, or faulty and reset, what it has armed can bring it to a new connection that begins with a registration |
| PowerLaws.RecordsAreLawful | tls_device_server.hpp:149-154 | while statuses come from lamps every record keeps "off means 0, on means 70000+800·intensity, intensity at least 1" |
| PowerLaws.LampsSendLawfulBodies | luminaire_client.cpp:280-289 | whatever a lamp sends in any run is lawful |
| PowerLaws.PowerAgreesWithLampCount | registry.hpp:52-98 | a zone's power lies between 70800 and 274000 times its lamp_on and does not wrap, with at most 15675 lamps on |
| PowerLaws.StoredImageIsTheAggregation | central_store.hpp:38-56 | what the central server stores of a payload is the aggregation of the registry state it was taken from |
| SensorNode.SensorFsm.SwitchTo | sensor_udp.cpp:66-88 | the state changes exactly along the table |
| SensorNode.Node.constructor | sensor_udp.cpp:157-187 | the state after boot, with the demo acknowledgement armed |
| SensorNode.Node.FaultResetFires | sensor_udp.cpp:191-205 | a faulty sensor goes through the reboot to ACTIVE |
| SensorNode.Node.TickFires | sensor_udp.cpp:208-252 | the whole new state after a tick: measurement, events, fault, report, heartbeat |
| SensorLaws.SensorInvariant | sensor_udp.cpp:44-95 | in every run the sensor is registering, active or faulty, with a timer out of the first and, if configured, the last |
| SensorLaws.MirrorIsExact | sensor_udp.cpp:219-249 | in every run the last report gives the current motion exactly when an even number of changes has been hidden since |
| SensorLaws.MirrorCanBeStale | sensor_udp.cpp:226-246 | a run with one fault that ends active with a last report that is not the motion |
| SensorLaws.ServerCanBeStale | udp_telemetry_server.hpp:94-116 | the packets of that run leave last_motion_ at 1 while the motion is 0 |
| SensorLaws.ActiveSensorIsMirrored | sensor_udp.cpp:219-246 | a sensor active in every tick has reported its current motion last |
| SensorLaws.ReportsKeepPace | sensor_udp.cpp:224-244 | after any tick that ends active the last report is less than heartbeat_s ticks old; there is none only while the heartbeat, which counts from -999999, is not yet due |
| SensorLaws.TickSendsExactly | sensor_udp.cpp:208-252 | in every run a tick that simulates no fault sends its reading exactly when the motion changed, light or temperature changed by their thresholds, or the heartbeat is due, and only while active; a simulated fault sends the marker |
| SensorLaws.ReadingsAreSentOrClose | sensor_udp.cpp:215-243 | in every run each reading of a tick that ended active was sent or lies within both thresholds of the one before it, with the same motion |
| SensorLaws.ProgramReports | sensor_udp.cpp:208-246 | the program's own readings: in every run an active sensor without a fault in tick n sends exactly when n is 0 or 1 modulo 7, light (by 59 every minute, else 1) or temperature (by 5 every two minutes, 1 every 20 s) moves by its threshold, or the heartbeat is due |
| SensorLaws.HeartbeatCountsFromReport | sensor_udp.cpp:222-246 | in every run the heartbeat counts from the tick of a report, or from -999999 |
| SensorLaws.TimersActivate | sensor_udp.cpp:179-205 | in every run the acknowledgement timer takes a registering sensor to ACTIVE and the reset timer a faulty one, and neither sends anything |
| SensorLaws.TimersFireOnce | sensor_udp.cpp:179-205 | in every run the demo acknowledgement comes at most once, and there are at most as many resets as fault markers sent |
| SensorLaws.MirrorRecovers | sensor_udp.cpp:227-249 | after any faults, heartbeat_s active ticks in a row make the packets give the current motion again |
| SensorLaws.LastMotionIsLastLevel | udp_telemetry_server.hpp:94-116 | in every region run last_motion_ is the last 0 or 1 received from the sensor |
| SensorLaws.ServerMirrorsSensor | udp_telemetry_server.hpp:94-116 | with lossless ordered delivery last_motion_ is the current motion exactly when an even number of changes is hidden, and so for a sensor always active |
| LinkLaws.RegionPasses | tls_device_server.hpp:127-130 | no step elsewhere in the region takes frames from a session, changes its identity, or sends to it before it registers |
| LinkLaws.LinkInvariant | tls_device_server.hpp:103-134 | throughout a connection both sides are in runs of their own, the map finds the session under the lamp's URI only, and the lamp registers until it takes the acknowledgement |
| LinkLaws.StreamsDeliver | framed_tls.hpp:20-38 | the bytes each side has written are read as exactly the bodies the other side takes |
| LinkRefusal.RefusedLampReconnects | tls_device_server.hpp:104-107 | throughout a connection a lamp without zone or uri stays registering, the region has no session for it, the first frame it is sent is the refusal, and taking it makes the lamp reconnect |
| LinkTiming.SeenNeverBack | registry.hpp:126-137 | no step of the region moves a record's last_seen_ms back |
| LinkTiming.ConnectedLampIsNeverLost | registry.hpp:126-137 | with every frame delivered within a delay d, a registered lamp was heard from at most d + max(heartbeat, d) ago; if that fits in the timeout no tick returns it |
| LinkMotion.SendAllOnTo | regional_server.cpp:225-230 | the loop gives a lamp's session exactly its two commands when the lamp is in the list, and nothing otherwise |
| LinkMotion.SendAllOffTo | regional_server.cpp:242-246 | the same for the command off |
| LinkMotion.SessionIsSentItsCommands | regional_server.cpp:215-247 | in every run in which no other session registers the lamp, its session is sent exactly the commands that edges in NORMAL_OPERATION call for in the zones that list it, in order |
| LinkMotion.CommandsSettle | luminaire_client.cpp:384-417 | a lamp that took every command since its registration is on at 60 or off at 0 as the last one says, whatever came before |
| LinkMotion.LampShowsLastCommand | luminaire_client.cpp:384-417 | in every such run without simulated faults the lamp, once it has taken what is on its way, shows the last command called for |
| LinkMotion.LampFollowsMotion | regional_server.cpp:215-247 | with one sensor, in any server states: the settled lamp is on at 60 or off at 0 as last_motion_ says exactly when an even number of edges has been missed, and so once the last edge since the registration came in NORMAL_OPERATION |
| LinkMotion.LampFollowsSensor | sensor_udp.cpp:208-252 | if the sensor's packets arrived, the settled lamp shows what the sensor sees now exactly when hidden changes and missed edges are even together |
| LinkProgress.LampCanTakeAll | tls_device_server.hpp:71-100 | from every state everything the session sent can reach the lamp without time passing |
| LinkProgress.RegionCanGetAll | luminaire_client.cpp:201-235 | from every state after the registration everything the lamp sent can reach the region |
| LinkProgress.EverythingCanArrive | luminaire_client.cpp:332-424 | from every state after the registration all frames of both sides can arrive, and then the lamp shows the last command called for |
| LinkExample.MotionLightsLamp | luminaire_client.cpp:267-278 | for every lamp and sensor a run in time: registration, motion, the lamp lit, a whole heartbeat period, the heartbeat, everything delivered |
| LinkExample.EdgeCanBeMissed | regional_server.cpp:215-217 | a run in which motion begins during FAULT_HANDLING and the lamp stays dark with last_motion_ 1 |
| LinkExample.OldZoneLightsMovedLamp | registry.hpp:32-42 | a run in which a moved lamp is lit by a reading of its old zone, the only one ever taken |
| RegionSync.RegionSyncClient.DoSyncOnce | region_sync_client.hpp:85-123 | the next version and both aggregations of the registry become the payload, and resolving starts |
| RegionSync.RegionSyncClient.Complete | region_sync_client.hpp:99-168 | each completion handler starts exactly its successor, or the timer after a failure |
| SyncNet.ReceiveShowsPayload | central_tls_server.hpp:152-163 | a payload is shown exactly and acknowledged if its frame fits in 1 MiB, and dropped otherwise |
| RegionExample.LargePayloadIsRefused | central_tls_server.hpp:53-56 | a payload for 50000 zones fits its counts and is dropped |
| SyncNet.CentralIsNeverTorn | central_store.hpp:38-56 | with any regions, loss, delay and reordering, version and both maps of a region are together the image of one payload, the one prepared under that version |
| SyncNet.ChainIsSingle | region_sync_client.hpp:76-168 | exactly one operation is outstanding, so the socket is never replaced under one; versions are 1, 2, 3, ... |
| SyncNet.CentralKeepsUp | region_sync_client.hpp:125-168 | while no stage has failed central's version equals version_ whenever no synchronisation is in flight |
| SyncProgress.EverySyncIsHandedOver | region_sync_client.hpp:99-168 | in every run the frame of a synchronisation has entered the network exactly when its handshake is done |
| SyncProgress.SyncCanFinish | region_sync_client.hpp:99-168 | from every reachable state without failure, with a payload that fits and is not lost, a continuation without failures leads to central showing exactly that payload under version_ |
| SyncProgress.SyncCanRecover | region_sync_client.hpp:76-168 | from every reachable state, whatever has failed, the next payload that fits can be shown under version_ |
| SyncProgress.LostNeverFinishes | region_sync_client.hpp:136-168 | once a frame is lost or refused its synchronisation waits on and its payload is never shown, until a stage fails |
| CentralStore.Central.UpsertRegion | central_store.hpp:38-56 | the region's entry becomes the image of the message, nothing of the old one left |
| CentralStore.Central.PushAlarm | central_store.hpp:64-73 | the alarm is appended and the last 2000 kept |
| CentralTlsServer.CentralSession.OnMessage | central_tls_server.hpp:143-199 | the new store, the reply (an acknowledgement or a snapshot of the store) and the database event of any message |
| CentralTlsServer.CentralSession.Serve | central_tls_server.hpp:43-71 | the read chain handles exactly the deliverable bodies of the stream, in order |
| CentralLaws.AcknowledgedIsStored | central_tls_server.hpp:143-199 | a message is acknowledged exactly when it is stored, under the region and version, or the region and time of the alarm, then in the store; any other changes nothing |
| CentralLaws.DatabaseFollowsStore | central_tls_server.hpp:152-163 | after any messages the last synchronisation handed over for a region has the version and powers the store shows, and there is none for a region it does not know |
| AdminSnapshot.EncodeAdminSnapshot | central_tls_server.hpp:98-141 | the bytes of a snapshot that reports every region, every zone with a power entry and all alarms, for any iteration order |
| AdminSnapshot.PutAlarms | central_tls_server.hpp:127-138 | the alarms in order, or an exception exactly when a string is too long |
| AdminSnapshot.PrintSnapshot | admin_cli.cpp:21-76 | the loops compute the parse of the format, with its errors |
| AdminSnapshotLaws.SnapshotRoundTrip | admin_cli.cpp:21-76 | a snapshot reads back exactly when everything in it fits its count |
| AdminSnapshotLaws.ReachableStore | central_store.hpp:64-73 | whatever arrives, counts and strings stay encodable and the alarms are the last 2000 pushed, in order |
| AdminSnapshotLaws.AdminSeesTheStore | central_tls_server.hpp:98-141 | for every reachable store the administrator reads it back if and only if it has at most 65535 regions, and put_str cannot throw |
| EndToEnd.AdministratorReadsAggregation | region_sync_client.hpp:85-93 | with regions that are runs of their own and any loss, delay and reordering, what the administrator reads for a region is the aggregation of one registry state that region was in |
| DbQueue.WorkerNeverSleepsOnWork | db.cpp:192-213 | in every interleaving processed events are a prefix of the pushed ones, and a worker asleep on work has a thread about to notify it |
| DbQueue.StopLosesNothing | db.cpp:50-83 | everything pushed before the stop flag was set is processed when stop() has joined the thread |
| DbQueue.StopCanReturn | db.cpp:50-74 | no deadlock: from every state with a stop request the running threads can bring stop() to return, with everything pushed processed |
| DbQueue.NothingAfterStop | db.cpp:50-83 | once stop() has emptied the queue nothing is processed or admitted any more, and the queue holds exactly what threads push that had seen running_ before |
| DbWriter.DbWriter.EnqueueTest | db.cpp:76-77 | the test of running_ outside the lock |
| DbWriter.DbWriter.EnqueuePush | db.cpp:78-81 | the critical section of enqueue |
| DbWriter.DbWriter.WorkerWait | db.cpp:196-205 | the wait, the stop test and the pop |
| DbWriter.DbWriter.WorkerMain | db.cpp:192-213 | running alone after a stop request the loop processes the whole queue in order and ends |
| DbWriter.DbWriter.StopRequest | db.cpp:50-56 | the first call sets the flag under the lock; a later one, as the destructor makes, changes nothing |
| DbWriter.DbWriter.StopJoined | db.cpp:59-73 | after the join running_ is cleared and the queue emptied |

## Left out

- TLS and post-quantum setup, certificates, sockets, name resolution and handshakes: a stage succeeds or fails.
- SQLite calls, statements and SQL: handling an event appends it to the processed events. db.log_alarm, which writes
  without the queue, is not modelled, nor are time stamps in events.
- Delivery of alarms by post_alarm (region_sync_client.hpp:188-256): it reuses one socket across overlapping alarms, so
  alarms are counted where they are raised. Their time stamp and constant texts are not part of the alarm entries.
- Interleavings inside a regional handler: see the assumptions. In particular the two aggregations of one payload are
  related only when taken from one registry state, while do_sync_once takes the lock twice (region_sync_client.hpp:91-93).
- Monotonicity of central versions after failed synchronisations: upsert_region overwrites unconditionally.
- RegionalServer.Server.OnDatagram: a datagram without a zero among the 48 bytes of its uri changes nothing here; the
  program would read on into the bytes that follow.
- RegionalServer.Server.OnClose: session objects are entries of a table under numbers, so sharing through shared_ptr is
  modelled by the Expire step and not by aliasing.
- CentralTlsServer.CentralSession.OnMessage: concurrent writes of replies on one socket are not modelled.
- LinkMotion.SessionIsSentItsCommands: assumes that no other session registers the lamp's URI while the connection lasts.
- LinkMotion.LampFollowsMotion: assumes that the sensor reports for the lamp's zone, that no other sensor has an edge in
  NORMAL_OPERATION in a zone that lists the lamp, no simulated faults, no other session that registers the lamp, and a
  connection that stays up.
- DbQueue.StopCanReturn: shows that stop() can return from every reachable state, not that a fair scheduler makes it.
- DbWriter.DbWriter.StopRequest: two threads that call stop() at the same time are not modelled.
- LinkProgress.EverythingCanArrive: shows that everything can arrive, not that it must.
- SyncProgress.SyncCanFinish: shows that a synchronisation can finish, not that it must; so does SyncCanRecover.
- LampEffects.CanRegisterAgain: shows that the lamp can register again; each timer runs at its own deadline, and nothing
  says how the deadlines of different timers lie to each other.
- EndToEnd.AdministratorReadsAggregation: does not say that later payloads come from later registry states.
- SensorNode.Node.TickFires: the 32-bit counter of seconds does not overflow.
- Signal handling, argument parsing, logging, the run-time limit of lamp and sensor, shell tests and benchmarks.
