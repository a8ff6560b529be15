/** What the central server acknowledges and hands to the database is what it stores. */
module CentralLaws {
  import opened Basics
  import opened Codec
  import opened Proto
  import opened Framing
  import opened CentralStore
  import opened CentralTlsServer
  import opened DbEvents

  function SyncAck(regionId: u32, version: u32): Frame {
    Frame(REGION_SYNC_ACK, U32Bytes(regionId) + U32Bytes(version) + [1])
  }

  function AlarmAck(a: Alarm): Frame { Frame(ALARM_ACK, U32Bytes(a.regionId) + U32Bytes(a.tsUnix) + [1]) }

  // b is a with one region replaced, which is acknowledged under its number and version
  ghost predicate AcksRegion(a: Store, b: Store, acks: seq<Frame>) {
    && b.alarms == a.alarms
    && exists id: u32 :: id in b.regions && b.regions == a.regions[id := b.regions[id]]
                         && acks == [SyncAck(id, b.regions[id].version)]
  }

  // b is a with one more alarm at the end, which is acknowledged under its region and time
  ghost predicate AcksAlarm(a: Store, b: Store, acks: seq<Frame>) {
    && b.regions == a.regions && b.alarms != []
    && b.alarms == LastAlarms(a.alarms + [b.alarms[|b.alarms| - 1]])
    && acks == [AlarmAck(b.alarms[|b.alarms| - 1])]
  }

  /** A message is acknowledged exactly when it is stored, under the numbers of what is then in the store; one that is
      not changes nothing. */
  lemma AcknowledgedIsStored(st: Store, body: seq<u8>)
    ensures var b, acks := Handle(st, body), Acks(body);
            if acks == [] then b == st && Logged(body) == []
            else AcksRegion(st, b, acks) || (AcksAlarm(st, b, acks) && Logged(body) == [])
  {
    hide U32Bytes, Image, ParseRegionSync, DecodeAlarm;
    if body != [] && body[0] == REGION_SYNC_UP && ParseRegionSync(body[1..]).Ok? {
      var up := ParseRegionSync(body[1..]).value;
      var b := Handle(st, body);
      ImageVersion(up);
      assert b.regions == st.regions[up.regionId := b.regions[up.regionId]];
      assert Acks(body) == [SyncAck(up.regionId, b.regions[up.regionId].version)];
    } else if body != [] && body[0] == ALARM_UP && DecodeAlarm(body[1..]).Ok? {
      var a := DecodeAlarm(body[1..]).value;
      LastOfLast(st.alarms, a);
    }
  }

  lemma ImageVersion(up: RegionSyncUp)
    ensures Image(up).version == up.version && Image(up).zonePowerMw == PowerMap(up.zonePowerSum)
  {}

  lemma LastOfLast(alarms: seq<Alarm>, a: Alarm)
    ensures var xs := LastAlarms(alarms + [a]); xs != [] && xs[|xs| - 1] == a
  {}

  // ----- the database

  // The last synchronisation of a region handed to the database
  function LastSync(db: seq<DbEvent>, id: u32): Option<DbEvent> {
    if db == [] then None
    else
      var e := db[|db| - 1];
      if e.RegionSyncEvent? && e.regionId == id then Some(e) else LastSync(db[..|db| - 1], id)
  }

  // What the database has of a region is what the store shows of it
  ghost predicate Agrees(st: Store, db: seq<DbEvent>, id: u32) {
    match LastSync(db, id)
    case None => id !in st.regions
    case Some(e) => && e.RegionSyncEvent? && e.regionId == id && id in st.regions
                    && st.regions[id].version == e.version && st.regions[id].zonePowerMw == PowerMap(e.zonePowerSum)
  }

  lemma SyncSnoc(db: seq<DbEvent>, more: seq<DbEvent>, id: u32)
    requires |more| <= 1
    ensures LastSync(db + more, id)
            == if more != [] && more[0].RegionSyncEvent? && more[0].regionId == id then Some(more[0])
               else LastSync(db, id)
  {
    if more == [] {
      assert db + more == db;
    } else {
      assert (db + more)[..|db|] == db;
    }
  }

  lemma AgreesStep(st: Store, db: seq<DbEvent>, id: u32, body: seq<u8>)
    requires Agrees(st, db, id)
    ensures Agrees(Handle(st, body), db + Logged(body), id)
  {
    hide Image, ParseRegionSync, DecodeAlarm, LastSync, PowerMap;
    SyncSnoc(db, Logged(body), id);
    if body != [] && body[0] == REGION_SYNC_UP && ParseRegionSync(body[1..]).Ok? {
      ImageVersion(ParseRegionSync(body[1..]).value);
    }
  }

  /** After any messages the last synchronisation handed to the database for a region has the version and the powers
      that the store shows for it, and there is none exactly for the regions that the store does not know. */
  lemma {:induction false} DatabaseFollowsStore(bodies: seq<seq<u8>>, id: u32)
    ensures Agrees(HandleAll(Store(map[], []), bodies), LoggedAll(bodies), id)
  {
    if bodies != [] {
      var init := bodies[..|bodies| - 1];
      DatabaseFollowsStore(init, id);
      AgreesStep(HandleAll(Store(map[], []), init), LoggedAll(init), id, bodies[|bodies| - 1]);
      hide Agrees, Handle, Logged;
    }
  }
}
