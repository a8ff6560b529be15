/** central_tls_server.hpp: the session with its read chain, its answers and what it hands to the database. */
module CentralTlsServer {
  import opened Basics
  import opened Codec
  import opened Proto
  import opened Framing
  import opened CentralStore
  import opened AdminSnapshot
  import opened DbEvents

  // What one message hands to the database thread
  function Logged(body: seq<u8>): seq<DbEvent> {
    if body != [] && body[0] == REGION_SYNC_UP && ParseRegionSync(body[1..]).Ok? then
      var up := ParseRegionSync(body[1..]).value;
      [RegionSyncEvent(up.regionId, up.version, up.zonePowerSum)]
    else []
  }

  function LoggedAll(bodies: seq<seq<u8>>): seq<DbEvent> {
    if bodies == [] then [] else LoggedAll(bodies[..|bodies| - 1]) + Logged(bodies[|bodies| - 1])
  }

  lemma LoggedOneMore(bodies: seq<seq<u8>>, body: seq<u8>)
    ensures LoggedAll(bodies + [body]) == LoggedAll(bodies) + Logged(body)
  {
    assert (bodies + [body])[..|bodies|] == bodies;
  }

  lemma NothingLogged()
    ensures LoggedAll([]) == []
  {}

  // A request for a snapshot is answered with one of the store, or with nothing if a string is too long
  ghost predicate Answers(st: Store, body: seq<u8>, replies: seq<Frame>) {
    if body != [] && body[0] == ADMIN_SNAPSHOT_REQ then
      if forall a <- st.alarms :: ShortStr(a.uri) && ShortStr(a.text)
      then exists s :: Reports(s, st) && replies == [Frame(ADMIN_SNAPSHOT_ACK, SnapshotBytes(s))]
      else replies == []
    else replies == Acks(body)
  }

  // CentralSession: hdr_, body_len_ and body_ are the buffers its read chain fills
  class CentralSession {
    const store: Central
    var db: seq<DbEvent>     // what was passed to the enqueue of the DbWriter
    var hdr: seq<u8>
    var bodyLen: u32
    var body: seq<u8>

    constructor (store: Central)
      ensures this.store == store && db == []
    {
      this.store, db := store, [];
      hdr, bodyLen, body := [0, 0, 0, 0], 0, [];
    }

    method OnMessage() returns (replies: seq<Frame>)
      modifies store, this`db
      ensures store.View() == Handle(old(store.View()), body)
      ensures Answers(old(store.View()), body, replies)
      ensures db == old(db) + Logged(body)
    {
      replies := [];
      if body == [] {
        return;
      }
      match body[0] {
        case 20 =>
          var up := DecodeRegionSync(body[1..]);
          if up.Ok? {
            db := db + [RegionSyncEvent(up.value.regionId, up.value.version, up.value.zonePowerSum)];
            store.UpsertRegion(up.value);
            replies := [Frame(REGION_SYNC_ACK, U32Bytes(up.value.regionId) + U32Bytes(up.value.version) + [1])];
          }
        case 22 =>
          var a := DecodeAlarm(body[1..]);
          if a.Ok? {
            store.PushAlarm(a.value);
            replies := [Frame(ALARM_ACK, U32Bytes(a.value.regionId) + U32Bytes(a.value.tsUnix) + [1])];
          }
        case 40 =>
          var payload := EncodeAdminSnapshot(store);
          if payload.Ok? {
            replies := [Frame(ADMIN_SNAPSHOT_ACK, payload.value)];
          }
        case _ =>
      }
    }

    // read_header and read_body called by each other until the stream ends or a length is refused
    method Serve(stream: seq<u8>) returns (end: ReadEnd)
      modifies this, store
      ensures db == old(db) + LoggedAll(Deframe(stream).bodies)
      ensures store.View() == HandleAll(old(store.View()), Deframe(stream).bodies)
      ensures end == Deframe(stream).end
    {
      hide BodyLength, Handle, HandleAll, Logged, LoggedAll, Answers;
      var rest := stream;
      ghost var done: seq<seq<u8>> := [];
      HandleNone(store.View());
      NothingLogged();
      assert done + Deframe(rest).bodies == Deframe(rest).bodies;
      while |rest| >= 4
        invariant Deframe(stream) == Received(done + Deframe(rest).bodies, Deframe(rest).end)
        invariant store.View() == HandleAll(old(store.View()), done) && db == old(db) + LoggedAll(done)
        decreases |rest|
      {
        hdr := rest[..4];
        bodyLen := BodyLength(hdr);
        var n: nat := bodyLen;
        if n < 1 || n > MAX_BODY {
          assert done + [] == done;
          return Refused;
        }
        if |rest| < 4 + n {
          assert done + [] == done;
          return Incomplete;
        }
        body := rest[4..4 + n];
        HandleOneMore(old(store.View()), done, body);
        LoggedOneMore(done, body);
        var _ := OnMessage();
        var after := Deframe(rest[4 + n..]);
        assert done + ([body] + after.bodies) == done + [body] + after.bodies;
        done := done + [body];
        rest := rest[4 + n..];
      }
      assert done + [] == done;
      return Incomplete;
    }
  }
}
