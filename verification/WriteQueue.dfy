/** The serialised write queue that luminaire_client.cpp and tls_device_server.hpp both contain. */
module WriteQueue {
  import opened Basics
  import opened Framing

  datatype Queue = Queue(
    posted: seq<Frame>,       // lambdas posted by queue_send, not yet run
    outQ: seq<Frame>, writing: bool, inFlight: Option<Frame>,
    sent: seq<Frame>,         // history: passed to queue_send in this connection
    written: seq<Frame>)      // history: written completely in this connection
  {
    function InFlight(): seq<Frame> { if inFlight.Some? then [inFlight.value] else [] }

    // One write at most is outstanding, and only while one is does anything wait behind it
    predicate Shape() {
      && (writing <==> inFlight.Some?)
      && (!writing ==> outQ == [])
    }

    // Nothing is lost, duplicated or reordered
    predicate InOrder() { written + InFlight() + outQ + posted == sent }
  }

  const EMPTY: Queue := Queue([], [], false, None, [], [])

  function Send(q: Queue, m: Frame): Queue { q.(posted := q.posted + [m], sent := q.sent + [m]) }

  function DoWrite(q: Queue): Queue {
    if q.outQ == [] then q.(writing := false, inFlight := None)
    else q.(writing := true, inFlight := Some(q.outQ[0]), outQ := q.outQ[1..])
  }

  // The posted lambda
  function RunPosted(q: Queue): Queue {
    if q.posted == [] then q
    else
      var q := q.(outQ := q.outQ + [q.posted[0]], posted := q.posted[1..]);
      if q.writing then q else DoWrite(q)
  }

  // The completed write leaves the queue; DoWrite follows
  function Completed(q: Queue): Queue { q.(written := q.written + q.InFlight(), inFlight := None) }

  // ----- laws

  lemma SendKeeps(q: Queue, m: Frame)
    requires q.Shape()
    ensures Send(q, m).Shape() && (q.InOrder() ==> Send(q, m).InOrder())
  {
    assert Send(q, m).written + Send(q, m).InFlight() + Send(q, m).outQ + Send(q, m).posted
        == q.written + q.InFlight() + q.outQ + q.posted + [m];
  }

  lemma DoWriteKeeps(q: Queue)
    requires q.inFlight.None?
    ensures DoWrite(q).Shape() && (q.InOrder() ==> DoWrite(q).InOrder())
    ensures DoWrite(q).writing <==> q.outQ != []
  {
    var r := DoWrite(q);
    if q.outQ != [] {
      assert [q.outQ[0]] + q.outQ[1..] == q.outQ;
      assert r.written + r.InFlight() + r.outQ + r.posted == q.written + ([q.outQ[0]] + q.outQ[1..]) + q.posted;
    }
    assert q.written + q.InFlight() + q.outQ + q.posted == q.written + q.outQ + q.posted;
  }

  lemma RunPostedKeeps(q: Queue)
    requires q.Shape() && q.posted != []
    ensures RunPosted(q).Shape() && (q.InOrder() ==> RunPosted(q).InOrder())
    ensures RunPosted(q).writing
  {
    var m := q.(outQ := q.outQ + [q.posted[0]], posted := q.posted[1..]);
    assert [q.posted[0]] + q.posted[1..] == q.posted;
    assert m.written + m.InFlight() + m.outQ + m.posted
        == q.written + q.InFlight() + q.outQ + ([q.posted[0]] + q.posted[1..]);
    if !q.writing {
      DoWriteKeeps(m);
    }
  }

  lemma CompletedKeeps(q: Queue)
    requires q.InOrder()
    ensures Completed(q).InOrder()
  {
    var r := Completed(q);
    assert r.written + r.InFlight() + r.outQ + r.posted == q.written + q.InFlight() + q.outQ + q.posted;
  }
}
