/** The length-prefixed frames of framed_tls.hpp and the header checks of the session readers. */
module Framing {
  import opened Basics
  import opened Codec

  // The largest body the session readers accept (1024*1024)
  const MAX_BODY := 0x10_0000

  // ----- endian helpers: masks and shifts written as division and remainder

  function ToBe32(x: u32): u32 {
    x % 0x100 * 0x100_0000 + x / 0x100 % 0x100 * 0x1_0000 + x / 0x1_0000 % 0x100 * 0x100 + x / 0x100_0000
  }

  // What memcpy stores for x on a little-endian host, and what it loads
  function LittleEndian(x: u32): seq<u8> {
    [x % 0x100, x / 0x100 % 0x100, x / 0x1_0000 % 0x100, x / 0x100_0000]
  }

  function Load(h: seq<u8>): u32
    requires |h| == 4
  {
    var a: int, b: int, c: int, e: int := h[0], h[1], h[2], h[3];
    a + b * 0x100 + c * 0x1_0000 + e * 0x100_0000
  }

  function FromBe32(x: u32): u32 { ToBe32(x) }

  // ----- frames

  datatype Frame = Frame(kind: u8, payload: seq<u8>) {
    function Body(): seq<u8> { [kind] + payload }
  }

  // The length is cast to u32
  function FrameBytes(f: Frame): seq<u8> {
    LittleEndian(ToBe32(ToU32(1 + |f.payload|))) + f.Body()
  }

  function StreamBytes(fs: seq<Frame>): seq<u8> {
    if fs == [] then [] else FrameBytes(fs[0]) + StreamBytes(fs[1..])
  }

  function BodyLength(hdr: seq<u8>): u32
    requires |hdr| == 4
  {
    FromBe32(Load(hdr))
  }

  // How the read chain of a session ends on a stream: it waits for more bytes, or it has refused a length
  datatype ReadEnd = Incomplete | Refused

  datatype Received = Received(bodies: seq<seq<u8>>, end: ReadEnd)

  // The bodies handed to on_message when the chain read_header / read_body runs over the stream
  function Deframe(stream: seq<u8>): Received {
    if |stream| < 4 then Received([], Incomplete)
    else
      var len := BodyLength(stream[..4]);
      if len < 1 || len > MAX_BODY then Received([], Refused)
      else if |stream| < 4 + len then Received([], Incomplete)
      else
        var r := Deframe(stream[4 + len..]);
        Received([stream[4..4 + len]] + r.bodies, r.end)
  }

  method BuildFrame(f: Frame) returns (frame: seq<u8>)
    ensures frame == FrameBytes(f)
  {
    var len := ToU32(1 + |f.payload|);
    var lenBe := ToBe32(len);
    frame := LittleEndian(lenBe);
    frame := frame + [f.kind];
    frame := frame + f.payload;
  }

  // read_frame of the admin client, without a limit on the length; None stands for the exception at an early end
  method ReadFrame(stream: seq<u8>) returns (body: Option<seq<u8>>)
    ensures forall b: seq<u8> :: |b| < 0x1_0000_0000 ==> (body == Some(b) <==> U32Bytes(|b|) + b <= stream)
    ensures forall f: Frame, rest: seq<u8> ::
              |f.payload| + 1 < 0x1_0000_0000 && stream == FrameBytes(f) + rest ==> body == Some(f.Body())
    ensures body.Some? ==> |body.value| < 0x1_0000_0000
  {
    if |stream| < 4 {
      TooShortForHeader(stream);
      return None;
    }
    var hdr := stream[..4];
    var len: nat := BodyLength(hdr);
    HeadDecides(stream);
    if |stream| < 4 + len {
      return None;
    }
    body := Some(stream[4..4 + len]);
  }

  lemma TooShortForHeader(stream: seq<u8>)
    requires |stream| < 4
    ensures forall b: seq<u8> :: |b| < 0x1_0000_0000 ==> !(U32Bytes(|b|) + b <= stream)
    ensures forall f: Frame, rest: seq<u8> :: stream != FrameBytes(f) + rest
  {}

  // The header decides which body the stream can begin with
  lemma HeadDecides(stream: seq<u8>)
    requires |stream| >= 4
    ensures var n: nat := BodyLength(stream[..4]);
            && (forall b: seq<u8> :: |b| < 0x1_0000_0000 ==>
                  (U32Bytes(|b|) + b <= stream <==> |stream| >= 4 + n && b == stream[4..4 + n]))
            && (forall f: Frame, rest: seq<u8> :: |f.payload| + 1 < 0x1_0000_0000 && stream == FrameBytes(f) + rest ==>
                  |stream| >= 4 + n && stream[4..4 + n] == f.Body())
  {
    var n: nat := BodyLength(stream[..4]);
    forall b: seq<u8> | |b| < 0x1_0000_0000
      ensures U32Bytes(|b|) + b <= stream <==> |stream| >= 4 + n && b == stream[4..4 + n]
    {
      HeadDecidesBody(stream, b);
    }
    forall f: Frame, rest: seq<u8> | |f.payload| + 1 < 0x1_0000_0000 && stream == FrameBytes(f) + rest
      ensures |stream| >= 4 + n && stream[4..4 + n] == f.Body()
    {
      FrameHead(f, rest);
    }
  }

  lemma HeadDecidesBody(stream: seq<u8>, b: seq<u8>)
    requires |stream| >= 4 && |b| < 0x1_0000_0000
    ensures var n: nat := BodyLength(stream[..4]);
            U32Bytes(|b|) + b <= stream <==> |stream| >= 4 + n && b == stream[4..4 + n]
  {
    var h, n: nat := stream[..4], BodyLength(stream[..4]);
    HeaderRoundTrip(|b|);
    HeaderInverse(h);
    U32Size(|b|);
    hide U32Bytes, BodyLength;
    if U32Bytes(|b|) + b <= stream {
      assert stream[..4] == U32Bytes(|b|);
    }
    if |stream| >= 4 + n && b == stream[4..4 + n] {
      assert stream[..4 + n] == h + b;
    }
  }

  // ----- laws

  /** Swapping the bytes puts the number on the wire in big-endian order, and swapping again restores it. */
  lemma HeaderRoundTrip(x: u32)
    ensures LittleEndian(ToBe32(x)) == U32Bytes(x)
    ensures BodyLength(U32Bytes(x)) == x
  {
    var a, b, c, e := x / 0x100_0000, x / 0x1_0000 % 0x100, x / 0x100 % 0x100, x % 0x100;
    DigitsOf(x);
    SwapDigits(a, b, c, e);
    SwapDigits(e, c, b, a);
    var y := e * 0x100_0000 + c * 0x1_0000 + b * 0x100 + a;
    assert LittleEndian(y) == [a, b, c, e] by {
      Digits(e, c, b, a);
    }
    assert Load(U32Bytes(x)) == y;
  }

  lemma HeaderInverse(h: seq<u8>)
    requires |h| == 4
    ensures U32Bytes(BodyLength(h)) == h
  {
    SwapDigits(h[3], h[2], h[1], h[0]);
    Digits(h[0], h[1], h[2], h[3]);
    hide ToBe32;
  }

  lemma DigitsOf(x: u32)
    ensures x == x / 0x100_0000 * 0x100_0000 + x / 0x1_0000 % 0x100 * 0x1_0000 + x / 0x100 % 0x100 * 0x100 + x % 0x100
  {
    assert x / 0x1_0000 == x / 0x100_0000 * 0x100 + x / 0x1_0000 % 0x100;
  }

  lemma SwapDigits(a: u8, b: u8, c: u8, e: u8)
    ensures ToBe32(a * 0x100_0000 + b * 0x1_0000 + c * 0x100 + e)
            == e * 0x100_0000 + c * 0x1_0000 + b * 0x100 + a
  {
    Digits(a, b, c, e);
  }

  lemma Digits(a: u8, b: u8, c: u8, e: u8)
    ensures var x := a * 0x100_0000 + b * 0x1_0000 + c * 0x100 + e;
            x % 0x100 == e && x / 0x100 % 0x100 == c && x / 0x1_0000 % 0x100 == b && x / 0x100_0000 == a
  {
    var x := a * 0x100_0000 + b * 0x1_0000 + c * 0x100 + e;
    assert x / 0x100 == a * 0x1_0000 + b * 0x100 + c;
    assert x / 0x1_0000 == a * 0x100 + b;
  }

  // A message fits a session reader
  predicate Fits(f: Frame) { 1 + |f.payload| <= MAX_BODY }

  function Bodies(fs: seq<Frame>): seq<seq<u8>> {
    if fs == [] then [] else [fs[0].Body()] + Bodies(fs[1..])
  }

  lemma FrameHead(f: Frame, rest: seq<u8>)
    requires 1 + |f.payload| < 0x1_0000_0000
    ensures var s := FrameBytes(f) + rest;
            && |s| == 5 + |f.payload| + |rest|
            && BodyLength(s[..4]) == 1 + |f.payload|
            && s[4..5 + |f.payload|] == f.Body()
            && s[5 + |f.payload|..] == rest
  {
    var n: u32 := 1 + |f.payload|;
    assert ToU32(n) == n;
    hide ToBe32, LittleEndian, BodyLength, U32Bytes;
    HeaderRoundTrip(n);
    U32Size(n);
    HeadSlices(U32Bytes(n), f.Body(), rest);
  }

  lemma HeadSlices(h: seq<u8>, body: seq<u8>, rest: seq<u8>)
    requires |h| == 4
    ensures var s := h + body + rest;
            |s| == 4 + |body| + |rest| && s[..4] == h && s[4..4 + |body|] == body && s[4 + |body|..] == rest
  {}

  lemma U32Size(x: u32)
    ensures |U32Bytes(x)| == 4
  {
  }

  /** A frame is handed to on_message exactly when its body is at most MAX_BODY bytes long;
      a longer one ends the chain. */
  lemma DeliveredIffFits(f: Frame, rest: seq<u8>)
    requires 1 + |f.payload| < 0x1_0000_0000
    ensures var r := Deframe(rest);
            Deframe(FrameBytes(f) + rest)
            == if Fits(f) then Received([f.Body()] + r.bodies, r.end) else Received([], Refused)
  {
    FrameHead(f, rest);
    hide FrameBytes, BodyLength;
    var s := FrameBytes(f) + rest;
    assert BodyLength(s[..4]) == 1 + |f.payload|;
  }

  /** A session receives exactly the messages written, in order, whatever follows them on the stream. */
  lemma {:induction false} StreamDelivers(fs: seq<Frame>, rest: seq<u8>)
    requires forall f <- fs :: Fits(f)
    ensures Deframe(StreamBytes(fs) + rest) == Received(Bodies(fs) + Deframe(rest).bodies, Deframe(rest).end)
  {
    if fs == [] {
      assert StreamBytes(fs) + rest == rest;
    } else {
      var tail := StreamBytes(fs[1..]) + rest;
      assert StreamBytes(fs) + rest == FrameBytes(fs[0]) + tail by {
        hide FrameBytes;
      }
      assert Fits(fs[0]) && Bodies(fs) == [fs[0].Body()] + Bodies(fs[1..]);
      hide *;
      DeliveredIffFits(fs[0], tail);
      StreamDelivers(fs[1..], rest);
      Prepended(fs[0].Body(), Bodies(fs[1..]), Deframe(rest).bodies);
    }
  }

  lemma Prepended(x: seq<u8>, xs: seq<seq<u8>>, ys: seq<seq<u8>>)
    ensures [x] + xs + ys == [x] + (xs + ys)
  {}
}
