/** The packed telemetry datagram of proto.hpp: how sensor_udp.cpp fills it and udp_telemetry_server.hpp reads it. */
module Datagram {
  import opened Basics
  import opened Codec

  const URI_SIZE := 48
  const SIZE := 57    // uri, zone, lux, motion, temperature

  type i16 = x: int | -0x8000 <= x < 0x8000

  // How a datagram is taken. Without a zero among its 48 bytes the uri runs on into whatever follows.
  datatype Taken =
    | TooShort
    | Unterminated
    | Packet(uri: Str, zoneId: u32, lux: u16, motion: u8, temp: i16)

  // The bytes before the first zero
  function UpToZero(s: seq<u8>): (r: seq<u8>)
    ensures |r| <= |s|
  {
    if s == [] || s[0] == 0 then [] else [s[0]] + UpToZero(s[1..])
  }

  // snprintf with "%s" into the zeroed array
  function UriField(uri: Str): seq<u8> {
    var c := UpToZero(uri);
    var kept := if |c| < URI_SIZE then c else c[..URI_SIZE - 1];
    kept + Zeros(URI_SIZE - |kept|)
  }

  function Zeros(n: nat): (z: seq<u8>)
    ensures |z| == n
  {
    if n == 0 then [] else [0] + Zeros(n - 1)
  }

  function TempBytes(temp: i16): seq<u8> { U16Bytes(if temp < 0 then temp + 0x1_0000 else temp) }

  function Bytes(uri: Str, zone: u32, lux: u16, motion: u8, temp: i16): seq<u8> {
    UriField(uri) + (U32Bytes(zone) + (U16Bytes(lux) + ([motion] + TempBytes(temp))))
  }

  function ToTemp(v: u16): i16 { if v >= 0x8000 then v - 0x1_0000 else v }

  function Decode(d: seq<u8>): Taken {
    if |d| < SIZE then TooShort
    else
      var uri := UpToZero(d[..URI_SIZE]);
      if |uri| == URI_SIZE then Unterminated
      else
        match (GetU32(d, 48), GetU16(d, 52), GetU16(d, 55))
        case (Ok((zone, _)), Ok((lux, _)), Ok((temp, _))) => Packet(uri, zone, lux, d[54], ToTemp(temp))
        case _ => TooShort
  }

  // ----- laws

  predicate IsText(s: seq<u8>) { forall i :: 0 <= i < |s| ==> s[i] != 0 }

  lemma {:induction false} TextBeforeZero(text: seq<u8>, rest: seq<u8>)
    requires IsText(text)
    ensures UpToZero(text + [0] + rest) == text
  {
    if text == [] {
      assert text + [0] + rest == [0] + rest;
    } else {
      var s := text + [0] + rest;
      assert s[0] == text[0] && s[1..] == text[1..] + [0] + rest;
      TextBeforeZero(text[1..], rest);
      assert text == [text[0]] + text[1..];
    }
  }

  lemma {:induction false} NoZeroBefore(s: seq<u8>)
    ensures IsText(UpToZero(s)) && UpToZero(s) <= s
  {
    if s != [] && s[0] != 0 {
      NoZeroBefore(s[1..]);
      assert s == [s[0]] + s[1..];
    }
  }

  // What of a uri survives: the bytes before the first zero, 47 of them at most
  function Kept(uri: Str): Str {
    var c := UpToZero(uri);
    if |c| < URI_SIZE then c else c[..URI_SIZE - 1]
  }

  lemma UriFieldReads(uri: Str)
    ensures |UriField(uri)| == URI_SIZE && UpToZero(UriField(uri)) == Kept(uri)
  {
    NoZeroBefore(uri);
    var kept := Kept(uri);
    var n := URI_SIZE - |kept|;
    assert Zeros(n) == [0] + Zeros(n - 1);
    assert UriField(uri) == kept + [0] + Zeros(n - 1);
    TextBeforeZero(kept, Zeros(n - 1));
  }

  lemma Layout(field: seq<u8>, zone: seq<u8>, lux: seq<u8>, motion: u8, temp: seq<u8>, trailing: seq<u8>)
    requires |field| == URI_SIZE && |zone| == 4 && |lux| == 2 && |temp| == 2
    ensures var d := field + (zone + (lux + ([motion] + temp))) + trailing;
            && |d| == SIZE + |trailing| && d[..URI_SIZE] == field && d[54] == motion
            && At(d, 48, 52, zone) && At(d, 52, 54, lux) && At(d, 55, 57, temp)
  {}

  /** What a sensor sends the server takes as it was meant, whatever follows in the buffer, except that a uri ends at
      its first zero and after 47 bytes. */
  lemma DatagramRoundTrip(uri: Str, zone: u32, lux: u16, motion: u8, temp: i16, trailing: seq<u8>)
    ensures |Bytes(uri, zone, lux, motion, temp)| == SIZE
    ensures Decode(Bytes(uri, zone, lux, motion, temp) + trailing) == Packet(Kept(uri), zone, lux, motion, temp)
  {
    var field := UriField(uri);
    var d := Bytes(uri, zone, lux, motion, temp) + trailing;
    var raw: u16 := if temp < 0 then temp + 0x1_0000 else temp;
    UriFieldReads(uri);
    hide UriField;
    assert |U32Bytes(zone)| == 4 && |U16Bytes(lux)| == 2 && |U16Bytes(raw)| == 2;
    hide U32Bytes, U16Bytes;
    Layout(field, U32Bytes(zone), U16Bytes(lux), motion, U16Bytes(raw), trailing);
    assert d == field + (U32Bytes(zone) + (U16Bytes(lux) + ([motion] + U16Bytes(raw)))) + trailing;
    hide Bytes;
    U32Exact(d, 48, zone, 52);
    U16Exact(d, 52, lux, 54);
    U16Exact(d, 55, raw, 57);
  }

  /** A uri comes through unchanged exactly when it has at most 47 bytes, none of them zero. */
  lemma UriSurvives(uri: Str)
    ensures Kept(uri) == uri <==> |uri| < URI_SIZE && IsText(uri)
  {
    NoZeroBefore(uri);
    if IsText(uri) {
      AllText(uri);
    }
  }

  lemma {:induction false} AllText(s: seq<u8>)
    requires IsText(s)
    ensures UpToZero(s) == s
  {
    if s != [] {
      AllText(s[1..]);
      assert s == [s[0]] + s[1..];
    }
  }
}
