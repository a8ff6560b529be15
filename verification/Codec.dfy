/**
 The primitive readers and writers of proto.hpp and the laws they obey.

 A writer is described by the bytes it appends. A reader takes the buffer and its cursor and returns the value
 with the advanced cursor, or the exception it throws.
 */
module Codec {
  import opened Basics

  // ----- writers

  function U16Bytes(v: u16): seq<u8> { [v / 0x100, v % 0x100] }

  function U32Bytes(v: u32): seq<u8> {
    [v / 0x100_0000, v / 0x1_0000 % 0x100, v / 0x100 % 0x100, v % 0x100]
  }

  // The bytes put_str appends when it does not throw
  function StrBytes(s: Str): seq<u8> { U16Bytes(ToU16(|s|)) + s }

  predicate ShortStr(s: Str) { |s| <= U16_MAX }

  // ----- readers

  // The number that big-endian bytes spell: uint32_t(p[0])<<24 | uint32_t(p[1])<<16 | ...
  function Number(d: seq<u8>): nat {
    if d == [] then 0 else var low: int := d[|d| - 1]; 0x100 * Number(d[..|d| - 1]) + low
  }

  function GetU8(d: seq<u8>, p: nat): Result<(u8, nat)> {
    if p + 1 > |d| then Err(UnderflowU8) else Ok((d[p], p + 1))
  }

  function GetU16(d: seq<u8>, p: nat): Result<(u16, nat)> {
    if p + 2 > |d| then Err(UnderflowU16)
    else Number2(d[p..p + 2]); Ok((Number(d[p..p + 2]), p + 2))
  }

  function GetU32(d: seq<u8>, p: nat): Result<(u32, nat)> {
    if p + 4 > |d| then Err(UnderflowU32)
    else Number4(d[p..p + 4]); Ok((Number(d[p..p + 4]), p + 4))
  }

  function GetStr(d: seq<u8>, p: nat): Result<(Str, nat)> {
    var (n, p) :- GetU16(d, p);
    if p + n > |d| then Err(UnderflowStr) else Ok((d[p..p + n], p + n))
  }

  // n records read one after the other
  function Many<T>(get: (seq<u8>, nat) -> Result<(T, nat)>, d: seq<u8>, p: nat, n: nat): Result<(seq<T>, nat)> {
    if n == 0 then Ok(([], p))
    else
      var (xs, p) :- Many(get, d, p, n - 1);
      var (x, p) :- get(d, p);
      Ok((xs + [x], p))
  }

  // The records of xs written one after the other
  function Flat<T>(put: T -> seq<u8>, xs: seq<T>): seq<u8> {
    if xs == [] then [] else Flat(put, xs[..|xs| - 1]) + put(xs[|xs| - 1])
  }

  // ----- laws

  // The bytes of d from p up to q are e
  ghost predicate At(d: seq<u8>, p: nat, q: nat, e: seq<u8>) {
    p <= q <= |d| && d[p..q] == e
  }

  // A reader and a writer are exact inverses of each other on the values that satisfy ok
  ghost predicate Exact<T(!new)>(get: (seq<u8>, nat) -> Result<(T, nat)>, put: T -> seq<u8>, ok: T -> bool) {
    forall d: seq<u8>, p: nat, v: T, q: nat :: get(d, p) == Ok((v, q)) <==> ok(v) && At(d, p, q, put(v))
  }

  lemma AtConcat(d: seq<u8>, p: nat, q: nat, a: seq<u8>, b: seq<u8>)
    ensures At(d, p, q, a + b) <==> At(d, p, p + |a|, a) && At(d, p + |a|, q, b)
  {
    var m := p + |a|;
    if At(d, p, q, a + b) {
      assert d[p..m] == d[p..q][..|a|];
      assert d[m..q] == d[p..q][|a|..];
    }
    if At(d, p, m, a) && At(d, m, q, b) {
      assert d[p..q] == d[p..m] + d[m..q];
    }
  }

  lemma U8Exact(d: seq<u8>, p: nat, v: u8, q: nat)
    ensures GetU8(d, p) == Ok((v, q)) <==> At(d, p, q, [v])
  {
    if q == p + 1 <= |d| {
      assert d[p..q] == [d[p]];
    }
  }

  lemma U16Exact(d: seq<u8>, p: nat, v: u16, q: nat)
    ensures GetU16(d, p) == Ok((v, q)) <==> At(d, p, q, U16Bytes(v))
  {
    if q == p + 2 <= |d| {
      Number2(d[p..q]);
    }
  }

  lemma U32Exact(d: seq<u8>, p: nat, v: u32, q: nat)
    ensures GetU32(d, p) == Ok((v, q)) <==> At(d, p, q, U32Bytes(v))
  {
    if q == p + 4 <= |d| {
      Number4(d[p..q]);
    }
  }

  lemma Number2(e: seq<u8>)
    requires |e| == 2
    ensures Number(e) < 0x1_0000 && U16Bytes(Number(e)) == e
    ensures forall v: u16 :: U16Bytes(v) == e ==> v == Number(e)
  {
    var a, b: int := e[0], e[1];
    assert e[..1] == [e[0]] && e[..1][..0] == [];
    assert Number(e[..1][..0]) == 0;
    assert Number(e[..1]) == a;
    assert Number(e) == 0x100 * a + b;
  }

  lemma Number4(e: seq<u8>)
    requires |e| == 4
    ensures Number(e) < 0x1_0000_0000 && U32Bytes(Number(e)) == e
    ensures forall v: u32 :: U32Bytes(v) == e ==> v == Number(e)
  {
    var hi := e[..2];
    Number2(hi);
    var c: int, b: int := e[2], e[3];
    assert e[..3][..2] == hi;
    assert e[..3] == hi + [e[2]] && Number(e[..3]) == 0x100 * Number(hi) + c;
    var n := Number(e);
    assert n == 0x1_0000 * Number(hi) + 0x100 * c + b;
    hide Number;
    TwoHalves(Number(hi), c, b, n);
    assert U32Bytes(n) == e;
    forall v: u32 | U32Bytes(v) == e
      ensures v == n
    {
      assert v / 0x100 % 0x100 == c && v % 0x100 == b;
      UpperHalf(v);
      assert U16Bytes(v / 0x1_0000) == hi;
    }
  }

  lemma TwoHalves(hi: nat, c: nat, b: nat, n: nat)
    requires hi < 0x1_0000 && c < 0x100 && b < 0x100 && n == 0x1_0000 * hi + 0x100 * c + b
    ensures n < 0x1_0000_0000
    ensures n / 0x100_0000 == hi / 0x100 && n / 0x1_0000 % 0x100 == hi % 0x100
    ensures n / 0x100 % 0x100 == c && n % 0x100 == b
  {
    assert n / 0x100 == 0x100 * hi + c;
    assert n / 0x1_0000 == hi;
  }

  lemma UpperHalf(v: nat)
    requires v < 0x1_0000_0000
    ensures v / 0x1_0000 < 0x1_0000
    ensures v / 0x1_0000 / 0x100 == v / 0x100_0000
    ensures v == 0x1_0000 * (v / 0x1_0000) + 0x100 * (v / 0x100 % 0x100) + v % 0x100
  {
    assert v / 0x100 / 0x100 == v / 0x1_0000;
  }

  lemma StrExact(d: seq<u8>, p: nat, s: Str, q: nat)
    ensures GetStr(d, p) == Ok((s, q)) <==> ShortStr(s) && At(d, p, q, StrBytes(s))
  {
    AtConcat(d, p, q, U16Bytes(ToU16(|s|)), s);
    U16Exact(d, p, ToU16(|s|), p + 2);
  }

  lemma {:induction false} ManyExact<T(!new)>(
      get: (seq<u8>, nat) -> Result<(T, nat)>, put: T -> seq<u8>, ok: T -> bool,
      d: seq<u8>, p: nat, n: nat, xs: seq<T>, q: nat)
    requires Exact(get, put, ok)
    requires p <= |d|
    ensures Many(get, d, p, n) == Ok((xs, q))
            <==> |xs| == n && (forall x <- xs :: ok(x)) && At(d, p, q, Flat(put, xs))
  {
    if n == 0 {
    } else if |xs| == n {
      var ys, x := xs[..n - 1], xs[n - 1];
      var m := p + |Flat(put, ys)|;
      assert xs == ys + [x];
      ManyExact(get, put, ok, d, p, n - 1, ys, m);
      AtConcat(d, p, q, Flat(put, ys), put(x));
      if Many(get, d, p, n) == Ok((xs, q)) {
        var r := Many(get, d, p, n - 1).value;
        ManyExact(get, put, ok, d, p, n - 1, r.0, r.1);
        assert get(d, r.1).Ok? && xs == r.0 + [get(d, r.1).value.0];
        assert ys == r.0;
      }
    } else if Many(get, d, p, n) == Ok((xs, q)) {
      var r := Many(get, d, p, n - 1).value;
      ManyExact(get, put, ok, d, p, n - 1, r.0, r.1);
    }
  }

  // Once reading fails, reading more records fails the same way
  lemma {:induction false} ManyStaysErr<T>(
      get: (seq<u8>, nat) -> Result<(T, nat)>, d: seq<u8>, p: nat, m: nat, n: nat)
    requires m <= n && Many(get, d, p, m).Err?
    ensures Many(get, d, p, n) == Err(Many(get, d, p, m).error)
  {
    if m < n {
      ManyStaysErr(get, d, p, m, n - 1);
    }
  }

  lemma {:induction false} FlatLength<T(!new)>(put: T -> seq<u8>, xs: seq<T>, size: nat)
    requires forall x :: |put(x)| == size
    ensures |Flat(put, xs)| == size * |xs|
  {
    if xs != [] {
      FlatLength(put, xs[..|xs| - 1], size);
      assert |put(xs[|xs| - 1])| == size;
      assert size * (|xs| - 1) + size == size * |xs|;
    }
  }

  lemma Assoc(a: seq<u8>, b: seq<u8>, c: seq<u8>)
    ensures a + b + c == a + (b + c)
  {}

  // Writing record i after the first i records
  lemma FlatStep<T>(put: T -> seq<u8>, xs: seq<T>, i: nat, head: seq<u8>)
    requires i < |xs|
    ensures head + Flat(put, xs[..i]) + put(xs[i]) == head + Flat(put, xs[..i + 1])
  {
    assert xs[..i + 1][..i] == xs[..i];
    Assoc(head, Flat(put, xs[..i]), put(xs[i]));
  }

  lemma {:induction false} ManyLength<T>(get: (seq<u8>, nat) -> Result<(T, nat)>, d: seq<u8>, p: nat, n: nat)
    requires Many(get, d, p, n).Ok?
    ensures |Many(get, d, p, n).value.0| == n
  {
    if n > 0 {
      ManyLength(get, d, p, n - 1);
    }
  }
}
