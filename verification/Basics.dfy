/** Integer widths of the C++ sources and the result type standing for its exceptions. */
module Basics {
  type u8 = x: int | 0 <= x < 0x100
  type u16 = x: int | 0 <= x < 0x1_0000
  type u32 = x: int | 0 <= x < 0x1_0000_0000
  type u64 = x: int | 0 <= x < 0x1_0000_0000_0000_0000

  const U16_MAX := 65535

  // std::string is a string of bytes
  type Str = seq<u8>

  function ToU16(x: nat): u16 { x % 0x1_0000 }

  function ToU32(x: nat): u32 { x % 0x1_0000_0000 }

  // Unsigned 64-bit subtraction, wrapping as in C++
  function SubU64(a: u64, b: u64): u64 { (a - b) % 0x1_0000_0000_0000_0000 }

  datatype Option<+T> = None | Some(value: T)

  // The runtime_error texts thrown by the codec
  datatype Error = UnderflowU8 | UnderflowU16 | UnderflowU32 | UnderflowStr | StringTooLong

  datatype Result<+T> = Ok(value: T) | Err(error: Error) {
    predicate IsFailure() { Err? }

    function PropagateFailure<U>(): Result<U>
      requires Err?
    {
      Err(error)
    }

    function Extract(): T
      requires Ok?
    {
      value
    }
  }

  ghost predicate NoDup<T>(s: seq<T>) {
    forall i, j :: 0 <= i < j < |s| ==> s[i] != s[j]
  }

  ghost function Elems<T>(s: seq<T>): set<T> {
    set x | x in s
  }

  predicate Even(n: nat) { n % 2 == 0 }

  // s lists the elements of m, each exactly once, in some order
  ghost predicate Lists<T>(s: seq<T>, m: set<T>) {
    NoDup(s) && Elems(s) == m
  }

  lemma ListsAdd<T>(s: seq<T>, m: set<T>, x: T)
    requires Lists(s, m) && x !in m
    ensures Lists(s + [x], m + {x})
  {
    assert x !in Elems(s);
    forall y
      ensures y in Elems(s + [x]) <==> y in m + {x}
    {
      assert y in s + [x] <==> y in s || y == x;
      assert y in s <==> y in Elems(s);
    }
  }

  // The initial segments of run[..|run| - 1] are initial segments of run
  lemma Initial<T>(run: seq<T>)
    requires run != []
    ensures var init := run[..|run| - 1];
            forall i :: 0 <= i < |init| ==> init[..i] == run[..i] && init[i] == run[i]
  {}
}
