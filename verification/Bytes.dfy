/** Bytes and fixed-width unsigned integers, in both byte orders. */
module Bytes {

  type Byte = x: int | 0 <= x < 0x100
  type U16 = x: int | 0 <= x < 0x1_0000
  type U32 = x: int | 0 <= x < 0x1_0000_0000

  /** Conversion to uint16 and uint32: the value modulo the width. */
  function ToU16(n: nat): (r: U16) { n % 0x1_0000 }
  function ToU32(n: nat): (r: U32) { n % 0x1_0000_0000 }

  function LE16(x: U16): (b: seq<Byte>)
    ensures |b| == 2
  {
    [x % 256, x / 256]
  }

  function LE32(x: U32): (b: seq<Byte>)
    ensures |b| == 4
  {
    [x % 256, x / 256 % 256, x / 0x1_0000 % 256, x / 0x100_0000]
  }

  function BE16(x: U16): (b: seq<Byte>)
    ensures |b| == 2
  {
    [x / 256, x % 256]
  }

  function BE32(x: U32): (b: seq<Byte>)
    ensures |b| == 4
  {
    [x / 0x100_0000, x / 0x1_0000 % 256, x / 256 % 256, x % 256]
  }

  function FromLE16(b: seq<Byte>): (x: U16)
    requires |b| >= 2
  {
    (b[0] as int) + 256 * (b[1] as int)
  }

  function FromLE32(b: seq<Byte>): (x: U32)
    requires |b| >= 4
  {
    (b[0] as int) + 256 * (b[1] as int) + 0x1_0000 * (b[2] as int) + 0x100_0000 * (b[3] as int)
  }

  function FromBE16(b: seq<Byte>): (x: U16)
    requires |b| >= 2
  {
    256 * (b[0] as int) + (b[1] as int)
  }

  function FromBE32(b: seq<Byte>): (x: U32)
    requires |b| >= 4
  {
    0x100_0000 * (b[0] as int) + 0x1_0000 * (b[1] as int) + 256 * (b[2] as int) + (b[3] as int)
  }

  lemma Words16(x: U16)
    ensures FromLE16(LE16(x)) == x && FromBE16(BE16(x)) == x
  {
  }

  lemma Words32(x: U32)
    ensures FromLE32(LE32(x)) == x && FromBE32(BE32(x)) == x
  {
    var hi, lo := x / 0x1_0000, x % 0x1_0000;
    assert x / 256 % 256 == lo / 256 && x % 256 == lo % 256;
    assert x / 0x100_0000 == hi / 256;
  }

  lemma ByteOrder16(a: Byte, b: Byte)
    ensures LE16(a as int + 256 * (b as int)) == [a, b] && BE16(a as int + 256 * (b as int)) == [b, a]
  {
  }

  /** Byte for byte: little-endian words start with the low byte, big-endian ones with the high. */
  lemma ByteOrder(a: Byte, b: Byte, c: Byte, d: Byte)
    ensures var n := (a as int) + 0x100 * (b as int) + 0x1_0000 * (c as int) + 0x100_0000 * (d as int);
            0 <= n < 0x1_0000_0000 && LE32(n) == [a, b, c, d] && BE32(n) == [d, c, b, a]
  {
    var lo, hi: int := (a as int) + 0x100 * (b as int), (c as int) + 0x100 * (d as int);
    var n := lo + 0x1_0000 * hi;
    assert n / 0x1_0000 == hi && n % 0x1_0000 == lo;
    assert n / 0x100 == (b as int) + 0x100 * hi && n / 0x100_0000 == d as int;
  }

  /** All elements joined. */
  function Concat<T>(parts: seq<seq<T>>): (r: seq<T>) {
    if parts == [] then [] else parts[0] + Concat(parts[1..])
  }

  /** Where part `i` begins. */
  function StartOf<T>(parts: seq<seq<T>>, i: nat): (n: nat)
    requires i <= |parts|
  {
    if i == 0 then 0 else StartOf(parts, i - 1) + |parts[i - 1]|
  }

  lemma {:induction false} StartOfTail<T>(parts: seq<seq<T>>, i: nat)
    requires 0 < i <= |parts|
    ensures StartOf(parts, i) == |parts[0]| + StartOf(parts[1..], i - 1)
  {
    if i > 1 {
      StartOfTail(parts, i - 1);
    }
  }

  /** Every part is found whole where it begins. */
  lemma {:induction false} PartAt<T>(parts: seq<seq<T>>, i: nat)
    requires i < |parts|
    ensures StartOf(parts, i) + |parts[i]| <= |Concat(parts)|
    ensures Concat(parts)[StartOf(parts, i)..StartOf(parts, i) + |parts[i]|] == parts[i]
  {
    var rest := Concat(parts[1..]);
    if i > 0 {
      StartOfTail(parts, i);
      PartAt(parts[1..], i - 1);
      var n := StartOf(parts[1..], i - 1);
      assert Concat(parts)[|parts[0]|..] == rest;
      assert Concat(parts)[|parts[0]| + n..|parts[0]| + n + |parts[i]|] == rest[n..n + |parts[i]|];
    }
  }

  lemma {:induction false} ConcatLength<T>(parts: seq<seq<T>>)
    ensures |Concat(parts)| == StartOf(parts, |parts|)
  {
    if parts != [] {
      ConcatLength(parts[1..]);
      StartOfTail(parts, |parts|);
    }
  }

  lemma {:induction false} ConcatSnoc<T>(parts: seq<seq<T>>, part: seq<T>)
    ensures Concat(parts + [part]) == Concat(parts) + part
  {
    if parts == [] {
      assert Concat([part]) == part + [];
    } else {
      ConcatSnoc(parts[1..], part);
      assert (parts + [part])[1..] == parts[1..] + [part];
    }
  }
}
