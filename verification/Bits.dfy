/** Bitwise operators on bytes, defined bit by bit. */
module Bits {
  import opened Bytes

  datatype Op = And | Or | Xor | AndNot

  predicate Apply(op: Op, a: bool, b: bool) {
    match op
    case And => a && b
    case Or => a || b
    case Xor => a != b
    case AndNot => a && !b
  }

  /** Bit `k` of `x`, counting from the least significant. */
  predicate Bit(x: nat, k: nat) {
    if k == 0 then x % 2 == 1 else Bit(x / 2, k - 1)
  }

  function Pow2(n: nat): (p: nat)
    ensures p > 0
  {
    if n == 0 then 1 else 2 * Pow2(n - 1)
  }

  function Combine(op: Op, a: nat, b: nat, n: nat): (r: nat)
    ensures r < Pow2(n)
  {
    if n == 0 then 0
    else (if Apply(op, a % 2 == 1, b % 2 == 1) then 1 else 0) + 2 * Combine(op, a / 2, b / 2, n - 1)
  }

  lemma {:induction false} CombineBit(op: Op, a: nat, b: nat, n: nat, k: nat)
    requires k < n
    ensures Bit(Combine(op, a, b, n), k) == Apply(op, Bit(a, k), Bit(b, k))
  {
    if k > 0 {
      CombineBit(op, a / 2, b / 2, n - 1, k - 1);
    }
  }

  lemma {:induction false} XorTwice(a: nat, b: nat, n: nat)
    requires a < Pow2(n)
    ensures Combine(Xor, Combine(Xor, a, b, n), b, n) == a
  {
    if n > 0 {
      XorTwice(a / 2, b / 2, n - 1);
    }
  }

  lemma Pow8()
    ensures Pow2(8) == 256
  {
    assert Pow2(4) == 16;
  }

  /** A byte operator of the source: `a & b`, `a | b`, `a ^ b`, `a &^ b`. */
  function ByteOp(op: Op, a: Byte, b: Byte): (r: Byte)
    ensures forall k :: 0 <= k < 8 ==> Bit(r, k) == Apply(op, Bit(a, k), Bit(b, k))
  {
    Pow8();
    assert forall k :: 0 <= k < 8 ==> Bit(Combine(op, a, b, 8), k) == Apply(op, Bit(a, k), Bit(b, k)) by {
      forall k: nat | k < 8 ensures Bit(Combine(op, a, b, 8), k) == Apply(op, Bit(a, k), Bit(b, k)) {
        CombineBit(op, a, b, 8, k);
      }
    }
    Combine(op, a, b, 8)
  }

  lemma ByteXorTwice(a: Byte, b: Byte)
    ensures ByteOp(Xor, ByteOp(Xor, a, b), b) == a
  {
    Pow8();
    XorTwice(a, b, 8);
  }

  lemma SwapNibbles(a: Byte)
    ensures Swap(Swap(a)) == a
  {
    var hi, lo := (a as int) / 16, (a as int) % 16;
    assert Swap(a) == 16 * lo + hi;
    assert (16 * lo + hi) / 16 == lo && (16 * lo + hi) % 16 == hi;
  }

  /** `(ch << 4) & 0xff | (ch >> 4)` */
  function Swap(a: Byte): (r: Byte) {
    (a as int) % 16 * 16 + (a as int) / 16
  }
}
