/** Bitwise operations on unsigned integers, written out over `nat`. */
module Bits {

  function Pow2(k: nat): (p: nat)
    ensures p >= 1
  {
    if k == 0 then 1 else 2 * Pow2(k - 1)
  }

  /** The AND of the lowest bits of `a` and `b`. */
  function LowBitAnd(a: nat, b: nat): nat
  {
    if a % 2 == 1 && b % 2 == 1 then 1 else 0
  }

  /** Bitwise AND, bit by bit from the least significant bit up. */
  function BitAnd(a: nat, b: nat): (r: nat)
    ensures r <= a && r <= b
    decreases a
  {
    if a == 0 || b == 0 then 0 else 2 * BitAnd(a / 2, b / 2) + LowBitAnd(a, b)
  }

  /** One step of the bit-by-bit recursion, including when an operand is zero. */
  lemma BitAndStep(a: nat, b: nat)
    ensures BitAnd(a, b) == 2 * BitAnd(a / 2, b / 2) + LowBitAnd(a, b)
  {
    if a == 0 || b == 0 {
      assert BitAnd(a / 2, b / 2) == 0;
    }
  }

  /** Three steps of the recursion: the low three bits, and the rest shifted down by three. */
  lemma BitAndLowThree(a: nat, b: nat)
    ensures BitAnd(a, b) == 8 * BitAnd(a / 8, b / 8)
      + 4 * LowBitAnd(a / 4, b / 4) + 2 * LowBitAnd(a / 2, b / 2) + LowBitAnd(a, b)
  {
    var a2, a4, b2, b4 := a / 2, a / 4, b / 2, b / 4;
    BitAndStep(a, b);
    assert a2 / 2 == a4 && b2 / 2 == b4;
    BitAndStep(a2, b2);
    assert a4 / 2 == a / 8 && b4 / 2 == b / 8;
    BitAndStep(a4, b4);
  }

  /**
   * Bitwise NOT of a 32-bit value: it shares no bit with `a`, and together
   * the two cover all 32 bits.
   */
  function BitNot32(a: nat): (r: nat)
    requires a < 0x1_0000_0000
    ensures r < 0x1_0000_0000
    ensures BitAnd(a, r) == 0
    ensures a + r == 0x1_0000_0000 - 1
  {
    Pow2Of32();
    BitAndComplement(a, 32);
    0x1_0000_0000 - 1 - a
  }

  /** Below 2^k, a value and its difference from k one bits have no bit in common. */
  lemma {:induction false} BitAndComplement(a: nat, k: nat)
    requires a < Pow2(k)
    ensures BitAnd(a, Pow2(k) - 1 - a) == 0
  {
    var c := Pow2(k) - 1 - a;
    if a != 0 && c != 0 {
      assert k > 0;
      assert Pow2(k) == 2 * Pow2(k - 1);
      assert c / 2 == Pow2(k - 1) - 1 - a / 2;
      assert LowBitAnd(a, c) == 0;
      BitAndComplement(a / 2, k - 1);
    }
  }

  /** A mask of k one bits keeps every value below 2^k unchanged. */
  lemma {:induction false} BitAndLowOnes(a: nat, k: nat)
    requires a < Pow2(k)
    ensures BitAnd(a, Pow2(k) - 1) == a
  {
    if a != 0 {
      assert k > 0;
      assert (Pow2(k) - 1) / 2 == Pow2(k - 1) - 1;
      assert (Pow2(k) - 1) % 2 == 1;
      BitAndLowOnes(a / 2, k - 1);
    }
  }

  lemma Pow2Of29()
    ensures Pow2(29) == 0x2000_0000
  {
    assert Pow2(10) == 0x400;
    assert Pow2(20) == 0x10_0000;
  }

  /** The 29-bit instance of `BitAndLowOnes`. */
  lemma BitAndLow29(a: nat)
    requires a < 0x2000_0000
    ensures BitAnd(a, 0x1FFF_FFFF) == a
  {
    Pow2Of29();
    BitAndLowOnes(a, 29);
  }

  lemma Pow2Of32()
    ensures Pow2(32) == 0x1_0000_0000
  {
    Pow2Of29();
    assert Pow2(30) == 0x4000_0000;
    assert Pow2(31) == 0x8000_0000;
  }

  /** Clearing bits 0 and 2 of a 32-bit value (`& !5`, that is `& 0xFFFF_FFFA`) keeps each of its other bits. */
  lemma {:induction false} ClearBitsZeroAndTwo(x: nat)
    requires x < 0x1_0000_0000
    ensures BitAnd(x, 0xFFFF_FFFA) == 8 * (x / 8) + 2 * ((x / 2) % 2)
  {
    var m := 0xFFFF_FFFA;
    assert m / 8 == 0x1FFF_FFFF && m % 2 == 0 && (m / 2) % 2 == 1 && (m / 4) % 2 == 0;
    BitAndLow29(x / 8);
    BitAndLowThree(x, m);
  }
}
