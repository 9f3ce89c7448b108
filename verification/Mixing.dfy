/** Integers and 32-bit words. */
module Words {

  lemma {:induction false} IntToBits(x: bv32)
    ensures (x as int) as bv32 == x
  {}

  lemma {:induction false} BitsFromInt(x: bv32, y: bv32)
    requires x as int == y as int
    ensures x == y
  {
    IntToBits(x);
    IntToBits(y);
  }

  lemma {:induction false} Doubled(x: bv32)
    requires x & 0x8000_0000 == 0
    ensures (x << 1) as int == 2 * (x as int) && ((x << 1) | 1) as int == 2 * (x as int) + 1
  {}

  lemma {:induction false} TopBitClear(x: bv32)
    requires x as int < 0x8000_0000
    ensures x & 0x8000_0000 == 0
  {}

  /** A word for a number, put together from its binary digits. */
  lemma {:induction false} WordFor(n: nat) returns (x: bv32)
    requires n < 0x1_0000_0000
    ensures x as int == n
  {
    if n == 0 {
      x := 0;
    } else {
      var y := WordFor(n / 2);
      TopBitClear(y);
      x := if n % 2 == 0 then y << 1 else (y << 1) | 1;
      Doubled(y);
    }
  }

  /** A number below 2^32 survives being a word. */
  lemma {:induction false} BitsToInt(n: nat)
    requires n < 0x1_0000_0000
    ensures (n as bv32) as int == n
  {
    var x := WordFor(n);
    IntToBits(x);
  }

  /** The low 32 bits of a number. */
  function Word(n: nat): bv32 { (n % 0x1_0000_0000) as bv32 }

  lemma {:induction false} FirstWords()
    ensures Word(0) == 0 && Word(1) == 1
  {
    IntToBits(0);
    IntToBits(1);
  }

  lemma {:induction false} WordInjective(m: nat, n: nat)
    requires m < 0x1_0000_0000 && n < 0x1_0000_0000 && Word(m) == Word(n)
    ensures m == n
  {
    BitsToInt(m);
    BitsToInt(n);
  }
}

/** The 32-bit mixing behind the HRW score, and why it never merges two node hashes. */
module Mixing {

  function XorShift15(x: bv32): bv32 { x ^ (x >> 15) }
  function XorShift13(x: bv32): bv32 { x ^ (x >> 13) }
  function Multiply(x: bv32): bv32 { x * 0x85eb_ca6b }
  function Blend(x: bv32, m: bv32): bv32 { x ^ m }

  /** The odd multiplier that spreads the buckets. */
  function Golden(x: bv32): bv32 { (x + 1) * 0x9e37_79b1 }
  function Ungolden(y: bv32): bv32 { y * 0x0e8b_2f51 - 1 }

  lemma {:induction false} UndoGoldenBits(x: bv32)
    ensures Ungolden((x + 1) * 0x9e37_79b1) == x
  {}

  lemma {:induction false} UndoGolden(x: bv32)
    ensures Ungolden(Golden(x)) == x
  {
    UndoGoldenBits(x);
  }

  /** The mixing of a node hash with a bucket's constant. */
  function Mix(nodeHash: bv32, bucketMix: bv32): bv32 {
    XorShift13(Multiply(XorShift15(Blend(nodeHash, bucketMix))))
  }

  /** The mixing step by step. */
  lemma {:induction false} MixSteps(h: bv32, m: bv32, a: bv32, b: bv32, c: bv32, d: bv32)
    requires Blend(h, m) == a && XorShift15(a) == b && Multiply(b) == c && XorShift13(c) == d
    ensures Mix(h, m) == d
  {}

  // Every step has an inverse; the multiplier is odd, so it has one modulo 2^32.

  function Unshift15(y: bv32): bv32 { y ^ (y >> 15) ^ (y >> 30) }
  function Unshift13(y: bv32): bv32 { y ^ (y >> 13) ^ (y >> 26) }
  function Unmultiply(y: bv32): bv32 { y * 0xa5cb_9243 }

  /** Recovers the node hash from a score. */
  function Unmix(score: bv32, bucketMix: bv32): bv32 {
    Blend(Unshift15(Unmultiply(Unshift13(score))), bucketMix)
  }

  lemma {:induction false} UndoXorShift15Bits(x: bv32)
    ensures Unshift15(x ^ (x >> 15)) == x
  {}

  lemma {:induction false} UndoXorShift15(x: bv32)
    ensures Unshift15(XorShift15(x)) == x
  {
    UndoXorShift15Bits(x);
  }

  lemma {:induction false} UndoXorShift13Bits(x: bv32)
    ensures Unshift13(x ^ (x >> 13)) == x
  {}

  lemma {:induction false} UndoXorShift13(x: bv32)
    ensures Unshift13(XorShift13(x)) == x
  {
    UndoXorShift13Bits(x);
  }

  lemma {:induction false} UndoMultiplyBits(x: bv32)
    ensures Unmultiply(x * 0x85eb_ca6b) == x
  {}

  lemma {:induction false} UndoMultiply(x: bv32)
    ensures Unmultiply(Multiply(x)) == x
  {
    UndoMultiplyBits(x);
  }

  lemma {:induction false} UndoBlendBits(x: bv32, m: bv32)
    ensures Blend(x ^ m, m) == x
  {}

  lemma {:induction false} UndoBlend(x: bv32, m: bv32)
    ensures Blend(Blend(x, m), m) == x
  {
    UndoBlendBits(x, m);
  }

  lemma {:induction false} UnmixMix(x: bv32, mix: bv32)
    ensures Unmix(Mix(x, mix), mix) == x
  {
    var h := Blend(x, mix);
    UndoBlend(x, mix);
    UndoXorShift15(h);
    UndoMultiply(XorShift15(h));
    UndoXorShift13(Multiply(XorShift15(h)));
  }

  lemma {:induction false} UnmixHalf(x: bv32, mix: bv32)
    ensures Unshift15(Unmultiply(Unshift13(Mix(x, mix)))) == Blend(x, mix)
  {
    var h := Blend(x, mix);
    UndoXorShift15(h);
    UndoMultiply(XorShift15(h));
    UndoXorShift13(Multiply(XorShift15(h)));
  }

  lemma {:induction false} BlendBits(x: bv32, m: bv32)
    ensures x ^ (x ^ m) == m
  {}

  /** And in the bucket's constant. */
  lemma {:induction false} MixInjectiveInBucket(x: bv32, m: bv32, m': bv32)
    requires Mix(x, m) == Mix(x, m')
    ensures m == m'
  {
    UnmixHalf(x, m);
    UnmixHalf(x, m');
    BlendBits(x, m);
    BlendBits(x, m');
  }

  /** The score is injective in the node hash. */
  lemma {:induction false} MixInjective(x: bv32, y: bv32, mix: bv32)
    requires Mix(x, mix) == Mix(y, mix)
    ensures x == y
  {
    UnmixMix(x, mix);
    UnmixMix(y, mix);
  }
}
