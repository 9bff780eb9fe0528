/**
 * Kotlin `Int` arithmetic as the profile framing uses it: 32-bit two's
 * complement values, `shl`, `shr` and bitwise `or`. Values are plain
 * integers; a 32-bit pattern is an integer in [0, 2^32).
 */
module KotlinInt {

  const TwoTo31: int := 0x8000_0000
  const TwoTo32: int := 0x1_0000_0000

  /** A value of Kotlin's `Int`. */
  type Int32 = v: int | -0x8000_0000 <= v < 0x8000_0000

  /** An unsigned 32-bit pattern. */
  type Bits32 = p: int | 0 <= p < 0x1_0000_0000

  function Pow2(k: nat): (r: nat)
    ensures r >= 1
  {
    if k == 0 then 1 else 2 * Pow2(k - 1)
  }

  /** The two's complement bit pattern of an `Int`. */
  function Pattern(v: Int32): Bits32
  {
    if v < 0 then v + TwoTo32 else v
  }

  /** The `Int` whose two's complement bit pattern is `p`. */
  function FromPattern(p: Bits32): Int32
  {
    if p < TwoTo31 then p else p - TwoTo32
  }

  /** Bitwise or of two unsigned patterns, one bit at a time. */
  function BitOr(a: nat, b: nat): nat
    decreases a + b
  {
    if a == 0 then b
    else if b == 0 then a
    else 2 * BitOr(a / 2, b / 2) + (if a % 2 == 1 || b % 2 == 1 then 1 else 0)
  }

  /** `v shl k`: the pattern shifted left, bits above bit 31 dropped. */
  function Shl(v: Int32, k: nat): Int32
    requires k < 32
  {
    FromPattern((Pattern(v) * Pow2(k)) % TwoTo32)
  }

  /**
   * `v shr k` for a non-negative `v` (the only values the encoder shifts):
   * the arithmetic shift right, which is division by 2^k.
   */
  function Shr(v: Int32, k: nat): Int32
    requires v >= 0 && k < 32
  {
    DivBound(v, Pow2(k));
    v / Pow2(k)
  }

  /** `a or b` on `Int`. */
  function Or(a: Int32, b: Int32): Int32
  {
    BitOrBound32(Pattern(a), Pattern(b));
    FromPattern(BitOr(Pattern(a), Pattern(b)))
  }

  lemma {:induction false} Pow2Values()
    ensures Pow2(8) == 0x100 && Pow2(16) == 0x1_0000 && Pow2(24) == 0x100_0000
    ensures Pow2(32) == TwoTo32
  {
  }

  lemma {:induction false} Pow2Monotone(j: nat, k: nat)
    requires j <= k
    ensures Pow2(j) <= Pow2(k)
  {
    if j < k {
      Pow2Monotone(j, k - 1);
    }
  }

  lemma {:induction false} DivBound(v: nat, d: nat)
    requires d >= 1
    ensures 0 <= v / d <= v
  {
    var q := v / d;
    assert q * d <= v;
    MulAtLeast(q, d);
  }

  lemma {:induction false} MulAtLeast(q: nat, d: nat)
    requires d >= 1
    ensures q <= q * d
  {
    assert q * d == q + q * (d - 1);
  }

  lemma {:induction false} MulMod(m: nat, h: nat)
    requires h >= 1
    ensures (m * h) % h == 0 && (m * h) / h == m
  {
    var q, r := (m * h) / h, (m * h) % h;
    assert (m - q) * h == r;
    ProductSign(m - q, h);
  }

  lemma {:induction false} ProductSign(x: int, h: int)
    requires h >= 1
    ensures x >= 1 ==> x * h >= h
    ensures x <= -1 ==> x * h <= 0 - h
  {
    if x >= 1 {
      assert x * h == h + (x - 1) * h;
    } else if x <= -1 {
      assert x * h == 0 - h - (0 - x - 1) * h;
    }
  }

  /** The or of two patterns that fit in k bits fits in k bits. */
  lemma {:induction false} BitOrBound(a: nat, b: nat, k: nat)
    requires a < Pow2(k) && b < Pow2(k)
    ensures BitOr(a, b) < Pow2(k)
    decreases a + b
  {
    if a != 0 && b != 0 {
      BitOrBound(a / 2, b / 2, k - 1);
    }
  }

  lemma {:induction false} BitOrBound32(a: nat, b: nat)
    requires a < TwoTo32 && b < TwoTo32
    ensures BitOr(a, b) < TwoTo32
  {
    Pow2Values();
    BitOrBound(a, b, 32);
  }

  /** Or never clears a bit: the result is at least each operand. */
  lemma {:induction false} BitOrAtLeast(a: nat, b: nat)
    ensures BitOr(a, b) >= a && BitOr(a, b) >= b
    decreases a + b
  {
    if a != 0 && b != 0 {
      BitOrAtLeast(a / 2, b / 2);
    }
  }

  /** Or of a value whose low k bits are clear with one below 2^k is their sum. */
  lemma {:induction false} BitOrDisjoint(a: nat, b: nat, k: nat)
    requires a % Pow2(k) == 0 && b < Pow2(k)
    ensures BitOr(a, b) == a + b
    decreases k
  {
    if a != 0 && b != 0 {
      assert k > 0;
      var h := Pow2(k - 1);
      var m := a / Pow2(k);
      assert a == m * (2 * h);
      assert a == 2 * (m * h);
      assert a / 2 == m * h;
      MulMod(m, h);
      assert b / 2 < h;
      BitOrDisjoint(a / 2, b / 2, k - 1);
      assert BitOr(a, b) == 2 * (a / 2 + b / 2) + b % 2;
    }
  }

  /** Shifting a small non-negative value left is multiplication. */
  lemma {:induction false} ShlSmall(v: Int32, k: nat)
    requires k < 32 && 0 <= v && v * Pow2(k) < TwoTo31
    ensures Shl(v, k) == v * Pow2(k)
  {
    assert Pattern(v) == v;
    var m := v * Pow2(k);
    assert 0 <= m < TwoTo31;
    assert m % TwoTo32 == m;
  }

  /** -1 shifted left by 8, 16 or 24 keeps its sign bit. */
  lemma {:induction false} ShlMinusOne(k: nat)
    requires k == 8 || k == 16 || k == 24
    ensures Shl(-1, k) < 0
  {
    Pow2Values();
  }

  /** A byte of 128 or more shifted into the top position sets the sign bit. */
  lemma {:induction false} ShlHighByte(v: Int32)
    requires 128 <= v < 256
    ensures Shl(v, 24) < 0
  {
    Pow2Values();
  }

  /** Or of non-negative values with disjoint bits is their sum. */
  lemma {:induction false} OrDisjoint(a: Int32, b: Int32, k: nat)
    requires 0 <= a && 0 <= b && a + b < TwoTo31
    requires a % Pow2(k) == 0 && b < Pow2(k)
    ensures Or(a, b) == a + b
  {
    OrOfNonNegative(a, b);
    BitOrDisjoint(a, b, k);
  }

  lemma {:induction false} OrOfNonNegative(a: Int32, b: Int32)
    requires 0 <= a && 0 <= b
    ensures Pattern(a) == a && Pattern(b) == b
  {
  }

  /** Or with a negative operand is negative. */
  lemma {:induction false} OrNegative(a: Int32, b: Int32)
    requires a < 0 || b < 0
    ensures Or(a, b) < 0
  {
    BitOrAtLeast(Pattern(a), Pattern(b));
    BitOrBound32(Pattern(a), Pattern(b));
  }

  /** Or of non-negative values is non-negative. */
  lemma {:induction false} OrNonNegative(a: Int32, b: Int32)
    requires 0 <= a && 0 <= b
    ensures Or(a, b) >= 0
  {
    OrOfNonNegative(a, b);
    assert TwoTo31 == Pow2(31) by { Pow2Values(); assert Pow2(32) == 2 * Pow2(31); }
    BitOrBound(a, b, 31);
  }
}
