/**
 * Rust's 32-bit signed integer operations as they are used by the chunk code:
 * truncating division and remainder, and the bit operations `<<`, `|` and
 * `& 1023` on two's-complement `i32` values.
 *
 * Dafny's `/` and `%` on `int` are Euclidean; Rust's truncate toward zero.
 * Bit operations are modelled on the unsigned 32-bit pattern of a value,
 * a number in [0, 2^32); two `i32` values are equal exactly when their
 * patterns are, so a hash-map key may be represented by its pattern.
 */
module RustInt {

  const TWO_POW_32: int := 0x1_0000_0000

  type i32 = x: int | -0x8000_0000 <= x < 0x8000_0000

  /** Rust `a / b` on integers: the quotient truncated toward zero. */
  function Div(a: int, b: int): (q: int)
    requires b > 0
    ensures a >= 0 ==> b * q <= a < b * q + b
    ensures a < 0 ==> b * q - b < a <= b * q
  {
    if a >= 0 then a / b else -((-a) / b)
  }

  /** Rust `a % b`: the remainder that goes with `Div`; it takes the sign of `a`. */
  function Rem(a: int, b: int): (r: int)
    requires b > 0
    ensures a == b * Div(a, b) + r
    ensures a >= 0 ==> 0 <= r < b
    ensures a < 0 ==> -b < r <= 0
  {
    a - b * Div(a, b)
  }

  /**
   * The i32 that an overflowing `i32` expression evaluates to with
   * wrap-around arithmetic: the value with the same 32-bit pattern as `v`.
   */
  function Wrap(v: int): (r: i32)
    ensures (r - v) % TWO_POW_32 == 0
    ensures -0x8000_0000 <= v < 0x8000_0000 ==> r == v
  {
    var p := v % TWO_POW_32;
    if p < 0x8000_0000 then p else p - TWO_POW_32
  }

  /** Truncating division by 16 undoes multiplication by 16. */
  lemma DivMulCancel16(x: int)
    ensures Div(x * 16, 16) == x
  {
  }

  /** For non-negative operands truncation and floor division agree. */
  lemma DivNonNegIsFloor(a: int, n: int)
    requires n > 0 && a >= 0
    ensures Div(a, n) == a / n && Rem(a, n) == a % n
  {
  }

  // ---------------------------------------------------------------------------
  // Bit operations on the two's-complement pattern of an i32.

  /** The 32-bit pattern of an integer, as an unsigned number (wraps modulo 2^32). */
  function Pattern(x: int): (p: int)
    ensures 0 <= p < TWO_POW_32
    ensures -0x8000_0000 <= x < 0 ==> p == x + TWO_POW_32
    ensures 0 <= x < TWO_POW_32 ==> p == x
  {
    x % TWO_POW_32
  }

  function Pow2(k: nat): (p: nat)
    ensures p >= 1
  {
    if k == 0 then 1 else 2 * Pow2(k - 1)
  }

  /** `x << k` on i32: the pattern shifted left, bits beyond 32 dropped. */
  function Shl(x: int, k: nat): (p: int)
    requires k < 32
    ensures 0 <= p < TWO_POW_32
  {
    (Pattern(x) * Pow2(k)) % TWO_POW_32
  }

  /** Bitwise OR of two non-negative numbers, bit by bit from the lowest. */
  function BitOr(a: nat, b: nat): nat
    decreases a + b
  {
    if a == 0 then b
    else if b == 0 then a
    else 2 * BitOr(a / 2, b / 2) + (if a % 2 == 1 || b % 2 == 1 then 1 else 0)
  }

  /**
   * `x & 1023` on i32. For a two's-complement value the ten lowest bits are
   * the remainder of the floor division by 1024, which is Dafny's `%`.
   */
  function Low10(x: int): (r: int)
    ensures 0 <= r < 1024
    ensures 0 <= x < 1024 ==> r == x
    ensures (x + 1024) % 1024 == r
  {
    x % 1024
  }

  /** OR-ing a value into bits that are clear is addition. */
  lemma {:induction false} BitOrDisjoint(a: nat, c: nat, k: nat)
    requires c < Pow2(k)
    ensures BitOr(a * Pow2(k), c) == a * Pow2(k) + c
    decreases k
  {
    if k == 0 {
      assert c == 0;
    } else if a == 0 || c == 0 {
    } else {
      var h := a * Pow2(k - 1);
      assert a * Pow2(k) == 2 * h;
      assert c / 2 < Pow2(k - 1);
      BitOrDisjoint(a, c / 2, k - 1);
      assert (2 * h) / 2 == h && (2 * h) % 2 == 0;
      assert BitOr(2 * h, c) == 2 * BitOr(h, c / 2) + c % 2;
    }
  }

  lemma Pow2Values()
    ensures Pow2(10) == 1024 && Pow2(20) == 0x10_0000
  {
    assert Pow2(5) == 32;
    assert Pow2(10) == 32 * Pow2(5) by {
      assert Pow2(10) == 2 * Pow2(9) == 4 * Pow2(8) == 8 * Pow2(7) == 16 * Pow2(6) == 32 * Pow2(5);
    }
    assert Pow2(20) == 1024 * Pow2(10) by {
      assert Pow2(20) == 2 * Pow2(19) == 4 * Pow2(18) == 8 * Pow2(17) == 16 * Pow2(16) == 32 * Pow2(15);
      assert Pow2(15) == 32 * Pow2(10) by {
        assert Pow2(15) == 2 * Pow2(14) == 4 * Pow2(13) == 8 * Pow2(12) == 16 * Pow2(11) == 32 * Pow2(10);
      }
    }
  }

  /** `(a << 10) | c` with `a < 2^22` and `c` in ten bits packs exactly as `a * 1024 + c`. */
  lemma Pack10(a: int, c: int)
    requires 0 <= a < 0x40_0000 && 0 <= c < 1024
    ensures Shl(a, 10) == a * 1024
    ensures BitOr(Shl(a, 10), c) == a * 1024 + c
  {
    Pow2Values();
    BitOrDisjoint(a, c, 10);
  }

  /** Doubling both non-zero operands doubles their OR. */
  lemma BitOrDouble(x: nat, y: nat)
    requires x > 0 && y > 0
    ensures BitOr(2 * x, 2 * y) == 2 * BitOr(x, y)
  {
    assert (2 * x) / 2 == x && (2 * x) % 2 == 0;
    assert (2 * y) / 2 == y && (2 * y) % 2 == 0;
  }

  lemma MulPow2(x: nat, k: nat)
    requires k > 0
    ensures x * Pow2(k) == 2 * (x * Pow2(k - 1))
    ensures x * Pow2(k - 1) == 0 <==> x == 0
  {
  }

  /** Shifting both operands by the same amount commutes with OR. */
  lemma {:induction false} BitOrShift(x: nat, y: nat, k: nat)
    ensures BitOr(x * Pow2(k), y * Pow2(k)) == BitOr(x, y) * Pow2(k)
    decreases k
  {
    if k > 0 {
      BitOrShift(x, y, k - 1);
      MulPow2(x, k);
      MulPow2(y, k);
      MulPow2(BitOr(x, y), k);
      if x > 0 && y > 0 {
        BitOrDouble(x * Pow2(k - 1), y * Pow2(k - 1));
      }
    }
  }

  /**
   * `(a << 20) | (b << 10) | c` with `a < 2^12` and `b`, `c` in ten bits packs
   * exactly as `a * 2^20 + b * 1024 + c`.
   */
  lemma Pack20(a: int, b: int, c: int)
    requires 0 <= a < 0x1000 && 0 <= b < 1024 && 0 <= c < 1024
    ensures Shl(a, 20) == a * 0x10_0000 && Shl(b, 10) == b * 1024
    ensures BitOr(BitOr(Shl(a, 20), Shl(b, 10)), c) == a * 0x10_0000 + b * 1024 + c
  {
    Pow2Values();
    assert Shl(a, 20) == (a * 1024) * Pow2(10);
    BitOrShift(a * 1024, b, 10);
    BitOrDisjoint(a, b, 10);
    BitOrDisjoint(a * 1024 + b, c, 10);
    assert (a * 1024 + b) * 1024 == a * 0x10_0000 + b * 1024;
  }

  /** The OR of two numbers below 2^k is below 2^k. */
  lemma {:induction false} BitOrBound(a: nat, b: nat, k: nat)
    requires a < Pow2(k) && b < Pow2(k)
    ensures BitOr(a, b) < Pow2(k)
    decreases k
  {
    if k > 0 && a != 0 && b != 0 {
      BitOrBound(a / 2, b / 2, k - 1);
    }
  }

  /** OR-ing anything below 2^k into k one-bits leaves the k one-bits. */
  lemma {:induction false} BitOrOnes(a: nat, k: nat)
    requires a < Pow2(k)
    ensures BitOr(a, Pow2(k) - 1) == Pow2(k) - 1
    decreases k
  {
    if k > 0 && a != 0 {
      assert (Pow2(k) - 1) / 2 == Pow2(k - 1) - 1 && (Pow2(k) - 1) % 2 == 1;
      BitOrOnes(a / 2, k - 1);
    }
  }

  lemma Pow2Width()
    ensures Pow2(32) == TWO_POW_32
  {
    Pow2Values();
    assert Pow2(32) == 4096 * Pow2(20) by {
      assert Pow2(32) == 2 * Pow2(31) == 4 * Pow2(30) == 8 * Pow2(29) == 16 * Pow2(28) == 32 * Pow2(27) == 64 * Pow2(26);
      assert Pow2(26) == 2 * Pow2(25) == 4 * Pow2(24) == 8 * Pow2(23) == 16 * Pow2(22) == 32 * Pow2(21) == 64 * Pow2(20);
    }
  }

  /** Packing base 1024 with two ten-bit digits below the top one is injective. */
  lemma Pack3Injective(a: int, b: int, c: int, a': int, b': int, c': int)
    requires 0 <= b < 1024 && 0 <= c < 1024 && 0 <= b' < 1024 && 0 <= c' < 1024
    ensures a * 0x10_0000 + b * 1024 + c == a' * 0x10_0000 + b' * 1024 + c' <==> a == a' && b == b' && c == c'
  {
    var p, p' := a * 1024 + b, a' * 1024 + b';
    assert a * 0x10_0000 + b * 1024 + c == p * 1024 + c;
    assert a' * 0x10_0000 + b' * 1024 + c' == p' * 1024 + c';
    if p * 1024 + c == p' * 1024 + c' {
      assert (p - p') * 1024 == c' - c;
      assert (a - a') * 1024 == b' - b;
    }
  }
}
