/** Integer semantics of the JavaScript operators the trading code relies on.

    Dafny's `/` and `%` are Euclidean; JavaScript's `bigint` division and the
    remainder operator on numbers truncate toward zero, and the bitwise
    operators first wrap their operands to signed 32-bit integers. Each of
    these is spelled out here once and used everywhere else.
 */
module JsArith {

  const TwoPow31: int := 0x8000_0000
  const TwoPow32: int := 0x1_0000_0000

  /** `n / d` on `bigint`: the quotient truncated toward zero. */
  function TruncDiv(n: int, d: int): (q: int)
    requires d > 0
    ensures Abs(q) == Abs(n) / d
    ensures 0 <= n ==> 0 <= q
    ensures n <= 0 ==> q <= 0
  {
    if n >= 0 then
      DivOfNonNegative(n, d);
      n / d
    else
      DivOfNonNegative(-n, d);
      -((-n) / d)
  }

  /** Euclidean division of a non-negative number by a positive one is
      non-negative. */
  lemma DivOfNonNegative(n: int, d: int)
    requires n >= 0 && d > 0
    ensures n / d >= 0
  {
    var q, r := n / d, n % d;
    assert n == d * q + r && 0 <= r < d;
  }

  /** `n % d` in JavaScript: the remainder takes the sign of the dividend. */
  function TruncMod(n: int, d: int): (r: int)
    requires d > 0
    ensures 0 <= n ==> 0 <= r < d
    ensures n < 0 ==> -d < r <= 0
    ensures n == TruncDiv(n, d) * d + r
  {
    var q := TruncDiv(n, d);
    if n >= 0 then
      assert n == d * (n / d) + n % d;
      n - q * d
    else
      assert -n == d * ((-n) / d) + (-n) % d;
      n - q * d
  }

  /** `Math.abs` on integers. */
  function Abs(x: int): (r: nat)
    ensures r == x || r == -x
  {
    if x < 0 then -x else x
  }

  /** ToInt32 of ECMAScript (what `x | 0` computes for an integral number):
      the unique signed 32-bit value congruent to `x` modulo 2^32. */
  function ToInt32(x: int): (r: int)
    ensures -TwoPow31 <= r < TwoPow31
    ensures (x - r) % TwoPow32 == 0
  {
    (x + TwoPow31) % TwoPow32 - TwoPow31
  }

  function Pow2(n: nat): nat {
    if n == 0 then 1 else 2 * Pow2(n - 1)
  }

  /** `a << n` for a shift count below 32: the left operand is wrapped to
      int32, shifted, and the result wrapped again. */
  function ShiftLeft(a: int, n: nat): int
    requires n < 32
  {
    ToInt32(ToInt32(a) * Pow2(n))
  }

  /** Truncation and floor agree on non-negative numerators. */
  lemma TruncDivOfNonNegative(n: int, d: int)
    requires 0 <= n && d > 0
    ensures TruncDiv(n, d) == n / d
  {
  }

  /** Truncation is odd: unlike Euclidean division it is symmetric in the
      numerator's sign, so `-1n / 2n` is `0n` and not `-1`. */
  lemma TruncDivOdd(n: int, d: int)
    requires d > 0
    ensures TruncDiv(-n, d) == -TruncDiv(n, d)
  {
  }

  /** A multiple of 2^32 written as an explicit product. */
  lemma MultipleOfTwoPow32(x: int)
    requires x % TwoPow32 == 0
    ensures x == TwoPow32 * (x / TwoPow32)
  {
  }

  /** An explicit multiple of 2^32 is congruent to zero. */
  lemma ProductIsMultipleOfTwoPow32(k: int)
    ensures (TwoPow32 * k) % TwoPow32 == 0
  {
  }

  /** Values congruent modulo 2^32 wrap to the same int32. */
  lemma {:induction false} ToInt32Congruent(x: int, y: int)
    requires (x - y) % TwoPow32 == 0
    ensures ToInt32(x) == ToInt32(y)
  {
    var rx, ry := ToInt32(x), ToInt32(y);
    MultipleOfTwoPow32(x - y);
    MultipleOfTwoPow32(x - rx);
    MultipleOfTwoPow32(y - ry);
    var k := (x - y) / TwoPow32 - (x - rx) / TwoPow32 + (y - ry) / TwoPow32;
    assert rx - ry == TwoPow32 * k;
  }

  /** Wrapping leaves int32 values alone. */
  lemma ToInt32OfInt32(x: int)
    requires -TwoPow31 <= x < TwoPow31
    ensures ToInt32(x) == x
  {
  }

  /** `(a << n)` is congruent to `a * 2^n` modulo 2^32. */
  lemma {:induction false} ShiftLeftCongruent(a: int, n: nat)
    requires n < 32
    ensures (ShiftLeft(a, n) - a * Pow2(n)) % TwoPow32 == 0
  {
    var p := Pow2(n);
    var w := ToInt32(a);
    var s := ShiftLeft(a, n);
    assert s == ToInt32(w * p);
    MultipleOfTwoPow32(a - w);
    MultipleOfTwoPow32(w * p - s);
    var t := (a - w) / TwoPow32;
    var u := (w * p - s) / TwoPow32;
    assert a * p - w * p == (a - w) * p;
    assert (a - w) * p == TwoPow32 * (t * p);
    assert s - a * p == TwoPow32 * (-u - t * p);
    ProductIsMultipleOfTwoPow32(-u - t * p);
  }
}
