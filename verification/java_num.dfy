/** Java numeric conversions used by the panel: the 32-bit int range, the
    float-to-int narrowing cast and Math.round. Java floats are modelled as
    exact reals; IEEE-754 rounding, infinities and NaN are not modelled. */
module JavaNum {

  const INT_MIN: int := -0x8000_0000
  const INT_MAX: int := 0x7fff_ffff

  /** True if n fits in a Java int. */
  predicate IsInt(n: int) {
    INT_MIN <= n <= INT_MAX
  }

  /** Absolute value of a float (Math.abs). */
  function Abs(x: real): (r: real)
    ensures 0.0 <= r
    ensures r == x || r == -x
  {
    if x < 0.0 then -x else x
  }

  /** Rounds toward zero. */
  function Trunc(x: real): (r: int)
    ensures 0.0 <= x ==> 0 <= r && r as real <= x < r as real + 1.0
    ensures x < 0.0 ==> r <= 0 && r as real - 1.0 < x <= r as real
  {
    if x >= 0.0 then x.Floor else -((-x).Floor)
  }

  /** Java's `(int)` cast of a float: rounds toward zero and saturates at the
      ends of the int range. */
  function FloatToInt(x: real): (r: int)
    ensures IsInt(r)
    ensures INT_MAX as real <= x ==> r == INT_MAX
    ensures x <= INT_MIN as real ==> r == INT_MIN
    ensures INT_MIN as real < x < INT_MAX as real ==> r == Trunc(x)
  {
    if x >= INT_MAX as real then INT_MAX
    else if x <= INT_MIN as real then INT_MIN
    else Trunc(x)
  }

  /** Java's Math.round of a float: the nearest int, halves rounded up,
      saturating at the ends of the int range. */
  function Round(x: real): (r: int)
    ensures IsInt(r)
    ensures INT_MIN as real <= x + 0.5 < INT_MAX as real ==> r as real <= x + 0.5 < r as real + 1.0
  {
    if x + 0.5 >= INT_MAX as real then INT_MAX
    else if x + 0.5 <= INT_MIN as real then INT_MIN
    else (x + 0.5).Floor
  }

  /** Casting a whole number that fits in an int gives it back. */
  lemma FloatToIntOfInt(n: int)
    requires IsInt(n)
    ensures FloatToInt(n as real) == n
  {
  }

  /** Rounding a whole number that fits in an int gives it back. */
  lemma RoundOfInt(n: int)
    requires IsInt(n)
    ensures Round(n as real) == n
  {
  }

  /** The cast is monotone: it never reverses the order of two floats. */
  lemma {:induction false} FloatToIntMonotone(x: real, y: real)
    requires x <= y
    ensures FloatToInt(x) <= FloatToInt(y)
  {
    if 0.0 <= x {
      assert x.Floor <= y.Floor;
    } else if y < 0.0 {
      assert (-y).Floor <= (-x).Floor;
    }
  }

  /** A float between two ints casts to an int between them. */
  lemma {:induction false} FloatToIntBetween(lo: int, hi: int, x: real)
    requires IsInt(lo) && IsInt(hi)
    requires lo as real <= x <= hi as real
    ensures lo <= FloatToInt(x) <= hi
  {
    FloatToIntMonotone(lo as real, x);
    FloatToIntMonotone(x, hi as real);
    FloatToIntOfInt(lo);
    FloatToIntOfInt(hi);
  }
}
