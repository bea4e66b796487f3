/**
 * The two C/C++ numeric conversions the synthesizer relies on, stated over
 * the reals: the conversion of a floating value to an integer type, and
 * `fmod(x, 1.0)`.
 */
module CMath {

  /**
   * Conversion of a floating value to an integer type in C++: the fraction is
   * discarded, so the result is rounded toward zero (not down, as Dafny's
   * `Floor` is).
   */
  function Trunc(x: real): (r: int)
    ensures 0.0 <= x ==> 0 <= r && r as real <= x < r as real + 1.0
    ensures x < 0.0 ==> r <= 0 && r as real - 1.0 < x <= r as real
  {
    if x >= 0.0 then x.Floor else -((-x).Floor)
  }

  /**
   * `fmod(x, 1.0)`: what is left of `x` after removing a whole number, with
   * the sign of `x`. For a non-negative `x` this is its fractional part.
   */
  function FModOne(x: real): (r: real)
    ensures 0.0 <= x ==> 0.0 <= r < 1.0
    ensures x < 0.0 ==> -1.0 < r <= 0.0
    ensures (x - r).Floor as real == x - r
  {
    x - Trunc(x) as real
  }

  /** Truncation toward zero keeps a value within a whole bound it respects. */
  lemma TruncWithin(x: real, k: nat)
    requires -(k as real) <= x <= k as real
    ensures -(k as int) <= Trunc(x) <= k
  {
    var r := Trunc(x);
    if 0.0 <= x {
      assert r as real <= k as real;
    } else {
      assert -(k as real) < r as real + 1.0;
    }
  }

  /** Truncation toward zero ignores a whole number added to a non-negative value. */
  lemma TruncShift(x: real, n: nat)
    requires 0.0 <= x
    ensures Trunc(x + n as real) == Trunc(x) + n
  {
  }
}
