/**
 * The arithmetic helpers of JavaScript's `Math` that the program uses, over
 * reals: `Math.abs`, `Math.min`, `Math.max` and the clamp written as
 * `Math.max(lo, Math.min(hi, x))`.
 */
module Numbers {

  function Abs(x: real): (r: real)
    ensures 0.0 <= r && (r == x || r == -x)
  {
    if x < 0.0 then -x else x
  }

  function Min(a: real, b: real): (r: real)
    ensures r <= a && r <= b && (r == a || r == b)
  {
    if a <= b then a else b
  }

  function Max(a: real, b: real): (r: real)
    ensures a <= r && b <= r && (r == a || r == b)
  {
    if a >= b then a else b
  }

  /** `Math.max(lo, Math.min(hi, x))`: within the bounds, and `x` itself when it already is. */
  function Clamp(lo: real, hi: real, x: real): (r: real)
    requires lo <= hi
    ensures lo <= r <= hi
    ensures lo <= x <= hi ==> r == x
    ensures x < lo ==> r == lo
    ensures hi < x ==> r == hi
  {
    Max(lo, Min(hi, x))
  }

  /** `Math.floor(random * n)` for a roll in [0, 1): an index below `n`. */
  function PickIndex(roll: real, n: nat): (i: nat)
    requires 0.0 <= roll < 1.0 && n > 0
    ensures i < n
    ensures i as real <= roll * n as real < i as real + 1.0
  {
    var x := roll * n as real;
    ScaledRollBelow(roll, n as real);
    var f := x.Floor;
    assert f as real <= x < f as real + 1.0;
    assert 0.0 <= x < n as real;
    f
  }

  /** A roll in [0, 1) scales a positive bound to a value in [0, bound). */
  lemma ScaledRollBelow(roll: real, bound: real)
    requires 0.0 <= roll < 1.0 && bound > 0.0
    ensures 0.0 <= roll * bound < bound
  {
    assert bound - roll * bound == (1.0 - roll) * bound;
  }

  /** `den > 0 ? num / den : 0`: the ratio, or zero when there is nothing to divide by. */
  function Ratio(num: real, den: real): (r: real)
    ensures den > 0.0 ==> r * den == num
    ensures den <= 0.0 ==> r == 0.0
    ensures 0.0 <= num <= den ==> 0.0 <= r <= 1.0
  {
    if den > 0.0 then num / den else 0.0
  }
}
