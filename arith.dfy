/** Integer helpers shared by both games: the saturating `clamp` each game defines,
    and `int(x * f)` for a fixed fraction f = num/den, which Python truncates toward
    zero (unlike Dafny's `/`, which rounds toward negative infinity for a negative
    dividend and a positive divisor). */
module Arith {

  function Min(a: int, b: int): (r: int)
    ensures r <= a && r <= b && (r == a || r == b)
  {
    if a <= b then a else b
  }

  function Max(a: int, b: int): (r: int)
    ensures r >= a && r >= b && (r == a || r == b)
  {
    if a >= b then a else b
  }

  /** `clamp(value, lo, hi)` = `max(lo, min(hi, value))`: saturates, never wraps. */
  function Clamp(value: int, lo: int, hi: int): (r: int)
    ensures lo <= hi ==> lo <= r <= hi
    ensures lo <= value <= hi ==> r == value
    ensures value < lo ==> r == lo
    ensures lo <= hi && hi < value ==> r == hi
  {
    Max(lo, Min(hi, value))
  }

  /** A larger input never clamps to a smaller output. */
  lemma ClampMonotone(a: int, b: int, lo: int, hi: int)
    requires a <= b
    ensures Clamp(a, lo, hi) <= Clamp(b, lo, hi)
  {
  }

  /** `int(x * num / den)`: the exact product truncated toward zero, as Python's
      `int()` does with a float (floating-point rounding of the product is not modelled). */
  function Scale(x: int, num: nat, den: nat): (r: int)
    requires den > 0
    ensures 0 <= x ==> 0 <= r && r * den <= x * num < (r + 1) * den
    ensures x <= 0 ==> r <= 0 && (r - 1) * den < x * num <= r * den
  {
    if x >= 0 then
      DivBounds(x * num, den);
      (x * num) / den
    else
      DivBounds(-x * num, den);
      -((-x * num) / den)
  }

  /** Euclidean division of a non-negative dividend brackets the dividend. */
  lemma DivBounds(a: int, d: int)
    requires 0 <= a && 0 < d
    ensures 0 <= a / d && (a / d) * d <= a < (a / d + 1) * d
  {
  }

  /** Scaling a non-negative quantity by a fraction at most one never increases it. */
  lemma {:induction false} ScaleShrinks(x: int, num: nat, den: nat)
    requires 0 < den && num <= den
    ensures 0 <= x ==> 0 <= Scale(x, num, den) <= x
  {
    if 0 <= x {
      var r := Scale(x, num, den);
      assert x * num <= x * den by { MulLeftMono(x, num, den); }
      if r > x {
        assert (x + 1) * den <= r * den by { MulRightMono(x + 1, r, den); }
        assert false;
      }
    }
  }

  /** Scaling a non-negative quantity by a fraction at least one never decreases it. */
  lemma {:induction false} ScaleGrows(x: int, num: nat, den: nat)
    requires 0 <= x && 0 < den && den <= num
    ensures x <= Scale(x, num, den)
  {
    assert x * den <= x * num by { MulLeftMono(x, den, num); }
  }

  lemma MulLeftMono(x: int, a: int, b: int)
    requires 0 <= x && a <= b
    ensures x * a <= x * b
  {
    assert x * b - x * a == x * (b - a);
  }

  lemma MulRightMono(a: int, b: int, d: int)
    requires a <= b && 0 <= d
    ensures a * d <= b * d
  {
    assert b * d - a * d == (b - a) * d;
  }
}
