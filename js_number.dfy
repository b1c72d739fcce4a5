/**
 * The few JavaScript number operations the dashboard relies on, stated over
 * Dafny's exact reals: `Math.round`, `Number.prototype.toFixed` read back with
 * `parseFloat`, `Math.pow` on naturals, and the non-finite results of a
 * division by zero (Infinity, -Infinity, NaN) with the comparisons and
 * `Math.min` the dashboard applies to them.
 */
module JsNumber {

  /** `Math.round(x)`: the nearest integer, a half rounded towards +infinity. */
  function Round(x: real): (n: int)
    ensures n as real - 0.5 <= x < n as real + 0.5
  {
    (x + 0.5).Floor
  }

  lemma RoundOfInteger(k: int)
    ensures Round(k as real) == k
  {
  }

  function Pow(base: nat, e: nat): (r: nat)
    ensures base >= 1 ==> r >= 1
  {
    if e == 0 then 1 else base * Pow(base, e - 1)
  }

  /**
   * `parseFloat(x.toFixed(digits))`: the multiple of 10^-digits nearest to x,
   * a tie going to the larger magnitude; a negative value is formatted as the
   * negation of its magnitude.
   */
  function ToFixed(x: real, digits: nat): real
  {
    Fixed(x, Pow(10, digits) as real)
  }

  /** Rounding to the nearest multiple of `1 / scale`, symmetric about zero. */
  function Fixed(x: real, scale: real): real
    requires scale >= 1.0
  {
    if x < 0.0 then -(Round(-x * scale) as real / scale)
    else Round(x * scale) as real / scale
  }

  /** A value that already has at most six decimals is left unchanged by `toFixed(6)`. */
  lemma ToFixedSixOfMicros(k: nat)
    ensures ToFixed(k as real / 1000000.0, 6) == k as real / 1000000.0
  {
    assert Pow(10, 6) == 1000000 by {
      assert Pow(10, 3) == 1000;
    }
    var x := k as real / 1000000.0;
    assert x * 1000000.0 == k as real;
    RoundOfInteger(k);
  }

  /** `toFixed` moves a non-negative value by at most half a unit in the last kept decimal. */
  lemma ToFixedNear(x: real, digits: nat)
    requires x >= 0.0
    ensures var scale := Pow(10, digits) as real;
      x - 0.5 / scale <= ToFixed(x, digits) <= x + 0.5 / scale
  {
    FixedNear(x, Pow(10, digits) as real);
  }

  lemma FixedNear(x: real, scale: real)
    requires x >= 0.0 && scale >= 1.0
    ensures x - 0.5 / scale <= Fixed(x, scale) <= x + 0.5 / scale
  {
    var r := Round(x * scale) as real;
    var q := r / scale;
    assert q * scale == r;
    assert (q - x) * scale == r - x * scale;
    assert -0.5 <= (q - x) * scale <= 0.5;
    assert (0.5 / scale) * scale == 0.5;
  }

  /** A JavaScript number after a division: finite, or one of the three non-finite values. */
  datatype Num = Finite(value: real) | PosInfinity | NegInfinity | NaN

  /** `x / y` in IEEE-754 arithmetic, over exact reals when `y` is not zero. */
  function Divide(x: real, y: real): Num
  {
    if y != 0.0 then Finite(x / y)
    else if x > 0.0 then PosInfinity
    else if x < 0.0 then NegInfinity
    else NaN
  }

  /** `n * k` for a positive constant `k`. */
  function Scale(n: Num, k: real): Num
    requires k > 0.0
  {
    match n
    case Finite(v) => Finite(v * k)
    case _ => n
  }

  /** `n > c`: false whenever `n` is NaN. */
  predicate Exceeds(n: Num, c: real)
  {
    match n
    case Finite(v) => v > c
    case PosInfinity => true
    case _ => false
  }

  /** `Math.min(n, c)`: NaN when `n` is NaN. */
  function MinWith(n: Num, c: real): Num
  {
    match n
    case Finite(v) => Finite(if v < c then v else c)
    case PosInfinity => Finite(c)
    case _ => n
  }
}
