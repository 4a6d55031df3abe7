/**
  The handful of Unity `Mathf` helpers the character scripts use, with the
  engine's documented behaviour. Single-precision floats are modelled as
  exact reals.
*/
module UnityMath {

  /** `Mathf.Clamp(int, int, int)`: the lower bound is tested first, so when
      `min > max` a value below `min` yields `min` and any other value `max`. */
  function Clamp(value: int, min: int, max: int): (r: int)
    ensures min <= max ==> min <= r <= max
    ensures min <= value <= max ==> r == value
    ensures value < min ==> r == min
    ensures min <= max < value ==> r == max
  {
    if value < min then min else if value > max then max else value
  }

  /** Clamp is monotone in the clamped value whenever its bounds are ordered. */
  lemma ClampMonotone(v1: int, v2: int, min: int, max: int)
    requires v1 <= v2 && min <= max
    ensures Clamp(v1, min, max) <= Clamp(v2, min, max)
  {
  }

  /** `Mathf.Clamp01`. */
  function Clamp01(t: real): (r: real)
    ensures 0.0 <= r <= 1.0
    ensures 0.0 <= t <= 1.0 ==> r == t
  {
    if t < 0.0 then 0.0 else if t > 1.0 then 1.0 else t
  }

  /** `Mathf.Abs`. */
  function Abs(x: real): (r: real)
    ensures 0.0 <= r && (r == x || r == -x)
  {
    if x < 0.0 then -x else x
  }

  /** `Mathf.Lerp`: interpolation with the parameter clamped to [0, 1]. */
  function Lerp(a: real, b: real, t: real): (r: real)
    ensures t <= 0.0 ==> r == a
    ensures 1.0 <= t ==> r == b
  {
    a + (b - a) * Clamp01(t)
  }

  /** With ordered ends the interpolated value stays between them, whatever
      the parameter, because the parameter is clamped. */
  lemma LerpWithin(a: real, b: real, t: real)
    requires a <= b
    ensures a <= Lerp(a, b, t) <= b
  {
    var c := Clamp01(t);
    var k := b - a;
    ScaleWithin(k, c);
    var m := k * c;
    assert 0.0 <= m <= k;
    assert Lerp(a, b, t) == a + m;
  }

  /** A non-negative length scaled by a fraction in [0, 1] stays within it. */
  lemma ScaleWithin(k: real, c: real)
    requires 0.0 <= c <= 1.0
    ensures 0.0 <= k ==> 0.0 <= k * c <= k
  {
    if 0.0 <= k {
      MulNonNegative(k, c);
      MulNonNegative(k, 1.0 - c);
    }
  }

  lemma MulNonNegative(x: real, y: real)
    requires 0.0 <= x && 0.0 <= y
    ensures 0.0 <= x * y
  {
  }

  /** `Mathf.InverseLerp`: where `v` lies between `a` and `b`, clamped to [0, 1];
      0 when the two ends coincide. */
  function InverseLerp(a: real, b: real, v: real): (r: real)
    ensures 0.0 <= r <= 1.0
    ensures a < b && v <= a ==> r == 0.0
    ensures a < b && b <= v ==> r == 1.0
    ensures a == b ==> r == 0.0
  {
    if a != b then
      RatioBounds(v - a, b - a);
      Clamp01((v - a) / (b - a))
    else 0.0
  }

  /** Where a quotient by a positive length stands against 0 and 1. */
  lemma RatioBounds(x: real, d: real)
    requires d != 0.0
    ensures 0.0 < d && x <= 0.0 ==> x / d <= 0.0
    ensures 0.0 < d && d <= x ==> 1.0 <= x / d
  {
    if 0.0 < d {
      DivideMonotone(x, 0.0, d);
      DivideMonotone(d, x, d);
      assert d / d == 1.0;
    }
  }

  /** InverseLerp is monotone in its value between ordered ends. */
  lemma InverseLerpMonotone(a: real, b: real, v1: real, v2: real)
    requires a < b && v1 <= v2
    ensures InverseLerp(a, b, v1) <= InverseLerp(a, b, v2)
  {
    DivideMonotone(v1 - a, v2 - a, b - a);
  }

  lemma DivideMonotone(x: real, y: real, d: real)
    requires 0.0 < d
    ensures x <= y ==> x / d <= y / d
  {
    if x <= y {
      var q := (y - x) / d;
      assert q * d == y - x;
      assert 0.0 <= q;
      assert y / d - x / d == q;
    }
  }

  /** Lerp is monotone in its parameter between ordered ends. */
  lemma LerpMonotone(a: real, b: real, t1: real, t2: real)
    requires a <= b && t1 <= t2
    ensures Lerp(a, b, t1) <= Lerp(a, b, t2)
  {
    var c1, c2 := Clamp01(t1), Clamp01(t2);
    MulNonNegative(b - a, c2 - c1);
    assert (b - a) * c2 - (b - a) * c1 == (b - a) * (c2 - c1);
  }

  /** `Mathf.RoundToInt`, that is `(int)Math.Round(f)`: rounds to the nearest
      integer, and a value exactly halfway between two integers goes to the
      even one. */
  function RoundToInt(x: real): (r: int)
    ensures -0.5 <= r as real - x <= 0.5
    ensures x == x.Floor as real ==> r == x.Floor
  {
    var f := x.Floor;
    var frac := x - f as real;
    if frac < 0.5 then f
    else if frac > 0.5 then f + 1
    else if f % 2 == 0 then f
    else f + 1
  }

  /** Rounding never reverses the order of its arguments. */
  lemma RoundToIntMonotone(x: real, y: real)
    requires x <= y
    ensures RoundToInt(x) <= RoundToInt(y)
  {
    var fx, fy := x.Floor, y.Floor;
    if fx < fy {
      // RoundToInt(x) <= fx + 1 <= fy <= RoundToInt(y)
      assert RoundToInt(x) <= fx + 1;
      assert fy <= RoundToInt(y);
    } else {
      assert fx == fy;
      assert x - fx as real <= y - fy as real;
    }
  }

  /** Rounding an integer-valued real gives that integer back. */
  lemma RoundToIntOfInt(n: int)
    ensures RoundToInt(n as real) == n
  {
    assert (n as real).Floor == n;
  }
}
