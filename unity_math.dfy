/**
 * The parts of Unity's `Vector2` and `Mathf` that the blend engine uses, over exact reals.
 * IEEE-754 rounding is not modelled: a `float` is a `real`.
 */
module UnityMath {

  /** Unity's `Vector2`. */
  datatype Vector2 = Vector2(x: real, y: real)

  /** `Vector2.zero` */
  const Zero: Vector2 := Vector2(0.0, 0.0)

  /** `Vector2.one` */
  const One: Vector2 := Vector2(1.0, 1.0)

  /** The `+` operator on `Vector2`, component by component. */
  function Add(a: Vector2, b: Vector2): (r: Vector2)
    ensures r.x - a.x == b.x && r.y - a.y == b.y
  {
    Vector2(a.x + b.x, a.y + b.y)
  }

  /** `Mathf.Clamp01`. */
  function Clamp01(t: real): (r: real)
    ensures 0.0 <= r <= 1.0
    ensures 0.0 <= t <= 1.0 ==> r == t
    ensures t < 0.0 ==> r == 0.0
    ensures t > 1.0 ==> r == 1.0
  {
    if t < 0.0 then 0.0 else if t > 1.0 then 1.0 else t
  }

  /** `Mathf.Lerp(a, b, t)`, documented by Unity as `a + (b - a) * Clamp01(t)`. */
  function Lerp(a: real, b: real, t: real): (r: real)
    ensures t <= 0.0 ==> r == a
    ensures t >= 1.0 ==> r == b
  {
    a + (b - a) * Clamp01(t)
  }

  /** The interpolated value lies between the two end points, and `Lerp(0, 1, t)` is the identity on [0, 1]. */
  lemma LerpBetween(a: real, b: real, t: real)
    ensures a <= b ==> a <= Lerp(a, b, t) <= b
    ensures b <= a ==> b <= Lerp(a, b, t) <= a
    ensures 0.0 <= t <= 1.0 ==> Lerp(0.0, 1.0, t) == t
  {
    var s, d := Clamp01(t), b - a;
    assert d * s + d * (1.0 - s) == d;
    if d >= 0.0 {
      MulNonNegative(d, s);
      MulNonNegative(d, 1.0 - s);
    } else {
      MulNonNegative(-d, s);
      MulNonNegative(-d, 1.0 - s);
    }
  }

  lemma MulNonNegative(x: real, y: real)
    requires x >= 0.0 && y >= 0.0
    ensures x * y >= 0.0
  {
  }

  /** `Mathf.FloorToInt`: the largest integer not above `v`. */
  function FloorToInt(v: real): (k: int)
    ensures k as real <= v < k as real + 1.0
  {
    v.Floor
  }

  /** `Mathf.CeilToInt`: the smallest integer not below `v`. */
  function CeilToInt(v: real): (k: int)
    ensures k as real - 1.0 < v <= k as real
  {
    -((-v).Floor)
  }
}
