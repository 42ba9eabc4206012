/**
 * The engine-side value types the atmosphere code uses (vectors, colours,
 * rectangles, rotations) and the few `Mathf` helpers it calls, over `real`.
 * Unity's `Mathf.Lerp` and `Mathf.Clamp01` clamp the interpolation parameter
 * to [0, 1]; the functions below do the same.
 */
module Engine {

  datatype Option<+T> = None | Some(value: T)

  datatype Vector2 = Vector2(x: real, y: real)
  datatype Vector3 = Vector3(x: real, y: real, z: real)
  /** A rotation is only ever copied from a transform into a draw; its components are opaque here. */
  datatype Quaternion = Quaternion(x: real, y: real, z: real, w: real)
  datatype Color = Color(r: real, g: real, b: real, a: real)
  /** A GUI rectangle given by its top-left corner and its size, as Unity's `Rect`. */
  datatype Rect = Rect(x: real, y: real, width: real, height: real) {
    function XMin(): real { x }
    function XMax(): real { x + width }
    function YMin(): real { y }
    function YMax(): real { y + height }
  }

  const Down: Vector3 := Vector3(0.0, -1.0, 0.0)

  function Neg(v: Vector3): Vector3 { Vector3(-v.x, -v.y, -v.z) }

  function Sub(u: Vector3, v: Vector3): Vector3 { Vector3(u.x - v.x, u.y - v.y, u.z - v.z) }

  function SqrMagnitude(v: Vector3): (r: real)
    ensures r >= 0.0
  {
    v.x * v.x + v.y * v.y + v.z * v.z
  }

  /** `Color * float`: Unity scales all four channels, alpha included. */
  function ScaleColor(c: Color, f: real): Color { Color(c.r * f, c.g * f, c.b * f, c.a * f) }

  function Abs(x: real): (r: real)
    ensures r >= 0.0 && (r == x || r == -x)
  {
    if x < 0.0 then -x else x
  }

  function Max(a: real, b: real): (r: real)
    ensures r >= a && r >= b && (r == a || r == b)
  {
    if a >= b then a else b
  }

  /** `Mathf.Clamp(value, min, max)` for `min <= max`. */
  function Clamp(value: real, lo: real, hi: real): (r: real)
    requires lo <= hi
    ensures lo <= r <= hi
    ensures lo <= value <= hi ==> r == value
    ensures value < lo ==> r == lo
    ensures value > hi ==> r == hi
  {
    if value < lo then lo else if value > hi then hi else value
  }

  function Clamp01(value: real): (r: real)
    ensures 0.0 <= r <= 1.0
    ensures 0.0 <= value <= 1.0 ==> r == value
    ensures value < 0.0 ==> r == 0.0
    ensures value > 1.0 ==> r == 1.0
  {
    Clamp(value, 0.0, 1.0)
  }

  /** `Mathf.Lerp(a, b, t)`: interpolation with `t` clamped to [0, 1]. */
  function Lerp(a: real, b: real, t: real): (r: real)
    ensures t <= 0.0 ==> r == a
    ensures t >= 1.0 ==> r == b
    ensures a <= b ==> a <= r <= b
    ensures b <= a ==> b <= r <= a
  {
    var s := Clamp01(t);
    MulNonNegative(b - a, s);
    MulNonNegative(b - a, 1.0 - s);
    MulNonNegative(a - b, s);
    MulNonNegative(a - b, 1.0 - s);
    a + (b - a) * s
  }

  /**
   * Stand-in for `Mathf.Exp`. The curve bounds are stated through the
   * properties in its contract, which the real exponential shares: it is
   * positive, equals 1 at 0, is at most 1 for non-positive arguments and is
   * non-decreasing. The solver may still unfold the body in a proof.
   */
  function Exp(x: real): (r: real)
    ensures r > 0.0
    ensures x == 0.0 ==> r == 1.0
    ensures x <= 0.0 ==> r <= 1.0
  {
    if x >= 0.0 then 1.0 + x else 1.0 / (1.0 - x)
  }

  lemma ExpMonotone(x: real, y: real)
    requires x <= y
    ensures Exp(x) <= Exp(y)
  {
    if x < 0.0 && y < 0.0 {
      assert 1.0 - x >= 1.0 - y > 0.0;
      assert 1.0 / (1.0 - x) <= 1.0 / (1.0 - y) by {
        DivAntitone(1.0 - y, 1.0 - x);
      }
    }
  }

  lemma DivAntitone(p: real, q: real)
    requires 0.0 < p <= q
    ensures 1.0 / q <= 1.0 / p
  {
    MulNonNegative(1.0 / p, q - p);
    assert (1.0 / p) * q >= 1.0;
    MulNonNegative(1.0 / q, (1.0 / p) * q - 1.0);
  }

  lemma MulNonNegative(x: real, y: real)
    ensures x >= 0.0 && y >= 0.0 ==> x * y >= 0.0
  {
  }
}
