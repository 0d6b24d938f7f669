/** The engine value types and library numerics the terrain code relies on.
    Floats are modelled as exact reals; library routines whose semantics are
    documented and elementary (Clamp01, InverseLerp, Color.Lerp, the cross
    product, C# integer division) are defined here, the others (Perlin noise,
    animation curves, rounding, normalisation, bounds distance) are passed to
    the operations that use them as function parameters. */
module UnityMath {

  datatype Option<T> = None | Some(value: T)

  datatype Vector2 = Vector2(x: real, y: real)

  datatype Vector3 = Vector3(x: real, y: real, z: real)

  /** The value a freshly allocated Vector3[] holds in every slot. */
  const Zero3: Vector3 := Vector3(0.0, 0.0, 0.0)

  /** The value a freshly allocated Vector2[] holds in every slot. */
  const Zero2: Vector2 := Vector2(0.0, 0.0)

  function Add3(a: Vector3, b: Vector3): Vector3 {
    Vector3(a.x + b.x, a.y + b.y, a.z + b.z)
  }

  function Sub3(a: Vector3, b: Vector3): Vector3 {
    Vector3(a.x - b.x, a.y - b.y, a.z - b.z)
  }

  /** Vector3.Cross: the result is orthogonal to both arguments. */
  function Cross(a: Vector3, b: Vector3): (r: Vector3)
    ensures r.x * a.x + r.y * a.y + r.z * a.z == 0.0
    ensures r.x * b.x + r.y * b.y + r.z * b.z == 0.0
  {
    Vector3(a.y * b.z - a.z * b.y, a.z * b.x - a.x * b.z, a.x * b.y - a.y * b.x)
  }

  /** RGBA colour with real channels. */
  datatype Color = Color(r: real, g: real, b: real, a: real)

  /** default(Color): the value a freshly allocated Color[] holds in every slot. */
  const DefaultColor: Color := Color(0.0, 0.0, 0.0, 0.0)
  const Black: Color := Color(0.0, 0.0, 0.0, 1.0)
  const White: Color := Color(1.0, 1.0, 1.0, 1.0)

  /** Mathf.Clamp01. */
  function Clamp01(t: real): (r: real)
    ensures 0.0 <= r <= 1.0
    ensures 0.0 <= t <= 1.0 ==> r == t
    ensures t < 0.0 ==> r == 0.0
    ensures t > 1.0 ==> r == 1.0
  {
    if t < 0.0 then 0.0 else if t > 1.0 then 1.0 else t
  }

  /** Mathf.InverseLerp: where `v` lies between `a` and `b` as a fraction,
      clamped to [0, 1]; 0 when the interval is degenerate. */
  function InverseLerp(a: real, b: real, v: real): (r: real)
    ensures 0.0 <= r <= 1.0
    ensures a == b ==> r == 0.0
    ensures a < b && v <= a ==> r == 0.0
    ensures a < b && b <= v ==> r == 1.0
    ensures a < b && a <= v <= b ==> r * (b - a) == v - a
  {
    if a != b then
      if a < b then
        QuotientFacts(v - a, b - a);
        Clamp01((v - a) / (b - a))
      else
        Clamp01((v - a) / (b - a))
    else 0.0
  }

  lemma QuotientFacts(n: real, d: real)
    requires d > 0.0
    ensures n <= 0.0 ==> n / d <= 0.0
    ensures n >= d ==> n / d >= 1.0
    ensures 0.0 <= n <= d ==> 0.0 <= n / d <= 1.0 && (n / d) * d == n
  {
    if n <= 0.0 { DivNonPos(n, d); }
    if n >= d { DivAtLeastOne(n, d); }
    if 0.0 <= n <= d { DivUnit(n, d); }
  }

  lemma DivNonPos(n: real, d: real)
    requires n <= 0.0 && d > 0.0
    ensures n / d <= 0.0
  {}

  lemma DivAtLeastOne(n: real, d: real)
    requires n >= d && d > 0.0
    ensures n / d >= 1.0
  {}

  lemma DivUnit(n: real, d: real)
    requires 0.0 <= n <= d && d > 0.0
    ensures 0.0 <= n / d <= 1.0 && (n / d) * d == n
  {}

  /** InverseLerp over an increasing interval is monotone in its value. */
  lemma InverseLerpMonotone(a: real, b: real, v: real, w: real)
    requires a < b && v <= w
    ensures InverseLerp(a, b, v) <= InverseLerp(a, b, w)
  {
    assert (v - a) / (b - a) <= (w - a) / (b - a);
  }

  /** InverseLerp over an increasing interval is strictly monotone inside it. */
  lemma InverseLerpStrict(a: real, b: real, v: real, w: real)
    requires a < b && a <= v < w <= b
    ensures InverseLerp(a, b, v) < InverseLerp(a, b, w)
  {
    assert (v - a) / (b - a) < (w - a) / (b - a);
  }

  /** Color.Lerp: component-wise interpolation with the parameter clamped to [0, 1]. */
  function ColorLerp(a: Color, b: Color, t: real): (c: Color)
    ensures t <= 0.0 ==> c == a
    ensures t >= 1.0 ==> c == b
  {
    var s := Clamp01(t);
    Color(a.r + (b.r - a.r) * s, a.g + (b.g - a.g) * s, a.b + (b.b - a.b) * s, a.a + (b.a - a.a) * s)
  }

  /** The black-to-white ramp used for greyscale maps: an opaque grey whose
      level is the clamped value. */
  function Greyscale(t: real): (c: Color)
    ensures c.r == c.g == c.b == Clamp01(t) && c.a == 1.0
    ensures 0.0 <= c.r <= 1.0
  {
    ColorLerp(Black, White, t)
  }

  /** float.MaxValue; float.MinValue is its negation. */
  const FloatMaxValue: real := 340282346638528859811704183484516925440.0

  function Abs(a: int): nat {
    if a >= 0 then a else -a
  }

  /** C# division of `int`s: the quotient is truncated toward zero, so its
      magnitude is the quotient of the magnitudes and its sign is the product
      of the operands' signs. */
  function TruncDiv(a: int, b: int): (q: int)
    requires b != 0
    ensures Abs(q) == Abs(a) / Abs(b)
    ensures (a >= 0) == (b > 0) ==> q >= 0
    ensures (a >= 0) != (b > 0) ==> q <= 0
  {
    if a >= 0 then
      (if b > 0 then a / b else -(a / -b))
    else
      (if b > 0 then -((-a) / b) else (-a) / (-b))
  }

  /** The remainder left by a truncating division takes the sign of the
      dividend and is smaller in magnitude than the divisor. */
  lemma TruncDivRemainder(a: int, b: int)
    requires b != 0
    ensures a >= 0 ==> 0 <= a - TruncDiv(a, b) * b < Abs(b)
    ensures a < 0 ==> -(Abs(b) as int) < a - TruncDiv(a, b) * b <= 0
  {
    var q := TruncDiv(a, b);
    var n, d := Abs(a), Abs(b);
    var m := n / d;
    EuclideanRemainder(n, d);
    if (a >= 0) == (b > 0) {
      assert q == m;
      assert q * b == m * b;
    } else {
      assert q == -m;
      assert q * b == -(m * b);
    }
    if b > 0 {
      assert m * d == m * b;
    } else {
      assert m * d == -(m * b);
    }
  }

  lemma EuclideanRemainder(n: int, d: int)
    requires n >= 0 && d > 0
    ensures 0 <= n - (n / d) * d < d
  {}
}
