/** Scalar helpers of the plug-in: clamping, linear and cubic ("smooth")
    interpolation, their elementwise versions over sample arrays, and the
    two-dimensional vector used for cursor movement.

    The same `clamp`, `lerp` and `smooth_lerp` are written out three times in
    the repository (BrushSfx/utils.py, src/__init__.py, and `clamp` again in
    brush_sfx/sound.py); they are identical and modelled once here. */
module Utils {

  /** `clamp(x, lower, upper)`: the lower bound is compared first, then the
      upper one, so with `lower > upper` the result is one of the bounds. */
  function Clamp(x: real, lower: real, upper: real): (r: real)
    ensures lower <= upper ==> lower <= r <= upper
    ensures lower <= x <= upper ==> r == x
    ensures x < lower ==> r == lower
    ensures lower <= x && x > upper ==> r == upper
  {
    if x < lower then lower else if x > upper then upper else x
  }

  /** The cubic ease curve t*t*(3 - 2t) of `smooth_lerp` and of the
      crossfade ramp. */
  function SmoothCurve(t: real): real
  {
    t * t * (3.0 - 2.0 * t)
  }

  /** True when `r` lies between `a` and `b`, whichever is larger. */
  predicate Between(r: real, a: real, b: real)
  {
    (a <= r <= b) || (b <= r <= a)
  }

  /** `lerp(t, a, b)`: t is clamped to [0, 1] first. */
  function Lerp(t: real, a: real, b: real): (r: real)
    ensures t <= 0.0 ==> r == a
    ensures t >= 1.0 ==> r == b
    ensures Between(r, a, b)
  {
    var s := Clamp(t, 0.0, 1.0);
    FractionBetween(s, a, b);
    a + (b - a) * s
  }

  /** `smooth_lerp(t, a, b)`: t is clamped, then eased by the cubic curve. */
  function SmoothLerp(t: real, a: real, b: real): (r: real)
    ensures t <= 0.0 ==> r == a
    ensures t >= 1.0 ==> r == b
    ensures Between(r, a, b)
  {
    var s := Clamp(t, 0.0, 1.0);
    SmoothCurveRange(s);
    var e := SmoothCurve(s);
    FractionBetween(e, a, b);
    a + (b - a) * e
  }

  /** Moving a fraction s in [0, 1] of the way from a to b stays between them. */
  lemma FractionBetween(s: real, a: real, b: real)
    requires 0.0 <= s <= 1.0
    ensures Between(a + (b - a) * s, a, b)
  {
    if a <= b {
      FractionUpward(s, a, b);
    } else {
      FractionUpward(s, b, a);
      SumOfOpposites(s, a, b);
    }
  }

  lemma SumOfOpposites(s: real, a: real, b: real)
    ensures (a + (b - a) * s) + (b + (a - b) * s) == a + b
  {
    assert (b - a) * s + (a - b) * s == ((b - a) + (a - b)) * s;
  }

  lemma FractionUpward(s: real, lo: real, hi: real)
    requires 0.0 <= s <= 1.0 && lo <= hi
    ensures lo <= lo + (hi - lo) * s <= hi
  {
    assert (hi - lo) * s <= (hi - lo) * 1.0;
  }

  /** Multiplying by a non-negative factor keeps the order. */
  lemma MulMonotone(x: real, y: real, k: real)
    requires x <= y && 0.0 <= k
    ensures x * k <= y * k
  {
  }

  /** A non-zero number over itself is one. */
  lemma SelfQuotient(d: real)
    requires d != 0.0
    ensures d / d == 1.0
  {
  }

  /** Dividing then multiplying by the same positive number is the
      identity, and keeps a positive number positive. */
  lemma QuotientProduct(x: real, d: real)
    requires x > 0.0 && d > 0.0
    ensures d * (x / d) == x && x / d > 0.0
  {
    QuotientSign(x, d);
  }

  /** A quotient by a positive number keeps the numerator's sign. */
  lemma QuotientSign(n: real, d: real)
    requires d > 0.0
    ensures n <= 0.0 ==> n / d <= 0.0
    ensures n >= 0.0 ==> n / d >= 0.0
  {
    var inverse := 1.0 / d;
    assert n / d == n * inverse;
    if n <= 0.0 { MulMonotone(n, 0.0, inverse); }
    if n >= 0.0 { MulMonotone(0.0, n, inverse); }
  }

  /** Dividing by a positive number keeps the order. */
  lemma DivMonotone(x: real, y: real, d: real)
    requires x <= y && d > 0.0
    ensures x / d <= y / d
  {
    QuotientSign(y - x, d);
    assert y / d - x / d == (y - x) / d;
  }

  /** The ease curve maps [0, 1] into [0, 1], fixing both ends. */
  lemma SmoothCurveRange(t: real)
    requires 0.0 <= t <= 1.0
    ensures 0.0 <= SmoothCurve(t) <= 1.0
    ensures t == 0.0 ==> SmoothCurve(t) == 0.0
    ensures t == 1.0 ==> SmoothCurve(t) == 1.0
  {
    var sq := t * t;
    NonNegativeProduct(t, t);
    NonNegativeProduct(sq, 3.0 - 2.0 * t);
    var u := (1.0 - t) * (1.0 - t);
    NonNegativeProduct(1.0 - t, 1.0 - t);
    NonNegativeProduct(u, 1.0 + 2.0 * t);
    SmoothComplement(t);
  }

  lemma SmoothComplement(t: real)
    ensures 1.0 - SmoothCurve(t) == (1.0 - t) * (1.0 - t) * (1.0 + 2.0 * t)
  {
  }

  lemma NonNegativeProduct(a: real, b: real)
    requires 0.0 <= a && 0.0 <= b
    ensures 0.0 <= a * b
  {
    MulMonotone(0.0, a, b);
  }

  /** The ease curve never decreases on [0, 1]. */
  lemma SmoothCurveMonotone(s: real, t: real)
    requires 0.0 <= s <= t <= 1.0
    ensures SmoothCurve(s) <= SmoothCurve(t)
  {
    QuadraticBound(s, t);
    SmoothDifference(s, t);
    MulMonotone(0.0, t - s, 3.0 * (t + s) - 2.0 * (t * t + t * s + s * s));
  }

  lemma SmoothDifference(s: real, t: real)
    ensures SmoothCurve(t) - SmoothCurve(s) == (t - s) * (3.0 * (t + s) - 2.0 * (t * t + t * s + s * s))
  {
  }

  lemma QuadraticBound(s: real, t: real)
    requires 0.0 <= s <= t <= 1.0
    ensures 3.0 * (t + s) - 2.0 * (t * t + t * s + s * s) >= 0.0
  {
    assert t * t <= t by { ProductBelow(t, t); }
    assert s * s <= s by { ProductBelow(s, s); }
    assert t * s <= s by { ProductBelow(t, s); }
    ProductsBelow(s, t);
    LinearBound(s, t, t * t + t * s + s * s);
  }

  lemma ProductsBelow(s: real, t: real)
    requires 0.0 <= s <= t <= 1.0
    requires t * t <= t && s * s <= s && t * s <= s
    ensures t * t + t * s + s * s <= t + s + s
  {
  }

  lemma LinearBound(s: real, t: real, q: real)
    requires s <= t && q <= t + s + s
    ensures 3.0 * (t + s) - 2.0 * q >= 0.0
  {
  }

  /** A factor in [0, 1] does not enlarge a non-negative number. */
  lemma ProductBelow(x: real, y: real)
    requires 0.0 <= x <= 1.0 && 0.0 <= y
    ensures x * y <= y
  {
    assert x * y <= 1.0 * y;
  }

  /** `clamp` is idempotent for well-ordered bounds. */
  lemma ClampIdempotent(x: real, lower: real, upper: real)
    requires lower <= upper
    ensures Clamp(Clamp(x, lower, upper), lower, upper) == Clamp(x, lower, upper)
  {
  }

  /** `clamp` keeps the order of its arguments. */
  lemma ClampMonotone(x: real, y: real, lower: real, upper: real)
    requires x <= y && lower <= upper
    ensures Clamp(x, lower, upper) <= Clamp(y, lower, upper)
  {
  }

  /** `lerp_array(t, a, b)`: `np.clip` then the interpolation broadcast
      over every entry. */
  function LerpArray(t: seq<real>, a: real, b: real): (r: seq<real>)
    ensures |r| == |t|
    ensures forall i :: 0 <= i < |t| ==> r[i] == Lerp(t[i], a, b)
  {
    seq(|t|, i requires 0 <= i < |t| => a + (b - a) * Clamp(t[i], 0.0, 1.0))
  }

  /** `smooth_lerp_array(t, a, b)`: elementwise `smooth_lerp`. */
  function SmoothLerpArray(t: seq<real>, a: real, b: real): (r: seq<real>)
    ensures |r| == |t|
    ensures forall i :: 0 <= i < |t| ==> r[i] == SmoothLerp(t[i], a, b)
  {
    seq(|t|, i requires 0 <= i < |t| => a + (b - a) * SmoothCurve(Clamp(t[i], 0.0, 1.0)))
  }

  /** `Vector2`: an immutable pair; every operator returns a new vector. */
  datatype Vector2 = Vector2(x: real, y: real)
  {
    function Plus(other: Vector2): Vector2
    {
      Vector2(x + other.x, y + other.y)
    }

    function Minus(other: Vector2): Vector2
    {
      Vector2(x - other.x, y - other.y)
    }

    function Times(scalar: real): Vector2
    {
      Vector2(x * scalar, y * scalar)
    }

    /** `__truediv__`: Python raises on a zero divisor. */
    function DividedBy(scalar: real): Vector2
      requires scalar != 0.0
    {
      Vector2(x / scalar, y / scalar)
    }

    function Dot(other: Vector2): real
    {
      x * other.x + y * other.y
    }
  }

  /** Subtraction undoes addition. */
  lemma PlusMinusInverse(v: Vector2, w: Vector2)
    ensures v.Plus(w).Minus(w) == v
  {
  }

  /** Division by a non-zero scalar undoes multiplication by it. */
  lemma TimesDividedByInverse(v: Vector2, k: real)
    requires k != 0.0
    ensures v.Times(k).DividedBy(k) == v
  {
    assert v.x * k / k == v.x;
    assert v.y * k / k == v.y;
  }

  /** The dot product is symmetric and linear in its first argument. */
  lemma DotSymmetricLinear(u: Vector2, v: Vector2, w: Vector2, k: real)
    ensures u.Dot(v) == v.Dot(u)
    ensures u.Plus(v).Dot(w) == u.Dot(w) + v.Dot(w)
    ensures u.Times(k).Dot(v) == k * u.Dot(v)
  {
  }
}
