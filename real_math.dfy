/** Real-number primitives shared by the relaxation core: the constant pi, Python's
    two-argument min and max, and the cosine and sine the program calls. */
module RealMath {

  /** Python's math.pi (a double), read as an exact real. */
  const Pi: real := 3.141592653589793

  /** Python's built-in max(a, b) and min(a, b) on two numbers. */
  function Max(a: real, b: real): real { if b > a then b else a }
  function Min(a: real, b: real): real { if b < a then b else a }

  /** math.cos and math.sin are library calls with no definition in the model: a caller
      supplies them, and lemmas state which of their laws they rely on. */
  datatype Trig = Trig(cos: real -> real, sin: real -> real)

  /** cos^2 + sin^2 == 1 at every angle. */
  ghost predicate Pythagorean(t: Trig) {
    forall a :: t.cos(a) * t.cos(a) + t.sin(a) * t.sin(a) == 1.0
  }

  /** Both functions stay inside [-1, 1]. */
  ghost predicate UnitBounded(t: Trig) {
    forall a :: -1.0 <= t.cos(a) <= 1.0 && -1.0 <= t.sin(a) <= 1.0
  }

  /** The base angles of the four families of axis-extremal angles: the unit circle reaches
      x = 1, x = -1, y = 1 and y = -1 at the base angle plus any whole number of turns. */
  const XMaxBase: real := 0.0
  const XMinBase: real := Pi
  const YMaxBase: real := Pi / 2.0
  const YMinBase: real := 3.0 * Pi / 2.0

  /** The angle `base` plus k full turns; 6.283185307179586 is 2 * Pi written out. */
  function Turn(base: real, k: int): real { base + k as real * 6.283185307179586 }

  /** The way the program writes an angle, base + k * 2 * pi, is that turn. */
  lemma TurnAsWritten(base: real, k: int)
    ensures base + k as real * 2.0 * Pi == Turn(base, k)
  {
  }

  /** The values of cos and sin at the axis-extremal angles: the points (1, 0), (-1, 0),
      (0, 1) and (0, -1) of the unit circle. */
  ghost predicate Extremal(t: Trig) {
    forall k: int ::
      t.cos(Turn(XMaxBase, k)) == 1.0 && t.sin(Turn(XMaxBase, k)) == 0.0 &&
      t.cos(Turn(XMinBase, k)) == -1.0 && t.sin(Turn(XMinBase, k)) == 0.0 &&
      t.cos(Turn(YMaxBase, k)) == 0.0 && t.sin(Turn(YMaxBase, k)) == 1.0 &&
      t.cos(Turn(YMinBase, k)) == 0.0 && t.sin(Turn(YMinBase, k)) == -1.0
  }

  /** A number whose square is at most 1 lies in [-1, 1]. */
  lemma SquareAtMostOne(c: real)
    requires c * c <= 1.0
    ensures -1.0 <= c <= 1.0
  {
  }

  /** The Pythagorean identity keeps cos and sin inside [-1, 1]. */
  lemma PythagoreanBounded(t: Trig)
    requires Pythagorean(t)
    ensures UnitBounded(t)
  {
    forall a: real
      ensures -1.0 <= t.cos(a) <= 1.0 && -1.0 <= t.sin(a) <= 1.0
    {
      var c, s := t.cos(a), t.sin(a);
      assert c * c + s * s == 1.0;
      assert s * s >= 0.0 && c * c >= 0.0;
      SquareAtMostOne(c);
      SquareAtMostOne(s);
    }
  }

  /** Scaling by a non-negative factor keeps the order of two numbers. */
  lemma ScaleMonotone(a: real, b: real, k: real)
    requires a <= b && 0.0 <= k
    ensures a * k <= b * k
  {
    assert b * k - a * k == (b - a) * k;
  }

  /** Scaling a number of [-1, 1] by a non-negative factor k lands in [-k, k]. */
  lemma ScaleUnit(a: real, k: real)
    requires -1.0 <= a <= 1.0 && 0.0 <= k
    ensures -k <= a * k <= k
  {
    ScaleMonotone(-1.0, a, k);
    ScaleMonotone(a, 1.0, k);
  }
}
