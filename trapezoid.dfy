/** The line constraints of the trapezoid relaxation of a circular arc: points of the circle
    of a given radius, the tangent line at such a point and the secant line through two points,
    each line written as a*x + b*y + c = 0. */
module Trapezoid {
  import opened RealMath

  /** The radius psi_to_xy uses when none is given. */
  const DefaultRadius: real := 200.0

  datatype Point = Point(x: real, y: real)

  /** The line a*x + b*y + c = 0, kept as its three coefficients. */
  datatype Line = Line(a: real, b: real, c: real)

  /** The reason secant_line_coeffs raises ValueError. */
  datatype LineError = PointsNotDistinct

  datatype Result<T> = Ok(value: T) | Err(error: LineError)

  const Origin: Point := Point(0.0, 0.0)

  /** The left-hand side a*x + b*y + c of the line at q. */
  function Eval(l: Line, q: Point): real { l.a * q.x + l.b * q.y + l.c }

  /** The squared distance of p from the origin. */
  function NormSq(p: Point): real { p.x * p.x + p.y * p.y }

  /** The cross product (a - o) x (b - o): zero exactly when b lies on the line through o and a,
      positive when b lies to the left of the direction from o to a. */
  function Cross(o: Point, a: Point, b: Point): real {
    (a.x - o.x) * (b.y - o.y) - (a.y - o.y) * (b.x - o.x)
  }

  /** (r c)^2 + (r s)^2 == r^2 (c^2 + s^2). */
  lemma ScaledNormSq(r: real, c: real, s: real)
    ensures (r * c) * (r * c) + (r * s) * (r * s) == (r * r) * (c * c + s * s)
  {
    assert (r * c) * (r * c) == (r * r) * (c * c);
    assert (r * s) * (r * s) == (r * r) * (s * s);
  }

  /** psi_to_xy: the point at angle psi on the circle of the given radius, the radius being 200
      when it is left out. With cos^2 + sin^2 = 1 the point lies at distance radius. */
  function PsiToXY(t: Trig, psi: real, radius: real := DefaultRadius): (p: Point)
    ensures Pythagorean(t) ==> NormSq(p) == radius * radius
  {
    ScaledNormSq(radius, t.cos(psi), t.sin(psi));
    Point(radius * t.cos(psi), radius * t.sin(psi))
  }

  /** With the default radius the point lies at distance 200. */
  lemma DefaultRadiusCircle(t: Trig, psi: real)
    requires Pythagorean(t)
    ensures NormSq(PsiToXY(t, psi)) == 40000.0
  {
    assert NormSq(PsiToXY(t, psi)) == DefaultRadius * DefaultRadius;
  }

  /** tangent_line_coeffs: the line x*X + y*Y - (x^2 + y^2) = 0 through P = (x, y) with normal P.
      It passes through P and takes the value -|P|^2 at the origin. */
  function TangentLineCoeffs(x: real, y: real): (l: Line)
    ensures l.a == x && l.b == y
    ensures Eval(l, Point(x, y)) == 0.0
    ensures Eval(l, Origin) == -NormSq(Point(x, y))
  {
    Line(x, y, -(x * x + y * y))
  }

  /** At a point of the circle of radius r the tangent takes the value -r^2 at the origin. */
  lemma TangentAtOriginIsMinusRadiusSquared(t: Trig, psi: real, radius: real)
    requires Pythagorean(t)
    ensures var p := PsiToXY(t, psi, radius);
      Eval(TangentLineCoeffs(p.x, p.y), Origin) == -(radius * radius)
  {
    var p := PsiToXY(t, psi, radius);
    assert NormSq(p) == radius * radius;
  }

  /** Twice the dot product is at most the sum of the squared norms: the squared distance
      between the two points is not negative. */
  lemma DotBound(p: Point, q: Point)
    ensures 2.0 * (p.x * q.x + p.y * q.y) <= NormSq(p) + NormSq(q)
  {
    var dx, dy := p.x - q.x, p.y - q.y;
    assert dx * dx == p.x * p.x - 2.0 * (p.x * q.x) + q.x * q.x;
    assert dy * dy == p.y * p.y - 2.0 * (p.y * q.y) + q.y * q.y;
    SquareNonNegative(dx);
    SquareNonNegative(dy);
  }

  /** No square is negative. */
  lemma SquareNonNegative(d: real)
    ensures d * d >= 0.0
  {
    if d < 0.0 {
      assert (-d) * (-d) >= 0.0 * (-d);
    }
  }

  /** Every point no farther from the origin than P lies on the "< 0" side of the tangent at P,
      strictly when it is nearer. */
  lemma TangentSeparatesDisk(p: Point, q: Point)
    requires NormSq(q) <= NormSq(p)
    ensures Eval(TangentLineCoeffs(p.x, p.y), q) <= 0.0
    ensures NormSq(q) < NormSq(p) ==> Eval(TangentLineCoeffs(p.x, p.y), q) < 0.0
  {
    DotBound(p, q);
    assert Eval(TangentLineCoeffs(p.x, p.y), q) == (p.x * q.x + p.y * q.y) - NormSq(p);
  }

  /** Every point of the circle of radius r lies on the "<= 0" side of the tangent at any point of
      that circle. */
  lemma CircleBelowEveryTangent(t: Trig, psi: real, theta: real, radius: real)
    requires Pythagorean(t)
    ensures var p, q := PsiToXY(t, psi, radius), PsiToXY(t, theta, radius);
      Eval(TangentLineCoeffs(p.x, p.y), q) <= 0.0
  {
    var p, q := PsiToXY(t, psi, radius), PsiToXY(t, theta, radius);
    TangentSeparatesDisk(p, q);
  }

  /** secant_line_coeffs: the line through (x1, y1) and (x2, y2) with A = y2 - y1, B = x1 - x2 and
      C = -(A*x1 + B*y1), or the error when the two points coincide. The line passes through both
      points and is not degenerate. */
  function SecantLineCoeffs(x1: real, y1: real, x2: real, y2: real): (r: Result<Line>)
    ensures r.Err? <==> x1 == x2 && y1 == y2
    ensures r.Ok? ==> Eval(r.value, Point(x1, y1)) == 0.0 && Eval(r.value, Point(x2, y2)) == 0.0
    ensures r.Ok? ==> r.value.a != 0.0 || r.value.b != 0.0
  {
    if x1 == x2 && y1 == y2 then
      Err(PointsNotDistinct)
    else
      var a := y2 - y1;
      var b := x1 - x2;
      var l := Line(a, b, -(a * x1 + b * y1));
      SecantEvalIsCross(x1, y1, x2, y2, Point(x2, y2));
      Ok(l)
  }

  /** The secant's left-hand side at q is minus the cross product (P2 - P1) x (q - P1). */
  lemma SecantEvalIsCross(x1: real, y1: real, x2: real, y2: real, q: Point)
    ensures var a, b := y2 - y1, x1 - x2;
      Eval(Line(a, b, -(a * x1 + b * y1)), q) == -Cross(Point(x1, y1), Point(x2, y2), q)
  {
    var a, b := y2 - y1, x1 - x2;
    assert a * q.x - a * x1 == a * (q.x - x1);
    assert b * q.y - b * y1 == b * (q.y - y1);
    assert b * (q.y - y1) == -((x2 - x1) * (q.y - y1));
  }

  /** For distinct points, the secant takes at q the value -((P2 - P1) x (q - P1)): it is zero
      exactly on the line through the two points, positive on the right of the direction from
      P1 to P2 and negative on its left. */
  lemma SecantSide(x1: real, y1: real, x2: real, y2: real, q: Point)
    requires !(x1 == x2 && y1 == y2)
    ensures SecantLineCoeffs(x1, y1, x2, y2).Ok?
    ensures Eval(SecantLineCoeffs(x1, y1, x2, y2).value, q) == -Cross(Point(x1, y1), Point(x2, y2), q)
  {
    SecantEvalIsCross(x1, y1, x2, y2, q);
  }

  /** The secant at the origin equals -(x1*y2 - x2*y1). */
  lemma SecantAtOrigin(x1: real, y1: real, x2: real, y2: real)
    requires !(x1 == x2 && y1 == y2)
    ensures Eval(SecantLineCoeffs(x1, y1, x2, y2).value, Origin) == -(x1 * y2 - x2 * y1)
  {
    SecantSide(x1, y1, x2, y2, Origin);
    assert Cross(Point(x1, y1), Point(x2, y2), Origin) == (x2 - x1) * (-y1) - (y2 - y1) * (-x1);
  }

  /** Swapping the two points negates A, B and C, so the line is the same and its sides swap. */
  lemma SecantSwap(x1: real, y1: real, x2: real, y2: real)
    requires !(x1 == x2 && y1 == y2)
    ensures var l, m := SecantLineCoeffs(x1, y1, x2, y2).value, SecantLineCoeffs(x2, y2, x1, y1).value;
      m == Line(-l.a, -l.b, -l.c)
  {
    var a, b := y2 - y1, x1 - x2;
    assert (-a) * x2 + (-b) * y2 == -(a * x2 + b * y2);
    assert a * x2 + b * y2 == a * x1 + b * y1 by {
      SecantEvalIsCross(x1, y1, x2, y2, Point(x2, y2));
    }
  }
}
