/** The axis-aligned bounding box of a circular arc of radius `speed`: the set
    {(speed * cos theta, speed * sin theta) : psiMin <= theta <= psiMax}. */
module ArcBoundingBox {
  import opened RealMath

  /** The returned dictionary, keyed vx_lower, vx_upper, vy_lower and vy_upper. */
  datatype Box = Box(vxLower: real, vxUpper: real, vyLower: real, vyUpper: real)

  /** The offsets the scan tries, Python's range(-2, 3). */
  const KFirst: int := -2
  const KLast: int := 2

  /** The angle `base` plus k turns lies in [lo, hi]: the test `psi_min <= theta <= psi_max`. */
  predicate Hit(lo: real, hi: real, base: real, k: int) {
    lo <= Turn(base, k) <= hi
  }

  /** Some offset k with KFirst <= k < n puts an angle of the family into [lo, hi]. */
  predicate ScannedBelow(lo: real, hi: real, base: real, n: int) {
    exists k :: KFirst <= k < n && Hit(lo, hi, base, k)
  }

  /** Some offset of the scanned window puts an angle of the family into [lo, hi]. */
  predicate Scanned(lo: real, hi: real, base: real) {
    ScannedBelow(lo, hi, base, KLast + 1)
  }

  /** Trying one more offset adds exactly that offset's angle. */
  lemma ScannedBelowStep(lo: real, hi: real, base: real, n: int)
    ensures ScannedBelow(lo, hi, base, n + 1) <==>
            ScannedBelow(lo, hi, base, n) || (KFirst <= n && Hit(lo, hi, base, n))
  {
    if KFirst <= n && Hit(lo, hi, base, n) {
      assert KFirst <= n < n + 1;
    }
  }

  /** The unit-circle box once it is known which of the four families were detected: a
      detected family clamps its bound to 1 or -1, the other bounds are the min or max of the
      two endpoint coordinates. */
  function UnitBox(t: Trig, lo: real, hi: real, xMax: bool, xMin: bool, yMax: bool, yMin: bool): Box
  {
    Box(if xMin then -1.0 else Min(t.cos(lo), t.cos(hi)),
        if xMax then 1.0 else Max(t.cos(lo), t.cos(hi)),
        if yMin then -1.0 else Min(t.sin(lo), t.sin(hi)),
        if yMax then 1.0 else Max(t.sin(lo), t.sin(hi)))
  }

  /** Every bound multiplied by speed. */
  function Scale(b: Box, speed: real): Box {
    Box(b.vxLower * speed, b.vxUpper * speed, b.vyLower * speed, b.vyUpper * speed)
  }

  /** The unit box of the bounded scan. */
  function ArcUnitBox(t: Trig, lo: real, hi: real): Box {
    UnitBox(t, lo, hi, Scanned(lo, hi, XMaxBase), Scanned(lo, hi, XMinBase),
            Scanned(lo, hi, YMaxBase), Scanned(lo, hi, YMinBase))
  }

  /** The box get_arc_bounding_box returns. */
  function ArcBox(t: Trig, lo: real, hi: real, speed: real): Box {
    Scale(ArcUnitBox(t, lo, hi), speed)
  }

  /** get_arc_bounding_box: seed the unit bounds from the endpoints, scan the four families of
      axis-extremal angles for k in -2..2, clamping on every hit, then scale by speed. */
  method GetArcBoundingBox(t: Trig, psiMin: real, psiMax: real, speed: real) returns (box: Box)
    ensures box == ArcBox(t, psiMin, psiMax, speed)
  {
    var xStart := t.cos(psiMin);
    var yStart := t.sin(psiMin);
    var xEnd := t.cos(psiMax);
    var yEnd := t.sin(psiMax);

    var vxLower := Min(xStart, xEnd);
    var vxUpper := Max(xStart, xEnd);
    var vyLower := Min(yStart, yEnd);
    var vyUpper := Max(yStart, yEnd);

    // x = 1 at whole turns
    for k := KFirst to KLast + 1
      invariant vxUpper == if ScannedBelow(psiMin, psiMax, XMaxBase, k) then 1.0 else Max(xStart, xEnd)
    {
      var theta := k as real * 2.0 * Pi;
      TurnAsWritten(XMaxBase, k);
      ScannedBelowStep(psiMin, psiMax, XMaxBase, k);
      if psiMin <= theta <= psiMax {
        vxUpper := 1.0;
      }
    }

    // x = -1 at a half turn plus whole turns
    for k := KFirst to KLast + 1
      invariant vxLower == if ScannedBelow(psiMin, psiMax, XMinBase, k) then -1.0 else Min(xStart, xEnd)
    {
      var theta := Pi + k as real * 2.0 * Pi;
      TurnAsWritten(XMinBase, k);
      ScannedBelowStep(psiMin, psiMax, XMinBase, k);
      if psiMin <= theta <= psiMax {
        vxLower := -1.0;
      }
    }

    // y = 1 at a quarter turn plus whole turns
    for k := KFirst to KLast + 1
      invariant vyUpper == if ScannedBelow(psiMin, psiMax, YMaxBase, k) then 1.0 else Max(yStart, yEnd)
    {
      var theta := Pi / 2.0 + k as real * 2.0 * Pi;
      TurnAsWritten(YMaxBase, k);
      ScannedBelowStep(psiMin, psiMax, YMaxBase, k);
      if psiMin <= theta <= psiMax {
        vyUpper := 1.0;
      }
    }

    // y = -1 at three quarter turns plus whole turns
    for k := KFirst to KLast + 1
      invariant vyLower == if ScannedBelow(psiMin, psiMax, YMinBase, k) then -1.0 else Min(yStart, yEnd)
    {
      var theta := 3.0 * Pi / 2.0 + k as real * 2.0 * Pi;
      TurnAsWritten(YMinBase, k);
      ScannedBelowStep(psiMin, psiMax, YMinBase, k);
      if psiMin <= theta <= psiMax {
        vyLower := -1.0;
      }
    }

    var unit := Box(vxLower, vxUpper, vyLower, vyUpper);
    assert unit == ArcUnitBox(t, psiMin, psiMax);
    box := Scale(unit, speed);
  }

  /** The arc point at angle theta, (speed * cos theta, speed * sin theta), lies in the box. */
  ghost predicate Contains(b: Box, t: Trig, speed: real, theta: real) {
    b.vxLower <= t.cos(theta) * speed <= b.vxUpper &&
    b.vyLower <= t.sin(theta) * speed <= b.vyUpper
  }

  /** Scaling by a non-negative speed keeps an arc point of the unit box inside the scaled box. */
  lemma ScaleKeepsArcPoint(u: Box, t: Trig, speed: real, theta: real)
    requires u.vxLower <= t.cos(theta) <= u.vxUpper && u.vyLower <= t.sin(theta) <= u.vyUpper
    requires 0.0 <= speed
    ensures Contains(Scale(u, speed), t, speed, theta)
  {
    var c, s := t.cos(theta), t.sin(theta);
    ScaleMonotone(u.vxLower, c, speed);
    ScaleMonotone(c, u.vxUpper, speed);
    ScaleMonotone(u.vyLower, s, speed);
    ScaleMonotone(s, u.vyUpper, speed);
    var b := Scale(u, speed);
    assert b.vxLower == u.vxLower * speed && b.vxUpper == u.vxUpper * speed;
    assert b.vyLower == u.vyLower * speed && b.vyUpper == u.vyUpper * speed;
  }

  /** With cos and sin in [-1, 1], every unit bound lies in [-1, 1], each axis is ordered and
      both endpoints lie inside, whichever families are detected. */
  lemma UnitBoxBounds(t: Trig, lo: real, hi: real, xMax: bool, xMin: bool, yMax: bool, yMin: bool)
    requires UnitBounded(t)
    ensures var u := UnitBox(t, lo, hi, xMax, xMin, yMax, yMin);
      -1.0 <= u.vxLower <= u.vxUpper <= 1.0 && -1.0 <= u.vyLower <= u.vyUpper <= 1.0 &&
      u.vxLower <= t.cos(lo) <= u.vxUpper && u.vyLower <= t.sin(lo) <= u.vyUpper &&
      u.vxLower <= t.cos(hi) <= u.vxUpper && u.vyLower <= t.sin(hi) <= u.vyUpper
  {
    assert -1.0 <= t.cos(lo) <= 1.0 && -1.0 <= t.sin(lo) <= 1.0;
    assert -1.0 <= t.cos(hi) <= 1.0 && -1.0 <= t.sin(hi) <= 1.0;
  }

  /** Scaling an ordered box inside [-1, 1]^2 by a non-negative speed gives an ordered box
      inside [-speed, speed]^2. */
  lemma ScaleUnitBox(u: Box, speed: real)
    requires -1.0 <= u.vxLower <= u.vxUpper <= 1.0 && -1.0 <= u.vyLower <= u.vyUpper <= 1.0
    requires 0.0 <= speed
    ensures var b := Scale(u, speed);
      -speed <= b.vxLower <= b.vxUpper <= speed && -speed <= b.vyLower <= b.vyUpper <= speed
  {
    var b := Scale(u, speed);
    ScaleInterval(u.vxLower, u.vxUpper, speed, b.vxLower, b.vxUpper);
    ScaleInterval(u.vyLower, u.vyUpper, speed, b.vyLower, b.vyUpper);
  }

  /** Scaling an ordered pair of [-1, 1] by a non-negative speed gives an ordered pair
      (scaledLo, scaledHi) of [-speed, speed]. */
  lemma ScaleInterval(lo: real, hi: real, speed: real, scaledLo: real, scaledHi: real)
    requires -1.0 <= lo <= hi <= 1.0 && 0.0 <= speed
    requires scaledLo == lo * speed && scaledHi == hi * speed
    ensures -speed <= scaledLo <= scaledHi <= speed
  {
    ScaleUnit(lo, speed);
    ScaleUnit(hi, speed);
    ScaleMonotone(lo, hi, speed);
  }

  /** With cos and sin in [-1, 1] and a non-negative speed, every bound lies in
      [-speed, speed] and each axis is ordered, whatever the interval. */
  lemma BoxWithinSpeed(t: Trig, lo: real, hi: real, speed: real)
    requires UnitBounded(t) && 0.0 <= speed
    ensures var b := ArcBox(t, lo, hi, speed);
      -speed <= b.vxLower <= b.vxUpper <= speed && -speed <= b.vyLower <= b.vyUpper <= speed
  {
    UnitBoxBounds(t, lo, hi, Scanned(lo, hi, XMaxBase), Scanned(lo, hi, XMinBase),
                  Scanned(lo, hi, YMaxBase), Scanned(lo, hi, YMinBase));
    ScaleUnitBox(ArcUnitBox(t, lo, hi), speed);
  }

  /** Both endpoints of the arc lie in the box. */
  lemma EndpointsInBox(t: Trig, lo: real, hi: real, speed: real)
    requires UnitBounded(t) && 0.0 <= speed
    ensures Contains(ArcBox(t, lo, hi, speed), t, speed, lo)
    ensures Contains(ArcBox(t, lo, hi, speed), t, speed, hi)
  {
    var u := ArcUnitBox(t, lo, hi);
    UnitBoxBounds(t, lo, hi, Scanned(lo, hi, XMaxBase), Scanned(lo, hi, XMinBase),
                  Scanned(lo, hi, YMaxBase), Scanned(lo, hi, YMinBase));
    ScaleKeepsArcPoint(u, t, speed, lo);
    ScaleKeepsArcPoint(u, t, speed, hi);
  }

  /** An axis-extremal angle of the scanned window that lies in the interval clamps its bound:
      2 pi k gives vx_upper = speed, pi + 2 pi k gives vx_lower = -speed, pi/2 + 2 pi k gives
      vy_upper = speed and 3 pi/2 + 2 pi k gives vy_lower = -speed. */
  lemma CriticalAngleClamps(t: Trig, lo: real, hi: real, speed: real, k: int)
    requires KFirst <= k <= KLast
    ensures Hit(lo, hi, XMaxBase, k) ==> ArcBox(t, lo, hi, speed).vxUpper == speed
    ensures Hit(lo, hi, XMinBase, k) ==> ArcBox(t, lo, hi, speed).vxLower == -speed
    ensures Hit(lo, hi, YMaxBase, k) ==> ArcBox(t, lo, hi, speed).vyUpper == speed
    ensures Hit(lo, hi, YMinBase, k) ==> ArcBox(t, lo, hi, speed).vyLower == -speed
  {
  }

  /** A family none of whose scanned angles lies in the interval leaves its bound at the
      scaled min or max of the endpoint coordinates. */
  lemma UnscannedBoundsAreEndpoints(t: Trig, lo: real, hi: real, speed: real)
    ensures (forall k :: KFirst <= k <= KLast ==> !Hit(lo, hi, XMaxBase, k)) ==>
      ArcBox(t, lo, hi, speed).vxUpper == Max(t.cos(lo), t.cos(hi)) * speed
    ensures (forall k :: KFirst <= k <= KLast ==> !Hit(lo, hi, XMinBase, k)) ==>
      ArcBox(t, lo, hi, speed).vxLower == Min(t.cos(lo), t.cos(hi)) * speed
    ensures (forall k :: KFirst <= k <= KLast ==> !Hit(lo, hi, YMaxBase, k)) ==>
      ArcBox(t, lo, hi, speed).vyUpper == Max(t.sin(lo), t.sin(hi)) * speed
    ensures (forall k :: KFirst <= k <= KLast ==> !Hit(lo, hi, YMinBase, k)) ==>
      ArcBox(t, lo, hi, speed).vyLower == Min(t.sin(lo), t.sin(hi)) * speed
  {
    var u := ArcUnitBox(t, lo, hi);
    assert Scanned(lo, hi, XMaxBase) ==> exists k :: KFirst <= k <= KLast && Hit(lo, hi, XMaxBase, k);
    assert Scanned(lo, hi, XMinBase) ==> exists k :: KFirst <= k <= KLast && Hit(lo, hi, XMinBase, k);
    assert Scanned(lo, hi, YMaxBase) ==> exists k :: KFirst <= k <= KLast && Hit(lo, hi, YMaxBase, k);
    assert Scanned(lo, hi, YMinBase) ==> exists k :: KFirst <= k <= KLast && Hit(lo, hi, YMinBase, k);
  }

  /** The full circle [0, 2 pi] yields the square [-speed, speed]^2. */
  lemma FullCircle(t: Trig, speed: real)
    ensures ArcBox(t, 0.0, 2.0 * Pi, speed) == Box(-speed, speed, -speed, speed)
  {
    assert Hit(0.0, 2.0 * Pi, XMaxBase, 0);
    assert Hit(0.0, 2.0 * Pi, XMinBase, 0);
    assert Hit(0.0, 2.0 * Pi, YMaxBase, 0);
    assert Hit(0.0, 2.0 * Pi, YMinBase, 0);
  }

  /** A degenerate interval [a, a] yields the point box at (speed * cos a, speed * sin a), also
      when a is itself an axis-extremal angle. */
  lemma DegenerateIntervalIsPoint(t: Trig, a: real, speed: real)
    requires Extremal(t)
    ensures ArcBox(t, a, a, speed) ==
      Box(t.cos(a) * speed, t.cos(a) * speed, t.sin(a) * speed, t.sin(a) * speed)
  {
    var c, s := t.cos(a), t.sin(a);
    if Scanned(a, a, XMaxBase) {
      var k :| KFirst <= k < KLast + 1 && Hit(a, a, XMaxBase, k);
      assert a == Turn(XMaxBase, k);
    }
    if Scanned(a, a, XMinBase) {
      var k :| KFirst <= k < KLast + 1 && Hit(a, a, XMinBase, k);
      assert a == Turn(XMinBase, k);
    }
    if Scanned(a, a, YMaxBase) {
      var k :| KFirst <= k < KLast + 1 && Hit(a, a, YMaxBase, k);
      assert a == Turn(YMaxBase, k);
    }
    if Scanned(a, a, YMinBase) {
      var k :| KFirst <= k < KLast + 1 && Hit(a, a, YMinBase, k);
      assert a == Turn(YMinBase, k);
    }
    assert ArcUnitBox(t, a, a) == Box(c, c, s, s);
  }

  /** The first quadrant [0, pi/2] at speed 200 yields [0, 200] x [0, 200]. */
  lemma FirstQuadrant(t: Trig)
    requires Extremal(t)
    ensures ArcBox(t, 0.0, Pi / 2.0, 200.0) == Box(0.0, 200.0, 0.0, 200.0)
  {
    assert Turn(XMaxBase, 0) == 0.0 && Turn(YMaxBase, 0) == Pi / 2.0;
    assert Hit(0.0, Pi / 2.0, XMaxBase, 0) && Hit(0.0, Pi / 2.0, YMaxBase, 0);
    assert !Scanned(0.0, Pi / 2.0, XMinBase) && !Scanned(0.0, Pi / 2.0, YMinBase);
    assert ArcUnitBox(t, 0.0, Pi / 2.0) == Box(0.0, 1.0, 0.0, 1.0);
  }

  /** Python's math.radians. */
  function Radians(degrees: real): real { degrees * Pi / 180.0 }

  /** The interval from 170 to 190 degrees contains pi, so vx_lower is clamped to -speed; the
      other three bounds come from the endpoints. */
  lemma WraparoundAtPi(t: Trig, speed: real)
    ensures var lo, hi := Radians(170.0), Radians(190.0);
      ArcBox(t, lo, hi, speed) ==
        Box(-speed, Max(t.cos(lo), t.cos(hi)) * speed,
            Min(t.sin(lo), t.sin(hi)) * speed, Max(t.sin(lo), t.sin(hi)) * speed)
  {
    var lo, hi := Radians(170.0), Radians(190.0);
    assert Hit(lo, hi, XMinBase, 0);
    assert !Scanned(lo, hi, XMaxBase) && !Scanned(lo, hi, YMaxBase) && !Scanned(lo, hi, YMinBase);
  }

  /** For a non-empty interval, an angle of the interval at which each unit bound is reached. */
  lemma UnitBoundsAttained(t: Trig, lo: real, hi: real) returns (xl: real, xu: real, yl: real, yu: real)
    requires Extremal(t) && lo <= hi
    ensures lo <= xl <= hi && ArcUnitBox(t, lo, hi).vxLower == t.cos(xl)
    ensures lo <= xu <= hi && ArcUnitBox(t, lo, hi).vxUpper == t.cos(xu)
    ensures lo <= yl <= hi && ArcUnitBox(t, lo, hi).vyLower == t.sin(yl)
    ensures lo <= yu <= hi && ArcUnitBox(t, lo, hi).vyUpper == t.sin(yu)
  {
    var cl, ch, sl, sh := t.cos(lo), t.cos(hi), t.sin(lo), t.sin(hi);
    if Scanned(lo, hi, XMinBase) {
      var k :| KFirst <= k < KLast + 1 && Hit(lo, hi, XMinBase, k);
      xl := Turn(XMinBase, k);
    } else {
      xl := if ch < cl then hi else lo;
    }
    if Scanned(lo, hi, XMaxBase) {
      var k :| KFirst <= k < KLast + 1 && Hit(lo, hi, XMaxBase, k);
      xu := Turn(XMaxBase, k);
    } else {
      xu := if ch > cl then hi else lo;
    }
    if Scanned(lo, hi, YMinBase) {
      var k :| KFirst <= k < KLast + 1 && Hit(lo, hi, YMinBase, k);
      yl := Turn(YMinBase, k);
    } else {
      yl := if sh < sl then hi else lo;
    }
    if Scanned(lo, hi, YMaxBase) {
      var k :| KFirst <= k < KLast + 1 && Hit(lo, hi, YMaxBase, k);
      yu := Turn(YMaxBase, k);
    } else {
      yu := if sh > sl then hi else lo;
    }
  }

  /** When the interval is not empty, each bound is reached by a point of the arc: the box is
      no larger than its endpoints and the axis-extremal angles it detects make it. */
  lemma BoundsAttained(t: Trig, lo: real, hi: real, speed: real)
    requires Extremal(t) && lo <= hi
    ensures var b := ArcBox(t, lo, hi, speed);
      (exists theta :: lo <= theta <= hi && b.vxLower == t.cos(theta) * speed) &&
      (exists theta :: lo <= theta <= hi && b.vxUpper == t.cos(theta) * speed) &&
      (exists theta :: lo <= theta <= hi && b.vyLower == t.sin(theta) * speed) &&
      (exists theta :: lo <= theta <= hi && b.vyUpper == t.sin(theta) * speed)
  {
    var xl, xu, yl, yu := UnitBoundsAttained(t, lo, hi);
    var b := ArcBox(t, lo, hi, speed);
    assert b.vxLower == t.cos(xl) * speed && b.vxUpper == t.cos(xu) * speed;
    assert b.vyLower == t.sin(yl) * speed && b.vyUpper == t.sin(yu) * speed;
  }

  // ---------------------------------------------------------------------------------------
  // The scan only sees k in -2..2. An interval holding an extremal angle outside that window
  // gets a box that misses part of the arc.

  /** As written: on [5.5 pi, 6.5 pi] the scan detects no x = 1 angle (6 pi needs k = 3), so
      vx_upper is the endpoint maximum 0, and the arc point (speed, 0) at 6 pi lies outside. */
  lemma ScanMissesThirdTurn(t: Trig, speed: real)
    requires Extremal(t) && 0.0 < speed
    ensures var lo, hi := Turn(YMinBase, 2), Turn(YMaxBase, 3);
      Hit(lo, hi, XMaxBase, 3) &&
      ArcBox(t, lo, hi, speed).vxUpper == 0.0 &&
      !Contains(ArcBox(t, lo, hi, speed), t, speed, Turn(XMaxBase, 3))
  {
    var lo, hi := Turn(YMinBase, 2), Turn(YMaxBase, 3);
    assert !Scanned(lo, hi, XMaxBase);
    assert t.cos(lo) == 0.0 && t.cos(hi) == 0.0 && t.cos(Turn(XMaxBase, 3)) == 1.0;
    assert ArcUnitBox(t, lo, hi).vxUpper == 0.0;
  }

  /** The least number of turns that brings `base` up to `lo` or beyond. */
  function FirstTurnFrom(lo: real, base: real): (k: int)
    ensures lo <= Turn(base, k) && Turn(base, k - 1) < lo
  {
    -((base - lo) / (2.0 * Pi)).Floor
  }

  /** No smaller number of turns reaches `lo`. */
  lemma FirstTurnIsLeast(lo: real, base: real)
    ensures forall k: int :: lo <= Turn(base, k) ==> FirstTurnFrom(lo, base) <= k
  {
    var k0 := FirstTurnFrom(lo, base);
    forall k: int | lo <= Turn(base, k)
      ensures k0 <= k
    {
      assert Turn(base, k0 - 1) < Turn(base, k);
    }
  }

  /** Whether any angle of the family, at any number of turns, lies in [lo, hi]. */
  function CriticalInside(lo: real, hi: real, base: real): (b: bool)
    ensures b <==> exists k: int :: Hit(lo, hi, base, k)
  {
    var k0 := FirstTurnFrom(lo, base);
    FirstTurnIsLeast(lo, base);
    assert Turn(base, k0) <= hi ==> Hit(lo, hi, base, k0);
    Turn(base, k0) <= hi
  }

  /** The unit box with the families detected at every number of turns. */
  function AllTurnsUnitBox(t: Trig, lo: real, hi: real): Box {
    UnitBox(t, lo, hi, CriticalInside(lo, hi, XMaxBase), CriticalInside(lo, hi, XMinBase),
            CriticalInside(lo, hi, YMaxBase), CriticalInside(lo, hi, YMinBase))
  }

  /** Corrected: the box with the families detected at every number of turns. */
  function ArcBoxAllTurns(t: Trig, lo: real, hi: real, speed: real): Box {
    Scale(AllTurnsUnitBox(t, lo, hi), speed)
  }

  /** Corrected: every axis-extremal angle in the interval, at any number of turns, clamps its
      bound to the coordinate of the arc point there. */
  lemma AllTurnsClampEveryTurn(t: Trig, lo: real, hi: real, speed: real, k: int)
    requires Extremal(t)
    ensures var b := ArcBoxAllTurns(t, lo, hi, speed);
      (Hit(lo, hi, XMaxBase, k) ==> b.vxUpper == speed == t.cos(Turn(XMaxBase, k)) * speed) &&
      (Hit(lo, hi, XMinBase, k) ==> b.vxLower == -speed == t.cos(Turn(XMinBase, k)) * speed) &&
      (Hit(lo, hi, YMaxBase, k) ==> b.vyUpper == speed == t.sin(Turn(YMaxBase, k)) * speed) &&
      (Hit(lo, hi, YMinBase, k) ==> b.vyLower == -speed == t.sin(Turn(YMinBase, k)) * speed)
  {
  }

  /** Corrected: the extremal arc point that the bounded scan misses on [5.5 pi, 6.5 pi] lies in
      the corrected box. */
  lemma AllTurnsHoldsThirdTurn(t: Trig, speed: real)
    requires Extremal(t) && 0.0 <= speed
    ensures var lo, hi := Turn(YMinBase, 2), Turn(YMaxBase, 3);
      Contains(ArcBoxAllTurns(t, lo, hi, speed), t, speed, Turn(XMaxBase, 3))
  {
    var lo, hi := Turn(YMinBase, 2), Turn(YMaxBase, 3);
    var theta := Turn(XMaxBase, 3);
    assert Hit(lo, hi, XMaxBase, 3);
    assert t.cos(lo) == 0.0 && t.cos(hi) == 0.0 && t.cos(theta) == 1.0 && t.sin(theta) == 0.0;
    assert t.sin(lo) == -1.0 && t.sin(hi) == 1.0;
    var u := AllTurnsUnitBox(t, lo, hi);
    assert u.vxLower <= 0.0 && u.vxUpper == 1.0 && u.vyLower <= 0.0 <= u.vyUpper;
    ScaleKeepsArcPoint(u, t, speed, theta);
  }

  /** Corrected and as written agree on intervals inside (-4.5 pi, 6 pi), where every
      extremal angle has an offset in -2..2. */
  lemma AllTurnsAgreesInsideWindow(t: Trig, lo: real, hi: real, speed: real)
    requires -4.5 * Pi < lo && hi < 6.0 * Pi
    ensures ArcBoxAllTurns(t, lo, hi, speed) == ArcBox(t, lo, hi, speed)
  {
    assert forall k: int :: Hit(lo, hi, XMaxBase, k) ==> KFirst <= k <= KLast;
    assert forall k: int :: Hit(lo, hi, XMinBase, k) ==> KFirst <= k <= KLast;
    assert forall k: int :: Hit(lo, hi, YMaxBase, k) ==> KFirst <= k <= KLast;
    assert forall k: int :: Hit(lo, hi, YMinBase, k) ==> KFirst <= k <= KLast;
    assert AllTurnsUnitBox(t, lo, hi) == ArcUnitBox(t, lo, hi);
  }
}
