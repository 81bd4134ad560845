/** The four supporting half-planes built from a velocity box and a heading change
    (c, s) = (cos dpsi, sin dpsi): two faces bound the next x coordinate and two the next
    y coordinate of the intruder after one step of the rotated dynamics. */
module RotatedHalfPlanes {
  import opened RealMath
  import opened ArcBoundingBox

  /** The nominal forward speed of the ownship, added to the x faces only. */
  const NominalSpeed: real := 200.0

  /** A constraint over (x, y, next) with coefficient list [a, b, c] and its scalar: an upper
      face claims a*x + b*y + c*next <= scalar, a lower face claims it is >= scalar. */
  datatype HalfPlane = HalfPlane(a: real, b: real, c: real, scalar: real)

  /** The ordering every builder asserts before it reads the box. */
  predicate Ordered(box: Box) {
    box.vxLower <= box.vxUpper && box.vyLower <= box.vyUpper
  }

  /** A velocity inside the box. */
  predicate InBox(box: Box, vx: real, vy: real) {
    box.vxLower <= vx <= box.vxUpper && box.vyLower <= vy <= box.vyUpper
  }

  /** The left-hand side of a face at a state and its successor coordinate. */
  function Apply(h: HalfPlane, x: real, y: real, next: real): real {
    h.a * x + h.b * y + h.c * next
  }

  /** The largest and the smallest value of k * v over v in [lo, hi], picked by the sign of k. */
  function UpperSupport(k: real, lo: real, hi: real): real { if k >= 0.0 then k * hi else k * lo }
  function LowerSupport(k: real, lo: real, hi: real): real { if k >= 0.0 then k * lo else k * hi }

  /** The products of k with the ends of an interval, ordered as the sign of k says. */
  lemma ProductsOrdered(k: real, lo: real, hi: real)
    requires lo <= hi
    ensures k >= 0.0 ==> k * lo <= k * hi
    ensures k < 0.0 ==> k * hi <= k * lo
  {
    if k >= 0.0 {
      ScaleMonotone(lo, hi, k);
    } else {
      ScaleMonotone(lo, hi, -k);
      assert (-k) * lo == -(k * lo) && (-k) * hi == -(k * hi);
    }
  }

  /** Python's max and min of the two end products are the sign-branch supports. */
  lemma MaxMinAreSupports(k: real, lo: real, hi: real)
    requires lo <= hi
    ensures Max(k * hi, k * lo) == UpperSupport(k, lo, hi)
    ensures Min(k * hi, k * lo) == LowerSupport(k, lo, hi)
  {
    ProductsOrdered(k, lo, hi);
  }

  /** Every k * v with v in [lo, hi] lies between the two supports. */
  lemma SupportsBound(k: real, lo: real, hi: real, v: real)
    requires lo <= v <= hi
    ensures LowerSupport(k, lo, hi) <= k * v <= UpperSupport(k, lo, hi)
  {
    ProductsOrdered(k, lo, v);
    ProductsOrdered(k, v, hi);
  }

  /** The upper x face: coefficients [c, s, -1], scalar the largest -c*vx - s*vy + 200 over
      the box. */
  function ComputeXUp(c: real, s: real, box: Box): (h: HalfPlane)
    requires Ordered(box)
    ensures h.a == c && h.b == s && h.c == -1.0
    ensures h.scalar == UpperSupport(-c, box.vxLower, box.vxUpper) + NominalSpeed
                        + UpperSupport(-s, box.vyLower, box.vyUpper)
  {
    MaxMinAreSupports(-c, box.vxLower, box.vxUpper);
    MaxMinAreSupports(-s, box.vyLower, box.vyUpper);
    var maxVx := Max(-c * box.vxUpper, -c * box.vxLower);
    var maxVy := Max(-s * box.vyUpper, -s * box.vyLower);
    assert maxVx == UpperSupport(-c, box.vxLower, box.vxUpper);
    assert maxVy == UpperSupport(-s, box.vyLower, box.vyUpper);
    HalfPlane(c, s, -1.0, maxVx + NominalSpeed + maxVy)
  }

  /** The lower x face: the same coefficients, scalar the smallest -c*vx - s*vy + 200. */
  function ComputeXLo(c: real, s: real, box: Box): (h: HalfPlane)
    requires Ordered(box)
    ensures h.a == c && h.b == s && h.c == -1.0
    ensures h.scalar == LowerSupport(-c, box.vxLower, box.vxUpper) + NominalSpeed
                        + LowerSupport(-s, box.vyLower, box.vyUpper)
  {
    MaxMinAreSupports(-c, box.vxLower, box.vxUpper);
    MaxMinAreSupports(-s, box.vyLower, box.vyUpper);
    var minVx := Min(-c * box.vxUpper, -c * box.vxLower);
    var minVy := Min(-s * box.vyUpper, -s * box.vyLower);
    assert minVx == LowerSupport(-c, box.vxLower, box.vxUpper);
    assert minVy == LowerSupport(-s, box.vyLower, box.vyUpper);
    HalfPlane(c, s, -1.0, minVx + NominalSpeed + minVy)
  }

  /** The lower y face: coefficients [-s, c, -1], scalar the smallest s*vx - c*vy over the box. */
  function ComputeYLo(c: real, s: real, box: Box): (h: HalfPlane)
    requires Ordered(box)
    ensures h.a == -s && h.b == c && h.c == -1.0
    ensures h.scalar == LowerSupport(s, box.vxLower, box.vxUpper)
                        + LowerSupport(-c, box.vyLower, box.vyUpper)
  {
    MaxMinAreSupports(s, box.vxLower, box.vxUpper);
    MaxMinAreSupports(-c, box.vyLower, box.vyUpper);
    var minVx := Min(s * box.vxUpper, s * box.vxLower);
    var minVy := Min(-c * box.vyUpper, -c * box.vyLower);
    assert minVx == LowerSupport(s, box.vxLower, box.vxUpper);
    assert minVy == LowerSupport(-c, box.vyLower, box.vyUpper);
    HalfPlane(-s, c, -1.0, minVx + minVy)
  }

  /** The upper y face: the same coefficients, scalar the largest s*vx - c*vy. */
  function ComputeYUp(c: real, s: real, box: Box): (h: HalfPlane)
    requires Ordered(box)
    ensures h.a == -s && h.b == c && h.c == -1.0
    ensures h.scalar == UpperSupport(s, box.vxLower, box.vxUpper)
                        + UpperSupport(-c, box.vyLower, box.vyUpper)
  {
    MaxMinAreSupports(s, box.vxLower, box.vxUpper);
    MaxMinAreSupports(-c, box.vyLower, box.vyUpper);
    var maxVx := Max(s * box.vxUpper, s * box.vxLower);
    var maxVy := Max(-c * box.vyUpper, -c * box.vyLower);
    assert maxVx == UpperSupport(s, box.vxLower, box.vxUpper);
    assert maxVy == UpperSupport(-c, box.vyLower, box.vyUpper);
    HalfPlane(-s, c, -1.0, maxVx + maxVy)
  }

  /** The velocity term of the x dynamics, c*x + s*y - x' = -c*vx - s*vy + 200, which the
      x faces bound. */
  function XShift(c: real, s: real, vx: real, vy: real): real { (-c) * vx + (-s) * vy + NominalSpeed }

  /** The velocity term of the y dynamics, -s*x + c*y - y' = s*vx - c*vy, which the y faces bound. */
  function YShift(c: real, s: real, vx: real, vy: real): real { s * vx + (-c) * vy }

  /** The x faces bound -c*vx - s*vy + 200 for every velocity of the box. */
  lemma XFacesSound(c: real, s: real, box: Box, vx: real, vy: real)
    requires Ordered(box) && InBox(box, vx, vy)
    ensures ComputeXLo(c, s, box).scalar <= XShift(c, s, vx, vy) <= ComputeXUp(c, s, box).scalar
  {
    SupportsBound(-c, box.vxLower, box.vxUpper, vx);
    SupportsBound(-s, box.vyLower, box.vyUpper, vy);
  }

  /** The y faces bound s*vx - c*vy for every velocity of the box. */
  lemma YFacesSound(c: real, s: real, box: Box, vx: real, vy: real)
    requires Ordered(box) && InBox(box, vx, vy)
    ensures ComputeYLo(c, s, box).scalar <= YShift(c, s, vx, vy) <= ComputeYUp(c, s, box).scalar
  {
    SupportsBound(s, box.vxLower, box.vxUpper, vx);
    SupportsBound(-c, box.vyLower, box.vyUpper, vy);
  }

  /** A successor x' of (x, y) under the rotated dynamics c*x + s*y - x' = -c*vx - s*vy + 200,
      with a velocity of the box, satisfies both x faces. */
  lemma XFacesHoldForSuccessor(c: real, s: real, box: Box, vx: real, vy: real, x: real, y: real, next: real)
    requires Ordered(box) && InBox(box, vx, vy)
    requires c * x + s * y - next == XShift(c, s, vx, vy)
    ensures ComputeXLo(c, s, box).scalar <= Apply(ComputeXLo(c, s, box), x, y, next)
    ensures Apply(ComputeXUp(c, s, box), x, y, next) <= ComputeXUp(c, s, box).scalar
  {
    XFacesSound(c, s, box, vx, vy);
    var lower, upper := ComputeXLo(c, s, box), ComputeXUp(c, s, box);
    assert Apply(lower, x, y, next) == c * x + s * y - next;
    assert Apply(upper, x, y, next) == c * x + s * y - next;
  }

  /** A successor y' of (x, y) under -s*x + c*y - y' = s*vx - c*vy, with a velocity of the box,
      satisfies both y faces. */
  lemma YFacesHoldForSuccessor(c: real, s: real, box: Box, vx: real, vy: real, x: real, y: real, next: real)
    requires Ordered(box) && InBox(box, vx, vy)
    requires -s * x + c * y - next == YShift(c, s, vx, vy)
    ensures ComputeYLo(c, s, box).scalar <= Apply(ComputeYLo(c, s, box), x, y, next)
    ensures Apply(ComputeYUp(c, s, box), x, y, next) <= ComputeYUp(c, s, box).scalar
  {
    YFacesSound(c, s, box, vx, vy);
    var lower, upper := ComputeYLo(c, s, box), ComputeYUp(c, s, box);
    assert Apply(lower, x, y, next) == -s * x + c * y - next;
    assert Apply(upper, x, y, next) == -s * x + c * y - next;
  }

  /** The corner of [lo, hi] at which k * v is largest, and the one at which it is smallest. */
  function UpperCorner(k: real, lo: real, hi: real): real { if k >= 0.0 then hi else lo }
  function LowerCorner(k: real, lo: real, hi: real): real { if k >= 0.0 then lo else hi }

  /** (vx, vy) is one of the four corners of the box. */
  predicate IsCorner(box: Box, vx: real, vy: real) {
    (vx == box.vxLower || vx == box.vxUpper) && (vy == box.vyLower || vy == box.vyUpper)
  }

  /** The supports are the products with the corners the sign of k picks. */
  lemma SupportsAtCorners(k: real, lo: real, hi: real)
    ensures UpperSupport(k, lo, hi) == k * UpperCorner(k, lo, hi)
    ensures LowerSupport(k, lo, hi) == k * LowerCorner(k, lo, hi)
  {
  }

  /** Each x scalar is reached at a corner of the box, so together with soundness it is the
      exact maximum or minimum of -c*vx - s*vy + 200 over the box. */
  lemma XScalarsAttained(c: real, s: real, box: Box)
    requires Ordered(box)
    ensures exists vx, vy :: IsCorner(box, vx, vy) && ComputeXUp(c, s, box).scalar == XShift(c, s, vx, vy)
    ensures exists vx, vy :: IsCorner(box, vx, vy) && ComputeXLo(c, s, box).scalar == XShift(c, s, vx, vy)
  {
    var xl, xu, yl, yu := box.vxLower, box.vxUpper, box.vyLower, box.vyUpper;
    var ux, uy := UpperCorner(-c, xl, xu), UpperCorner(-s, yl, yu);
    var lx, ly := LowerCorner(-c, xl, xu), LowerCorner(-s, yl, yu);
    SupportsAtCorners(-c, xl, xu);
    SupportsAtCorners(-s, yl, yu);
    assert XShift(c, s, ux, uy) == (-c) * ux + NominalSpeed + (-s) * uy;
    assert XShift(c, s, lx, ly) == (-c) * lx + NominalSpeed + (-s) * ly;
    assert IsCorner(box, ux, uy) && ComputeXUp(c, s, box).scalar == XShift(c, s, ux, uy);
    assert IsCorner(box, lx, ly) && ComputeXLo(c, s, box).scalar == XShift(c, s, lx, ly);
  }

  /** Each y scalar is reached at a corner of the box. */
  lemma YScalarsAttained(c: real, s: real, box: Box)
    requires Ordered(box)
    ensures exists vx, vy :: IsCorner(box, vx, vy) && ComputeYUp(c, s, box).scalar == YShift(c, s, vx, vy)
    ensures exists vx, vy :: IsCorner(box, vx, vy) && ComputeYLo(c, s, box).scalar == YShift(c, s, vx, vy)
  {
    var xl, xu, yl, yu := box.vxLower, box.vxUpper, box.vyLower, box.vyUpper;
    var ux, uy := UpperCorner(s, xl, xu), UpperCorner(-c, yl, yu);
    var lx, ly := LowerCorner(s, xl, xu), LowerCorner(-c, yl, yu);
    SupportsAtCorners(s, xl, xu);
    SupportsAtCorners(-c, yl, yu);
    assert YShift(c, s, ux, uy) == s * ux + (-c) * uy;
    assert YShift(c, s, lx, ly) == s * lx + (-c) * ly;
    assert IsCorner(box, ux, uy) && ComputeYUp(c, s, box).scalar == YShift(c, s, ux, uy);
    assert IsCorner(box, lx, ly) && ComputeYLo(c, s, box).scalar == YShift(c, s, lx, ly);
  }

  /** The lower face never lies above the upper one, so the strip between them is not empty. */
  lemma FacesOrdered(c: real, s: real, box: Box)
    requires Ordered(box)
    ensures ComputeXLo(c, s, box).scalar <= ComputeXUp(c, s, box).scalar
    ensures ComputeYLo(c, s, box).scalar <= ComputeYUp(c, s, box).scalar
  {
    XFacesSound(c, s, box, box.vxLower, box.vyLower);
    YFacesSound(c, s, box, box.vxLower, box.vyLower);
  }

  /** The velocity (vx, vy) lies between all four faces built from the box. */
  predicate BetweenFaces(c: real, s: real, box: Box, vx: real, vy: real)
    requires Ordered(box)
  {
    ComputeXLo(c, s, box).scalar <= XShift(c, s, vx, vy) <= ComputeXUp(c, s, box).scalar &&
    ComputeYLo(c, s, box).scalar <= YShift(c, s, vx, vy) <= ComputeYUp(c, s, box).scalar
  }

  /** The box of an arc is ordered, so it may be handed to the builders, and it holds the
      velocity at both ends of the arc. */
  lemma ArcBoxFitsBuilders(t: Trig, lo: real, hi: real, speed: real)
    requires UnitBounded(t) && 0.0 <= speed
    ensures Ordered(ArcBox(t, lo, hi, speed))
    ensures InBox(ArcBox(t, lo, hi, speed), t.cos(lo) * speed, t.sin(lo) * speed)
    ensures InBox(ArcBox(t, lo, hi, speed), t.cos(hi) * speed, t.sin(hi) * speed)
  {
    BoxWithinSpeed(t, lo, hi, speed);
    EndpointsInBox(t, lo, hi, speed);
  }

  /** The velocities at both ends of the arc lie between the four faces built from the arc's box. */
  lemma ArcEndpointsSatisfyFaces(t: Trig, lo: real, hi: real, speed: real, c: real, s: real)
    requires UnitBounded(t) && 0.0 <= speed
    ensures Ordered(ArcBox(t, lo, hi, speed))
    ensures BetweenFaces(c, s, ArcBox(t, lo, hi, speed), t.cos(lo) * speed, t.sin(lo) * speed)
    ensures BetweenFaces(c, s, ArcBox(t, lo, hi, speed), t.cos(hi) * speed, t.sin(hi) * speed)
  {
    ArcBoxFitsBuilders(t, lo, hi, speed);
    var box := ArcBox(t, lo, hi, speed);
    XFacesSound(c, s, box, t.cos(lo) * speed, t.sin(lo) * speed);
    YFacesSound(c, s, box, t.cos(lo) * speed, t.sin(lo) * speed);
    XFacesSound(c, s, box, t.cos(hi) * speed, t.sin(hi) * speed);
    YFacesSound(c, s, box, t.cos(hi) * speed, t.sin(hi) * speed);
  }
}
