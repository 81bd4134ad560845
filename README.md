# Arc bounding box and rotated half-plane relaxation

This project models the geometric core of a reachability relaxation for an intruder that
moves on a circle of constant speed. The model has three parts.

- **The arc's bounding box** (`get_arc_bounding_box`). It takes the velocity arc
  `{(speed cos θ, speed sin θ) : psi_min ≤ θ ≤ psi_max}` and starts its axis-aligned box
  from the two endpoints. It then scans the four families of axis-extremal angles
  (0, π, π/2 and 3π/2, each plus `k` whole turns for `k` in −2..2). Every family that has
  an angle inside the interval clamps its bound to ±1. Finally the unit box is scaled by
  `speed`.
- **The four half-planes** (`compute_equation_info_xup/_xlo/_ylo/_yup`). They are built
  from a velocity box and a heading change `(c, s) = (cos Δψ, sin Δψ)`. One pair of faces
  bounds the next x coordinate, `c·x + s·y − x'`, by the extreme values of
  `−c·vx − s·vy + 200` over the box. The other pair bounds the next y coordinate,
  `−s·x + c·y − y'`, by the extreme values of `s·vx − c·vy`.
- **The trapezoid line constraints** (`psi_to_xy`, `tangent_line_coeffs`,
  `secant_line_coeffs`). These give a point of the circle, the tangent line at a point of
  the circle, and the secant line through two points. The secant reports an error when the
  two points coincide.

Modules:

- `RealMath` (`real_math.dfy`) holds π, Python's two-argument `min`/`max`, and the
  cosine/sine pair.
- `ArcBoundingBox` (`arc_bbox.dfy`) holds the box, the scanning method and its
  specification function `ArcBox`.
- `RotatedHalfPlanes` (`half_planes.dfy`) holds the four face builders and their soundness
  and exactness.
- `Trapezoid` (`trapezoid.dfy`) holds the point, tangent and secant constructions.

`math.cos` and `math.sin` are library calls. They are a parameter `t: Trig` (two functions
`real -> real`). The laws the proofs need are hypotheses of the lemmas that use them:

- `Pythagorean`: cos² + sin² = 1.
- `UnitBounded`: both functions stay in [−1, 1].
- `Extremal`: the values at the axis-extremal angles.

`get_arc_bounding_box` is a method with the source's four loops. It is proved equal to the
function `ArcBox`, and everything else is proved about `ArcBox`.

## Model

| member | source | states |
|---|---|---|
| ArcBoundingBox.GetArcBoundingBox | arc_bbox.py:8-65 | The four loops over k in −2..2 yield exactly `ArcBox`. Each loop invariant says the bound is ±1 once an angle of the family went through the check, and the endpoint min/max otherwise. |
| ArcBoundingBox.ScannedBelowStep | arc_bbox.py:37-58 | Trying one more offset k adds exactly the test `psi_min <= theta <= psi_max` for that k. |
| RealMath.TurnAsWritten | arc_bbox.py:38 | The source's angle `base + k*2*pi` is the model's `Turn(base, k)`. |
| RealMath.PythagoreanBounded | arc_bbox.py:22-25 | With cos² + sin² = 1, both functions stay inside [−1, 1]. |
| ArcBoundingBox.EndpointsInBox | arc_bbox.py:22-31 | Both endpoint velocities `(speed cos ψ, speed sin ψ)` lie in the returned box. |
| ArcBoundingBox.BoxWithinSpeed | arc_bbox.py:22-65 | Each axis of the returned box is ordered and lies inside [−speed, speed], for every interval, including an empty one. |
| ArcBoundingBox.ScaleUnitBox | arc_bbox.py:60-65 | Scaling an ordered unit box by a non-negative speed gives an ordered box inside [−speed, speed]². |
| ArcBoundingBox.ScaleKeepsArcPoint | arc_bbox.py:60-65 | Scaling by a non-negative speed keeps a unit-circle point of the unit box inside the scaled box. |
| ArcBoundingBox.UnitBoxBounds | arc_bbox.py:27-58 | Whichever families are detected, the unit bounds are ordered, lie in [−1, 1] and contain both endpoints. |
| ArcBoundingBox.CriticalAngleClamps | arc_bbox.py:36-58 | An extremal angle with offset in −2..2 inside the interval clamps its bound to +speed or −speed: `vx_upper` at 2πk, `vx_lower` at π + 2πk, `vy_upper` at π/2 + 2πk, `vy_lower` at 3π/2 + 2πk. |
| ArcBoundingBox.UnscannedBoundsAreEndpoints | arc_bbox.py:27-31 | A family with no scanned angle inside the interval leaves its bound at the scaled endpoint min or max. |
| ArcBoundingBox.UnitBoundsAttained | arc_bbox.py:22-58 | For a non-empty interval, each unit bound is cos or sin at some angle of the interval. |
| ArcBoundingBox.BoundsAttained | arc_bbox.py:8-65 | For a non-empty interval, every bound of the box is reached by a point of the arc, so the box is no larger than its endpoints and detected extremal angles make it. |
| ArcBoundingBox.FullCircle | arc_bbox.py:37-58 | [0, 2π] gives the square [−speed, speed]². |
| ArcBoundingBox.DegenerateIntervalIsPoint | arc_bbox.py:22-58 | [a, a] gives the point box at `(speed cos a, speed sin a)`, also when a is an extremal angle. |
| ArcBoundingBox.FirstQuadrant | arc_bbox.py:37-52 | [0, π/2] at speed 200 gives [0, 200] × [0, 200]. |
| ArcBoundingBox.WraparoundAtPi | arc_bbox.py:43-46 | [170°, 190°] contains π, so `vx_lower = −speed` and the other bounds come from the endpoints. |
| ArcBoundingBox.ScanMissesThirdTurn | arc_bbox.py:37-40 | As written: on [5.5π, 6.5π] the angle 6π lies inside, but `vx_upper` is 0, so the arc point (speed, 0) is outside the box. |
| ArcBoundingBox.FirstTurnFrom | arc_bbox.py:37-58 | The least number of turns that brings a base angle to `lo` or beyond. |
| ArcBoundingBox.FirstTurnIsLeast | arc_bbox.py:37-58 | No smaller number of turns reaches `lo`. |
| ArcBoundingBox.CriticalInside | arc_bbox.py:36-58 | True exactly when some angle of the family, at any number of turns, lies in the interval. |
| ArcBoundingBox.AllTurnsClampEveryTurn | arc_bbox.py:36-58 | Corrected: every extremal angle in the interval, at any number of turns, clamps its bound to the coordinate of the arc point there. |
| ArcBoundingBox.AllTurnsHoldsThirdTurn | arc_bbox.py:37-40 | Corrected: the point that the bounded scan misses on [5.5π, 6.5π] lies in the corrected box. |
| ArcBoundingBox.AllTurnsAgreesInsideWindow | arc_bbox.py:37-58 | The corrected box equals the box as written whenever −4.5π < psi_min and psi_max < 6π. |
| RotatedHalfPlanes.MaxMinAreSupports | arc_bbox.py:79-80 | Python's `max`/`min` of the two end products is the sign-chosen support of k·v over [lo, hi]. |
| RotatedHalfPlanes.SupportsBound | arc_bbox.py:79-80 | Every k·v with v in [lo, hi] lies between the two supports. |
| RotatedHalfPlanes.ComputeXUp | arc_bbox.py:71-84 | Coefficients [c, s, −1]. The scalar is the upper support of −c·vx, plus 200, plus the upper support of −s·vy. The source asserts an ordered box, and so does the requires. |
| RotatedHalfPlanes.ComputeXLo | arc_bbox.py:87-95 | Coefficients [c, s, −1]. The scalar is the sum of the lower supports, plus 200. |
| RotatedHalfPlanes.ComputeYLo | arc_bbox.py:99-107 | Coefficients [−s, c, −1]. The scalar is the lower support of s·vx plus the lower support of −c·vy. |
| RotatedHalfPlanes.ComputeYUp | arc_bbox.py:110-119 | Coefficients [−s, c, −1]. The scalar is the sum of the upper supports. |
| RotatedHalfPlanes.XFacesSound | arc_bbox.py:70-95 | For every velocity of the box, `xlo.scalar ≤ −c·vx − s·vy + 200 ≤ xup.scalar`. |
| RotatedHalfPlanes.YFacesSound | arc_bbox.py:98-119 | For every velocity of the box, `ylo.scalar ≤ s·vx − c·vy ≤ yup.scalar`. |
| RotatedHalfPlanes.XFacesHoldForSuccessor | arc_bbox.py:70-95 | A successor x' under `c·x + s·y − x' = −c·vx − s·vy + 200`, with a velocity of the box, satisfies both x faces. |
| RotatedHalfPlanes.YFacesHoldForSuccessor | arc_bbox.py:98-119 | A successor y' under `−s·x + c·y − y' = s·vx − c·vy`, with a velocity of the box, satisfies both y faces. |
| RotatedHalfPlanes.SupportsAtCorners | arc_bbox.py:79-80 | Each support is the product at the end of the interval that the sign of k picks. |
| RotatedHalfPlanes.XScalarsAttained | arc_bbox.py:79-82 | Each x scalar is reached at a corner of the box, so it is the exact maximum or minimum over the box. |
| RotatedHalfPlanes.YScalarsAttained | arc_bbox.py:114-117 | Each y scalar is reached at a corner of the box. |
| RotatedHalfPlanes.FacesOrdered | arc_bbox.py:71-119 | The lower face's scalar never exceeds the upper face's, for both pairs. |
| RotatedHalfPlanes.ArcBoxFitsBuilders | arc_bbox.py:72-73 | The box of any arc meets the builders' ordering asserts and holds both endpoint velocities. |
| RotatedHalfPlanes.ArcEndpointsSatisfyFaces | arc_bbox.py:8-119 | The endpoint velocities of an arc lie between all four faces built from that arc's box. |
| Trapezoid.PsiToXY | trapezoid.py:8-11 | The point `(r cos ψ, r sin ψ)`, with a default radius of 200. Under cos² + sin² = 1 it lies at squared distance r² from the origin. |
| Trapezoid.DefaultRadiusCircle | trapezoid.py:8 | With the default radius the squared distance is 40000. |
| Trapezoid.TangentLineCoeffs | trapezoid.py:14-15 | A = x and B = y. The line passes through P and takes the value −(x² + y²) at the origin. |
| Trapezoid.TangentAtOriginIsMinusRadiusSquared | trapezoid.py:9-10 | At a circle point `psi_to_xy(ψ, r)`, the tangent takes the value −r² at the origin. |
| Trapezoid.DotBound | trapezoid.py:15 | 2·(P·Q) ≤ \|P\|² + \|Q\|². |
| Trapezoid.TangentSeparatesDisk | trapezoid.py:15 | Every Q with \|Q\| ≤ \|P\| has tangent(P)(Q) ≤ 0, strictly when \|Q\| < \|P\|. |
| Trapezoid.CircleBelowEveryTangent | trapezoid.py:8-15 | Every point of the circle lies on the ≤ 0 side of the tangent at any other point of that circle. |
| Trapezoid.SecantLineCoeffs | trapezoid.py:18-26 | Err exactly when x1 = x2 and y1 = y2. Otherwise the line passes through both points and (A, B) ≠ (0, 0). |
| Trapezoid.SecantEvalIsCross | trapezoid.py:22-24 | The secant's value at q is −((P2 − P1) × (q − P1)). |
| Trapezoid.SecantSide | trapezoid.py:22-26 | For distinct points the call succeeds, and its value at q is minus that cross product: zero exactly on the line, signed by the side. |
| Trapezoid.SecantAtOrigin | trapezoid.py:22-26 | The secant's value at the origin is −(x1·y2 − x2·y1). |
| Trapezoid.SecantSwap | trapezoid.py:22-26 | Swapping the two points negates A, B and C. |

## Left out

- `getthetarho` (arc_bbox.py:121-124) is left out. It only calls `math.hypot` and `math.atan2`, which are library functions with nothing of the core to state.
- The commented matplotlib example (arc_bbox.py:126 onwards) and the `__main__` demo of trapezoid.py (numpy, matplotlib, printing) are left out. They are I/O and plotting.
- `barrier_loader.py` is not part of this model. It wraps onnx/torch loading.
- `add_argmax_output_constraints.py` is not part of this model. It is network-constraint plumbing over external libraries.
- Floating point is left out. All arithmetic is over exact reals. `math.pi` is the exact decimal of the double, 3.141592653589793, and a whole turn is written as its double 6.283185307179586. Rounding effects such as `cos(pi/2)` not being exactly 0 are therefore not modelled.
- `math.cos`/`math.sin` are parameters, not definitions. Their laws are hypotheses of the lemmas that need them, and are not proved from a definition.
- ArcBoundingBox.BoundsAttained: states that every bound is reached by an arc point, but not that interior arc points lie inside the box. That needs monotonicity of cos and sin between extremal angles, which the hypotheses do not give.
- Trapezoid.TangentSeparatesDisk: states strictness only for points strictly inside the disk. It does not state that the tangent touches the circle only at P.
- RotatedHalfPlanes.ComputeXUp: the Python `assert` on the box's ordering is a precondition here. The AssertionError path for an unordered box is not modelled. The same holds for ComputeXLo, ComputeYLo and ComputeYUp.
- The caller's `(cos Δψ, sin Δψ)` pair is taken as given. The builders do not check that it lies on the unit circle, and neither does the model.
- The comment at arc_bbox.py:4-5 gives the x dynamics as `cos·x − sin·y − x'`. The code (arc_bbox.py:70-84) uses coefficients `[cos, sin, −1]`, and the model follows the code.
- The Python dictionary with keys `vx_lower`, `vx_upper`, `vy_lower`, `vy_upper` is the record `Box`. The coefficient list plus scalar is the record `HalfPlane`.

## Findings

| source | as written | input that shows it | evidently intended | confidence | as-written member | corrected member |
|---|---|---|---|---|---|---|
| arc_bbox.py:37-58 | The extremal angles are tried only for `k in range(-2, 3)`, so an interval whose extremal angle needs another number of turns is not clamped. | `psi_min = 5.5π`, `psi_max = 6.5π`: 6π lies inside, but `vx_upper` stays at the endpoint maximum 0, so the arc point (speed, 0) is outside the box. | Every extremal angle inside the interval clamps its bound, at any number of turns. | not executed | ArcBoundingBox.ScanMissesThirdTurn | ArcBoundingBox.AllTurnsClampEveryTurn |
