/** Two-dimensional vector and angle primitives (src/geometry/vec2.ts).

    Coordinates are mathematical reals: Float32/Float64 rounding is not
    modelled.  The transcendental functions of JavaScript's `Math` object are
    not defined here; every operation that needs one receives them through a
    `MathLib` value, so nothing is assumed about them except where a lemma
    states its assumption in a `requires`.
 */
module Vec2Math {

  /** `Math.PI`, written as the shortest decimal that denotes that double. */
  const Pi: real := 3.141592653589793

  /** The uninterpreted parts of JavaScript's `Math` object. */
  datatype MathLib = MathLib(
    atan2: (real, real) -> real,
    cos: real -> real,
    sin: real -> real,
    hypot: (real, real) -> real)

  /** `Math.atan2` returns an angle in (-pi, pi]. */
  ghost predicate Atan2InRange(m: MathLib) {
    forall y: real, x: real :: -Pi < m.atan2(y, x) <= Pi
  }

  datatype Vec2 = Vec2(x: real, y: real)

  const Zero: Vec2 := Vec2(0.0, 0.0)

  /** Dot product and squared length, used only to state properties. */
  function Dot(u: Vec2, v: Vec2): real {
    u.x * v.x + u.y * v.y
  }

  function NormSq(v: Vec2): real {
    Dot(v, v)
  }

  /** Componentwise difference, an independent reference for `add(invert(o), t)`. */
  function Sub(t: Vec2, o: Vec2): Vec2 {
    Vec2(t.x - o.x, t.y - o.y)
  }

  // ---------------------------------------------------------------- Angle

  /** `Angle.toUnitVector`: the point at angle `theta` on the unit circle. */
  function ToUnitVector(m: MathLib, theta: real): Vec2 {
    Vec2(m.cos(theta), m.sin(theta))
  }

  /** `Angle.add`: angles are added without any wrapping. */
  function AngleAdd(angle: real, delta: real): (r: real)
    ensures r - angle == delta
  {
    angle + delta
  }

  // ----------------------------------------------------------------- Vec2

  /** `Vec2.add`. */
  function Add(a: Vec2, b: Vec2): (r: Vec2)
    ensures Sub(r, b) == a && Sub(r, a) == b
  {
    Vec2(a.x + b.x, a.y + b.y)
  }

  /** `Vec2.perpendicular`: rotation by +90 degrees.  The doc comment in the
      source calls the result a unit vector; it is only as long as `v`. */
  function Perpendicular(v: Vec2): (r: Vec2)
    ensures Dot(v, r) == 0.0
    ensures NormSq(r) == NormSq(v)
    ensures v.x * r.y - v.y * r.x == NormSq(v)
  {
    Vec2(-v.y, v.x)
  }

  /** `Vec2.magnitude`, via `Math.hypot`. */
  function Magnitude(m: MathLib, v: Vec2): real {
    m.hypot(v.x, v.y)
  }

  /** `Vec2.angle`, via `Math.atan2(y, x)`: note the argument order. */
  function Angle(m: MathLib, v: Vec2): real {
    m.atan2(v.y, v.x)
  }

  /** `Vec2.invert`: multiplication of both components by -1. */
  function Invert(v: Vec2): (r: Vec2)
    ensures Add(v, r) == Zero
  {
    Vec2(v.x * -1.0, v.y * -1.0)
  }

  /** `Vec2.angleBetween`: the angle of the ray from `origin` to `target`. */
  function AngleBetween(m: MathLib, origin: Vec2, target: Vec2): real {
    Angle(m, Add(Invert(origin), target))
  }

  /** `Vec2.scalarMult`.  Its geometric meaning (parallel to `v`, length
      scaled by `|scalar|`) is `ScalarMultScales`, kept out of this contract
      so that it is not unfolded wherever an endpoint is placed. */
  function ScalarMult(v: Vec2, scalar: real): (r: Vec2)
    ensures scalar == 1.0 ==> r == v
    ensures scalar == -1.0 ==> r == Invert(v)
    ensures scalar == 0.0 ==> r == Zero
  {
    Vec2(v.x * scalar, v.y * scalar)
  }

  // ------------------------------------------------------------ properties

  lemma AddCommutative(a: Vec2, b: Vec2)
    ensures Add(a, b) == Add(b, a)
  {
  }

  lemma AddAssociative(a: Vec2, b: Vec2, c: Vec2)
    ensures Add(Add(a, b), c) == Add(a, Add(b, c))
  {
  }

  lemma InvertInvolution(v: Vec2)
    ensures Invert(Invert(v)) == v
  {
  }

  /** Scaling keeps the line of `v` (the result is orthogonal to `v`'s
      perpendicular), multiplies the squared length by `scalar * scalar`, and
      points along `v` or against it as `scalar` is positive or negative. */
  lemma ScalarMultScales(v: Vec2, scalar: real)
    ensures Dot(ScalarMult(v, scalar), Perpendicular(v)) == 0.0
    ensures NormSq(ScalarMult(v, scalar)) == scalar * scalar * NormSq(v)
    ensures Dot(ScalarMult(v, scalar), v) == scalar * NormSq(v)
  {
  }

  lemma PerpendicularTwice(v: Vec2)
    ensures Perpendicular(Perpendicular(v)) == Invert(v)
  {
  }

  /** A witness that `perpendicular` does not return a unit vector in general. */
  lemma PerpendicularNotUnit()
    ensures NormSq(Perpendicular(Vec2(2.0, 0.0))) == 4.0
  {
  }

  /** `angleBetween(o, t)` is the angle of the difference `t - o`. */
  lemma AngleBetweenIsAngleOfDifference(m: MathLib, origin: Vec2, target: Vec2)
    ensures AngleBetween(m, origin, target) == m.atan2(target.y - origin.y, target.x - origin.x)
    ensures AngleBetween(m, origin, target) == Angle(m, Sub(target, origin))
  {
  }

  /** Under the `Math.atan2` range, so is every `angleBetween`. */
  lemma AngleBetweenInRange(m: MathLib, origin: Vec2, target: Vec2)
    requires Atan2InRange(m)
    ensures -Pi < AngleBetween(m, origin, target) <= Pi
  {
  }
}
