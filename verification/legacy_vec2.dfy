/** The older copy of the vector helpers (src/vec2.ts).

    Its `Angle.toUnitVector`, `Angle.add`, `Vec2.add`, `Vec2.invert` and
    `Vec2.scalarMult` are textually the same as those of src/geometry/vec2.ts
    and are the members of `Vec2Math`; what differs is `angleTo`, which
    subtracts componentwise instead of adding the inverted origin.
 */
module LegacyVec2 {
  import opened Vec2Math

  /** `Vec2.angleTo`: `Math.atan2(target.y - origin.y, target.x - origin.x)`. */
  function AngleTo(m: MathLib, origin: Vec2, target: Vec2): (r: real)
    ensures r == AngleBetween(m, origin, target)
  {
    m.atan2(target.y - origin.y, target.x - origin.x)
  }

  /** The angle is taken relative to `origin`: translating both points by
      the same vector does not change it. */
  lemma AngleToTranslationInvariant(m: MathLib, origin: Vec2, target: Vec2, shift: Vec2)
    ensures AngleTo(m, Add(origin, shift), Add(target, shift)) == AngleTo(m, origin, target)
  {
    assert (target.y + shift.y) - (origin.y + shift.y) == target.y - origin.y;
    assert (target.x + shift.x) - (origin.x + shift.x) == target.x - origin.x;
  }
}
