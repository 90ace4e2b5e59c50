/** The silhouette generator for round occluders
    (src/shaders/silhouette/geometry.ts).

    A circle is reduced to the two points at its radius on either side of
    the light-to-centre direction; the shadow between the rays through them
    is emitted as two triangles, and every vertex carries the two ray angles
    (for per-fragment angular masking) and a start/end distance pair (for a
    radial fade).  The `Debug.record` calls are left out.
 */
module SilhouetteGeometry {
  import opened Vec2Math
  import opened Cursor
  import opened Layout

  datatype CircleOccluder = CircleOccluder(origin: Vec2, radius: real)

  /** Position, angle-pair and distance-pair cursors after one occluder. */
  datatype Cursors = Cursors(pos: Float32Cursor, info: Float32Cursor, dist: Float32Cursor)

  /** How far past the occluder's centre the radial fade ends. */
  const FadeLength: real := 0.1

  const FloatsPerCursor: nat := 12

  /** Everything the source computes before it writes: the two edge points,
      the raw and adjusted ray angles, the ray endpoints and the distances. */
  datatype Rays = Rays(
    occluderA: Vec2, occluderB: Vec2,
    rawThetaA: real, thetaA: real, thetaB: real,
    endpointA: Vec2, endpointB: Vec2,
    startDist: real, endDist: real)

  /** The offset from the centre to edge point A: `radius` along the
      direction a quarter turn past the light-to-centre angle. */
  function EdgeOffset(m: MathLib, occluder: CircleOccluder, lightPosition: Vec2): Vec2 {
    var angleToLight := AngleBetween(m, lightPosition, occluder.origin);
    ScalarMult(ToUnitVector(m, AngleAdd(angleToLight, Pi / 2.0)), occluder.radius)
  }

  /** The wrap-around rule: when ray B's angle exceeds ray A's, ray A's is
      moved up by a full turn. */
  function WrapRayA(thetaA: real, thetaB: real): (r: real)
    ensures r == thetaA || r == thetaA + 2.0 * Pi
    ensures r == thetaA <==> thetaB <= thetaA
  {
    if thetaB > thetaA then Pi * 2.0 + thetaA else thetaA
  }

  function ComputeRays(m: MathLib, occluder: CircleOccluder, lightPosition: Vec2, lightRadius: real): Rays {
    var offset := EdgeOffset(m, occluder, lightPosition);
    var occluderA := Add(occluder.origin, offset);
    var thetaA := AngleBetween(m, lightPosition, occluderA);
    var endpointA := RayEndpoint(m, lightPosition, lightRadius, thetaA);
    var occluderB := Add(occluder.origin, Invert(offset));
    var thetaB := AngleBetween(m, lightPosition, occluderB);
    var endpointB := RayEndpoint(m, lightPosition, lightRadius, thetaB);
    var startDist := Magnitude(m, Add(occluder.origin, Invert(lightPosition)));
    Rays(occluderA, occluderB, thetaA, WrapRayA(thetaA, thetaB), thetaB,
      endpointA, endpointB, startDist, startDist + FadeLength)
  }

  function SilhouetteVertices(rays: Rays): seq<Vec2> {
    QuadVertices(rays.occluderA, rays.endpointA, rays.occluderB, rays.endpointB)
  }

  /** The angle pair (thetaA, thetaB), once per vertex. */
  function AnglePairs(rays: Rays): seq<real> {
    RepeatPair(rays.thetaA, rays.thetaB, VerticesPerOccluder)
  }

  /** The distance pair (start, end), once per vertex. */
  function DistancePairs(rays: Rays): seq<real> {
    RepeatPair(rays.startDist, rays.endDist, VerticesPerOccluder)
  }

  /** `SilhouetteOccluder.occlusionTriangles`: per vertex one position, the
      angle pair (thetaA, thetaB) and the distance pair (start, end). */
  function OcclusionTriangles(
    m: MathLib, pos: Float32Cursor, info: Float32Cursor, dist: Float32Cursor,
    occluder: CircleOccluder, lightPosition: Vec2, lightRadius: real): (r: Cursors)
    requires HasRoom(pos, FloatsPerCursor) && HasRoom(info, FloatsPerCursor) && HasRoom(dist, FloatsPerCursor)
    ensures Appended(pos, r.pos, Flatten(SilhouetteVertices(ComputeRays(m, occluder, lightPosition, lightRadius))))
    ensures Appended(info, r.info, AnglePairs(ComputeRays(m, occluder, lightPosition, lightRadius)))
    ensures Appended(dist, r.dist, DistancePairs(ComputeRays(m, occluder, lightPosition, lightRadius)))
  {
    var rays := ComputeRays(m, occluder, lightPosition, lightRadius);
    var tA, tB := rays.thetaA, rays.thetaB;
    var s, e := rays.startDist, rays.endDist;
    // Tri 1
    var p1 := PushVec2(pos, rays.occluderA);
    var i1 := Push2(info, tA, tB);
    var d1 := Push2(dist, s, e);
    var p2 := PushVec2(p1, rays.endpointA);
    var i2 := Push2(i1, tA, tB);
    var d2 := Push2(d1, s, e);
    var p3 := PushVec2(p2, rays.occluderB);
    var i3 := Push2(i2, tA, tB);
    var d3 := Push2(d2, s, e);
    // Tri 2
    var p4 := PushVec2(p3, rays.occluderB);
    var i4 := Push2(i3, tA, tB);
    var d4 := Push2(d3, s, e);
    var p5 := PushVec2(p4, rays.endpointA);
    var i5 := Push2(i4, tA, tB);
    var d5 := Push2(d4, s, e);
    var p6 := PushVec2(p5, rays.endpointB);
    var i6 := Push2(i5, tA, tB);
    var d6 := Push2(d5, s, e);
    var vs := SilhouetteVertices(rays);
    SixWrites(pos, p1, p2, p3, p4, p5, p6,
      [vs[0].x, vs[0].y], [vs[1].x, vs[1].y], [vs[2].x, vs[2].y],
      [vs[3].x, vs[3].y], [vs[4].x, vs[4].y], [vs[5].x, vs[5].y]);
    FlattenSix(vs);
    SixWrites(info, i1, i2, i3, i4, i5, i6, [tA, tB], [tA, tB], [tA, tB], [tA, tB], [tA, tB], [tA, tB]);
    RepeatPairSix(tA, tB);
    SixWrites(dist, d1, d2, d3, d4, d5, d6, [s, e], [s, e], [s, e], [s, e], [s, e], [s, e]);
    RepeatPairSix(s, e);
    Cursors(p6, i6, d6)
  }

  // ------------------------------------------------------------ properties

  /** The two edge points sit on opposite sides of the centre, at the same
      distance: the centre is their midpoint. */
  lemma EdgePointsSymmetric(m: MathLib, occluder: CircleOccluder, lightPosition: Vec2, lightRadius: real)
    ensures var rays := ComputeRays(m, occluder, lightPosition, lightRadius);
      && Sub(rays.occluderA, occluder.origin) == Invert(Sub(rays.occluderB, occluder.origin))
      && Add(rays.occluderA, rays.occluderB) == ScalarMult(occluder.origin, 2.0)
      && Sub(rays.occluderA, occluder.origin) == EdgeOffset(m, occluder, lightPosition)
  {
  }

  /** With `Math.atan2`'s range, the adjusted angle of ray A is at least that
      of ray B and less than a full turn above it, so the angular range
      (thetaB, thetaA) handed to the shader is a single arc. */
  lemma WrapOrdersRays(thetaA: real, thetaB: real)
    requires -Pi < thetaA <= Pi && -Pi < thetaB <= Pi
    ensures thetaB <= WrapRayA(thetaA, thetaB) < thetaB + 2.0 * Pi
  {
  }

  /** The same, for the angles the generator actually writes. */
  lemma InfoAnglesOrdered(m: MathLib, occluder: CircleOccluder, lightPosition: Vec2, lightRadius: real)
    requires Atan2InRange(m)
    ensures var rays := ComputeRays(m, occluder, lightPosition, lightRadius);
      rays.thetaB <= rays.thetaA < rays.thetaB + 2.0 * Pi
  {
    var rays := ComputeRays(m, occluder, lightPosition, lightRadius);
    AngleBetweenInRange(m, lightPosition, rays.occluderA);
    AngleBetweenInRange(m, lightPosition, rays.occluderB);
    WrapOrdersRays(rays.rawThetaA, rays.thetaB);
  }

  /** The endpoints are placed with the angles as `atan2` returned them; the
      wrap adjustment changes only the written angle, by a whole turn or not at all. */
  lemma EndpointsUseRawAngles(m: MathLib, occluder: CircleOccluder, lightPosition: Vec2, lightRadius: real)
    ensures var rays := ComputeRays(m, occluder, lightPosition, lightRadius);
      && rays.rawThetaA == m.atan2(rays.occluderA.y - lightPosition.y, rays.occluderA.x - lightPosition.x)
      && rays.thetaB == m.atan2(rays.occluderB.y - lightPosition.y, rays.occluderB.x - lightPosition.x)
      && Sub(rays.endpointA, lightPosition) == ScalarMult(ToUnitVector(m, rays.rawThetaA), lightRadius)
      && Sub(rays.endpointB, lightPosition) == ScalarMult(ToUnitVector(m, rays.thetaB), lightRadius)
      && (rays.thetaA == rays.rawThetaA || rays.thetaA == rays.rawThetaA + 2.0 * Pi)
  {
    var rays := ComputeRays(m, occluder, lightPosition, lightRadius);
    AngleBetweenIsAngleOfDifference(m, lightPosition, rays.occluderA);
    AngleBetweenIsAngleOfDifference(m, lightPosition, rays.occluderB);
  }

  /** The fade starts at the light-to-centre distance and ends a fixed 0.1 beyond. */
  lemma FadeDistances(m: MathLib, occluder: CircleOccluder, lightPosition: Vec2, lightRadius: real)
    ensures var rays := ComputeRays(m, occluder, lightPosition, lightRadius);
      && rays.startDist == Magnitude(m, Sub(occluder.origin, lightPosition))
      && rays.endDist - rays.startDist == 0.1
  {
    assert Add(occluder.origin, Invert(lightPosition)) == Sub(occluder.origin, lightPosition);
  }
}
