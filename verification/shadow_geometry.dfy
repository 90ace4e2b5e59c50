/** The hard-shadow triangle generator with per-vertex opacity
    (src/shaders/shadow/geometry.ts).

    The source calls `Vec2.angleTo` on the module of src/geometry/vec2.ts,
    which declares no such function, so the call fails as written.  It is
    read as `angleBetween`, the evidently intended function, which
    computes the same `atan2(target - origin)` as `angleTo` of src/vec2.ts
    (`LegacyVec2.AngleTo`).
 */
module ShadowGeometry {
  import opened Vec2Math
  import opened Cursor
  import opened Layout

  /** A segment that blocks light, with the opacity of its shadow. */
  datatype SimpleOccluder = SimpleOccluder(a: Vec2, b: Vec2, alpha: real)

  /** Position and opacity cursors after one occluder has been written. */
  datatype Cursors = Cursors(data: Float32Cursor, alpha: Float32Cursor)

  const PositionFloats: nat := 12
  const AlphaFloats: nat := 6

  /** The ray angle from the light through `target`. */
  function RayAngle(m: MathLib, lightPosition: Vec2, target: Vec2): real {
    AngleBetween(m, lightPosition, target)
  }

  /** Where the ray from the light through `target` reaches the light's radius. */
  function Endpoint(m: MathLib, lightPosition: Vec2, lightRadius: real, target: Vec2): Vec2 {
    RayEndpoint(m, lightPosition, lightRadius, RayAngle(m, lightPosition, target))
  }

  /** The six vertices the generator emits for one occluder. */
  function ShadowVertices(m: MathLib, occluder: SimpleOccluder, lightPosition: Vec2, lightRadius: real): seq<Vec2> {
    QuadVertices(
      occluder.a, Endpoint(m, lightPosition, lightRadius, occluder.a),
      occluder.b, Endpoint(m, lightPosition, lightRadius, occluder.b))
  }

  /** `SimpleOccluder.occlusionTriangles`: one vertex position and one alpha
      per step, in the order a, endpointA, b, b, endpointA, endpointB. */
  function OcclusionTriangles(
    m: MathLib, data: Float32Cursor, alpha: Float32Cursor,
    occluder: SimpleOccluder, lightPosition: Vec2, lightRadius: real): (r: Cursors)
    requires HasRoom(data, PositionFloats) && HasRoom(alpha, AlphaFloats)
    ensures Appended(data, r.data, Flatten(QuadVertices(
      occluder.a, Endpoint(m, lightPosition, lightRadius, occluder.a),
      occluder.b, Endpoint(m, lightPosition, lightRadius, occluder.b))))
    ensures Appended(alpha, r.alpha, Repeat(occluder.alpha, AlphaFloats))
  {
    var endpointA := RayEndpoint(m, lightPosition, lightRadius, RayAngle(m, lightPosition, occluder.a));
    var endpointB := RayEndpoint(m, lightPosition, lightRadius, RayAngle(m, lightPosition, occluder.b));
    var op := occluder.alpha;
    // Triangle 1
    var d1 := PushVec2(data, occluder.a);
    var a1 := Push(alpha, op);
    var d2 := PushVec2(d1, endpointA);
    var a2 := Push(a1, op);
    var d3 := PushVec2(d2, occluder.b);
    var a3 := Push(a2, op);
    // Triangle 2
    var d4 := PushVec2(d3, occluder.b);
    var a4 := Push(a3, op);
    var d5 := PushVec2(d4, endpointA);
    var a5 := Push(a4, op);
    var d6 := PushVec2(d5, endpointB);
    var a6 := Push(a5, op);
    var vs := ShadowVertices(m, occluder, lightPosition, lightRadius);
    SixWrites(data, d1, d2, d3, d4, d5, d6,
      [vs[0].x, vs[0].y], [vs[1].x, vs[1].y], [vs[2].x, vs[2].y],
      [vs[3].x, vs[3].y], [vs[4].x, vs[4].y], [vs[5].x, vs[5].y]);
    FlattenSix(vs);
    SixWrites(alpha, a1, a2, a3, a4, a5, a6, [op], [op], [op], [op], [op], [op]);
    assert [op] + [op] + [op] + [op] + [op] + [op] == Repeat(op, AlphaFloats);
    Cursors(d6, a6)
  }

  // ------------------------------------------------------------ properties

  /** Each endpoint lies on the ray from the light towards its occluder end,
      `lightRadius` along the unit vector of that ray's angle. */
  lemma EndpointsOnRays(m: MathLib, occluder: SimpleOccluder, lightPosition: Vec2, lightRadius: real)
    ensures var vs := ShadowVertices(m, occluder, lightPosition, lightRadius);
      && Sub(vs[1], lightPosition)
         == ScalarMult(ToUnitVector(m, m.atan2(occluder.a.y - lightPosition.y, occluder.a.x - lightPosition.x)), lightRadius)
      && Sub(vs[5], lightPosition)
         == ScalarMult(ToUnitVector(m, m.atan2(occluder.b.y - lightPosition.y, occluder.b.x - lightPosition.x)), lightRadius)
  {
    AngleBetweenIsAngleOfDifference(m, lightPosition, occluder.a);
    AngleBetweenIsAngleOfDifference(m, lightPosition, occluder.b);
  }

  /** A zero-length occluder yields a well-formed but degenerate pair of
      triangles: vertices 0, 2, 3 coincide and so do 1, 4, 5. */
  lemma DegenerateOccluder(m: MathLib, occluder: SimpleOccluder, lightPosition: Vec2, lightRadius: real)
    requires occluder.a == occluder.b
    ensures var vs := ShadowVertices(m, occluder, lightPosition, lightRadius);
      vs[0] == vs[2] == vs[3] && vs[1] == vs[4] == vs[5]
  {
  }
}
