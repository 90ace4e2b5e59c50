/** The silhouette generator for segment occluders (src/silhouette_occluder.ts).

    Like the hard-shadow generator, but instead of an opacity each vertex
    carries a side tag: 0 for the vertices on ray A, 1 for those on ray B.
    The angles come from `angleTo` of src/vec2.ts.  The cursor comes from
    `./cursor`, that is src/cursor.ts, which is not part of this model; it is
    taken to behave like src/util/cursor.ts, modelled by `Cursor`.
 */
module SegmentSilhouette {
  import opened Vec2Math
  import opened Cursor
  import opened Layout
  import LegacyVec2

  datatype SegmentOccluder = SegmentOccluder(a: Vec2, b: Vec2)

  /** Position and side-tag cursors after one occluder. */
  datatype Cursors = Cursors(pos: Float32Cursor, info: Float32Cursor)

  const PositionFloats: nat := 12
  const TagFloats: nat := 6

  /** The tags in the order the source writes them. */
  const SideTags: seq<real> := [0.0, 0.0, 1.0, 1.0, 0.0, 1.0]

  function Endpoint(m: MathLib, lightPosition: Vec2, lightRadius: real, target: Vec2): Vec2 {
    RayEndpoint(m, lightPosition, lightRadius, LegacyVec2.AngleTo(m, lightPosition, target))
  }

  function SegmentVertices(m: MathLib, occluder: SegmentOccluder, lightPosition: Vec2, lightRadius: real): seq<Vec2> {
    QuadVertices(
      occluder.a, Endpoint(m, lightPosition, lightRadius, occluder.a),
      occluder.b, Endpoint(m, lightPosition, lightRadius, occluder.b))
  }

  /** `SilhouetteOccluder.occlusionTriangles`. */
  function OcclusionTriangles(
    m: MathLib, pos: Float32Cursor, info: Float32Cursor,
    occluder: SegmentOccluder, lightPosition: Vec2, lightRadius: real): (r: Cursors)
    requires HasRoom(pos, PositionFloats) && HasRoom(info, TagFloats)
    ensures Appended(pos, r.pos, Flatten(SegmentVertices(m, occluder, lightPosition, lightRadius)))
    ensures Appended(info, r.info, SideTags)
  {
    var endpointA := Endpoint(m, lightPosition, lightRadius, occluder.a);
    var endpointB := Endpoint(m, lightPosition, lightRadius, occluder.b);
    // Tri 1
    var p1 := PushVec2(pos, occluder.a);
    var i1 := Push(info, 0.0);
    var p2 := PushVec2(p1, endpointA);
    var i2 := Push(i1, 0.0);
    var p3 := PushVec2(p2, occluder.b);
    var i3 := Push(i2, 1.0);
    // Tri 2
    var p4 := PushVec2(p3, occluder.b);
    var i4 := Push(i3, 1.0);
    var p5 := PushVec2(p4, endpointA);
    var i5 := Push(i4, 0.0);
    var p6 := PushVec2(p5, endpointB);
    var i6 := Push(i5, 1.0);
    var vs := SegmentVertices(m, occluder, lightPosition, lightRadius);
    SixWrites(pos, p1, p2, p3, p4, p5, p6,
      [vs[0].x, vs[0].y], [vs[1].x, vs[1].y], [vs[2].x, vs[2].y],
      [vs[3].x, vs[3].y], [vs[4].x, vs[4].y], [vs[5].x, vs[5].y]);
    FlattenSix(vs);
    SixWrites(info, i1, i2, i3, i4, i5, i6, [0.0], [0.0], [1.0], [1.0], [0.0], [1.0]);
    assert [0.0] + [0.0] + [1.0] + [1.0] + [0.0] + [1.0] == SideTags;
    Cursors(p6, i6)
  }

  // ------------------------------------------------------------ properties

  /** Every vertex taken from `a` or endpoint A is tagged 0, every vertex
      taken from `b` or endpoint B is tagged 1. */
  lemma TagsFollowSides()
    ensures |SideTags| == |TriangleOrder|
    ensures forall i :: 0 <= i < |SideTags| ==>
      (SideTags[i] == 0.0 <==> OnSideA(TriangleOrder[i])) &&
      (SideTags[i] == 1.0 <==> !OnSideA(TriangleOrder[i]))
  {
  }

  /** The endpoints agree with those of the hard-shadow generator, whose
      angles come from `angleBetween` instead of `angleTo`. */
  lemma EndpointsOnRays(m: MathLib, occluder: SegmentOccluder, lightPosition: Vec2, lightRadius: real)
    ensures var vs := SegmentVertices(m, occluder, lightPosition, lightRadius);
      && Sub(vs[1], lightPosition)
         == ScalarMult(ToUnitVector(m, AngleBetween(m, lightPosition, occluder.a)), lightRadius)
      && Sub(vs[5], lightPosition)
         == ScalarMult(ToUnitVector(m, AngleBetween(m, lightPosition, occluder.b)), lightRadius)
  {
  }
}
