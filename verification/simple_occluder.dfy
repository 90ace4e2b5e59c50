/** The earliest triangle generator, which writes at an explicit offset into
    a raw array instead of through a cursor (src/simple_occluder.ts).

    The array is a value here: the function returns the array after the
    twelve writes.  The source's `Vec2.angleTo` names a function that the
    module of src/geometry/vec2.ts does not define, so the call fails as
    written; it is read as `angleBetween`, as in `ShadowGeometry`.
 */
module OffsetOccluder {
  import opened Vec2Math
  import opened Cursor
  import opened Layout
  import ShadowGeometry

  datatype SimpleOccluder = SimpleOccluder(a: Vec2, b: Vec2)

  const PositionFloats: nat := 12

  function OffsetVertices(m: MathLib, occluder: SimpleOccluder, lightPosition: Vec2, lightRadius: real): seq<Vec2> {
    QuadVertices(
      occluder.a, ShadowGeometry.Endpoint(m, lightPosition, lightRadius, occluder.a),
      occluder.b, ShadowGeometry.Endpoint(m, lightPosition, lightRadius, occluder.b))
  }

  /** `SimpleOccluder.occlusionTriangles`: exactly `out[offset .. offset + 12)`
      is overwritten, with the six vertices x before y. */
  function OcclusionTriangles(
    m: MathLib, out: seq<real>, offset: nat,
    occluder: SimpleOccluder, lightPosition: Vec2, lightRadius: real): (r: seq<real>)
    requires offset + PositionFloats <= |out|
    ensures |r| == |out|
    ensures forall j :: 0 <= j < PositionFloats ==>
      r[offset + j] == Flatten(OffsetVertices(m, occluder, lightPosition, lightRadius))[j]
    ensures forall i :: 0 <= i < |out| && !(offset <= i < offset + PositionFloats) ==> r[i] == out[i]
  {
    var endpointA := ShadowGeometry.Endpoint(m, lightPosition, lightRadius, occluder.a);
    var endpointB := ShadowGeometry.Endpoint(m, lightPosition, lightRadius, occluder.b);
    FlattenSix(OffsetVertices(m, occluder, lightPosition, lightRadius));
    out
      // Tri 1
      [offset := occluder.a.x]
      [offset + 1 := occluder.a.y]
      [offset + 2 := endpointA.x]
      [offset + 3 := endpointA.y]
      [offset + 4 := occluder.b.x]
      [offset + 5 := occluder.b.y]
      // Tri 2
      [offset + 6 := occluder.b.x]
      [offset + 7 := occluder.b.y]
      [offset + 8 := endpointA.x]
      [offset + 9 := endpointA.y]
      [offset + 10 := endpointB.x]
      [offset + 11 := endpointB.y]
  }

  // ------------------------------------------------------------ properties

  /** The shared edge of the two triangles appears twice in the array:
      slots 2-3 and 8-9 both hold endpoint A, slots 4-5 and 6-7 both hold `b`. */
  lemma RepeatedVertices(m: MathLib, out: seq<real>, offset: nat, occluder: SimpleOccluder, lightPosition: Vec2, lightRadius: real)
    requires offset + PositionFloats <= |out|
    ensures var r := OcclusionTriangles(m, out, offset, occluder, lightPosition, lightRadius);
      && r[offset + 2] == r[offset + 8] && r[offset + 3] == r[offset + 9]
      && r[offset + 4] == r[offset + 6] && r[offset + 5] == r[offset + 7]
      && r[offset] == occluder.a.x && r[offset + 1] == occluder.a.y
      && r[offset + 4] == occluder.b.x && r[offset + 5] == occluder.b.y
  {
    var r := OcclusionTriangles(m, out, offset, occluder, lightPosition, lightRadius);
    var f := Flatten(OffsetVertices(m, occluder, lightPosition, lightRadius));
    assert r[offset + 2] == f[2] && r[offset + 8] == f[8];
    assert r[offset + 3] == f[3] && r[offset + 9] == f[9];
    assert r[offset + 4] == f[4] && r[offset + 6] == f[6];
    assert r[offset + 5] == f[5] && r[offset + 7] == f[7];
    assert r[offset] == f[0] && r[offset + 1] == f[1];
  }

  /** Writing at an offset is the same as writing through a cursor that
      stands at that offset: the two generators of the source agree. */
  lemma AgreesWithCursorWriter(m: MathLib, out: seq<real>, offset: nat, occluder: SimpleOccluder, lightPosition: Vec2, lightRadius: real, alpha: Float32Cursor)
    requires offset + PositionFloats <= |out|
    requires HasRoom(alpha, ShadowGeometry.AlphaFloats)
    ensures
      var withAlpha := ShadowGeometry.SimpleOccluder(occluder.a, occluder.b, 1.0);
      var viaCursor := ShadowGeometry.OcclusionTriangles(m, Float32Cursor(out, offset), alpha, withAlpha, lightPosition, lightRadius);
      viaCursor.data.buffer == OcclusionTriangles(m, out, offset, occluder, lightPosition, lightRadius)
  {
    var withAlpha := ShadowGeometry.SimpleOccluder(occluder.a, occluder.b, 1.0);
    var viaCursor := ShadowGeometry.OcclusionTriangles(m, Float32Cursor(out, offset), alpha, withAlpha, lightPosition, lightRadius);
    var direct := OcclusionTriangles(m, out, offset, occluder, lightPosition, lightRadius);
    assert ShadowGeometry.ShadowVertices(m, withAlpha, lightPosition, lightRadius)
        == OffsetVertices(m, occluder, lightPosition, lightRadius);
    assert Appended(Float32Cursor(out, offset), Float32Cursor(direct, offset + PositionFloats),
      Flatten(OffsetVertices(m, occluder, lightPosition, lightRadius)));
    AppendedDeterministic(Float32Cursor(out, offset), viaCursor.data,
      Float32Cursor(direct, offset + PositionFloats), Flatten(OffsetVertices(m, occluder, lightPosition, lightRadius)));
  }
}
