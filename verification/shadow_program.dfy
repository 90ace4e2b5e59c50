/** The CPU half of `ShadowProgram.recalculateOcclusions`
    (src/shaders/shadow/program.ts): sizing the vertex arrays, running the
    hard-shadow generator once per occluder, and the draw count.

    The WebGL buffer upload and the draw call are left out.  The source
    calls the five-parameter generator with six arguments
    (`lightPosition, lightHeight, 5.0`); JavaScript binds `lightHeight` to
    the `lightRadius` parameter and drops the `5.0`, and so does this model.
 */
module ShadowProgram {
  import opened Vec2Math
  import opened Cursor
  import opened Layout
  import opened ShadowGeometry

  /** The arrays handed to the renderer and the vertex count it draws. */
  datatype Occlusions = Occlusions(positions: Float32Cursor, alpha: Float32Cursor, numElements: nat)

  /** Occluder i's contribution to the position array: its six vertices. */
  function PositionChunks(m: MathLib, occluders: seq<SimpleOccluder>, lightPosition: Vec2, lightRadius: real): (r: seq<seq<real>>)
    ensures |r| == |occluders| && Uniform(r, PositionFloats)
  {
    seq(|occluders|, i requires 0 <= i < |occluders| =>
      Flatten(ShadowVertices(m, occluders[i], lightPosition, lightRadius)))
  }

  /** Occluder i's contribution to the alpha array: its opacity, once per vertex. */
  function AlphaChunks(occluders: seq<SimpleOccluder>): (r: seq<seq<real>>)
    ensures |r| == |occluders| && Uniform(r, AlphaFloats)
  {
    seq(|occluders|, i requires 0 <= i < |occluders| => Repeat(occluders[i].alpha, AlphaFloats))
  }

  /** `recalculateOcclusions`: fresh arrays of 12k and 6k floats for k
      occluders, filled exactly, with `numElements` the number of vertices. */
  method RecalculateOcclusions(m: MathLib, lightPosition: Vec2, lightHeight: real, occluders: seq<SimpleOccluder>)
    returns (r: Occlusions)
    ensures |r.positions.buffer| == PositionFloats * |occluders| == r.positions.offset
    ensures |r.alpha.buffer| == AlphaFloats * |occluders| == r.alpha.offset
    ensures r.numElements == VerticesPerOccluder * |occluders| && 2 * r.numElements == r.positions.offset
    ensures r.positions.buffer == Concat(PositionChunks(m, occluders, lightPosition, lightHeight))
    ensures r.alpha.buffer == Concat(AlphaChunks(occluders))
  {
    var positions := New(Zeros(|occluders| * 12));
    var alpha := New(Zeros(|occluders| * 6));
    var i := 0;
    while i < |occluders|
      invariant 0 <= i <= |occluders|
      invariant |positions.buffer| == PositionFloats * |occluders| && positions.offset == PositionFloats * i
      invariant |alpha.buffer| == AlphaFloats * |occluders| && alpha.offset == AlphaFloats * i
      invariant Filled(m, occluders[..i], lightPosition, lightHeight, positions, alpha)
    {
      var step := OcclusionTriangles(m, positions, alpha, occluders[i], lightPosition, lightHeight);
      StepExtendsStreams(m, occluders, i, lightPosition, lightHeight, positions, alpha, step);
      positions, alpha := step.data, step.alpha;
      i := i + 1;
    }
    assert occluders[..i] == occluders;
    FilledToEnd(m, occluders, lightPosition, lightHeight, positions, alpha);
    r := Occlusions(positions, alpha, |occluders| * 6);
  }

  /** The written prefixes of the two cursors are the streams of `done`. */
  predicate Filled(m: MathLib, done: seq<SimpleOccluder>, lightPosition: Vec2, lightRadius: real,
    positions: Float32Cursor, alpha: Float32Cursor)
  {
    && positions.offset <= |positions.buffer| && alpha.offset <= |alpha.buffer|
    && positions.buffer[..positions.offset] == Concat(PositionChunks(m, done, lightPosition, lightRadius))
    && alpha.buffer[..alpha.offset] == Concat(AlphaChunks(done))
  }

  lemma FilledToEnd(m: MathLib, occluders: seq<SimpleOccluder>, lightPosition: Vec2, lightRadius: real,
    positions: Float32Cursor, alpha: Float32Cursor)
    requires Filled(m, occluders, lightPosition, lightRadius, positions, alpha)
    requires positions.offset == |positions.buffer| && alpha.offset == |alpha.buffer|
    ensures positions.buffer == Concat(PositionChunks(m, occluders, lightPosition, lightRadius))
    ensures alpha.buffer == Concat(AlphaChunks(occluders))
  {
    assert positions.buffer[..positions.offset] == positions.buffer;
    assert alpha.buffer[..alpha.offset] == alpha.buffer;
  }

  /** One pass of the loop: occluder i's output extends the streams of the
      first i occluders to those of the first i + 1. */
  lemma StepExtendsStreams(
    m: MathLib, occluders: seq<SimpleOccluder>, i: nat, lightPosition: Vec2, lightRadius: real,
    positions: Float32Cursor, alpha: Float32Cursor, step: Cursors)
    requires i < |occluders|
    requires Filled(m, occluders[..i], lightPosition, lightRadius, positions, alpha)
    requires Appended(positions, step.data, Flatten(ShadowVertices(m, occluders[i], lightPosition, lightRadius)))
    requires Appended(alpha, step.alpha, Repeat(occluders[i].alpha, AlphaFloats))
    ensures Filled(m, occluders[..i + 1], lightPosition, lightRadius, step.data, step.alpha)
  {
    var chunk := Flatten(ShadowVertices(m, occluders[i], lightPosition, lightRadius));
    AppendedPrefix(positions, step.data, chunk);
    AppendedPrefix(alpha, step.alpha, Repeat(occluders[i].alpha, AlphaFloats));
    assert PositionChunks(m, occluders[..i + 1], lightPosition, lightRadius)
        == PositionChunks(m, occluders[..i], lightPosition, lightRadius) + [chunk];
    assert AlphaChunks(occluders[..i + 1]) == AlphaChunks(occluders[..i]) + [Repeat(occluders[i].alpha, AlphaFloats)];
  }

  // ------------------------------------------------------------ properties

  /** Occluder i's vertices occupy positions [12i, 12i + 12) and its
      opacities alpha [6i, 6i + 6): no gap, no overlap, list order. */
  lemma StreamPlacement(m: MathLib, occluders: seq<SimpleOccluder>, lightPosition: Vec2, lightRadius: real, i: nat)
    requires i < |occluders|
    ensures PositionFloats * i + PositionFloats <= |Concat(PositionChunks(m, occluders, lightPosition, lightRadius))|
    ensures AlphaFloats * i + AlphaFloats <= |Concat(AlphaChunks(occluders))|
    ensures Concat(PositionChunks(m, occluders, lightPosition, lightRadius))[PositionFloats * i .. PositionFloats * i + PositionFloats]
         == Flatten(ShadowVertices(m, occluders[i], lightPosition, lightRadius))
    ensures Concat(AlphaChunks(occluders))[AlphaFloats * i .. AlphaFloats * i + AlphaFloats]
         == Repeat(occluders[i].alpha, AlphaFloats)
  {
    ConcatPlacement(PositionChunks(m, occluders, lightPosition, lightRadius), PositionFloats, i);
    ConcatPlacement(AlphaChunks(occluders), AlphaFloats, i);
  }

  /** Adding occluders at the end of the list leaves the earlier occluders'
      vertex positions where they were. */
  lemma PositionStreamAppend(m: MathLib, front: seq<SimpleOccluder>, back: seq<SimpleOccluder>, lightPosition: Vec2, lightRadius: real)
    ensures Concat(PositionChunks(m, front + back, lightPosition, lightRadius))
         == Concat(PositionChunks(m, front, lightPosition, lightRadius)) + Concat(PositionChunks(m, back, lightPosition, lightRadius))
  {
    var whole := PositionChunks(m, front + back, lightPosition, lightRadius);
    var first := PositionChunks(m, front, lightPosition, lightRadius);
    var rest := PositionChunks(m, back, lightPosition, lightRadius);
    forall i | 0 <= i < |whole|
      ensures whole[i] == (first + rest)[i]
    {
      if i < |front| {
        assert (front + back)[i] == front[i];
      } else {
        assert (front + back)[i] == back[i - |front|];
      }
    }
    assert whole == first + rest;
    ConcatAppend(first, rest);
  }

  /** The same for the opacities. */
  lemma AlphaStreamAppend(front: seq<SimpleOccluder>, back: seq<SimpleOccluder>)
    ensures Concat(AlphaChunks(front + back)) == Concat(AlphaChunks(front)) + Concat(AlphaChunks(back))
  {
    assert AlphaChunks(front + back) == AlphaChunks(front) + AlphaChunks(back);
    ConcatAppend(AlphaChunks(front), AlphaChunks(back));
  }
}
