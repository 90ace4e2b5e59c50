/** The vertex layout shared by every occluder's triangle generator.

    Each generator casts two rays from the light, through the occluder's two
    ends `a` and `b`, out to the light's radius, and covers the region between
    them with two triangles: (a, endpointA, b) and (b, endpointA, endpointB).
    See src/shaders/shadow/geometry.ts:31-49, src/shaders/silhouette/geometry.ts:54-78,
    src/silhouette_occluder.ts:30-47 and src/simple_occluder.ts:29-42.
 */
module Layout {
  import opened Vec2Math

  /** The four points that the six vertices are drawn from. */
  datatype Corner = OccluderA | EndpointA | OccluderB | EndpointB

  /** The order in which every generator emits its six vertices. */
  const TriangleOrder: seq<Corner> := [OccluderA, EndpointA, OccluderB, OccluderB, EndpointA, EndpointB]

  const VerticesPerOccluder: nat := 6

  /** The point a corner stands for. */
  function Resolve(c: Corner, a: Vec2, endA: Vec2, b: Vec2, endB: Vec2): Vec2 {
    match c
    case OccluderA => a
    case EndpointA => endA
    case OccluderB => b
    case EndpointB => endB
  }

  /** Whether a corner lies on ray A (the side of `a`) rather than ray B. */
  predicate OnSideA(c: Corner) {
    c == OccluderA || c == EndpointA
  }

  /** The six vertices of an occluder's two shadow triangles. */
  function QuadVertices(a: Vec2, endA: Vec2, b: Vec2, endB: Vec2): (r: seq<Vec2>)
    ensures |r| == VerticesPerOccluder
  {
    [a, endA, b, b, endA, endB]
  }

  /** The point `radius` away from the light along the ray at angle `theta`:
      `add(lightPosition, scalarMult(toUnitVector(theta), lightRadius))`. */
  function RayEndpoint(m: MathLib, lightPosition: Vec2, lightRadius: real, theta: real): (r: Vec2)
    ensures Sub(r, lightPosition) == ScalarMult(ToUnitVector(m, theta), lightRadius)
  {
    Add(lightPosition, ScalarMult(ToUnitVector(m, theta), lightRadius))
  }

  /** Vertices as interleaved floats, x before y. */
  function Flatten(vs: seq<Vec2>): (r: seq<real>)
    ensures |r| == 2 * |vs|
    ensures forall i :: 0 <= i < |vs| ==> r[2 * i] == vs[i].x && r[2 * i + 1] == vs[i].y
  {
    if vs == [] then [] else [vs[0].x, vs[0].y] + Flatten(vs[1..])
  }

  /** `n` copies of the pair (u, v), one per vertex. */
  function RepeatPair(u: real, v: real, n: nat): (r: seq<real>)
    ensures |r| == 2 * n
    ensures forall i :: 0 <= i < n ==> r[2 * i] == u && r[2 * i + 1] == v
  {
    var vs := seq(n, _ => Vec2(u, v));
    var r := Flatten(vs);
    assert forall i :: 0 <= i < n ==> vs[i] == Vec2(u, v) && r[2 * i] == vs[i].x && r[2 * i + 1] == vs[i].y;
    r
  }

  /** `n` copies of a single value, one per vertex. */
  function Repeat(v: real, n: nat): (r: seq<real>)
    ensures |r| == n
    ensures forall i :: 0 <= i < n ==> r[i] == v
  {
    seq(n, _ => v)
  }

  /** A stream made of fixed-size per-occluder chunks, in order. */
  function Concat(chunks: seq<seq<real>>): (r: seq<real>)
    decreases |chunks|
  {
    if chunks == [] then [] else Concat(chunks[..|chunks| - 1]) + chunks[|chunks| - 1]
  }

  /** Every chunk has `width` values. */
  predicate Uniform(chunks: seq<seq<real>>, width: nat) {
    forall j :: 0 <= j < |chunks| ==> |chunks[j]| == width
  }

  // ------------------------------------------------------------ properties

  /** A stream of `k` chunks of `width` values holds `width * k` values. */
  lemma {:induction false} ConcatLength(chunks: seq<seq<real>>, width: nat)
    requires Uniform(chunks, width)
    ensures |Concat(chunks)| == width * |chunks|
    decreases |chunks|
  {
    if chunks != [] {
      ConcatLength(chunks[..|chunks| - 1], width);
    }
  }

  /** Chunk i starts where the chunks before it end. */
  lemma ConcatPrefixPlacement(chunks: seq<seq<real>>, i: nat)
    requires i < |chunks|
    ensures |Concat(chunks[..i])| + |chunks[i]| <= |Concat(chunks)|
    ensures Concat(chunks)[|Concat(chunks[..i])| .. |Concat(chunks[..i])| + |chunks[i]|] == chunks[i]
  {
    var front, back := chunks[..i + 1], chunks[i + 1..];
    assert chunks == front + back;
    ConcatAppend(front, back);
    assert front[..i] == chunks[..i];
    assert Concat(front) == Concat(chunks[..i]) + chunks[i];
    SliceLeft(Concat(front), Concat(back), |Concat(chunks[..i])|, |Concat(front)|);
    SliceRight(Concat(chunks[..i]), chunks[i]);
  }

  /** With uniform chunks, chunk i occupies exactly [width * i, width * i + width). */
  lemma ConcatPlacement(chunks: seq<seq<real>>, width: nat, i: nat)
    requires Uniform(chunks, width) && i < |chunks|
    ensures width * i + width <= |Concat(chunks)|
    ensures Concat(chunks)[width * i .. width * i + width] == chunks[i]
  {
    assert Uniform(chunks[..i], width);
    ConcatLength(chunks[..i], width);
    ConcatPrefixPlacement(chunks, i);
  }

  lemma SliceLeft(u: seq<real>, v: seq<real>, lo: nat, hi: nat)
    requires lo <= hi <= |u|
    ensures (u + v)[lo..hi] == u[lo..hi]
  {
  }

  lemma SliceRight(u: seq<real>, v: seq<real>)
    ensures (u + v)[|u|..|u| + |v|] == v
  {
  }

  /** Appending chunks appends their streams. */
  lemma {:induction false} ConcatAppend(front: seq<seq<real>>, back: seq<seq<real>>)
    ensures Concat(front + back) == Concat(front) + Concat(back)
    decreases |back|
  {
    if back == [] {
      assert front + back == front;
    } else {
      var n := |back| - 1;
      assert (front + back)[..|front + back| - 1] == front + back[..n];
      assert (front + back)[|front + back| - 1] == back[n];
      ConcatAppend(front, back[..n]);
    }
  }

  /** The vertices follow `TriangleOrder`. */
  lemma QuadVerticesFollowOrder(a: Vec2, endA: Vec2, b: Vec2, endB: Vec2)
    ensures forall i :: 0 <= i < VerticesPerOccluder ==>
      QuadVertices(a, endA, b, endB)[i] == Resolve(TriangleOrder[i], a, endA, b, endB)
  {
  }

  /** The two triangles share the edge from `b` to `endpointA`, so together
      they cover the quadrilateral a, endpointA, endpointB, b. */
  lemma TrianglesShareEdge(a: Vec2, endA: Vec2, b: Vec2, endB: Vec2)
    ensures var vs := QuadVertices(a, endA, b, endB);
      vs[2] == vs[3] == b && vs[1] == vs[4] == endA
  {
  }

  /** The six-vertex stream written one `vec2` at a time. */
  lemma FlattenSix(vs: seq<Vec2>)
    requires |vs| == 6
    ensures Flatten(vs) == [vs[0].x, vs[0].y] + [vs[1].x, vs[1].y] + [vs[2].x, vs[2].y]
                         + [vs[3].x, vs[3].y] + [vs[4].x, vs[4].y] + [vs[5].x, vs[5].y]
  {
    var f := Flatten(vs);
    var g := [vs[0].x, vs[0].y] + [vs[1].x, vs[1].y] + [vs[2].x, vs[2].y]
           + [vs[3].x, vs[3].y] + [vs[4].x, vs[4].y] + [vs[5].x, vs[5].y];
    assert |f| == |g| == 12;
    forall i | 0 <= i < 12
      ensures f[i] == g[i]
    {
      var k := i / 2;
      assert i == 2 * k || i == 2 * k + 1;
    }
  }

  /** The same pair written once per vertex. */
  lemma RepeatPairSix(u: real, v: real)
    ensures RepeatPair(u, v, 6) == [u, v] + [u, v] + [u, v] + [u, v] + [u, v] + [u, v]
  {
    var f := RepeatPair(u, v, 6);
    var g := [u, v] + [u, v] + [u, v] + [u, v] + [u, v] + [u, v];
    assert |f| == |g| == 12;
    forall i | 0 <= i < 12
      ensures f[i] == g[i]
    {
      var k := i / 2;
      assert i == 2 * k || i == 2 * k + 1;
    }
  }

  /** Flattening loses nothing: the vertices can be read back. */
  lemma FlattenInjective(us: seq<Vec2>, vs: seq<Vec2>)
    requires Flatten(us) == Flatten(vs)
    ensures us == vs
  {
    assert |us| == |vs|;
    forall i | 0 <= i < |us|
      ensures us[i] == vs[i]
    {
      assert Flatten(us)[2 * i] == Flatten(vs)[2 * i];
      assert Flatten(us)[2 * i + 1] == Flatten(vs)[2 * i + 1];
    }
  }
}
