# 2D shadows: the CPU side of shadow-vertex generation, in Dafny

The program draws 2D shadows with WebGL. The only part with real logic
runs on the CPU. For each occluder (a segment, or a circle reduced to two
edge points), it casts two rays from the light through the occluder's ends
out to the light's radius. It covers the region between the rays with two
triangles, in the fixed vertex order `a, endpointA, b, b, endpointA, endpointB`.
It appends each vertex's position and attributes to flat float arrays
through an append-only cursor. An aggregator sizes those arrays for the
whole occluder list and reports the vertex count to draw.

This project models that CPU side:

| file | module | models |
|---|---|---|
| `vec2_math.dfy` | `Vec2Math` | vector and angle helpers of `src/geometry/vec2.ts` |
| `legacy_vec2.dfy` | `LegacyVec2` | `angleTo` of the older copy `src/vec2.ts` |
| `coordinates.dfy` | `Coordinates` | canvas-event → screen → WebGL clip-space conversion |
| `cursor.dfy` | `Cursor` | the `Float32Cursor` append writer |
| `layout.dfy` | `Layout` | the six-vertex order, x-before-y flattening, ray endpoints, chunked streams |
| `shadow_geometry.dfy` | `ShadowGeometry` | hard-shadow generator with per-vertex alpha |
| `silhouette_geometry.dfy` | `SilhouetteGeometry` | circle generator with angle pair, distance pair and the wrap-around rule |
| `silhouette_occluder.dfy` | `SegmentSilhouette` | segment generator with 0/1 side tags |
| `simple_occluder.dfy` | `OffsetOccluder` | generator that writes at an explicit array offset |
| `shadow_program.dfy` | `ShadowProgram` | buffer sizing, the per-occluder loop and `numElements` |

Modelling choices:

- Coordinates are `real`.
- `Math.atan2`, `Math.cos`, `Math.sin` and `Math.hypot` are uninterpreted. They are passed in as a `MathLib` record of functions.
- The only assumption made about them is the `atan2` range (-π, π]. It is stated as the predicate `Atan2InRange`, and only the wrap-around lemmas require it.
- `Math.PI` is the decimal `3.141592653589793`.
- The cursor is a value, `Float32Cursor(buffer, offset)`, and every write returns the new cursor. The source's field is named `array`, which is a Dafny keyword.
- Each write's contract is stated through the predicate `Cursor.Appended`. It says the offset advanced by the number of values written, exactly those slots hold them in order, and every other slot is unchanged.

One call cannot run as written, and the model substitutes the evidently intended function:

- `src/shaders/shadow/geometry.ts:19,25` and `src/simple_occluder.ts:17,23` call `Vec2.angleTo` on the module of `src/geometry/vec2.ts`, which defines no `angleTo`. As written, TypeScript rejects the call, and untyped JavaScript throws a `TypeError` at the first occluder. The model reads the call as `angleBetween` of that module. `LegacyVec2.AngleTo` proves that this is the same function as `angleTo` of the older `src/vec2.ts`.

Where the code disagrees with itself in other ways, the model follows the code:

- `src/shaders/shadow/program.ts:47-54` passes six arguments to the five-parameter generator. JavaScript binds `lightHeight` to `lightRadius` and drops `5.0`, and `ShadowProgram.RecalculateOcclusions` does the same.
- The doc comment of `perpendicular` promises a unit vector. The function only rotates its argument and keeps its length. `Vec2Math.PerpendicularNotUnit` exhibits `(2, 0)`, whose image has squared length 4.

## Model

| member | source | states |
|---|---|---|
| `Vec2Math.AngleAdd` | src/geometry/vec2.ts:11-13 | angles add with no wrapping: the result exceeds `angle` by exactly `delta` (the source's `by`) |
| `Vec2Math.Add` | src/geometry/vec2.ts:22-24 | the sum minus either operand is the other operand, componentwise |
| `Vec2Math.Perpendicular` | src/geometry/vec2.ts:26-31 | the result is orthogonal to `v` (zero dot product), has the same squared length, and is the counter-clockwise (+90°) turn: the cross product `v × r` equals `|v|²` |
| `Vec2Math.Invert` | src/geometry/vec2.ts:45-50 | the result is the additive inverse: `v + invert(v)` is the zero vector |
| `Vec2Math.ScalarMult` | src/geometry/vec2.ts:52-57 | scaling by 1 is the identity, by -1 is `invert`, by 0 gives the zero vector |
| `Vec2Math.AddCommutative` | src/geometry/vec2.ts:22-24 | `add(a, b) == add(b, a)` |
| `Vec2Math.AddAssociative` | src/geometry/vec2.ts:22-24 | `add` is associative |
| `Vec2Math.InvertInvolution` | src/geometry/vec2.ts:45-50 | `invert(invert(v)) == v` |
| `Vec2Math.ScalarMultScales` | src/geometry/vec2.ts:52-57 | the result is parallel to `v` (orthogonal to its perpendicular), its squared length is scaled by `scalar²`, and its dot product with `v` is `scalar · |v|²`, which fixes the sign |
| `Vec2Math.PerpendicularTwice` | src/geometry/vec2.ts:29-31 | two quarter turns are `invert` |
| `Vec2Math.PerpendicularNotUnit` | src/geometry/vec2.ts:26-31 | counterexample to the "unit vector" doc comment: the perpendicular of (2, 0) has squared length 4 |
| `Vec2Math.ToUnitVector` | src/geometry/vec2.ts:4-9 | no contract: `(cos θ, sin θ)` through the uninterpreted `MathLib`, see "## Left out"; its use is stated by `Layout.RayEndpoint` |
| `Vec2Math.Magnitude` | src/geometry/vec2.ts:33-35 | no contract: `Math.hypot` through the uninterpreted `MathLib`, see "## Left out"; its use is stated by `SilhouetteGeometry.FadeDistances` |
| `Vec2Math.Angle` | src/geometry/vec2.ts:37-39 | no contract: `Math.atan2(y, x)` through the uninterpreted `MathLib`; its argument order is stated by `Vec2Math.AngleBetweenIsAngleOfDifference` |
| `Vec2Math.AngleBetween` | src/geometry/vec2.ts:41-43 | no contract: stated by `Vec2Math.AngleBetweenIsAngleOfDifference` and `Vec2Math.AngleBetweenInRange` |
| `Vec2Math.AngleBetweenIsAngleOfDifference` | src/geometry/vec2.ts:37-43 | `angleBetween(o, t)` is `atan2(t.y - o.y, t.x - o.x)`, the angle of `t - o` |
| `Vec2Math.AngleBetweenInRange` | src/geometry/vec2.ts:37-43 | given the `atan2` range, every `angleBetween` lies in (-π, π] |
| `LegacyVec2.AngleTo` | src/vec2.ts:26-28 | `angleTo` of the old module equals `angleBetween` of the new one |
| `LegacyVec2.AngleToTranslationInvariant` | src/vec2.ts:26-28 | shifting both points by the same vector does not change `angleTo` |
| `Coordinates.FromCanvasEvent` | src/coordinates.ts:6-8 | the event's `offsetX`/`offsetY` become x/y unchanged |
| `Coordinates.FromScreenCoords` | src/coordinates.ts:14-22 | the pixel-to-clip map is undone by the inverse linear map `ToScreenCoords` |
| `Coordinates.ToScreenRoundTrip` | src/coordinates.ts:14-22 | the other round trip: every clip-space point comes from exactly one pixel |
| `Coordinates.CornersAndCentre` | src/coordinates.ts:18-21 | (0, 0) maps to (-1, 1), (w, h) to (1, -1), and (w/2, h/2) to (0, 0) |
| `Coordinates.OnCanvasIsInClipSpace` | src/coordinates.ts:19-20 | for positive dimensions, a pixel in [0,w]×[0,h] lands in [-1,1]² |
| `Coordinates.AxisOrientation` | src/coordinates.ts:19-20 | for positive dimensions, clip x strictly increases with screen x and clip y strictly decreases with screen y |
| `Cursor.Zeros` | src/shaders/shadow/program.ts:41-44 | a fresh `Float32Array(n)` has n slots, all zero |
| `Cursor.New` | src/util/cursor.ts:7-10 | a new cursor wraps exactly the given array at offset 0, with room for the whole array |
| `Cursor.Push` | src/util/cursor.ts:12-15 | `push(v)` stores `v` at the old offset, advances the offset by 1, and changes no other slot; requires room for one value |
| `Cursor.Push2` | src/util/cursor.ts:17-20 | `push2(a, b)` stores `a` then `b` and advances by 2, nothing else changes |
| `Cursor.PushVec2` | src/util/cursor.ts:22-24 | `vec2(v)` stores `v.x` then `v.y` and advances by 2, nothing else changes |
| `Cursor.Push3` | src/util/cursor.ts:26-29 | `push3(a, b, c)` stores the three values in order and advances by 3, nothing else changes |
| `Cursor.Restart` | src/util/cursor.ts:31-33 | `restart` sets the offset to 0 and leaves the contents alone |
| `Cursor.AppendedTrans` | src/util/cursor.ts:17-29 | two consecutive writes are one write of the concatenated values |
| `Cursor.AppendedDeterministic` | src/util/cursor.ts:12-15 | the result of a write depends only on the starting cursor and the values: the writer has no hidden state |
| `Cursor.AppendedPrefix` | src/util/cursor.ts:12-15 | after a write, the written prefix is the old prefix followed by the new values |
| `Cursor.RestartRewrite` | src/util/cursor.ts:31-33 | restarting a full cursor and writing the same values again reproduces the same cursor |
| `Layout.QuadVerticesFollowOrder` | src/shaders/shadow/geometry.ts:31-49 | the six vertices are, in order, `a, endpointA, b, b, endpointA, endpointB` |
| `Layout.TrianglesShareEdge` | src/shaders/shadow/geometry.ts:31-49 | the two triangles share the edge `b`–`endpointA` (vertices 2 = 3 and 1 = 4) |
| `Layout.RayEndpoint` | src/shaders/shadow/geometry.ts:19-29 | an endpoint minus the light position is `lightRadius · toUnitVector(θ)` |
| `Layout.Flatten` | src/util/cursor.ts:22-24 | vertex i becomes floats 2i (x) and 2i+1 (y), so the stream has twice as many floats as vertices |
| `Layout.FlattenInjective` | src/util/cursor.ts:22-24 | the flattened floats determine the vertices: nothing is lost |
| `ShadowGeometry.OcclusionTriangles` | src/shaders/shadow/geometry.ts:11-50 | the position cursor advances by exactly 12 with the six vertices x before y. The alpha cursor advances by exactly 6, every value is `occluder.alpha`, and no other slot changes |
| `ShadowGeometry.EndpointsOnRays` | src/shaders/shadow/geometry.ts:18-29 | endpoint A (B) is `lightPosition + lightRadius · toUnitVector(atan2(a − light))` (resp. b) |
| `ShadowGeometry.DegenerateOccluder` | src/shaders/shadow/geometry.ts:19-49 | if `a == b`, vertices 0, 2, 3 coincide and vertices 1, 4, 5 coincide |
| `SilhouetteGeometry.EdgeOffset` | src/shaders/silhouette/geometry.ts:19-23 | no contract: `radius` along the direction a quarter turn past the light-to-centre angle; its role is stated by `SilhouetteGeometry.EdgePointsSymmetric` |
| `SilhouetteGeometry.ComputeRays` | src/shaders/silhouette/geometry.ts:19-52 | no contract: everything computed before the writes; stated by `SilhouetteGeometry.EdgePointsSymmetric`, `SilhouetteGeometry.InfoAnglesOrdered`, `SilhouetteGeometry.EndpointsUseRawAngles` and `SilhouetteGeometry.FadeDistances` |
| `SilhouetteGeometry.WrapRayA` | src/shaders/silhouette/geometry.ts:40-43 | ray A's angle is unchanged exactly when `thetaB <= thetaA`; otherwise it grows by 2π |
| `SilhouetteGeometry.OcclusionTriangles` | src/shaders/silhouette/geometry.ts:11-79 | the pos, info and dist cursors each advance by exactly 12. pos gets `occluderA, endpointA, occluderB, occluderB, endpointA, endpointB`. Every vertex gets the same pair `(thetaA, thetaB)` and the same pair `(startDist, endDist)` |
| `SilhouetteGeometry.EdgePointsSymmetric` | src/shaders/silhouette/geometry.ts:19-33 | `occluderA − origin == −(occluderB − origin)`, the centre is their midpoint, and the offset is `radius · toUnitVector(angleBetween(light, origin) + π/2)` |
| `SilhouetteGeometry.WrapOrdersRays` | src/shaders/silhouette/geometry.ts:40-43 | for angles in (-π, π], the adjusted A is at least B and less than B + 2π |
| `SilhouetteGeometry.InfoAnglesOrdered` | src/shaders/silhouette/geometry.ts:27-43 | given the `atan2` range, the written angle pair satisfies `thetaB <= thetaA < thetaB + 2π` |
| `SilhouetteGeometry.EndpointsUseRawAngles` | src/shaders/silhouette/geometry.ts:27-43 | the endpoints are placed with the raw `atan2` angles; the written angle A differs from the raw one by 0 or 2π |
| `SilhouetteGeometry.FadeDistances` | src/shaders/silhouette/geometry.ts:49-52 | `startDist` is the magnitude of `origin − light`, and `endDist = startDist + 0.1` |
| `SegmentSilhouette.OcclusionTriangles` | src/silhouette_occluder.ts:10-48 | pos advances by 12 with `a, endpointA, b, b, endpointA, endpointB`; info advances by 6 with the tags `0, 0, 1, 1, 0, 1` |
| `SegmentSilhouette.TagsFollowSides` | src/silhouette_occluder.ts:30-47 | a vertex is tagged 0 exactly when it is `a` or `endpointA`, and 1 exactly when it is `b` or `endpointB` |
| `SegmentSilhouette.EndpointsOnRays` | src/silhouette_occluder.ts:17-28 | the endpoints are `lightPosition + lightRadius · toUnitVector(angleTo(light, a \| b))`, the same as the hard-shadow generator's |
| `OffsetOccluder.OcclusionTriangles` | src/simple_occluder.ts:9-43 | exactly `out[offset .. offset+12)` is overwritten, with the six vertices x before y; all other slots are unchanged; requires `offset + 12 <= out.length` |
| `OffsetOccluder.RepeatedVertices` | src/simple_occluder.ts:29-42 | slots 2–3 equal 8–9 (endpoint A), slots 4–5 equal 6–7 (b), and slots 0–1 hold a |
| `OffsetOccluder.AgreesWithCursorWriter` | src/simple_occluder.ts:29-42 | writing at `offset` gives the same array as the cursor-based generator started at that offset |
| `ShadowProgram.RecalculateOcclusions` | src/shaders/shadow/program.ts:41-75 | for k occluders the arrays hold 12k and 6k floats and are filled exactly, with no overrun and no gap. `numElements = 6k`, half the position offset. The contents are the per-occluder chunks in list order, so equal inputs give equal arrays, and an empty list gives empty arrays and 0 |
| `ShadowProgram.StreamPlacement` | src/shaders/shadow/program.ts:46-55 | occluder i's data occupies positions [12i, 12i+12) and alpha [6i, 6i+6) |
| `ShadowProgram.PositionStreamAppend` | src/shaders/shadow/program.ts:46-55 | appending occluders to the list appends their vertex positions and leaves the earlier occluders' positions unchanged |
| `ShadowProgram.AlphaStreamAppend` | src/shaders/shadow/program.ts:46-55 | the same for the alpha array: earlier occluders' opacities stay where they were |

## Left out

- WebGL and twgl work is not modelled: `init`, `render`, buffer and texture creation, the `bufferInfo` upload and the draw call. This covers `src/shaders/*/program.ts`, `src/light_program.ts`, `src/shadow_program.ts` and `src/main.ts`. It is GPU I/O with no statable logic.
- `src/shadow_program.ts`'s own per-occluder loop is not modelled. It passes six arguments to the five-parameter segment generator, so its behaviour is ambiguous. The same sizing idea is modelled through `src/shaders/shadow/program.ts`.
- `Debug.record` and `src/util/debug.ts` are not modelled: they write global window state and produce DOM output.
- Float32 storage rounding and JavaScript double arithmetic are not modelled. All values are exact reals.
- `Math.atan2`, `Math.cos`, `Math.sin` and `Math.hypot` are uninterpreted parameters. No trigonometric accuracy or identity is proved. `Vec2Math.Magnitude` and `Vec2Math.ToUnitVector` carry no contract for this reason.
- `Cursor.Push`, `Cursor.Push2`, `Cursor.PushVec2`, `Cursor.Push3`: require room for the values they write. Out of range, the source's typed-array store is silently dropped while the offset still advances. Every caller in the model, like every caller in the source, sizes its arrays so this never happens.
- `OffsetOccluder.OcclusionTriangles`: requires `offset + 12 <= out.length` for the same reason.
- `ShadowGeometry.OcclusionTriangles`, `OffsetOccluder.OcclusionTriangles`, `ShadowProgram.RecalculateOcclusions`: model the `angleBetween` reading of the `Vec2.angleTo` call, not the call as written. As written it names a function that `src/geometry/vec2.ts` does not define, so it would fail before writing anything.
- `SegmentSilhouette.OcclusionTriangles`: `src/silhouette_occluder.ts` imports `Float32Cursor` from `./cursor`, that is `src/cursor.ts`, which is not part of this model. It is assumed to behave like `src/util/cursor.ts` (the `Cursor` module): `push` and `vec2` write at the offset and advance it.
- `Coordinates.FromScreenCoords`: requires non-zero width and height. With a zero dimension, JavaScript produces an infinity or NaN, which reals cannot express.
- The cursor is not modelled as a mutable class shared by reference. Every cursor in the source wraps its own freshly allocated array, so threading it as a value loses no behaviour.
- `TextureCoords` is not modelled: it is a type with no operations.
