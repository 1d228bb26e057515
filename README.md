# Planet mesh and terrain pipeline

This project models the host-side mesh and terrain pipeline of a WebGL planet generator (app/src/*.js).

- **Geometries.**
  - `IcosahedronGeometry` builds the 12-vertex, 20-triangle icosahedron.
  - `PlaneGeometry` builds a 4-vertex, 2-triangle quad.
  - Both refine their base mesh by midpoint subdivision. Each edge midpoint is deduplicated per pass through a `midCache` keyed by `"a-b"`.
  - The icosahedron is then pushed out to `radius`, with a guard for vertices whose magnitude rounds to zero. The quad is scaled by `size`.
  - `SphereGeometry` builds a latitude/longitude grid. It clamps its segment counts, numbers the vertices row by row, and drops the triangles that would collapse at a pole.
- **Noise.**
  - A `NoiseLayer` sums `octaves` passes of weighted simplex noise, with the weight fed forward from pass to pass. The result is then `max(0, h - minValue) * strength`.
  - A `NoiseHandler` adds up its enabled layers. A layer that asks to be masked is first multiplied by layer 0's value.
- **Terrain.**
  - `PlanetDrawer.generateHeightMap` rebuilds the icosphere and samples one height per vertex at 20 times the vertex coordinates. It pushes each vertex out by `1 + height` and colours it from a gradient, at the shade `(e - min) / (max - min)`.
  - The gradient callback sorts the stops by position. It adopts them only when there are at least two.
  - `OceanDrawer` reconfigures its one layer, samples heights the same way and colours each vertex grey by its shade. It never moves the vertices.
- **Utilities.** `normalize`'s zero guard, the column-major `MatrixMult`, `hexToRgb` and the near-plane clamp of `ProjectionMatrix`.

Each stateful source object is a `class` whose methods update its fields: `IcosahedronGeometry`, `PlaneGeometry`, `SphereGeometry`, `NoiseHandler`, `PlanetDrawer` and `OceanDrawer`.

Each loop of the source is a `while`/`for` loop in the model, proved equal to a specification function:
- `PassUpTo`, `Subdivided`, `Projected` and `NormalsOf` for the geometries;
- `GridBuffers` and `QuadRows` for the sphere;
- `Octaves` and `MixUpTo` for the noise;
- `HeightsOf`, `Displaced`, `ColorsOf` and `GreysOf` for the terrain.

The source's properties are lemmas about those functions.

Foreign code enters as parameters, and the model assumes nothing about it:
- `Math.sqrt`, `Math.sin`, `Math.cos` and `Math.PI` arrive together as a `MathLib`.
- The simplex `noise3D` is a `Noise3D` function value.
- tinygradient's `rgbAt` is a `ColorAt` function value.
- The settings a layer reads from `localStorage` are a `storage: int -> StoredLayer` function.
- Stored radius and detail are `Option` values.

JS `NaN` is modelled as `Num.NaN` where the code produces it:
- normals read past the end of the vertex buffer;
- the shade when every height is equal.

Where the code and a natural reading of the design differ, the model follows the code:
- **Masking.** With layers 0 and 1 enabled and layer 1 masked, `getNoise` returns `l0 + l0 * l1`, not `l0 * l1`. Layer 0 is added on its own, and layer 1 is scaled by it (`MaskedPair`).
- **Disabled layer 0.** `firstNoise` is not taken from the first enabled layer. It stays 1, so a masked layer is added unscaled (`MaskWithoutFirstLayer`).
- **Equal heights.** There is no guard for `max == min`. The shade is `0 / 0`, that is `NaN`, not 0 (`Terrain.Shade`, `OceanDrawer.GreysInUnit`).
- **Normals.** `calculateNormals` derives normal `i` from vertex `i`, not from vertex `indices[i]`. A subdivided icosahedron has fewer vertices than indices, so the tail of `normals` is always `NaN` (`IcosahedronGeometry.GeneratedNormalsNaN`).

## Model

| member | source | states |
|---|---|---|
| Utils.Max | app/src/PlanetDrawer.js:112 | `Math.max` is an upper bound of both arguments and equals one of them |
| Utils.Min | app/src/PlanetDrawer.js:113 | `Math.min` is a lower bound of both arguments and equals one of them |
| Utils.Normalize | app/src/utils.js:9-13 | a vector whose magnitude rounds to 0 at five decimals is returned unchanged |
| Utils.NormalizeScalesBack | app/src/utils.js:11-12 | otherwise the result, multiplied back by the magnitude, is the input: each component was divided by the magnitude |
| Utils.NormalizeHasUnitLength | app/src/utils.js:9-13 | where `Math.sqrt` is exact, a vector that is not near zero is normalized to unit length |
| Utils.Product | app/src/utils.js:95-112 | the column-major product has 16 entries |
| Utils.MatrixMult | app/src/utils.js:95-112 | the triple loop pushes exactly the product: entry `j + 4i` is the sum over k of `A[j+4k] * B[k+4i]` |
| Utils.ProductIdentity | app/src/utils.js:95-112 | the identity matrix is neutral on both sides of the product |
| Utils.HexDigitValue | app/src/utils.js:117-119 | a hex digit of either case has a value in 0..15 |
| Utils.HexPair | app/src/utils.js:117-119 | `parseInt` of two hex digits lies in 0..255 |
| Utils.HexToRgb | app/src/utils.js:114-121 | a result exists iff the string is an optional `#` and exactly six hex digits; it is the three pairs in r, g, b order, each in 0..255; otherwise `null` |
| Utils.HexToRgbInvertsRgbToHex | app/src/utils.js:114-121 | `hexToRgb` recovers every colour from its `#rrggbb` spelling |
| Utils.HexToRgbRejectsOtherLengths | app/src/utils.js:115 | every string whose length is neither 6 nor 7 is rejected: three-digit shorthand and anything longer than `#` plus six digits |
| Utils.NearDistance | app/src/utils.js:18-20 | the near distance is `z - 1.74` clamped to at least 0.001 |
| Utils.DepthRangePositive | app/src/utils.js:18-21 | for camera distances above -1.739 the depth range `f - n` is positive |
| Mesh.VertexByIndex | app/src/IcosahedronGeometry.js:141-144 | `getVertexByIndex(i)` is the three entries at `3i` exactly when `i` is a vertex number, and a triple of `undefined` otherwise |
| Mesh.FlattenVertex | app/src/IcosahedronGeometry.js:35-39 | vertex `i` of a flat `x, y, z` buffer is the `i`-th point written into it |
| Subdivision.Norm | app/src/IcosahedronGeometry.js:71 | an edge and its reverse have the same unordered key |
| Subdivision.CachedMidpoint | app/src/IcosahedronGeometry.js:77 | the lookup of `a-b`, falling back to `b-a`, returns the cached midpoint whenever one is cached and none is 0, and nothing when neither orientation is cached |
| Subdivision.MidpointFor | app/src/IcosahedronGeometry.js:70-78 | one midpoint block reuses the cached vertex, or appends `0.5 * (v_p + v_q)` as vertex number `vertices.length / 3` and caches it under `p-q`; the new number is at least the count at the start of the pass, so it is never 0 |
| Subdivision.PassUpTo | app/src/IcosahedronGeometry.js:57-109 | after the triangles before position `i`, vertices were only appended, `newIndices` has `4i` entries and each of them names an existing vertex |
| Subdivision.SplitTriangle | app/src/IcosahedronGeometry.js:60-106 | splitting one triangle adds 12 indices, all below the vertex count |
| Subdivision.SubdividePass | app/src/IcosahedronGeometry.js:57-111 | one pass quadruples the index count, keeps the mesh valid and leaves the existing vertices unchanged |
| Subdivision.Subdivided | app/src/IcosahedronGeometry.js:54-114 | `detail` passes keep the mesh valid and keep the original vertices as a prefix |
| Subdivision.SubdividedCount | app/src/IcosahedronGeometry.js:56-113 | after `detail` passes the index count is multiplied by `4^detail` |
| Subdivision.CacheMidpoint | app/src/IcosahedronGeometry.js:70-100 | each of the three blocks of the loop body computes the `MidpointFor` state |
| Subdivision.SplitOne | app/src/IcosahedronGeometry.js:61-106 | the inner-loop body for one triangle computes the `SplitTriangle` state |
| Subdivision.PassUpToStep | app/src/IcosahedronGeometry.js:60-108 | the state at `i + 3` is the state at `i` with triangle `i` split |
| Subdivision.SubdivisionPass | app/src/IcosahedronGeometry.js:57-111 | the inner loop computes one `SubdividePass` |
| Subdivision.Subdivide | app/src/IcosahedronGeometry.js:54-114 | the outer loop computes `Subdivided(vertices, indices, detail)`, and does nothing when `detail <= 0` |
| EdgeCache.TriangleEdges | app/src/IcosahedronGeometry.js:71-99 | a triangle's three edges are unordered pairs |
| EdgeCache.MidOfStable | app/src/IcosahedronGeometry.js:71-78 | once an edge is cached, later lookups in the same pass return the same midpoint |
| EdgeCache.MidOfSymmetric | app/src/IcosahedronGeometry.js:71-77 | with one orientation per edge, lookups of `p-q` and `q-p` agree |
| EdgeCache.MidpointForAnswer | app/src/IcosahedronGeometry.js:70-78 | a block keeps the earlier cache entries, leaves {p, q} cached, and its result is that cached midpoint |
| EdgeCache.PassExact | app/src/IcosahedronGeometry.js:57-111 | at the end of a pass the cache holds exactly one entry per distinct edge, each a distinct new vertex averaging its edge, and every triangle was replaced by its four |
| EdgeCache.SubdividePassVertexCount | app/src/PlaneGeometry.js:49-90 | a pass appends exactly one vertex per distinct unordered edge |
| EdgeCache.SubdividePassMidpoint | app/src/IcosahedronGeometry.js:71-100 | every edge gets one new vertex, the same in both orientations, equal to the average of its end vertices |
| EdgeCache.SubdividePassDistinct | app/src/IcosahedronGeometry.js:71-100 | different edges never share a midpoint vertex |
| EdgeCache.SubdividePassNoStray | app/src/IcosahedronGeometry.js:72-75 | every appended vertex is the midpoint of some edge |
| EdgeCache.SubdividePassSplits | app/src/IcosahedronGeometry.js:103-106 | triangle `j` becomes (i0, i01, i20), (i1, i12, i01), (i2, i20, i12), (i01, i12, i20) at positions `12j .. 12j + 11` |
| EdgeCache.SubdividePassInBox | app/src/PlaneGeometry.js:60-90 | a pass keeps every vertex inside any box that held the old ones |
| EdgeCache.SubdividedInBox | app/src/PlaneGeometry.js:44-104 | any number of passes keeps every vertex in the box of the base vertices |
| EdgeCache.SubdividedVertexBound | app/src/IcosahedronGeometry.js:54-114 | `3 * vertices - indices` never grows across passes |
| IcosahedronGeometry.BaseCorners | app/src/IcosahedronGeometry.js:35-39 | twelve base vertices, each a corner (±1, ±t, 0) of one of the three golden rectangles, up to cyclic shift |
| IcosahedronGeometry.BaseVertices | app/src/IcosahedronGeometry.js:35-39 | the base `vertices` array has 36 entries |
| IcosahedronGeometry.BaseVerticesGolden | app/src/IcosahedronGeometry.js:33-39 | every base vertex read from the flat buffer is a golden-rectangle corner |
| IcosahedronGeometry.BaseIndices | app/src/IcosahedronGeometry.js:42-47 | 60 base indices, every one below 12 |
| IcosahedronGeometry.BaseMesh | app/src/IcosahedronGeometry.js:35-47 | the base mesh is valid, with 12 vertices and 20 triangles |
| IcosahedronGeometry.Unprojected | app/src/IcosahedronGeometry.js:49 | the subdivided buffers form a valid mesh |
| IcosahedronGeometry.ProjectToRadius | app/src/IcosahedronGeometry.js:123-127 | `applyRadius` on one vertex: kept when its magnitude rounds to 0, otherwise the `normalize`d vertex times `radius` |
| IcosahedronGeometry.ProjectToRadiusScales | app/src/IcosahedronGeometry.js:123-127 | a vertex whose magnitude rounds to 0 is kept; any other one, multiplied back by its magnitude, is the vertex scaled by `radius` |
| IcosahedronGeometry.ProjectedOnSphere | app/src/IcosahedronGeometry.js:123-127 | where `Math.sqrt` is exact, a projected vertex lies on the sphere of radius `radius` |
| IcosahedronGeometry.ProjectedUpTo | app/src/IcosahedronGeometry.js:116-131 | the first `n` projected vertices take `3n` entries |
| IcosahedronGeometry.Projected | app/src/IcosahedronGeometry.js:116-131 | `applyRadius` keeps the buffer length |
| IcosahedronGeometry.ProjectedVertex | app/src/IcosahedronGeometry.js:116-131 | `applyRadius` keeps vertex count and order, and vertex `j` becomes the projection of vertex `j` |
| IcosahedronGeometry.ProjectInPlace | app/src/IcosahedronGeometry.js:119-127 | one loop body overwrites entries `i .. i + 2` with the projection of that vertex and no other entry |
| IcosahedronGeometry.NormalTriple | app/src/IcosahedronGeometry.js:136-137 | each element of `indices` pushes three entries |
| IcosahedronGeometry.NormalsOf | app/src/IcosahedronGeometry.js:133-139 | `calculateNormals` emits three entries per element of `indices` |
| IcosahedronGeometry.NormalsOfEntry | app/src/IcosahedronGeometry.js:135-137 | normal `i` is the normalized vertex `i` (not vertex `indices[i]`) while `i` is a vertex number, and NaN beyond |
| IcosahedronGeometry.Generated | app/src/IcosahedronGeometry.js:32-52 | the generated buffers form a valid mesh |
| IcosahedronGeometry.GeneratedIndexCount | app/src/IcosahedronGeometry.js:42-113 | after `detail` passes there are `60 * 4^detail` indices |
| IcosahedronGeometry.GeneratedFewerVertices | app/src/IcosahedronGeometry.js:54-114 | the generated mesh always has fewer vertices than index entries |
| IcosahedronGeometry.GeneratedNormalsNaN | app/src/IcosahedronGeometry.js:133-139 | so the normal of the first index past the last vertex is NaN |
| IcosahedronGeometry.GeneratedOnSphere | app/src/IcosahedronGeometry.js:116-131 | where `Math.sqrt` is exact, every generated vertex not kept by the zero guard lies on the sphere of radius `radius` |
| IcosahedronGeometry.IcosahedronGeometry.constructor | app/src/IcosahedronGeometry.js:7-11 | stores radius and detail, and the buffers are those `generateGeometry` builds |
| IcosahedronGeometry.IcosahedronGeometry.GenerateGeometry | app/src/IcosahedronGeometry.js:32-52 | base mesh, subdivision, `applyRadius` and `calculateNormals` leave exactly `Generated(radius, detail)` and its normals; radius and detail are untouched |
| IcosahedronGeometry.IcosahedronGeometry.Subdivide | app/src/IcosahedronGeometry.js:54-114 | the buffers become `Subdivided(old buffers, detail)`; nothing else changes |
| IcosahedronGeometry.IcosahedronGeometry.ApplyRadius | app/src/IcosahedronGeometry.js:116-131 | the in-place loop leaves `Projected(old vertices)`, same length; indices and normals unchanged |
| IcosahedronGeometry.IcosahedronGeometry.CalculateNormals | app/src/IcosahedronGeometry.js:133-139 | `normals` becomes one normal per index, from vertex `i`; vertices and indices unchanged |
| PlaneGeometry.BaseCorners | app/src/PlaneGeometry.js:26-31 | four base vertices, all on the square [-1, 1] x {0} x [-1, 1] |
| PlaneGeometry.BaseVertices | app/src/PlaneGeometry.js:26-31 | the base `vertices` array has 12 entries |
| PlaneGeometry.BaseIndices | app/src/PlaneGeometry.js:33-36 | six base indices, all below 4 |
| PlaneGeometry.BaseMesh | app/src/PlaneGeometry.js:26-36 | the base mesh is valid, with 4 vertices and 2 triangles |
| PlaneGeometry.BaseInSquare | app/src/PlaneGeometry.js:26-31 | every base vertex read from the flat buffer lies on the square |
| PlaneGeometry.ScaledBy | app/src/PlaneGeometry.js:39 | the `map` keeps the buffer length |
| PlaneGeometry.ScaledVertex | app/src/PlaneGeometry.js:39 | scaling keeps vertex count and order and scales each vertex by `size` |
| PlaneGeometry.Generated | app/src/PlaneGeometry.js:25-42 | the generated buffers form a valid mesh |
| PlaneGeometry.GeneratedIndexCount | app/src/PlaneGeometry.js:33-104 | after `detail` passes there are `6 * 4^detail` indices |
| PlaneGeometry.ScaledInSquare | app/src/PlaneGeometry.js:39 | a scaled point of the square stays flat and within the absolute value of `size` |
| PlaneGeometry.GeneratedFlat | app/src/PlaneGeometry.js:25-42 | every generated vertex has y = 0 and x, z within the absolute value of `size` |
| PlaneGeometry.UpNormals | app/src/PlaneGeometry.js:106-112 | three entries per element of `indices` |
| PlaneGeometry.UpNormalsEntry | app/src/PlaneGeometry.js:106-112 | every normal is (0, 1, 0) |
| PlaneGeometry.PlaneGeometry.GenerateGeometry | app/src/PlaneGeometry.js:25-42 | leaves exactly `Generated(size, detail)` and the up normals; size and detail untouched |
| PlaneGeometry.PlaneGeometry.Subdivide | app/src/PlaneGeometry.js:44-104 | the buffers become `Subdivided(old buffers, detail)`; nothing else changes |
| PlaneGeometry.PlaneGeometry.CalculateNormals | app/src/PlaneGeometry.js:106-112 | `normals` becomes `3 * indices.length` entries of (0, 1, 0); nothing else changes |
| SphereGeometry.Clamped | app/src/SphereGeometry.js:71-72 | `max(least, floor(x))`: at least both, and equal to one of them |
| SphereGeometry.ThetaEnd | app/src/SphereGeometry.js:74 | `min(thetaStart + thetaLength, PI)`: at most both, and equal to one of them |
| SphereGeometry.ShapeOf | app/src/SphereGeometry.js:70-74 | the grid has at least 3 columns and 2 rows of quads |
| SphereGeometry.ClampedAgain | app/src/SphereGeometry.js:71-72 | clamping the stored, already clamped count changes nothing |
| SphereGeometry.UOffset | app/src/SphereGeometry.js:94-99 | only pole rows are shifted: right by exactly half a column (`0.5 / W`) on the first row when `thetaStart` is 0, otherwise left by exactly half a column on the last row when `thetaEnd` is PI, and 0 on every row in between |
| SphereGeometry.SphereVertex | app/src/SphereGeometry.js:105-107 | the vertex at longitude `phiStart + u * phiLength` and colatitude `thetaStart + v * thetaLength`; where `sin` and `cos` satisfy the Pythagorean identity it lies on the sphere of `radius` |
| SphereGeometry.RowStartIsProduct | app/src/SphereGeometry.js:89-119 | row `iy` starts at vertex `iy * (W + 1)` |
| SphereGeometry.RowStartGrows | app/src/SphereGeometry.js:89-119 | later rows start later |
| SphereGeometry.GridPointsEntry | app/src/SphereGeometry.js:89-120 | point number `iy * (W + 1) + ix` is grid vertex (iy, ix): numbering is row-major and sequential |
| SphereGeometry.SphereVertexAt | app/src/SphereGeometry.js:101-109 | `vertices` holds exactly (H + 1)(W + 1) vertices, vertex `iy(W + 1) + ix` at the position of (iy, ix) |
| SphereGeometry.SphereNormalAt | app/src/SphereGeometry.js:111-113 | `normals` holds the normalized grid vertices in the same order |
| SphereGeometry.SphereUvAt | app/src/SphereGeometry.js:93-116 | `uv` has two entries per vertex, `u + uOffset` and `1 - v` |
| SphereGeometry.FlattenTexEntry | app/src/SphereGeometry.js:116 | entries `2i` and `2i + 1` of `uv` are the coordinates of vertex `i` |
| SphereGeometry.KeepsUpper | app/src/SphereGeometry.js:131 | the (a, b, d) triangle is kept on every quad row but the first, and on the first too when `thetaStart > 0` |
| SphereGeometry.KeepsLower | app/src/SphereGeometry.js:132 | the (b, c, d) triangle is kept on every quad row but the last, and on the last too when `thetaEnd < PI` |
| SphereGeometry.QuadTriangles | app/src/SphereGeometry.js:125-133 | a quad pushes 0, 1 or 2 triangles, as the pole conditions keep them |
| SphereGeometry.QuadRowLength | app/src/SphereGeometry.js:125-133 | a quad row pushes `3 * kept * W` indices |
| SphereGeometry.TrianglesUpToCount | app/src/SphereGeometry.js:124-134 | every quad row keeps two triangles per quad except the pole rows |
| SphereGeometry.SphereIndexCount | app/src/SphereGeometry.js:124-134 | `indices` holds `2WH` triangles, less one row of W for each pole the theta range reaches |
| SphereGeometry.QuadRowBelow | app/src/SphereGeometry.js:126-132 | every index of a quad row names a grid vertex |
| SphereGeometry.SphereIndicesBelow | app/src/SphereGeometry.js:124-134 | every index is a vertex number below (H + 1)(W + 1) |
| SphereGeometry.GridGrows | app/src/SphereGeometry.js:117-119 | appending a row numbered from its row start keeps `grid[iy][ix] == iy(W + 1) + ix` |
| SphereGeometry.PushVertex | app/src/SphereGeometry.js:109-116 | one vertex pushes 3 position, 3 normal and 2 uv entries |
| SphereGeometry.GridBuffersVertices | app/src/SphereGeometry.js:89-120 | the position buffer is the grid points, row by row |
| SphereGeometry.GridBuffersNormals | app/src/SphereGeometry.js:89-120 | the normal buffer is the grid normals, row by row |
| SphereGeometry.GridBuffersTexCoords | app/src/SphereGeometry.js:89-120 | the uv buffer is the texture coordinates, row by row |
| SphereGeometry.VertexRow | app/src/SphereGeometry.js:101-118 | the inner loop pushes row `iy` and numbers its vertices `index .. index + W` |
| SphereGeometry.VertexPass | app/src/SphereGeometry.js:89-120 | the first loop nest builds the grid buffers and a row-major numbered grid |
| SphereGeometry.IndexPass | app/src/SphereGeometry.js:124-134 | the second loop nest, reading the quad corners from the grid, emits exactly `QuadRows` |
| SphereGeometry.SphereGeometry.CurrentShape | app/src/SphereGeometry.js:70-74 | the fields describe a grid of at least 3 by 2 quads |
| SphereGeometry.SphereGeometry.ClampSegments | app/src/SphereGeometry.js:71-74 | the segment counts are floored and raised to 3 and 2 in place; the described shape is unchanged |
| SphereGeometry.SphereGeometry.GenerateGeometry | app/src/SphereGeometry.js:70-141 | clamps in place, then replaces all four buffers wholesale by the grid buffers and `QuadRows` |
| NoiseGenerator.OrDefault | app/src/NoiseGenerator.js:81-86 | a stored number is kept unless it is missing or 0, which are falsy |
| NoiseGenerator.NewLayer | app/src/NoiseGenerator.js:68-91 | a new layer has its id, `view` always true, no zero setting, and mask iff `true` was stored |
| NoiseGenerator.NewLayerDefaults | app/src/NoiseGenerator.js:81-88 | with nothing stored, the defaults are 15, 4, 0.5, 2, 1, 1, visible, unmasked |
| NoiseGenerator.NewLayerOverridesFalsy | app/src/NoiseGenerator.js:85-87 | a stored `minValue` of 0 becomes 1, and a stored `view` of false becomes true |
| NoiseGenerator.Iterations | app/src/NoiseGenerator.js:173 | `for (i = 0; i < octaves; i++)` runs the least `n` with `n >= octaves` times |
| NoiseGenerator.IterationsReached | app/src/NoiseGenerator.js:173 | the loop stops exactly after that many passes |
| NoiseGenerator.Sample | app/src/NoiseGenerator.js:174 | `noise3D` at the point scaled by `frequency / scale`: the point itself when the two are equal, the origin at frequency 0 |
| NoiseGenerator.OctavePass | app/src/NoiseGenerator.js:174-181 | one pass: sample at `frequency / scale`, weight it, feed it forward, add `(v + 1) * 0.5 * amplitude`, step amplitude and frequency |
| NoiseGenerator.OctaveSchedule | app/src/NoiseGenerator.js:169-181 | after `n` passes amplitude is `persistance^n` and frequency `0.71 * roughness^n` |
| NoiseGenerator.OctaveFeedback | app/src/NoiseGenerator.js:174-176 | the weight after a pass is the previous sample times the previous weight |
| NoiseGenerator.NoiseLayer.Get | app/src/NoiseGenerator.js:168-186 | the octave loop computes `LayerValue`: `max(0, height - minValue) * strength` after `Iterations(octaves)` passes |
| NoiseGenerator.LayerValue | app/src/NoiseGenerator.js:183-185 | what `get` returns: 0 at strength 0; at positive strength, positive exactly when the accumulated height exceeds `minValue` |
| NoiseGenerator.LayerValueNonNegative | app/src/NoiseGenerator.js:183-185 | a layer with `strength >= 0` never returns a negative value |
| NoiseGenerator.LayerValueBelowMinimum | app/src/NoiseGenerator.js:183 | a layer whose height does not exceed `minValue` returns 0 |
| NoiseGenerator.MixUpTo | app/src/NoiseGenerator.js:46-64 | the `firstNoise` and `n` accumulators after the first k layers; its properties are the lemmas below |
| NoiseGenerator.MixUpToNext | app/src/NoiseGenerator.js:50-60 | one layer moves the accumulators: a disabled one not at all, layer 0 sets both to its value, a masked one adds `firstNoise` times its value, any other adds its value |
| NoiseGenerator.NoiseAt | app/src/NoiseGenerator.js:46-64 | what `getNoise` returns: `n` after every layer; `GetNoise` is proved to compute it |
| NoiseGenerator.FirstNoise | app/src/NoiseGenerator.js:47-55 | `firstNoise` is layer 0's value when layer 0 is enabled, else it stays 1 |
| NoiseGenerator.DisabledLayerSkipped | app/src/NoiseGenerator.js:52 | a disabled layer changes neither accumulator |
| NoiseGenerator.AllDisabledGivesZero | app/src/NoiseGenerator.js:47-63 | an empty or all-disabled stack returns 0 |
| NoiseGenerator.NoiseNonNegative | app/src/NoiseGenerator.js:46-64 | with non-negative strengths, the total is non-negative, masked or not |
| NoiseGenerator.MaskedPair | app/src/NoiseGenerator.js:53-57 | layers 0 and 1 enabled, 1 masked: the total is `l0 + l0 * l1` |
| NoiseGenerator.MaskWithoutFirstLayer | app/src/NoiseGenerator.js:47-57 | behind a disabled layer 0, a masked layer is added unscaled |
| NoiseGenerator.NoiseHandler.constructor | app/src/NoiseGenerator.js:10-13 | a new handler has no layers and `layerIdx` 0 |
| NoiseGenerator.NoiseHandler.AddNoiseLayer | app/src/NoiseGenerator.js:33-44 | appends exactly one new layer and returns it; a falsy id takes `layerIdx++` |
| NoiseGenerator.NoiseHandler.GetNoise | app/src/NoiseGenerator.js:46-64 | the layer loop computes `NoiseAt`: first noise from layer 0, masked layers multiplied by it, others added |
| Terrain.HeightAt | app/src/PlanetDrawer.js:106-110 | the height of vertex `j`: `getNoise` at 20 times its three coordinates |
| Terrain.HeightsOf | app/src/PlanetDrawer.js:103-115 | exactly one height per vertex |
| Terrain.HeightsOfEntry | app/src/PlanetDrawer.js:105-110 | height `j` is `getNoise` at vertex `j`'s coordinates times 20 |
| Terrain.MaxFrom | app/src/PlanetDrawer.js:104-113 | `max` after `Math.max(max, n)` over the heights from 0; `MaxFromIsMaximum` states its properties |
| Terrain.MinFrom | app/src/PlanetDrawer.js:104-113 | `min` after `Math.min(min, n)` over the heights from 999; `MinFromIsMinimum` states its properties |
| Terrain.MaxFromIsMaximum | app/src/PlanetDrawer.js:104-112 | `max`, started at 0, is at least 0, at least every height, and is 0 or one of them |
| Terrain.MinFromIsMinimum | app/src/PlanetDrawer.js:104-113 | `min`, started at 999, is at most 999, at most every height, and is 999 or one of them |
| Terrain.HeightsBetweenBounds | app/src/OceanDrawer.js:27-36 | `min <=` every height `<= max` |
| Terrain.Shade | app/src/PlanetDrawer.js:126 | `(e - min) / (max - min)` is NaN iff `max == min` |
| Terrain.ShadeOf | app/src/OceanDrawer.js:44 | a vertex's shade is NaN iff every height gives the same bounds |
| Terrain.ShadeInUnit | app/src/PlanetDrawer.js:126 | when `max > min` the shade is a number in [0, 1] |
| Terrain.ShadeEnds | app/src/PlanetDrawer.js:126 | the lowest height gets shade 0 and the highest 1 |
| Terrain.ShadeMonotonic | app/src/PlanetDrawer.js:126 | a higher vertex never gets a lower shade |
| Terrain.SampleHeights | app/src/PlanetDrawer.js:103-115 | the first loop records `HeightsOf` the vertices and their running `max` and `min` |
| PlanetDrawer.DefaultGradient | app/src/PlanetDrawer.js:21 | two stops, black at 0 and white at 1, already in `pos` order |
| PlanetDrawer.ScaleVertexAt | app/src/PlanetDrawer.js:122-124 | scaling one vertex keeps the buffer length |
| PlanetDrawer.Displaced | app/src/PlanetDrawer.js:120-124 | displacement keeps the buffer length |
| PlanetDrawer.DisplacedStep | app/src/PlanetDrawer.js:120-124 | handling vertex `j` at `i = 3j` extends the displaced prefix by one vertex |
| PlanetDrawer.ScaleVertexAtVertex | app/src/PlanetDrawer.js:122-124 | scaling the vertex at `3k` scales vertex `k` and no other |
| PlanetDrawer.DisplacedVertex | app/src/PlanetDrawer.js:120-124 | vertex `j` is multiplied by `1 + heights[j]`, its own height; vertices not yet reached are untouched |
| PlanetDrawer.FlatVertexStays | app/src/PlanetDrawer.js:122-124 | a vertex of height 0 does not move |
| PlanetDrawer.DisplaceVertex | app/src/PlanetDrawer.js:122-124 | the three in-place multiplications scale exactly that vertex |
| PlanetDrawer.ColorTriple | app/src/PlanetDrawer.js:127 | each vertex pushes three colour entries |
| PlanetDrawer.ColorsOf | app/src/PlanetDrawer.js:118-128 | `colors` has three entries per vertex, as many as `vertices` |
| PlanetDrawer.ColorsStep | app/src/PlanetDrawer.js:126-127 | colouring vertex `j` pushes the gradient colour at its shade |
| PlanetDrawer.ColorsOfEntry | app/src/PlanetDrawer.js:126-127 | entries `3j .. 3j + 2` are vertex `j`'s gradient colour over 255 |
| PlanetDrawer.DisplaceAndColor | app/src/PlanetDrawer.js:118-128 | the second loop leaves `Displaced` vertices and `ColorsOf` colours |
| PlanetDrawer.InsertByPos | app/src/PlanetDrawer.js:66 | inserting a stop adds one element |
| PlanetDrawer.SortedStops | app/src/PlanetDrawer.js:66 | sorting keeps the number of stops |
| PlanetDrawer.InsertByPosPermutes | app/src/PlanetDrawer.js:66 | inserting adds exactly that stop |
| PlanetDrawer.InsertByPosSorted | app/src/PlanetDrawer.js:66 | inserting into sorted stops keeps them sorted |
| PlanetDrawer.SortedStopsSorted | app/src/PlanetDrawer.js:66 | the sorted stops ascend by `pos` |
| PlanetDrawer.SortedStopsPermutes | app/src/PlanetDrawer.js:66 | the sorted stops are a permutation of the input |
| PlanetDrawer.SortedStopsKeepsSorted | app/src/PlanetDrawer.js:66 | already sorted stops are left as they are |
| PlanetDrawer.InsertByPosAtPos | app/src/PlanetDrawer.js:66 | inserting a stop puts it after every stop at its own position and leaves the stops at other positions as they were |
| PlanetDrawer.SortedStopsStable | app/src/PlanetDrawer.js:66 | the sort is stable: the stops at any one position keep their relative order |
| PlanetDrawer.SortByPos | app/src/PlanetDrawer.js:66 | the array is rearranged in place into the stable sort `SortedStops` of what it held: ascending `pos` order, a permutation |
| PlanetDrawer.NewGeometry | app/src/PlanetDrawer.js:25-27 | a fresh icosahedron with the given radius and detail |
| PlanetDrawer.NewHandler | app/src/PlanetDrawer.js:39-43 | a fresh handler, given one default layer because it has none |
| PlanetDrawer.PlanetDrawer.HeightMapped | app/src/PlanetDrawer.js:100-129 | the state `generateHeightMap` leaves: the regenerated mesh with each vertex pushed out by its height, and one gradient colour per vertex |
| PlanetDrawer.PlanetDrawer.constructor | app/src/PlanetDrawer.js:24-75 | stored radius and detail or 0.7 and 3; one layer; the default gradient, as when no stops are saved; then the height map is built |
| PlanetDrawer.PlanetDrawer.GenerateHeightMap | app/src/PlanetDrawer.js:100-129 | the mesh is regenerated, then each vertex is scaled by `1 + h` where h is its height sampled on the undisplaced mesh, and coloured at its shade; a repeat call gives the same state, so displacement never compounds |
| PlanetDrawer.PlanetDrawer.OnGradientChange | app/src/PlanetDrawer.js:65-71 | the stops are stably sorted in place (`SortedStops`); with at least two they are adopted and the map regenerated, otherwise gradient, colours and geometry are unchanged |
| OceanDrawer.OceanLayer | app/src/OceanDrawer.js:15-17 | the layer with `scale` 2.5, `minValue` 0 and `strength` 1; `OceanLayerValue` states what it returns |
| OceanDrawer.OceanLayerValue | app/src/OceanDrawer.js:15-17 | the reconfigured layer is sampleable and returns its height clamped at 0, and its other settings are unchanged |
| OceanDrawer.GreysOf | app/src/OceanDrawer.js:40-46 | one colour triple per vertex |
| OceanDrawer.GreysStep | app/src/OceanDrawer.js:43-45 | shading vertex `j` pushes its shade three times |
| OceanDrawer.GreysOfEntry | app/src/OceanDrawer.js:44-45 | every vertex's r, g and b are equal, all its shade |
| OceanDrawer.GreysInUnit | app/src/OceanDrawer.js:44 | when `max > min` every component is a number in [0, 1]; when equal, NaN |
| OceanDrawer.ShadeVertices | app/src/OceanDrawer.js:40-46 | the second loop pushes exactly `GreysOf` the heights |
| OceanDrawer.NewOceanGeometry | app/src/OceanDrawer.js:7-9 | a fresh icosahedron with the given radius and detail, holding whole vertices |
| OceanDrawer.NewOceanHandler | app/src/OceanDrawer.js:12-17 | a fresh handler with one layer, set to scale 2.5, minValue 0 and strength 1 |
| OceanDrawer.OceanDrawer.constructor | app/src/OceanDrawer.js:6-23 | stored radius and detail or 0.4 and 3; the one reconfigured layer; then the first colours |
| OceanDrawer.OceanDrawer.GenerateNoise | app/src/OceanDrawer.js:25-47 | reads but never writes the geometry; `colors` becomes the grey shades of heights sampled on its vertices |

## Left out

- Rendering is not modelled: WebGL, the shaders, uniforms and draw calls (app/src/Drawer.js, app/src/App.js), and the matrices built only for the GPU (`GetModelViewMatrix`, the rest of `ProjectionMatrix`).
- UI and persistence are not modelled:
  - app/src/Controls.js is not part of this model. That also leaves out `addControls`, the slider and checkbox callbacks, `updateLocalStorage` and the `updateNoise`/`draw` events.
  - `NoiseHandler.addControls` restores stored layer ids. It is left out, so the planet's handler starts empty and always gets its one layer from `addNoiseLayer()`.
- Floating point is not modelled. The model works on exact reals:
  - `Math.sqrt`, `sin`, `cos` and `PI` are opaque parameters;
  - `Number(x.toFixed(5)) === 0` is modelled as `|x| < 0.000005`;
  - `NaN` appears only where the code can produce it.
- Dependencies are opaque parameters:
  - the simplex generator seeded by `Math.random` is a `Noise3D`;
  - tinygradient's interpolation is a `ColorAt`.
- A stored radius or detail that is an empty string (also falsy) cannot be expressed. The stored values are `Option`s.
- `PlanetDrawer.updateGeometry` (swapping in a `SphereGeometry` or an icosahedron chosen in the UI) is outside this model: it is driven only by the UI.
- `OceanDrawer.updateGeometry`, `setTexture` and the `PlaneGeometry` constructor are left out: they refer to names that are not defined or not exported.
- `NoiseLayer` is a datatype. Its in-place mutations happen only in UI callbacks, so they are left out. The ocean constructor's writes to the layer it added are modelled by storing the reconfigured layer back at index 0.
- PlanetDrawer.PlanetDrawer.constructor: states `gradient == DefaultGradient()`, which holds when fewer than two gradient stops are saved. The `GradientControl` built in the constructor replays saved stops through `addNewColor`, and each replayed stop calls the gradient callback. One saved stop is never adopted, so the class-field gradient stays. With none saved, the control adds black at 0 and white at 1 and the callback adopts that array, which equals `DefaultGradient()`. With two or more saved stops the constructor ends with them sorted and adopted, as `OnGradientChange` would leave them. The control is not part of this model.
- PlanetDrawer.PlanetDrawer.OnGradientChange: the drawer keeps a copy of the sorted stops, not the array itself, so later writes to the control's array are not seen through `gradient`.
- PlanetDrawer.NewGeometry: states only the radius and detail of the new geometry. `generateHeightMap` regenerates its buffers right away.
- OceanDrawer.OceanDrawer.constructor: does not restate that the mesh is the generated icosphere. That fact is the ensures of `IcosahedronGeometry.IcosahedronGeometry.constructor`. The drawer's contract states the radius, detail, layer and colours.
- NoiseGenerator.NoiseLayer.Get: requires `scale != 0`. A zero scale would divide by zero and sample `noise3D` at infinite coordinates, or at `NaN` where a coordinate is 0. Every constructed layer has a non-zero scale (`NewLayer`), and only the UI could set 0.
- Terrain.Shade: requires the height to lie between the bounds, which holds for every height the drawers compute (`HeightsBetweenBounds`). An infinite shade cannot occur.
