# sineterrain terrain mesh pipeline, modelled in Dafny

sineterrain draws a procedurally generated landscape. A chunk of the
landscape goes through three stages on its way to the GPU, and this
project models and proves all three.

1. **Grid triangulator** (`Terrain::triangles`).
   - It walks a square region of the height field in `detail`-sized steps, x outer and z inner.
   - It samples the four corners of each cell. Two corners roll over from the previous z-step.
   - It emits two triangles per cell: `(C, B, A)`, then `(B, C, D)`.
2. **Mesh builder** (`GenMeshTriangles`).
   - It computes a bounding box whose `min`/`max` accumulators start at the origin.
   - It fills three flat float buffers: positions (9 per triangle), texture coordinates normalised to the box (6 per triangle), and one flat face normal copied to the three corners (9 per triangle).
3. **Normal smoother** (`Smooth`).
   - A first pass builds a map keyed by exact vertex position. For each triangle it adds the sum of the three corner cross products to the entry of each corner.
   - A second pass overwrites every normal slot with the normalised entry of that slot's position.

The model is split into four modules:

- `Geometry` (`geometry.dfy`).
  - The value types `Vec2`, `Vec3` and `Triangle`.
  - The vector arithmetic.
  - The flattening of points to float buffers and the reading back.
  - Vector equality (`operator==`) is Dafny's structural equality on `Vec3`.
- `Triangulator` (`triangulator.dfy`).
  - The height field `Terrain`, whose `At` is `Terrain::operator[]`.
  - The loop method `Triangles`.
  - The reference grid `Grid`, which evaluates every corner directly.
- `MeshBuilder` (`mesh.dfy`).
  - The `Mesh` class.
  - The bounding-box loop.
  - The buffer-filling loop `FillBuffers`.
  - `GenMeshTriangles`.
- `Smoother` (`smooth.dfy`).
  - The two passes `LinkNormals` and `WriteNormals`.
  - `Smooth`.
  - The reference accumulator `Share`.

Each loop method is proved against a specification function:

| method | specification function |
|---|---|
| `Triangles` | `Grid` |
| `BoundingBox` | `BoxMin` and `BoxMax` |
| `FillBuffers` | `Flatten(Corners(..))`, `Flatten2(TexCoords(..))` and `Flatten(FlatNormals(..))` |
| `LinkNormals` | `Share` |
| `Smooth` | `SmoothNormals` |

Lemmas then prove what the source promises about those functions.

The following stand for things outside the model:

- Coordinates are exact `real`s.
- The height function is the field `f` of `Terrain`.
- `Vector3Normalize` is a parameter `norm: Vec3 -> Vec3` with no properties assumed.
- A C++ `unordered_map` lookup of a missing key yields a zero vector. This is modelled by `Entry`.

## Model

| member | source | states |
|---|---|---|
| Triangulator.Triangles | src/main.cpp:234-264 | the nested loops with the rolling corners `A = C; B = D` produce exactly `Grid`, the grid whose every corner is sampled directly |
| Triangulator.AdvanceIsProduct | src/main.cpp:237 | stepping a coordinate `k` times by `detail` lands on `origin + k * detail` |
| Triangulator.StepCountSpec | src/main.cpp:237 | the number of loop steps is exactly the number of `k` with `k * detail < span` |
| Triangulator.LoopSteps | src/main.cpp:237-246 | step `k` of either loop runs if and only if `k < StepCount`, the loop test `x < position.x + chunkSize - detail` read on the stepped coordinate |
| Triangulator.ColumnsAt | src/main.cpp:237-259 | the two triangles of cell `(i, j)` sit at indices `2(i n + j)` and `2(i n + j) + 1`: x-outer, z-inner order |
| Triangulator.GridLength | src/main.cpp:237-259 | the triangle count is `2 * n * n`, where `n` counts the steps of each loop |
| Triangulator.GridAt | src/main.cpp:242-258 | the cell at `(x, z) = origin + (i, j) * detail` holds `(C, B, A)` then `(B, C, D)`, with A, B, C, D the height samples at `(x, z)`, `(x+d, z)`, `(x, z+d)`, `(x+d, z+d)` |
| Triangulator.GridMembers | src/main.cpp:257-258 | every emitted triangle is one of the two triangles of some cell of the grid |
| Triangulator.GridVertices | src/main.cpp:242-255 | every emitted vertex lies on the height field (`y = f(x, z)`) and horizontally within `[position, position + chunkSize)` |
| Triangulator.GridFacesUp | src/main.cpp:257-258 | both windings produce a face cross product whose y component is `detail^2`, so every face points up |
| Triangulator.FlatGridFaces | src/main.cpp:257-258 | on a flat height field every face cross product is exactly `(0, detail^2, 0)` |
| Geometry.CornersAt | src/main.cpp:99-110 | corner `j` of triangle `i` is vertex `3i + j` of the vertex list |
| Geometry.FlattenAt | src/main.cpp:100-110 | float `3k + c` of a flattened buffer is coordinate `c` of point `k` |
| Geometry.FlattenPoints | src/main.cpp:152-155 | reading a buffer three floats at a time and flattening the points again gives the buffer back, so every float is read exactly once |
| Geometry.PointsFlatten | src/main.cpp:152-155 | reading back a flattened point list gives the list itself |
| MeshBuilder.Mesh.constructor | src/main.cpp:84-90 | `vertexCount = 3 * triangleCount`; the buffers have lengths 9n, 9n and 6n and are distinct |
| MeshBuilder.BoundingBox | src/main.cpp:54-82 | the loop's `min`/`max` are `BoxMin`/`BoxMax` of all corners in order, and on each axis they are the least and greatest of 0 and every coordinate |
| MeshBuilder.BoxBounds | src/main.cpp:54-82 | `min <= 0 <= max` on each axis, every corner lies between, and each bound is 0 or attained by a corner |
| MeshBuilder.BoxSnoc | src/main.cpp:57-80 | one triangle applies one accumulator step per corner, in the order A, B, C |
| MeshBuilder.TexCoordsAt | src/main.cpp:113-120 | texcoord `3i + j` is `((x - min.x) / space.x, (z - min.z) / space.z)` of corner `j` of triangle `i` |
| MeshBuilder.TexCoordsInUnit | src/main.cpp:113-120 | every texcoord lies in `[0, 1]` on each axis where the box has nonzero extent |
| MeshBuilder.UnitTexCoord | src/main.cpp:113-120 | a point inside the box has texcoords in `[0, 1]` wherever the box has extent |
| MeshBuilder.OriginSeededBox | src/main.cpp:54-56 | when every corner has positive x, `min.x` stays 0 and no corner gets `u = 0` (the origin-seeded box) |
| MeshBuilder.FlatNormalsAt | src/main.cpp:123-137 | all three normal slots of triangle `i` hold `norm((B - A) x (C - A))` |
| MeshBuilder.VertexBlock | src/main.cpp:100-110 | floats `9i .. 9i+9` of the position buffer are A, B, C of triangle `i` |
| MeshBuilder.TexBlock | src/main.cpp:113-120 | floats `6i .. 6i+6` of the texcoord buffer are the three corners' `(u, v)` |
| MeshBuilder.NormalBlock | src/main.cpp:123-136 | floats `9i .. 9i+9` of the normal buffer repeat the face normal three times |
| MeshBuilder.StoreThree | src/main.cpp:100-110 | writing nine floats extends the matching prefix by nine and leaves the rest of the array alone |
| MeshBuilder.StoreUVs | src/main.cpp:113-120 | writing six floats extends the matching prefix by six and leaves the rest alone |
| MeshBuilder.EmitTriangle | src/main.cpp:100-137 | one iteration writes triangle `i`'s 9 positions, 6 texcoords and 9 normals, and `vN` is its face normal |
| MeshBuilder.FillBuffers | src/main.cpp:93-138 | with counters advancing by 9, 6 and 9, the three buffers end up equal to the flattened corners, texcoords and flat normals |
| MeshBuilder.GenMeshTriangles | src/main.cpp:53-145 | a fresh valid mesh with `triangleCount = n`, `vertexCount = 3n` and the three buffers laid out as above, with texcoords normalised to the origin-seeded box |
| Smoother.TriSumIsTriple | src/main.cpp:157-161 | the three corner cross products are equal over exact arithmetic, so the per-triangle sum is `3 * (B - A) x (C - A)` |
| Smoother.ZeroEntry | src/main.cpp:163-165 | inserting a zero vector for a missing key adds the key and changes no entry's value |
| Smoother.AddEntry | src/main.cpp:167-169 | adding the sum to a present key's entry changes that entry alone |
| Smoother.LinkChain | src/main.cpp:167-169 | the three additions together add the sum once per corner at each position, twice for a position at two corners |
| Smoother.Link | src/main.cpp:163-169 | one triangle's step adds its three corners to the keys and adds `hits * sum` to every entry |
| Smoother.SeenStep | src/main.cpp:163-165 | triangle `k`'s three vertices add exactly their three positions to the key set |
| Smoother.ShareBySlot | src/main.cpp:163-169 | the accumulator per triangle equals the sum over vertex slots at `p` of their triangle's sum |
| Smoother.LinkTriangle | src/main.cpp:152-169 | reading triangle `k` from floats `9k` on and linking it moves the map from `k` to `k + 1` triangles |
| Smoother.LinkNormals | src/main.cpp:148-172 | after the first pass the keys are exactly the positions in the buffer and each entry is `Share`, the sum of the triangle sums over every occurrence of the position |
| Smoother.SmoothSlot | src/main.cpp:176-181 | slots `3k .. 3k+3` of the smoothed buffer hold the normalised accumulator of vertex `k`'s position |
| Smoother.SharedPositionsShareNormals | src/main.cpp:175-181 | two vertices at the same position receive the same smoothed normal |
| Smoother.StorePoint | src/main.cpp:179-181 | writing three floats extends the matching prefix by three and leaves the rest alone |
| Smoother.SmoothVertex | src/main.cpp:176-183 | one iteration writes vertex `k`'s smoothed normal into its three slots |
| Smoother.WriteNormals | src/main.cpp:174-184 | the second pass leaves the normal buffer equal to the flattened smoothed normals |
| Smoother.Smooth | src/main.cpp:147-189 | afterwards every normal slot holds the normalised accumulator of its position; positions, texcoords and counts are unchanged |
| Smoother.UpwardShare | src/main.cpp:163-169 | when every triangle sum points straight up, every accumulator points straight up, and it is positive for every position seen |
| Smoother.FlatSums | src/main.cpp:157-161 | on a flat grid every triangle sum is `(0, 3 detail^2, 0)` |
| Smoother.FlatTerrainSmoothsUp | src/main.cpp:147-184 | on a flat terrain every smoothed normal is `norm` of a vector `(0, y, 0)` with `y > 0` |

## Left out

- The height function's body (src/main.cpp:365-394) is left out. It is trigonometry, `tanh` and floating-point domain warping. `Terrain` takes any function of the horizontal position instead.
- The `std::hash` specialisations (src/main.cpp:22-43) are left out. Map keys here match by value, exactly as `operator==` (src/main.cpp:45-47) compares them. The smoother's `Vector3` hash takes `x` and `y` through the raw-bit `Vector2` hash (src/main.cpp:24-25, 39), so the model agrees with the source only for positions that are bit-identical whenever they are equal. Two cases differ. `+0.0` and `-0.0` compare equal but may land in separate entries. A NaN position matches no entry, not even itself. `Terrain::triangles` computes a shared corner by the same expression each time it emits it, so its shared positions are bit-identical. That is not proved, because floats are not modelled.
- `UploadMesh` (src/main.cpp:140), `UpdateMeshBuffer` (src/main.cpp:186), `TraceLog`, `RL_MALLOC` and `LoadModelFromMesh` are left out. They are GPU, logging and allocator calls. Allocation is `new` in `Mesh.constructor`. Line 186 passes buffer index 0, the positions, rather than the normals, so the smoothed normals do not reach the GPU there. That is outside the model.
- `Terrain::remap`, the commented-out height cache (src/main.cpp:195-232), `Terrain::model`, `LightSrc`, `Agent` and `main` are left out. They are dead tuning code, animation, input and drawing.
- Float rounding is left out. All arithmetic is exact over `real`.
- Float drift of the loop counters is left out. `x += detail` is modelled as exact repeated addition (`Advance`), so the step count is the exact count of `k` with `k * detail < chunkSize - detail`.
- Triangles: requires `detail > 0`. With `detail <= 0` and a non-empty region, the source's loops never end.
- MeshBuilder.Ratio: a zero-extent box makes the source divide by zero and store NaN. The model stores 0 instead. `TexCoordsInUnit` claims nothing on such an axis.
- The `norm` parameter: `Vector3Normalize` is left uninterpreted, so unit length is not proved.
- Triangles: the 2-D copies `a = c; b = d` (src/main.cpp:247-248) are never read afterwards, so they are not modelled. `c` and `d` are modelled: they are the sample points of `terrain[c]` and `terrain[d]` (src/main.cpp:244-245, 254-255), which the method reads through `Sample`.
- The `int` counters and `mesh->vertexCount * 3` can overflow for very large meshes. Counts are unbounded `nat`s here.
- LinkNormals: requires `vertexCount % 3 == 0`, which every mesh built by `GenMeshTriangles` satisfies. For other counts the source's last triangle read runs past the buffer.
- Smooth: the address-based walk over `mesh->vertices` is modelled with an index. Aliasing between the mesh's buffers is excluded by `Mesh.Valid`.
