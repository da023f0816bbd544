# Cloth grid topology — a Dafny model

This project models the CPU-side construction of a GPU mass-spring cloth
simulation (`MyApp::new` and `update` in `src/main.rs`). The cloth is a square
grid with R vertices per row, numbered row-major. The model covers four things:

- the **spring adjacency list**. Every vertex gets twelve springs in a fixed
  slot order: structural (column −1, row −1, column +1, row +1), then shear
  (diagonals (−1,−1), (+1,−1), (+1,+1), (−1,+1) as (Δrow, Δcol)), then bend
  (column −2, row −2, column +2, row +2). A neighbour off the grid is stored
  as the sentinel index `R*R + 1`. Every slot carries its category's rest
  length.
- the **triangle index list**: two triangles per grid cell, stored as 16-bit
  indices.
- the **vertex push order** and the **zero initial velocities**.
- the **workgroup count** `ceil(R*R / 128)` used by both compute dispatches.

R is the type `Grid.Resolution`, a natural number of at least 2. Rest lengths
are exact reals: `size / (R − 1)`, times `1.41421356237` for shear springs and
times `2.0` for bend springs. Spring indices are unbounded integers. The
source stores them as `f32`. With fewer than 2^24 vertices (R ≤ 4095) every
stored index is at most 2^24, so `f32` holds it exactly
(`SpringProperties.SpringIndicesExactInF32`); larger grids are not modelled.

Files:

- `grid.dfy` (`Grid`): row-major coordinates, `Neighbor` (the reference
  notion of "the vertex at this offset, if any"), and the arithmetic facts
  behind them.
- `springs.dfy` (`Springs`): the spring record and the generator. The
  generator follows the source's three `for j in [-1, 1]` loops and its
  per-link bounds checks. Next to it is a reference slot table
  (`SlotOffset`, `SlotCategory`), and the two are proved equal.
- `spring_properties.dfy` (`SpringProperties`): where each slot points, when
  a slot holds the sentinel, symmetry, boundary counts, and the 3 × 3 worked
  example.
- `mesh.dfy` (`ClothMesh`): vertex order, zero velocities, and the triangle
  indices with their geometry.
- `dispatch.dfy` (`Dispatch`): the workgroup count.
- `cloth.dfy` (`Cloth`): the whole construction. It states bounds on every
  stored index relative to the buffers it indexes.

The sentinel follows the code, which writes `R*R + 1` (one past
one-past-the-end). The model assumes that a stored link is read back with a
range check: `Springs.Decode` reads every value outside `[0, R*R)` as "no
neighbour". If the kernels test the range, any value at or past `R*R` would
serve as the sentinel.

The source enforces the minimum of two vertices per row only in a comment on
a compile-time constant. It has no runtime configuration error, so the model
makes the minimum a type (`Resolution`) and has no error path.

## Model

| member | source | states |
|---|---|---|
| Grid.IndexCoords | src/main.rs:332-333 | in-range (row, col) gives a vertex index below R*R; dividing and taking the remainder by R recover row and col |
| Grid.CoordsIndex | src/main.rs:332-333 | every vertex below R*R has row and column below R, and `row * R + col` rebuilds it |
| Grid.Neighbor | src/main.rs:337-340 | the displaced position is a vertex iff both coordinates stay in [0, R); that vertex has exactly the displaced coordinates |
| Grid.NeighborInverse | src/main.rs:335-404 | stepping by an offset and then by its negation returns to the start vertex |
| Springs.Opposite | src/main.rs:335-404 | each slot has a partner slot of the same category whose offset is the negated offset |
| Springs.ColumnLinkIsNeighbor | src/main.rs:337-340 | the code's column-step link, which checks only the column, equals the reference neighbour or the sentinel |
| Springs.RowLinkIsNeighbor | src/main.rs:347-350 | the code's row-step link, which checks only the row, equals the reference neighbour or the sentinel |
| Springs.DiagonalLinkIsNeighbor | src/main.rs:362-365 | the code's diagonal link, which checks both axes, equals the reference neighbour or the sentinel |
| Springs.VertexSprings | src/main.rs:331-405 | each vertex produces exactly 12 records, all with origin v |
| Springs.Slot | src/main.rs:337-340 | the reference record for a slot holds a valid vertex index or exactly the sentinel R*R+1 |
| Springs.VertexSpringsLayout | src/main.rs:335-404 | slot k of the generated springs links to the neighbour at SlotOffset(k), or the sentinel when that is off-grid, with rest length of SlotCategory(k) |
| Springs.BuildSprings | src/main.rs:329-406 | the list has 12·R² entries; entry i has origin i/12, a valid or sentinel link, and equals slot i%12 of vertex i/12 |
| SpringProperties.DecodeEncode | src/main.rs:337-340 | storing a neighbour or its absence and reading it back gives the same neighbour or absence |
| SpringProperties.StoredLinkDecodes | src/main.rs:335-404 | reading a stored link back gives exactly the neighbour the slot's offset names |
| SpringProperties.LinkTarget | src/main.rs:360-404 | a slot holds the sentinel iff its offset leaves [0,R) on either axis; otherwise it holds the vertex at v's coordinates plus the offset |
| SpringProperties.RowLinksNeverWrap | src/main.rs:337-340 | a column-step link (slots 0, 2, 8, 10) never wraps into another row; it is the sentinel iff the column leaves [0,R) |
| SpringProperties.NoSelfLinks | src/main.rs:335-404 | no slot links a vertex to itself |
| SpringProperties.DistinctLinks | src/main.rs:335-404 | two different slots of one vertex never hold the same real neighbour |
| SpringProperties.LinkSymmetry | src/main.rs:335-404 | if v links to w in slot k, then w links back to v in the opposite slot, with the same category and rest length |
| SpringProperties.RestLengthByCategory | src/main.rs:344 | rest length depends only on the slot's category, for every vertex, whether or not the slot is the sentinel |
| SpringProperties.RestLengthRatios | src/main.rs:369 | structural rest length is size/(R−1); shear is that times 1.41421356237; bend is twice it |
| SpringProperties.SpringIndicesExactInF32 | src/main.rs:342-343 | with fewer than 2^24 vertices, every stored origin and link is at most 2^24, so f32 holds it exactly |
| SpringProperties.NoSentinelsBelow | src/main.rs:339 | a prefix has no sentinel entries (count 0) iff none of its entries is the sentinel |
| SpringProperties.CornerSlotPattern | src/main.rs:335-404 | at corner vertex 0, slots 0, 1, 4, 5, 7, 8, 9 are the sentinel; slots 2, 3, 6 are real links; slots 10 and 11 are the sentinel iff R = 2 |
| SpringProperties.CornerSentinels | src/main.rs:338-398 | corner vertex 0 has 7 sentinel slots (9 when R = 2), hence at least 6 |
| SpringProperties.NoSentinelIffInterior | src/main.rs:386-398 | a vertex has no sentinel slot iff its row and column both lie in [2, R−3] |
| SpringProperties.CentreOfThreeByThree | src/main.rs:331-405 | R = 3, size 2: vertex 4 links to [3,1,5,7], [0,6,8,2], [10,10,10,10], rest lengths 1, 1.41421356237, 2 |
| ClothMesh.BuildVertexGrid | src/main.rs:189-205 | R² vertices pushed; vertex v has grid coordinates (v / R, v % R), matching the spring builder's row and column |
| ClothMesh.InitialVelocities | src/main.rs:222-229 | one velocity per vertex, all zero |
| ClothMesh.AsU16 | src/main.rs:211 | the `as u16` cast yields a value below 2^16 and keeps every value already below it |
| ClothMesh.BuildClothIndices | src/main.rs:207-219 | the list has 6·(R−1)² entries; entry t is entry t%6 of cell t/6, and cell c is (c/(R−1), c%(R−1)) |
| ClothMesh.CellGeometry | src/main.rs:210-217 | a cell's two triangles use exactly its four corners, each has three distinct vertices, and both wind the same way |
| ClothMesh.NoTruncationWhenFits | src/main.rs:211-217 | with at most 2^16 vertices, the stored u16 indices equal the corner indices |
| ClothMesh.TruncationBeyond256 | src/main.rs:216 | with more than 256 vertices per row, the last cell's corner R²−1 does not fit and its stored index wraps |
| ClothMesh.StoredCellValid | src/main.rs:210-217 | with at most 2^16 vertices, a cell's stored indices name vertices, and each triangle's three are distinct |
| ClothMesh.ClothIndicesInRange | src/main.rs:207-219 | with at most 2^16 vertices, every stored index is below R² |
| ClothMesh.ClothTrianglesDistinct | src/main.rs:207-219 | with at most 2^16 vertices, every stored triangle (entries 3t, 3t+1, 3t+2) has three distinct indices |
| Dispatch.Ceil | src/main.rs:523 | `ceil` returns the least integer not below its argument |
| Dispatch.WorkgroupCount | src/main.rs:523 | g·128 ≥ vertex count, and (g−1)·128 < vertex count unless g = 0 |
| Dispatch.WorkgroupCountIsCeilDiv | src/main.rs:531 | the rounded-up float quotient equals integer ceiling division (n + 127) / 128 |
| Dispatch.WorkgroupCountIsLeast | src/main.rs:523 | no smaller workgroup count covers all vertices |
| Dispatch.EveryVertexDispatched | src/main.rs:523-531 | every vertex falls in a dispatched workgroup, and the last workgroup is not entirely idle |
| Dispatch.DefaultClothDispatch | src/main.rs:54 | the configured 25 × 25 cloth dispatches 5 workgroups |
| Cloth.BuildCloth | src/main.rs:185-406 | vertex v is grid point (v / R, v % R); index entry t is entry t%6 of cell t/6; spring entry i is reference slot i%12 of vertex i/12; buffer sizes agree; velocities are zero; triangle indices name vertices when they fit u16; every real link indexes the vertex and velocity buffers; every other link is the sentinel, at or past their end |

## Left out

- GPU plumbing is not modelled: pipelines, bind groups, buffer creation and upload, compute-pass submission, and `render`. These are calls into the wgpu library.
- The force and integration kernels (`forces_compute.wgsl`, `compute.wgsl`) are not part of this model. They are only referenced, and they are float numerics on a parallel device. How they read a stored link is assumed, not modelled: `Springs.Decode` assumes a range check.
- Vertex positions, texture coordinates, sphere scaling and the camera are left out. They are floating-point or library code. Only the integer grid coordinates of each pushed vertex are modelled.
- The `#[repr(C)]` byte layout of the `ComputeData`, `Velocity` and `Spring` records is left out. It is a buffer ABI concern. The parameter block's contents are not modelled.
- The single-precision rounding of rest lengths is left out. Rest lengths are exact reals.
- The source computes link indices in `i32`. The model uses unbounded integers. The largest value computed before a bounds check replaces it is the bend row-step link `(row + 2) * R + col`, up to R*R + 2R − 1 (line 395), so the two agree while R*R + 2R ≤ 2^31 (R ≤ 46339); beyond that the `i32` arithmetic overflows, which the model does not follow.
- Spring indices above 2^24 are not modelled: the source's `as f32` (lines 342-343) rounds indices once the grid has 2^24 or more vertices (R ≥ 4096), while the model's indices stay exact. At R = 4096 only the sentinel 2^24 + 1 rounds, to 2^24 = R*R; larger grids also round odd vertex indices above 2^24.
- Dispatch.WorkgroupCount: models the `f64` (line 523) and `f32` (line 531) quotients as exact reals. Division by 128 is exact in binary floating point, but the conversion of R*R to `f32` is exact only up to 2^24 vertices, and the model does not state that bound.
- SpringProperties.StoredLinkDecodes: the kernels' sentinel test is not part of this model, so the lemma states what a range-checking reader (`Springs.Decode`, an assumption) gets back, not what the kernels do.
- SpringProperties.CornerSentinels: proves the sentinel count for corner vertex 0 only. The other three corners are not stated.
