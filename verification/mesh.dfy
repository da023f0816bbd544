/** The renderable cloth mesh built next to the springs: the order in which
    grid vertices are pushed, the triangle index list (two triangles per grid
    cell, stored as 16-bit indices) and the zero initial velocities. Vertex
    positions and texture coordinates are floating-point and not modelled;
    only the integer grid coordinates of each pushed vertex are. */
module ClothMesh {
  import opened Grid

  /** The integer grid coordinates of a pushed vertex: outer loop `i`, inner
      loop `j`. */
  datatype GridPoint = GridPoint(i: nat, j: nat)

  /** Velocity of one vertex. */
  datatype Vec3 = Vec3(x: real, y: real, z: real)

  const ZERO: Vec3 := Vec3(0.0, 0.0, 0.0)

  /** One past the largest value of a 16-bit unsigned index. */
  const U16_LIMIT: nat := 0x1_0000

  /** Indices pushed per grid cell: two triangles of three. */
  const CELL_INDICES: nat := 6

  // ---- Vertices ----

  /** Pushes the grid vertices as the source's nested loops do: `i` outer,
      `j` inner. Vertex `v` ends up at row `v / R`, column `v % R`, the same
      coordinates the spring builder derives from `v`. */
  method BuildVertexGrid(r: Resolution) returns (points: seq<GridPoint>)
    ensures |points| == VertexCount(r)
    ensures forall v :: 0 <= v < |points| ==> points[v] == GridPoint(Row(r, v), Col(r, v))
  {
    points := [];
    var i := 0;
    while i < r
      invariant i <= r
      invariant |points| == i * r
      invariant forall v :: 0 <= v < |points| ==> points[v] == GridPoint(Row(r, v), Col(r, v))
    {
      var j := 0;
      while j < r
        invariant j <= r
        invariant |points| == i * r + j
        invariant forall v :: 0 <= v < |points| ==> points[v] == GridPoint(Row(r, v), Col(r, v))
      {
        DivModOfRowMajor(r, i, j);
        points := points + [GridPoint(i, j)];
        j := j + 1;
      }
      i := i + 1;
    }
  }

  /** One zero velocity per vertex, pushed while walking the vertex list. */
  method InitialVelocities(vertices: seq<GridPoint>) returns (velocities: seq<Vec3>)
    ensures |velocities| == |vertices|
    ensures forall v :: 0 <= v < |velocities| ==> velocities[v] == ZERO
  {
    velocities := [];
    var n := 0;
    while n < |vertices|
      invariant n <= |vertices|
      invariant |velocities| == n
      invariant forall v :: 0 <= v < |velocities| ==> velocities[v] == ZERO
    {
      velocities := velocities + [ZERO];
      n := n + 1;
    }
  }

  // ---- Triangle indices ----

  /** Rust's `as u16`: keep the low 16 bits. */
  function AsU16(x: nat): (y: nat)
    ensures y < U16_LIMIT
    ensures x < U16_LIMIT ==> y == x
  {
    x % U16_LIMIT
  }

  /** Number of grid cells. */
  function CellCount(r: Resolution): nat {
    (r - 1) * (r - 1)
  }

  /** The six vertex indices of cell (i, j) before narrowing to 16 bits:
      first triangle (i, j), (i, j+1), (i+1, j); second triangle (i, j+1),
      (i+1, j+1), (i+1, j). */
  function CellCorners(r: Resolution, i: nat, j: nat): seq<nat>
    requires i < r - 1 && j < r - 1
  {
    [ i * r + j, i * r + j + 1, (i + 1) * r + j,
      i * r + j + 1, (i + 1) * r + j + 1, (i + 1) * r + j ]
  }

  /** The six stored indices of cell (i, j). */
  function CellIndices(r: Resolution, i: nat, j: nat): seq<nat>
    requires i < r - 1 && j < r - 1
  {
    var c := CellCorners(r, i, j);
    [AsU16(c[0]), AsU16(c[1]), AsU16(c[2]), AsU16(c[3]), AsU16(c[4]), AsU16(c[5])]
  }

  /** The stored indices of the `c`-th cell in loop order. */
  function CellAt(r: Resolution, c: nat): seq<nat>
    requires c < CellCount(r)
  {
    QuotientBelowWidth(c, r - 1);
    CellIndices(r, c / (r - 1), c % (r - 1))
  }

  /** Cell (i, j) is cell number `i * (R - 1) + j` in loop order. */
  lemma CellNumber(r: Resolution, i: nat, j: nat)
    requires i < r - 1 && j < r - 1
    ensures i * (r - 1) + j < CellCount(r)
    ensures CellAt(r, i * (r - 1) + j) == CellIndices(r, i, j)
  {
    MulMonotone(i, r - 2, r - 1);
    DivModOfRowMajor(r - 1, i, j);
  }

  /** Appending the next cell's six indices keeps the list in step with the
      cell numbering. */
  lemma AppendCell(r: Resolution, indices: seq<nat>, cells: nat)
    requires cells < CellCount(r)
    requires |indices| == CELL_INDICES * cells
    requires forall t :: 0 <= t < |indices| ==>
      t / CELL_INDICES < cells && indices[t] == CellAt(r, t / CELL_INDICES)[t % CELL_INDICES]
    ensures var next := indices + CellAt(r, cells);
      forall t :: 0 <= t < |next| ==>
        t / CELL_INDICES < cells + 1 && next[t] == CellAt(r, t / CELL_INDICES)[t % CELL_INDICES]
  {
    var next := indices + CellAt(r, cells);
    forall t | |indices| <= t < |next|
      ensures t / CELL_INDICES == cells && next[t] == CellAt(r, t / CELL_INDICES)[t % CELL_INDICES]
    {
      DivModOfRowMajor(CELL_INDICES, cells, t - CELL_INDICES * cells);
    }
  }

  /** Pushes the index list as the source's nested loops do: for each cell,
      row by row, its two triangles. Entry `6 * c + e` is entry `e` of cell
      `c`, and cell `c` is (c / (R - 1), c % (R - 1)). */
  method BuildClothIndices(r: Resolution) returns (indices: seq<nat>)
    ensures |indices| == CELL_INDICES * CellCount(r)
    ensures forall t :: 0 <= t < |indices| ==>
      t / CELL_INDICES < CellCount(r) && indices[t] == CellAt(r, t / CELL_INDICES)[t % CELL_INDICES]
  {
    var w: nat := r - 1;
    indices := [];
    var cells := 0;
    var i := 0;
    while i < w
      invariant i <= w
      invariant cells == i * w && cells <= CellCount(r)
      invariant |indices| == CELL_INDICES * cells
      invariant forall t :: 0 <= t < |indices| ==>
        t / CELL_INDICES < cells && indices[t] == CellAt(r, t / CELL_INDICES)[t % CELL_INDICES]
    {
      var j := 0;
      while j < w
        invariant j <= w
        invariant cells == i * w + j && cells <= CellCount(r)
        invariant |indices| == CELL_INDICES * cells
        invariant forall t :: 0 <= t < |indices| ==>
          t / CELL_INDICES < cells && indices[t] == CellAt(r, t / CELL_INDICES)[t % CELL_INDICES]
      {
        CellNumber(r, i, j);
        assert CellAt(r, cells) == CellIndices(r, i, j);
        AppendCell(r, indices, cells);
        indices := indices + CellIndices(r, i, j);
        cells, j := cells + 1, j + 1;
      }
      assert (i + 1) * w == i * w + w;
      i := i + 1;
    }
  }

  // ---- Properties of the triangulation ----

  /** Twice the signed area of the triangle (a, b, c) in (row, column)
      coordinates; its sign is the triangle's winding. */
  function Winding(r: Resolution, a: nat, b: nat, c: nat): int {
    (Row(r, b) - Row(r, a)) * (Col(r, c) - Col(r, a)) - (Col(r, b) - Col(r, a)) * (Row(r, c) - Row(r, a))
  }

  /** The six corner entries of cell (i, j) are its four corner vertices:
      top-left, top-right, bottom-left, top-right, bottom-right, bottom-left. */
  lemma CellCornersAreCorners(r: Resolution, i: nat, j: nat)
    requires i < r - 1 && j < r - 1
    ensures CellCorners(r, i, j)
         == [Index(r, i, j), Index(r, i, j + 1), Index(r, i + 1, j),
             Index(r, i, j + 1), Index(r, i + 1, j + 1), Index(r, i + 1, j)]
  {
  }

  /** The two triangles of a cell use only the cell's four corners, cover all
      four, have three distinct vertices each, and wind the same way. */
  lemma CellGeometry(r: Resolution, i: nat, j: nat)
    requires i < r - 1 && j < r - 1
    ensures var c := CellCorners(r, i, j);
      && (forall e :: 0 <= e < CELL_INDICES ==>
            c[e] < VertexCount(r) && i <= Row(r, c[e]) <= i + 1 && j <= Col(r, c[e]) <= j + 1)
      && c[0] != c[1] && c[1] != c[2] && c[0] != c[2]
      && c[3] != c[4] && c[4] != c[5] && c[3] != c[5]
      && {c[0], c[1], c[2], c[3], c[4], c[5]}
         == {Index(r, i, j), Index(r, i, j + 1), Index(r, i + 1, j), Index(r, i + 1, j + 1)}
      && Winding(r, c[0], c[1], c[2]) == -1
      && Winding(r, c[3], c[4], c[5]) == -1
  {
    var tl, tr, bl, br := Index(r, i, j), Index(r, i, j + 1), Index(r, i + 1, j), Index(r, i + 1, j + 1);
    CellCornersAreCorners(r, i, j);
    IndexCoords(r, i, j);
    IndexCoords(r, i, j + 1);
    IndexCoords(r, i + 1, j);
    IndexCoords(r, i + 1, j + 1);
    assert Winding(r, tl, tr, bl) == -1;
    assert Winding(r, tr, br, bl) == -1;
  }

  /** When the grid has at most 2^16 vertices, narrowing to 16 bits loses
      nothing: the stored indices are the corner indices. */
  lemma NoTruncationWhenFits(r: Resolution, i: nat, j: nat)
    requires i < r - 1 && j < r - 1
    requires VertexCount(r) <= U16_LIMIT
    ensures CellIndices(r, i, j) == CellCorners(r, i, j)
  {
    CellGeometry(r, i, j);
  }

  /** With more than 256 vertices per row the last cell's corner index
      R*R - 1 no longer fits 16 bits, and the stored index wraps. */
  lemma TruncationBeyond256(r: Resolution)
    requires r > 256
    ensures CellCorners(r, r - 2, r - 2)[4] == VertexCount(r) - 1
    ensures CellIndices(r, r - 2, r - 2)[4] != CellCorners(r, r - 2, r - 2)[4]
  {
    MulMonotone(257, r, r);
    assert (r - 1) * r + r == r * r;
  }

  /** The stored indices of one cell, when the grid fits 16-bit indices:
      each names a vertex, and each of its two triangles has three distinct
      vertices. */
  lemma StoredCellValid(r: Resolution, c: nat)
    requires VertexCount(r) <= U16_LIMIT
    requires c < CellCount(r)
    ensures var s := CellAt(r, c);
      && (forall e :: 0 <= e < CELL_INDICES ==> s[e] < VertexCount(r))
      && s[0] != s[1] && s[1] != s[2] && s[0] != s[2]
      && s[3] != s[4] && s[4] != s[5] && s[3] != s[5]
  {
    QuotientBelowWidth(c, r - 1);
    CellGeometry(r, c / (r - 1), c % (r - 1));
    NoTruncationWhenFits(r, c / (r - 1), c % (r - 1));
  }

  /** Every stored index names a vertex when the grid fits 16-bit indices. */
  lemma ClothIndicesInRange(r: Resolution, indices: seq<nat>)
    requires VertexCount(r) <= U16_LIMIT
    requires |indices| == CELL_INDICES * CellCount(r)
    requires forall t :: 0 <= t < |indices| ==>
      t / CELL_INDICES < CellCount(r) && indices[t] == CellAt(r, t / CELL_INDICES)[t % CELL_INDICES]
    ensures forall t :: 0 <= t < |indices| ==> indices[t] < VertexCount(r)
  {
    forall t | 0 <= t < |indices|
      ensures indices[t] < VertexCount(r)
    {
      StoredCellValid(r, t / CELL_INDICES);
    }
  }

  /** Entries 3*tri, 3*tri + 1 and 3*tri + 2 form one triangle of cell tri / 2. */
  lemma TriangleEntries(tri: nat)
    ensures var c, first := tri / 2, 3 * (tri % 2);
      && (3 * tri) / CELL_INDICES == c && (3 * tri) % CELL_INDICES == first
      && (3 * tri + 1) / CELL_INDICES == c && (3 * tri + 1) % CELL_INDICES == first + 1
      && (3 * tri + 2) / CELL_INDICES == c && (3 * tri + 2) % CELL_INDICES == first + 2
  {
    var c, first := tri / 2, 3 * (tri % 2);
    assert 3 * tri == CELL_INDICES * c + first;
    DivModOfRowMajor(CELL_INDICES, c, first);
    DivModOfRowMajor(CELL_INDICES, c, first + 1);
    DivModOfRowMajor(CELL_INDICES, c, first + 2);
  }

  /** Every triangle of the stored list has three distinct vertices when the
      grid fits 16-bit indices. */
  lemma ClothTrianglesDistinct(r: Resolution, indices: seq<nat>)
    requires VertexCount(r) <= U16_LIMIT
    requires |indices| == CELL_INDICES * CellCount(r)
    requires forall t :: 0 <= t < |indices| ==>
      t / CELL_INDICES < CellCount(r) && indices[t] == CellAt(r, t / CELL_INDICES)[t % CELL_INDICES]
    ensures forall tri :: 0 <= tri < |indices| / 3 ==>
      indices[3 * tri] != indices[3 * tri + 1] && indices[3 * tri + 1] != indices[3 * tri + 2]
      && indices[3 * tri] != indices[3 * tri + 2]
  {
    forall tri | 0 <= tri < |indices| / 3
      ensures indices[3 * tri] != indices[3 * tri + 1] && indices[3 * tri + 1] != indices[3 * tri + 2]
        && indices[3 * tri] != indices[3 * tri + 2]
    {
      TriangleEntries(tri);
      StoredCellValid(r, tri / 2);
    }
  }
}
