/** The cloth grid: R vertices per row, R rows, vertices numbered row-major.

    A vertex index `v` sits at row `v / R` and column `v % R`; the vertex at
    (row, col) has index `row * R + col`. Every other module addresses vertices
    through these functions.
 */
module Grid {

  /** Vertices per row. The cloth is square and needs at least two vertices
      per row (one grid cell), so the grid spacing `size / (R - 1)` exists. */
  type Resolution = r: nat | r >= 2 witness 2

  datatype Option<T> = None | Some(value: T)

  /** A (row, column) displacement on the grid. */
  datatype Offset = Offset(dRow: int, dCol: int) {
    function Negate(): Offset {
      Offset(-dRow, -dCol)
    }
  }

  function VertexCount(r: Resolution): nat {
    r * r
  }

  /** The value stored in a spring whose neighbour does not exist: one past
      one-past-the-end of the vertex array. */
  function Sentinel(r: Resolution): nat {
    r * r + 1
  }

  function Row(r: Resolution, v: nat): nat {
    v / r
  }

  function Col(r: Resolution, v: nat): nat {
    v % r
  }

  function Index(r: Resolution, row: nat, col: nat): nat {
    row * r + col
  }

  predicate InRange(r: Resolution, x: int) {
    0 <= x < r
  }

  /** Division and remainder by a row width recover the row and the column. */
  lemma DivModOfRowMajor(w: nat, row: nat, col: nat)
    requires col < w
    ensures (row * w + col) / w == row
    ensures (row * w + col) % w == col
  {
    var x := row * w + col;
    var q, m := x / w, x % w;
    assert x == q * w + m && 0 <= m < w;
    if q > row {
      MulAtLeastWidth(q - row, w);
      assert false;
    } else if q < row {
      MulAtLeastWidth(row - q, w);
      assert false;
    }
  }

  lemma {:induction false} MulAtLeastWidth(d: int, w: nat)
    requires d >= 1
    ensures d * w >= w
  {
    if d > 1 {
      MulAtLeastWidth(d - 1, w);
      assert d * w == (d - 1) * w + w;
    }
  }

  /** Coordinates inside the grid give a vertex of the grid, and the vertex
      reports those coordinates back. */
  lemma IndexCoords(r: Resolution, row: nat, col: nat)
    requires row < r && col < r
    ensures Index(r, row, col) < VertexCount(r)
    ensures Row(r, Index(r, row, col)) == row
    ensures Col(r, Index(r, row, col)) == col
  {
    DivModOfRowMajor(r, row, col);
    MulMonotone(row, r - 1, r);
    assert (r - 1) * r + r == r * r;
  }

  /** Every vertex of the grid has in-range coordinates that index it. */
  lemma CoordsIndex(r: Resolution, v: nat)
    requires v < VertexCount(r)
    ensures Row(r, v) < r && Col(r, v) < r
    ensures Index(r, Row(r, v), Col(r, v)) == v
  {
    QuotientBelowWidth(v, r);
  }

  /** A number below w * w has a quotient by w below w. */
  lemma QuotientBelowWidth(c: nat, w: nat)
    requires c < w * w
    ensures c / w < w
  {
    var q := c / w;
    if q >= w {
      MulMonotone(w, q, w);
      assert false;
    }
  }

  lemma MulMonotone(a: nat, b: nat, w: nat)
    requires a <= b
    ensures a * w <= b * w
  {
    if a < b {
      MulAtLeastWidth(b - a, w);
    }
  }

  /** The neighbour of `v` displaced by `off`, or None when the displaced
      position leaves the grid on either axis. */
  function Neighbor(r: Resolution, v: nat, off: Offset): (n: Option<nat>)
    requires v < VertexCount(r)
    ensures n.Some? <==> InRange(r, Row(r, v) + off.dRow) && InRange(r, Col(r, v) + off.dCol)
    ensures n.Some? ==> n.value < VertexCount(r)
    ensures n.Some? ==> Row(r, n.value) == Row(r, v) + off.dRow && Col(r, n.value) == Col(r, v) + off.dCol
  {
    var row, col := Row(r, v) + off.dRow, Col(r, v) + off.dCol;
    if InRange(r, row) && InRange(r, col) then
      IndexCoords(r, row, col);
      Some(Index(r, row, col))
    else
      None
  }

  /** Stepping to a neighbour and back returns to the start. */
  lemma NeighborInverse(r: Resolution, v: nat, off: Offset)
    requires v < VertexCount(r)
    requires Neighbor(r, v, off).Some?
    ensures Neighbor(r, Neighbor(r, v, off).value, off.Negate()) == Some(v)
  {
    CoordsIndex(r, v);
  }
}
