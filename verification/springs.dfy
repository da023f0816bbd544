/** The spring adjacency list built once when the cloth is created.

    Every vertex owns twelve consecutive spring records. Their category is
    implied by position: slots 0-3 are structural (one step along an axis),
    slots 4-7 shear (one step diagonally), slots 8-11 bend (two steps along an
    axis). A slot whose neighbour falls off the grid stores the sentinel index
    `R*R + 1` and still carries its category's rest length.

    Rest lengths are exact reals here; the single-precision rounding of the
    stored values is not modelled.
 */
module Springs {
  import opened Grid

  datatype Category = Structural | Shear | Bend

  /** One spring record: the vertex it starts from, the vertex it links to
      (or the sentinel), and its natural length. */
  datatype Spring = Spring(origin: nat, linked: int, restLength: real)

  /** Springs stored per vertex. */
  const SLOTS: nat := 12

  /** The decimal constant the source uses for the square root of two. */
  const SQRT2_APPROX: real := 1.41421356237

  /** Grid spacing: the cloth's side length split into R - 1 cells. */
  function Unit(r: Resolution, size: real): real {
    size / ((r - 1) as real)
  }

  function RestLength(r: Resolution, size: real, c: Category): real {
    match c
    case Structural => Unit(r, size)
    case Shear => Unit(r, size) * SQRT2_APPROX
    case Bend => Unit(r, size) * 2.0
  }

  // ---- Reference layout of one vertex's twelve slots ----

  function SlotCategory(k: nat): (c: Category)
    requires k < SLOTS
  {
    if k < 4 then Structural else if k < 8 then Shear else Bend
  }

  /** The (row, column) displacement each slot links to. */
  function SlotOffset(k: nat): Offset
    requires k < SLOTS
  {
    match k
    case 0 => Offset(0, -1)
    case 1 => Offset(-1, 0)
    case 2 => Offset(0, 1)
    case 3 => Offset(1, 0)
    case 4 => Offset(-1, -1)
    case 5 => Offset(1, -1)
    case 6 => Offset(1, 1)
    case 7 => Offset(-1, 1)
    case 8 => Offset(0, -2)
    case 9 => Offset(-2, 0)
    case 10 => Offset(0, 2)
    case _ => Offset(2, 0)
  }

  /** The slot of the same category pointing the opposite way. */
  function Opposite(k: nat): (k': nat)
    requires k < SLOTS
    ensures k' < SLOTS
    ensures SlotCategory(k') == SlotCategory(k)
    ensures SlotOffset(k') == SlotOffset(k).Negate()
  {
    if k % 4 < 2 then k + 2 else k - 2
  }

  /** How a link is stored: the neighbour's index, or the sentinel. */
  function Encode(r: Resolution, n: Option<nat>): int {
    match n
    case Some(w) => w
    case None => Sentinel(r)
  }

  /** The assumed reader of a stored link: a range check, under which anything
      outside the vertex array means "no neighbour". The kernels that read
      the links are not part of this model. */
  function Decode(r: Resolution, linked: int): Option<nat> {
    if 0 <= linked < VertexCount(r) then Some(linked) else None
  }

  // ---- The generator, following the three `for j in [-1, 1]` loops ----

  /** A link along the row (column step `d`); only the column is checked. */
  function ColumnLink(r: Resolution, row: int, col: int, d: int): int {
    var linked := row * r + col + d;
    if col + d > r - 1 || col + d < 0 then Sentinel(r) else linked
  }

  /** A link along the column (row step `d`); only the row is checked. */
  function RowLink(r: Resolution, row: int, col: int, d: int): int {
    var linked := (row + d) * r + col;
    if row + d > r - 1 || row + d < 0 then Sentinel(r) else linked
  }

  /** A diagonal link; both coordinates are checked. */
  function DiagonalLink(r: Resolution, row: int, col: int, dRow: int, dCol: int): int {
    var linked := (row + dRow) * r + col + dCol;
    if col + dCol > r - 1 || col + dCol < 0 || row + dRow > r - 1 || row + dRow < 0 then Sentinel(r)
    else linked
  }

  function StructuralPair(r: Resolution, size: real, v: nat, j: int): seq<Spring> {
    var row, col := Row(r, v), Col(r, v);
    [ Spring(v, ColumnLink(r, row, col, j), RestLength(r, size, Structural)),
      Spring(v, RowLink(r, row, col, j), RestLength(r, size, Structural)) ]
  }

  function ShearPair(r: Resolution, size: real, v: nat, j: int): seq<Spring> {
    var row, col := Row(r, v), Col(r, v);
    [ Spring(v, DiagonalLink(r, row, col, j, j), RestLength(r, size, Shear)),
      Spring(v, DiagonalLink(r, row, col, -j, j), RestLength(r, size, Shear)) ]
  }

  function BendPair(r: Resolution, size: real, v: nat, j: int): seq<Spring> {
    var row, col := Row(r, v), Col(r, v);
    [ Spring(v, ColumnLink(r, row, col, 2 * j), RestLength(r, size, Bend)),
      Spring(v, RowLink(r, row, col, 2 * j), RestLength(r, size, Bend)) ]
  }

  lemma ColumnLinkIsNeighbor(r: Resolution, v: nat, d: int)
    requires v < VertexCount(r)
    ensures ColumnLink(r, Row(r, v), Col(r, v), d) == Encode(r, Neighbor(r, v, Offset(0, d)))
  {
    CoordsIndex(r, v);
  }

  lemma RowLinkIsNeighbor(r: Resolution, v: nat, d: int)
    requires v < VertexCount(r)
    ensures RowLink(r, Row(r, v), Col(r, v), d) == Encode(r, Neighbor(r, v, Offset(d, 0)))
  {
    CoordsIndex(r, v);
  }

  lemma DiagonalLinkIsNeighbor(r: Resolution, v: nat, dRow: int, dCol: int)
    requires v < VertexCount(r)
    ensures DiagonalLink(r, Row(r, v), Col(r, v), dRow, dCol) == Encode(r, Neighbor(r, v, Offset(dRow, dCol)))
  {
  }

  /** The twelve springs of vertex `v`, in the order the source pushes them:
      each `for j in [-1, 1]` loop contributes its j = -1 pair, then its
      j = +1 pair. */
  function VertexSprings(r: Resolution, size: real, v: nat): (s: seq<Spring>)
    requires v < VertexCount(r)
    ensures |s| == SLOTS
    ensures forall k :: 0 <= k < SLOTS ==> s[k].origin == v
  {
    StructuralPair(r, size, v, -1) + StructuralPair(r, size, v, 1)
    + ShearPair(r, size, v, -1) + ShearPair(r, size, v, 1)
    + BendPair(r, size, v, -1) + BendPair(r, size, v, 1)
  }

  /** The spring in slot `k`, as the reference layout describes it: it links
      to the neighbour the slot's offset names, or holds the sentinel exactly
      when that neighbour is off the grid, and carries its category's rest
      length either way. */
  function Slot(r: Resolution, size: real, v: nat, k: nat): (s: Spring)
    requires v < VertexCount(r) && k < SLOTS
    ensures 0 <= s.linked < VertexCount(r) || s.linked == Sentinel(r)
  {
    Spring(v, Encode(r, Neighbor(r, v, SlotOffset(k))), RestLength(r, size, SlotCategory(k)))
  }

  lemma StructuralLayout(r: Resolution, size: real, v: nat)
    requires v < VertexCount(r)
    ensures forall k :: 0 <= k < 4 ==> VertexSprings(r, size, v)[k] == Slot(r, size, v, k)
  {
    ColumnLinkIsNeighbor(r, v, -1);
    RowLinkIsNeighbor(r, v, -1);
    ColumnLinkIsNeighbor(r, v, 1);
    RowLinkIsNeighbor(r, v, 1);
  }

  lemma ShearLayout(r: Resolution, size: real, v: nat)
    requires v < VertexCount(r)
    ensures forall k :: 4 <= k < 8 ==> VertexSprings(r, size, v)[k] == Slot(r, size, v, k)
  {
    DiagonalLinkIsNeighbor(r, v, -1, -1);
    DiagonalLinkIsNeighbor(r, v, 1, -1);
    DiagonalLinkIsNeighbor(r, v, 1, 1);
    DiagonalLinkIsNeighbor(r, v, -1, 1);
  }

  lemma BendLayout(r: Resolution, size: real, v: nat)
    requires v < VertexCount(r)
    ensures forall k :: 8 <= k < SLOTS ==> VertexSprings(r, size, v)[k] == Slot(r, size, v, k)
  {
    ColumnLinkIsNeighbor(r, v, -2);
    RowLinkIsNeighbor(r, v, -2);
    ColumnLinkIsNeighbor(r, v, 2);
    RowLinkIsNeighbor(r, v, 2);
  }

  /** The generated springs of a vertex are the reference layout, slot by slot. */
  lemma VertexSpringsLayout(r: Resolution, size: real, v: nat)
    requires v < VertexCount(r)
    ensures forall k :: 0 <= k < SLOTS ==> VertexSprings(r, size, v)[k] == Slot(r, size, v, k)
  {
    StructuralLayout(r, size, v);
    ShearLayout(r, size, v);
    BendLayout(r, size, v);
  }

  /** Builds the whole spring list, vertex by vertex, as the source's outer
      loop does: entry `12 * v + k` is slot `k` of vertex `v`. */
  method BuildSprings(r: Resolution, size: real) returns (springs: seq<Spring>)
    ensures |springs| == SLOTS * VertexCount(r)
    ensures forall i :: 0 <= i < |springs| ==> springs[i].origin == i / SLOTS
    ensures forall i :: 0 <= i < |springs| ==>
      0 <= springs[i].linked < VertexCount(r) || springs[i].linked == Sentinel(r)
    ensures forall i :: 0 <= i < |springs| ==> springs[i] == Slot(r, size, i / SLOTS, i % SLOTS)
  {
    springs := [];
    var v := 0;
    while v < VertexCount(r)
      invariant v <= VertexCount(r)
      invariant |springs| == SLOTS * v
      invariant forall i :: 0 <= i < |springs| ==> i / SLOTS < v && springs[i] == Slot(r, size, i / SLOTS, i % SLOTS)
    {
      var block := VertexSprings(r, size, v);
      VertexSpringsLayout(r, size, v);
      var next := springs + block;
      forall i | |springs| <= i < |next|
        ensures i / SLOTS == v && next[i] == Slot(r, size, i / SLOTS, i % SLOTS)
      {
        DivModOfRowMajor(SLOTS, v, i - SLOTS * v);
      }
      springs, v := next, v + 1;
    }
  }
}
