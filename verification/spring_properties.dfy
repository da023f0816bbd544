/** Properties of the spring adjacency list: where each slot points, when it
    holds the sentinel, symmetry of the links, and what the grid boundary does
    to the number of real springs a vertex has. */
module SpringProperties {
  import opened Grid
  import opened Springs

  /** Slot `k` of `v` holds the sentinel exactly when its offset leaves the
      grid on either axis; otherwise it holds the vertex at `v`'s coordinates
      plus that offset. */
  lemma LinkTarget(r: Resolution, size: real, v: nat, k: nat)
    requires v < VertexCount(r) && k < SLOTS
    ensures var s, off := VertexSprings(r, size, v)[k], SlotOffset(k);
      && (s.linked == Sentinel(r) <==> !(InRange(r, Row(r, v) + off.dRow) && InRange(r, Col(r, v) + off.dCol)))
      && (s.linked != Sentinel(r) ==>
            && 0 <= s.linked < VertexCount(r)
            && Row(r, s.linked) == Row(r, v) + off.dRow
            && Col(r, s.linked) == Col(r, v) + off.dCol)
  {
    VertexSpringsLayout(r, size, v);
  }

  /** Storing a neighbour (or its absence) and reading it back loses
      nothing: the sentinel reads back as "no neighbour". */
  lemma DecodeEncode(r: Resolution, n: Option<nat>)
    requires n.Some? ==> n.value < VertexCount(r)
    ensures Decode(r, Encode(r, n)) == n
  {
  }

  /** Reading slot `k` of `v` back with the assumed range check `Decode`
      yields exactly the neighbour the slot's offset names. */
  lemma StoredLinkDecodes(r: Resolution, size: real, v: nat, k: nat)
    requires v < VertexCount(r) && k < SLOTS
    ensures Decode(r, VertexSprings(r, size, v)[k].linked) == Neighbor(r, v, SlotOffset(k))
  {
    SlotIs(r, size, v, k);
    DecodeEncode(r, Neighbor(r, v, SlotOffset(k)));
  }

  /** A link along a row (slots 0, 2, 8, 10) never wraps round into the next
      or previous row: a real link stays in `v`'s row, and a column step that
      would leave the row yields the sentinel. */
  lemma RowLinksNeverWrap(r: Resolution, size: real, v: nat, k: nat)
    requires v < VertexCount(r)
    requires k in {0, 2, 8, 10}
    ensures var s := VertexSprings(r, size, v)[k];
      && (s.linked != Sentinel(r) ==> 0 <= s.linked && Row(r, s.linked) == Row(r, v))
      && (s.linked == Sentinel(r) <==> !InRange(r, Col(r, v) + SlotOffset(k).dCol))
  {
    LinkTarget(r, size, v, k);
    CoordsIndex(r, v);
  }

  /** No spring links a vertex to itself. */
  lemma NoSelfLinks(r: Resolution, size: real, v: nat, k: nat)
    requires v < VertexCount(r) && k < SLOTS
    ensures VertexSprings(r, size, v)[k].linked != v
  {
    LinkTarget(r, size, v, k);
    CoordsIndex(r, v);
  }

  /** Different slots have different offsets. */
  lemma SlotOffsetInjective(k: nat, k': nat)
    requires k < SLOTS && k' < SLOTS && k != k'
    ensures SlotOffset(k) != SlotOffset(k')
  {
  }

  /** Two different slots of one vertex never link to the same neighbour. */
  lemma DistinctLinks(r: Resolution, size: real, v: nat, k: nat, k': nat)
    requires v < VertexCount(r) && k < SLOTS && k' < SLOTS && k != k'
    requires VertexSprings(r, size, v)[k].linked != Sentinel(r)
    ensures VertexSprings(r, size, v)[k].linked != VertexSprings(r, size, v)[k'].linked
  {
    LinkTarget(r, size, v, k);
    LinkTarget(r, size, v, k');
    SlotOffsetInjective(k, k');
  }

  /** Links are symmetric: if `v` links to `w` in slot `k`, then `w` links
      back to `v` in the opposite slot, which has the same category and the
      same rest length. */
  lemma LinkSymmetry(r: Resolution, size: real, v: nat, k: nat)
    requires v < VertexCount(r) && k < SLOTS
    requires VertexSprings(r, size, v)[k].linked != Sentinel(r)
    ensures var w := VertexSprings(r, size, v)[k].linked;
      && 0 <= w < VertexCount(r)
      && VertexSprings(r, size, w)[Opposite(k)].linked == v
      && SlotCategory(Opposite(k)) == SlotCategory(k)
      && VertexSprings(r, size, w)[Opposite(k)].restLength == VertexSprings(r, size, v)[k].restLength
  {
    var w := VertexSprings(r, size, v)[k].linked;
    VertexSpringsLayout(r, size, v);
    assert Neighbor(r, v, SlotOffset(k)) == Some(w as nat);
    NeighborInverse(r, v, SlotOffset(k));
    VertexSpringsLayout(r, size, w);
  }

  /** The rest length of a slot depends only on its category: it is the same
      for every vertex, real link or sentinel. */
  lemma RestLengthByCategory(r: Resolution, size: real, v: nat, w: nat, k: nat, k': nat)
    requires v < VertexCount(r) && w < VertexCount(r) && k < SLOTS && k' < SLOTS
    requires SlotCategory(k) == SlotCategory(k')
    ensures VertexSprings(r, size, v)[k].restLength == VertexSprings(r, size, w)[k'].restLength
    ensures VertexSprings(r, size, v)[k].restLength == RestLength(r, size, SlotCategory(k))
  {
    VertexSpringsLayout(r, size, v);
    VertexSpringsLayout(r, size, w);
  }

  /** Shear springs rest at the grid spacing times the source's square-root-
      of-two constant, bend springs at twice the spacing. */
  lemma RestLengthRatios(r: Resolution, size: real, v: nat)
    requires v < VertexCount(r)
    ensures var s := VertexSprings(r, size, v);
      && s[0].restLength == size / ((r - 1) as real)
      && s[4].restLength == s[0].restLength * 1.41421356237
      && s[8].restLength == s[0].restLength * 2.0
  {
    VertexSpringsLayout(r, size, v);
  }

  /** Every index stored in the spring list is at most 2^24 when the grid has
      fewer than 2^24 vertices, so the single-precision fields hold them
      exactly. */
  lemma SpringIndicesExactInF32(r: Resolution, size: real, v: nat, k: nat)
    requires VertexCount(r) < 0x100_0000
    requires v < VertexCount(r) && k < SLOTS
    ensures var s := VertexSprings(r, size, v)[k];
      0 <= s.origin <= 0x100_0000 && 0 <= s.linked <= 0x100_0000
  {
    VertexSpringsLayout(r, size, v);
  }

  // ---- Sentinel counts ----

  /** Number of sentinel entries among the first `n` springs of `s`. */
  function SentinelsBelow(r: Resolution, s: seq<Spring>, n: nat): (c: nat)
    requires n <= |s|
    ensures c <= n
  {
    if n == 0 then 0
    else SentinelsBelow(r, s, n - 1) + (if s[n - 1].linked == Sentinel(r) then 1 else 0)
  }

  function SentinelCount(r: Resolution, s: seq<Spring>): nat {
    SentinelsBelow(r, s, |s|)
  }

  lemma {:induction false} NoSentinelsBelow(r: Resolution, s: seq<Spring>, n: nat)
    requires n <= |s|
    ensures SentinelsBelow(r, s, n) == 0 <==> forall k :: 0 <= k < n ==> s[k].linked != Sentinel(r)
  {
    if n > 0 {
      NoSentinelsBelow(r, s, n - 1);
    }
  }

  /** Slot `k` of `v` as the reference layout gives it. */
  lemma SlotIs(r: Resolution, size: real, v: nat, k: nat)
    requires v < VertexCount(r) && k < SLOTS
    ensures VertexSprings(r, size, v)[k] == Slot(r, size, v, k)
  {
    VertexSpringsLayout(r, size, v);
  }

  /** Which slots of corner vertex 0 are the sentinel: everything pointing
      up or left, and the two forward bend slots only on a 2 x 2 grid. */
  lemma CornerSlotPattern(r: Resolution, size: real)
    ensures var s := VertexSprings(r, size, 0);
      && s[0].linked == Sentinel(r) && s[1].linked == Sentinel(r)
      && s[2].linked != Sentinel(r) && s[3].linked != Sentinel(r)
      && s[4].linked == Sentinel(r) && s[5].linked == Sentinel(r)
      && s[6].linked != Sentinel(r) && s[7].linked == Sentinel(r)
      && s[8].linked == Sentinel(r) && s[9].linked == Sentinel(r)
      && (s[10].linked == Sentinel(r) <==> r == 2)
      && (s[11].linked == Sentinel(r) <==> r == 2)
  {
    assert Row(r, 0) == 0 && Col(r, 0) == 0;
    StructuralLayout(r, size, 0);
    ShearLayout(r, size, 0);
    BendLayout(r, size, 0);
  }

  /** The corner vertex 0 has seven sentinel slots (nine when the grid is
      only 2 x 2), so at least six. */
  lemma CornerSentinels(r: Resolution, size: real)
    ensures SentinelCount(r, VertexSprings(r, size, 0)) == if r == 2 then 9 else 7
    ensures SentinelCount(r, VertexSprings(r, size, 0)) >= 6
  {
    var s := VertexSprings(r, size, 0);
    var small := if r == 2 then 1 else 0;
    CornerSlotPattern(r, size);
    assert SentinelsBelow(r, s, 1) == 1;
    assert SentinelsBelow(r, s, 2) == 2;
    assert SentinelsBelow(r, s, 3) == 2;
    assert SentinelsBelow(r, s, 4) == 2;
    assert SentinelsBelow(r, s, 5) == 3;
    assert SentinelsBelow(r, s, 6) == 4;
    assert SentinelsBelow(r, s, 7) == 4;
    assert SentinelsBelow(r, s, 8) == 5;
    assert SentinelsBelow(r, s, 9) == 6;
    assert SentinelsBelow(r, s, 10) == 7;
    assert SentinelsBelow(r, s, 11) == 7 + small;
    assert SentinelsBelow(r, s, 12) == 7 + 2 * small;
  }

  /** A vertex has no sentinel slot exactly when both of its coordinates are
      at least two steps from every edge, i.e. in [2, R - 3]. */
  lemma NoSentinelIffInterior(r: Resolution, size: real, v: nat)
    requires v < VertexCount(r)
    ensures SentinelCount(r, VertexSprings(r, size, v)) == 0
        <==> 2 <= Row(r, v) <= r - 3 && 2 <= Col(r, v) <= r - 3
  {
    var s := VertexSprings(r, size, v);
    var row, col := Row(r, v), Col(r, v);
    CoordsIndex(r, v);
    NoSentinelsBelow(r, s, SLOTS);
    if 2 <= row <= r - 3 && 2 <= col <= r - 3 {
      forall k | 0 <= k < SLOTS
        ensures s[k].linked != Sentinel(r)
      {
        LinkTarget(r, size, v, k);
      }
    } else {
      LinkTarget(r, size, v, 8);
      LinkTarget(r, size, v, 9);
      LinkTarget(r, size, v, 10);
      LinkTarget(r, size, v, 11);
    }
  }

  /** The worked example for a 3 x 3 cloth of side 2 (grid spacing 1): the
      centre vertex 4 links structurally to 3, 1, 5, 7, diagonally to 0, 6, 8,
      2, and has only sentinel (10) bend slots. */
  lemma CentreOfThreeByThree()
    ensures var s := VertexSprings(3, 2.0, 4);
      && (forall k :: 0 <= k < SLOTS ==> s[k].origin == 4)
      && [s[0].linked, s[1].linked, s[2].linked, s[3].linked] == [3, 1, 5, 7]
      && [s[4].linked, s[5].linked, s[6].linked, s[7].linked] == [0, 6, 8, 2]
      && [s[8].linked, s[9].linked, s[10].linked, s[11].linked] == [10, 10, 10, 10]
      && s[0].restLength == 1.0 && s[4].restLength == 1.41421356237 && s[8].restLength == 2.0
  {
    var s := VertexSprings(3, 2.0, 4);
    assert Row(3, 4) == 1 && Col(3, 4) == 1;
    assert s[0].linked == 3 by { SlotIs(3, 2.0, 4, 0); }
    assert s[1].linked == 1 by { SlotIs(3, 2.0, 4, 1); }
    assert s[2].linked == 5 by { SlotIs(3, 2.0, 4, 2); }
    assert s[3].linked == 7 by { SlotIs(3, 2.0, 4, 3); }
    assert s[4].linked == 0 by { SlotIs(3, 2.0, 4, 4); }
    assert s[5].linked == 6 by { SlotIs(3, 2.0, 4, 5); }
    assert s[6].linked == 8 by { SlotIs(3, 2.0, 4, 6); }
    assert s[7].linked == 2 by { SlotIs(3, 2.0, 4, 7); }
    assert s[8].linked == 10 by { SlotIs(3, 2.0, 4, 8); }
    assert s[9].linked == 10 by { SlotIs(3, 2.0, 4, 9); }
    assert s[10].linked == 10 by { SlotIs(3, 2.0, 4, 10); }
    assert s[11].linked == 10 by { SlotIs(3, 2.0, 4, 11); }
    assert s[0].restLength == 1.0 by { SlotIs(3, 2.0, 4, 0); }
    assert s[4].restLength == 1.41421356237 by { SlotIs(3, 2.0, 4, 4); }
    assert s[8].restLength == 2.0 by { SlotIs(3, 2.0, 4, 8); }
  }
}
