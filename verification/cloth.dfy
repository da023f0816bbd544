/** The CPU-side construction of the cloth: the vertex grid, the triangle
    index list, the zero velocities and the spring list, built in the order
    the source builds them, and the bounds of every stored index relative to
    the buffers it indexes. */
module Cloth {
  import opened Grid
  import opened Springs
  import opened ClothMesh

  datatype ClothBuffers = ClothBuffers(
    vertices: seq<GridPoint>,
    indices: seq<nat>,
    velocities: seq<Vec3>,
    springs: seq<Spring>)

  method BuildCloth(r: Resolution, size: real) returns (cloth: ClothBuffers)
    ensures |cloth.vertices| == VertexCount(r)
    ensures forall v :: 0 <= v < |cloth.vertices| ==> cloth.vertices[v] == GridPoint(Row(r, v), Col(r, v))
    ensures |cloth.velocities| == |cloth.vertices|
    ensures forall v :: 0 <= v < |cloth.velocities| ==> cloth.velocities[v] == ZERO
    ensures |cloth.indices| == CELL_INDICES * CellCount(r)
    ensures forall t :: 0 <= t < |cloth.indices| ==>
      t / CELL_INDICES < CellCount(r) && cloth.indices[t] == CellAt(r, t / CELL_INDICES)[t % CELL_INDICES]
    ensures VertexCount(r) <= U16_LIMIT ==>
      forall t :: 0 <= t < |cloth.indices| ==> cloth.indices[t] < |cloth.vertices|
    ensures |cloth.springs| == SLOTS * |cloth.vertices|
    ensures forall i :: 0 <= i < |cloth.springs| ==> cloth.springs[i].origin < |cloth.vertices|
    ensures forall i :: 0 <= i < |cloth.springs| ==>
      i / SLOTS < VertexCount(r) && cloth.springs[i] == Slot(r, size, i / SLOTS, i % SLOTS)
    ensures forall i :: 0 <= i < |cloth.springs| ==>
      var linked := cloth.springs[i].linked;
      && (Decode(r, linked).Some? ==> linked < |cloth.vertices| && linked < |cloth.velocities|)
      && (Decode(r, linked).None? ==> linked == Sentinel(r) && linked >= |cloth.vertices|)
  {
    var vertices := BuildVertexGrid(r);
    var indices := BuildClothIndices(r);
    if VertexCount(r) <= U16_LIMIT {
      ClothIndicesInRange(r, indices);
    }
    var velocities := InitialVelocities(vertices);
    var springs := BuildSprings(r, size);
    cloth := ClothBuffers(vertices, indices, velocities, springs);
  }
}
