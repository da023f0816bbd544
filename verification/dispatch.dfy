/** Sizing of the two compute dispatches issued every frame: one invocation
    per vertex, in workgroups of 128, so `ceil(R*R / 128)` workgroups. */
module Dispatch {
  import opened Grid

  /** Invocations per workgroup. */
  const WORKGROUP_SIZE: nat := 128

  /** The least integer not below `x`. */
  function Ceil(x: real): (c: int)
    ensures c as real >= x
    ensures (c - 1) as real < x
  {
    -((-x).Floor)
  }

  /** The workgroup count as the source computes it: the vertex count divided
      by 128.0 and rounded up. Division by a power of two is exact in binary
      floating point, so exact reals describe it for every vertex count the
      float types hold exactly. */
  function WorkgroupCount(n: nat): (g: nat)
    ensures g * WORKGROUP_SIZE >= n
    ensures g == 0 || (g - 1) * WORKGROUP_SIZE < n
  {
    var c := Ceil(n as real / WORKGROUP_SIZE as real);
    assert c >= 0;
    c
  }

  /** The rounded-up float division is integer ceiling division. */
  lemma WorkgroupCountIsCeilDiv(n: nat)
    ensures WorkgroupCount(n) == (n + WORKGROUP_SIZE - 1) / WORKGROUP_SIZE
  {
  }

  /** No smaller number of workgroups covers `n` invocations. */
  lemma WorkgroupCountIsLeast(n: nat, g: nat)
    requires g * WORKGROUP_SIZE >= n
    ensures WorkgroupCount(n) <= g
  {
  }

  /** Every vertex of the grid falls in a dispatched workgroup, and the last
      workgroup is not entirely idle. */
  lemma EveryVertexDispatched(r: Resolution, v: nat)
    requires v < VertexCount(r)
    ensures v / WORKGROUP_SIZE < WorkgroupCount(VertexCount(r))
    ensures (WorkgroupCount(VertexCount(r)) - 1) * WORKGROUP_SIZE < VertexCount(r)
  {
  }

  /** The cloth in the source's configuration: 25 vertices per row, 625
      vertices, five workgroups. */
  lemma DefaultClothDispatch()
    ensures WorkgroupCount(VertexCount(25)) == 5
  {
    WorkgroupCountIsCeilDiv(625);
  }
}
