/** Level-of-detail policy: how coarsely a chunk is sampled, by its distance from the camera. */
module Lod {

  /** An unsigned byte, the width of a LOD level. */
  newtype u8 = x: int | 0 <= x < 256

  /** Edge length of a chunk in voxels (the voxel-world library's chunk size). */
  const ChunkSize: nat := 32

  /** Distances (in chunks) at which the sampling stride doubles. */
  const Breakpoints: seq<real> := [16.0, 24.0, 32.0, 40.0, 48.0]

  /** The strides the policy may choose. */
  const Strides: set<u8> := {1, 2, 4, 8, 16, 32}

  /** Stride for a chunk whose chunk coordinate lies `distance` from the camera's floored chunk coordinate. */
  function ChunkLod(distance: real): (r: u8)
    ensures r in Strides
    ensures r == 1 <==> distance < 16.0
    ensures r == 32 <==> distance >= 48.0
  {
    if distance < 16.0 then 1
    else if distance < 24.0 then 2
    else if distance < 32.0 then 4
    else if distance < 40.0 then 8
    else if distance < 48.0 then 16
    else 32
  }

  /** Number of breakpoints in `bs` that `distance` has reached. */
  function Passed(bs: seq<real>, distance: real): nat
  {
    if bs == [] then 0
    else (if bs[0] <= distance then 1 else 0) + Passed(bs[1..], distance)
  }

  function Pow2(k: nat): nat
  {
    if k == 0 then 1 else 2 * Pow2(k - 1)
  }

  /** The stride doubles at every breakpoint reached, each comparison being strict-below. */
  lemma {:induction false} ChunkLodDoublesPerBreakpoint(distance: real)
    ensures ChunkLod(distance) as int == Pow2(Passed(Breakpoints, distance))
  {
    var bs := Breakpoints;
    assert bs[1..] == [24.0, 32.0, 40.0, 48.0];
    assert bs[2..] == [32.0, 40.0, 48.0];
    assert bs[3..] == [40.0, 48.0];
    assert bs[4..] == [48.0];
    assert bs[5..] == [];
    assert Passed(bs[5..], distance) == 0;
    assert Passed(bs[4..], distance) == (if 48.0 <= distance then 1 else 0);
    assert Passed(bs[3..], distance) == (if 40.0 <= distance then 1 else 0) + Passed(bs[4..], distance);
    assert Passed(bs[2..], distance) == (if 32.0 <= distance then 1 else 0) + Passed(bs[3..], distance);
    assert Passed(bs[1..], distance) == (if 24.0 <= distance then 1 else 0) + Passed(bs[2..], distance);
    assert Passed(bs, distance) == (if 16.0 <= distance then 1 else 0) + Passed(bs[1..], distance);
    assert Pow2(5) == 32 by {
      assert Pow2(1) == 2;
      assert Pow2(2) == 4;
      assert Pow2(3) == 8;
      assert Pow2(4) == 16;
    }
  }

  /** Farther chunks are never sampled more finely than nearer ones. */
  lemma ChunkLodMonotonic(d1: real, d2: real)
    requires d1 <= d2
    ensures ChunkLod(d1) <= ChunkLod(d2)
  {
  }

  /** Voxels along each edge of a chunk's data grid sampled at stride `lod` (a level of 0 counts as 1). */
  function ChunkDataEdge(lod: u8): (r: nat)
    ensures r * (if lod == 0 then 1 else lod as int) <= ChunkSize
    ensures ChunkSize < (r + 1) * (if lod == 0 then 1 else lod as int)
  {
    ChunkSize / (if lod == 0 then 1 else lod as int)
  }

  /** Every stride the policy chooses divides the chunk edge exactly and leaves at least one voxel. */
  lemma StridesTileChunk(distance: real)
    ensures ChunkDataEdge(ChunkLod(distance)) * ChunkLod(distance) as int == ChunkSize
    ensures ChunkDataEdge(ChunkLod(distance)) >= 1
  {
  }
}
