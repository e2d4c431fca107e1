/**
 * The index list of `Chunk::mesh` against the vertices it indexes.
 *
 * Every visible face pushes the eight corners of its cell's cube, so the
 * vertex list is a run of 8-vertex cubes. The index loop, however, steps
 * through it 24 vertices at a time and shifts `CUBE_INDICES` (corners 0..7)
 * by 24 * i, so only the first cube of every three is ever drawn. The
 * corrected list steps 8 vertices at a time: one group of 36 indices per
 * pushed cube, each group drawing exactly its own cube.
 */
module MeshIndexFinding {
  import opened ChunkGrid
  import opened Voxel
  import opened Meshing
  import opened MeshingLemmas

  // ---------------------------------------------------------------------------
  // As written.

  /** No index refers to a vertex whose position modulo 24 is 8 or more. */
  lemma UnindexedVertices(vertexCount: nat)
    ensures forall v :: 0 <= v < vertexCount && v % 24 >= 8 ==> v !in MeshIndices(vertexCount)
  {
    MeshIndicesBounds(vertexCount);
  }

  /** Vertex 8 exists as soon as there are more than 8 vertices, and no index refers to it. */
  lemma VertexEightUnindexed(vertexCount: nat)
    requires vertexCount > 8
    ensures 8 !in MeshIndices(vertexCount)
  {
    UnindexedVertices(vertexCount);
  }

  /**
   * A solid chunk, the one `Chunk::new` creates, has 12288 vertices, yet
   * vertex 8 (the first corner of the second face of cell (0, 0, 0)) is
   * referenced by no index.
   */
  lemma SolidChunkUnindexedVertex(g: seq<seq<seq<int>>>)
    requires Solid(g)
    ensures |MeshVertices(g)| == 12288
    ensures 8 !in MeshIndices(|MeshVertices(g)|)
  {
    SolidVertexCount(g);
    VertexEightUnindexed(|MeshVertices(g)|);
  }

  // ---------------------------------------------------------------------------
  // Corrected: one group of 36 indices per pushed cube of 8 vertices.

  function CorrectedMeshIndices(vertexCount: nat): seq<int> {
    IndexGroups(vertexCount / 8, 8)
  }

  /** Entry k of the corrected list is a corner of cube k / 36, the cube its group belongs to. */
  lemma CorrectedIndexAt(vertexCount: nat, k: int)
    requires 0 <= k < 36 * (vertexCount / 8)
    ensures |CorrectedMeshIndices(vertexCount)| == 36 * (vertexCount / 8)
    ensures 8 * (k / 36) <= CorrectedMeshIndices(vertexCount)[k] < 8 * (k / 36) + 8
  {
    var n := vertexCount / 8;
    IndexGroupsLength(n, 8);
    var q, j := k / 36, k % 36;
    assert k == 36 * q + j && q < n;
    IndexGroupsAt(n, 8, q, j);
  }

  /** Every corrected index refers to an existing vertex of the cube its group draws. */
  lemma CorrectedIndicesBounds(vertexCount: nat)
    ensures |CorrectedMeshIndices(vertexCount)| == 36 * (vertexCount / 8)
    ensures forall k :: 0 <= k < |CorrectedMeshIndices(vertexCount)| ==>
      0 <= CorrectedMeshIndices(vertexCount)[k] < vertexCount &&
      CorrectedMeshIndices(vertexCount)[k] / 8 == k / 36
  {
    IndexGroupsLength(vertexCount / 8, 8);
    forall k | 0 <= k < |CorrectedMeshIndices(vertexCount)|
      ensures 0 <= CorrectedMeshIndices(vertexCount)[k] < vertexCount
      ensures CorrectedMeshIndices(vertexCount)[k] / 8 == k / 36
    {
      CorrectedIndexAt(vertexCount, k);
      assert k / 36 < vertexCount / 8;
    }
  }

  /** Vertex 8 * q + c, corner c of cube q, is referenced at position `CornerUse(c)` of group q. */
  lemma CorrectedIndexOf(vertexCount: nat, v: int)
    requires 0 <= v < 8 * (vertexCount / 8)
    ensures v in CorrectedMeshIndices(vertexCount)
  {
    var q, c := v / 8, v % 8;
    var j := CornerUse(c);
    IndexGroupsAt(vertexCount / 8, 8, q, j);
    assert CorrectedMeshIndices(vertexCount)[36 * q + j] == v;
  }

  /** When the vertices come in whole cubes, every vertex is referenced. */
  lemma CorrectedIndicesCover(vertexCount: nat)
    requires vertexCount % 8 == 0
    ensures forall v :: 0 <= v < vertexCount ==> v in CorrectedMeshIndices(vertexCount)
  {
    forall v | 0 <= v < vertexCount
      ensures v in CorrectedMeshIndices(vertexCount)
    {
      CorrectedIndexOf(vertexCount, v);
    }
  }

  /** The mesher pushes whole cubes: its vertex count is a multiple of 8. */
  lemma WholeCubes(g: seq<seq<seq<int>>>)
    ensures |MeshVertices(g)| % 8 == 0
  {
    MeshVertexCount(g);
    EightTimes(|MeshVertices(g)|, FaceCount(g));
  }

  lemma EightTimes(m: int, n: int)
    requires m == 8 * n
    ensures m % 8 == 0
  {
  }

  /** For whole cubes, the corrected list refers to every vertex and only to existing ones. */
  lemma CorrectedIndicesExact(vertexCount: nat)
    requires vertexCount % 8 == 0
    ensures forall k :: 0 <= k < |CorrectedMeshIndices(vertexCount)| ==> 0 <= CorrectedMeshIndices(vertexCount)[k] < vertexCount
    ensures forall v :: 0 <= v < vertexCount ==> v in CorrectedMeshIndices(vertexCount)
  {
    CorrectedIndicesBounds(vertexCount);
    CorrectedIndicesCover(vertexCount);
  }

  /**
   * `Chunk::mesh` with the corrected index loop: the same vertices and
   * colours, and an index list that refers to every vertex and to nothing else.
   */
  method CorrectedMesh(chunk: Chunk, ghost g: seq<seq<seq<int>>>)
    returns (vertices: seq<(int, int, int)>, colors: seq<Color>, indices: seq<int>)
    requires Mirrors(chunk, g)
    ensures vertices == Positions(MeshVertices(g))
    ensures colors == Colors(MeshVertices(g))
    ensures indices == CorrectedMeshIndices(|vertices|)
    ensures forall k :: 0 <= k < |indices| ==> 0 <= indices[k] < |vertices|
    ensures forall v :: 0 <= v < |vertices| ==> v in indices
  {
    vertices, colors := MeshCells(chunk, g);
    indices := BuildIndices(|vertices|, 8);
    WholeCubes(g);
    CorrectedIndicesExact(|vertices|);
  }
}
