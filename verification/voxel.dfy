/**
 * The voxel type and cube tables of src/chunk/voxel.rs.
 * Vertex coordinates are given in half units: the source's ±0.5 is ±1 here,
 * which is exact, since ±0.5 is representable in f32.
 */
module Voxel {

  type u8 = x: int | 0 <= x < 256

  datatype Voxel = Voxel(id: u8)

  /** The visibility classes of the meshing library. */
  datatype VoxelVisibility = Empty | Translucent | Opaque

  const VOID: Voxel := Voxel(0)

  /** Entry k of `CUBE_VERTICES`, in half units: corner k / 3, coordinate k % 3 (x, y, z). */
  function CubeVertex(k: int): int {
    match k
    case 0 => -1
    case 1 => 1
    case 2 => 1
    case 3 => 1
    case 4 => 1
    case 5 => 1
    case 6 => -1
    case 7 => -1
    case 8 => 1
    case 9 => 1
    case 10 => -1
    case 11 => 1
    case 12 => -1
    case 13 => 1
    case 14 => -1
    case 15 => 1
    case 16 => 1
    case 17 => -1
    case 18 => -1
    case 19 => -1
    case 20 => -1
    case 21 => 1
    case 22 => -1
    case 23 => -1
    case _ => 0
  }

  /** `CUBE_VERTICES`: eight corners, x, y, z each. */
  const CUBE_VERTICES: seq<int> := seq(24, CubeVertex)

  /** Entry k of `CUBE_INDICES`: triangle k / 3, its corner k % 3. */
  function CubeIndex(k: int): (c: int)
    ensures 0 <= c < 8
  {
    match k
    case 0 => 0
    case 1 => 2
    case 2 => 1
    case 3 => 1
    case 4 => 2
    case 5 => 3
    case 6 => 0
    case 7 => 1
    case 8 => 4
    case 9 => 4
    case 10 => 1
    case 11 => 5
    case 12 => 1
    case 13 => 3
    case 14 => 5
    case 15 => 5
    case 16 => 3
    case 17 => 7
    case 18 => 2
    case 19 => 7
    case 20 => 3
    case 21 => 7
    case 22 => 2
    case 23 => 6
    case 24 => 6
    case 25 => 2
    case 26 => 0
    case 27 => 0
    case 28 => 4
    case 29 => 6
    case 30 => 6
    case 31 => 4
    case 32 => 5
    case 33 => 5
    case 34 => 7
    case 35 => 6
    case _ => 0
  }

  /** `CUBE_INDICES`: twelve triangles over the eight corners. */
  const CUBE_INDICES: seq<int> := seq(36, CubeIndex)

  /** Entry k of `CUBE_NORMALS`: normal k / 3, coordinate k % 3. */
  function CubeNormal(k: int): int {
    match k
    case 0 => 0
    case 1 => 0
    case 2 => 1
    case 3 => 0
    case 4 => 0
    case 5 => 1
    case 6 => 0
    case 7 => 0
    case 8 => 1
    case 9 => 0
    case 10 => 0
    case 11 => 1
    case 12 => 0
    case 13 => 0
    case 14 => -1
    case 15 => 0
    case 16 => 0
    case 17 => -1
    case 18 => 0
    case 19 => 0
    case 20 => -1
    case 21 => 0
    case 22 => 0
    case 23 => -1
    case _ => 0
  }

  /** `CUBE_NORMALS`: eight unit normals, x, y, z each. */
  const CUBE_NORMALS: seq<int> := seq(24, CubeNormal)

  /** `get_visibility`: an id of 0 is translucent, every other id opaque; never `Empty`. */
  function GetVisibility(v: Voxel): (vis: VoxelVisibility)
    ensures vis == Translucent <==> v.id == 0
    ensures vis == Opaque <==> v.id != 0
  {
    if v.id == 0 then Translucent else Opaque
  }

  /** `merge_value`: the id itself. */
  function MergeValue(v: Voxel): (m: u8)
    ensures m == 0 <==> GetVisibility(v) == Translucent
  {
    v.id
  }

  /** Two voxels are merge-compatible exactly when they are the same voxel (same id). */
  lemma MergeCompatibleIffEqual(a: Voxel, b: Voxel)
    ensures MergeValue(a) == MergeValue(b) <==> a == b
  {
  }

  /** `VOID` has id 0 and is translucent. */
  lemma VoidIsTranslucent()
    ensures VOID.id == 0 && GetVisibility(VOID) == Translucent
  {
  }

  /** Shape of the three tables. */
  lemma CubeTables()
    ensures |CUBE_VERTICES| == 24 && forall i :: 0 <= i < 24 ==> CUBE_VERTICES[i] in {-1, 1}
    ensures |CUBE_INDICES| == 36 && forall j :: 0 <= j < 36 ==> 0 <= CUBE_INDICES[j] < 8
    ensures |CUBE_NORMALS| == 24
    ensures forall c :: 0 <= c < 4 ==> CUBE_NORMALS[3 * c .. 3 * c + 3] == [0, 0, 1]
    ensures forall c :: 4 <= c < 8 ==> CUBE_NORMALS[3 * c .. 3 * c + 3] == [0, 0, -1]
  {
  }

  /** Every corner is used by some triangle: corner c sits at position `CornerUse(c)` of `CUBE_INDICES`. */
  function CornerUse(c: int): (j: int)
    requires 0 <= c < 8
    ensures 0 <= j < 36 && CubeIndex(j) == c
  {
    match c
    case 0 => 0
    case 1 => 2
    case 2 => 1
    case 3 => 5
    case 4 => 8
    case 5 => 11
    case 6 => 23
    case 7 => 17
  }

  /** Corner `c` of `CUBE_VERTICES`, in half units. */
  function Corner(c: int): (int, int, int)
    requires 0 <= c < 8
  {
    (CubeVertex(3 * c), CubeVertex(3 * c + 1), CubeVertex(3 * c + 2))
  }

  /** Corner c of the cube is left/right by bit 0 of c, top/bottom by bit 1 and front/back by bit 2. */
  lemma CornerBits(c: int)
    requires 0 <= c < 8
    ensures Corner(c) == (if c % 2 == 0 then -1 else 1, if c / 2 % 2 == 0 then 1 else -1, if c < 4 then 1 else -1)
  {
    match c
    case 0 => case 1 => case 2 => case 3 => case 4 => case 5 => case 6 => case 7 =>
  }

  /** The eight corners are pairwise distinct: they are the eight corners of the unit cube. */
  lemma CornersDistinct()
    ensures forall a, b :: 0 <= a < b < 8 ==> Corner(a) != Corner(b)
  {
    forall a, b | 0 <= a < b < 8
      ensures Corner(a) != Corner(b)
    {
      CornerBits(a);
      CornerBits(b);
    }
  }

  /** No triangle of the index table repeats a corner. */
  lemma TrianglesNonDegenerate()
    ensures forall t :: 0 <= t < 12 ==>
      CUBE_INDICES[3 * t] != CUBE_INDICES[3 * t + 1] &&
      CUBE_INDICES[3 * t + 1] != CUBE_INDICES[3 * t + 2] &&
      CUBE_INDICES[3 * t] != CUBE_INDICES[3 * t + 2]
  {
    forall t | 0 <= t < 12
      ensures CubeIndex(3 * t) != CubeIndex(3 * t + 1) &&
              CubeIndex(3 * t + 1) != CubeIndex(3 * t + 2) &&
              CubeIndex(3 * t) != CubeIndex(3 * t + 2)
    {
      match t
      case 0 => case 1 => case 2 => case 3 => case 4 => case 5 =>
      case 6 => case 7 => case 8 => case 9 => case 10 => case 11 =>
    }
  }
}
