/**
 * The face-culling mesher of src/chunk/meshing.rs (`Chunk::mesh`).
 *
 * For every solid cell (id > 0), visited x outermost, then y, then z, each of
 * the six directions -x, +x, -y, +y, -z, +z is tested on its own: when the cell
 * lies on the grid edge in that direction, or its neighbour there has id 0,
 * eight vertices (all eight corners of the cell's cube) are pushed together
 * with eight copies of the cell's colour. Afterwards one group of 36 indices,
 * `CUBE_INDICES` shifted by 24 * i, is pushed for every whole 24 vertices.
 *
 * Positions are in half units (see module Voxel); the colour
 * rgba(x/16, y/16, z/16, 0.2) of cell (x, y, z) is represented by the cell.
 */
module Meshing {
  import opened ChunkGrid
  import opened Voxel

  datatype Face = NegX | PosX | NegY | PosY | NegZ | PosZ

  /** The colour the mesher gives every vertex of cell (x, y, z). */
  datatype Color = CellColor(x: int, y: int, z: int)

  datatype MeshVertex = MeshVertex(position: (int, int, int), color: Color)

  function At(g: seq<seq<seq<int>>>, x: int, y: int, z: int): int
    requires IsGrid(g) && InGrid(x, y, z)
  {
    g[x][y][z]
  }

  /** Face `f` of cell (x, y, z) is on the grid edge or borders a cell of id 0. */
  predicate FaceVisible(g: seq<seq<seq<int>>>, x: int, y: int, z: int, f: Face)
    requires IsGrid(g) && InGrid(x, y, z)
  {
    match f
    case NegX => x == 0 || At(g, x - 1, y, z) == 0
    case PosX => x == X_SIZE - 1 || At(g, x + 1, y, z) == 0
    case NegY => y == 0 || At(g, x, y - 1, z) == 0
    case PosY => y == Y_SIZE - 1 || At(g, x, y + 1, z) == 0
    case NegZ => z == 0 || At(g, x, y, z - 1) == 0
    case PosZ => z == Z_SIZE - 1 || At(g, x, y, z + 1) == 0
  }

  function FaceIf(g: seq<seq<seq<int>>>, x: int, y: int, z: int, f: Face): seq<Face>
    requires IsGrid(g) && InGrid(x, y, z)
  {
    if FaceVisible(g, x, y, z, f) then [f] else []
  }

  /** The faces a cell emits, in the order the mesher tests them. */
  function VisibleFaces(g: seq<seq<seq<int>>>, x: int, y: int, z: int): (fs: seq<Face>)
    requires IsGrid(g) && InGrid(x, y, z)
    ensures |fs| <= 6
    ensures forall f :: f in fs <==> At(g, x, y, z) > 0 && FaceVisible(g, x, y, z, f)
  {
    if At(g, x, y, z) > 0 then
      FaceIf(g, x, y, z, NegX) + FaceIf(g, x, y, z, PosX) + FaceIf(g, x, y, z, NegY) +
      FaceIf(g, x, y, z, PosY) + FaceIf(g, x, y, z, NegZ) + FaceIf(g, x, y, z, PosZ)
    else []
  }

  /** The eight vertices pushed for one face of cell (x, y, z): the whole cube's corners. */
  function CubeAt(x: int, y: int, z: int): (r: seq<MeshVertex>)
    ensures |r| == 8
    ensures forall i :: 0 <= i < 8 ==>
      r[i].position == (Corner(i).0 + 2 * x, Corner(i).1 + 2 * y, Corner(i).2 + 2 * z) &&
      r[i].color == CellColor(x, y, z)
  {
    seq(8, i requires 0 <= i < 8 =>
      MeshVertex((Corner(i).0 + 2 * x, Corner(i).1 + 2 * y, Corner(i).2 + 2 * z), CellColor(x, y, z)))
  }

  function FaceVertices(g: seq<seq<seq<int>>>, x: int, y: int, z: int, f: Face): seq<MeshVertex>
    requires IsGrid(g) && InGrid(x, y, z)
  {
    if FaceVisible(g, x, y, z, f) then CubeAt(x, y, z) else []
  }

  /** What one cell contributes: eight vertices per visible face, nothing for a cell of id <= 0. */
  function CellVertices(g: seq<seq<seq<int>>>, x: int, y: int, z: int): (r: seq<MeshVertex>)
    requires IsGrid(g) && InGrid(x, y, z)
  {
    if At(g, x, y, z) > 0 then
      FaceVertices(g, x, y, z, NegX) + FaceVertices(g, x, y, z, PosX) +
      FaceVertices(g, x, y, z, NegY) + FaceVertices(g, x, y, z, PosY) +
      FaceVertices(g, x, y, z, NegZ) + FaceVertices(g, x, y, z, PosZ)
    else []
  }

  // The three nested loops, as a sweep over any per-cell stream: `SweepZ` is
  // cells (x, y, z') for z' < nz, `SweepY` rows (x, y') for y' < ny, each of nz
  // cells, `SweepX` slabs x' < nx, each of ny rows of nz cells.

  function SweepZ<T>(cell: (int, int, int) -> seq<T>, x: int, y: int, nz: nat): seq<T>
    decreases cell, nz
  {
    if nz == 0 then [] else SweepZ(cell, x, y, nz - 1) + cell(x, y, nz - 1)
  }

  function SweepY<T>(cell: (int, int, int) -> seq<T>, x: int, ny: nat, nz: nat): seq<T>
    decreases cell, ny
  {
    if ny == 0 then [] else SweepY(cell, x, ny - 1, nz) + SweepZ(cell, x, ny - 1, nz)
  }

  function SweepX<T>(cell: (int, int, int) -> seq<T>, nx: nat, ny: nat, nz: nat): seq<T>
    decreases cell, nx
  {
    if nx == 0 then [] else SweepX(cell, nx - 1, ny, nz) + SweepY(cell, nx - 1, ny, nz)
  }

  /** The per-cell vertex stream of grid `g` (nothing outside the grid). */
  function CellStream(g: seq<seq<seq<int>>>): (int, int, int) -> seq<MeshVertex> {
    (x, y, z) => if IsGrid(g) && InGrid(x, y, z) then CellVertices(g, x, y, z) else []
  }

  /** The per-cell list of emitted faces of grid `g`. */
  function FaceStream(g: seq<seq<seq<int>>>): (int, int, int) -> seq<Face> {
    (x, y, z) => if IsGrid(g) && InGrid(x, y, z) then VisibleFaces(g, x, y, z) else []
  }

  /** The vertex stream of the whole grid, positions and colours together. */
  function MeshVertices(g: seq<seq<seq<int>>>): seq<MeshVertex> {
    SweepX(CellStream(g), X_SIZE, Y_SIZE, Z_SIZE)
  }

  /** Every emitted face of the whole grid, in emission order. */
  function MeshFaces(g: seq<seq<seq<int>>>): seq<Face> {
    SweepX(FaceStream(g), X_SIZE, Y_SIZE, Z_SIZE)
  }

  /** Number of visible faces of the whole grid. */
  function FaceCount(g: seq<seq<seq<int>>>): nat {
    |MeshFaces(g)|
  }

  /** One group of indices: `CUBE_INDICES` shifted by `offset`. */
  function IndexGroup(offset: int): seq<int> {
    seq(36, j => CubeIndex(j) + offset)
  }

  /** `n` groups, group i shifted by `stride * i`. */
  function IndexGroups(n: nat, stride: nat): seq<int> {
    if n == 0 then [] else IndexGroups(n - 1, stride) + IndexGroup(stride * (n - 1))
  }

  /** The index list built for `vertexCount` vertices: one group per whole 24 vertices. */
  function MeshIndices(vertexCount: nat): seq<int> {
    IndexGroups(vertexCount / 24, 24)
  }

  // ---------------------------------------------------------------------------
  // The mesher.

  /** The position half of a vertex stream. */
  function Positions(s: seq<MeshVertex>): (r: seq<(int, int, int)>)
    ensures |r| == |s|
  {
    seq(|s|, i requires 0 <= i < |s| => s[i].position)
  }

  /** The colour half of a vertex stream. */
  function Colors(s: seq<MeshVertex>): (r: seq<Color>)
    ensures |r| == |s|
  {
    seq(|s|, i requires 0 <= i < |s| => s[i].color)
  }

  lemma SplitAppend(a: seq<MeshVertex>, b: seq<MeshVertex>)
    ensures Positions(a + b) == Positions(a) + Positions(b)
    ensures Colors(a + b) == Colors(a) + Colors(b)
  {
  }

  /** Appending the streams of `done` and then of `f` appends the stream of `done + f`. */
  lemma Extend(vertices: seq<(int, int, int)>, colors: seq<Color>, done: seq<MeshVertex>, f: seq<MeshVertex>)
    ensures vertices + Positions(done) + Positions(f) == vertices + Positions(done + f)
    ensures colors + Colors(done) + Colors(f) == colors + Colors(done + f)
  {
    SplitAppend(done, f);
  }

  /** Pushing corner i of the cube extends the pushed prefix of the cube by one vertex. */
  lemma PushCornerStep(vertices: seq<(int, int, int)>, colors: seq<Color>, cube: seq<MeshVertex>, i: int)
    requires 0 <= i < |cube|
    ensures vertices + Positions(cube[..i]) + [cube[i].position] == vertices + Positions(cube[..i + 1])
    ensures colors + Colors(cube[..i]) + [cube[i].color] == colors + Colors(cube[..i + 1])
  {
    assert cube[..i + 1] == cube[..i] + [cube[i]];
    Extend(vertices, colors, cube[..i], [cube[i]]);
  }

  /** The inner `for i in 0..8` loop: pushes the cube's eight corners and colours. */
  method PushCube(vertices: seq<(int, int, int)>, colors: seq<Color>, x: int, y: int, z: int)
    returns (vertices': seq<(int, int, int)>, colors': seq<Color>)
    ensures vertices' == vertices + Positions(CubeAt(x, y, z))
    ensures colors' == colors + Colors(CubeAt(x, y, z))
  {
    vertices', colors' := vertices, colors;
    ghost var cube := CubeAt(x, y, z);
    for i := 0 to 8
      invariant vertices' == vertices + Positions(cube[..i])
      invariant colors' == colors + Colors(cube[..i])
    {
      var k := 3 * i;
      PushCornerStep(vertices, colors, cube, i);
      colors' := colors' + [CellColor(x, y, z)];
      vertices' := vertices' + [(CUBE_VERTICES[k] + 2 * x, CUBE_VERTICES[k + 1] + 2 * y, CUBE_VERTICES[k + 2] + 2 * z)];
    }
    assert cube[..8] == cube;
  }

  /** `g` is the value of the chunk's blocks. */
  ghost predicate Mirrors(chunk: Chunk, g: seq<seq<seq<int>>>)
    reads chunk, chunk.blocks
  {
    chunk.Valid() && IsGrid(g) &&
    forall x, y, z :: InGrid(x, y, z) ==> chunk.blocks[x, y, z] == g[x][y][z]
  }

  /** A valid chunk's own `Grid()` mirrors it, so `Mesh(chunk, chunk.Grid())` is always callable. */
  lemma GridMirrors(chunk: Chunk)
    requires chunk.Valid()
    ensures Mirrors(chunk, chunk.Grid())
  {
  }

  /** One of the six face tests: `edge || neighbour == 0`, then eight pushes. */
  method MeshFace(chunk: Chunk, ghost g: seq<seq<seq<int>>>, x: int, y: int, z: int, f: Face,
                  vertices: seq<(int, int, int)>, colors: seq<Color>)
    returns (vertices': seq<(int, int, int)>, colors': seq<Color>)
    requires Mirrors(chunk, g) && InGrid(x, y, z)
    ensures vertices' == vertices + Positions(FaceVertices(g, x, y, z, f))
    ensures colors' == colors + Colors(FaceVertices(g, x, y, z, f))
  {
    var visible;
    match f {
      case NegX =>
        visible := x == 0 || chunk.blocks[x - 1, y, z] == 0;
      case PosX =>
        visible := x == X_SIZE - 1 || chunk.blocks[x + 1, y, z] == 0;
      case NegY =>
        visible := y == 0 || chunk.blocks[x, y - 1, z] == 0;
      case PosY =>
        visible := y == Y_SIZE - 1 || chunk.blocks[x, y + 1, z] == 0;
      case NegZ =>
        visible := z == 0 || chunk.blocks[x, y, z - 1] == 0;
      case PosZ =>
        visible := z == Z_SIZE - 1 || chunk.blocks[x, y, z + 1] == 0;
    }
    if visible {
      vertices', colors' := PushCube(vertices, colors, x, y, z);
    } else {
      vertices', colors' := vertices, colors;
    }
  }

  /** The body of the innermost loop: for a solid cell, the six face tests in order. */
  method MeshCell(chunk: Chunk, ghost g: seq<seq<seq<int>>>, x: int, y: int, z: int,
                  vertices: seq<(int, int, int)>, colors: seq<Color>)
    returns (vertices': seq<(int, int, int)>, colors': seq<Color>)
    requires Mirrors(chunk, g) && InGrid(x, y, z)
    ensures vertices' == vertices + Positions(CellVertices(g, x, y, z))
    ensures colors' == colors + Colors(CellVertices(g, x, y, z))
  {
    vertices', colors' := vertices, colors;
    var id := chunk.blocks[x, y, z];
    if id > 0 {
      ghost var f := FaceVertices(g, x, y, z, NegX);
      vertices', colors' := MeshFace(chunk, g, x, y, z, NegX, vertices', colors');
      ghost var done := f;
      f := FaceVertices(g, x, y, z, PosX);
      vertices', colors' := MeshFace(chunk, g, x, y, z, PosX, vertices', colors');
      Extend(vertices, colors, done, f);
      done := done + f;
      f := FaceVertices(g, x, y, z, NegY);
      vertices', colors' := MeshFace(chunk, g, x, y, z, NegY, vertices', colors');
      Extend(vertices, colors, done, f);
      done := done + f;
      f := FaceVertices(g, x, y, z, PosY);
      vertices', colors' := MeshFace(chunk, g, x, y, z, PosY, vertices', colors');
      Extend(vertices, colors, done, f);
      done := done + f;
      f := FaceVertices(g, x, y, z, NegZ);
      vertices', colors' := MeshFace(chunk, g, x, y, z, NegZ, vertices', colors');
      Extend(vertices, colors, done, f);
      done := done + f;
      f := FaceVertices(g, x, y, z, PosZ);
      vertices', colors' := MeshFace(chunk, g, x, y, z, PosZ, vertices', colors');
      Extend(vertices, colors, done, f);
      done := done + f;
      assert CellVertices(g, x, y, z) == done;
    }
  }

  /** The innermost `for z` loop over one row of cells. */
  method MeshRow(chunk: Chunk, ghost g: seq<seq<seq<int>>>, x: int, y: int,
                 vertices: seq<(int, int, int)>, colors: seq<Color>)
    returns (vertices': seq<(int, int, int)>, colors': seq<Color>)
    requires Mirrors(chunk, g) && 0 <= x < X_SIZE && 0 <= y < Y_SIZE
    ensures vertices' == vertices + Positions(SweepZ(CellStream(g), x, y, Z_SIZE))
    ensures colors' == colors + Colors(SweepZ(CellStream(g), x, y, Z_SIZE))
  {
    vertices', colors' := vertices, colors;
    for z := 0 to Z_SIZE
      invariant vertices' == vertices + Positions(SweepZ(CellStream(g), x, y, z))
      invariant colors' == colors + Colors(SweepZ(CellStream(g), x, y, z))
    {
      vertices', colors' := MeshCell(chunk, g, x, y, z, vertices', colors');
      Extend(vertices, colors, SweepZ(CellStream(g), x, y, z), CellVertices(g, x, y, z));
    }
  }

  /** The middle `for y` loop over the rows of one slab. */
  method MeshSlab(chunk: Chunk, ghost g: seq<seq<seq<int>>>, x: int,
                  vertices: seq<(int, int, int)>, colors: seq<Color>)
    returns (vertices': seq<(int, int, int)>, colors': seq<Color>)
    requires Mirrors(chunk, g) && 0 <= x < X_SIZE
    ensures vertices' == vertices + Positions(SweepY(CellStream(g), x, Y_SIZE, Z_SIZE))
    ensures colors' == colors + Colors(SweepY(CellStream(g), x, Y_SIZE, Z_SIZE))
  {
    vertices', colors' := vertices, colors;
    for y := 0 to Y_SIZE
      invariant vertices' == vertices + Positions(SweepY(CellStream(g), x, y, Z_SIZE))
      invariant colors' == colors + Colors(SweepY(CellStream(g), x, y, Z_SIZE))
    {
      vertices', colors' := MeshRow(chunk, g, x, y, vertices', colors');
      Extend(vertices, colors, SweepY(CellStream(g), x, y, Z_SIZE), SweepZ(CellStream(g), x, y, Z_SIZE));
    }
  }

  /**
   * The index loop: for each whole `stride` vertices, one copy of
   * `CUBE_INDICES` shifted by `stride * i`. `Chunk::mesh` uses stride 24.
   */
  method BuildIndices(vertexCount: nat, stride: nat) returns (indices: seq<int>)
    requires stride > 0
    ensures indices == IndexGroups(vertexCount / stride, stride)
  {
    indices := [];
    for i := 0 to vertexCount / stride
      invariant indices == IndexGroups(i, stride)
    {
      var offset := i * stride;
      for j := 0 to 36
        invariant indices == IndexGroups(i, stride) + IndexGroup(offset)[..j]
      {
        indices := indices + [CUBE_INDICES[j] + offset];
        assert IndexGroup(offset)[..j + 1] == IndexGroup(offset)[..j] + [IndexGroup(offset)[j]];
      }
      assert IndexGroup(offset)[..36] == IndexGroup(offset);
    }
  }

  /** The three nested loops over the cells, x outermost, then y, then z. */
  method MeshCells(chunk: Chunk, ghost g: seq<seq<seq<int>>>)
    returns (vertices: seq<(int, int, int)>, colors: seq<Color>)
    requires Mirrors(chunk, g)
    ensures vertices == Positions(MeshVertices(g))
    ensures colors == Colors(MeshVertices(g))
  {
    vertices, colors := [], [];
    for x := 0 to X_SIZE
      invariant vertices == Positions(SweepX(CellStream(g), x, Y_SIZE, Z_SIZE))
      invariant colors == Colors(SweepX(CellStream(g), x, Y_SIZE, Z_SIZE))
    {
      vertices, colors := MeshSlab(chunk, g, x, vertices, colors);
      SplitAppend(SweepX(CellStream(g), x, Y_SIZE, Z_SIZE), SweepY(CellStream(g), x, Y_SIZE, Z_SIZE));
    }
  }

  /**
   * `Chunk::mesh`: the vertex and colour streams are the positions and colours
   * of `MeshVertices` of the chunk's grid, and the index list is `MeshIndices`
   * of the vertex count.
   */
  method Mesh(chunk: Chunk, ghost g: seq<seq<seq<int>>>)
    returns (vertices: seq<(int, int, int)>, colors: seq<Color>, indices: seq<int>)
    requires Mirrors(chunk, g)
    ensures vertices == Positions(MeshVertices(g))
    ensures colors == Colors(MeshVertices(g))
    ensures indices == MeshIndices(|vertices|)
  {
    vertices, colors := MeshCells(chunk, g);
    indices := BuildIndices(|vertices|, 24);
  }
}
