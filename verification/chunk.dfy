/**
 * The chunk of src/chunk/mod.rs: a fixed 16 x 16 x 16 grid of block ids,
 * indexed `blocks[x][y][z]`, and the world position it was created with.
 * The grid is updated in place, so the chunk is a class over an `array3`;
 * `Grid()` reads it as a nested sequence `g[x][y][z]`, the value the
 * mesher's specification works on.
 */
module ChunkGrid {

  const X_SIZE: int := 16
  const Y_SIZE: int := 16
  const Z_SIZE: int := 16

  /** `ChunkShape::ARRAY`, the dimensions of the grid. */
  const SHAPE_ARRAY: seq<int> := [16, 16, 16]

  /** `ChunkShape::SIZE`, the number of cells. */
  const SHAPE_SIZE: int := 4096

  /** The shape's dimensions are the three size constants and its size is their product. */
  lemma ShapeMatchesSizes()
    ensures SHAPE_ARRAY == [X_SIZE, Y_SIZE, Z_SIZE]
    ensures SHAPE_SIZE == X_SIZE * Y_SIZE * Z_SIZE == 4096
  {
  }

  predicate InGrid(x: int, y: int, z: int) {
    0 <= x < X_SIZE && 0 <= y < Y_SIZE && 0 <= z < Z_SIZE
  }

  /** A grid value: 16 slabs of 16 rows of 16 block ids. */
  predicate IsGrid(g: seq<seq<seq<int>>>) {
    |g| == X_SIZE &&
    forall x :: 0 <= x < X_SIZE ==> |g[x]| == Y_SIZE && forall y :: 0 <= y < Y_SIZE ==> |g[x][y]| == Z_SIZE
  }

  /** A grid in which every cell holds `v`. */
  function Filled(v: int): (g: seq<seq<seq<int>>>)
    ensures IsGrid(g)
    ensures forall x, y, z :: InGrid(x, y, z) ==> g[x][y][z] == v
  {
    seq(X_SIZE, _ => seq(Y_SIZE, _ => seq(Z_SIZE, _ => v)))
  }

  /** `g` with cell (x, y, z) set to `v`. */
  function Set(g: seq<seq<seq<int>>>, x: int, y: int, z: int, v: int): (r: seq<seq<seq<int>>>)
    requires IsGrid(g) && InGrid(x, y, z)
    ensures IsGrid(r)
    ensures r[x][y][z] == v
    ensures forall x', y', z' :: InGrid(x', y', z') && (x', y', z') != (x, y, z) ==> r[x'][y'][z'] == g[x'][y'][z']
  {
    g[x := g[x][y := g[x][y][z := v]]]
  }

  class Chunk {
    var blocks: array3<int>
    var worldPos: (int, int, int)

    ghost predicate Valid()
      reads this
    {
      blocks.Length0 == X_SIZE && blocks.Length1 == Y_SIZE && blocks.Length2 == Z_SIZE
    }

    /** The block ids as a value. */
    ghost function Grid(): (g: seq<seq<seq<int>>>)
      requires Valid()
      reads this, blocks
      ensures IsGrid(g)
      ensures forall x, y, z :: InGrid(x, y, z) ==> g[x][y][z] == blocks[x, y, z]
    {
      var b := blocks;
      seq(X_SIZE, x requires 0 <= x < X_SIZE reads b =>
        seq(Y_SIZE, y requires 0 <= y < Y_SIZE reads b =>
          seq(Z_SIZE, z requires 0 <= z < Z_SIZE reads b => b[x, y, z])))
    }

    /** `Chunk::new(x, y, z)`: every cell set to 1 by the nested loops, position recorded. */
    constructor (x: int, y: int, z: int)
      ensures Valid() && fresh(blocks)
      ensures Grid() == Filled(1)
      ensures worldPos == (x, y, z)
    {
      var b := new int[X_SIZE, Y_SIZE, Z_SIZE]((_, _, _) => 0);
      for i := 0 to X_SIZE
        invariant forall i', j', k' :: 0 <= i' < i && 0 <= j' < Y_SIZE && 0 <= k' < Z_SIZE ==> b[i', j', k'] == 1
      {
        for j := 0 to Y_SIZE
          invariant forall i', j', k' :: 0 <= i' < i && 0 <= j' < Y_SIZE && 0 <= k' < Z_SIZE ==> b[i', j', k'] == 1
          invariant forall j', k' :: 0 <= j' < j && 0 <= k' < Z_SIZE ==> b[i, j', k'] == 1
        {
          for k := 0 to Z_SIZE
            invariant forall i', j', k' :: 0 <= i' < i && 0 <= j' < Y_SIZE && 0 <= k' < Z_SIZE ==> b[i', j', k'] == 1
            invariant forall j', k' :: 0 <= j' < j && 0 <= k' < Z_SIZE ==> b[i, j', k'] == 1
            invariant forall k' :: 0 <= k' < k ==> b[i, j, k'] == 1
          {
            b[i, j, k] := 1;
          }
        }
      }
      blocks := b;
      worldPos := (x, y, z);
      new;
      GridsEqual(Grid(), Filled(1));
    }

    /**
     * `set_block`: cell (x, y, z) becomes `id`; every other cell and the world
     * position are unchanged. Indices outside the grid panic in the source.
     */
    method SetBlock(x: int, y: int, z: int, id: int)
      requires Valid() && InGrid(x, y, z)
      modifies blocks
      ensures Valid()
      ensures Grid() == Set(old(Grid()), x, y, z, id)
      ensures worldPos == old(worldPos)
    {
      ghost var before := Grid();
      blocks[x, y, z] := id;
      GridsEqual(Grid(), Set(before, x, y, z, id));
    }
  }

  /** Two grids that agree on every cell are equal. */
  lemma GridsEqual(g: seq<seq<seq<int>>>, h: seq<seq<seq<int>>>)
    requires IsGrid(g) && IsGrid(h)
    requires forall x, y, z :: InGrid(x, y, z) ==> g[x][y][z] == h[x][y][z]
    ensures g == h
  {
    forall x | 0 <= x < X_SIZE
      ensures g[x] == h[x]
    {
      forall y | 0 <= y < Y_SIZE
        ensures g[x][y] == h[x][y]
      {
        assert forall z :: 0 <= z < Z_SIZE ==> g[x][y][z] == h[x][y][z];
      }
    }
  }
}
