/**
 * `generate_terrain_3d` of src/terrain/noise.rs: a chunk of block ids filled
 * column by column from a heightmap, z outermost, then y, x innermost.
 *
 * The Perlin noise map is a parameter, `noise(x, y)`, and the terrain
 * generator is the function `gen` from a height to a block id; heights are
 * exact reals (the source computes them in `f32`).
 */
module TerrainFill {
  import opened Terrain

  /**
   * The id pushed for cell (x, y, z) of a chunk `sz` high: the column's
   * height is `noise(x, y) * sz`; cells at or below it get `gen(height)`,
   * cells above it 0.
   */
  function Cell(noise: (int, int) -> real, gen: real -> int, sz: nat, x: int, y: int, z: int): int {
    var height := noise(x, y) * sz as real;
    if z as real <= height then gen(height) else 0
  }

  /** The ids pushed for x = 0 .. n - 1 of row (y, z). */
  function Row(noise: (int, int) -> real, gen: real -> int, sz: nat, y: int, z: int, n: nat): (r: seq<int>)
    ensures |r| == n
  {
    if n == 0 then [] else Row(noise, gen, sz, y, z, n - 1) + [Cell(noise, gen, sz, n - 1, y, z)]
  }

  /** The ids pushed for y = 0 .. m - 1 of layer z, each a row of `sx` cells. */
  function Layer(noise: (int, int) -> real, gen: real -> int, sx: nat, sz: nat, z: int, m: nat): seq<int> {
    if m == 0 then [] else Layer(noise, gen, sx, sz, z, m - 1) + Row(noise, gen, sz, m - 1, z, sx)
  }

  /** The ids pushed for z = 0 .. n - 1, each a layer of `sy` rows. */
  function Volume(noise: (int, int) -> real, gen: real -> int, sx: nat, sy: nat, sz: nat, n: nat): seq<int> {
    if n == 0 then [] else Volume(noise, gen, sx, sy, sz, n - 1) + Layer(noise, gen, sx, sz, n - 1, sy)
  }

  lemma MulPred(a: nat, b: nat)
    requires b > 0
    ensures a * b == a * (b - 1) + a
  {
  }

  /** Below a * c: a digit x < a plus a times a smaller b. */
  lemma MulBelow(a: nat, b: nat, c: nat, x: nat)
    requires x < a && b < c
    ensures x + a * b < a * c
  {
    var d := c - b - 1;
    assert a * c == a * b + a * d + a;
    assert a * d >= 0;
  }

  /** The position of (x, y) in a layer of rows `sx` long, below the layer's length `sx * m`. */
  function LayerIndex(sx: nat, m: nat, x: nat, y: nat): (i: nat)
    requires x < sx && y < m
    ensures i < sx * m
  {
    MulBelow(sx, y, m, x);
    x + sx * y
  }

  /**
   * The position of (x, y, z) in a volume of layers `sy` rows of `sx`,
   * x + sx * (y + sy * z), below the volume's length `sx * sy * n`.
   */
  function VolumeIndex(sx: nat, sy: nat, n: nat, x: nat, y: nat, z: nat): (i: nat)
    requires x < sx && y < sy && z < n
    ensures i < sx * sy * n
    ensures i == LayerIndex(sx, sy, x, y) + sx * sy * z
  {
    MulBelow(sx, y, sy, x);
    MulBelow(sx * sy, z, n, x + sx * y);
    assert sx * (y + sy * z) == sx * y + sx * sy * z;
    x + sx * (y + sy * z)
  }

  /** Cell x of a row is the id of (x, y, z). */
  lemma {:induction false} RowAt(noise: (int, int) -> real, gen: real -> int, sz: nat, y: int, z: int, n: nat, x: nat)
    requires x < n
    ensures Row(noise, gen, sz, y, z, n)[x] == Cell(noise, gen, sz, x, y, z)
    decreases n
  {
    if x < n - 1 {
      RowAt(noise, gen, sz, y, z, n - 1, x);
    }
  }

  /** A layer of m rows holds sx * m ids. */
  lemma {:induction false} LayerLength(noise: (int, int) -> real, gen: real -> int, sx: nat, sz: nat, z: int, m: nat)
    ensures |Layer(noise, gen, sx, sz, z, m)| == sx * m
    decreases m
  {
    if m > 0 {
      LayerLength(noise, gen, sx, sz, z, m - 1);
      MulPred(sx, m);
    }
  }

  /** In a layer, (x, y) sits at x + sx * y. */
  lemma {:induction false} LayerAt(noise: (int, int) -> real, gen: real -> int, sx: nat, sz: nat, z: int, m: nat, x: nat, y: nat)
    requires x < sx && y < m
    ensures |Layer(noise, gen, sx, sz, z, m)| == sx * m
    ensures Layer(noise, gen, sx, sz, z, m)[LayerIndex(sx, m, x, y)] == Cell(noise, gen, sz, x, y, z)
    decreases m
  {
    LayerLength(noise, gen, sx, sz, z, m);
    LayerLength(noise, gen, sx, sz, z, m - 1);
    var front := Layer(noise, gen, sx, sz, z, m - 1);
    var i := LayerIndex(sx, m, x, y);
    if y < m - 1 {
      assert i == LayerIndex(sx, m - 1, x, y);
      LayerAt(noise, gen, sx, sz, z, m - 1, x, y);
    } else {
      assert i == |front| + x;
      RowAt(noise, gen, sz, y, z, sx, x);
    }
  }

  /** A volume of n layers holds sx * sy * n ids. */
  lemma {:induction false} VolumeLength(noise: (int, int) -> real, gen: real -> int, sx: nat, sy: nat, sz: nat, n: nat)
    ensures |Volume(noise, gen, sx, sy, sz, n)| == sx * sy * n
    decreases n
  {
    if n > 0 {
      VolumeLength(noise, gen, sx, sy, sz, n - 1);
      LayerLength(noise, gen, sx, sz, n - 1, sy);
      MulPred(sx * sy, n);
    }
  }

  /** In a volume, (x, y, z) sits at x + sx * (y + sy * z). */
  lemma {:induction false} VolumeAt(noise: (int, int) -> real, gen: real -> int, sx: nat, sy: nat, sz: nat, n: nat,
                                    x: nat, y: nat, z: nat)
    requires x < sx && y < sy && z < n
    ensures |Volume(noise, gen, sx, sy, sz, n)| == sx * sy * n
    ensures Volume(noise, gen, sx, sy, sz, n)[VolumeIndex(sx, sy, n, x, y, z)] == Cell(noise, gen, sz, x, y, z)
    decreases n
  {
    VolumeLength(noise, gen, sx, sy, sz, n);
    VolumeLength(noise, gen, sx, sy, sz, n - 1);
    var front := Volume(noise, gen, sx, sy, sz, n - 1);
    var i := VolumeIndex(sx, sy, n, x, y, z);
    if z < n - 1 {
      assert i == VolumeIndex(sx, sy, n - 1, x, y, z);
      VolumeAt(noise, gen, sx, sy, sz, n - 1, x, y, z);
    } else {
      var j := LayerIndex(sx, sy, x, y);
      assert sx * sy * z == sx * sy * (n - 1);
      assert i == |front| + j;
      LayerAt(noise, gen, sx, sz, z, sy, x, y);
    }
  }

  lemma Append3(a: seq<int>, b: seq<int>, c: seq<int>)
    ensures a + b + c == a + (b + c)
  {
  }

  /** Every cell of a volume of n layers, at its position. */
  lemma VolumeCells(noise: (int, int) -> real, gen: real -> int, sx: nat, sy: nat, sz: nat, n: nat)
    ensures |Volume(noise, gen, sx, sy, sz, n)| == sx * sy * n
    ensures forall x: nat, y: nat, z: nat :: x < sx && y < sy && z < n ==>
      Volume(noise, gen, sx, sy, sz, n)[VolumeIndex(sx, sy, n, x, y, z)] == Cell(noise, gen, sz, x, y, z)
  {
    VolumeLength(noise, gen, sx, sy, sz, n);
    forall x: nat, y: nat, z: nat | x < sx && y < sy && z < n
      ensures Volume(noise, gen, sx, sy, sz, n)[VolumeIndex(sx, sy, n, x, y, z)] == Cell(noise, gen, sz, x, y, z)
    {
      VolumeAt(noise, gen, sx, sy, sz, n, x, y, z);
    }
  }

  /**
   * `generate_terrain_3d` with the noise map and generator given: pushes
   * `Cell` for every (x, y, z), x innermost and z outermost.
   */
  method GenerateTerrain3D(sx: nat, sy: nat, sz: nat, noise: (int, int) -> real, gen: real -> int)
    returns (ids: seq<int>)
    ensures ids == Volume(noise, gen, sx, sy, sz, sz)
    ensures |ids| == sx * sy * sz
    ensures forall x: nat, y: nat, z: nat :: x < sx && y < sy && z < sz ==>
      ids[VolumeIndex(sx, sy, sz, x, y, z)] == Cell(noise, gen, sz, x, y, z)
  {
    ids := [];
    for z := 0 to sz
      invariant ids == Volume(noise, gen, sx, sy, sz, z)
    {
      ghost var volume := ids;
      for y := 0 to sy
        invariant ids == volume + Layer(noise, gen, sx, sz, z, y)
      {
        ghost var layer := ids;
        for x := 0 to sx
          invariant ids == layer + Row(noise, gen, sz, y, z, x)
        {
          var height := noise(x, y) * sz as real;
          var id := if z as real <= height then gen(height) else 0;
          Append3(layer, Row(noise, gen, sz, y, z, x), [id]);
          ids := ids + [id];
        }
        Append3(volume, Layer(noise, gen, sx, sz, z, y), Row(noise, gen, sz, y, z, sx));
      }
    }
    VolumeCells(noise, gen, sx, sy, sz, sz);
  }

  /**
   * Down a column the filled cells form one run from z = 0, all with the
   * same id `gen(height)`; above the height every cell is 0.
   */
  lemma ColumnRun(noise: (int, int) -> real, gen: real -> int, sz: nat, x: int, y: int, z: nat, z': nat)
    requires z' <= z
    ensures (z as real <= noise(x, y) * sz as real) ==> Cell(noise, gen, sz, x, y, z') == Cell(noise, gen, sz, x, y, z)
    ensures (z as real > noise(x, y) * sz as real) ==> Cell(noise, gen, sz, x, y, z) == 0
  {
  }

  /**
   * With the debug generator a cell at z >= 0 is filled exactly when it is at
   * or below the column's height and that height is at most 39, and its id
   * is in 1 .. 4.
   */
  lemma DebugColumn(noise: (int, int) -> real, sz: nat, x: int, y: int, z: nat)
    ensures var height := noise(x, y) * sz as real;
      Cell(noise, DebugBlockType, sz, x, y, z) != 0 <==> z as real <= height && height <= 39.0
    ensures 0 <= Cell(noise, DebugBlockType, sz, x, y, z) <= 4
  {
  }
}
