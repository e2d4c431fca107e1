/**
 * The oldest chunk code, src/chunk.rs: chunks of 12 x 12 x 12 blocks whose
 * world position is the centre of their cube, a 3-D store keyed by the
 * packed indices of that centre, and the chunk with its in-place fill and
 * `set_block`.
 *
 * As in the other stores, keys are represented by their 32-bit pattern and
 * stored chunks are values; `OldChunk` is the chunk as the class the
 * constructor and `set_block` update in place.
 */
module OldChunks {
  import opened RustInt
  import opened ChunkStore
  import C3 = ChunkStore3d

  const X_SIZE: int := 12
  const Y_SIZE: int := 12
  const Z_SIZE: int := 12

  /** The number of blocks in a chunk. */
  const SIZE: int := 1728

  /** `v / 12 * 12 + 12 / 2`: the centre of the 12-cube holding v, toward zero. */
  function Centre(v: i32): (c: i32)
    ensures v >= 0 ==> c - 6 <= v < c + 6 && c >= 6
    ensures v < 0 ==> c - 18 < v <= c - 6
  {
    Div(v, X_SIZE) * X_SIZE + X_SIZE / 2
  }

  /**
   * The key of `get_chunk_at(_mut)`: with `c` the centres,
   * `((cx / 12) << 20) | ((cy / 12) << 10) | ((cz / 12) & 1023)`.
   */
  function OldId(x: i32, y: i32, z: i32): int {
    BitOr(BitOr(Shl(Div(Centre(x), X_SIZE), 20), Shl(Div(Centre(y), Y_SIZE), 10)), Low10(Div(Centre(z), Z_SIZE)))
  }

  /** The chunk created on a miss: at the centres, every block 1. */
  function CentreChunk(x: i32, y: i32, z: i32): (c: C3.Chunk3)
    ensures c.worldPos == (Centre(x), Centre(y), Centre(z)) && |c.blocks| == SIZE
  {
    C3.NewChunk3(Centre(x), Centre(y), Centre(z), SIZE)
  }

  /**
   * Dividing the centre by 12 gives the cube index for v >= 0, and one more
   * than it for v <= -12: the centre of a negative cube lies closer to 0.
   */
  lemma CentreIndex(v: i32)
    ensures v >= 0 ==> Div(Centre(v), 12) == Div(v, 12)
    ensures v <= -12 ==> Div(Centre(v), 12) == Div(v, 12) + 1
  {
  }

  /** Every x in [-23, 11] gets index 0: two cubes of points share the cube at the origin. */
  lemma ComponentZero(v: i32)
    requires -23 <= v <= 11
    ensures Div(Centre(v), 12) == 0
  {
  }

  /**
   * So for x in [-23, -12] and x' in [0, 11] the keys agree while the
   * centres a miss would create differ (-6 and 6).
   */
  lemma NegativeShare(x: i32, x': i32, y: i32, z: i32)
    requires -23 <= x <= -12 && 0 <= x' <= 11
    ensures OldId(x, y, z) == OldId(x', y, z)
    ensures Centre(x) == -6 && Centre(x') == 6
  {
    ComponentZero(x);
    ComponentZero(x');
    assert Div(x, X_SIZE) == -1 && Div(x', X_SIZE) == 0;
  }

  /** For 0 <= x < 12 * 2^12 and 0 <= y, z < 12 * 2^10 the key packs the cube indices. */
  lemma OldIdPacks(x: i32, y: i32, z: i32)
    requires 0 <= x < 0xC000 && 0 <= y < 0x3000 && 0 <= z < 0x3000
    ensures OldId(x, y, z) == Div(x, 12) * 0x10_0000 + Div(y, 12) * 1024 + Div(z, 12)
  {
    CentreIndex(x);
    CentreIndex(y);
    CentreIndex(z);
    Pack20(Div(x, 12), Div(y, 12), Div(z, 12));
  }

  /** For v, v' >= 0 the centres agree exactly when the cube indices do. */
  lemma CentreSame(v: i32, v': i32)
    requires v >= 0 && v' >= 0
    ensures Centre(v) == Centre(v') <==> Div(v, 12) == Div(v', 12)
  {
  }

  /**
   * The centre of a cube with non-negative corner is its own centre, and it
   * stays below any multiple of 12 that v is below.
   */
  lemma CentreFixed(v: i32, n: nat)
    requires 0 <= v < 12 * n
    ensures Centre(Centre(v)) == Centre(v) && Centre(v) < 12 * n
  {
    CentreIndex(v);
  }

  /** In that range two points get one key exactly when they lie in the same 12-cube. */
  lemma OldSameCube(x: i32, y: i32, z: i32, x': i32, y': i32, z': i32)
    requires 0 <= x < 0xC000 && 0 <= y < 0x3000 && 0 <= z < 0x3000
    requires 0 <= x' < 0xC000 && 0 <= y' < 0x3000 && 0 <= z' < 0x3000
    ensures OldId(x, y, z) == OldId(x', y', z') <==> (Centre(x), Centre(y), Centre(z)) == (Centre(x'), Centre(y'), Centre(z'))
  {
    OldIdPacks(x, y, z);
    OldIdPacks(x', y', z');
    Pack3Injective(Div(x, 12), Div(y, 12), Div(z, 12), Div(x', 12), Div(y', 12), Div(z', 12));
    CentreSame(x, x');
    CentreSame(y, y');
    CentreSame(z, z');
  }

  /**
   * A store in which every chunk sits at the centre of a cube with
   * non-negative coordinates, under that cube's key.
   */
  ghost predicate CentreIndexed(store: map<int, C3.Chunk3>) {
    forall k :: k in store ==>
      var p := store[k].worldPos;
      0 <= p.0 < 0xC000 && 0 <= p.1 < 0x3000 && 0 <= p.2 < 0x3000 &&
      (Centre(p.0), Centre(p.1), Centre(p.2)) == p && OldId(p.0, p.1, p.2) == k
  }

  /**
   * On a centre-indexed store, fetching a point with non-negative
   * coordinates returns the chunk at the centre of the point's cube and
   * keeps the store centre-indexed.
   */
  lemma FetchCentre(store: map<int, C3.Chunk3>, x: i32, y: i32, z: i32)
    requires CentreIndexed(store)
    requires 0 <= x < 0xC000 && 0 <= y < 0x3000 && 0 <= z < 0x3000
    ensures var r := Fetch(store, OldId(x, y, z), CentreChunk(x, y, z));
      r.1.worldPos == (Centre(x), Centre(y), Centre(z)) && CentreIndexed(r.0)
  {
    var k := OldId(x, y, z);
    if k in store {
      var p := store[k].worldPos;
      OldSameCube(p.0, p.1, p.2, x, y, z);
    } else {
      var p := CentreChunk(x, y, z).worldPos;
      CentreFixed(x, 0x1000);
      CentreFixed(y, 0x400);
      CentreFixed(z, 0x400);
      OldSameCube(p.0, p.1, p.2, x, y, z);
    }
  }

  class Chunks {
    var chunks: map<int, C3.Chunk3>

    /** `Chunks::new()`: nothing stored. */
    constructor ()
      ensures chunks == map[]
    {
      chunks := map[];
    }

    /** `get_chunk_at_mut(x, y, z)`: keyed by `OldId`, created at the cube's centre. */
    method GetChunkAtMut(x: i32, y: i32, z: i32) returns (c: C3.Chunk3)
      modifies this
      ensures (chunks, c) == Fetch(old(chunks), OldId(x, y, z), CentreChunk(x, y, z))
      decreases if OldId(x, y, z) in chunks then 0 else 1
    {
      var cx := Div(x, X_SIZE) * X_SIZE + X_SIZE / 2;
      var cy := Div(y, Y_SIZE) * Y_SIZE + Y_SIZE / 2;
      var cz := Div(z, Z_SIZE) * Z_SIZE + Z_SIZE / 2;
      assert (cx, cy, cz) == (Centre(x), Centre(y), Centre(z));
      var id := BitOr(BitOr(Shl(Div(cx, X_SIZE), 20), Shl(Div(cy, Y_SIZE), 10)), Low10(Div(cz, Z_SIZE)));
      assert id == OldId(x, y, z);
      if id in chunks {
        return chunks[id];
      }
      var chunk := C3.NewChunk3(cx, cy, cz, SIZE);
      chunks := chunks[id := chunk];
      c := GetChunkAtMut(x, y, z);
    }

    /** `get_chunk_at(x, y, z)`: the same lookup as `get_chunk_at_mut`. */
    method GetChunkAt(x: i32, y: i32, z: i32) returns (c: C3.Chunk3)
      modifies this
      ensures (chunks, c) == Fetch(old(chunks), OldId(x, y, z), CentreChunk(x, y, z))
      decreases if OldId(x, y, z) in chunks then 0 else 1
    {
      var cx := Div(x, X_SIZE) * X_SIZE + X_SIZE / 2;
      var cy := Div(y, Y_SIZE) * Y_SIZE + Y_SIZE / 2;
      var cz := Div(z, Z_SIZE) * Z_SIZE + Z_SIZE / 2;
      assert (cx, cy, cz) == (Centre(x), Centre(y), Centre(z));
      var id := BitOr(BitOr(Shl(Div(cx, X_SIZE), 20), Shl(Div(cy, Y_SIZE), 10)), Low10(Div(cz, Z_SIZE)));
      assert id == OldId(x, y, z);
      if id in chunks {
        return chunks[id];
      }
      var chunk := C3.NewChunk3(cx, cy, cz, SIZE);
      chunks := chunks[id := chunk];
      c := GetChunkAt(x, y, z);
    }
  }

  predicate InChunk(x: int, y: int, z: int) {
    0 <= x < X_SIZE && 0 <= y < Y_SIZE && 0 <= z < Z_SIZE
  }

  /** The chunk of src/chunk.rs: a 12 x 12 x 12 grid updated in place and its world position. */
  class OldChunk {
    var blocks: array3<int>
    var worldPos: (i32, i32, i32)

    ghost predicate Valid()
      reads this
    {
      blocks.Length0 == X_SIZE && blocks.Length1 == Y_SIZE && blocks.Length2 == Z_SIZE
    }

    /** `Chunk::new(x, y, z)`: the nested loops set every block to 1; the position is recorded. */
    constructor (x: i32, y: i32, z: i32)
      ensures Valid() && fresh(blocks)
      ensures forall i, j, k :: InChunk(i, j, k) ==> blocks[i, j, k] == 1
      ensures worldPos == (x, y, z)
    {
      var b := new int[X_SIZE, Y_SIZE, Z_SIZE]((_, _, _) => 0);
      for i := 0 to X_SIZE
        invariant forall i', j', k' :: 0 <= i' < i && 0 <= j' < Y_SIZE && 0 <= k' < Z_SIZE ==> b[i', j', k'] == 1
      {
        for j := 0 to Y_SIZE
          invariant forall i', j', k' :: 0 <= i' < i && 0 <= j' < Y_SIZE && 0 <= k' < Z_SIZE ==> b[i', j', k'] == 1
          invariant forall j', k' :: 0 <= j' < j && 0 <= k' < Z_SIZE ==> b[i, j', k'] == 1
        {
          for k := 0 to Z_SIZE
            invariant forall i', j', k' :: 0 <= i' < i && 0 <= j' < Y_SIZE && 0 <= k' < Z_SIZE ==> b[i', j', k'] == 1
            invariant forall j', k' :: 0 <= j' < j && 0 <= k' < Z_SIZE ==> b[i, j', k'] == 1
            invariant forall k' :: 0 <= k' < k ==> b[i, j, k'] == 1
          {
            b[i, j, k] := 1;
          }
        }
      }
      blocks := b;
      worldPos := (x, y, z);
    }

    /** `set_block`: exactly cell (x, y, z) becomes `id`. Indices outside the grid panic in the source. */
    method SetBlock(x: int, y: int, z: int, id: int)
      requires Valid() && InChunk(x, y, z)
      modifies blocks
      ensures blocks[x, y, z] == id
      ensures forall i, j, k :: InChunk(i, j, k) && (i, j, k) != (x, y, z) ==> blocks[i, j, k] == old(blocks[i, j, k])
      ensures worldPos == old(worldPos)
    {
      blocks[x, y, z] := id;
    }
  }
}
