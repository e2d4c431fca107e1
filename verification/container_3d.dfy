/**
 * The 3-D chunk store of src/chunk/container.rs, an older variant of the
 * 2-D store: chunks of 16 x 16 x 16 blocks keyed by an id that packs three
 * chunk indices with `<<` and `|`, fetched or created on demand.
 *
 * Keys are `i32` values in the source; a key is represented here by its
 * 32-bit pattern, which identifies it. Stored chunks are values, as in the
 * 2-D store: the world position `Chunk::new` records and the blocks it sets.
 */
module ChunkStore3d {
  import opened RustInt
  import opened ChunkGrid
  import opened ChunkStore

  datatype Chunk3 = Chunk3(worldPos: (i32, i32, i32), blocks: seq<int>)

  /** `Chunk::new(x, y, z)`: every one of the `size` blocks 1, the position recorded. */
  function NewChunk3(x: i32, y: i32, z: i32, size: nat): (c: Chunk3)
    ensures c.worldPos == (x, y, z) && |c.blocks| == size
    ensures forall i :: 0 <= i < |c.blocks| ==> c.blocks[i] == 1
  {
    Chunk3((x, y, z), seq(size, _ => 1))
  }

  /** Point (x, y, z) lies in the 16-cube whose least corner is the chunk's world position. */
  predicate Contains(c: Chunk3, x: int, y: int, z: int) {
    c.worldPos.0 <= x < c.worldPos.0 + X_SIZE &&
    c.worldPos.1 <= y < c.worldPos.1 + Y_SIZE &&
    c.worldPos.2 <= z < c.worldPos.2 + Z_SIZE
  }

  // ---------------------------------------------------------------------------
  // Keys.

  /** `(x_index << 20) | (y_index << 10) | z_index`, the key of `get_domain_at`; z is not masked. */
  function DomainId(xi: i32, yi: i32, zi: i32): (k: int)
    ensures 0 <= k < TWO_POW_32
  {
    Pow2Width();
    BitOrBound(Shl(xi, 20), Shl(yi, 10), 32);
    BitOrBound(BitOr(Shl(xi, 20), Shl(yi, 10)), Pattern(zi), 32);
    BitOr(BitOr(Shl(xi, 20), Shl(yi, 10)), Pattern(zi))
  }

  /** The chunk `get_domain_at` creates on a miss: at (x_index * 16, y_index * 16, z_index * 16). */
  function DomainChunk(xi: i32, yi: i32, zi: i32): Chunk3 {
    NewChunk3(Wrap(xi * X_SIZE), Wrap(yi * Y_SIZE), Wrap(zi * Z_SIZE), SHAPE_SIZE)
  }

  /** `(v / 16) * 16`: the least corner of the 16-cube holding v, toward zero. */
  function Corner(v: i32): (c: i32)
    ensures v >= 0 ==> 0 <= c <= v < c + 16
    ensures v < 0 ==> c - 16 < v <= c <= 0
  {
    Div(v, X_SIZE) * X_SIZE
  }

  /**
   * The key of `get_chunk_at(_mut)`: with `c` the corners,
   * `((cx / 16) << 20) | ((cy / 16) << 10) | ((cz / 16) & 1023)`.
   */
  function ChunkId(x: i32, y: i32, z: i32): int {
    BitOr(BitOr(Shl(Div(Corner(x), X_SIZE), 20), Shl(Div(Corner(y), Y_SIZE), 10)), Low10(Div(Corner(z), Z_SIZE)))
  }

  /** The chunk `get_chunk_at(_mut)` creates on a miss: at the corners. */
  function CornerChunk(x: i32, y: i32, z: i32): (c: Chunk3)
    ensures x >= 0 && y >= 0 && z >= 0 ==> Contains(c, x, y, z)
  {
    NewChunk3(Corner(x), Corner(y), Corner(z), SHAPE_SIZE)
  }

  /** Dividing a corner by 16 gives back the chunk index. */
  lemma CornerIndex(v: i32)
    ensures Div(Corner(v), 16) == Div(v, 16)
  {
    DivMulCancel16(Div(v, 16));
  }

  /** For indices 0 <= xi < 4096 and 0 <= yi, zi < 1024 the domain key is xi * 2^20 + yi * 2^10 + zi. */
  lemma DomainIdPacks(xi: i32, yi: i32, zi: i32)
    requires 0 <= xi < 0x1000 && 0 <= yi < 1024 && 0 <= zi < 1024
    ensures DomainId(xi, yi, zi) == xi * 0x10_0000 + yi * 1024 + zi
  {
    Pack20(xi, yi, zi);
  }

  /** In that range two domains share a key exactly when they are the same domain. */
  lemma DomainIdInjective(xi: i32, yi: i32, zi: i32, xi': i32, yi': i32, zi': i32)
    requires 0 <= xi < 0x1000 && 0 <= yi < 1024 && 0 <= zi < 1024
    requires 0 <= xi' < 0x1000 && 0 <= yi' < 1024 && 0 <= zi' < 1024
    ensures DomainId(xi, yi, zi) == DomainId(xi', yi', zi') <==> (xi, yi, zi) == (xi', yi', zi')
  {
    DomainIdPacks(xi, yi, zi);
    DomainIdPacks(xi', yi', zi');
    Pack3Injective(xi, yi, zi, xi', yi', zi');
  }

  /** x index 4096 shifts out of the 32 bits: its key is that of x index 0. */
  lemma DomainIdWrapsX(yi: i32, zi: i32)
    ensures DomainId(4096, yi, zi) == DomainId(0, yi, zi)
  {
    Pow2Values();
    assert Shl(4096, 20) == 0 && Shl(0, 20) == 0;
  }

  /** z index -1 sets every bit: all domains with z index -1 share one key. */
  lemma DomainIdNegativeZ(xi: i32, yi: i32)
    ensures DomainId(xi, yi, -1) == TWO_POW_32 - 1
  {
    Pow2Width();
    BitOrBound(Shl(xi, 20), Shl(yi, 10), 32);
    BitOrOnes(BitOr(Shl(xi, 20), Shl(yi, 10)), 32);
  }

  /**
   * For 0 <= x < 2^16 and 0 <= y, z < 2^14 the chunk key packs the three
   * chunk indices, x / 16, y / 16 and z / 16.
   */
  lemma ChunkIdPacks(x: i32, y: i32, z: i32)
    requires 0 <= x < 0x1_0000 && 0 <= y < 0x4000 && 0 <= z < 0x4000
    ensures ChunkId(x, y, z) == Div(x, 16) * 0x10_0000 + Div(y, 16) * 1024 + Div(z, 16)
  {
    CornerIndex(x);
    CornerIndex(y);
    CornerIndex(z);
    Pack20(Div(x, 16), Div(y, 16), Div(z, 16));
  }

  /** In that range two points get one key exactly when they lie in the same 16-cube. */
  lemma SameCube(x: i32, y: i32, z: i32, x': i32, y': i32, z': i32)
    requires 0 <= x < 0x1_0000 && 0 <= y < 0x4000 && 0 <= z < 0x4000
    requires 0 <= x' < 0x1_0000 && 0 <= y' < 0x4000 && 0 <= z' < 0x4000
    ensures ChunkId(x, y, z) == ChunkId(x', y', z') <==> (Corner(x), Corner(y), Corner(z)) == (Corner(x'), Corner(y'), Corner(z'))
  {
    ChunkIdPacks(x, y, z);
    ChunkIdPacks(x', y', z');
    Pack3Injective(Div(x, 16), Div(y, 16), Div(z, 16), Div(x', 16), Div(y', 16), Div(z', 16));
    CornerIndex(x);
    CornerIndex(y);
    CornerIndex(z);
    CornerIndex(x');
    CornerIndex(y');
    CornerIndex(z');
  }

  // ---------------------------------------------------------------------------
  // The store.

  /**
   * What `get_chunk_at` leaves and returns: on a hit the stored chunk; on a
   * miss it inserts the corner chunk under the chunk key and then returns
   * `get_domain_at(x, y, z)`, world coordinates taken as chunk indices.
   */
  function ChunkAt(store: map<int, Chunk3>, x: i32, y: i32, z: i32): (r: (map<int, Chunk3>, Chunk3))
    ensures ChunkId(x, y, z) in store ==> r == (store, store[ChunkId(x, y, z)])
    ensures ChunkId(x, y, z) !in store ==>
      r.0.Keys == store.Keys + {ChunkId(x, y, z), DomainId(x, y, z)} && r.0[DomainId(x, y, z)] == r.1
    ensures forall k :: k in store ==> r.0[k] == store[k]
  {
    var id := ChunkId(x, y, z);
    if id in store then (store, store[id])
    else Fetch(store[id := CornerChunk(x, y, z)], DomainId(x, y, z), DomainChunk(x, y, z))
  }

  class Chunks3 {
    var chunks: map<int, Chunk3>

    /** `Chunks::new()`: nothing stored. */
    constructor ()
      ensures chunks == map[]
    {
      chunks := map[];
    }

    /** `get_domain_at(xi, yi, zi)`: keyed by `DomainId`, created at the indices times 16. */
    method GetDomainAt(xi: i32, yi: i32, zi: i32) returns (c: Chunk3)
      modifies this
      ensures (chunks, c) == Fetch(old(chunks), DomainId(xi, yi, zi), DomainChunk(xi, yi, zi))
      decreases if DomainId(xi, yi, zi) in chunks then 0 else 1
    {
      var id := BitOr(BitOr(Shl(xi, 20), Shl(yi, 10)), Pattern(zi));
      if id in chunks {
        return chunks[id];
      }
      var chunk := NewChunk3(Wrap(xi * X_SIZE), Wrap(yi * Y_SIZE), Wrap(zi * Z_SIZE), SHAPE_SIZE);
      chunks := chunks[id := chunk];
      c := GetDomainAt(xi, yi, zi);
    }

    /** `get_domain_at_mut`: the same lookup as `get_domain_at`. */
    method GetDomainAtMut(xi: i32, yi: i32, zi: i32) returns (c: Chunk3)
      modifies this
      ensures (chunks, c) == Fetch(old(chunks), DomainId(xi, yi, zi), DomainChunk(xi, yi, zi))
      decreases if DomainId(xi, yi, zi) in chunks then 0 else 1
    {
      var id := BitOr(BitOr(Shl(xi, 20), Shl(yi, 10)), Pattern(zi));
      if id in chunks {
        return chunks[id];
      }
      var chunk := NewChunk3(Wrap(xi * X_SIZE), Wrap(yi * Y_SIZE), Wrap(zi * Z_SIZE), SHAPE_SIZE);
      chunks := chunks[id := chunk];
      c := GetDomainAtMut(xi, yi, zi);
    }

    /** `get_chunk_at_mut(x, y, z)`: keyed by `ChunkId`, created at the cube's corner. */
    method GetChunkAtMut(x: i32, y: i32, z: i32) returns (c: Chunk3)
      modifies this
      ensures (chunks, c) == Fetch(old(chunks), ChunkId(x, y, z), CornerChunk(x, y, z))
      decreases if ChunkId(x, y, z) in chunks then 0 else 1
    {
      var cx, cy, cz := Div(x, X_SIZE) * X_SIZE, Div(y, Y_SIZE) * Y_SIZE, Div(z, Z_SIZE) * Z_SIZE;
      var id := BitOr(BitOr(Shl(Div(cx, X_SIZE), 20), Shl(Div(cy, Y_SIZE), 10)), Low10(Div(cz, Z_SIZE)));
      if id in chunks {
        return chunks[id];
      }
      var chunk := NewChunk3(cx, cy, cz, SHAPE_SIZE);
      chunks := chunks[id := chunk];
      c := GetChunkAtMut(x, y, z);
    }

    /** `get_chunk_at(x, y, z)`: see `ChunkAt`. */
    method GetChunkAt(x: i32, y: i32, z: i32) returns (c: Chunk3)
      modifies this
      ensures (chunks, c) == ChunkAt(old(chunks), x, y, z)
    {
      var cx, cy, cz := Div(x, X_SIZE) * X_SIZE, Div(y, Y_SIZE) * Y_SIZE, Div(z, Z_SIZE) * Z_SIZE;
      var id := BitOr(BitOr(Shl(Div(cx, X_SIZE), 20), Shl(Div(cy, Y_SIZE), 10)), Low10(Div(cz, Z_SIZE)));
      if id in chunks {
        return chunks[id];
      }
      var chunk := NewChunk3(cx, cy, cz, SHAPE_SIZE);
      chunks := chunks[id := chunk];
      c := GetDomainAt(x, y, z);
    }
  }

  // ---------------------------------------------------------------------------
  // `get_chunk_at` returns a chunk away from the point.

  /**
   * For 16 <= x < 4096 and y, z in [0, 16), a miss in `get_chunk_at` on a
   * store without either key stores two chunks, the corner chunk and one at
   * world (16 x, 16 y, 16 z), and returns the second, which does not hold
   * the point.
   */
  lemma ChunkAtStrays(store: map<int, Chunk3>, x: i32, y: i32, z: i32)
    requires ChunkId(x, y, z) !in store && DomainId(x, y, z) !in store
    requires 16 <= x < 0x1000 && 0 <= y < 16 && 0 <= z < 16
    ensures var r := ChunkAt(store, x, y, z);
      ChunkId(x, y, z) != DomainId(x, y, z) && r.0.Keys == store.Keys + {ChunkId(x, y, z), DomainId(x, y, z)} &&
      r.1.worldPos.0 == 16 * x && !Contains(r.1, x, y, z)
  {
    ChunkIdPacks(x, y, z);
    DomainIdPacks(x, y, z);
    assert Div(y, 16) == 0 && Div(z, 16) == 0;
    assert Div(x, 16) < x;
  }

  /**
   * A store in which every chunk is the corner chunk of a cube with
   * non-negative coordinates, under that cube's chunk key.
   */
  ghost predicate CubeIndexed(store: map<int, Chunk3>) {
    forall k :: k in store ==>
      var p := store[k].worldPos;
      0 <= p.0 < 0x1_0000 && 0 <= p.1 < 0x4000 && 0 <= p.2 < 0x4000 &&
      (Corner(p.0), Corner(p.1), Corner(p.2)) == p && ChunkId(p.0, p.1, p.2) == k
  }

  /**
   * `get_chunk_at_mut` on a cube-indexed store returns the chunk of the
   * point's own cube and keeps the store cube-indexed.
   */
  lemma ChunkAtMutContains(store: map<int, Chunk3>, x: i32, y: i32, z: i32)
    requires CubeIndexed(store)
    requires 0 <= x < 0x1_0000 && 0 <= y < 0x4000 && 0 <= z < 0x4000
    ensures var r := Fetch(store, ChunkId(x, y, z), CornerChunk(x, y, z));
      Contains(r.1, x, y, z) && CubeIndexed(r.0)
  {
    var k := ChunkId(x, y, z);
    if k in store {
      var p := store[k].worldPos;
      SameCube(p.0, p.1, p.2, x, y, z);
    } else {
      var c := CornerChunk(x, y, z);
      CornerIndex(x);
      CornerIndex(y);
      CornerIndex(z);
      SameCube(c.worldPos.0, c.worldPos.1, c.worldPos.2, x, y, z);
      DivMulCancel16(Div(x, 16));
      DivMulCancel16(Div(y, 16));
      DivMulCancel16(Div(z, 16));
    }
  }
}
