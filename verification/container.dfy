/**
 * The 2-D chunk store of src/chunk/container/mod.rs: the coordinate codec
 * (`linearize`, `delinearize` and their `_domain` forms), the get-or-create
 * accessors over the `HashMap<i32, Chunk>` and `reset`.
 *
 * All arithmetic is on `i32`; an expression that overflows wraps (`Wrap`).
 * A stored chunk is a value: the two-argument constructor the store calls
 * records its arguments as the world position and fills every block with 1,
 * like the three-argument `Chunk::new`.
 */
module ChunkStore {
  import opened RustInt
  import opened ChunkGrid

  datatype StoredChunk = StoredChunk(worldPos: (i32, i32), blocks: seq<int>)

  /** A new chunk at world position (x, z), every block 1. */
  function NewChunk(x: i32, z: i32): (c: StoredChunk)
    ensures c.worldPos == (x, z) && |c.blocks| == SHAPE_SIZE
    ensures forall i :: 0 <= i < |c.blocks| ==> c.blocks[i] == 1
  {
    StoredChunk((x, z), seq(SHAPE_SIZE, _ => 1))
  }

  /** `override_blocks([0; SIZE])`: the same chunk with every block 0. */
  function Cleared(c: StoredChunk): (r: StoredChunk)
    ensures r.worldPos == c.worldPos && |r.blocks| == SHAPE_SIZE
    ensures forall i :: 0 <= i < |r.blocks| ==> r.blocks[i] == 0
  {
    StoredChunk(c.worldPos, seq(SHAPE_SIZE, _ => 0))
  }

  // ---------------------------------------------------------------------------
  // The coordinate codec.

  /** `linearize([x, z])`: the id of the 16 x 16 column holding world point (x, z). */
  function Linearize(x: i32, z: i32): i32 {
    Wrap(Div(x, X_SIZE) * 1024 + Div(z, Z_SIZE))
  }

  /** `delinearize(id)`: the world corner of the column an id names. */
  function Delinearize(id: i32): (p: (i32, i32))
    ensures id >= 0 ==> p.0 >= 0 && 0 <= p.1 < 1024 * Z_SIZE
  {
    (Div(id, 1024) * X_SIZE, Rem(id, 1024) * Z_SIZE)
  }

  /** `linearize_domain([x, z])`: the id of column (x, z) given in column units. */
  function LinearizeDomain(x: i32, z: i32): i32 {
    Linearize(Wrap(x * X_SIZE), Wrap(z * Z_SIZE))
  }

  /** `delinearize_domain(id)`: the column, in column units, an id names. */
  function DelinearizeDomain(id: i32): (int, int) {
    var p := Delinearize(id);
    (Div(p.0, X_SIZE), Div(p.1, Z_SIZE))
  }

  /**
   * The key `get_domain_at` uses, `((x & 1023) << 10) | (z & 1023)`: the ten
   * low bits of x above the ten low bits of z (`DomainKeyBits`).
   */
  function DomainKey(x: int, z: int): int {
    Low10(x) * 1024 + Low10(z)
  }

  /** Without overflow, `linearize` is truncating division of both coordinates by 16, packed base 1024. */
  lemma LinearizeValue(x: i32, z: i32)
    requires -0x8000_0000 <= Div(x, 16) * 1024 + Div(z, 16) < 0x8000_0000
    ensures Linearize(x, z) == Div(x, 16) * 1024 + Div(z, 16)
  {
  }

  /** Two points with z columns in [-512, 512) share an id exactly when they share both columns. */
  lemma LinearizeSameColumn(x: i32, z: i32, x': i32, z': i32)
    requires -0x80_0000 <= x < 0x80_0000 && -0x80_0000 <= x' < 0x80_0000
    requires -512 < Div(z, 16) < 512 && -512 < Div(z', 16) < 512
    ensures Linearize(x, z) == Linearize(x', z') <==> Div(x, 16) == Div(x', 16) && Div(z, 16) == Div(z', 16)
  {
    var a, b, a', b' := Div(x, 16), Div(z, 16), Div(x', 16), Div(z', 16);
    if a * 1024 + b == a' * 1024 + b' {
      assert (a - a') * 1024 == b' - b;
    }
  }

  /** Division truncates toward zero, so every x in (-16, 16) lies in column 0. */
  lemma ColumnZero(x: i32, z: i32)
    requires -16 < x < 16
    ensures Linearize(x, z) == Linearize(0, z)
  {
  }

  /** The ids of the points in src/main.rs's chunk test. */
  lemma TestPointIds()
    ensures Linearize(5, 5) == 0 && Linearize(0, 0) == 0 && Linearize(3, 2) == 0
    ensures Linearize(32, 31) == 2049 && Linearize(-31, -41) == -1026
    ensures Linearize(-1, 0) == Linearize(0, 0)
  {
    assert Div(5, 16) == Div(3, 16) == Div(2, 16) == Div(0, 16) == Div(-1, 16) == 0;
    assert Div(32, 16) == 2 && Div(31, 16) == 1 && Div(-31, 16) == -1 && Div(-41, 16) == -2;
    LinearizeValue(5, 5);
    LinearizeValue(0, 0);
    LinearizeValue(3, 2);
    LinearizeValue(32, 31);
    LinearizeValue(-31, -41);
    LinearizeValue(-1, 0);
  }

  /** The diagonal points (16 i, 16 i) have id 1025 i and column (i, i). */
  lemma DiagonalColumns(i: int)
    requires 0 <= i <= 512
    ensures Linearize(16 * i, 16 * i) == 1025 * i
    ensures Div(16 * i, 16) == i
  {
    DivMulCancel16(i);
    assert 16 * i == i * 16;
  }

  /** `linearize` undoes `delinearize`: the corner of the column an id names lies in that column. */
  lemma LinearizeDelinearize(id: i32)
    ensures Linearize(Delinearize(id).0, Delinearize(id).1) == id
  {
    DivMulCancel16(Div(id, 1024));
    DivMulCancel16(Rem(id, 1024));
  }

  /** `linearize_domain` packs column units exactly: multiplying by 16 and dividing again cancels. */
  lemma LinearizeDomainExact(x: i32, z: i32)
    requires -0x800_0000 <= x < 0x800_0000 && -0x800_0000 <= z < 0x800_0000
    requires -0x8000_0000 <= x * 1024 + z < 0x8000_0000
    ensures LinearizeDomain(x, z) == x * 1024 + z
  {
    DivMulCancel16(x);
    DivMulCancel16(z);
  }

  /** For x >= 0 and 0 <= z < 1024 the domain codec round-trips. */
  lemma DomainRoundTrip(x: i32, z: i32)
    requires 0 <= x < 0x20_0000 && 0 <= z < 1024
    ensures DelinearizeDomain(LinearizeDomain(x, z)) == (x, z)
  {
    LinearizeDomainExact(x, z);
    var id := x * 1024 + z;
    DivNonNegIsFloor(id, 1024);
    assert id / 1024 == x && id % 1024 == z;
    DivMulCancel16(x);
    DivMulCancel16(z);
  }

  /** The shift-and-or expression of the source computes `DomainKey`. */
  lemma DomainKeyBits(x: int, z: int)
    ensures BitOr(Shl(Low10(x), 10), Low10(z)) == DomainKey(x, z)
  {
    Pack10(Low10(x), Low10(z));
  }

  /** Two domains share a key exactly when they agree modulo 1024 in both coordinates. */
  lemma DomainKeyInjective(x: int, z: int, x': int, z': int)
    ensures DomainKey(x, z) == DomainKey(x', z') <==> Low10(x) == Low10(x') && Low10(z) == Low10(z')
  {
    var a, b, a', b' := Low10(x), Low10(z), Low10(x'), Low10(z');
    if a * 1024 + b == a' * 1024 + b' {
      assert (a - a') * 1024 == b' - b;
    }
  }

  /** Inside [0, 1024)^2 the key is the domain id. */
  lemma DomainKeyIsDomainId(x: i32, z: i32)
    requires 0 <= x < 1024 && 0 <= z < 1024
    ensures DomainKey(x, z) == LinearizeDomain(x, z) == x * 1024 + z
  {
    LinearizeDomainExact(x, z);
  }

  /** Outside that range the key wraps: domains 1024 apart in either coordinate share a key. */
  lemma DomainKeyAliases(x: int, z: int)
    ensures DomainKey(x + 1024, z) == DomainKey(x, z)
    ensures DomainKey(x, z + 1024) == DomainKey(x, z)
  {
    DomainKeyInjective(x + 1024, z, x, z);
    DomainKeyInjective(x, z + 1024, x, z);
  }

  // ---------------------------------------------------------------------------
  // Get-or-create.

  /**
   * Get-or-create on a map: a hit returns the stored value and keeps the map;
   * a miss stores `created` under `id` and returns it. Nothing stored is
   * removed or replaced.
   */
  function Fetch<C>(store: map<int, C>, id: int, created: C): (r: (map<int, C>, C))
    ensures id in r.0 && r.0[id] == r.1
    ensures r.0.Keys == store.Keys + {id}
    ensures forall k :: k in store ==> r.0[k] == store[k]
    ensures id in store ==> r.0 == store
    ensures id !in store ==> r.1 == created
  {
    if id in store then (store, store[id]) else (store[id := created], created)
  }

  /** A second fetch of the same id is a hit: same map, same value. */
  lemma FetchAgain<C>(store: map<int, C>, id: int, created: C, created': C)
    ensures Fetch(Fetch(store, id, created).0, id, created') == Fetch(store, id, created)
  {
  }

  /**
   * A store filled by `get_chunk_at`: every chunk sits at its column (a, b),
   * under the id a * 1024 + b, with b in (-512, 512] so that no two columns
   * share an id.
   */
  ghost predicate ColumnStore(store: map<int, StoredChunk>) {
    forall id :: id in store ==>
      var p := store[id].worldPos;
      -0x20_0000 < p.0 < 0x20_0000 && -512 < p.1 <= 512 && id == p.0 * 1024 + p.1
  }

  /** Column ids with the z column in (-512, 512] are equal exactly when the columns are. */
  lemma ColumnIdInjective(a: int, b: int, a': int, b': int)
    requires -512 < b <= 512 && -512 < b' <= 512
    ensures a * 1024 + b == a' * 1024 + b' <==> a == a' && b == b'
  {
    if a * 1024 + b == a' * 1024 + b' {
      assert (a - a') * 1024 == b' - b;
    }
  }

  /**
   * `get_chunk_at([x, z])` on a store it has filled returns the chunk at the
   * point's column (x / 16, z / 16), whether it was stored before or is
   * created now, and the store stays so filled.
   */
  lemma FetchColumnAt(store: map<int, StoredChunk>, x: i32, z: i32)
    requires ColumnStore(store)
    requires -0x200_0000 < x < 0x200_0000 && -512 < Div(z, 16) <= 512
    ensures var r := Fetch(store, Linearize(x, z), NewChunk(Div(x, X_SIZE), Div(z, Z_SIZE)));
      r.1.worldPos == (Div(x, 16), Div(z, 16)) && ColumnStore(r.0)
  {
    var a, b := Div(x, 16), Div(z, 16);
    assert -0x20_0000 < a < 0x20_0000;
    LinearizeValue(x, z);
    var id := Linearize(x, z);
    if id in store {
      var p := store[id].worldPos;
      ColumnIdInjective(p.0, p.1, a, b);
    }
  }

  /** The store `chunk_test` holds after its five single lookups. */
  function TestStore(): map<int, StoredChunk> {
    var s1 := Fetch(map[], Linearize(5, 5), NewChunk(Div(5, 16), Div(5, 16)));
    var s2 := Fetch(s1.0, Linearize(0, 0), NewChunk(Div(0, 16), Div(0, 16)));
    var s3 := Fetch(s2.0, Linearize(3, 2), NewChunk(Div(3, 16), Div(2, 16)));
    var s4 := Fetch(s3.0, Linearize(32, 31), NewChunk(Div(32, 16), Div(31, 16)));
    Fetch(s4.0, Linearize(-31, -41), NewChunk(Div(-31, 16), Div(-41, 16))).0
  }

  /**
   * The chunk test of src/main.rs before its loop: points of one column fetch
   * one chunk, others another, and the store is left column-filled.
   */
  lemma ChunkTest()
    ensures
      var s1 := Fetch(map[], Linearize(5, 5), NewChunk(Div(5, 16), Div(5, 16)));
      var s2 := Fetch(s1.0, Linearize(0, 0), NewChunk(Div(0, 16), Div(0, 16)));
      var s3 := Fetch(s2.0, Linearize(3, 2), NewChunk(Div(3, 16), Div(2, 16)));
      var s4 := Fetch(s3.0, Linearize(32, 31), NewChunk(Div(32, 16), Div(31, 16)));
      var s5 := Fetch(s4.0, Linearize(-31, -41), NewChunk(Div(-31, 16), Div(-41, 16)));
      s1.1.worldPos == s2.1.worldPos == s3.1.worldPos == (0, 0) &&
      s4.1.worldPos == (2, 1) && s5.1.worldPos == (-1, -2) && s5.0 == TestStore()
    ensures ColumnStore(TestStore())
  {
    assert Div(5, 16) == Div(3, 16) == Div(2, 16) == Div(0, 16) == 0;
    assert Div(32, 16) == 2 && Div(31, 16) == 1 && Div(-31, 16) == -1 && Div(-41, 16) == -2;
    var s1 := Fetch(map[], Linearize(5, 5), NewChunk(Div(5, 16), Div(5, 16)));
    FetchColumnAt(map[], 5, 5);
    var s2 := Fetch(s1.0, Linearize(0, 0), NewChunk(Div(0, 16), Div(0, 16)));
    FetchColumnAt(s1.0, 0, 0);
    var s3 := Fetch(s2.0, Linearize(3, 2), NewChunk(Div(3, 16), Div(2, 16)));
    FetchColumnAt(s2.0, 3, 2);
    var s4 := Fetch(s3.0, Linearize(32, 31), NewChunk(Div(32, 16), Div(31, 16)));
    FetchColumnAt(s3.0, 32, 31);
    FetchColumnAt(s4.0, -31, -41);
  }

  /**
   * One pass of the loop of `chunk_test`: the lookup at (16 i, 16 i), then the
   * one at (16 (i + 1), 16 (i + 1)); the new store and the two chunks.
   */
  function DiagonalPass(store: map<int, StoredChunk>, i: nat): (map<int, StoredChunk>, StoredChunk, StoredChunk)
    requires i < 512
  {
    var a := Fetch(store, Linearize(16 * i, 16 * i), NewChunk(Div(16 * i, X_SIZE), Div(16 * i, Z_SIZE)));
    var b := Fetch(a.0, Linearize(16 * (i + 1), 16 * (i + 1)),
                   NewChunk(Div(16 * (i + 1), X_SIZE), Div(16 * (i + 1), Z_SIZE)));
    (b.0, a.1, b.1)
  }

  /** The store after the first n passes of that loop. */
  function Diagonal(store: map<int, StoredChunk>, n: nat): map<int, StoredChunk>
    requires n <= 512
  {
    if n == 0 then store else DiagonalPass(Diagonal(store, n - 1), n - 1).0
  }

  /** On a column-filled store, pass i returns the chunks at columns (i, i) and (i + 1, i + 1). */
  lemma DiagonalStep(store: map<int, StoredChunk>, i: nat)
    requires ColumnStore(store) && i < 512
    ensures var r := DiagonalPass(store, i);
      r.1.worldPos == (i, i) && r.2.worldPos == (i + 1, i + 1) && ColumnStore(r.0)
  {
    DiagonalColumns(i);
    DiagonalColumns(i + 1);
    FetchColumnAt(store, 16 * i, 16 * i);
    var a := Fetch(store, Linearize(16 * i, 16 * i), NewChunk(Div(16 * i, X_SIZE), Div(16 * i, Z_SIZE)));
    FetchColumnAt(a.0, 16 * (i + 1), 16 * (i + 1));
  }

  /** Every pass keeps the store column-filled. */
  lemma {:induction false} DiagonalFilled(store: map<int, StoredChunk>, n: nat)
    requires ColumnStore(store) && n <= 512
    ensures ColumnStore(Diagonal(store, n))
  {
    if n > 0 {
      DiagonalFilled(store, n - 1);
      DiagonalStep(Diagonal(store, n - 1), n - 1);
    }
  }

  /**
   * The loop of `chunk_test`, for i in 0..512: the second lookup's world
   * position is one more than the first's in both coordinates.
   */
  lemma ChunkTestLoop(i: nat)
    requires i < 512
    ensures var r := DiagonalPass(Diagonal(TestStore(), i), i);
      r.1.worldPos.0 + 1 == r.2.worldPos.0 && r.1.worldPos.1 + 1 == r.2.worldPos.1
  {
    ChunkTest();
    DiagonalFilled(TestStore(), i);
    DiagonalStep(Diagonal(TestStore(), i), i);
  }

  /** Every stored chunk sits under the `get_domain_at` key of its own world position. */
  ghost predicate DomainIndexed(store: map<int, StoredChunk>) {
    forall id :: id in store ==> DomainKey(store[id].worldPos.0, store[id].worldPos.1) == id
  }

  /**
   * In a store filled by `get_domain_at`, domains with different keys fetch
   * different chunks, and the store stays so indexed.
   */
  lemma DistinctDomains(store: map<int, StoredChunk>, x: i32, z: i32, x': i32, z': i32)
    requires DomainIndexed(store)
    requires DomainKey(x, z) != DomainKey(x', z')
    ensures
      var r := Fetch(store, DomainKey(x, z), NewChunk(x, z));
      var r' := Fetch(r.0, DomainKey(x', z'), NewChunk(x', z'));
      r.1 != r'.1 && DomainIndexed(r'.0)
  {
  }

  /** A set that is not empty has a member to pick. */
  lemma HasMember(s: set<int>)
    ensures s == {} || exists k :: k in s
  {
    if forall k :: k !in s {
      assert s == {};
    }
  }

  /** The store and its accessors. */
  class Chunks {
    var chunks: map<int, StoredChunk>

    /** `Chunks::default()`: nothing stored. */
    constructor ()
      ensures chunks == map[]
    {
      chunks := map[];
    }

    /** `reset`: every stored chunk's blocks become 0; keys and world positions stay. */
    method Reset()
      modifies this
      ensures chunks.Keys == old(chunks).Keys
      ensures forall id :: id in chunks ==> chunks[id] == Cleared(old(chunks)[id])
    {
      var todo := chunks.Keys;
      while todo != {}
        invariant chunks.Keys == old(chunks).Keys && todo <= chunks.Keys
        invariant forall id :: id in todo ==> chunks[id] == old(chunks)[id]
        invariant forall id :: id in chunks && id !in todo ==> chunks[id] == Cleared(old(chunks)[id])
        decreases todo
      {
        HasMember(todo);
        var k :| k in todo;
        chunks := chunks[k := Cleared(chunks[k])];
        todo := todo - {k};
      }
    }

    /** `get_chunk_at([x, z])`: keyed by `linearize`, created at column (x / 16, z / 16). */
    method GetChunkAt(x: i32, z: i32) returns (c: StoredChunk)
      modifies this
      ensures (chunks, c) == Fetch(old(chunks), Linearize(x, z), NewChunk(Div(x, X_SIZE), Div(z, Z_SIZE)))
      decreases if Linearize(x, z) in chunks then 0 else 1
    {
      var id := Linearize(x, z);
      if id in chunks {
        return chunks[id];
      }
      var chunk := NewChunk(Div(x, X_SIZE), Div(z, Z_SIZE));
      chunks := chunks[id := chunk];
      c := GetChunkAt(x, z);
    }

    /** `get_chunk_at_mut([x, z])`: keyed by `linearize`, created at the raw (x, z). */
    method GetChunkAtMut(x: i32, z: i32) returns (c: StoredChunk)
      modifies this
      ensures (chunks, c) == Fetch(old(chunks), Linearize(x, z), NewChunk(x, z))
      decreases if Linearize(x, z) in chunks then 0 else 1
    {
      var id := Linearize(x, z);
      if id in chunks {
        return chunks[id];
      }
      var chunk := NewChunk(x, z);
      chunks := chunks[id := chunk];
      c := GetChunkAtMut(x, z);
    }

    /** `get_domain_at([x, z])`: keyed by the ten-bit key, created at the raw (x, z). */
    method GetDomainAt(x: i32, z: i32) returns (c: StoredChunk)
      modifies this
      ensures (chunks, c) == Fetch(old(chunks), DomainKey(x, z), NewChunk(x, z))
      decreases if DomainKey(x, z) in chunks then 0 else 1
    {
      var id := BitOr(Shl(Low10(x), 10), Low10(z));
      DomainKeyBits(x, z);
      if id in chunks {
        return chunks[id];
      }
      var chunk := NewChunk(x, z);
      chunks := chunks[id := chunk];
      c := GetDomainAt(x, z);
    }

    /** `get_domain_at_mut([x, z])`: the same lookup as `get_domain_at`. */
    method GetDomainAtMut(x: i32, z: i32) returns (c: StoredChunk)
      modifies this
      ensures (chunks, c) == Fetch(old(chunks), DomainKey(x, z), NewChunk(x, z))
      decreases if DomainKey(x, z) in chunks then 0 else 1
    {
      var id := BitOr(Shl(Low10(x), 10), Low10(z));
      DomainKeyBits(x, z);
      if id in chunks {
        return chunks[id];
      }
      var chunk := NewChunk(x, z);
      chunks := chunks[id := chunk];
      c := GetDomainAtMut(x, z);
    }
  }
}
