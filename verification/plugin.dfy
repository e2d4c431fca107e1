/**
 * The render step of src/chunk/plugin.rs: a two-state machine that, once
 * the update queue has work, drains it, fetches or creates the chunk of
 * every drained id, requests a spawn for each chunk not loaded by the
 * previous step and records the drained ids as the new loaded list.
 *
 * The global queue, the Bevy resources and the state are passed in; the
 * spawned entities become a returned sequence of spawn requests.
 */
module ChunkPlugin {
  import opened RustInt
  import opened ChunkStore
  import opened ChunkGrid
  import opened UpdateQueue
  import opened Loaded

  datatype ChunkLoadState = Wait | Render

  /** A spawn request: the chunk whose mesh is drawn, its translation and its uniform scale. */
  datatype Spawn = Spawn(chunk: StoredChunk, translation: (int, int, int), scale: int)

  /** The request `render_blocks` issues for chunk `c`: at (x, 0, z) of its world position, scale 1. */
  function SpawnOf(c: StoredChunk): Spawn {
    Spawn(c, (c.worldPos.0, 0, c.worldPos.1), 1)
  }

  /**
   * `render_queue_check`: `Wait` moves to `Render` exactly when the queue
   * holds an id; no other transition happens.
   */
  method RenderQueueCheck(state: ChunkLoadState, queue: ChunkUpdateQueue) returns (next: ChunkLoadState)
    ensures next != state <==> state == Wait && |queue.chunks| > 0
    ensures next != state ==> next == Render
  {
    next := state;
    if state == Wait {
      if queue.HasQueue() {
        next := Render;
      }
    }
  }

  // ---------------------------------------------------------------------------
  // The specification of the drain loop.

  /** The key `get_domain_at_mut(delinearize(id))` looks up. */
  function DomainKeyOf(id: i32): int {
    var p := Delinearize(id);
    DomainKey(p.0, p.1)
  }

  /** The key `get_chunk_at_mut(delinearize(id))` looks up. */
  function IdKeyOf(id: i32): int {
    var p := Delinearize(id);
    Linearize(p.0, p.1)
  }

  /** The chunk either accessor creates for id on a miss: at `delinearize(id)`. */
  function ChunkFor(id: i32): StoredChunk {
    var p := Delinearize(id);
    NewChunk(p.0, p.1)
  }

  /**
   * Fetching the chunks of `ids` in order, each under `key(id)` and created
   * as `make(id)` on a miss: the final store and the chunk each id got.
   */
  function Fetches(key: i32 -> int, make: i32 -> StoredChunk, ids: seq<i32>, store: map<int, StoredChunk>)
    : (r: (map<int, StoredChunk>, seq<StoredChunk>))
    ensures |r.1| == |ids|
    decreases |ids|
  {
    if ids == [] then (store, [])
    else
      var before := Fetches(key, make, ids[..|ids| - 1], store);
      var id := ids[|ids| - 1];
      var f := Fetch(before.0, key(id), make(id));
      (f.0, before.1 + [f.1])
  }

  /** The spawn requests for the fetched chunks `cs`, skipping those the list `loaded` holds. */
  function Spawns(cs: seq<StoredChunk>, loaded: seq<i32>): seq<Spawn>
    decreases |cs|
  {
    if cs == [] then []
    else
      var c := cs[|cs| - 1];
      Spawns(cs[..|cs| - 1], loaded) + (if LoadedIn(loaded, c) then [] else [SpawnOf(c)])
  }

  /** One more id: fetch its chunk from the store the earlier ids left. */
  lemma FetchesStep(key: i32 -> int, make: i32 -> StoredChunk, ids: seq<i32>, i: int, store: map<int, StoredChunk>)
    requires 0 <= i < |ids|
    ensures var before := Fetches(key, make, ids[..i], store);
      var f := Fetch(before.0, key(ids[i]), make(ids[i]));
      Fetches(key, make, ids[..i + 1], store) == (f.0, before.1 + [f.1])
  {
    assert ids[..i + 1][..i] == ids[..i];
  }

  /** A prefix one longer is the prefix and the next element. */
  lemma PrefixStep(s: seq<i32>, i: int)
    requires 0 <= i < |s|
    ensures s[..i + 1] == s[..i] + [s[i]]
  {
  }

  /**
   * The largest x translation of the requests, starting from 0: the
   * `outer_most_x` that `render_blocks` keeps while it issues them.
   */
  function OuterMost(spawns: seq<Spawn>): (m: int)
    ensures m >= 0 && forall s :: s in spawns ==> s.translation.0 <= m
    ensures m == 0 || exists s :: s in spawns && s.translation.0 == m
    decreases |spawns|
  {
    if spawns == [] then 0
    else
      var front, last := spawns[..|spawns| - 1], spawns[|spawns| - 1];
      assert spawns == front + [last];
      var m := OuterMost(front);
      if last.translation.0 > m then last.translation.0 else m
  }

  lemma OuterMostStep(spawns: seq<Spawn>, s: Spawn)
    ensures OuterMost(spawns + [s]) == if s.translation.0 > OuterMost(spawns) then s.translation.0 else OuterMost(spawns)
  {
    assert (spawns + [s])[..|spawns|] == spawns;
  }

  /** One more fetched chunk: a request for it unless the list holds it. */
  lemma SpawnsStep(cs: seq<StoredChunk>, c: StoredChunk, loaded: seq<i32>)
    ensures Spawns(cs + [c], loaded) == Spawns(cs, loaded) + (if LoadedIn(loaded, c) then [] else [SpawnOf(c)])
  {
    assert (cs + [c])[..|cs|] == cs;
  }

  /** Fetching never removes or replaces an entry that was already stored. */
  lemma {:induction false} FetchesKeep(key: i32 -> int, make: i32 -> StoredChunk, ids: seq<i32>, store: map<int, StoredChunk>)
    ensures forall k :: k in store ==> k in Fetches(key, make, ids, store).0 && Fetches(key, make, ids, store).0[k] == store[k]
    decreases |ids|
  {
    if ids != [] {
      FetchesKeep(key, make, ids[..|ids| - 1], store);
    }
  }

  /** The store gains exactly the keys of the drained ids. */
  lemma {:induction false} FetchesKeys(key: i32 -> int, make: i32 -> StoredChunk, ids: seq<i32>, store: map<int, StoredChunk>)
    ensures Fetches(key, make, ids, store).0.Keys == store.Keys + (set k | 0 <= k < |ids| :: key(ids[k]))
    decreases |ids|
  {
    if ids != [] {
      var front := ids[..|ids| - 1];
      FetchesKeys(key, make, front, store);
      assert (set k | 0 <= k < |ids| :: key(ids[k])) ==
        (set k | 0 <= k < |front| :: key(front[k])) + {key(ids[|ids| - 1])};
    }
  }

  /** Every drained id's chunk ends up in the store under that id's key. */
  lemma {:induction false} FetchesAt(key: i32 -> int, make: i32 -> StoredChunk, ids: seq<i32>, store: map<int, StoredChunk>)
    ensures var r := Fetches(key, make, ids, store);
      forall k :: 0 <= k < |ids| ==> key(ids[k]) in r.0 && r.0[key(ids[k])] == r.1[k]
    decreases |ids|
  {
    if ids != [] {
      var front := ids[..|ids| - 1];
      FetchesAt(key, make, front, store);
      var before := Fetches(key, make, front, store);
      var f := Fetch(before.0, key(ids[|ids| - 1]), make(ids[|ids| - 1]));
      forall k | 0 <= k < |ids|
        ensures key(ids[k]) in f.0 && f.0[key(ids[k])] == (before.1 + [f.1])[k]
      {
        if k < |front| {
          assert ids[k] == front[k];
        }
      }
    }
  }

  /** A chunk gets a spawn request exactly when it was fetched and is not in the list. */
  lemma {:induction false} SpawnsIff(cs: seq<StoredChunk>, loaded: seq<i32>, c: StoredChunk)
    ensures SpawnOf(c) in Spawns(cs, loaded) <==> c in cs && !LoadedIn(loaded, c)
    decreases |cs|
  {
    if cs != [] {
      var front := cs[..|cs| - 1];
      SpawnsIff(front, loaded, c);
      assert cs == front + [cs[|cs| - 1]];
    }
  }

  /** At most one request per fetched chunk; one for each when none is loaded, none when all are. */
  lemma {:induction false} SpawnsCount(cs: seq<StoredChunk>, loaded: seq<i32>)
    ensures |Spawns(cs, loaded)| <= |cs|
    ensures (forall c :: c in cs ==> !LoadedIn(loaded, c)) ==> |Spawns(cs, loaded)| == |cs|
    ensures (forall c :: c in cs ==> LoadedIn(loaded, c)) ==> Spawns(cs, loaded) == []
    decreases |cs|
  {
    if cs != [] {
      var front := cs[..|cs| - 1];
      SpawnsCount(front, loaded);
      assert forall c :: c in front ==> c in cs;
    }
  }

  // ---------------------------------------------------------------------------
  // The render step.

  /**
   * `render_blocks`: drains the queue; fetches (or creates) each id's chunk by
   * `get_domain_at_mut(delinearize(id))`; requests a spawn for each chunk the
   * previous loaded list does not hold; `Render` becomes `Wait`; the loaded
   * list becomes the drained ids, skipped ones included. `outerMostX` is the
   * largest spawned x, or 0.
   */
  method RenderBlocks(queue: ChunkUpdateQueue, store: Chunks, loaded: LoadedChunks, state: ChunkLoadState)
    returns (next: ChunkLoadState, spawns: seq<Spawn>, outerMostX: int)
    modifies queue, store, loaded
    ensures queue.chunks == []
    ensures loaded.chunks == old(queue.chunks)
    ensures next == Wait
    ensures store.chunks == Fetches(DomainKeyOf, ChunkFor, old(queue.chunks), old(store.chunks)).0
    ensures spawns == Spawns(Fetches(DomainKeyOf, ChunkFor, old(queue.chunks), old(store.chunks)).1, old(loaded.chunks))
    ensures outerMostX >= 0 && forall s :: s in spawns ==> s.translation.0 <= outerMostX
    ensures outerMostX == 0 || exists s :: s in spawns && s.translation.0 == outerMostX
  {
    ghost var store0 := store.chunks;
    ghost var fetched: seq<StoredChunk> := [];
    var drained := queue.Pull();
    var now: seq<i32> := [];
    spawns, outerMostX := [], 0;
    for i := 0 to |drained|
      invariant queue.chunks == [] && loaded.chunks == old(loaded.chunks)
      invariant now == drained[..i]
      invariant (store.chunks, fetched) == Fetches(DomainKeyOf, ChunkFor, drained[..i], store0)
      invariant spawns == Spawns(fetched, loaded.chunks)
      invariant outerMostX == OuterMost(spawns)
    {
      var linear := drained[i];
      var p := Delinearize(linear);
      assert DomainKeyOf(linear) == DomainKey(p.0, p.1) && ChunkFor(linear) == NewChunk(p.0, p.1);
      var chunk := store.GetDomainAtMut(p.0, p.1);
      FetchesStep(DomainKeyOf, ChunkFor, drained, i, store0);
      SpawnsStep(fetched, chunk, loaded.chunks);
      PrefixStep(drained, i);
      now := now + [linear];
      fetched := fetched + [chunk];
      if loaded.IsChunkLoaded(chunk) {
        continue;
      }
      if chunk.worldPos.0 > outerMostX {
        outerMostX := chunk.worldPos.0;
      }
      OuterMostStep(spawns, SpawnOf(chunk));
      spawns := spawns + [SpawnOf(chunk)];
    }
    assert drained[..|drained|] == drained;
    next := state;
    if state == Render {
      next := Wait;
    }
    loaded.Replace(now);
  }

  // ---------------------------------------------------------------------------
  // Fetching by position aliases ids 64 columns apart.

  /**
   * `delinearize` gives world coordinates, multiples of 16, while the key of
   * `get_domain_at_mut` keeps only their ten low bits: ids whose z columns
   * differ by 64 fetch the same chunk.
   */
  lemma DomainFetchAliases(id: i32)
    requires 0 <= id < 0x7FFF_0000 && id % 1024 < 960
    ensures Delinearize(id + 64) == (Delinearize(id).0, Delinearize(id).1 + 1024)
    ensures DomainKeyOf(id + 64) == DomainKeyOf(id)
  {
    DivNonNegIsFloor(id, 1024);
    DivNonNegIsFloor(id + 64, 1024);
    var q, r := id / 1024, id % 1024;
    assert (id + 64) / 1024 == q && (id + 64) % 1024 == r + 64 by {
      assert id + 64 == q * 1024 + (r + 64);
    }
    assert (r + 64) * Z_SIZE == r * Z_SIZE + 1024;
    var p := Delinearize(id);
    DomainKeyAliases(p.0, p.1);
  }

  /**
   * Draining ids `id` and `id + 64` (0 and 64, say) into an empty store with
   * nothing loaded: the two ids name different columns, yet both fetch the
   * chunk created for `id`, which is spawned twice, and the store holds that
   * one chunk only.
   */
  lemma AliasedRender(id: i32)
    requires 0 <= id < 0x7FFF_0000 && id % 1024 < 960
    ensures Delinearize(id + 64) != Delinearize(id)
    ensures var r := Fetches(DomainKeyOf, ChunkFor, [id, id + 64], map[]);
      r.0.Keys == {DomainKeyOf(id)} && r.1 == [ChunkFor(id), ChunkFor(id)]
    ensures Spawns(Fetches(DomainKeyOf, ChunkFor, [id, id + 64], map[]).1, [])
      == [SpawnOf(ChunkFor(id)), SpawnOf(ChunkFor(id))]
  {
    DomainFetchAliases(id);
    var ids: seq<i32>, c, k := [id, id + 64], ChunkFor(id), DomainKeyOf(id);
    assert ids[..0] == [] && ids[..2] == ids && ids[0] == id && ids[1] == id + 64;
    assert Fetches(DomainKeyOf, ChunkFor, [], map[]) == (map[], []);
    FetchesStep(DomainKeyOf, ChunkFor, ids, 0, map[]);
    assert Fetch(map[], k, c) == (map[k := c], c);
    assert [] + [c] == [c];
    assert Fetches(DomainKeyOf, ChunkFor, ids[..1], map[]) == (map[k := c], [c]);
    FetchesStep(DomainKeyOf, ChunkFor, ids, 1, map[]);
    assert Fetch(map[k := c], DomainKeyOf(id + 64), ChunkFor(id + 64)) == (map[k := c], c);
    assert [c] + [c] == [c, c];
    assert Fetches(DomainKeyOf, ChunkFor, ids, map[]) == (map[k := c], [c, c]);
    SpawnsStep([], c, []);
    SpawnsStep([c], c, []);
  }

  // ---------------------------------------------------------------------------
  // Corrected: fetch by id with `get_chunk_at_mut(delinearize(id))`.

  /** The column id of a chunk's world position, the id `is_chunk_loaded` looks for. */
  function ColumnOf(c: StoredChunk): i32 {
    Linearize(c.worldPos.0, c.worldPos.1)
  }

  /** Every stored chunk sits under the column id of its world position. */
  ghost predicate ColumnIndexed(store: map<int, StoredChunk>) {
    forall k :: k in store ==> ColumnOf(store[k]) == k
  }

  /** The chunk created for an id lies in the column the id names, and the by-id key is the id. */
  lemma ChunkForId(id: i32)
    ensures IdKeyOf(id) == id
    ensures ColumnOf(ChunkFor(id)) == id
  {
    LinearizeDelinearize(id);
  }

  /**
   * Fetching by id keeps a store indexed by column, and each id gets the
   * chunk of its own column.
   */
  lemma {:induction false} ByIdColumns(ids: seq<i32>, store: map<int, StoredChunk>)
    requires ColumnIndexed(store)
    ensures var r := Fetches(IdKeyOf, ChunkFor, ids, store);
      ColumnIndexed(r.0) && forall k :: 0 <= k < |ids| ==> ColumnOf(r.1[k]) == ids[k]
    decreases |ids|
  {
    if ids != [] {
      var front, id := ids[..|ids| - 1], ids[|ids| - 1];
      ByIdColumns(front, store);
      var before := Fetches(IdKeyOf, ChunkFor, front, store);
      var f := Fetch(before.0, IdKeyOf(id), ChunkFor(id));
      assert Fetches(IdKeyOf, ChunkFor, ids, store) == (f.0, before.1 + [f.1]);
      FetchColumn(before.0, id);
      var cs := before.1 + [f.1];
      forall k | 0 <= k < |ids|
        ensures ColumnOf(cs[k]) == ids[k]
      {
        if k < |front| {
          assert cs[k] == before.1[k] && front[k] == ids[k];
          assert ColumnOf(before.1[k]) == front[k];
        } else {
          assert cs[k] == f.1 && k == |ids| - 1;
        }
      }
    }
  }

  /** One fetch by id keeps the store indexed by column and returns the id's column. */
  lemma FetchColumn(store: map<int, StoredChunk>, id: i32)
    requires ColumnIndexed(store)
    ensures var f := Fetch(store, IdKeyOf(id), ChunkFor(id));
      ColumnIndexed(f.0) && ColumnOf(f.1) == id
  {
    var f := Fetch(store, IdKeyOf(id), ChunkFor(id));
    ChunkForId(id);
    forall k | k in f.0
      ensures ColumnOf(f.0[k]) == k
    {
      if k != id {
        assert f.0[k] == store[k];
      }
    }
  }

  /**
   * With fetching by id, in a store where every chunk sits under its column
   * id, a drained id gets a spawn request exactly when the previous loaded
   * list does not hold it, and distinct ids get distinct chunks.
   */
  lemma ByIdSpawnIff(ids: seq<i32>, store: map<int, StoredChunk>, loaded: seq<i32>, k: int)
    requires ColumnIndexed(store) && 0 <= k < |ids|
    ensures var cs := Fetches(IdKeyOf, ChunkFor, ids, store).1;
      (SpawnOf(cs[k]) in Spawns(cs, loaded) <==> ids[k] !in loaded) &&
      forall j :: 0 <= j < |ids| && ids[j] != ids[k] ==> cs[j] != cs[k]
  {
    var cs := Fetches(IdKeyOf, ChunkFor, ids, store).1;
    ByIdColumns(ids, store);
    assert LoadedIn(loaded, cs[k]) <==> ids[k] in loaded;
    SpawnsIff(cs, loaded, cs[k]);
  }

  /**
   * `render_blocks` with the chunk fetched by `get_chunk_at_mut`, whose key
   * is the id itself: the same drain, loaded list and state change, and
   * each id's own chunk is spawned unless the previous list holds the id.
   */
  method RenderBlocksById(queue: ChunkUpdateQueue, store: Chunks, loaded: LoadedChunks, state: ChunkLoadState)
    returns (next: ChunkLoadState, spawns: seq<Spawn>, outerMostX: int)
    modifies queue, store, loaded
    ensures queue.chunks == []
    ensures loaded.chunks == old(queue.chunks)
    ensures next == Wait
    ensures store.chunks == Fetches(IdKeyOf, ChunkFor, old(queue.chunks), old(store.chunks)).0
    ensures spawns == Spawns(Fetches(IdKeyOf, ChunkFor, old(queue.chunks), old(store.chunks)).1, old(loaded.chunks))
    ensures outerMostX >= 0 && forall s :: s in spawns ==> s.translation.0 <= outerMostX
    ensures outerMostX == 0 || exists s :: s in spawns && s.translation.0 == outerMostX
  {
    ghost var store0 := store.chunks;
    ghost var fetched: seq<StoredChunk> := [];
    var drained := queue.Pull();
    var now: seq<i32> := [];
    spawns, outerMostX := [], 0;
    for i := 0 to |drained|
      invariant queue.chunks == [] && loaded.chunks == old(loaded.chunks)
      invariant now == drained[..i]
      invariant (store.chunks, fetched) == Fetches(IdKeyOf, ChunkFor, drained[..i], store0)
      invariant spawns == Spawns(fetched, loaded.chunks)
      invariant outerMostX == OuterMost(spawns)
    {
      var linear := drained[i];
      var p := Delinearize(linear);
      assert IdKeyOf(linear) == Linearize(p.0, p.1) && ChunkFor(linear) == NewChunk(p.0, p.1);
      var chunk := store.GetChunkAtMut(p.0, p.1);
      FetchesStep(IdKeyOf, ChunkFor, drained, i, store0);
      SpawnsStep(fetched, chunk, loaded.chunks);
      PrefixStep(drained, i);
      now := now + [linear];
      fetched := fetched + [chunk];
      if loaded.IsChunkLoaded(chunk) {
        continue;
      }
      if chunk.worldPos.0 > outerMostX {
        outerMostX := chunk.worldPos.0;
      }
      OuterMostStep(spawns, SpawnOf(chunk));
      spawns := spawns + [SpawnOf(chunk)];
    }
    assert drained[..|drained|] == drained;
    next := state;
    if state == Render {
      next := Wait;
    }
    loaded.Replace(now);
  }
}
