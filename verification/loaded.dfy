/**
 * The loaded-chunk list of src/chunk/container/loaded.rs: the ids rendered by
 * the last render step, replaced wholesale and queried by id or by chunk.
 */
module Loaded {
  import opened RustInt
  import opened ChunkStore

  /** Whether chunk `c` is in the list `ids`: its column id, from its world position, occurs there. */
  predicate LoadedIn(ids: seq<i32>, c: StoredChunk) {
    Linearize(c.worldPos.0, c.worldPos.1) in ids
  }

  class LoadedChunks {
    var chunks: seq<i32>

    /** `LoadedChunks::default()`: no id is loaded. */
    constructor ()
      ensures chunks == []
      ensures forall index: i32 :: !IsChunkIdLoaded(index)
    {
      chunks := [];
    }

    /** `replace(v)`: the list becomes `v`; an earlier id stays loaded only if `v` holds it. */
    method Replace(v: seq<i32>)
      modifies this
      ensures chunks == v
      ensures forall index: i32 :: IsChunkIdLoaded(index) <==> index in v
    {
      chunks := v;
    }

    /** `is_chunk_id_loaded`: whether `index` occurs in the list. */
    function IsChunkIdLoaded(index: i32): (b: bool)
      reads this
      ensures b <==> exists i :: 0 <= i < |chunks| && chunks[i] == index
    {
      index in chunks
    }

    /** `is_chunk_loaded`: the id query on the column id of the chunk's world position. */
    function IsChunkLoaded(c: StoredChunk): (b: bool)
      reads this
      ensures b <==> LoadedIn(chunks, c)
    {
      IsChunkIdLoaded(Linearize(c.worldPos.0, c.worldPos.1))
    }
  }
}
