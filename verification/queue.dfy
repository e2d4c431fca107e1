/**
 * The update queue of src/chunk/container/queue.rs: chunk ids waiting to be
 * rendered, pushed at the back and drained all at once.
 */
module UpdateQueue {
  import opened RustInt

  class ChunkUpdateQueue {
    var chunks: seq<i32>

    /** `ChunkUpdateQueue::default()`: nothing queued. */
    constructor ()
      ensures chunks == []
      ensures !HasQueue()
    {
      chunks := [];
    }

    /** `has_queue`: whether any id is waiting. */
    function HasQueue(): (b: bool)
      reads this
      ensures b <==> |chunks| > 0
    {
      chunks != []
    }

    /** `queue(chunk)`: `chunk` goes to the back; what was queued before stays, in order. */
    method Queue(chunk: i32)
      modifies this
      ensures chunks == old(chunks) + [chunk]
      ensures chunks[..|old(chunks)|] == old(chunks) && chunks[|chunks| - 1] == chunk
      ensures HasQueue()
    {
      chunks := chunks + [chunk];
    }

    /** `pull`: every queued id, in insertion order and with duplicates; the queue is left empty. */
    method Pull() returns (drained: seq<i32>)
      modifies this
      ensures drained == old(chunks)
      ensures chunks == [] && !HasQueue()
    {
      drained := chunks;
      chunks := [];
    }
  }
}
