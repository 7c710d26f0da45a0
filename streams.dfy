/** A streaming HTTP exchange as either side of the relay sees it: the
    outcome of `fetch`, and the body's reader as a pull over chunks of
    already-decoded text. */
module Streams {
  import opened Wrappers
  import opened Strings

  /** What `fetch` of a streaming endpoint gives. */
  datatype Reply =
    /** the fetch itself failed (connection refused, ...) with this message */
    | Rejected(message: string)
    /** `!res.ok || !res.body`: an error status or no body */
    | NoStream
    /** the body delivers `chunks`, then ends or, if `failure` is present,
        the next read fails with that message */
    | Streamed(chunks: seq<string>, failure: Option<string>)

  /** What one `await reader.read()` gives; `Failed` is a read that throws. */
  datatype ReadResult = Chunk(text: string) | End | Failed(message: string)

  class ChunkReader {
    const chunks: seq<string>
    const failure: Option<string>
    var pos: nat

    ghost predicate Valid()
      reads this
    {
      pos <= |chunks|
    }

    constructor (chunks: seq<string>, failure: Option<string>)
      ensures Valid() && this.chunks == chunks && this.failure == failure && pos == 0
    {
      this.chunks := chunks;
      this.failure := failure;
      pos := 0;
    }

    /** Delivers the next chunk; once all are delivered, signals the end of
        the body or fails. */
    method Read() returns (r: ReadResult)
      requires Valid()
      modifies this
      ensures Valid()
      ensures old(pos) < |chunks| ==> r == Chunk(chunks[old(pos)]) && pos == old(pos) + 1
      ensures old(pos) == |chunks| ==> pos == old(pos) && r == (if failure.None? then End else Failed(failure.value))
    {
      if pos < |chunks| {
        r := Chunk(chunks[pos]);
        pos := pos + 1;
      } else if failure.None? {
        r := End;
      } else {
        r := Failed(failure.value);
      }
    }
  }

  /** One more chunk extends the delivered text by that chunk. */
  lemma ConcatNext(chunks: seq<string>, k: nat)
    requires k < |chunks|
    ensures Concat(chunks[..k + 1]) == Concat(chunks[..k]) + chunks[k]
  {
    assert DropLast(chunks[..k + 1]) == chunks[..k];
  }
}
