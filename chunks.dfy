/** How the upload handler assembles the frame from the request body's `data` events:
    each chunk is pushed in arrival order and the chunks are joined with `Buffer.concat`. */
module Chunks {
  import opened Common

  /** `Buffer.concat(chunks)`: the chunks joined in order. */
  function Concat(chunks: seq<Bytes>): Bytes
  {
    if chunks == [] then [] else chunks[0] + Concat(chunks[1..])
  }

  /** Joining one more chunk at the end appends its bytes at the end. */
  lemma {:induction false} ConcatAppend(chunks: seq<Bytes>, last: Bytes)
    ensures Concat(chunks + [last]) == Concat(chunks) + last
  {
    if chunks == [] {
      assert [] + [last] == [last];
    } else {
      assert (chunks + [last])[1..] == chunks[1..] + [last];
      ConcatAppend(chunks[1..], last);
    }
  }

  /** Concatenation is in order: the bytes of chunk `i` come after those of every earlier
      chunk and before those of every later one. */
  lemma {:induction false} ConcatInOrder(chunks: seq<Bytes>, i: nat)
    requires i < |chunks|
    ensures Concat(chunks) == Concat(chunks[..i]) + chunks[i] + Concat(chunks[i + 1..])
  {
    if i == 0 {
      assert chunks[..0] == [];
    } else {
      ConcatInOrder(chunks[1..], i - 1);
      assert chunks[1..][..i - 1] == chunks[1..i];
      assert chunks[1..][i - 1] == chunks[i];
      assert chunks[1..][i..] == chunks[i + 1..];
      assert chunks[..i][0] == chunks[0] && chunks[..i][1..] == chunks[1..i];
    }
  }

  /** The length of the frame is the sum of the chunk lengths. */
  function TotalLength(chunks: seq<Bytes>): nat
  {
    if chunks == [] then 0 else |chunks[0]| + TotalLength(chunks[1..])
  }

  lemma {:induction false} ConcatLength(chunks: seq<Bytes>)
    ensures |Concat(chunks)| == TotalLength(chunks)
  {
    if chunks != [] {
      ConcatLength(chunks[1..]);
    }
  }

  /** The `data` handler pushing each chunk, then the `end` handler joining them. */
  method Receive(chunks: seq<Bytes>) returns (buffer: Bytes)
    ensures buffer == Concat(chunks)
  {
    buffer := [];
    var i := 0;
    while i < |chunks|
      invariant 0 <= i <= |chunks|
      invariant buffer == Concat(chunks[..i])
    {
      ConcatAppend(chunks[..i], chunks[i]);
      assert chunks[..i + 1] == chunks[..i] + [chunks[i]];
      buffer := buffer + chunks[i];
      i := i + 1;
    }
    assert chunks[..i] == chunks;
  }
}
