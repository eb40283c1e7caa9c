// In-memory byte streams (`io.BytesIO`): the bytes written so far and the
// read/write position.
module Streams {

  type byte = bv8

  /** A `BytesIO`: its contents and the current position. */
  datatype ByteStream = ByteStream(data: seq<byte>, pos: nat)

  /** The bytes of the chunks, in order. */
  function Concat(chunks: seq<seq<byte>>): seq<byte> {
    if chunks == [] then [] else chunks[0] + Concat(chunks[1..])
  }

  /** The sum of the chunk lengths. */
  function SumLengths(chunks: seq<seq<byte>>): nat {
    if chunks == [] then 0 else |chunks[0]| + SumLengths(chunks[1..])
  }

  /** Concatenating chunks yields as many bytes as their lengths add up to. */
  lemma {:induction false} ConcatLength(chunks: seq<seq<byte>>)
    ensures |Concat(chunks)| == SumLengths(chunks)
  {
    if chunks != [] {
      ConcatLength(chunks[1..]);
    }
  }

  /** Concatenation distributes over appending one more chunk. */
  lemma {:induction false} ConcatSnoc(chunks: seq<seq<byte>>, c: seq<byte>)
    ensures Concat(chunks + [c]) == Concat(chunks) + c
  {
    if chunks == [] {
      assert chunks + [c] == [c];
    } else {
      assert (chunks + [c])[1..] == chunks[1..] + [c];
      ConcatSnoc(chunks[1..], c);
    }
  }

  /** `stream.seek(pos)` */
  function Seek(s: ByteStream, pos: nat): (r: ByteStream)
    ensures r.data == s.data && r.pos == pos
  {
    s.(pos := pos)
  }

  /** `stream.read(n)`: up to `n` bytes from the position, which moves past them. */
  function Read(s: ByteStream, n: nat): (r: (seq<byte>, ByteStream))
    ensures |r.0| <= n && r.1.data == s.data
    ensures s.pos + n <= |s.data| ==> r.0 == s.data[s.pos..s.pos + n] && r.1.pos == s.pos + n
    ensures s.pos < |s.data| < s.pos + n ==> r.0 == s.data[s.pos..] && r.1.pos == |s.data|
    ensures s.pos >= |s.data| ==> r.0 == [] && r.1 == s
  {
    if s.pos >= |s.data| then ([], s)
    else
      var end := if s.pos + n <= |s.data| then s.pos + n else |s.data|;
      (s.data[s.pos..end], s.(pos := end))
  }

  /** Writing at the end appends and leaves the position after the new bytes. */
  function Append(s: ByteStream, bytes: seq<byte>): (r: ByteStream)
    requires s.pos == |s.data|
    ensures r.data == s.data + bytes && r.pos == |r.data|
  {
    ByteStream(s.data + bytes, s.pos + |bytes|)
  }
}
