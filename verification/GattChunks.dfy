/** Long writes and long reads in chunks: what a client that writes a value piece by piece and reads it
    back piece by piece gets. */
module GattChunks {
  import opened ByteTypes
  import opened GattModel
  import opened GattHistory

  function Concat(chunks: seq<Bytes>): Bytes {
    if chunks == [] then [] else Concat(chunks[..|chunks| - 1]) + chunks[|chunks| - 1]
  }

  /** One write request per chunk, each at the end of the one before. */
  function ChunkWrites(h: Handle, chunks: seq<Bytes>): (es: seq<Event>)
    requires |Concat(chunks)| < 65536
    ensures |es| == |chunks|
  {
    if chunks == [] then []
    else
      var front := chunks[..|chunks| - 1];
      ChunkWrites(h, front) + [WriteRequest(h, |Concat(front)|, chunks[|chunks| - 1])]
  }

  /** One read request per size, each at the end of what has been read, joined. */
  function ChunkReads(s: Store, h: Handle, sizes: seq<U16>): (r: Bytes)
    ensures |r| < 65536
  {
    if sizes == [] || h !in s.characteristics then []
    else
      var r := ChunkReads(s, h, sizes[..|sizes| - 1]);
      Joined(s.characteristics[h].value, r, sizes[|sizes| - 1]);
      r + ReadValue(s, h, |r|, sizes[|sizes| - 1])
  }

  lemma Joined(v: Bytes, r: Bytes, size: U16)
    requires |r| < 65536
    ensures |r + Blob(v, |r|, size)| < 65536
  {
  }

  /** Write the chunks, then read the value back. */
  function WriteThenRead(s: Store, h: Handle, chunks: seq<Bytes>, sizes: seq<U16>): Bytes
    requires |Concat(chunks)| < 65536
  {
    ChunkReads(Run(s, ChunkWrites(h, chunks)), h, sizes)
  }

  function Sum(sizes: seq<U16>): nat {
    if sizes == [] then 0 else Sum(sizes[..|sizes| - 1]) + sizes[|sizes| - 1]
  }

  function Min(a: int, b: int): int {
    if a < b then a else b
  }

  /** Two adjacent writes are one. */
  lemma AdjacentWrites(v: Bytes, a: Bytes, b: Bytes)
    ensures Written(Written(v, 0, a), |a|, b) == Written(v, 0, a + b)
  {
  }

  lemma {:induction false} ChunksWrite(s: Store, h: Handle, chunks: seq<Bytes>)
    requires Indexed(s) && WithinReach(s, h) && |Concat(chunks)| < 65536
    ensures var z := Run(s, ChunkWrites(h, chunks));
      && Indexed(z) && WithinReach(z, h)
      && z.characteristics[h].value == Written(s.characteristics[h].value, 0, Concat(chunks))
  {
    var v := s.characteristics[h].value;
    if chunks == [] {
      assert Written(v, 0, []) == v;
    } else {
      var front, last := chunks[..|chunks| - 1], chunks[|chunks| - 1];
      ChunksWrite(s, h, front);
      var e := WriteRequest(h, |Concat(front)|, last);
      RunAppend(s, ChunkWrites(h, front), e);
      ValueStep(Run(s, ChunkWrites(h, front)), e, h);
      DeliverKeepsShape(Run(s, ChunkWrites(h, front)), e);
      AdjacentWrites(v, Concat(front), last);
    }
  }

  /** Reads in chunks of any sizes give the value as far as the sizes reach, up to the length that the
      read callback passes on. */
  lemma {:induction false} ChunksRead(s: Store, h: Handle, sizes: seq<U16>)
    requires h in s.characteristics
    ensures var v := s.characteristics[h].value;
      ChunkReads(s, h, sizes) == v[..Min(|v| % 65536, Sum(sizes))]
  {
    if sizes != [] {
      ChunksRead(s, h, sizes[..|sizes| - 1]);
      OneMoreRead(s.characteristics[h].value, Sum(sizes[..|sizes| - 1]), sizes[|sizes| - 1]);
    }
  }

  lemma OneMoreRead(v: Bytes, sum: nat, size: U16)
    ensures var n := |v| % 65536;
      var r := v[..Min(n, sum)];
      r + Blob(v, |r|, size) == v[..Min(n, sum + size)]
  {
    var n := |v| % 65536;
    var at := Min(n, sum);
    assert Blob(v, at, size) == v[at..Min(n, at + size)];
  }

  lemma PrefixOfWritten(v: Bytes, data: Bytes)
    ensures Written(v, 0, data)[..|data|] == data
  {
  }

  /** What comes back is what was written if and only if the reads reach exactly the end of it, with the
      length of the stored value taken modulo 65536 as the read callback does. */
  lemma ReadBackExactly(s: Store, h: Handle, chunks: seq<Bytes>, sizes: seq<U16>)
    requires Indexed(s) && WithinReach(s, h) && |Concat(chunks)| < 65536
    ensures var before, data := |s.characteristics[h].value|, Concat(chunks);
      (WriteThenRead(s, h, chunks, sizes) == data) <==>
      (Min(Max(before, |data|) % 65536, Sum(sizes)) == |data|)
  {
    ChunksWrite(s, h, chunks);
    var z := Run(s, ChunkWrites(h, chunks));
    ChunksRead(z, h, sizes);
    PrefixIsData(s.characteristics[h].value, Concat(chunks), Sum(sizes));
  }

  lemma PrefixIsData(v: Bytes, data: Bytes, sum: nat)
    ensures var w := Written(v, 0, data);
      var n := Min(|w| % 65536, sum);
      |w| == Max(|v|, |data|) && (w[..n] == data <==> n == |data|)
  {
    PrefixOfWritten(v, data);
  }

  /** A value that was no longer than the new one is replaced by it, and reassembles from any chunks. */
  lemma ChunkedRoundTrip(s: Store, h: Handle, chunks: seq<Bytes>, sizes: seq<U16>)
    requires Indexed(s) && WithinReach(s, h) && |Concat(chunks)| < 65536
    requires |s.characteristics[h].value| <= |Concat(chunks)| <= Sum(sizes)
    ensures WriteThenRead(s, h, chunks, sizes) == Concat(chunks)
  {
    ReadBackExactly(s, h, chunks, sizes);
  }

  /** The truncation to 16 bits is visible: a value of 65536 bytes reads as empty. */
  lemma LongValueReadsEmpty(s: Store, h: Handle, sizes: seq<U16>)
    requires h in s.characteristics && |s.characteristics[h].value| == 65536
    ensures ChunkReads(s, h, sizes) == []
  {
    ChunksRead(s, h, sizes);
  }
}
