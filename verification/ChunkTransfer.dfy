/** Large files: the client cuts them into chunks, the server writes the chunks it accepts one after the other. */
module ChunkTransfer {
  import opened Wire

  // The sending side.

  function ChunkCount(size: nat, chunkSize: nat): nat
    requires chunkSize > 0
  {
    (size + chunkSize - 1) / chunkSize
  }

  /** What remains after `i` chunks, cut into the chunks still to be sent. */
  function Chunks(fileName: string, rest: Bytes, i: nat, total: nat, chunkSize: nat): seq<FileChunk>
    requires chunkSize > 0
    decreases |rest|
  {
    if rest == [] then []
    else
      var n := if |rest| < chunkSize then |rest| else chunkSize;
      [FileChunk(fileName, i, total, rest[..n], i == total - 1)] + Chunks(fileName, rest[n..], i + 1, total, chunkSize)
  }

  function FileChunks(fileName: string, content: Bytes, chunkSize: nat): seq<FileChunk>
    requires chunkSize > 0
  {
    Chunks(fileName, content, 0, ChunkCount(|content|, chunkSize), chunkSize)
  }

  /** The chunks are the pieces of the file: numbered from 0, all full but the last, which is final. */
  lemma {:induction false} ChunksAre(fileName: string, rest: Bytes, i: nat, total: nat, chunkSize: nat, k: nat)
    requires chunkSize > 0 && total == i + ChunkCount(|rest|, chunkSize)
    ensures |Chunks(fileName, rest, i, total, chunkSize)| == total - i
    ensures k < total - i ==>
      var c := Chunks(fileName, rest, i, total, chunkSize)[k];
      && c.fileName == fileName && c.chunkIndex == i + k && c.totalChunks == total
      && (c.isFinal <==> k == total - i - 1) && 0 < |c.data| <= chunkSize && (!c.isFinal ==> |c.data| == chunkSize)
    decreases |rest|
  {
    CountStep(|rest|, chunkSize);
    if rest != [] {
      var n := if |rest| < chunkSize then |rest| else chunkSize;
      CountStep(|rest| - n, chunkSize);
      hide ChunkCount;
      ChunksAre(fileName, rest[n..], i + 1, total, chunkSize, if k > 0 then k - 1 else 0);
    }
  }

  /** One chunk fewer is needed once a chunk is taken off. */
  lemma CountStep(size: nat, chunkSize: nat)
    requires chunkSize > 0
    ensures size == 0 ==> ChunkCount(size, chunkSize) == 0
    ensures 0 < size <= chunkSize ==> ChunkCount(size, chunkSize) == 1
    ensures size > chunkSize ==> ChunkCount(size, chunkSize) == 1 + ChunkCount(size - chunkSize, chunkSize)
    ensures size > chunkSize ==> ChunkCount(size - chunkSize, chunkSize) > 0
  {
    if size > chunkSize {
      DivStep(size - 1, chunkSize);
    } else if size > 0 {
      assert chunkSize <= size + chunkSize - 1 < 2 * chunkSize;
      DivOne(size + chunkSize - 1, chunkSize);
    } else {
      DivSmall(chunkSize - 1, chunkSize);
    }
    if size > chunkSize {
      DivOneUp(size - 1, chunkSize);
    }
  }

  lemma DivStep(a: nat, b: nat)
    requires b > 0
    ensures (a + b) / b == a / b + 1
  {
    var q, r := a / b, a % b;
    assert a + b == b * (q + 1) + r;
    DivUnique(a + b, b, q + 1, r);
  }

  lemma DivUnique(a: int, b: int, q: int, r: int)
    requires b > 0 && a == b * q + r && 0 <= r < b
    ensures a / b == q
  {
    var d := a / b - q;
    assert a == b * (a / b) + a % b;
    assert b * d == r - a % b;
    MulAway(b, d);
  }

  lemma MulAway(b: int, d: int)
    requires b > 0
    ensures d >= 1 ==> b * d >= b
    ensures d <= -1 ==> b * d <= -b
  {}

  lemma DivOne(a: nat, b: nat)
    requires 0 < b <= a < 2 * b
    ensures a / b == 1
  {
    DivUnique(a, b, 1, a - b);
  }

  lemma DivOneUp(a: nat, b: nat)
    requires 0 < b <= a
    ensures a / b >= 1
  {
    DivStep(a - b, b);
  }

  lemma DivSmall(a: nat, b: nat)
    requires a < b
    ensures a / b == 0
  {
    DivUnique(a, b, 0, a);
  }

  lemma ChunksStep(fileName: string, content: Bytes, offset: nat, n: nat, i: nat, total: nat, chunkSize: nat)
    requires chunkSize > 0 && offset < |content|
    requires n == if |content| - offset < chunkSize then |content| - offset else chunkSize
    ensures Chunks(fileName, content[offset..], i, total, chunkSize)
         == [FileChunk(fileName, i, total, content[offset..offset + n], i == total - 1)]
          + Chunks(fileName, content[offset + n..], i + 1, total, chunkSize)
  {
    var rest := content[offset..];
    assert rest[..n] == content[offset..offset + n] && rest[n..] == content[offset + n..];
  }

  lemma Regroup<T>(a: seq<T>, x: T, b: seq<T>)
    ensures a + ([x] + b) == (a + [x]) + b
  {}

  /** sendFileInChunks: one fixed buffer, `totalChunks` reads, each of them full where possible. */
  method SendFileInChunks(fileName: string, content: Bytes, chunkSize: nat) returns (sent: seq<FileChunk>)
    requires chunkSize > 0
    ensures sent == FileChunks(fileName, content, chunkSize)
  {
    hide ChunkCount, Chunks;
    var total := ChunkCount(|content|, chunkSize);
    var buffer := new bv8[chunkSize];
    var offset, chunkIndex := 0, 0;
    sent := [];
    assert content[0..] == content;
    ghost var whole := Chunks(fileName, content, 0, total, chunkSize);
    assert sent + whole == whole;
    while chunkIndex < total
      invariant 0 <= chunkIndex <= total && 0 <= offset <= |content|
      invariant total - chunkIndex == ChunkCount(|content| - offset, chunkSize)
      invariant whole == sent + Chunks(fileName, content[offset..], chunkIndex, total, chunkSize)
    {
      var n := Read(content, offset, buffer);
      CountStep(|content| - offset, chunkSize);
      CountStep(|content| - offset - n, chunkSize);
      ChunksStep(fileName, content, offset, n, chunkIndex, total, chunkSize);
      var chunk := FileChunk(fileName, chunkIndex, total, buffer[..n], chunkIndex == total - 1);
      Regroup(sent, chunk, Chunks(fileName, content[offset + n..], chunkIndex + 1, total, chunkSize));
      sent := sent + [chunk];
      offset, chunkIndex := offset + n, chunkIndex + 1;
    }
    NothingLeft(fileName, content, offset, total, chunkSize);
  }

  lemma NothingLeft(fileName: string, content: Bytes, offset: nat, total: nat, chunkSize: nat)
    requires chunkSize > 0 && offset <= |content| && ChunkCount(|content| - offset, chunkSize) == 0
    ensures Chunks(fileName, content[offset..], total, total, chunkSize) == []
  {
    CountStep(|content| - offset, chunkSize);
  }

  method Read(content: Bytes, offset: nat, buffer: array<bv8>) returns (n: nat)
    requires offset <= |content|
    modifies buffer
    ensures n == (if |content| - offset < buffer.Length then |content| - offset else buffer.Length)
    ensures buffer[..n] == content[offset..offset + n]
  {
    n := 0;
    while n < buffer.Length && offset + n < |content|
      invariant 0 <= n <= buffer.Length && offset + n <= |content|
      invariant buffer[..n] == content[offset..offset + n]
    {
      buffer[n] := content[offset + n];
      n := n + 1;
    }
  }
}
