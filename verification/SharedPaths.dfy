/** Two transfers with different keys that go to one path, such as one file name uploaded by two
    clients in one case: each has its own handle, and whichever starts later empties the file. */
module SharedPaths {
  import opened Wire
  import opened ChunkTransfer
  import opened ChunkServer
  import opened ChunkTheorems

  // The bytes of the file.

  /** How far the n bytes written by a transfer reach, if those before `lost` were emptied. */
  function Reach(n: nat, lost: nat): nat { if n > lost then n else 0 }

  predicate Wrote(n: nat, lost: nat, x: int) { lost <= x < n }

  /** The byte at x: from one of the transfers that wrote it since, and zero if none did. */
  predicate ByteAt(v: bv8, a: Bytes, lostA: nat, b: Bytes, lostB: nat, x: nat) {
    if Wrote(|a|, lostA, x) && v == a[x] then true
    else if Wrote(|b|, lostB, x) && v == b[x] then true
    else !Wrote(|a|, lostA, x) && !Wrote(|b|, lostB, x) && v == 0
  }

  /** The file after the transfers have written a and b. */
  ghost predicate Mixed(d: Bytes, a: Bytes, lostA: nat, b: Bytes, lostB: nat) {
    && |d| == (if Reach(|a|, lostA) > Reach(|b|, lostB) then Reach(|a|, lostA) else Reach(|b|, lostB))
    && forall x :: 0 <= x < |d| ==> ByteAt(d[x], a, lostA, b, lostB, x)
  }

  lemma MixedTurned(d: Bytes, a: Bytes, lostA: nat, b: Bytes, lostB: nat)
    requires Mixed(d, a, lostA, b, lostB)
    ensures Mixed(d, b, lostB, a, lostA)
  {}

  lemma MixedEmpty(b: Bytes)
    ensures Mixed([], [], 0, b, |b|)
  {}

  lemma MixedWrite(d: Bytes, a: Bytes, lostA: nat, b: Bytes, lostB: nat, data: Bytes)
    requires Mixed(d, a, lostA, b, lostB) && lostA <= |a| && data != []
    ensures Mixed(Overwritten(d, |a|, data), a + data, lostA, b, lostB)
  {
    var e, c := Overwritten(d, |a|, data), a + data;
    forall x | 0 <= x < |e| ensures ByteAt(e[x], c, lostA, b, lostB, x) {
      if x < |d| {
        assert ByteAt(d[x], a, lostA, b, lostB, x);
      }
    }
  }

  // The two transfers.

  /** i chunks have arrived, `rest` is to come, and the first `lost` bytes have been emptied away. */
  datatype Sent = Sent(i: nat, rest: Bytes, lost: nat)

  function Key(t: Transfer): string { ChunkKey(t.client, t.fileName) }

  function Done(t: Transfer, p: Sent): Bytes
    requires |p.rest| <= |t.content|
  {
    t.content[..|t.content| - |p.rest|]
  }

  ghost predicate Stands(s: Store, t: Transfer, path: string, p: Sent) {
    && t.chunkSize > 0 && p.lost + |p.rest| <= |t.content|
    && p.rest == t.content[|t.content| - |p.rest|..]
    && if p.i == 0 then
         Key(t) !in s.open && p.rest == t.content != [] && path == JoinPath(s.resultPath, t.fileName)
       else if p.rest == [] then Key(t) !in s.open
       else UnderWay(s, t, path, p.i, p.rest)
  }

  /** And what the client has still to send are the chunks of the rest. */
  ghost predicate ToCome(t: Transfer, p: Sent, cs: seq<FileChunk>)
    requires t.chunkSize > 0
  {
    var total := ChunkCount(|t.content|, t.chunkSize);
    && total - p.i == ChunkCount(|p.rest|, t.chunkSize)
    && cs == Chunks(t.fileName, p.rest, p.i, total, t.chunkSize)
  }

  ghost predicate FileMixed(s: Store, t: Transfer, u: Transfer, path: string, p: Sent, q: Sent)
    requires |p.rest| <= |t.content| && |q.rest| <= |u.content|
  {
    p.i > 0 || q.i > 0 ==>
      && path in s.disk && Mixed(s.disk[path], Done(t, p), p.lost, Done(u, q), q.lost)
      && (p.lost == 0 || q.lost == 0)
  }

  ghost predicate Sharing(s: Store, t: Transfer, u: Transfer, path: string, p: Sent, q: Sent) {
    && Key(t) != Key(u) && Stands(s, t, path, p) && Stands(s, u, path, q) && FileMixed(s, t, u, path, p, q)
  }

  lemma SharingTurned(s: Store, t: Transfer, u: Transfer, path: string, p: Sent, q: Sent)
    requires Sharing(s, t, u, path, p, q)
    ensures Sharing(s, u, t, path, q, p)
  {
    KeysDiffer(s, t, u, path, p, q);
    hide Mixed, Stands;
    if p.i > 0 || q.i > 0 {
      MixedTurned(s.disk[path], Done(t, p), p.lost, Done(u, q), q.lost);
    }
  }

  function Cut(t: Transfer, p: Sent): nat { if |p.rest| < t.chunkSize then |p.rest| else t.chunkSize }

  /** The transfer after its next chunk. */
  function Ahead(t: Transfer, p: Sent): Sent { Sent(p.i + 1, p.rest[Cut(t, p)..], if p.i == 0 then 0 else p.lost) }

  /** The other one: what it has written is gone if the chunk creates the file. */
  function Beside(p: Sent, u: Transfer, q: Sent): Sent
    requires |q.rest| <= |u.content|
  {
    if p.i == 0 then q.(lost := |Done(u, q)|) else q
  }

  /** The next chunk of t finds its transfer open. */
  ghost predicate Found(s: Store, t: Transfer, u: Transfer, path: string, p: Sent, q: Sent) {
    && Key(t) != Key(u) && p.rest != [] && p.lost + |p.rest| <= |t.content|
    && UnderWay(s, t, path, p.i, p.rest) && Stands(s, u, path, q)
    && path in s.disk && Mixed(s.disk[path], Done(t, p), p.lost, Done(u, q), q.lost)
    && (p.lost == 0 || q.lost == 0)
  }

  lemma OpenedNew(s: Store, t: Transfer, u: Transfer, path: string, p: Sent, q: Sent, c: FileChunk)
    requires Key(t) != Key(u) && Stands(s, t, path, p) && Stands(s, u, path, q) && p.i == 0
    requires c.fileName == t.fileName && c.totalChunks == ChunkCount(|t.content|, t.chunkSize)
    ensures Found(Ensure(s, Key(t), c), t, u, path, p.(lost := 0), Beside(p, u, q))
  {
    hide ChunkCount, Mixed;
    var s' := Ensure(s, Key(t), c);
    assert Midway(s, t, path, 0, t.content) && p.rest == t.content;
    assert Done(t, p) == [] && Done(u, q) == Done(u, q.(lost := 0));
    Opens(s, t, path, c);
    StandsBeside(s, s', u, path, q, Key(t));
    MixedEmpty(Done(u, q));
    hide UnderWay, Stands, Midway, Done;
    assert Ready(s', t, path, 0, t.content);
    assert s'.disk[path] == [];
  }

  lemma StandsBeside(s: Store, s': Store, u: Transfer, path: string, q: Sent, key: string)
    requires Stands(s, u, path, q) && key != Key(u) && s'.resultPath == s.resultPath
    requires Key(u) in s'.open <==> Key(u) in s.open
    requires Key(u) in s.open ==> s'.open[Key(u)] == s.open[Key(u)]
    ensures Stands(s', u, path, q.(lost := |Done(u, q)|)) && Done(u, q.(lost := |Done(u, q)|)) == Done(u, q)
    ensures Stands(s', u, path, q)
  {
    hide ChunkCount;
  }

  /** The file as the next chunk of t finds it. */
  lemma Opened(s: Store, t: Transfer, u: Transfer, path: string, p: Sent, q: Sent, c: FileChunk)
    requires Sharing(s, t, u, path, p, q) && p.rest != []
    requires c.fileName == t.fileName && c.totalChunks == ChunkCount(|t.content|, t.chunkSize)
    ensures Found(Ensure(s, Key(t), c), t, u, path, p.(lost := Ahead(t, p).lost), Beside(p, u, q))
  {
    if p.i == 0 {
      hide Found, Stands, FileMixed;
      OpenedNew(s, t, u, path, p, q, c);
    } else {
      Continues(s, t, path, p);
      hide Mixed, UnderWay, Stands;
      assert p.(lost := p.lost) == p;
    }
  }

  lemma Continues(s: Store, t: Transfer, path: string, p: Sent)
    requires Stands(s, t, path, p) && p.i > 0 && p.rest != []
    ensures Key(t) in s.open && UnderWay(s, t, path, p.i, p.rest) && p.lost + |p.rest| <= |t.content|
  {}

  lemma {:induction false} NextIs(t: Transfer, p: Sent, cs: seq<FileChunk>)
    requires t.chunkSize > 0 && p.rest != [] && |p.rest| <= |t.content| && ToCome(t, p, cs)
    ensures cs != []
    ensures var c := cs[0];
      && c.fileName == t.fileName && c.totalChunks == ChunkCount(|t.content|, t.chunkSize)
      && c.chunkIndex == p.i && c.data == p.rest[..Cut(t, p)] != []
      && (c.isFinal <==> p.i == ChunkCount(|t.content|, t.chunkSize) - 1)
      && (c.isFinal <==> Ahead(t, p).rest == [])
    ensures ToCome(t, Ahead(t, p), cs[1..])
  {
    CountStep(|p.rest|, t.chunkSize);
    CountStep(|p.rest| - Cut(t, p), t.chunkSize);
    hide ChunkCount;
  }

  /** The next chunk of t is accepted. */
  lemma SharedNext(s: Store, m: Msg, t: Transfer, u: Transfer, path: string, p: Sent, q: Sent, cs: seq<FileChunk>)
    requires Sharing(s, t, u, path, p, q) && p.rest != [] && ToCome(t, p, cs)
    requires KeyOf(m) == Key(t) && cs != [] && m.chunk == cs[0]
    ensures Answer(s, m) == Nil
    ensures Sharing(Step(s, m), t, u, path, Ahead(t, p), Beside(p, u, q))
    ensures ToCome(t, Ahead(t, p), cs[1..])
  {
    hide Sharing, Stands, ToCome, ChunkCount, Ensure, Write, Found, Beside, Cut;
    KeysDiffer(s, t, u, path, p, q);
    NextIs(t, p, cs);
    Opened(s, t, u, path, p, q, m.chunk);
    var s1, p1 := Ensure(s, Key(t), m.chunk), p.(lost := Ahead(t, p).lost);
    FlagUnset(s1, t, u, path, p1, Beside(p, u, q));
    AheadSame(t, p);
    WriteShared(s1, t, u, path, p1, Beside(p, u, q), m.chunk);
    hide Ahead;
    HandlesNew(s, m, s1);
  }

  lemma AheadSame(t: Transfer, p: Sent)
    ensures var p1 := p.(lost := Ahead(t, p).lost);
      Ahead(t, p1) == Ahead(t, p) && Cut(t, p1) == Cut(t, p) && (p1.i == 0 ==> p1.lost == 0)
  {}

  lemma HandlesNew(s: Store, m: Msg, s': Store)
    requires m.chunk.totalChunks >= 0 && s' == Ensure(s, KeyOf(m), m.chunk) && KeyOf(m) in s'.open
    requires var got := s'.open[KeyOf(m)].received; 0 <= m.chunk.chunkIndex < |got| && !got[m.chunk.chunkIndex]
    ensures Handle(s, Some(m.client), m.chunk) == Write(s', KeyOf(m), m.chunk)
  {
    hide Write;
  }

  lemma WriteShared(s: Store, t: Transfer, u: Transfer, path: string, p: Sent, q: Sent, c: FileChunk)
    requires Found(s, t, u, path, p, q)
    requires c.chunkIndex == p.i && c.data == p.rest[..Cut(t, p)] != []
    requires c.isFinal <==> p.i == ChunkCount(|t.content|, t.chunkSize) - 1
    requires c.isFinal <==> Ahead(t, p).rest == []
    requires p.i == 0 ==> p.lost == 0
    ensures Key(t) in s.open && |s.open[Key(t)].received| > p.i && Write(s, Key(t), c).1 == Nil
    ensures Sharing(Write(s, Key(t), c).0, t, u, path, Ahead(t, p), q)
  {
    hide Stands, Mixed, UnderWay, ChunkCount, Overwritten, Write, Cut;
    var p' := Ahead(t, p);
    HandleAt(s, t, path, p.i, p.rest);
    StandsSizes(s, u, path, q);
    StandsNext(s, t, path, p, c);
    WriteKeeps(s, t, u, path, q, c);
    WriteAt(s, Key(t), path, c);
    DoneNext(t, p);
    MixedWrite(s.disk[path], Done(t, p), p.lost, Done(u, q), q.lost, c.data);
    hide Done;
  }

  lemma StandsSizes(s: Store, u: Transfer, path: string, q: Sent)
    requires Stands(s, u, path, q)
    ensures |q.rest| <= |u.content| && u.chunkSize > 0
  {}

  lemma DoneNext(t: Transfer, p: Sent)
    requires t.chunkSize > 0 && |p.rest| <= |t.content| && p.rest == t.content[|t.content| - |p.rest|..]
    ensures Done(t, Ahead(t, p)) == Done(t, p) + p.rest[..Cut(t, p)]
  {}

  lemma WriteKeeps(s: Store, t: Transfer, u: Transfer, path: string, q: Sent, c: FileChunk)
    requires Key(t) != Key(u) && Stands(s, u, path, q)
    requires Key(t) in s.open && 0 <= c.chunkIndex < |s.open[Key(t)].received|
    ensures Stands(Write(s, Key(t), c).0, u, path, q)
  {
    hide ChunkCount;
  }

  lemma WriteAt(s: Store, key: string, path: string, c: FileChunk)
    requires key in s.open && s.open[key].path == path && path in s.disk
    requires 0 <= c.chunkIndex < |s.open[key].received|
    ensures var s' := Write(s, key, c).0;
      path in s'.disk && s'.disk[path] == Overwritten(s.disk[path], s.open[key].offset, c.data)
  {}

  lemma StandsNext(s: Store, t: Transfer, path: string, p: Sent, c: FileChunk)
    requires UnderWay(s, t, path, p.i, p.rest) && p.rest != [] && p.lost + |p.rest| <= |t.content|
    requires c.chunkIndex == p.i && c.data == p.rest[..Cut(t, p)]
    requires c.isFinal <==> p.i == ChunkCount(|t.content|, t.chunkSize) - 1
    requires c.isFinal <==> Ahead(t, p).rest == []
    ensures |s.open[Key(t)].received| > p.i && Write(s, Key(t), c).1 == Nil
    ensures Stands(Write(s, Key(t), c).0, t, path, Ahead(t, p))
  {
    HandleAt(s, t, path, p.i, p.rest);
    Accepted(s, t, path, p.i, p.rest, c, Cut(t, p));
    hide UnderWay, ChunkCount, Write;
  }

  lemma FlagUnset(s: Store, t: Transfer, u: Transfer, path: string, p: Sent, q: Sent)
    requires Found(s, t, u, path, p, q)
    ensures Key(t) in s.open
    ensures var got := s.open[Key(t)].received; p.i < |got| && !got[p.i]
  {
    hide Mixed, Stands;
  }

  /** A chunk of another key and path changes neither. */
  lemma SharedOther(s: Store, m: Msg, t: Transfer, u: Transfer, path: string, p: Sent, q: Sent)
    requires Sharing(s, t, u, path, p, q) && KeyOf(m) != Key(t) && KeyOf(m) != Key(u)
    requires JoinPath(s.resultPath, m.chunk.fileName) != path
    requires KeyOf(m) in s.open ==> s.open[KeyOf(m)].path != path
    ensures Sharing(Step(s, m), t, u, path, p, q)
  {
    StandsKept(s, m, t, path, p);
    StandsKept(s, m, u, path, q);
    PathKept(s, m, path);
    hide Mixed, Stands, Step;
  }

  lemma StandsKept(s: Store, m: Msg, t: Transfer, path: string, p: Sent)
    requires Stands(s, t, path, p) && KeyOf(m) != Key(t)
    ensures Stands(Step(s, m), t, path, p)
  {
    hide ChunkCount;
  }

  lemma PathKept(s: Store, m: Msg, path: string)
    requires JoinPath(s.resultPath, m.chunk.fileName) != path
    requires KeyOf(m) in s.open ==> s.open[KeyOf(m)].path != path
    ensures path in Step(s, m).disk <==> path in s.disk
    ensures path in s.disk ==> Step(s, m).disk[path] == s.disk[path]
  {}

  lemma {:induction false} SharedFrom(s: Store, ms: seq<Msg>, t: Transfer, u: Transfer, path: string, p: Sent, q: Sent)
    returns (p': Sent, q': Sent)
    requires Sharing(s, t, u, path, p, q) && Alone(s, ms, {Key(t), Key(u)}, path)
    requires ToCome(t, p, Project(ms, Key(t))) && ToCome(u, q, Project(ms, Key(u)))
    ensures Sharing(Run(s, ms), t, u, path, p', q') && p'.i > 0 && q'.i > 0 && p'.rest == [] == q'.rest
    ensures Smooth(s, ms, Key(t)) && Smooth(s, ms, Key(u))
    decreases |ms|
  {
    hide Sharing, ToCome, Handle, Alone, Key, KeyOf;
    if ms == [] {
      p', q' := p, q;
      NothingToCome(s, t, u, path, p, q);
    } else {
      StaysAlone(s, ms, {Key(t), Key(u)}, path);
      var m, ms' := ms[0], ms[1..];
      KeysDiffer(s, t, u, path, p, q);
      if KeyOf(m) == Key(t) {
        SomeToCome(t, p, Project(ms, Key(t)));
        SharedNext(s, m, t, u, path, p, q, Project(ms, Key(t)));
        BesideToCome(p, u, q, Project(ms, Key(u)));
        p', q' := SharedFrom(Step(s, m), ms', t, u, path, Ahead(t, p), Beside(p, u, q));
      } else if KeyOf(m) == Key(u) {
        SharingTurned(s, t, u, path, p, q);
        SomeToCome(u, q, Project(ms, Key(u)));
        SharedNext(s, m, u, t, path, q, p, Project(ms, Key(u)));
        SharingTurned(Step(s, m), u, t, path, Ahead(u, q), Beside(q, t, p));
        BesideToCome(q, t, p, Project(ms, Key(t)));
        p', q' := SharedFrom(Step(s, m), ms', t, u, path, Beside(q, t, p), Ahead(u, q));
      } else {
        AloneHere(s, ms, {Key(t), Key(u)}, path);
        SharedOther(s, m, t, u, path, p, q);
        p', q' := SharedFrom(Step(s, m), ms', t, u, path, p, q);
      }
    }
  }

  lemma KeysDiffer(s: Store, t: Transfer, u: Transfer, path: string, p: Sent, q: Sent)
    requires Sharing(s, t, u, path, p, q)
    ensures Key(t) != Key(u) && t.chunkSize > 0 && u.chunkSize > 0
    ensures |p.rest| <= |t.content| && |q.rest| <= |u.content|
  {}

  lemma SomeToCome(t: Transfer, p: Sent, cs: seq<FileChunk>)
    requires t.chunkSize > 0 && cs != [] && ToCome(t, p, cs)
    ensures p.rest != []
  {}

  lemma BesideToCome(p: Sent, u: Transfer, q: Sent, cs: seq<FileChunk>)
    requires u.chunkSize > 0 && |q.rest| <= |u.content| && ToCome(u, q, cs)
    ensures ToCome(u, Beside(p, u, q), cs)
  {}

  lemma NothingToCome(s: Store, t: Transfer, u: Transfer, path: string, p: Sent, q: Sent)
    requires Sharing(s, t, u, path, p, q) && ToCome(t, p, []) && ToCome(u, q, [])
    ensures p.i > 0 && q.i > 0 && p.rest == [] == q.rest
  {}

  /** Neither transfer is refused a chunk. The file ends up as long as the longer of the two, unless
      all of that one was emptied away by the other, which is then all there is. Each byte is that of a
      transfer that wrote it after the file was last emptied, and zero where none did. */
  lemma SharedPath(s: Store, ms: seq<Msg>, t: Transfer, u: Transfer) returns (lostT: nat, lostU: nat)
    requires t.chunkSize > 0 && u.chunkSize > 0 && t.content != [] && u.content != []
    requires Key(t) != Key(u) && Key(t) !in s.open && Key(u) !in s.open
    requires JoinPath(s.resultPath, t.fileName) == JoinPath(s.resultPath, u.fileName)
    requires Project(ms, Key(t)) == FileChunks(t.fileName, t.content, t.chunkSize)
    requires Project(ms, Key(u)) == FileChunks(u.fileName, u.content, u.chunkSize)
    requires Alone(s, ms, {Key(t), Key(u)}, JoinPath(s.resultPath, t.fileName))
    ensures Smooth(s, ms, Key(t)) && Smooth(s, ms, Key(u))
    ensures var s', path := Run(s, ms), JoinPath(s.resultPath, t.fileName);
      && Key(t) !in s'.open && Key(u) !in s'.open
      && path in s'.disk && Mixed(s'.disk[path], t.content, lostT, u.content, lostU)
    ensures lostT <= |t.content| && lostU <= |u.content| && (lostT == 0 || lostU == 0)
  {
    hide Mixed, Alone, Project, ChunkCount, Chunks;
    var path := JoinPath(s.resultPath, t.fileName);
    var p', q' := SharedFrom(s, ms, t, u, path, Sent(0, t.content, 0), Sent(0, u.content, 0));
    lostT, lostU := p'.lost, q'.lost;
    assert Done(t, p') == t.content && Done(u, q') == u.content;
  }

  /** So the path can stand for both transfers exactly if their contents are the same. */
  lemma SharedIffSame(s: Store, ms: seq<Msg>, t: Transfer, u: Transfer)
    requires t.chunkSize > 0 && u.chunkSize > 0 && t.content != [] && u.content != []
    requires Key(t) != Key(u) && Key(t) !in s.open && Key(u) !in s.open
    requires JoinPath(s.resultPath, t.fileName) == JoinPath(s.resultPath, u.fileName)
    requires Project(ms, Key(t)) == FileChunks(t.fileName, t.content, t.chunkSize)
    requires Project(ms, Key(u)) == FileChunks(u.fileName, u.content, u.chunkSize)
    requires Alone(s, ms, {Key(t), Key(u)}, JoinPath(s.resultPath, t.fileName))
    ensures var d := Written(Run(s, ms).disk, JoinPath(s.resultPath, t.fileName));
      d == t.content && d == u.content <==> t.content == u.content
  {
    var lostT, lostU := SharedPath(s, ms, t, u);
    if t.content == u.content {
      hide Run, Alone, Project, FileChunks;
      MixedSame(Run(s, ms).disk[JoinPath(s.resultPath, t.fileName)], t.content, lostT, lostU);
    }
  }

  lemma MixedSame(d: Bytes, a: Bytes, lostA: nat, lostB: nat)
    requires Mixed(d, a, lostA, a, lostB) && a != [] && (lostA == 0 || lostB == 0)
    ensures d == a
  {
    forall x | 0 <= x < |d| ensures d[x] == a[x] {
      assert ByteAt(d[x], a, lostA, a, lostB, x);
    }
  }

  /** Otherwise the file may be neither: here [1, 1] and [2, 2] leave [2, 1]. */
  lemma NeitherFile()
    ensures var a, b := FileChunk("f", 0, 2, [1], false), FileChunk("f", 1, 2, [1], true);
      var c, d := FileChunk("f", 0, 2, [2], false), FileChunk("f", 1, 2, [2], true);
      var ms := [Msg("p", a), Msg("q", c), Msg("q", d), Msg("p", b)];
      var s := Store("d", map[], map[]);
      && Smooth(s, ms, ChunkKey("p", "f")) && Smooth(s, ms, ChunkKey("q", "f"))
      && Written(Run(s, ms).disk, JoinPath("d", "f")) == [2, 1]
  {
    var a, b := Msg("p", FileChunk("f", 0, 2, [1], false)), Msg("p", FileChunk("f", 1, 2, [1], true));
    var c, d := Msg("q", FileChunk("f", 0, 2, [2], false)), Msg("q", FileChunk("f", 1, 2, [2], true));
    var s, path := Store("d", map[], map[]), JoinPath("d", "f");
    var k, l := ChunkKey("p", "f"), ChunkKey("q", "f");
    assert k[0] != l[0];
    FirstOfTwo(s, a);
    FirstOfTwo(Step(s, a), c);
    var s2 := Step(Step(s, a), c);
    LastOfTwo(s2, d);
    var s3 := Step(s2, d);
    assert Overwritten([2], 1, [2]) == [2, 2];
    LastOfTwo(s3, b);
    assert Overwritten([2, 2], 1, [1]) == [2, 1];
    assert Written(Step(s3, b).disk, path) == [2, 1];
    hide Step, Answer;
    RunMore(s3, b, [], k, l);
    RunMore(s2, d, [b], k, l);
    RunMore(Step(s, a), c, [d, b], k, l);
    RunMore(s, a, [c, d, b], k, l);
  }

  lemma FirstOfTwo(s: Store, m: Msg)
    requires KeyOf(m) !in s.open && m.chunk.chunkIndex == 0 && m.chunk.totalChunks == 2 && !m.chunk.isFinal
    requires |m.chunk.data| == 1
    ensures var path := JoinPath(s.resultPath, m.chunk.fileName);
      Answer(s, m) == Nil
      && Step(s, m) == s.(open := s.open[KeyOf(m) := OpenFile(path, 1, [true, false])],
                          disk := s.disk[path := m.chunk.data])
  {
    assert AllFalse(2)[0 := true] == [true, false];
    assert Overwritten([], 0, m.chunk.data) == m.chunk.data;
    hide Overwritten, AllFalse;
    var path := JoinPath(s.resultPath, m.chunk.fileName);
    assert Step(s, m).disk == s.disk[path := m.chunk.data];
    assert Step(s, m).open == s.open[KeyOf(m) := OpenFile(path, 1, [true, false])];
  }

  lemma LastOfTwo(s: Store, m: Msg)
    requires KeyOf(m) in s.open && s.open[KeyOf(m)].received == [true, false]
    requires m.chunk.chunkIndex == 1 && m.chunk.isFinal
    ensures var f := s.open[KeyOf(m)];
      Answer(s, m) == Nil
      && Step(s, m) == s.(open := s.open - {KeyOf(m)},
                          disk := s.disk[f.path := Overwritten(Written(s.disk, f.path), f.offset, m.chunk.data)])
  {
    assert [true, false][1 := true] == [true, true];
    hide Overwritten, Written;
    var f := s.open[KeyOf(m)];
    assert Step(s, m).open == s.open - {KeyOf(m)};
  }

  lemma RunMore(s: Store, m: Msg, ms: seq<Msg>, k: string, l: string)
    requires Answer(s, m) == Nil && Smooth(Step(s, m), ms, k) && Smooth(Step(s, m), ms, l)
    ensures Run(s, [m] + ms) == Run(Step(s, m), ms) && Smooth(s, [m] + ms, k) && Smooth(s, [m] + ms, l)
  {
    hide Answer, Step;
    assert ([m] + ms)[1..] == ms;
  }
}
