/** Chunked transfers end to end: interleaved in any way with other traffic, and in any order. */
module ChunkTheorems {
  import opened Wire
  import opened ChunkTransfer
  import opened ChunkServer

  /** A chunk with the name its connection is registered under. */
  datatype Msg = Msg(client: string, chunk: FileChunk)

  datatype Transfer = Transfer(client: string, fileName: string, content: Bytes, chunkSize: nat)

  function KeyOf(m: Msg): string { ChunkKey(m.client, m.chunk.fileName) }

  function Step(s: Store, m: Msg): Store { Handle(s, Some(m.client), m.chunk).0 }

  function Answer(s: Store, m: Msg): ChunkServer.Outcome { Handle(s, Some(m.client), m.chunk).1 }

  function Run(s: Store, ms: seq<Msg>): Store
    decreases |ms|
  {
    if ms == [] then s else Run(Step(s, ms[0]), ms[1..])
  }

  /** The chunks of one key, in order of arrival. */
  function Project(ms: seq<Msg>, key: string): seq<FileChunk> {
    if ms == [] then []
    else if KeyOf(ms[0]) == key then [ms[0].chunk] + Project(ms[1..], key)
    else Project(ms[1..], key)
  }

  /** No message of this key is refused. */
  predicate Smooth(s: Store, ms: seq<Msg>, key: string)
    decreases |ms|
  {
    ms == [] || ((KeyOf(ms[0]) == key ==> Answer(s, ms[0]) == Nil) && Smooth(Step(s, ms[0]), ms[1..], key))
  }

  /** No open transfer and no message of a key not among these writes to the path. */
  ghost predicate Alone(s: Store, ms: seq<Msg>, keys: set<string>, path: string) {
    && (forall k :: k in s.open && k !in keys ==> s.open[k].path != path)
    && (forall i :: 0 <= i < |ms| && KeyOf(ms[i]) !in keys ==> JoinPath(s.resultPath, ms[i].chunk.fileName) != path)
  }

  /** `i` chunks have arrived and `rest` is still to come. */
  ghost predicate Midway(s: Store, t: Transfer, path: string, i: nat, rest: Bytes) {
    var key := ChunkKey(t.client, t.fileName);
    if i == 0 then key !in s.open && rest == t.content && path == JoinPath(s.resultPath, t.fileName)
    else if rest == [] then key !in s.open && path in s.disk && s.disk[path] == t.content
    else Ready(s, t, path, i, rest)
  }

  /** The transfer is open, its handle stands before `rest`, and the first `i` flags are set. */
  ghost predicate UnderWay(s: Store, t: Transfer, path: string, i: nat, rest: Bytes) {
    var key := ChunkKey(t.client, t.fileName);
    && t.chunkSize > 0 && key in s.open && s.open[key].path == path
    && s.open[key].offset <= |t.content| && rest == t.content[s.open[key].offset..]
    && |s.open[key].received| == ChunkCount(|t.content|, t.chunkSize)
    && i < |s.open[key].received|
    && forall j :: 0 <= j < |s.open[key].received| ==> s.open[key].received[j] == (j < i)
  }

  /** And the file holds what comes before `rest`. */
  ghost predicate Ready(s: Store, t: Transfer, path: string, i: nat, rest: Bytes) {
    && UnderWay(s, t, path, i, rest)
    && path in s.disk && s.disk[path] == t.content[..s.open[ChunkKey(t.client, t.fileName)].offset]
  }

  lemma Opens(s: Store, t: Transfer, path: string, c: FileChunk)
    requires t.chunkSize > 0 && Midway(s, t, path, 0, t.content) && t.content != []
    requires c.fileName == t.fileName && c.totalChunks == ChunkCount(|t.content|, t.chunkSize)
    ensures Ready(Ensure(s, ChunkKey(t.client, t.fileName), c), t, path, 0, t.content)
  {
    CountStep(|t.content|, t.chunkSize);
    assert t.content[0..] == t.content && t.content[..0] == [];
  }

  /** The next chunk of a transfer under way is accepted, whoever else writes to its path. */
  lemma Accepted(s: Store, t: Transfer, path: string, i: nat, rest: Bytes, c: FileChunk, n: nat)
    requires UnderWay(s, t, path, i, rest) && n <= |rest| && c.chunkIndex == i && c.data == rest[..n]
    requires c.isFinal <==> i == ChunkCount(|t.content|, t.chunkSize) - 1
    ensures var key := ChunkKey(t.client, t.fileName); var (s', r) := Write(s, key, c);
      && r == Nil
      && if c.isFinal then key !in s'.open
         else UnderWay(s', t, path, i + 1, rest[n..]) && s'.open[key].offset == s.open[key].offset + n
  {
    hide ChunkCount;
  }

  lemma Writes(s: Store, t: Transfer, path: string, i: nat, rest: Bytes, c: FileChunk, n: nat)
    requires Ready(s, t, path, i, rest) && n <= |rest| && c.chunkIndex == i && c.data == rest[..n]
    requires c.isFinal <==> i == ChunkCount(|t.content|, t.chunkSize) - 1
    requires c.isFinal <==> rest[n..] == []
    ensures var (s', r) := Write(s, ChunkKey(t.client, t.fileName), c);
      r == Nil && Midway(s', t, path, i + 1, rest[n..])
  {
    Accepted(s, t, path, i, rest, c, n);
    hide ChunkCount, UnderWay;
    HandleAt(s, t, path, i, rest);
    var at := s.open[ChunkKey(t.client, t.fileName)].offset;
    WrittenAtEnd(s.disk[path], c.data);
    assert t.content[..at] + t.content[at..][..n] == t.content[..at + n];
    if rest[n..] == [] {
      assert t.content[..at + n] == t.content;
    }
  }

  lemma HandleAt(s: Store, t: Transfer, path: string, i: nat, rest: Bytes)
    requires UnderWay(s, t, path, i, rest)
    ensures var key := ChunkKey(t.client, t.fileName);
      && t.chunkSize > 0 && key in s.open && s.open[key].path == path
      && s.open[key].offset + |rest| == |t.content| && rest == t.content[s.open[key].offset..]
  {}

  lemma Elsewhere(s: Store, m: Msg, t: Transfer, path: string, i: nat, rest: Bytes)
    requires Midway(s, t, path, i, rest) && KeyOf(m) != ChunkKey(t.client, t.fileName)
    requires JoinPath(s.resultPath, m.chunk.fileName) != path
    requires KeyOf(m) in s.open ==> s.open[KeyOf(m)].path != path
    ensures Midway(Step(s, m), t, path, i, rest)
  {}

  lemma StaysAlone(s: Store, ms: seq<Msg>, keys: set<string>, path: string)
    requires ms != [] && Alone(s, ms, keys, path)
    ensures Alone(Step(s, ms[0]), ms[1..], keys, path)
  {}

  /** The next chunk of the transfer is accepted. */
  lemma Arrives(s: Store, m: Msg, t: Transfer, path: string, i: nat, rest: Bytes)
    requires t.chunkSize > 0 && Midway(s, t, path, i, rest) && rest != []
    requires KeyOf(m) == ChunkKey(t.client, t.fileName)
    requires var total := ChunkCount(|t.content|, t.chunkSize);
      && total - i == ChunkCount(|rest|, t.chunkSize)
      && m.chunk == Chunks(t.fileName, rest, i, total, t.chunkSize)[0]
    ensures Answer(s, m) == Nil
    ensures var n := if |rest| < t.chunkSize then |rest| else t.chunkSize;
      && Midway(Step(s, m), t, path, i + 1, rest[n..])
      && ChunkCount(|t.content|, t.chunkSize) - (i + 1) == ChunkCount(|rest| - n, t.chunkSize)
  {
    hide ChunkCount, Write, Ensure, Midway, Ready;
    var n := if |rest| < t.chunkSize then |rest| else t.chunkSize;
    CountStep(|rest|, t.chunkSize);
    CountStep(|rest| - n, t.chunkSize);
    ReadyOrNew(s, t, path, i, rest);
    var key := ChunkKey(t.client, t.fileName);
    if i == 0 {
      Opens(s, t, path, m.chunk);
    }
    var s1 := if i == 0 then Ensure(s, key, m.chunk) else s;
    ReadyFlags(s1, t, path, i, rest);
    Writes(s1, t, path, i, rest, m.chunk, n);
  }

  lemma ReadyOrNew(s: Store, t: Transfer, path: string, i: nat, rest: Bytes)
    requires Midway(s, t, path, i, rest) && rest != []
    ensures if i == 0 then ChunkKey(t.client, t.fileName) !in s.open && rest == t.content
            else Ready(s, t, path, i, rest) && ChunkKey(t.client, t.fileName) in s.open
  {}

  lemma ReadyFlags(s: Store, t: Transfer, path: string, i: nat, rest: Bytes)
    requires Ready(s, t, path, i, rest)
    ensures var key := ChunkKey(t.client, t.fileName);
      key in s.open && i < |s.open[key].received| && !s.open[key].received[i]
  {}

  /** A nonempty file arrives whole and its entry is removed, whatever else arrives in between. */
  lemma {:induction false} Interleaved(s: Store, ms: seq<Msg>, t: Transfer, path: string, i: nat, rest: Bytes)
    requires t.chunkSize > 0 && Midway(s, t, path, i, rest) && (i == 0 ==> rest != [])
    requires var total := ChunkCount(|t.content|, t.chunkSize); var key := ChunkKey(t.client, t.fileName);
      && total - i == ChunkCount(|rest|, t.chunkSize)
      && Project(ms, key) == Chunks(t.fileName, rest, i, total, t.chunkSize)
      && Alone(s, ms, {key}, path)
    ensures var key := ChunkKey(t.client, t.fileName); var s' := Run(s, ms);
      && key !in s'.open && path in s'.disk && s'.disk[path] == t.content
      && Smooth(s, ms, key)
    decreases |ms|
  {
    hide ChunkCount, Handle, Midway, Alone;
    var total, key := ChunkCount(|t.content|, t.chunkSize), ChunkKey(t.client, t.fileName);
    if ms == [] {
      Finished(s, t, path, i, rest);
    } else {
      StaysAlone(s, ms, {key}, path);
      if KeyOf(ms[0]) == key {
        var n := if |rest| < t.chunkSize then |rest| else t.chunkSize;
        assert rest != [];
        Arrives(s, ms[0], t, path, i, rest);
        assert Project(ms, key)[1..] == Project(ms[1..], key);
        Interleaved(Step(s, ms[0]), ms[1..], t, path, i + 1, rest[n..]);
      } else {
        AloneHere(s, ms, {key}, path);
        Elsewhere(s, ms[0], t, path, i, rest);
        Interleaved(Step(s, ms[0]), ms[1..], t, path, i, rest);
      }
    }
  }

  lemma AloneHere(s: Store, ms: seq<Msg>, keys: set<string>, path: string)
    requires ms != [] && Alone(s, ms, keys, path) && KeyOf(ms[0]) !in keys
    ensures JoinPath(s.resultPath, ms[0].chunk.fileName) != path
    ensures KeyOf(ms[0]) in s.open ==> s.open[KeyOf(ms[0])].path != path
  {}

  lemma Finished(s: Store, t: Transfer, path: string, i: nat, rest: Bytes)
    requires Midway(s, t, path, i, rest) && rest == [] && i > 0
    ensures ChunkKey(t.client, t.fileName) !in s.open && path in s.disk && s.disk[path] == t.content
  {}

  /** The chunks of a file, sent by one client, survive any interleaving with chunks of other keys
      that go to other paths. */
  lemma RoundTrip(s: Store, ms: seq<Msg>, t: Transfer)
    requires t.chunkSize > 0 && t.content != []
    requires ChunkKey(t.client, t.fileName) !in s.open
    requires Project(ms, ChunkKey(t.client, t.fileName)) == FileChunks(t.fileName, t.content, t.chunkSize)
    requires Alone(s, ms, {ChunkKey(t.client, t.fileName)}, JoinPath(s.resultPath, t.fileName))
    ensures var key := ChunkKey(t.client, t.fileName);
      var path := JoinPath(s.resultPath, t.fileName);
      var s' := Run(s, ms);
      && key !in s'.open && path in s'.disk && s'.disk[path] == t.content
      && Smooth(s, ms, key)
  {
    Interleaved(s, ms, t, JoinPath(s.resultPath, t.fileName), 0, t.content);
  }

  function Messages(client: string, cs: seq<FileChunk>): seq<Msg> {
    seq(|cs|, i requires 0 <= i < |cs| => Msg(client, cs[i]))
  }

  lemma {:induction false} ProjectOwn(client: string, fileName: string, rest: Bytes, i: nat, total: nat, chunkSize: nat)
    requires chunkSize > 0
    ensures var cs := Chunks(fileName, rest, i, total, chunkSize);
      Project(Messages(client, cs), ChunkKey(client, fileName)) == cs
    decreases |rest|
  {
    if rest != [] {
      var n := if |rest| < chunkSize then |rest| else chunkSize;
      var cs := Chunks(fileName, rest, i, total, chunkSize);
      assert Messages(client, cs)[1..] == Messages(client, cs[1..]);
      ProjectOwn(client, fileName, rest[n..], i + 1, total, chunkSize);
    }
  }

  /** Exactly the nonempty files arrive: for an empty file nothing is sent, so the server neither
      creates nor changes anything. */
  lemma ArrivesIffNonempty(s: Store, t: Transfer)
    requires t.chunkSize > 0 && ChunkKey(t.client, t.fileName) !in s.open
    requires JoinPath(s.resultPath, t.fileName) !in s.disk
    requires forall k :: k in s.open ==> s.open[k].path != JoinPath(s.resultPath, t.fileName)
    ensures var s' := Run(s, Messages(t.client, FileChunks(t.fileName, t.content, t.chunkSize)));
      var path := JoinPath(s.resultPath, t.fileName);
      (path in s'.disk && s'.disk[path] == t.content) <==> t.content != []
  {
    var ms := Messages(t.client, FileChunks(t.fileName, t.content, t.chunkSize));
    var key := ChunkKey(t.client, t.fileName);
    ProjectOwn(t.client, t.fileName, t.content, 0, ChunkCount(|t.content|, t.chunkSize), t.chunkSize);
    if t.content != [] {
      OwnKeys(t.client, t.fileName, t.content, 0, ChunkCount(|t.content|, t.chunkSize), t.chunkSize);
      RoundTrip(s, ms, t);
    } else {
      assert ms == [];
    }
  }

  lemma {:induction false} OwnKeys(client: string, fileName: string, rest: Bytes, i: nat, total: nat, chunkSize: nat)
    requires chunkSize > 0
    ensures var cs := Chunks(fileName, rest, i, total, chunkSize);
      forall j :: 0 <= j < |cs| ==> cs[j].fileName == fileName
    decreases |rest|
  {
    if rest != [] {
      var n := if |rest| < chunkSize then |rest| else chunkSize;
      var cs := Chunks(fileName, rest, i, total, chunkSize);
      OwnKeys(client, fileName, rest[n..], i + 1, total, chunkSize);
      assert cs == [cs[0]] + Chunks(fileName, rest[n..], i + 1, total, chunkSize);
    }
  }

  function FirstSeparator(key: string): nat {
    if key == "" || key[0] == '_' then 0 else 1 + FirstSeparator(key[1..])
  }

  lemma {:induction false} SeparatorAt(client: string, fileName: string)
    requires '_' !in client
    ensures FirstSeparator(ChunkKey(client, fileName)) == |client|
  {
    if client != "" {
      assert ChunkKey(client, fileName)[1..] == ChunkKey(client[1..], fileName);
      SeparatorAt(client[1..], fileName);
    }
  }

  /** The key is one string: it tells the sender apart from the file name when client names do not
      contain the separator. */
  lemma KeyInjective(c1: string, f1: string, c2: string, f2: string)
    requires '_' !in c1 && '_' !in c2 && ChunkKey(c1, f1) == ChunkKey(c2, f2)
    ensures c1 == c2 && f1 == f2
  {
    SeparatorAt(c1, f1);
    SeparatorAt(c2, f2);
    var k := ChunkKey(c1, f1);
    assert c1 == k[..|c1|] && f1 == k[|c1| + 1..];
    assert c2 == k[..|c2|] && f2 == k[|c2| + 1..];
  }

  /** Two senders and files have one key exactly if they are the same or one sender's name runs on
      over a separator into the other's file name. */
  lemma KeysEqualIff(c1: string, f1: string, c2: string, f2: string)
    ensures ChunkKey(c1, f1) == ChunkKey(c2, f2) <==>
      (c1 == c2 && f1 == f2) || RunsOn(c1, f1, c2, f2) || RunsOn(c2, f2, c1, f1)
  {
    if ChunkKey(c1, f1) == ChunkKey(c2, f2) {
      if |c1| <= |c2| {
        LongerRunsOn(c1, f1, c2, f2);
      } else {
        LongerRunsOn(c2, f2, c1, f1);
      }
    }
    if RunsOn(c1, f1, c2, f2) {
      RunsOnCollides(c1, f1, c2, f2);
    }
    if RunsOn(c2, f2, c1, f1) {
      RunsOnCollides(c2, f2, c1, f1);
    }
  }

  predicate RunsOn(c1: string, f1: string, c2: string, f2: string) {
    |c1| < |c2| && c2[..|c1|] == c1 && c2[|c1|] == '_' && f1 == c2[|c1| + 1..] + "_" + f2
  }

  lemma RunsOnCollides(c1: string, f1: string, c2: string, f2: string)
    requires RunsOn(c1, f1, c2, f2)
    ensures ChunkKey(c1, f1) == ChunkKey(c2, f2)
  {
    assert c2 == c1 + "_" + c2[|c1| + 1..];
  }

  lemma LongerRunsOn(c1: string, f1: string, c2: string, f2: string)
    requires ChunkKey(c1, f1) == ChunkKey(c2, f2) && |c1| <= |c2|
    ensures (c1 == c2 && f1 == f2) || RunsOn(c1, f1, c2, f2)
  {
    var k := ChunkKey(c1, f1);
    assert c1 == k[..|c1|] && f1 == k[|c1| + 1..] && c2 == k[..|c2|] && f2 == k[|c2| + 1..];
    if |c1| < |c2| {
      assert k[|c1|] == '_' && k[|c2|] == '_';
      assert k[|c1| + 1..] == k[|c1| + 1..|c2|] + [k[|c2|]] + k[|c2| + 1..];
      assert c2[|c1| + 1..] == k[|c1| + 1..|c2|];
    }
  }

  lemma KeyCollision()
    ensures ChunkKey("a", "b_c") == ChunkKey("a_b", "c")
  {
    assert ChunkKey("a", "b_c") == "a_b_c" == ChunkKey("a_b", "c");
  }

  // Any order of arrival.

  function Data(log: seq<FileChunk>): Bytes {
    if log == [] then [] else Data(log[..|log| - 1]) + log[|log| - 1].data
  }

  ghost predicate Distinct(log: seq<FileChunk>) {
    forall i, j :: 0 <= i < j < |log| ==> log[i].chunkIndex != log[j].chunkIndex
  }

  ghost predicate Holds(log: seq<FileChunk>, index: int) {
    exists i :: 0 <= i < |log| && log[i].chunkIndex == index
  }

  /** The chunks written since the file of this key was created. */
  function Log(s: Store, log: seq<FileChunk>, m: Msg): seq<FileChunk> {
    var kept := if KeyOf(m) in s.open then log else [];
    if Answer(s, m) == Nil || Answer(s, m) == Incomplete then kept + [m.chunk] else kept
  }

  function LogRun(s: Store, log: seq<FileChunk>, ms: seq<Msg>): seq<FileChunk>
    decreases |ms|
  {
    if ms == [] then log else LogRun(Step(s, ms[0]), Log(s, log, ms[0]), ms[1..])
  }

  /** What an open file holds is the accepted chunks in order of arrival, no index twice. */
  ghost predicate Faithful(s: Store, log: seq<FileChunk>, key: string) {
    key in s.open ==>
      && Written(s.disk, s.open[key].path) == Data(log) && s.open[key].offset == |Data(log)| && Distinct(log)
      && (forall i :: 0 <= i < |log| ==> 0 <= log[i].chunkIndex < |s.open[key].received|)
      && (forall i :: 0 <= i < |s.open[key].received| ==> (s.open[key].received[i] <==> Holds(log, i)))
  }

  lemma DataPush(log: seq<FileChunk>, c: FileChunk)
    ensures Data(log + [c]) == Data(log) + c.data
  {
    assert (log + [c])[..|log|] == log;
  }

  lemma HoldsPush(log: seq<FileChunk>, c: FileChunk, index: int)
    ensures Holds(log + [c], index) <==> Holds(log, index) || c.chunkIndex == index
  {
    var l := log + [c];
    assert l[|log|] == c;
    if Holds(log, index) {
      var i :| 0 <= i < |log| && log[i].chunkIndex == index;
      assert l[i].chunkIndex == index;
    }
  }

  lemma DistinctPush(log: seq<FileChunk>, c: FileChunk)
    requires Distinct(log) && !Holds(log, c.chunkIndex)
    ensures Distinct(log + [c])
  {}

  /** A final chunk that succeeds closes a file holding every index exactly once. */
  ghost predicate Whole(log: seq<FileChunk>, total: nat) {
    && Distinct(log)
    && (forall i :: 0 <= i < |log| ==> 0 <= log[i].chunkIndex < total)
    && (forall i :: 0 <= i < total ==> Holds(log, i))
  }

  lemma OpenFaithful(s: Store, c: FileChunk, key: string)
    requires key !in s.open && c.totalChunks >= 0
    ensures Faithful(Ensure(s, key, c), [], key)
  {}

  lemma AnyOrderStep(s: Store, log: seq<FileChunk>, m: Msg)
    requires Faithful(s, log, KeyOf(m))
    ensures Faithful(Step(s, m), Log(s, log, m), KeyOf(m))
    ensures Answer(s, m) == Nil && m.chunk.isFinal ==>
      var log' := Log(s, log, m);
      var f := if KeyOf(m) in s.open then s.open[KeyOf(m)]
               else OpenFile(JoinPath(s.resultPath, m.chunk.fileName), 0, AllFalse(m.chunk.totalChunks));
      && Whole(log', |f.received|)
      && KeyOf(m) !in Step(s, m).open
      && Written(Step(s, m).disk, f.path) == Data(log')
  {
    hide Write, Data, Distinct, Holds, AllFalse, Whole;
    var key := KeyOf(m);
    if key !in s.open {
      if m.chunk.totalChunks < 0 {
        return;
      }
      OpenFaithful(s, m.chunk, key);
    }
    var kept := if key in s.open then log else [];
    var s1 := if key in s.open then s else Ensure(s, key, m.chunk);
    assert Faithful(s1, kept, key);
    var got := s1.open[key].received;
    if 0 <= m.chunk.chunkIndex < |got| && !got[m.chunk.chunkIndex] {
      AcceptStep(s1, kept, m.chunk, key);
    }
  }

  /** The answers: a chunk is refused if the same index is already in the file, or there is no such
      index, and only then; and what is refused changes no file that is open. */
  lemma AnswersExact(s: Store, log: seq<FileChunk>, m: Msg)
    requires KeyOf(m) in s.open && Faithful(s, log, KeyOf(m))
    ensures var total, i := |s.open[KeyOf(m)].received|, m.chunk.chunkIndex;
      && (Answer(s, m) == Panic <==> i < 0)
      && (Answer(s, m) == IndexTooLarge <==> i >= total)
      && (Answer(s, m) == AlreadyReceived <==> 0 <= i < total && Holds(log, i))
      && (Answer(s, m) == Incomplete <==>
            && 0 <= i < total && !Holds(log, i) && m.chunk.isFinal
            && exists j :: 0 <= j < total && j != i && !Holds(log, j))
      && (Answer(s, m) != Nil && Answer(s, m) != Incomplete ==> Step(s, m) == s)
  {
    hide Holds, Data, Distinct;
    var got, i := s.open[KeyOf(m)].received, m.chunk.chunkIndex;
    if 0 <= i < |got| && !got[i] {
      var flags := got[i := true];
      if false in flags {
        var j :| 0 <= j < |flags| && !flags[j];
        assert j != i && !got[j];
      }
      if j :| 0 <= j < |got| && j != i && !Holds(log, j) {
        assert flags[j] == false;
      }
    }
  }

  /** The first chunk of a transfer is answered as if the transfer had been open; one that is refused
      leaves it open on an empty file, and one with a negative total only empties the file. */
  lemma FirstAnswer(s: Store, m: Msg)
    requires KeyOf(m) !in s.open
    ensures var path := JoinPath(s.resultPath, m.chunk.fileName);
      if m.chunk.totalChunks < 0 then Answer(s, m) == Panic && Step(s, m) == s.(disk := s.disk[path := []])
      else
        && Answer(s, m) == Answer(Ensure(s, KeyOf(m), m.chunk), m)
        && Step(s, m) == Step(Ensure(s, KeyOf(m), m.chunk), m)
        && (Answer(s, m) != Nil && Answer(s, m) != Incomplete ==>
              KeyOf(m) in Step(s, m).open && Step(s, m).disk == s.disk[path := []])
  {
    hide Placed, AllFalse;
  }

  /** A connection without a name is refused, and only that, before anything else. */
  lemma OnlyRegistered(s: Store, client: Option<string>, c: FileChunk)
    ensures Handle(s, client, c).1 == NotRegistered <==> client.None?
    ensures client.None? ==> Handle(s, client, c).0 == s
  {
    hide Placed;
  }

  lemma AcceptStep(s: Store, log: seq<FileChunk>, c: FileChunk, key: string)
    requires key in s.open && Faithful(s, log, key)
    requires 0 <= c.chunkIndex < |s.open[key].received| && !s.open[key].received[c.chunkIndex]
    ensures var (s', r) := Write(s, key, c);
      && (r == Nil || r == Incomplete) && (c.isFinal ==> key !in s'.open)
      && Faithful(s', log + [c], key)
      && Written(s'.disk, s.open[key].path) == Data(log + [c])
      && (c.isFinal && r == Nil ==> Whole(log + [c], |s.open[key].received|))
  {
    hide Data, Distinct, Holds;
    DataPush(log, c);
    WrittenAtEnd(Data(log), c.data);
    var got := s.open[key].received[c.chunkIndex := true];
    DistinctPush(log, c);
    forall i | 0 <= i < |got| ensures got[i] <==> Holds(log + [c], i) {
      HoldsPush(log, c, i);
    }
    if c.isFinal && false !in got {
      forall i | 0 <= i < |got| ensures Holds(log + [c], i) {
        assert got[i] in got;
      }
    }
  }

  /** Chunks of one key in any order, repeated or missing. */
  lemma {:induction false} AnyOrder(s: Store, log: seq<FileChunk>, ms: seq<Msg>, key: string)
    requires Faithful(s, log, key) && forall i :: 0 <= i < |ms| ==> KeyOf(ms[i]) == key
    ensures Faithful(Run(s, ms), LogRun(s, log, ms), key)
    decreases |ms|
  {
    hide Faithful, Handle, Log;
    if ms != [] {
      AnyOrderStep(s, log, ms[0]);
      AnyOrder(Step(s, ms[0]), Log(s, log, ms[0]), ms[1..], key);
    }
  }

  // When success means the original.

  /** The chunks carry the pieces their indices name. */
  ghost predicate Carries(log: seq<FileChunk>, pieces: seq<Bytes>) {
    forall i :: 0 <= i < |log| ==> 0 <= log[i].chunkIndex < |pieces| && log[i].data == pieces[log[i].chunkIndex]
  }

  ghost predicate SameOrder(log: seq<FileChunk>, arrival: seq<FileChunk>) {
    |log| == |arrival| && forall i :: 0 <= i < |log| ==> log[i].chunkIndex == arrival[i].chunkIndex
  }

  predicate InOrder(log: seq<FileChunk>) { forall i :: 0 <= i < |log| ==> log[i].chunkIndex == i }

  function Original(pieces: seq<Bytes>): Bytes {
    if pieces == [] then [] else Original(pieces[..|pieces| - 1]) + pieces[|pieces| - 1]
  }

  lemma {:induction false} InOrderData(log: seq<FileChunk>, pieces: seq<Bytes>, n: nat)
    requires Carries(log, pieces) && InOrder(log) && n <= |log| && n <= |pieces|
    ensures Data(log[..n]) == Original(pieces[..n])
  {
    if n > 0 {
      InOrderData(log, pieces, n - 1);
      assert log[..n][..n - 1] == log[..n - 1] && pieces[..n][..n - 1] == pieces[..n - 1];
    }
  }

  lemma InOrderRestores(log: seq<FileChunk>, pieces: seq<Bytes>)
    requires Whole(log, |pieces|) && Carries(log, pieces) && InOrder(log)
    ensures Data(log) == Original(pieces)
  {
    assert |log| > 0 ==> log[|log| - 1].chunkIndex == |log| - 1;
    assert |log| < |pieces| ==> Holds(log, |log|);
    InOrderData(log, pieces, |log|);
    assert log[..|log|] == log && pieces[..|pieces|] == pieces;
  }

  /** Pieces of one byte, of which only the k-th is 1. */
  function Sentinel(n: nat, k: nat): seq<Bytes> { seq(n, i => if i == k then [1] else [0]) }

  lemma {:induction false} OneByteData(log: seq<FileChunk>)
    requires forall i :: 0 <= i < |log| ==> |log[i].data| == 1
    ensures |Data(log)| == |log| && forall i :: 0 <= i < |log| ==> Data(log)[i] == log[i].data[0]
  {
    if log != [] {
      OneByteData(log[..|log| - 1]);
    }
  }

  lemma {:induction false} OneByteOriginal(pieces: seq<Bytes>)
    requires forall i :: 0 <= i < |pieces| ==> |pieces[i]| == 1
    ensures |Original(pieces)| == |pieces| && forall i :: 0 <= i < |pieces| ==> Original(pieces)[i] == pieces[i][0]
  {
    if pieces != [] {
      OneByteOriginal(pieces[..|pieces| - 1]);
    }
  }

  function Refilled(log: seq<FileChunk>, pieces: seq<Bytes>): seq<FileChunk>
    requires forall i :: 0 <= i < |log| ==> 0 <= log[i].chunkIndex < |pieces|
  {
    seq(|log|, i requires 0 <= i < |log| => log[i].(data := pieces[log[i].chunkIndex]))
  }

  /** In any other order there is a file that is not restored. */
  lemma OutOfOrder(arrival: seq<FileChunk>, n: nat, i: nat) returns (log: seq<FileChunk>, pieces: seq<Bytes>)
    requires Whole(arrival, n) && i < |arrival| && arrival[i].chunkIndex != i
    ensures |pieces| == n && SameOrder(log, arrival) && Carries(log, pieces) && Data(log) != Original(pieces)
  {
    pieces := Sentinel(n, arrival[i].chunkIndex);
    log := Refilled(arrival, pieces);
    OneByteData(log);
    OneByteOriginal(pieces);
    hide Data, Original;
    if i < n {
      assert Data(log)[i] == 1 && Original(pieces)[i] == 0;
    } else {
      assert |Data(log)| > |Original(pieces)|;
    }
  }

  /** The chunks of a transfer that succeeded are a whole log, and the file is their data. Whatever the
      file, it is the original exactly if they arrived in the order of their indices. */
  lemma OriginalIffInOrder(arrival: seq<FileChunk>, n: nat)
    requires Whole(arrival, n)
    ensures (forall log, pieces :: |pieces| == n && SameOrder(log, arrival) && Carries(log, pieces) ==>
               Data(log) == Original(pieces))
      <==> InOrder(arrival)
  {
    if InOrder(arrival) {
      forall log, pieces | |pieces| == n && SameOrder(log, arrival) && Carries(log, pieces)
        ensures Data(log) == Original(pieces)
      {
        WholeAlike(log, arrival, n);
        InOrderRestores(log, pieces);
      }
    } else {
      var i :| 0 <= i < |arrival| && arrival[i].chunkIndex != i;
      var log, pieces := OutOfOrder(arrival, n, i);
    }
  }

  lemma WholeAlike(log: seq<FileChunk>, arrival: seq<FileChunk>, n: nat)
    requires Whole(arrival, n) && SameOrder(log, arrival)
    ensures Whole(log, n) && (InOrder(arrival) ==> InOrder(log))
  {
    forall i | 0 <= i < n ensures Holds(log, i) {
      assert Holds(arrival, i);
    }
  }

  /** Success does not mean the original: the indices are not used to place the data. */
  lemma OrderMatters()
    ensures var a, b, c := FileChunk("f", 0, 3, [1], false), FileChunk("f", 1, 3, [2], false),
      FileChunk("f", 2, 3, [3], true);
      var ms := [Msg("p", b), Msg("p", a), Msg("p", c)];
      var s := Store("d", map[], map[]);
      Smooth(s, ms, ChunkKey("p", "f")) && Written(Run(s, ms).disk, JoinPath("d", "f")) == [2, 1, 3]
  {
    var a, b, c := FileChunk("f", 0, 3, [1], false), FileChunk("f", 1, 3, [2], false), FileChunk("f", 2, 3, [3], true);
    var s0 := Store("d", map[], map[]);
    var key, path := ChunkKey("p", "f"), JoinPath("d", "f");
    var m0, m1, m2 := Msg("p", b), Msg("p", a), Msg("p", c);
    var s1 := Step(s0, m0);
    assert KeyOf(m0) == key && s1.open[key] == OpenFile(path, 1, AllFalse(3)[1 := true]) && s1.disk[path] == [] + [2];
    var s2 := Step(s1, m1);
    assert s2.open[key] == OpenFile(path, 2, AllFalse(3)[1 := true][0 := true]) && s2.disk[path] == [2] + [1];
    var s3 := Step(s2, m2);
    assert AllFalse(3)[1 := true][0 := true][2 := true] == [true, true, true];
    assert s3.disk[path] == [2, 1] + [3] && Answer(s2, m2) == Nil;
    var ms := [m0, m1, m2];
    assert ms[1..] == [m1, m2] && [m1, m2][1..] == [m2] && [m2][1..] == [];
    assert Run(s2, [m2]) == s3 && Smooth(s2, [m2], key);
    assert Run(s1, [m1, m2]) == s3 && Smooth(s1, [m1, m2], key);
  }
}
