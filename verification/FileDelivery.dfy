/** The uploads of many peers, over many cases, reassembled by one server. */
module FileDelivery {
  import opened Wire
  import opened ChunkTransfer
  import opened ChunkServer
  import opened ChunkTheorems

  /** What stands for numbers: client names and result paths. */
  datatype Naming = Naming(name: Name -> string, dir: nat -> string)

  /** A chunk with its sender and its case. */
  datatype Delivery = Delivery(from: Name, origin: nat, chunk: FileChunk)

  /** A large file that a peer leaves in a case. */
  datatype Slot = Slot(origin: nat, name: string, content: Bytes)

  type Tagged = (nat, FileChunk)

  function At(nm: Naming, s: Store, origin: nat): Store { s.(resultPath := nm.dir(origin)) }

  function MsgOf(nm: Naming, x: Delivery): Msg { Msg(nm.name(x.from), x.chunk) }

  /** The server, at the result path of the case, handles a chunk. */
  function Serve(nm: Naming, s: Store, x: Delivery): Store { Step(At(nm, s, x.origin), MsgOf(nm, x)) }

  function ServeAll(nm: Naming, s: Store, xs: seq<Delivery>): Store {
    if xs == [] then s else Serve(nm, ServeAll(nm, s, xs[..|xs| - 1]), xs[|xs| - 1])
  }

  /** The answer to the n-th chunk. */
  function AnswerTo(nm: Naming, s: Store, xs: seq<Delivery>, n: nat): ChunkServer.Outcome
    requires n < |xs|
  {
    Answer(At(nm, ServeAll(nm, s, xs[..n]), xs[n].origin), MsgOf(nm, xs[n]))
  }

  /** The chunks of one peer. */
  function From(xs: seq<Delivery>, p: Name): seq<Tagged> {
    if xs == [] then []
    else
      var x := xs[|xs| - 1];
      From(xs[..|xs| - 1], p) + if x.from == p then [(x.origin, x.chunk)] else []
  }

  // What a peer sends.

  function Tag(origin: nat, cs: seq<FileChunk>): seq<Tagged> {
    seq(|cs|, i requires 0 <= i < |cs| => (origin, cs[i]))
  }

  /** The chunks of the files from the j-th on, one file after the other. */
  function Stream(slots: seq<Slot>, size: nat, j: nat): seq<Tagged>
    requires size > 0 && j <= |slots|
    decreases |slots| - j
  {
    if j == |slots| then []
    else Tag(slots[j].origin, FileChunks(slots[j].name, slots[j].content, size)) + Stream(slots, size, j + 1)
  }

  /** The peer is at file j, of which i chunks are through and `rest` is left. */
  datatype Cursor = Cursor(j: nat, i: nat, rest: Bytes)

  predicate Sits(slots: seq<Slot>, size: nat, c: Cursor)
    requires size > 0
  {
    if c.j < |slots| then
      && c.rest != [] && c.i + ChunkCount(|c.rest|, size) == ChunkCount(|slots[c.j].content|, size)
      && (c.i == 0 ==> c.rest == slots[c.j].content)
    else c.j == |slots| && c.i == 0
  }

  function Remaining(slots: seq<Slot>, size: nat, c: Cursor): seq<Tagged>
    requires size > 0 && Sits(slots, size, c)
  {
    if c.j == |slots| then []
    else
      var f := slots[c.j];
      Tag(f.origin, Chunks(f.name, c.rest, c.i, ChunkCount(|f.content|, size), size)) + Stream(slots, size, c.j + 1)
  }

  /** The start of the next file that is not empty. */
  function Open(slots: seq<Slot>, j: nat): Cursor
    requires j <= |slots|
    decreases |slots| - j
  {
    if j == |slots| then Cursor(j, 0, [])
    else if slots[j].content == [] then Open(slots, j + 1)
    else Cursor(j, 0, slots[j].content)
  }

  lemma SitsAtStart(slots: seq<Slot>, size: nat, j: nat)
    requires size > 0 && j < |slots| && slots[j].content != []
    ensures var c := Cursor(j, 0, slots[j].content);
      Sits(slots, size, c) && Remaining(slots, size, c) == Stream(slots, size, j)
  {
    hide ChunkCount, Chunks, Tag;
  }

  lemma SkipsEmpty(slots: seq<Slot>, size: nat, j: nat)
    requires size > 0 && j < |slots| && slots[j].content == []
    ensures Stream(slots, size, j) == Stream(slots, size, j + 1)
  {
    hide ChunkCount;
    assert Tag(slots[j].origin, []) == [];
    assert [] + Stream(slots, size, j + 1) == Stream(slots, size, j + 1);
  }

  lemma {:induction false} OpenSits(slots: seq<Slot>, size: nat, j: nat)
    requires size > 0 && j <= |slots|
    ensures var c := Open(slots, j);
      && j <= c.j && Sits(slots, size, c) && Remaining(slots, size, c) == Stream(slots, size, j)
      && forall l :: j <= l < c.j ==> slots[l].content == []
    decreases |slots| - j
  {
    hide ChunkCount, Chunks, Tag, FileChunks;
    if j < |slots| {
      if slots[j].content == [] {
        OpenSits(slots, size, j + 1);
        SkipsEmpty(slots, size, j);
        hide Stream, Sits, Remaining;
      } else {
        SitsAtStart(slots, size, j);
      }
    }
  }

  function Cut(rest: Bytes, size: nat): nat { if |rest| < size then |rest| else size }

  /** The cursor after one chunk. */
  function Forward(slots: seq<Slot>, size: nat, c: Cursor): Cursor
    requires c.j < |slots|
  {
    var left := c.rest[Cut(c.rest, size)..];
    if left == [] then Open(slots, c.j + 1) else Cursor(c.j, c.i + 1, left)
  }

  lemma TagFirst(origin: nat, c: FileChunk, cs: seq<FileChunk>)
    ensures Tag(origin, [c] + cs) == [(origin, c)] + Tag(origin, cs)
  {}

  lemma ForwardStream(slots: seq<Slot>, size: nat, c: Cursor)
    requires size > 0 && Sits(slots, size, c) && c.j < |slots|
    ensures var f := slots[c.j];
      var cs := Chunks(f.name, c.rest, c.i, ChunkCount(|f.content|, size), size);
      && cs != [] && Sits(slots, size, Forward(slots, size, c))
      && Remaining(slots, size, c) == [(f.origin, cs[0])] + Remaining(slots, size, Forward(slots, size, c))
  {
    var f := slots[c.j];
    var total, left := ChunkCount(|f.content|, size), c.rest[Cut(c.rest, size)..];
    CountStep(|c.rest|, size);
    CountStep(|c.rest| - Cut(c.rest, size), size);
    OpenSits(slots, size, c.j + 1);
    hide ChunkCount, Open;
    var cs := Chunks(f.name, c.rest, c.i, total, size);
    var next := Chunks(f.name, left, c.i + 1, total, size);
    assert cs == [cs[0]] + next;
    TagFirst(f.origin, cs[0], next);
    hide Chunks, Tag;
    assert Tag(f.origin, cs) + Stream(slots, size, c.j + 1)
      == [(f.origin, cs[0])] + (Tag(f.origin, next) + Stream(slots, size, c.j + 1));
    if left == [] {
      NoChunks(f, c.i + 1, total, size);
      assert [] + Stream(slots, size, c.j + 1) == Stream(slots, size, c.j + 1);
    }
  }

  lemma NoChunks(f: Slot, i: nat, total: nat, size: nat)
    requires size > 0
    ensures Tag(f.origin, Chunks(f.name, [], i, total, size)) == []
  {}

  // The server.

  function PathOf(nm: Naming, f: Slot): string { JoinPath(nm.dir(f.origin), f.name) }

  function KeyAt(nm: Naming, p: Name, f: Slot): string { ChunkKey(nm.name(p), f.name) }

  /** No two files share a path, and no two peers a chunk key. */
  ghost predicate Apart(nm: Naming, all: seq<seq<Slot>>) {
    && (forall p, j, q, l :: 0 <= p < |all| && 0 <= j < |all[p]| && 0 <= q < |all| && 0 <= l < |all[q]|
          ==> (p, j) != (q, l) ==> PathOf(nm, all[p][j]) != PathOf(nm, all[q][l]))
    && (forall p, j, q, l :: 0 <= p < |all| && 0 <= j < |all[p]| && 0 <= q < |all| && 0 <= l < |all[q]|
          ==> p != q ==> KeyAt(nm, p, all[p][j]) != KeyAt(nm, q, all[q][l]))
  }

  // Names and paths.

  /** The path is that of a file of this name in this directory. */
  predicate LiesIn(path: string, dir: string, name: string) {
    |path| == |dir| + 1 + |name| && path[..|dir|] == dir && path[|dir|] == '/' && path[|dir| + 1..] == name
  }

  /** A path can be read only as that of one file in one directory. */
  lemma LiesInOne(path: string, d: string, f: string, e: string, g: string)
    requires '/' !in f && '/' !in g && LiesIn(path, d, f) && LiesIn(path, e, g)
    ensures d == e && f == g
  {
    if |d| < |e| {
      SlashInName(path, d, f, e, g);
    } else if |e| < |d| {
      SlashInName(path, e, g, d, f);
    }
  }

  lemma SlashInName(path: string, d: string, f: string, e: string, g: string)
    requires LiesIn(path, d, f) && LiesIn(path, e, g) && |d| < |e|
    ensures '/' in f
  {
    assert path[|e|] == f[|e| - |d| - 1];
  }

  /** Two files have one path exactly if they have one name and are in one directory. */
  lemma PathsEqualIff(d: string, f: string, e: string, g: string)
    requires '/' !in f && '/' !in g
    ensures JoinPath(d, f) == JoinPath(e, g) <==> d == e && f == g
    ensures LiesIn(JoinPath(d, f), d, f)
  {
    if JoinPath(d, f) == JoinPath(e, g) {
      LiesInOne(JoinPath(d, f), d, f, e, g);
    }
  }

  /** Clients have different names without an underscore, cases different directories, and no two files
      of one case have one name. */
  ghost predicate NamesApart(nm: Naming, all: seq<seq<Slot>>) {
    && (forall p :: 0 <= p < |all| ==> '_' !in nm.name(p))
    && (forall p, q :: 0 <= p < q < |all| ==> nm.name(p) != nm.name(q))
    && (forall j, k: nat :: j != k ==> nm.dir(j) != nm.dir(k))
    && (forall p, j :: 0 <= p < |all| && 0 <= j < |all[p]| ==> '/' !in all[p][j].name)
    && (forall p, j, q, l :: 0 <= p < |all| && 0 <= j < |all[p]| && 0 <= q < |all| && 0 <= l < |all[q]|
          ==> (p, j) != (q, l) ==> all[p][j].origin != all[q][l].origin || all[p][j].name != all[q][l].name)
  }

  /** One name may be used again in another case, and one file name by several clients there. */
  lemma ApartByName(nm: Naming, all: seq<seq<Slot>>)
    requires NamesApart(nm, all)
    ensures Apart(nm, all)
  {
    hide JoinPath, ChunkKey;
    forall p, j, q, l | 0 <= p < |all| && 0 <= j < |all[p]| && 0 <= q < |all| && 0 <= l < |all[q]|
      ensures (p, j) != (q, l) ==> PathOf(nm, all[p][j]) != PathOf(nm, all[q][l])
      ensures p != q ==> KeyAt(nm, p, all[p][j]) != KeyAt(nm, q, all[q][l])
    {
      var f, g := all[p][j], all[q][l];
      PathsEqualIff(nm.dir(f.origin), f.name, nm.dir(g.origin), g.name);
      KeysEqualIff(nm.name(p), f.name, nm.name(q), g.name);
    }
  }

  function TransferOf(nm: Naming, p: Name, f: Slot, size: nat): Transfer {
    Transfer(nm.name(p), f.name, f.content, size)
  }

  ghost predicate Under(nm: Naming, all: seq<seq<Slot>>, size: nat, cs: seq<Cursor>, s: Store, p: nat)
    requires size > 0 && |cs| == |all| && p < |all|
  {
    var c := cs[p];
    && Sits(all[p], size, c)
    && (c.i > 0 ==> Ready(s, TransferOf(nm, p, all[p][c.j], size), PathOf(nm, all[p][c.j]), c.i, c.rest))
    && forall l :: 0 <= l < c.j && all[p][l].content != [] ==>
         Written(s.disk, PathOf(nm, all[p][l])) == all[p][l].content
  }

  /** The transfers open are those under way. */
  ghost predicate OnlyThese(nm: Naming, all: seq<seq<Slot>>, cs: seq<Cursor>, s: Store)
    requires |cs| == |all|
  {
    forall key :: key in s.open ==>
      exists p :: 0 <= p < |all| && cs[p].i > 0 && cs[p].j < |all[p]| && key == KeyAt(nm, p, all[p][cs[p].j])
  }

  ghost predicate Serving(nm: Naming, all: seq<seq<Slot>>, size: nat, cs: seq<Cursor>, s: Store)
    requires size > 0
  {
    && |cs| == |all| && OnlyThese(nm, all, cs, s)
    && forall p :: 0 <= p < |all| ==> Under(nm, all, size, cs, s, p)
  }

  lemma OpenKeys(s: Store, m: Msg, k: string)
    requires k in Step(s, m).open && k != KeyOf(m)
    ensures k in s.open
  {}

  lemma DiskElsewhere(s: Store, m: Msg, path: string)
    requires JoinPath(s.resultPath, m.chunk.fileName) != path
    requires KeyOf(m) in s.open ==> s.open[KeyOf(m)].path != path
    ensures Written(Step(s, m).disk, path) == Written(s.disk, path)
  {}

  lemma ReadyAt(nm: Naming, s: Store, origin: nat, t: Transfer, path: string, i: nat, rest: Bytes)
    ensures Ready(At(nm, s, origin), t, path, i, rest) == Ready(s, t, path, i, rest)
  {}

  /** Where a chunk of peer p, at its file f, goes: nobody else's key and nobody else's path. */
  lemma OwnTarget(nm: Naming, all: seq<seq<Slot>>, size: nat, cs: seq<Cursor>, s: Store, p: nat)
    requires size > 0 && Serving(nm, all, size, cs, s) && Apart(nm, all) && p < |all| && cs[p].j < |all[p]|
    ensures var f := all[p][cs[p].j];
      && (KeyAt(nm, p, f) in s.open <==> cs[p].i > 0)
      && (KeyAt(nm, p, f) in s.open ==> s.open[KeyAt(nm, p, f)].path == PathOf(nm, f))
  {
    hide PathOf;
    var f := all[p][cs[p].j];
    assert Under(nm, all, size, cs, s, p);
    if KeyAt(nm, p, f) in s.open {
      var q :| 0 <= q < |all| && cs[q].i > 0 && cs[q].j < |all[q]| && KeyAt(nm, p, f) == KeyAt(nm, q, all[q][cs[q].j]);
      assert q == p;
    }
  }

  lemma OwnArrives(nm: Naming, all: seq<seq<Slot>>, size: nat, cs: seq<Cursor>, s: Store, p: nat, x: Delivery)
    requires size > 0 && Serving(nm, all, size, cs, s) && Apart(nm, all) && p < |all| && cs[p].j < |all[p]|
    requires var f, c := all[p][cs[p].j], cs[p];
      var chunks := Chunks(f.name, c.rest, c.i, ChunkCount(|f.content|, size), size);
      chunks != [] && x == Delivery(p, f.origin, chunks[0])
    ensures Answer(At(nm, s, x.origin), MsgOf(nm, x)) == Nil
    ensures var f, c := all[p][cs[p].j], cs[p];
      Midway(Serve(nm, s, x), TransferOf(nm, p, f, size), PathOf(nm, f), c.i + 1, c.rest[Cut(c.rest, size)..])
  {
    hide ChunkCount, Ready, Handle, Apart, Chunks;
    var f, c := all[p][cs[p].j], cs[p];
    OwnTarget(nm, all, size, cs, s, p);
    assert Under(nm, all, size, cs, s, p);
    var t, s0 := TransferOf(nm, p, f, size), At(nm, s, f.origin);
    ReadyAt(nm, s, f.origin, t, PathOf(nm, f), c.i, c.rest);
    assert MsgOf(nm, x).chunk.fileName == f.name by {
      ChunkName(f.name, c.rest, c.i, ChunkCount(|f.content|, size), size);
    }
    Arrives(s0, MsgOf(nm, x), t, PathOf(nm, f), c.i, c.rest);
  }

  lemma ChunkName(name: string, rest: Bytes, i: nat, total: nat, size: nat)
    requires size > 0 && Chunks(name, rest, i, total, size) != []
    ensures Chunks(name, rest, i, total, size)[0].fileName == name
  {}

  /** The other peers' transfers and all finished files are left alone. */
  lemma OthersKept(nm: Naming, all: seq<seq<Slot>>, size: nat, cs: seq<Cursor>, s: Store, p: nat, x: Delivery, q: nat)
    requires size > 0 && Serving(nm, all, size, cs, s) && Apart(nm, all) && p < |all| && cs[p].j < |all[p]|
    requires x.from == p && x.origin == all[p][cs[p].j].origin && x.chunk.fileName == all[p][cs[p].j].name
    requires q < |all| && q != p
    ensures Under(nm, all, size, cs, Serve(nm, s, x), q)
  {
    hide ChunkCount, Ready, Handle, Step, Written;
    OwnTarget(nm, all, size, cs, s, p);
    var f, c, s0 := all[p][cs[p].j], cs[q], At(nm, s, x.origin);
    assert Under(nm, all, size, cs, s, q);
    assert KeyOf(MsgOf(nm, x)) == KeyAt(nm, p, f) && JoinPath(s0.resultPath, x.chunk.fileName) == PathOf(nm, f);
    hide PathOf, KeyAt, KeyOf;
    if c.i > 0 {
      var g := all[q][c.j];
      assert PathOf(nm, f) != PathOf(nm, g);
      OtherKept(nm, s, x, TransferOf(nm, q, g, size), PathOf(nm, g), c.i, c.rest);
    }
    forall l | 0 <= l < c.j && all[q][l].content != []
      ensures Written(Serve(nm, s, x).disk, PathOf(nm, all[q][l])) == all[q][l].content
    {
      assert PathOf(nm, f) != PathOf(nm, all[q][l]);
      DiskElsewhere(s0, MsgOf(nm, x), PathOf(nm, all[q][l]));
    }
  }

  lemma OtherKept(nm: Naming, s: Store, x: Delivery, t: Transfer, path: string, i: nat, rest: Bytes)
    requires Ready(s, t, path, i, rest) && i > 0 && rest != []
    requires KeyOf(MsgOf(nm, x)) != ChunkKey(t.client, t.fileName)
    requires JoinPath(nm.dir(x.origin), x.chunk.fileName) != path
    requires KeyOf(MsgOf(nm, x)) in s.open ==> s.open[KeyOf(MsgOf(nm, x))].path != path
    ensures Ready(Serve(nm, s, x), t, path, i, rest)
  {
    hide Step, Ready;
    ReadyAt(nm, s, x.origin, t, path, i, rest);
    Elsewhere(At(nm, s, x.origin), MsgOf(nm, x), t, path, i, rest);
  }

  lemma OwnMoves(nm: Naming, all: seq<seq<Slot>>, size: nat, cs: seq<Cursor>, s: Store, p: nat, x: Delivery)
    requires size > 0 && Serving(nm, all, size, cs, s) && Apart(nm, all) && p < |all| && cs[p].j < |all[p]|
    requires x.from == p && x.origin == all[p][cs[p].j].origin && x.chunk.fileName == all[p][cs[p].j].name
    requires var f, c := all[p][cs[p].j], cs[p];
      Midway(Serve(nm, s, x), TransferOf(nm, p, f, size), PathOf(nm, f), c.i + 1, c.rest[Cut(c.rest, size)..])
    ensures Under(nm, all, size, cs[p := Forward(all[p], size, cs[p])], Serve(nm, s, x), p)
    ensures var f, c' := all[p][cs[p].j], Forward(all[p], size, cs[p]);
      KeyAt(nm, p, f) in Serve(nm, s, x).open ==> c'.i > 0 && c'.j == cs[p].j
  {
    hide ChunkCount, Ready, Handle, Step, Written, Stream, FileChunks, Chunks, Tag;
    assert Under(nm, all, size, cs, s, p);
    var f, c, s' := all[p][cs[p].j], cs[p], Serve(nm, s, x);
    var c' := Forward(all[p], size, c);
    ForwardStream(all[p], size, c);
    OpenSits(all[p], size, c.j + 1);
    OwnTarget(nm, all, size, cs, s, p);
    var left := c.rest[Cut(c.rest, size)..];
    if left == [] {
      OpenFresh(all[p], c.j + 1);
      WrittenIs(s', PathOf(nm, f), f.content);
    }
    forall l | 0 <= l < c'.j && all[p][l].content != []
      ensures Written(s'.disk, PathOf(nm, all[p][l])) == all[p][l].content
    {
      if l < c.j {
        assert (p, c.j) != (p, l);
        assert PathOf(nm, f) != PathOf(nm, all[p][l]);
        assert KeyOf(MsgOf(nm, x)) == KeyAt(nm, p, f);
        DiskElsewhere(At(nm, s, x.origin), MsgOf(nm, x), PathOf(nm, all[p][l]));
      }
    }
  }

  lemma WrittenIs(s: Store, path: string, content: Bytes)
    requires path in s.disk && s.disk[path] == content
    ensures Written(s.disk, path) == content
  {}

  lemma OnlyTheseKept(nm: Naming, all: seq<seq<Slot>>, size: nat, cs: seq<Cursor>, s: Store, p: nat, x: Delivery)
    requires size > 0 && |cs| == |all| && OnlyThese(nm, all, cs, s) && p < |all| && cs[p].j < |all[p]|
    requires x.from == p && x.chunk.fileName == all[p][cs[p].j].name
    requires var f, c' := all[p][cs[p].j], Forward(all[p], size, cs[p]);
      KeyAt(nm, p, f) in Serve(nm, s, x).open ==> c'.i > 0 && c'.j == cs[p].j
    ensures OnlyThese(nm, all, cs[p := Forward(all[p], size, cs[p])], Serve(nm, s, x))
  {
    hide Step, Forward;
    var f, c', s' := all[p][cs[p].j], Forward(all[p], size, cs[p]), Serve(nm, s, x);
    var cs' := cs[p := c'];
    assert KeyOf(MsgOf(nm, x)) == KeyAt(nm, p, f);
    hide KeyAt, KeyOf;
    forall key | key in s'.open
      ensures exists q :: 0 <= q < |all| && cs'[q].i > 0 && cs'[q].j < |all[q]| && key == KeyAt(nm, q, all[q][cs'[q].j])
    {
      if key == KeyAt(nm, p, f) {
        assert cs'[p].i > 0;
      } else {
        OpenKeys(At(nm, s, x.origin), MsgOf(nm, x), key);
        var q :| 0 <= q < |all| && cs[q].i > 0 && cs[q].j < |all[q]| && key == KeyAt(nm, q, all[q][cs[q].j]);
        assert q != p && cs'[q] == cs[q];
      }
    }
  }

  /** The next chunk of a peer is accepted, and the server stays in step with all peers. */
  lemma ServeOne(nm: Naming, all: seq<seq<Slot>>, size: nat, cs: seq<Cursor>, s: Store, x: Delivery)
    requires size > 0 && Serving(nm, all, size, cs, s) && Apart(nm, all) && x.from < |all|
    requires Sits(all[x.from], size, cs[x.from])
    requires [(x.origin, x.chunk)] <= Remaining(all[x.from], size, cs[x.from])
    ensures Answer(At(nm, s, x.origin), MsgOf(nm, x)) == Nil
    ensures cs[x.from].j < |all[x.from]|
    ensures Serving(nm, all, size, cs[x.from := Forward(all[x.from], size, cs[x.from])], Serve(nm, s, x))
  {
    var p := x.from;
    NextChunk(all[p], size, cs[p], x);
    hide Remaining, Chunks, ChunkCount, Apart, Serve, Answer, Midway, Forward, OnlyThese, Sits, Under;
    OwnArrives(nm, all, size, cs, s, p, x);
    OwnMoves(nm, all, size, cs, s, p, x);
    OnlyTheseKept(nm, all, size, cs, s, p, x);
    hide Serving;
    AllUnder(nm, all, size, cs, s, p, x);
    ServingNow(nm, all, size, cs[p := Forward(all[p], size, cs[p])], Serve(nm, s, x));
  }

  lemma AllUnder(nm: Naming, all: seq<seq<Slot>>, size: nat, cs: seq<Cursor>, s: Store, p: nat, x: Delivery)
    requires size > 0 && Serving(nm, all, size, cs, s) && Apart(nm, all) && p < |all| && cs[p].j < |all[p]|
    requires x.from == p && x.origin == all[p][cs[p].j].origin && x.chunk.fileName == all[p][cs[p].j].name
    requires Under(nm, all, size, cs[p := Forward(all[p], size, cs[p])], Serve(nm, s, x), p)
    ensures var cs', s' := cs[p := Forward(all[p], size, cs[p])], Serve(nm, s, x);
      forall q :: 0 <= q < |all| ==> Under(nm, all, size, cs', s', q)
  {
    hide Apart, Serve, Forward, Under, OnlyThese;
    var cs', s' := cs[p := Forward(all[p], size, cs[p])], Serve(nm, s, x);
    forall q | 0 <= q < |all| ensures Under(nm, all, size, cs', s', q) {
      if q != p {
        OthersKept(nm, all, size, cs, s, p, x, q);
        SameCursor(nm, all, size, cs, cs', s', q);
      }
    }
  }

  lemma ServingNow(nm: Naming, all: seq<seq<Slot>>, size: nat, cs: seq<Cursor>, s: Store)
    requires size > 0 && |cs| == |all| && OnlyThese(nm, all, cs, s)
    requires forall q :: 0 <= q < |all| ==> Under(nm, all, size, cs, s, q)
    ensures Serving(nm, all, size, cs, s)
  {
    hide Under, OnlyThese;
  }

  lemma SameCursor(nm: Naming, all: seq<seq<Slot>>, size: nat, cs: seq<Cursor>, cs': seq<Cursor>, s: Store, q: nat)
    requires size > 0 && |cs| == |cs'| == |all| && q < |all| && cs[q] == cs'[q]
    ensures Under(nm, all, size, cs, s, q) == Under(nm, all, size, cs', s, q)
  {}

  lemma NextChunk(slots: seq<Slot>, size: nat, c: Cursor, x: Delivery)
    requires size > 0 && Sits(slots, size, c) && [(x.origin, x.chunk)] <= Remaining(slots, size, c)
    ensures c.j < |slots|
    ensures var f := slots[c.j];
      var chunks := Chunks(f.name, c.rest, c.i, ChunkCount(|f.content|, size), size);
      chunks != [] && x.origin == f.origin && x.chunk == chunks[0] && x.chunk.fileName == f.name
  {
    assert Remaining(slots, size, c)[0] == (x.origin, x.chunk);
    assert c.j < |slots|;
    ForwardStream(slots, size, c);
    var f := slots[c.j];
    ChunkName(f.name, c.rest, c.i, ChunkCount(|f.content|, size), size);
    hide Chunks, ChunkCount, Remaining, Forward;
  }

  function Opened(all: seq<seq<Slot>>): seq<Cursor> {
    seq(|all|, p requires 0 <= p < |all| => Open(all[p], 0))
  }

  lemma StartServing(nm: Naming, all: seq<seq<Slot>>, size: nat, s: Store)
    requires size > 0 && s.open == map[]
    ensures Serving(nm, all, size, Opened(all), s)
  {
    forall p | 0 <= p < |all| ensures Under(nm, all, size, Opened(all), s, p) {
      OpenSits(all[p], size, 0);
      OpenFresh(all[p], 0);
    }
  }

  lemma {:induction false} OpenFresh(slots: seq<Slot>, j: nat)
    requires j <= |slots|
    ensures Open(slots, j).i == 0
    decreases |slots| - j
  {
    if j < |slots| && slots[j].content == [] {
      OpenFresh(slots, j + 1);
    }
  }

  /** Every chunk that the peers sent so far is what its file has next. */
  ghost predicate InStep(all: seq<seq<Slot>>, size: nat, xs: seq<Delivery>, cs: seq<Cursor>)
    requires size > 0
  {
    |cs| == |all| && forall p :: 0 <= p < |all| ==>
      Sits(all[p], size, cs[p]) && From(xs, p) + Remaining(all[p], size, cs[p]) == Stream(all[p], size, 0)
  }

  lemma NextOf(a: seq<Tagged>, rest: seq<Tagged>, all: seq<Tagged>, t: Tagged)
    requires a + rest == all && a + [t] <= all
    ensures [t] <= rest && a + [t] + rest[1..] == all
  {
    assert all[|a|] == t;
  }

  lemma StreamNext(all: seq<seq<Slot>>, size: nat, init: seq<Delivery>, cs: seq<Cursor>, x: Delivery)
    requires size > 0 && InStep(all, size, init, cs) && x.from < |all|
    requires From(init + [x], x.from) <= Stream(all[x.from], size, 0)
    ensures [(x.origin, x.chunk)] <= Remaining(all[x.from], size, cs[x.from]) && cs[x.from].j < |all[x.from]|
    ensures InStep(all, size, init + [x], cs[x.from := Forward(all[x.from], size, cs[x.from])])
  {
    var p, t := x.from, (x.origin, x.chunk);
    FromPush(init, x, p);
    NextOf(From(init, p), Remaining(all[p], size, cs[p]), Stream(all[p], size, 0), t);
    assert cs[p].j < |all[p]|;
    ForwardStream(all[p], size, cs[p]);
    hide Remaining, Stream, Sits, From, Forward;
    var cs' := cs[p := Forward(all[p], size, cs[p])];
    forall q | 0 <= q < |all|
      ensures Sits(all[q], size, cs'[q])
      ensures From(init + [x], q) + Remaining(all[q], size, cs'[q]) == Stream(all[q], size, 0)
    {
      FromPush(init, x, q);
    }
  }

  lemma FromPush(xs: seq<Delivery>, x: Delivery, p: Name)
    ensures From(xs + [x], p) == if x.from == p then From(xs, p) + [(x.origin, x.chunk)] else From(xs, p)
  {
    assert (xs + [x])[..|xs|] == xs;
  }

  /** Each peer sends the chunks of its files one file after the other, and these reach the server in
      any interleaving. */
  ghost predicate Sends(all: seq<seq<Slot>>, size: nat, xs: seq<Delivery>)
    requires size > 0
  {
    && (forall n :: 0 <= n < |xs| ==> xs[n].from < |all|)
    && forall p :: 0 <= p < |all| ==> From(xs, p) <= Stream(all[p], size, 0)
  }

  lemma SendsBefore(all: seq<seq<Slot>>, size: nat, xs: seq<Delivery>)
    requires size > 0 && xs != [] && Sends(all, size, xs)
    ensures Sends(all, size, xs[..|xs| - 1])
  {
    var init, x := xs[..|xs| - 1], xs[|xs| - 1];
    assert init + [x] == xs;
    forall p | 0 <= p < |all| ensures From(init, p) <= Stream(all[p], size, 0) {
      FromPush(init, x, p);
    }
  }

  lemma NothingServed(nm: Naming, all: seq<seq<Slot>>, size: nat, s: Store)
    requires size > 0 && s.open == map[]
    ensures Serving(nm, all, size, Opened(all), s) && InStep(all, size, [], Opened(all))
  {
    StartServing(nm, all, size, s);
    forall p | 0 <= p < |all|
      ensures var c := Open(all[p], 0);
        Sits(all[p], size, c) && From([], p) + Remaining(all[p], size, c) == Stream(all[p], size, 0)
    {
      OpenSits(all[p], size, 0);
      assert [] + Stream(all[p], size, 0) == Stream(all[p], size, 0);
    }
  }

  lemma AnswersPush(nm: Naming, s: Store, init: seq<Delivery>, x: Delivery)
    ensures ServeAll(nm, s, init + [x]) == Serve(nm, ServeAll(nm, s, init), x)
    ensures AnswerTo(nm, s, init + [x], |init|) == Answer(At(nm, ServeAll(nm, s, init), x.origin), MsgOf(nm, x))
    ensures forall n :: 0 <= n < |init| ==> AnswerTo(nm, s, init + [x], n) == AnswerTo(nm, s, init, n)
  {
    var xs := init + [x];
    assert xs[..|init|] == init;
    forall n | 0 <= n < |init| ensures xs[..n] == init[..n] && xs[n] == init[n] {}
    hide ServeAll, Answer;
  }

  lemma {:induction false} Served(nm: Naming, all: seq<seq<Slot>>, size: nat, s: Store, xs: seq<Delivery>)
    returns (cs: seq<Cursor>)
    requires size > 0 && s.open == map[] && Apart(nm, all) && Sends(all, size, xs)
    ensures Serving(nm, all, size, cs, ServeAll(nm, s, xs)) && InStep(all, size, xs, cs)
    ensures forall n :: 0 <= n < |xs| ==> AnswerTo(nm, s, xs, n) == Nil
  {
    if xs == [] {
      cs := Opened(all);
      NothingServed(nm, all, size, s);
    } else {
      var init, x := xs[..|xs| - 1], xs[|xs| - 1];
      assert init + [x] == xs;
      SendsBefore(all, size, xs);
      LastSent(all, size, xs);
      hide Serving, InStep, ServeAll, Serve, Apart, Answer, AnswerTo, Stream, From, Remaining, Sends, Forward, Sits;
      var before := Served(nm, all, size, s, init);
      StreamNext(all, size, init, before, x);
      SitsNow(nm, all, size, before, ServeAll(nm, s, init), x.from);
      cs := before[x.from := Forward(all[x.from], size, before[x.from])];
      ServeOne(nm, all, size, before, ServeAll(nm, s, init), x);
      AnswersPush(nm, s, init, x);
    }
  }

  lemma LastSent(all: seq<seq<Slot>>, size: nat, xs: seq<Delivery>)
    requires size > 0 && xs != [] && Sends(all, size, xs)
    ensures var x := xs[|xs| - 1]; x.from < |all| && From(xs, x.from) <= Stream(all[x.from], size, 0)
  {}

  lemma SitsNow(nm: Naming, all: seq<seq<Slot>>, size: nat, cs: seq<Cursor>, s: Store, p: nat)
    requires size > 0 && Serving(nm, all, size, cs, s) && p < |all|
    ensures |cs| == |all| && Sits(all[p], size, cs[p])
  {
    assert Under(nm, all, size, cs, s, p);
  }

  /** Every file of the peer that is not empty is stored as it was. */
  ghost predicate Stored(nm: Naming, slots: seq<Slot>, disk: map<string, Bytes>) {
    forall j :: 0 <= j < |slots| && slots[j].content != [] ==> Written(disk, PathOf(nm, slots[j])) == slots[j].content
  }

  /** Every file of the peer that is not empty is in the directory of its case under its name. */
  ghost predicate Filed(nm: Naming, slots: seq<Slot>, disk: map<string, Bytes>) {
    forall j :: 0 <= j < |slots| && slots[j].content != [] ==>
      exists path :: path in disk && disk[path] == slots[j].content
                     && LiesIn(path, nm.dir(slots[j].origin), slots[j].name)
  }

  lemma StoredIsFiled(nm: Naming, slots: seq<Slot>, disk: map<string, Bytes>)
    requires Stored(nm, slots, disk) && forall j :: 0 <= j < |slots| ==> '/' !in slots[j].name
    ensures Filed(nm, slots, disk)
  {
    forall j | 0 <= j < |slots| && slots[j].content != []
      ensures exists path :: path in disk && disk[path] == slots[j].content
                             && LiesIn(path, nm.dir(slots[j].origin), slots[j].name)
    {
      var f := slots[j];
      PathsEqualIff(nm.dir(f.origin), f.name, nm.dir(f.origin), f.name);
      assert Written(disk, PathOf(nm, f)) == f.content;
    }
  }

  /** No chunk is refused, however those of different peers interleave; and once the chunks of a peer
      are all through, its files are stored. */
  lemma FilesDelivered(nm: Naming, all: seq<seq<Slot>>, size: nat, s: Store, xs: seq<Delivery>)
    requires size > 0 && s.open == map[] && Apart(nm, all) && Sends(all, size, xs)
    ensures forall n :: 0 <= n < |xs| ==> AnswerTo(nm, s, xs, n) == Nil
    ensures forall p :: 0 <= p < |all| && From(xs, p) == Stream(all[p], size, 0) ==>
      Stored(nm, all[p], ServeAll(nm, s, xs).disk)
  {
    var cs := Served(nm, all, size, s, xs);
    forall p | 0 <= p < |all| && From(xs, p) == Stream(all[p], size, 0)
      ensures Stored(nm, all[p], ServeAll(nm, s, xs).disk)
    {
      AtEnd(all[p], size, cs[p], From(xs, p));
      hide Apart, ServeAll, From, Stream, Remaining, Sits, PathOf, OnlyThese;
      assert Under(nm, all, size, cs, ServeAll(nm, s, xs), p);
    }
  }

  lemma AtEnd(slots: seq<Slot>, size: nat, c: Cursor, a: seq<Tagged>)
    requires size > 0 && Sits(slots, size, c) && a + Remaining(slots, size, c) == Stream(slots, size, 0) == a
    ensures c.j == |slots|
  {
    assert |Remaining(slots, size, c)| == 0;
    if c.j < |slots| {
      ForwardStream(slots, size, c);
    }
  }
}
