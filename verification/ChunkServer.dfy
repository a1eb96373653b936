/** Large files on the server: open transfers by chunk key, and the files they write. */
module ChunkServer {
  import opened Wire

  /** Each transfer has its own handle, with the offset of the next write. */
  datatype OpenFile = OpenFile(path: string, offset: nat, received: seq<bool>)

  /** `open` is fileChunks; `disk` holds what has been written to each path. */
  datatype Store = Store(resultPath: string, open: map<string, OpenFile>, disk: map<string, Bytes>)

  /** Nil is the nil error; Panic an index or allocation panic, which costs the sender its connection. */
  datatype Outcome = Nil | NotRegistered | IndexTooLarge | AlreadyReceived | Incomplete | Panic

  function ChunkKey(client: string, fileName: string): string { client + "_" + fileName }

  function JoinPath(dir: string, fileName: string): string { dir + "/" + fileName }

  function AllFalse(n: nat): seq<bool> { seq(n, _ => false) }

  function Written(disk: map<string, Bytes>, path: string): Bytes {
    if path in disk then disk[path] else []
  }

  function Zeros(n: nat): Bytes { seq(n, _ => 0) }

  /** A write at an offset: it replaces what is there, and a gap before it reads as zeros. */
  function Overwritten(had: Bytes, at: nat, data: Bytes): Bytes {
    if data == [] then had
    else
      (if at <= |had| then had[..at] else had + Zeros(at - |had|)) + data
      + (if at + |data| < |had| then had[at + |data|..] else [])
  }

  lemma WrittenAtEnd(had: Bytes, data: Bytes)
    ensures Overwritten(had, |had|, data) == had + data
  {}

  /** The open transfer for the chunk, created if there is none. */
  function Ensure(s: Store, key: string, c: FileChunk): Store
    requires c.totalChunks >= 0
  {
    if key in s.open then s
    else
      var path := JoinPath(s.resultPath, c.fileName);
      s.(open := s.open[key := OpenFile(path, 0, AllFalse(c.totalChunks))], disk := s.disk[path := []])
  }

  /** The chunk is written to the open transfer and flagged. */
  function Placed(s: Store, key: string, c: FileChunk): Store
    requires key in s.open && 0 <= c.chunkIndex < |s.open[key].received|
  {
    var f := s.open[key];
    s.(open := s.open[key := OpenFile(f.path, f.offset + |c.data|, f.received[c.chunkIndex := true])],
       disk := s.disk[f.path := Overwritten(Written(s.disk, f.path), f.offset, c.data)])
  }

  /** A final chunk also closes the transfer. */
  function Write(s: Store, key: string, c: FileChunk): (Store, Outcome)
    requires key in s.open && 0 <= c.chunkIndex < |s.open[key].received|
  {
    var s' := Placed(s, key, c);
    if c.isFinal then (s'.(open := s'.open - {key}), if false in s'.open[key].received then Incomplete else Nil)
    else (s', Nil)
  }

  function Handle(s: Store, client: Option<string>, c: FileChunk): (Store, Outcome) {
    if client.None? then (s, NotRegistered)
    else
      var key := ChunkKey(client.value, c.fileName);
      if key !in s.open && c.totalChunks < 0 then
        (s.(disk := s.disk[JoinPath(s.resultPath, c.fileName) := []]), Panic)
      else
        var s' := if key in s.open then s else Ensure(s, key, c);
        var got := s'.open[key].received;
        if c.chunkIndex >= |got| then (s', IndexTooLarge)
        else if c.chunkIndex < 0 then (s', Panic)
        else if got[c.chunkIndex] then (s', AlreadyReceived)
        else Write(s', key, c)
  }

  class ChunkState {
    const path: string
    const receivedChunks: array<bool>

    constructor (path: string, totalChunks: nat)
      ensures this.path == path && fresh(receivedChunks) && receivedChunks[..] == AllFalse(totalChunks)
    {
      this.path := path;
      receivedChunks := new bool[totalChunks](_ => false);
    }

  }

  /** No two transfers share their flags. */
  ghost predicate Distinct(chunks: map<string, ChunkState>) {
    forall j, k :: j in chunks && k in chunks && j != k ==> chunks[j].receivedChunks != chunks[k].receivedChunks
  }

  lemma DistinctAdded(chunks: map<string, ChunkState>, key: string, state: ChunkState)
    requires Distinct(chunks) && forall k :: k in chunks ==> chunks[k].receivedChunks != state.receivedChunks
    ensures Distinct(chunks[key := state])
  {}

  ghost function Entries(chunks: map<string, ChunkState>, offsets: map<string, nat>, marks: map<string, seq<bool>>):
    (open: map<string, OpenFile>)
    requires chunks.Keys == offsets.Keys == marks.Keys
    ensures open.Keys == chunks.Keys
  {
    map k | k in chunks :: OpenFile(chunks[k].path, offsets[k], marks[k])
  }

  lemma EntryAt(chunks: map<string, ChunkState>, offsets: map<string, nat>, marks: map<string, seq<bool>>, key: string)
    requires chunks.Keys == offsets.Keys == marks.Keys && key in chunks
    ensures Entries(chunks, offsets, marks)[key] == OpenFile(chunks[key].path, offsets[key], marks[key])
  {}

  lemma EntryChanged(chunks: map<string, ChunkState>, offsets: map<string, nat>, marks: map<string, seq<bool>>,
                     key: string, at: nat, got: seq<bool>)
    requires chunks.Keys == offsets.Keys == marks.Keys && key in chunks
    ensures Entries(chunks, offsets[key := at], marks[key := got])
      == Entries(chunks, offsets, marks)[key := OpenFile(chunks[key].path, at, got)]
  {}

  lemma EntryAdded(chunks: map<string, ChunkState>, offsets: map<string, nat>, marks: map<string, seq<bool>>,
                   key: string, state: ChunkState, got: seq<bool>)
    requires chunks.Keys == offsets.Keys == marks.Keys
    ensures Entries(chunks[key := state], offsets[key := 0], marks[key := got])
      == Entries(chunks, offsets, marks)[key := OpenFile(state.path, 0, got)]
  {}

  lemma EntryRemoved(chunks: map<string, ChunkState>, offsets: map<string, nat>, marks: map<string, seq<bool>>,
                     key: string)
    requires chunks.Keys == offsets.Keys == marks.Keys
    ensures Entries(chunks - {key}, offsets - {key}, marks - {key}) == Entries(chunks, offsets, marks) - {key}
  {}

  /** `offsets` is what the operating system keeps for the open handles, `disk` the files. */
  class FileServer {
    var currentResultPath: string
    var fileChunks: map<string, ChunkState>
    var offsets: map<string, nat>
    var disk: map<string, Bytes>

    ghost function Flags(): set<object>
      reads `fileChunks
    {
      set k | k in fileChunks :: fileChunks[k].receivedChunks
    }

    ghost predicate Valid()
      reads this
    {
      offsets.Keys == fileChunks.Keys && Distinct(fileChunks)
    }

    ghost function View(): Store
      requires Valid()
      reads this, Flags()
    {
      Store(currentResultPath, Entries(fileChunks, offsets, Marks()), disk)
    }

    ghost function Marks(): map<string, seq<bool>>
      reads `fileChunks, Flags()
    {
      map k | k in fileChunks :: fileChunks[k].receivedChunks[..]
    }

    lemma MarksOf(key: string)
      requires key in fileChunks
      ensures Marks().Keys == fileChunks.Keys && Marks()[key] == fileChunks[key].receivedChunks[..]
    {}

    lemma OpenAt(key: string)
      requires Valid() && key in fileChunks
      ensures View().open.Keys == fileChunks.Keys
      ensures View().open[key].received == fileChunks[key].receivedChunks[..]
    {}

    constructor (resultPath: string)
      ensures Valid() && View() == Store(resultPath, map[], map[])
    {
      currentResultPath, fileChunks, offsets, disk := resultPath, map[], map[], map[];
    }

    method SetCurrentResultPath(path: string)
      requires Valid()
      modifies `currentResultPath
      ensures Valid() && View() == old(View()).(resultPath := path) && fileChunks == old(fileChunks)
    {
      ghost var before := Marks();
      currentResultPath := path;
      assert Marks() == before;
    }

    method AllReceived(received: array<bool>) returns (all: bool)
      ensures all <==> false !in received[..]
    {
      all := true;
      var i := 0;
      while i < received.Length
        invariant 0 <= i <= received.Length
        invariant all <==> false !in received[..i]
      {
        if !received[i] {
          all := false;
        }
        i := i + 1;
      }
      assert received[..received.Length] == received[..];
    }

    method Create(key: string, c: FileChunk)
      requires Valid() && key !in fileChunks && c.totalChunks >= 0
      modifies this
      ensures Valid() && View() == Ensure(old(View()), key, c)
      ensures key in fileChunks && fresh(fileChunks[key].receivedChunks)
      ensures fileChunks == old(fileChunks)[key := fileChunks[key]] && currentResultPath == old(currentResultPath)
    {
      hide Entries, Distinct;
      ghost var before := Marks();
      var path := JoinPath(currentResultPath, c.fileName);
      var state := new ChunkState(path, c.totalChunks);
      assert Marks() == before;
      Install(key, state);
      disk := disk[path := []];
      assert Marks() == before[key := AllFalse(c.totalChunks)];
      EntryAdded(old(fileChunks), old(offsets), before, key, state, AllFalse(c.totalChunks));
    }

    method Install(key: string, state: ChunkState)
      requires Valid() && key !in fileChunks
      requires forall k :: k in fileChunks ==> fileChunks[k].receivedChunks != state.receivedChunks
      modifies `fileChunks, `offsets
      ensures Valid() && Marks() == old(Marks())[key := state.receivedChunks[..]]
      ensures fileChunks == old(fileChunks)[key := state] && offsets == old(offsets)[key := 0]
    {
      hide Distinct;
      ghost var before := Marks();
      fileChunks, offsets := fileChunks[key := state], offsets[key := 0];
      DistinctAdded(old(fileChunks), key, state);
      assert Marks() == before[key := state.receivedChunks[..]];
    }

    method HandleFileChunk(client: Option<string>, c: FileChunk) returns (r: Outcome)
      requires Valid()
      modifies this, Flags()
      ensures Valid() && fresh(Flags() - old(Flags()))
      ensures (View(), r) == Handle(old(View()), client, c)
    {
      hide Write, Entries, Distinct;
      if client.None? {
        return NotRegistered;
      }
      var key := ChunkKey(client.value, c.fileName);
      if key !in fileChunks {
        if c.totalChunks < 0 {
          disk := disk[JoinPath(currentResultPath, c.fileName) := []];
          assert View().open == old(View()).open;
          return Panic;
        }
        Create(key, c);
      }
      OpenAt(key);
      var state := fileChunks[key];
      if c.chunkIndex >= state.receivedChunks.Length {
        return IndexTooLarge;
      }
      if c.chunkIndex < 0 {
        return Panic;
      }
      if state.receivedChunks[c.chunkIndex] {
        return AlreadyReceived;
      }
      r := WriteChunk(key, c);
    }

    method Close(key: string)
      requires Valid()
      modifies this
      ensures Valid() && Flags() <= old(Flags())
      ensures View() == old(View()).(open := old(View()).open - {key})
    {
      hide Entries;
      ghost var before := Marks();
      fileChunks, offsets := fileChunks - {key}, offsets - {key};
      assert Marks() == before - {key};
      EntryRemoved(old(fileChunks), old(offsets), before, key);
    }

    method Mark(key: string, i: nat)
      requires Valid() && key in fileChunks && i < fileChunks[key].receivedChunks.Length
      modifies fileChunks[key].receivedChunks
      ensures Marks() == old(Marks())[key := old(Marks())[key][i := true]]
    {
      ghost var before := Marks();
      fileChunks[key].receivedChunks[i] := true;
      assert fileChunks[key].receivedChunks[..] == before[key][i := true];
    }

    method WriteData(key: string, data: Bytes)
      requires Valid() && key in fileChunks
      modifies `disk, `offsets
      ensures offsets == old(offsets)[key := old(offsets)[key] + |data|] && Marks() == old(Marks())
      ensures var path := fileChunks[key].path;
        disk == old(disk)[path := Overwritten(Written(old(disk), path), old(offsets)[key], data)]
    {
      var path, at := fileChunks[key].path, offsets[key];
      disk := disk[path := Overwritten(Written(disk, path), at, data)];
      offsets := offsets[key := at + |data|];
    }

    method Place(key: string, c: FileChunk)
      requires Valid() && key in fileChunks && 0 <= c.chunkIndex < fileChunks[key].receivedChunks.Length
      modifies `disk, `offsets, fileChunks[key].receivedChunks
      ensures Valid() && View() == Placed(old(View()), key, c)
    {
      hide Overwritten, Written, Entries, Distinct, Marks;
      MarksOf(key);
      WriteData(key, c.data);
      Mark(key, c.chunkIndex);
      ghost var before, at := old(Marks()), old(offsets)[key];
      EntryAt(fileChunks, old(offsets), before, key);
      EntryChanged(fileChunks, old(offsets), before, key, at + |c.data|, before[key][c.chunkIndex := true]);
    }

    method WriteChunk(key: string, c: FileChunk) returns (r: Outcome)
      requires Valid() && key in fileChunks && 0 <= c.chunkIndex < fileChunks[key].receivedChunks.Length
      modifies this, fileChunks[key].receivedChunks
      ensures Valid() && Flags() <= old(Flags())
      ensures (View(), r) == Write(old(View()), key, c)
    {
      hide Placed, Entries, Distinct, Marks;
      Place(key, c);
      OpenAt(key);
      r := Nil;
      if c.isFinal {
        var all := AllReceived(fileChunks[key].receivedChunks);
        Close(key);
        if !all {
          r := Incomplete;
        }
      }
    }
  }
}
