/** Finding the streams in a congestion control feedback packet (section 3.1 of RFC 8888). */
module Feedback {
  import opened Wire

  function Value(b: bv8): (r: nat)
    ensures r < 0x100
  {
    b as nat
  }

  /** Numbers of two and four bytes, most significant first. */
  function U16(p: Bytes, at: nat): (r: nat)
    requires at + 2 <= |p|
    ensures r < 0x1_0000
  {
    Value(p[at]) * 0x100 + Value(p[at + 1])
  }

  function U32(p: Bytes, at: nat): (r: nat)
    requires at + 4 <= |p|
    ensures r < 0x1_0000_0000
  {
    U16(p, at) * 0x1_0000 + U16(p, at + 2)
  }

  // The walk.

  /** The number of metric blocks, made even; the 16-bit addition can wrap around. */
  function Padded(numReports: nat): nat {
    if numReports % 2 != 0 then (numReports + 1) % 0x1_0000 else numReports
  }

  /** The SSRCs from an offset on; None: the code reads past the end of the packet and panics. */
  function Walk(p: Bytes, offset: nat): Option<seq<nat>>
    decreases |p| - offset
  {
    if offset >= |p| - 4 then Some([])
    else if offset + 8 > |p| then None
    else After([U32(p, offset)], Walk(p, offset + 2 * Padded(U16(p, offset + 6)) + 8))
  }

  function After(found: seq<nat>, rest: Option<seq<nat>>): Option<seq<nat>> {
    if rest.None? then None else Some(found + rest.value)
  }

  /** First occurrences only. */
  function Dedup(s: seq<nat>): seq<nat> {
    if s == [] then []
    else Dedup(s[..|s| - 1]) + if s[|s| - 1] in s[..|s| - 1] then [] else [s[|s| - 1]]
  }

  method ExtractSSRCs(packet: Bytes) returns (r: Option<seq<nat>>)
    ensures r.Some? <==> Walk(packet, 8).Some?
    ensures r.Some? ==> r.value == Dedup(Walk(packet, 8).value)
  {
    hide U16, U32, Padded, Dedup;
    var uniqueSSRCs: set<nat> := {};
    var ssrcs: seq<nat> := [];
    ghost var walked: seq<nat> := [];
    var offset := 8;
    NothingWalked(Walk(packet, 8));
    while offset < |packet| - 4
      invariant Walk(packet, 8) == After(walked, Walk(packet, offset))
      invariant ssrcs == Dedup(walked) && forall x :: x in uniqueSSRCs <==> x in walked
      decreases |packet| - offset
    {
      hide After;
      if offset + 8 > |packet| {
        NothingAfter(walked);
        return None;
      }
      var ssrc := U32(packet, offset);
      var numReports := Padded(U16(packet, offset + 6));
      DedupPush(walked, ssrc);
      AfterAfter(walked, ssrc, Walk(packet, offset + 2 * numReports + 8));
      if ssrc !in uniqueSSRCs {
        ssrcs := ssrcs + [ssrc];
        uniqueSSRCs := uniqueSSRCs + {ssrc};
      }
      walked := walked + [ssrc];
      offset := offset + 2 * numReports + 8;
    }
    WalkedAll(walked);
    r := Some(ssrcs);
  }

  lemma NothingWalked(rest: Option<seq<nat>>)
    ensures rest == After([], rest) && Dedup([]) == []
  {
    if rest.Some? {
      assert [] + rest.value == rest.value;
    }
  }

  lemma WalkedAll(found: seq<nat>)
    ensures After(found, Some([])) == Some(found)
  {
    assert found + [] == found;
  }

  lemma NothingAfter(found: seq<nat>)
    ensures After(found, None) == None
  {}

  lemma AfterAfter(found: seq<nat>, x: nat, rest: Option<seq<nat>>)
    ensures After(found, After([x], rest)) == After(found + [x], rest)
  {
    if rest.Some? {
      assert found + ([x] + rest.value) == (found + [x]) + rest.value;
    }
  }

  lemma DedupPush(s: seq<nat>, x: nat)
    ensures Dedup(s + [x]) == if x in s then Dedup(s) else Dedup(s) + [x]
  {
    assert (s + [x])[..|s|] == s;
  }

  lemma {:induction false} DedupExact(s: seq<nat>)
    ensures forall x :: x in Dedup(s) <==> x in s
    ensures forall i, j :: 0 <= i < j < |Dedup(s)| ==> Dedup(s)[i] != Dedup(s)[j]
  {
    if s != [] {
      var init, last := s[..|s| - 1], s[|s| - 1];
      DedupExact(init);
      assert s == init + [last];
      forall i | 0 <= i < |Dedup(init)| ensures Dedup(init)[i] in init {
        assert Dedup(init)[i] in Dedup(init);
      }
    }
  }

  /** They are in the order in which they first occur. */
  lemma {:induction false} DedupInOrder(s: seq<nat>, j: nat) returns (k: nat)
    requires j < |Dedup(s)|
    ensures k < |s| && s[k] == Dedup(s)[j] && s[k] !in s[..k] && Dedup(s[..k]) == Dedup(s)[..j]
  {
    var init := s[..|s| - 1];
    if j < |Dedup(init)| {
      k := DedupInOrder(init, j);
      assert init[..k] == s[..k];
    } else {
      k := |s| - 1;
    }
  }

  // Reports.

  /** The metrics of one stream. */
  datatype Block = Block(ssrc: nat, beginSeq: nat, metrics: seq<nat>)

  datatype Report = Report(sender: nat, blocks: seq<Block>, timestamp: nat)

  function ExtractSSRCsReport(report: Report): seq<nat> {
    seq(|report.blocks|, i requires 0 <= i < |report.blocks| => report.blocks[i].ssrc)
  }

  /** The bytes a block takes: an odd number of metric blocks is padded. */
  function Size(b: Block): nat { 8 + 2 * (|b.metrics| + |b.metrics| % 2) }

  /** The bytes of a number, most significant first. */
  ghost predicate Has16(p: Bytes, at: nat, n: nat) {
    && at + 2 <= |p| && n < 0x1_0000
    && Value(p[at]) == n / 0x100 && Value(p[at + 1]) == n % 0x100
  }

  ghost predicate Has32(p: Bytes, at: nat, n: nat) {
    Has16(p, at, n / 0x1_0000) && Has16(p, at + 2, n % 0x1_0000)
  }

  lemma Reads(p: Bytes, at: nat, n: nat)
    ensures Has16(p, at, n) ==> U16(p, at) == n
    ensures Has32(p, at, n) ==> U32(p, at) == n
  {
    hide Value;
  }

  ghost predicate HoldsBlock(p: Bytes, at: nat, b: Block) {
    && at + Size(b) <= |p|
    && Has32(p, at, b.ssrc) && Has16(p, at + 4, b.beginSeq) && Has16(p, at + 6, |b.metrics|)
    && forall k :: 0 <= k < |b.metrics| ==> Has16(p, at + 8 + 2 * k, b.metrics[k])
  }

  /** The blocks from the k-th on are in the packet from an offset on, up to the last four bytes. */
  ghost predicate HoldsBlocks(p: Bytes, at: nat, blocks: seq<Block>, k: nat)
    requires k <= |blocks|
    decreases |blocks| - k
  {
    if k == |blocks| then at + 4 == |p|
    else HoldsBlock(p, at, blocks[k]) && HoldsBlocks(p, at + Size(blocks[k]), blocks, k + 1)
  }

  /** The packet is the report in the format of the standard: version 2, feedback message type 11,
      packet type 205, the length in 32-bit words less one, the sender, the blocks, the timestamp. The
      standard allows 16384 metric blocks a stream. */
  ghost predicate Encodes(p: Bytes, report: Report) {
    && |p| >= 12 && Value(p[0]) / 0x40 == 2 && Value(p[0]) % 0x20 == 11 && Value(p[1]) == 205
    && |p| % 4 == 0 && Has16(p, 2, |p| / 4 - 1)
    && Has32(p, 4, report.sender) && Has32(p, |p| - 4, report.timestamp)
    && (forall i :: 0 <= i < |report.blocks| ==> |report.blocks[i].metrics| <= 16384)
    && HoldsBlocks(p, 8, report.blocks, 0)
  }

  /** The walk skips a block exactly if the 16-bit addition does not wrap around. */
  lemma SkipIff(b: Block)
    requires |b.metrics| < 0x1_0000
    ensures 8 + 2 * Padded(|b.metrics|) == Size(b) <==> |b.metrics| != 0xFFFF
  {}

  lemma WalkBlock(p: Bytes, at: nat, b: Block)
    requires HoldsBlock(p, at, b) && |b.metrics| < 0xFFFF && at + Size(b) + 4 <= |p|
    ensures Walk(p, at) == After([b.ssrc], Walk(p, at + Size(b)))
  {
    hide U16, U32, Padded, After, Size, Walk, HoldsBlock;
    BlockStart(p, at, b);
    WalkOnce(p, at);
  }

  lemma BlockStart(p: Bytes, at: nat, b: Block)
    requires HoldsBlock(p, at, b) && |b.metrics| < 0xFFFF
    ensures at + 8 <= |p| && U32(p, at) == b.ssrc
    ensures at + Size(b) == at + 2 * Padded(U16(p, at + 6)) + 8
  {
    hide U16, U32;
    Reads(p, at, b.ssrc);
    Reads(p, at + 6, |b.metrics|);
    SkipIff(b);
  }

  lemma WalkOnce(p: Bytes, at: nat)
    requires at + 8 <= |p|
    ensures Walk(p, at) == After([U32(p, at)], Walk(p, at + 2 * Padded(U16(p, at + 6)) + 8))
  {
    hide U16, U32, Padded, After;
  }

  lemma {:induction false} WalkBlocks(p: Bytes, at: nat, report: Report, k: nat)
    requires k <= |report.blocks| && HoldsBlocks(p, at, report.blocks, k)
    requires forall i :: 0 <= i < |report.blocks| ==> |report.blocks[i].metrics| < 0xFFFF
    ensures at + 4 <= |p|
    ensures Walk(p, at) == Some(ExtractSSRCsReport(report)[k..])
    decreases |report.blocks| - k
  {
    if k < |report.blocks| {
      var b := report.blocks[k];
      WalkBlocks(p, at + Size(b), report, k + 1);
      WalkBlock(p, at, b);
      hide Walk, HoldsBlock, HoldsBlocks, Size;
      var all := ExtractSSRCsReport(report);
      assert all[k..] == [b.ssrc] + all[k + 1..];
    }
  }

  /** On every packet that encodes a report, the walk stays within the packet, and finds the SSRCs that
      the decoded report lists, without the repetitions. */
  lemma WalkFindsStreams(p: Bytes, report: Report)
    requires Encodes(p, report)
    ensures Walk(p, 8) == Some(ExtractSSRCsReport(report))
  {
    WalkBlocks(p, 8, report, 0);
    assert ExtractSSRCsReport(report)[0..] == ExtractSSRCsReport(report);
  }
}
