/** The reconfiguration times expected in a measurement: fixed offsets into every minute. */
module Periodic {

  /** Times are in nanoseconds. */
  const SECOND: int := 1_000_000_000
  const MINUTE: int := 60_000_000_000

  function FloorMinute(t: int): (m: int)
    ensures m <= t < m + MINUTE && m % MINUTE == 0
  {
    t - t % MINUTE
  }

  /** The first n offsets after a minute that fall between start and end. */
  function InMinute(start: int, end: int, minute: int, offsets: seq<int>, n: nat): seq<int>
    requires n <= |offsets|
  {
    if n == 0 then []
    else
      var ts := minute + offsets[n - 1] * SECOND;
      InMinute(start, end, minute, offsets, n - 1) + if start <= ts <= end then [ts] else []
  }

  function FromMinute(start: int, end: int, minute: int, offsets: seq<int>): seq<int>
    decreases end - minute
  {
    if minute > end then []
    else InMinute(start, end, minute, offsets, |offsets|) + FromMinute(start, end, minute + MINUTE, offsets)
  }

  method GeneratePeriodicReconfigs(start: int, end: int, offsets: seq<int>) returns (reconfigs: seq<int>)
    ensures end <= start ==> reconfigs == []
    ensures end > start ==> reconfigs == FromMinute(start, end, FloorMinute(start), offsets)
  {
    if end <= start {
      return [];
    }
    reconfigs := [];
    var currentMinute := FloorMinute(start);
    while currentMinute <= end
      invariant reconfigs + FromMinute(start, end, currentMinute, offsets)
        == FromMinute(start, end, FloorMinute(start), offsets)
      decreases end - currentMinute
    {
      ghost var before := reconfigs;
      MinuteFirst(before, start, end, currentMinute, offsets);
      hide FromMinute;
      for i := 0 to |offsets|
        invariant reconfigs == before + InMinute(start, end, currentMinute, offsets, i)
      {
        var ts := currentMinute + offsets[i] * SECOND;
        if start <= ts <= end {
          reconfigs := reconfigs + [ts];
        }
      }
      currentMinute := currentMinute + MINUTE;
    }
  }

  lemma MinuteFirst(before: seq<int>, start: int, end: int, minute: int, offsets: seq<int>)
    requires minute <= end
    ensures before + FromMinute(start, end, minute, offsets)
      == (before + InMinute(start, end, minute, offsets, |offsets|)) + FromMinute(start, end, minute + MINUTE, offsets)
  {}

  /** A whole minute plus one of the offsets. */
  ghost predicate Periodic(ts: int, offsets: seq<int>) {
    exists k :: 0 <= k < |offsets| && (ts - offsets[k] * SECOND) % MINUTE == 0
  }

  predicate WithinMinute(offsets: seq<int>) { forall k :: 0 <= k < |offsets| ==> 0 <= offsets[k] < 60 }

  lemma {:induction false} InMinuteExact(start: int, end: int, minute: int, offsets: seq<int>, n: nat, ts: int)
    requires n <= |offsets|
    ensures ts in InMinute(start, end, minute, offsets, n)
      <==> start <= ts <= end && exists k :: 0 <= k < n && ts == minute + offsets[k] * SECOND
  {
    if n > 0 {
      InMinuteExact(start, end, minute, offsets, n - 1, ts);
    }
  }

  lemma SameMinute(minute: int, offset: int, ts: int)
    requires minute % MINUTE == 0 && 0 <= offset < 60 && minute <= ts < minute + MINUTE
    ensures (ts - offset * SECOND) % MINUTE == 0 <==> ts == minute + offset * SECOND
  {}

  lemma {:induction false} FromMinuteExact(start: int, end: int, minute: int, offsets: seq<int>, ts: int)
    requires WithinMinute(offsets) && minute % MINUTE == 0
    ensures ts in FromMinute(start, end, minute, offsets)
      <==> minute <= ts && start <= ts <= end && Periodic(ts, offsets)
    decreases end - minute
  {
    if minute <= end {
      FromMinuteExact(start, end, minute + MINUTE, offsets, ts);
      InMinuteExact(start, end, minute, offsets, |offsets|, ts);
      hide FromMinute, InMinute;
      if minute <= ts < minute + MINUTE {
        forall k | 0 <= k < |offsets|
          ensures (ts - offsets[k] * SECOND) % MINUTE == 0 <==> ts == minute + offsets[k] * SECOND
        {
          SameMinute(minute, offsets[k], ts);
        }
      }
    }
  }

  /** For offsets of less than a minute the times generated are exactly those between start and end
      that are a whole minute plus an offset. */
  lemma ExactlyThePeriodicTimes(start: int, end: int, offsets: seq<int>, ts: int)
    requires WithinMinute(offsets) && start < end
    ensures ts in FromMinute(start, end, FloorMinute(start), offsets) <==> start <= ts <= end && Periodic(ts, offsets)
  {
    FromMinuteExact(start, end, FloorMinute(start), offsets, ts);
  }

  predicate Ascending(s: seq<int>) { forall i, j :: 0 <= i < j < |s| ==> s[i] < s[j] }

  lemma {:induction false} InMinuteAscends(start: int, end: int, minute: int, offsets: seq<int>, n: nat)
    requires n <= |offsets| && Ascending(offsets)
    ensures var s := InMinute(start, end, minute, offsets, n);
      Ascending(s) && forall i :: 0 <= i < |s| ==> exists k :: 0 <= k < n && s[i] == minute + offsets[k] * SECOND
  {
    if n > 0 {
      InMinuteAscends(start, end, minute, offsets, n - 1);
    }
  }

  lemma {:induction false} FromMinuteAscends(start: int, end: int, minute: int, offsets: seq<int>)
    requires WithinMinute(offsets) && Ascending(offsets)
    ensures var s := FromMinute(start, end, minute, offsets);
      Ascending(s) && forall i :: 0 <= i < |s| ==> s[i] >= minute
    decreases end - minute
  {
    if minute <= end {
      InMinuteAscends(start, end, minute, offsets, |offsets|);
      FromMinuteAscends(start, end, minute + MINUTE, offsets);
      var here := InMinute(start, end, minute, offsets, |offsets|);
      forall i | 0 <= i < |here| ensures minute <= here[i] < minute + MINUTE {}
    }
  }

  /** No time is generated twice, and they come in order, if the offsets do. */
  lemma InOrder(start: int, end: int, offsets: seq<int>)
    requires WithinMinute(offsets) && Ascending(offsets)
    ensures Ascending(FromMinute(start, end, FloorMinute(start), offsets))
  {
    FromMinuteAscends(start, end, FloorMinute(start), offsets);
  }
}
