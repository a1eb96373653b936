/** Scoring guard triggers against reconfiguration events. Times are integers of any one unit. */
module Evaluation {

  predicate Near(a: int, b: int, window: int) { -window <= a - b <= window }

  predicate NearAny(a: int, events: seq<int>, window: int) {
    exists e :: e in events && Near(a, e, window)
  }

  // Sorting.

  predicate Sorted(s: seq<int>) { forall i, j :: 0 <= i < j < |s| ==> s[i] <= s[j] }

  function Insert(s: seq<int>, x: int): seq<int> {
    if s == [] || s[|s| - 1] <= x then s + [x] else Insert(s[..|s| - 1], x) + [s[|s| - 1]]
  }

  function Sort(s: seq<int>): seq<int> {
    if s == [] then [] else Insert(Sort(s[..|s| - 1]), s[|s| - 1])
  }

  predicate AtMost(s: seq<int>, b: int) { forall i :: 0 <= i < |s| ==> s[i] <= b }

  lemma {:induction false} InsertAtMost(s: seq<int>, x: int, b: int)
    requires AtMost(s, b) && x <= b
    ensures AtMost(Insert(s, x), b)
  {
    if !(s == [] || s[|s| - 1] <= x) {
      InsertAtMost(s[..|s| - 1], x, b);
    }
  }

  lemma {:induction false} InsertSorted(s: seq<int>, x: int)
    requires Sorted(s)
    ensures Sorted(Insert(s, x)) && |Insert(s, x)| == |s| + 1
  {
    if !(s == [] || s[|s| - 1] <= x) {
      InsertSorted(s[..|s| - 1], x);
      InsertAtMost(s[..|s| - 1], x, s[|s| - 1]);
    }
  }

  lemma {:induction false} InsertMultiset(s: seq<int>, x: int)
    ensures multiset(Insert(s, x)) == multiset(s) + multiset{x}
  {
    if !(s == [] || s[|s| - 1] <= x) {
      InsertMultiset(s[..|s| - 1], x);
      assert s == s[..|s| - 1] + [s[|s| - 1]];
    }
  }

  lemma {:induction false} SortSorts(s: seq<int>)
    ensures Sorted(Sort(s)) && multiset(Sort(s)) == multiset(s) && |Sort(s)| == |s|
  {
    if s != [] {
      SortSorts(s[..|s| - 1]);
      hide Sorted, Insert;
      assert s == s[..|s| - 1] + [s[|s| - 1]];
      InsertSorted(Sort(s[..|s| - 1]), s[|s| - 1]);
      InsertMultiset(Sort(s[..|s| - 1]), s[|s| - 1]);
    }
  }

  lemma SameMembers(s: seq<int>, x: int)
    ensures x in Sort(s) <==> x in s
  {
    SortSorts(s);
    assert x in multiset(Sort(s)) <==> x in multiset(s);
  }

  // Clusters.

  /** The clusters of the first n events. */
  function Clusters(sorted: seq<int>, merge: int, n: nat): (cs: seq<seq<int>>)
    requires n <= |sorted|
    ensures n > 0 ==> cs != [] && cs[|cs| - 1] != [] && cs[|cs| - 1][|cs[|cs| - 1]| - 1] == sorted[n - 1]
  {
    if n == 0 then []
    else if n == 1 then [[sorted[0]]]
    else
      var cs, ts := Clusters(sorted, merge, n - 1), sorted[n - 1];
      var last := cs[|cs| - 1];
      if ts - last[|last| - 1] <= merge then cs[..|cs| - 1] + [last + [ts]] else cs + [[ts]]
  }

  function Merged(events: seq<int>, merge: int): seq<seq<int>> { Clusters(Sort(events), merge, |Sort(events)|) }

  method MergeEvents(events: seq<int>, merge: int) returns (merged: seq<seq<int>>)
    ensures merged == Merged(events, merge)
  {
    SortSorts(events);
    hide Sort, Sorted;
    if events == [] {
      return [];
    }
    var sorted := Sort(events);
    merged := [[sorted[0]]];
    for i := 1 to |sorted|
      invariant merged == Clusters(sorted, merge, i)
    {
      var ts, last := sorted[i], merged[|merged| - 1];
      if ts - last[|last| - 1] <= merge {
        merged := merged[..|merged| - 1] + [last + [ts]];
      } else {
        merged := merged + [[ts]];
      }
    }
  }

  /** The cluster of the i-th event: one more for each gap above the threshold before it. */
  function ClusterOf(sorted: seq<int>, merge: int, i: nat): nat
    requires i < |sorted|
  {
    if i == 0 then 0
    else ClusterOf(sorted, merge, i - 1) + if sorted[i] - sorted[i - 1] <= merge then 0 else 1
  }

  /** The events up to the i-th that are in cluster c. */
  function Members(sorted: seq<int>, merge: int, n: nat, c: nat): seq<int>
    requires n <= |sorted|
  {
    if n == 0 then []
    else Members(sorted, merge, n - 1, c) + if ClusterOf(sorted, merge, n - 1) == c then [sorted[n - 1]] else []
  }

  lemma {:induction false} NoMembersAbove(sorted: seq<int>, merge: int, n: nat, c: nat)
    requires 0 < n <= |sorted| && c > ClusterOf(sorted, merge, n - 1)
    ensures Members(sorted, merge, n, c) == []
  {
    if n > 1 {
      NoMembersAbove(sorted, merge, n - 1, c);
    }
  }

  /** The clusters are the events by cluster number, in order. */
  lemma {:induction false} ClustersAreMembers(sorted: seq<int>, merge: int, n: nat)
    requires 0 < n <= |sorted|
    ensures var cs := Clusters(sorted, merge, n);
      && |cs| == ClusterOf(sorted, merge, n - 1) + 1
      && forall c :: 0 <= c < |cs| ==> cs[c] == Members(sorted, merge, n, c)
  {
    if n == 1 {
      FirstMember(sorted, merge);
    } else {
      ClustersAreMembers(sorted, merge, n - 1);
      NoMembersAbove(sorted, merge, n - 1, ClusterOf(sorted, merge, n - 2) + 1);
    }
  }

  lemma FirstMember(sorted: seq<int>, merge: int)
    requires sorted != []
    ensures Members(sorted, merge, 1, 0) == [sorted[0]] && ClusterOf(sorted, merge, 0) == 0
  {
    assert Members(sorted, merge, 0, 0) == [];
  }

  // Components.

  /** A path over positions of the events, in steps of at most the threshold. */
  ghost predicate Path(sorted: seq<int>, merge: int, ps: seq<nat>) {
    && ps != [] && (forall k :: 0 <= k < |ps| ==> ps[k] < |sorted|)
    && forall k :: 0 <= k < |ps| - 1 ==> Near(sorted[ps[k]], sorted[ps[k + 1]], merge)
  }

  ghost predicate Connected(sorted: seq<int>, merge: int, i: nat, j: nat) {
    exists ps :: ps != [] && Path(sorted, merge, ps) && ps[0] == i && ps[|ps| - 1] == j
  }

  lemma {:induction false} ClusterOfMonotone(sorted: seq<int>, merge: int, i: nat, j: nat)
    requires i <= j < |sorted|
    ensures ClusterOf(sorted, merge, i) <= ClusterOf(sorted, merge, j)
    decreases j
  {
    if i < j {
      ClusterOfMonotone(sorted, merge, i, j - 1);
    }
  }

  /** Events of different clusters are more than the threshold apart. */
  lemma {:induction false} ClustersApart(sorted: seq<int>, merge: int, i: nat, j: nat)
    requires Sorted(sorted) && i <= j < |sorted| && ClusterOf(sorted, merge, i) != ClusterOf(sorted, merge, j)
    ensures sorted[j] - sorted[i] > merge
    decreases j
  {
    if ClusterOf(sorted, merge, i) != ClusterOf(sorted, merge, j - 1) {
      ClustersApart(sorted, merge, i, j - 1);
    }
  }

  lemma {:induction false} PathStaysInCluster(sorted: seq<int>, merge: int, ps: seq<nat>)
    requires Sorted(sorted) && Path(sorted, merge, ps)
    ensures ClusterOf(sorted, merge, ps[0]) == ClusterOf(sorted, merge, ps[|ps| - 1])
  {
    if |ps| > 1 {
      var init := ps[..|ps| - 1];
      forall k | 0 <= k < |init| - 1 ensures Near(sorted[init[k]], sorted[init[k + 1]], merge) {
        assert Near(sorted[ps[k]], sorted[ps[k + 1]], merge);
      }
      PathStaysInCluster(sorted, merge, init);
      var a, b := ps[|ps| - 2], ps[|ps| - 1];
      assert ps[|ps| - 2 + 1] == b;
      assert Near(sorted[a], sorted[b], merge);
      if ClusterOf(sorted, merge, a) != ClusterOf(sorted, merge, b) {
        if a <= b {
          ClustersApart(sorted, merge, a, b);
        } else {
          ClustersApart(sorted, merge, b, a);
        }
      }
    }
  }

  lemma {:induction false} WalkUp(sorted: seq<int>, merge: int, i: nat, j: nat) returns (ps: seq<nat>)
    requires Sorted(sorted) && i <= j < |sorted| && ClusterOf(sorted, merge, i) == ClusterOf(sorted, merge, j)
    ensures ps != [] && Path(sorted, merge, ps) && ps[0] == i && ps[|ps| - 1] == j
    decreases j
  {
    if i == j {
      ps := [i];
    } else {
      ClusterOfMonotone(sorted, merge, i, j - 1);
      var init := WalkUp(sorted, merge, i, j - 1);
      hide ClusterOf;
      ps := init + [j];
    }
  }

  lemma WalkDown(sorted: seq<int>, merge: int, ps: seq<nat>)
    requires ps != [] && Path(sorted, merge, ps)
    ensures Path(sorted, merge, Reverse(ps)) && Reverse(ps)[0] == ps[|ps| - 1] && Reverse(ps)[|ps| - 1] == ps[0]
  {
    forall k | 0 <= k < |ps| - 1 ensures Near(sorted[Reverse(ps)[k]], sorted[Reverse(ps)[k + 1]], merge) {
      var m := |ps| - 2 - k;
      assert Near(sorted[ps[m]], sorted[ps[m + 1]], merge);
    }
  }

  function Reverse(ps: seq<nat>): (r: seq<nat>)
    ensures |r| == |ps| && forall k :: 0 <= k < |r| ==> r[k] == ps[|ps| - 1 - k]
  {
    seq(|ps|, k requires 0 <= k < |ps| => ps[|ps| - 1 - k])
  }

  /** Two events are in one cluster exactly if a chain of events with gaps of at most the threshold
      joins them. */
  lemma SameClusterIffConnected(events: seq<int>, merge: int, i: nat, j: nat)
    requires i < |events| && j < |events|
    ensures |Sort(events)| == |events|
    ensures ClusterOf(Sort(events), merge, i) == ClusterOf(Sort(events), merge, j) <==>
      Connected(Sort(events), merge, i, j)
  {
    var sorted := Sort(events);
    SortSorts(events);
    hide ClusterOf, Path;
    if ClusterOf(sorted, merge, i) == ClusterOf(sorted, merge, j) {
      if i <= j {
        var ps := WalkUp(sorted, merge, i, j);
      } else {
        var ps := WalkUp(sorted, merge, j, i);
        WalkDown(sorted, merge, ps);
      }
    }
    if Connected(sorted, merge, i, j) {
      var ps :| ps != [] && Path(sorted, merge, ps) && ps[0] == i && ps[|ps| - 1] == j;
      PathStaysInCluster(sorted, merge, ps);
    }
  }

  // Counting.

  function TruePositives(triggers: seq<int>, events: seq<int>, window: int): nat {
    if triggers == [] then 0
    else TruePositives(triggers[..|triggers| - 1], events, window)
         + if NearAny(triggers[|triggers| - 1], events, window) then 1 else 0
  }

  lemma {:induction false} NoEventsNoPositives(triggers: seq<int>, window: int)
    ensures TruePositives(triggers, [], window) == 0
  {
    if triggers != [] {
      NoEventsNoPositives(triggers[..|triggers| - 1], window);
    }
  }

  predicate HasEvent(trigger: int, events: seq<int>, window: int) {
    exists e :: e in events && -window <= trigger - e <= window
  }

  lemma NearAnyIs(trigger: int, events: seq<int>, window: int)
    ensures NearAny(trigger, events, window) <==> HasEvent(trigger, events, window)
  {
    if e :| e in events && -window <= trigger - e <= window {
      assert Near(trigger, e, window);
    }
  }

  /** The positions of the triggers with an event in the window around them. */
  ghost function Matched(triggers: seq<int>, events: seq<int>, window: int): set<nat> {
    set k: nat | k < |triggers| && HasEvent(triggers[k], events, window)
  }

  /** The true positives are these triggers. */
  lemma {:induction false} TruePositivesAre(triggers: seq<int>, events: seq<int>, window: int)
    ensures TruePositives(triggers, events, window) == |Matched(triggers, events, window)|
  {
    var all := Matched(triggers, events, window);
    if triggers == [] {
      assert all == {};
    } else {
      hide HasEvent, NearAny;
      var n := |triggers| - 1;
      TruePositivesAre(triggers[..n], events, window);
      NearAnyIs(triggers[n], events, window);
      assert all == Matched(triggers[..n], events, window) + if NearAny(triggers[n], events, window) then {n} else {};
    }
  }

  /** Every trigger is a true or a false positive. */
  method CountTrueFalsePositives(triggers: seq<int>, events: seq<int>, window: int)
    returns (truePos: nat, falsePos: nat)
    ensures truePos == TruePositives(triggers, events, window) && truePos + falsePos == |triggers|
  {
    if triggers == [] {
      return 0, 0;
    }
    if events == [] {
      NoEventsNoPositives(triggers, window);
      return 0, |triggers|;
    }
    truePos, falsePos := 0, 0;
    for i := 0 to |triggers|
      invariant truePos == TruePositives(triggers[..i], events, window) && truePos + falsePos == i
    {
      assert triggers[..i + 1][..i] == triggers[..i];
      if exists e :: e in events && Near(triggers[i], e, window) {
        truePos := truePos + 1;
      } else {
        falsePos := falsePos + 1;
      }
    }
    assert triggers[..|triggers|] == triggers;
  }

  predicate Hit(cluster: seq<int>, triggers: seq<int>, window: int) {
    exists e, g :: e in cluster && g in triggers && Near(g, e, window)
  }

  function Missed(clusters: seq<seq<int>>, triggers: seq<int>, window: int): nat {
    if clusters == [] then 0
    else Missed(clusters[..|clusters| - 1], triggers, window)
         + if Hit(clusters[|clusters| - 1], triggers, window) then 0 else 1
  }

  predicate NoTrigger(cluster: seq<int>, triggers: seq<int>, window: int) {
    forall e, g :: e in cluster && g in triggers ==> g - e > window || e - g > window
  }

  lemma HitIs(cluster: seq<int>, triggers: seq<int>, window: int)
    ensures Hit(cluster, triggers, window) <==> !NoTrigger(cluster, triggers, window)
  {
    if e, g :| e in cluster && g in triggers && !(g - e > window || e - g > window) {
      assert Near(g, e, window);
    }
  }

  /** The positions of the clusters of which no event has a trigger in the window around it. */
  ghost function Unmatched(clusters: seq<seq<int>>, triggers: seq<int>, window: int): set<nat> {
    set k: nat | k < |clusters| && NoTrigger(clusters[k], triggers, window)
  }

  /** The clusters missed are these. */
  lemma {:induction false} MissedAre(clusters: seq<seq<int>>, triggers: seq<int>, window: int)
    ensures Missed(clusters, triggers, window) == |Unmatched(clusters, triggers, window)|
  {
    var all := Unmatched(clusters, triggers, window);
    if clusters == [] {
      assert all == {};
    } else {
      hide NoTrigger, Hit;
      var n := |clusters| - 1;
      MissedAre(clusters[..n], triggers, window);
      HitIs(clusters[n], triggers, window);
      assert all == Unmatched(clusters[..n], triggers, window) + if Hit(clusters[n], triggers, window) then {} else {n};
    }
  }

  lemma {:induction false} NoTriggersAllMissed(clusters: seq<seq<int>>, window: int)
    ensures Missed(clusters, [], window) == |clusters|
  {
    if clusters != [] {
      NoTriggersAllMissed(clusters[..|clusters| - 1], window);
    }
  }

  method CountFalseNegatives(triggers: seq<int>, events: seq<int>, window: int, merge: int) returns (falseNeg: nat)
    ensures falseNeg == Missed(Merged(events, merge), triggers, window)
  {
    if events == [] {
      return 0;
    }
    var merged := MergeEvents(events, merge);
    if triggers == [] {
      NoTriggersAllMissed(merged, window);
      return |merged|;
    }
    falseNeg := 0;
    for i := 0 to |merged|
      invariant falseNeg == Missed(merged[..i], triggers, window)
    {
      assert merged[..i + 1][..i] == merged[..i];
      if !(exists e, g :: e in merged[i] && g in triggers && Near(g, e, window)) {
        falseNeg := falseNeg + 1;
      }
    }
    assert merged[..|merged|] == merged;
  }
}
