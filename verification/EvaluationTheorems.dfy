/** How clusters, true positives and false negatives add up; and the periodic events. */
module EvaluationTheorems {
  import opened Evaluation

  lemma {:induction false} MemberAt(sorted: seq<int>, merge: int, n: nat, c: nat, e: int) returns (i: nat)
    requires n <= |sorted| && e in Members(sorted, merge, n, c)
    ensures i < n && sorted[i] == e && ClusterOf(sorted, merge, i) == c
  {
    hide ClusterOf;
    if e in Members(sorted, merge, n - 1, c) {
      i := MemberAt(sorted, merge, n - 1, c, e);
    } else {
      i := n - 1;
    }
  }

  lemma {:induction false} MemberOf(sorted: seq<int>, merge: int, n: nat, i: nat)
    requires i < n <= |sorted|
    ensures sorted[i] in Members(sorted, merge, n, ClusterOf(sorted, merge, i))
    decreases n
  {
    hide ClusterOf;
    if i < n - 1 {
      MemberOf(sorted, merge, n - 1, i);
    }
  }

  // One trigger, at most one cluster.

  ghost predicate HitsOne(clusters: seq<seq<int>>, g: int, window: int) {
    forall a, b :: 0 <= a < b < |clusters| ==> !(Hit(clusters[a], [g], window) && Hit(clusters[b], [g], window))
  }

  lemma HitWitness(cluster: seq<int>, g: int, window: int) returns (e: int)
    requires Hit(cluster, [g], window)
    ensures e in cluster && Near(g, e, window)
  {
    var e', g' :| e' in cluster && g' in [g] && Near(g', e', window);
    e := e';
  }

  lemma HitMeans(events: seq<int>, merge: int, window: int, c: nat, g: int) returns (i: nat)
    requires c < |Merged(events, merge)| && Hit(Merged(events, merge)[c], [g], window)
    ensures i < |Sort(events)| && ClusterOf(Sort(events), merge, i) == c && Near(g, Sort(events)[i], window)
  {
    var sorted := Sort(events);
    assert sorted != [];
    ClustersAreMembers(sorted, merge, |sorted|);
    hide ClusterOf, Hit, Sort, Members, Clusters;
    var e := HitWitness(Merged(events, merge)[c], g, window);
    i := MemberAt(sorted, merge, |sorted|, c, e);
  }

  lemma OneTriggerOneCluster(events: seq<int>, merge: int, window: int, g: int)
    requires 2 * window <= merge
    ensures HitsOne(Merged(events, merge), g, window)
  {
    hide Sort, Clusters, ClusterOf, Hit, Merged;
    var cs := Merged(events, merge);
    forall a, b | 0 <= a < b < |cs| ensures !(Hit(cs[a], [g], window) && Hit(cs[b], [g], window)) {
      if Hit(cs[a], [g], window) && Hit(cs[b], [g], window) {
        var i := HitMeans(events, merge, window, a, g);
        var j := HitMeans(events, merge, window, b, g);
        NotBothNear(events, merge, window, i, j, g);
      }
    }
  }

  lemma NotBothNear(events: seq<int>, merge: int, window: int, i: nat, j: nat, g: int)
    requires 2 * window <= merge && i < |Sort(events)| && j < |Sort(events)|
    requires Near(g, Sort(events)[i], window) && Near(g, Sort(events)[j], window)
    ensures ClusterOf(Sort(events), merge, i) == ClusterOf(Sort(events), merge, j)
  {
    var sorted := Sort(events);
    SortSorts(events);
    hide ClusterOf, Sort;
    if ClusterOf(sorted, merge, i) != ClusterOf(sorted, merge, j) {
      if i <= j {
        ClustersApart(sorted, merge, i, j);
      } else {
        ClustersApart(sorted, merge, j, i);
      }
    }
  }

  lemma HitSplits(cluster: seq<int>, triggers: seq<int>, g: int, window: int)
    ensures Hit(cluster, triggers + [g], window) <==> Hit(cluster, triggers, window) || Hit(cluster, [g], window)
  {
    if Hit(cluster, triggers, window) {
      var e, h :| e in cluster && h in triggers && Near(h, e, window);
      assert h in triggers + [g];
    }
    if Hit(cluster, [g], window) {
      var e := HitWitness(cluster, g, window);
      assert g in triggers + [g];
    }
    if Hit(cluster, triggers + [g], window) {
      var e, h :| e in cluster && h in triggers + [g] && Near(h, e, window);
      assert h in triggers || h in [g];
    }
  }

  /** Whether one of the first n clusters is hit by g. */
  ghost predicate HitsBelow(clusters: seq<seq<int>>, n: nat, g: int, window: int)
    requires n <= |clusters|
  {
    exists c :: 0 <= c < n && Hit(clusters[c], [g], window)
  }

  lemma {:induction false} OneMoreTrigger(clusters: seq<seq<int>>, n: nat, triggers: seq<int>, g: int, window: int)
    requires n <= |clusters| && HitsOne(clusters, g, window)
    ensures Missed(clusters[..n], triggers, window)
      <= Missed(clusters[..n], triggers + [g], window) + if HitsBelow(clusters, n, g, window) then 1 else 0
  {
    if n > 0 {
      OneMoreTrigger(clusters, n - 1, triggers, g, window);
      assert clusters[..n][..n - 1] == clusters[..n - 1];
      HitSplits(clusters[n - 1], triggers, g, window);
      hide Hit;
    }
  }

  lemma HitIsNear(events: seq<int>, merge: int, window: int, g: int)
    ensures HitsBelow(Merged(events, merge), |Merged(events, merge)|, g, window) <==> NearAny(g, events, window)
  {
    var cs, sorted := Merged(events, merge), Sort(events);
    if HitsBelow(cs, |cs|, g, window) {
      var c :| 0 <= c < |cs| && Hit(cs[c], [g], window);
      var i := HitMeans(events, merge, window, c, g);
      SameMembers(events, sorted[i]);
    }
    if NearAny(g, events, window) {
      var e :| e in events && Near(g, e, window);
      SameMembers(events, e);
      var i: nat :| i < |sorted| && sorted[i] == e;
      NearHits(events, merge, window, g, i);
    }
  }

  lemma NearHits(events: seq<int>, merge: int, window: int, g: int, i: nat)
    requires i < |Sort(events)| && Near(g, Sort(events)[i], window)
    ensures HitsBelow(Merged(events, merge), |Merged(events, merge)|, g, window)
  {
    var cs, sorted := Merged(events, merge), Sort(events);
    hide Sort, Clusters, ClusterOf, Members;
    ClustersAreMembers(sorted, merge, |sorted|);
    ClusterOfMonotone(sorted, merge, i, |sorted| - 1);
    MemberOf(sorted, merge, |sorted|, i);
    var c := ClusterOf(sorted, merge, i);
    assert sorted[i] in cs[c] && g in [g];
    assert Hit(cs[c], [g], window);
  }

  /** While a trigger can match one cluster at most, every cluster is accounted for by a true positive
      or a false negative. */
  lemma {:induction false} ClustersCounted(triggers: seq<int>, events: seq<int>, window: int, merge: int)
    requires 2 * window <= merge
    ensures |Merged(events, merge)|
      <= TruePositives(triggers, events, window) + Missed(Merged(events, merge), triggers, window)
  {
    var cs := Merged(events, merge);
    if triggers == [] {
      NoTriggersAllMissed(cs, window);
    } else {
      hide Sort, Clusters, Hit, NearAny, Merged, Missed;
      var init, g := triggers[..|triggers| - 1], triggers[|triggers| - 1];
      ClustersCounted(init, events, window, merge);
      OneTriggerOneCluster(events, merge, window, g);
      OneMoreTrigger(cs, |cs|, init, g, window);
      assert cs[..|cs|] == cs && init + [g] == triggers;
      HitIsNear(events, merge, window, g);
    }
  }

  ghost predicate Accounted(triggers: seq<int>, events: seq<int>, window: int, merge: int) {
    |Merged(events, merge)| <= TruePositives(triggers, events, window) + Missed(Merged(events, merge), triggers, window)
  }

  lemma {:induction false} NegativeWindow(triggers: seq<int>, clusters: seq<seq<int>>, window: int)
    requires window < 0
    ensures Missed(clusters, triggers, window) == |clusters|
  {
    if clusters != [] {
      NegativeWindow(triggers, clusters[..|clusters| - 1], window);
    }
  }

  /** Two events that one trigger matches, in two clusters. */
  lemma OneTriggerTwoClusters(window: int, merge: int) returns (triggers: seq<int>, events: seq<int>)
    requires window >= 0 && 2 * window > merge
    ensures !Accounted(triggers, events, window, merge)
  {
    var b := if merge < 0 then 0 else merge + 1;
    var g := if merge < 0 then 0 else window;
    triggers, events := [g], [0, b];
    TwoSorted(0, b);
    TwoClusters(0, b, merge);
    assert Near(g, 0, window) && Near(g, b, window);
    BothHit(0, b, g, window);
    OnePositive(g, events, window);
  }

  lemma TwoSorted(a: int, b: int)
    requires a <= b
    ensures Sort([a, b]) == [a, b]
  {
    assert [a, b][..1] == [a] && [a][..0] == [];
    assert Sort([a]) == [a];
  }

  lemma TwoClusters(a: int, b: int, merge: int)
    requires b - a > merge
    ensures Clusters([a, b], merge, 2) == [[a], [b]]
  {
    assert Clusters([a, b], merge, 1) == [[a]];
  }

  lemma BothHit(a: int, b: int, g: int, window: int)
    requires Near(g, a, window) && Near(g, b, window)
    ensures Missed([[a], [b]], [g], window) == 0
  {
    assert a in [a] && b in [b] && g in [g];
    assert [[a], [b]][..1] == [[a]] && [[a]][..0] == [];
    assert Missed([[a]], [g], window) == 0;
  }

  lemma OnePositive(g: int, events: seq<int>, window: int)
    ensures TruePositives([g], events, window) <= 1
  {
    assert [g][..0] == [];
    assert TruePositives([], events, window) == 0;
  }

  /** For all triggers and events the clusters are accounted for, exactly if twice the match window is
      at most the merge threshold (or the window matches nothing); the defaults are 300 and 800. */
  lemma AccountedIff(window: int, merge: int)
    ensures (forall triggers, events :: Accounted(triggers, events, window, merge)) <==>
      (window < 0 || 2 * window <= merge)
  {
    if window < 0 || 2 * window <= merge {
      forall triggers, events ensures Accounted(triggers, events, window, merge) {
        if window < 0 {
          NegativeWindow(triggers, Merged(events, merge), window);
        } else {
          ClustersCounted(triggers, events, window, merge);
        }
      }
    } else {
      var triggers, events := OneTriggerTwoClusters(window, merge);
    }
  }

  lemma {:induction false} AllMissedIff(clusters: seq<seq<int>>, triggers: seq<int>, window: int)
    ensures Missed(clusters, triggers, window) <= |clusters|
    ensures Missed(clusters, triggers, window) == |clusters| <==>
      forall c :: 0 <= c < |clusters| ==> !Hit(clusters[c], triggers, window)
  {
    if clusters != [] {
      var init := clusters[..|clusters| - 1];
      AllMissedIff(init, triggers, window);
      assert forall c :: 0 <= c < |init| ==> clusters[c] == init[c];
    }
  }

  lemma {:induction false} NoPositivesIff(triggers: seq<int>, events: seq<int>, window: int)
    ensures TruePositives(triggers, events, window) == 0 <==>
      forall k :: 0 <= k < |triggers| ==> !NearAny(triggers[k], events, window)
  {
    if triggers != [] {
      var init := triggers[..|triggers| - 1];
      NoPositivesIff(init, events, window);
      hide NearAny;
      assert forall k :: 0 <= k < |init| ==> triggers[k] == init[k];
    }
  }

  lemma HitBySome(cluster: seq<int>, triggers: seq<int>, window: int)
    ensures Hit(cluster, triggers, window) <==> exists k :: 0 <= k < |triggers| && Hit(cluster, [triggers[k]], window)
  {
    if Hit(cluster, triggers, window) {
      var e, g :| e in cluster && g in triggers && Near(g, e, window);
      var k :| 0 <= k < |triggers| && triggers[k] == g;
      assert g in [triggers[k]];
    }
    if k :| 0 <= k < |triggers| && Hit(cluster, [triggers[k]], window) {
      var e := HitWitness(cluster, triggers[k], window);
    }
  }

  /** There is no true positive exactly if every cluster is missed. */
  lemma NoneIffAllMissed(triggers: seq<int>, events: seq<int>, window: int, merge: int)
    ensures TruePositives(triggers, events, window) == 0
      <==> Missed(Merged(events, merge), triggers, window) == |Merged(events, merge)|
  {
    var cs := Merged(events, merge);
    NoPositivesIff(triggers, events, window);
    AllMissedIff(cs, triggers, window);
    hide Merged, NearAny, Hit, TruePositives, Missed;
    forall k | 0 <= k < |triggers|
      ensures NearAny(triggers[k], events, window) <==> HitsBelow(cs, |cs|, triggers[k], window)
    {
      HitIsNear(events, merge, window, triggers[k]);
    }
    forall c | 0 <= c < |cs|
      ensures Hit(cs[c], triggers, window) <==> exists k :: 0 <= k < |triggers| && Hit(cs[c], [triggers[k]], window)
    {
      HitBySome(cs[c], triggers, window);
    }
  }
}
