/** Projections of the message queues of the closed system, and how they behave at both ends. */
module Queues {
  import opened Wire
  import O = Orchestrator
  import C = ManagementClient

  /** The messages of an uplink other than signals. */
  function SolidUp(us: seq<Up>): seq<Up> {
    if us == [] then []
    else if us[0].PeerSignal? then SolidUp(us[1..])
    else [us[0]] + SolidUp(us[1..])
  }

  /** The messages of a downlink other than forwarded signals. */
  function SolidDown(ds: seq<Down>): seq<Down> {
    if ds == [] then []
    else if ds[0].Forwarded? then SolidDown(ds[1..])
    else [ds[0]] + SolidDown(ds[1..])
  }

  /** What the holder of the lock has yet to send to `p`. */
  function Pending(todo: seq<O.Send>, p: Name): seq<Down> {
    if todo == [] then []
    else if todo[0].to == p then [todo[0].message] + Pending(todo[1..], p)
    else Pending(todo[1..], p)
  }

  /** The case a peer works on after receiving these messages. */
  function CaseAfter(ds: seq<Down>): Option<nat> {
    if ds == [] then None
    else match ds[|ds| - 1]
      case Configure(k) => Some(k)
      case Shutdown => None
      case _ => CaseAfter(ds[..|ds| - 1])
  }

  /** Every forwarded signal arrives while the peer works on the case the signal was emitted in. */
  predicate InOwnCase(ds: seq<Down>) {
    ds == [] || (
      && InOwnCase(ds[..|ds| - 1])
      && (ds[|ds| - 1].Forwarded? ==> CaseAfter(ds[..|ds| - 1]) == Some(ds[|ds| - 1].signal.run)))
  }

  lemma ConsConcat<T>(h: T, s: seq<T>, t: seq<T>)
    ensures ([h] + s) + t == [h] + (s + t)
  {}

  lemma {:induction false} SolidUpConcat(a: seq<Up>, b: seq<Up>)
    ensures SolidUp(a + b) == SolidUp(a) + SolidUp(b)
  {
    if a == [] {
      assert a + b == b;
    } else {
      assert (a + b)[0] == a[0] && (a + b)[1..] == a[1..] + b;
      SolidUpConcat(a[1..], b);
      ConsConcat(a[0], SolidUp(a[1..]), SolidUp(b));
    }
  }

  lemma {:induction false} SolidDownConcat(a: seq<Down>, b: seq<Down>)
    ensures SolidDown(a + b) == SolidDown(a) + SolidDown(b)
  {
    if a == [] {
      assert a + b == b;
    } else {
      assert (a + b)[0] == a[0] && (a + b)[1..] == a[1..] + b;
      SolidDownConcat(a[1..], b);
      ConsConcat(a[0], SolidDown(a[1..]), SolidDown(b));
    }
  }

  lemma {:induction false} SolidUpAll(us: seq<Up>)
    requires forall i :: 0 <= i < |us| ==> !us[i].PeerSignal?
    ensures SolidUp(us) == us
  {
    if us != [] {
      SolidUpAll(us[1..]);
    }
  }

  lemma {:induction false} SolidUpHas(us: seq<Up>, i: nat)
    requires i < |us| && !us[i].PeerSignal?
    ensures us[i] in SolidUp(us)
  {
    if i > 0 {
      SolidUpHas(us[1..], i - 1);
    }
  }

  lemma {:induction false} SolidDownHas(ds: seq<Down>, i: nat)
    requires i < |ds| && !ds[i].Forwarded?
    ensures ds[i] in SolidDown(ds)
  {
    if i > 0 {
      SolidDownHas(ds[1..], i - 1);
    }
  }

  lemma {:induction false} PendingToAll(order: seq<Name>, m: Down, p: Name)
    requires forall i, j :: 0 <= i < j < |order| ==> order[i] != order[j]
    ensures Pending(O.ToAll(order, m), p) == if p in order then [m] else []
  {
    if order != [] {
      assert O.ToAll(order, m)[1..] == O.ToAll(order[1..], m);
      assert order == [order[0]] + order[1..];
      PendingToAll(order[1..], m, p);
    }
  }

  lemma {:induction false} InOwnCaseSplit(a: seq<Down>, b: seq<Down>)
    requires InOwnCase(a + b)
    ensures InOwnCase(a)
    decreases |b|
  {
    if b == [] {
      assert a + b == a;
    } else {
      assert (a + b)[..|a + b| - 1] == a + b[..|b| - 1];
      InOwnCaseSplit(a, b[..|b| - 1]);
    }
  }
}
