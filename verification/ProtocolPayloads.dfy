/** What the executors hand over, signals and results, as the events of a run say. */
module ProtocolPayloads {
  import opened Wire
  import opened Protocol
  import opened ProtocolHistory
  import opened ProtocolSignals
  import opened ProtocolTheorems
  import P = ProtocolProgress
  import O = Orchestrator
  import C = ManagementClient

  function Payloads(ss: seq<Signal>): seq<Bytes> {
    seq(|ss|, i requires 0 <= i < |ss| => ss[i].data)
  }

  function Contents(bs: seq<C.Batch>): seq<seq<Item>> {
    seq(|bs|, i requires 0 <= i < |bs| => bs[i].items)
  }

  /** The payloads that the executors of peer p hand to sendSignal. */
  function Handed(es: seq<Event>, p: Name): seq<Bytes>
    decreases |es|
  {
    if es == [] then []
    else (if es[0].SendSignal? && es[0].p == p then [es[0].data] else []) + Handed(es[1..], p)
  }

  /** Peer p handles a Stop of its executor. */
  predicate Stops(w: World, e: Event, p: Name) {
    && e.DeliverDown? && e.p == p && p < |w.peers|
    && w.peers[p].downlink != [] && w.peers[p].downlink[0].Stop? && w.peers[p].currentCase.Some?
  }

  /** What the executors of peer p leave behind when they are stopped. */
  ghost function LeftBehind(plan: O.Plan, w: World, es: seq<Event>, p: Name): seq<seq<Item>>
    requires Runs(plan, w, es)
    decreases |es|
  {
    if es == [] then []
    else (if Stops(w, es[0], p) then [es[0].items] else []) + LeftBehind(plan, Apply(plan, w, es[0]), es[1..], p)
  }

  // One step.

  lemma ReactGives(pe: C.Peer, items: seq<Item>, budget: nat)
    requires C.Receptive(pe)
    ensures C.React(pe, items, budget).emitted == pe.emitted
    ensures Contents(C.React(pe, items, budget).sent)
      == if pe.downlink[0].Stop? && pe.currentCase.Some? then Contents(pe.sent) + [items] else Contents(pe.sent)
  {
    hide C.Uploads;
  }

  lemma EmitGives(pe: C.Peer, me: Name, data: Bytes)
    requires pe.currentCase.Some? && pe.budget > 0
    ensures Payloads(C.EmitSignal(pe, me, data).emitted) == Payloads(pe.emitted) + [data]
    ensures C.EmitSignal(pe, me, data).sent == pe.sent
  {}

  lemma UpGives(plan: O.Plan, w: World, q: Name, order: seq<Name>, p: Name)
    requires p < |w.peers| && Enabled(plan, w, DeliverUp(q, order))
    ensures var w' := Apply(plan, w, DeliverUp(q, order));
      |w'.peers| == |w.peers| && w'.peers[p].emitted == w.peers[p].emitted && w'.peers[p].sent == w.peers[p].sent
  {
    hide O.Listener;
  }

  lemma StepGives(plan: O.Plan, w: World, e: Event, p: Name)
    requires p < |w.peers| && Enabled(plan, w, e)
    ensures |Apply(plan, w, e).peers| == |w.peers|
    ensures Payloads(Apply(plan, w, e).peers[p].emitted)
      == if e.SendSignal? && e.p == p then Payloads(w.peers[p].emitted) + [e.data] else Payloads(w.peers[p].emitted)
    ensures Contents(Apply(plan, w, e).peers[p].sent)
      == if Stops(w, e, p) then Contents(w.peers[p].sent) + [e.items] else Contents(w.peers[p].sent)
  {
    hide Payloads, Contents, C.React, C.EmitSignal, HandleUp, O.StopTest, O.ShutdownAll, O.Settle;
    match e {
      case DeliverUp(q, order) => UpGives(plan, w, q, order, p);
      case DeliverDown(q, items, budget) => ReactGives(w.peers[q], items, budget);
      case SendSignal(q, data) => EmitGives(w.peers[q], q, data);
      case _ =>
    }
  }

  // Runs.

  /** What a peer has emitted and sent is what its executors handed over, in order. */
  lemma {:induction false} RunGives(plan: O.Plan, w: World, es: seq<Event>, p: Name)
    requires p < |w.peers| && Runs(plan, w, es)
    ensures |After(plan, w, es).peers| == |w.peers|
    ensures Payloads(After(plan, w, es).peers[p].emitted) == Payloads(w.peers[p].emitted) + Handed(es, p)
    ensures Contents(After(plan, w, es).peers[p].sent) == Contents(w.peers[p].sent) + LeftBehind(plan, w, es, p)
    decreases |es|
  {
    hide Payloads, Contents, Apply, Enabled, Stops;
    if es != [] {
      StepGives(plan, w, es[0], p);
      RunGives(plan, Apply(plan, w, es[0]), es[1..], p);
    }
  }

  lemma {:induction false} PeersStay(plan: O.Plan, w: World, es: seq<Event>)
    requires Runs(plan, w, es)
    ensures |After(plan, w, es).peers| == |w.peers|
    decreases |es|
  {
    hide Apply, Enabled;
    if es != [] {
      PeersStayOnce(plan, w, es[0]);
      PeersStay(plan, Apply(plan, w, es[0]), es[1..]);
    }
  }

  lemma PeersStayOnce(plan: O.Plan, w: World, e: Event)
    requires Enabled(plan, w, e)
    ensures |Apply(plan, w, e).peers| == |w.peers|
  {
    hide O.Listener, O.StopTest, O.ShutdownAll, C.React, C.AssignCase, C.FinishConfigure, C.EmitSignal, C.ReportTesting;
  }

  /** At any time, the payloads that another peer has been sent followed by those on the way are those
      that the executors of p handed over, in order. */
  lemma PayloadsConserved(plan: O.Plan, es: seq<Event>, p: Name, q: Name)
    requires plan.cases > 0 && Runs(plan, Initial(plan), es) && p < plan.peers && q < plan.peers && p != q
    ensures var w := After(plan, Initial(plan), es);
      && |w.peers| == plan.peers
      && Payloads(SignalsOf(p, Heard(w.peers[q])) + SignalsUp(w.peers[p].uplink)) == Handed(es, p)
  {
    var w := After(plan, Initial(plan), es);
    assert Reachable(plan, w);
    hide Reachable, Runs, After, Payloads, Contents;
    AllGiven(plan, es);
    SignalsConserved(plan, w, p, q);
  }

  /** When a run can go no further, every peer has received exactly the payloads that each other peer's
      executors handed over, and the server holds exactly what they left behind, both in order. */
  lemma AllDelivered(plan: O.Plan, es: seq<Event>)
    requires plan.cases > 0 && plan.peers > 0 && Runs(plan, Initial(plan), es)
    requires forall e :: !Enabled(plan, After(plan, Initial(plan), es), e)
    ensures var w := After(plan, Initial(plan), es);
      && |w.peers| == plan.peers
      && (forall p, q :: 0 <= p < plan.peers && 0 <= q < plan.peers && p != q ==>
            Payloads(SignalsOf(p, w.peers[q].log)) == Handed(es, p))
      && (forall p :: 0 <= p < plan.peers ==>
            Contents(w.peers[p].sent) == LeftBehind(plan, Initial(plan), es, p)
            && Taken(w.accepted, p) == Flatten(w.peers[p].sent))
  {
    var w := After(plan, Initial(plan), es);
    assert Reachable(plan, w);
    AllGiven(plan, es);
    hide Reachable, Runs, After, Payloads, Contents;
    P.StuckIsDone(plan, w);
  }

  lemma AllGiven(plan: O.Plan, es: seq<Event>)
    requires Runs(plan, Initial(plan), es)
    ensures var w := After(plan, Initial(plan), es);
      && |w.peers| == plan.peers
      && forall p :: 0 <= p < plan.peers ==>
           && Payloads(w.peers[p].emitted) == Handed(es, p)
           && Contents(w.peers[p].sent) == LeftBehind(plan, Initial(plan), es, p)
  {
    PeersStay(plan, Initial(plan), es);
    hide Runs, After;
    forall p | 0 <= p < plan.peers
      ensures var pe := After(plan, Initial(plan), es).peers[p];
        && Payloads(pe.emitted) == Handed(es, p)
        && Contents(pe.sent) == LeftBehind(plan, Initial(plan), es, p)
    {
      RunGives(plan, Initial(plan), es, p);
    }
  }
}
