/** Every run of the closed system ends, and it can only end with all peers shut down and every
    result of every case stored. */
module ProtocolProgress {
  import opened Wire
  import opened Queues
  import opened Protocol
  import opened ProtocolInvariant
  import opened ProtocolSteps
  import opened ProtocolSafety
  import opened ProtocolHistory
  import opened ProtocolSignals
  import opened ProtocolTheorems
  import O = Orchestrator
  import C = ManagementClient

  function Total(ps: seq<C.Peer>, f: C.Peer -> nat): nat {
    if ps == [] then 0 else f(ps[0]) + Total(ps[1..], f)
  }

  lemma {:induction false} TotalPut(ps: seq<C.Peer>, f: C.Peer -> nat, i: nat, q: C.Peer)
    requires i < |ps|
    ensures Total(ps[i := q], f) == Total(ps, f) - f(ps[i]) + f(q)
  {
    if i == 0 {
      assert ps[i := q][1..] == ps[1..];
    } else {
      assert ps[i := q][1..] == ps[1..][i - 1 := q];
      TotalPut(ps[1..], f, i - 1, q);
    }
  }

  lemma {:induction false} TotalSame(ps: seq<C.Peer>, qs: seq<C.Peer>, f: C.Peer -> nat)
    requires |ps| == |qs| && forall i :: 0 <= i < |ps| ==> f(ps[i]) == f(qs[i])
    ensures Total(ps, f) == Total(qs, f)
  {
    if ps != [] {
      TotalSame(ps[1..], qs[1..], f);
    }
  }

  // The measure, most significant part first.

  function Jobs(js: seq<C.Job>): nat {
    if js == [] then 0 else (if js[0].installed then 1 else 2) + Jobs(js[1..])
  }

  /** Work that commands under way can still cause at the peer. */
  function Work(pe: C.Peer): nat {
    (if !pe.connected then 8 else if !pe.registered then 7 else 0)
    + 4 * |SolidDown(pe.downlink)| + Jobs(pe.jobs) + (if pe.starting then 1 else 0)
  }

  function Budget(pe: C.Peer): nat { pe.budget }

  function Upward(pe: C.Peer): nat { |pe.uplink| }

  function Downward(pe: C.Peer): nat { |pe.downlink| }

  datatype Measure = Measure(unissued: int, work: nat, signals: nat, up: nat, down: nat)

  function MeasureOf(plan: O.Plan, w: World): Measure {
    Measure(
      3 * plan.cases + 1 - |w.orch.issued|,
      Total(w.peers, Work) + if w.orch.activity.Sending? then 5 * |w.orch.activity.todo| else 0,
      Total(w.peers, Budget),
      Total(w.peers, Upward),
      Total(w.peers, Downward) + |w.unwritten| + if w.orch.activity.Sending? then 1 else 0)
  }

  predicate Less(m: Measure, n: Measure) {
    m.unissued < n.unissued || (m.unissued == n.unissued && (
      m.work < n.work || (m.work == n.work && (
        m.signals < n.signals || (m.signals == n.signals && (
          m.up < n.up || (m.up == n.up && m.down < n.down)))))))
  }

  /** A step that changes one peer and none of the orchestrator's sends. */
  lemma PutMeasure(plan: O.Plan, w: World, w': World, p: Name, q: C.Peer)
    requires p < |w.peers| && w'.peers == w.peers[p := q]
    requires w'.orch.issued == w.orch.issued
    requires w'.orch.activity.Sending? == w.orch.activity.Sending?
    requires w.orch.activity.Sending? ==> |w'.orch.activity.todo| == |w.orch.activity.todo|
    ensures var m, m' := MeasureOf(plan, w), MeasureOf(plan, w');
      && m'.unissued == m.unissued
      && m'.work == m.work - Work(w.peers[p]) + Work(q)
      && m'.signals == m.signals - w.peers[p].budget + q.budget
      && m'.up == m.up - |w.peers[p].uplink| + |q.uplink|
      && m'.down - |w'.unwritten| == m.down - |w.unwritten| - |w.peers[p].downlink| + |q.downlink|
  {
    TotalPut(w.peers, Work, p, q);
    TotalPut(w.peers, Budget, p, q);
    TotalPut(w.peers, Upward, p, q);
    TotalPut(w.peers, Downward, p, q);
  }

  lemma OneJob(pe: C.Peer, known: Option<ClientState>, pending: seq<Down>, loc: Loc, stage: Stage, k: nat, i: nat)
    requires PeerAt(pe, known, pending, loc, stage, k) && i < |pe.jobs|
    ensures i == 0 && |pe.jobs| == 1
  {}

  lemma LocalLess(plan: O.Plan, w: World, e: Event, stage: Stage, locs: seq<Loc>)
    requires Located(plan, w, stage, locs) && Enabled(plan, w, e)
    requires e.Connect? || e.AssignCase? || e.FinishConfigure? || e.ReportTesting? || e.SendSignal?
    ensures Less(MeasureOf(plan, Apply(plan, w, e)), MeasureOf(plan, w))
  {
    hide PeerAt, StageInv, Total, SolidDown;
    var w' := Apply(plan, w, e);
    var pe, q := w.peers[e.p], w'.peers[e.p];
    if e.AssignCase? || e.FinishConfigure? {
      OneJob(pe, Entry(w.orch, e.p), Unsent(w.orch, e.p), locs[e.p], stage, w.orch.currentCase, e.i);
      assert pe.jobs == [pe.jobs[0]];
      if e.AssignCase? {
        assert q.jobs == [pe.jobs[0].(installed := true)];
      } else {
        assert q.jobs == [];
      }
    }
    if e.Connect? {
      Unjoined(pe, Entry(w.orch, e.p), Unsent(w.orch, e.p), locs[e.p], stage, w.orch.currentCase);
    }
    PutMeasure(plan, w, w', e.p, q);
  }

  lemma Unjoined(pe: C.Peer, known: Option<ClientState>, pending: seq<Down>, loc: Loc, stage: Stage, k: nat)
    requires PeerAt(pe, known, pending, loc, stage, k) && !pe.connected
    ensures !pe.registered
  {}

  lemma DownLess(plan: O.Plan, w: World, e: Event)
    requires Enabled(plan, w, e) && e.DeliverDown?
    ensures Less(MeasureOf(plan, Apply(plan, w, e)), MeasureOf(plan, w))
  {
    hide Total, SolidDown;
    var pe := w.peers[e.p];
    var q := C.React(pe, e.items, e.budget);
    PopDown(pe.downlink, pe.log);
    JobsPush(pe.jobs);
    PutMeasure(plan, w, Apply(plan, w, e), e.p, q);
  }

  lemma {:induction false} JobsConcat(a: seq<C.Job>, b: seq<C.Job>)
    ensures Jobs(a + b) == Jobs(a) + Jobs(b)
  {
    if a == [] {
      assert a + b == b;
    } else {
      assert (a + b)[1..] == a[1..] + b;
      JobsConcat(a[1..], b);
    }
  }

  lemma JobsPush(js: seq<C.Job>)
    ensures forall k :: Jobs(js + [C.Job(k, false)]) == Jobs(js) + 2
  {
    forall k ensures Jobs(js + [C.Job(k, false)]) == Jobs(js) + 2 {
      JobsConcat(js, [C.Job(k, false)]);
    }
  }

  lemma UpLess(plan: O.Plan, w: World, p: Name, order: seq<Name>, stage: Stage, locs: seq<Loc>)
    requires Located(plan, w, stage, locs) && Enabled(plan, w, DeliverUp(p, order))
    ensures Less(MeasureOf(plan, Apply(plan, w, DeliverUp(p, order))), MeasureOf(plan, w))
  {
    hide PeerAt, StageInv, Total, SolidDown;
    var pe := w.peers[p];
    var w' := Apply(plan, w, DeliverUp(p, order));
    match pe.uplink[0] {
      case Register =>
        RegisterStage(pe, Entry(w.orch, p), Unsent(w.orch, p), locs[p], stage, w.orch.currentCase);
        GatherFree(plan, w.orch, stage, locs);
        UpRegisterLocal(pe, Entry(w.orch, p), locs[p], stage, w.orch.currentCase);
        Unregistered(pe, Entry(w.orch, p), locs[p], stage, w.orch.currentCase);
        SolidDownPush(pe.downlink, RegisterOk);
        PutMeasure(plan, w, w', p, w'.peers[p]);
      case StateUpdate(_) =>
        ReportLess(plan, w, p, order);
      case PeerSignal(s) =>
        SignalLess(plan, w, w', p, s);
      case Upload(_, _) =>
        UpUploadLocal(pe, Entry(w.orch, p), Unsent(w.orch, p), locs[p], stage, w.orch.currentCase);
        PutMeasure(plan, w, w', p, Popped(pe));
    }
  }

  lemma ReportLess(plan: O.Plan, w: World, p: Name, order: seq<Name>)
    requires Enabled(plan, w, DeliverUp(p, order)) && w.peers[p].uplink[0].StateUpdate?
    ensures Less(MeasureOf(plan, Apply(plan, w, DeliverUp(p, order))), MeasureOf(plan, w))
  {
    hide Total, Work;
    var w' := Apply(plan, w, DeliverUp(p, order));
    if |w'.orch.issued| == |w.orch.issued| {
      PutMeasure(plan, w, w', p, Popped(w.peers[p]));
      WorkPopped(w.peers[p]);
    }
  }

  lemma WorkPopped(pe: C.Peer)
    requires pe.uplink != []
    ensures Work(Popped(pe)) == Work(pe)
  {}

  lemma GatherFree(plan: O.Plan, o: O.State, stage: Stage, locs: seq<Loc>)
    requires StageInv(plan, o, stage, locs) && stage.Gather?
    ensures o.activity.Free?
  {}

  lemma SolidDownPush(ds: seq<Down>, m: Down)
    ensures |SolidDown(ds + [m])| == |SolidDown(ds)| + if m.Forwarded? then 0 else 1
  {
    SolidDownConcat(ds, [m]);
  }

  lemma SignalLess(plan: O.Plan, w: World, w': World, p: Name, s: Signal)
    requires p < |w.peers| && w.peers[p].uplink != []
    requires w' == w.(peers := Broadcast(Put(w, p, Popped(w.peers[p])).peers, p, s))
    ensures Less(MeasureOf(plan, w'), MeasureOf(plan, w))
  {
    hide Total, SolidDown;
    var mid := Put(w, p, Popped(w.peers[p]));
    PutMeasure(plan, w, mid, p, Popped(w.peers[p]));
    forall q | 0 <= q < |w.peers|
      ensures Work(w'.peers[q]) == Work(mid.peers[q])
    {
      SolidDownPush(mid.peers[q].downlink, Forwarded(s));
    }
    TotalSame(w'.peers, mid.peers, Work);
    TotalSame(w'.peers, mid.peers, Budget);
    TotalSame(w'.peers, mid.peers, Upward);
  }

  lemma SendLess(plan: O.Plan, w: World)
    requires w.orch.activity.Sending? && w.orch.activity.todo != []
    requires var p := w.orch.activity.todo[0].to; p < |w.peers| && w.peers[p].registered
    ensures Less(MeasureOf(plan, SendOne(w)), MeasureOf(plan, w))
  {
    hide Total, SolidDown;
    var p, m, w' := w.orch.activity.todo[0].to, w.orch.activity.todo[0].message, SendOne(w);
    SolidDownPush(w.peers[p].downlink, m);
    TotalPut(w.peers, Work, p, w'.peers[p]);
    assert w'.peers == w.peers[p := w'.peers[p]];
  }

  lemma NextTarget(plan: O.Plan, w: World, stage: Stage, locs: seq<Loc>)
    requires w.orch.activity.Sending? && w.orch.activity.todo != []
    requires Located(plan, w, stage, locs)
    ensures w.orch.activity.todo[0].to < |w.peers| && w.peers[w.orch.activity.todo[0].to].registered
  {
    hide PeerAt;
    var p, m := w.orch.activity.todo[0].to, w.orch.activity.todo[0].message;
    var o' := w.orch.(activity := w.orch.activity.(todo := w.orch.activity.todo[1..]));
    UnsentPop(w.orch, p);
    SentPlain(w.peers[p], Entry(w.orch, p), m, Unsent(o', p), locs[p], stage, w.orch.currentCase);
  }

  /** Every step makes the measure smaller. */
  lemma StepLess(plan: O.Plan, w: World, e: Event, stage: Stage, locs: seq<Loc>)
    requires Located(plan, w, stage, locs) && Enabled(plan, w, e)
    ensures Less(MeasureOf(plan, Apply(plan, w, e)), MeasureOf(plan, w))
  {
    hide Located, Total;
    match e {
      case DeliverUp(p, order) => UpLess(plan, w, p, order, stage, locs);
      case DeliverDown(_, _, _) => DownLess(plan, w, e);
      case SendNext => NextTarget(plan, w, stage, locs); SendLess(plan, w);
      case FinishSending =>
      case FireTimer(order) => TimerCase(plan, w, stage, locs);
      case WriteDone(_) =>
      case BeginShutdown(order) =>
      case _ => LocalLess(plan, w, e, stage, locs);
    }
  }

  lemma TimerCase(plan: O.Plan, w: World, stage: Stage, locs: seq<Loc>)
    requires Located(plan, w, stage, locs)
    ensures w.orch.currentCase < plan.cases
  {}

  ghost predicate Steps(plan: O.Plan, w: World, w': World) {
    exists e :: Enabled(plan, w, e) && Apply(plan, w, e) == w'
  }

  lemma Unissued(plan: O.Plan, w: World, stage: Stage, locs: seq<Loc>)
    requires Located(plan, w, stage, locs)
    ensures MeasureOf(plan, w).unissued >= 0
  {
    IssuedLength(plan, w.orch, stage, locs);
  }

  /** No sequence of worlds starting in a reachable one goes on stepping for ever. */
  lemma {:induction false} RunEnds(plan: O.Plan, run: nat -> World, i: nat, stage: Stage, locs: seq<Loc>)
    returns (j: nat)
    requires Holds(plan, run(i), stage, locs)
    ensures i <= j && !Steps(plan, run(j), run(j + 1))
    decreases MeasureOf(plan, run(i)).unissued, MeasureOf(plan, run(i)).work, MeasureOf(plan, run(i)).signals,
              MeasureOf(plan, run(i)).up, MeasureOf(plan, run(i)).down
  {
    hide MeasureOf, Located, Recorded, Relayed, Enabled, Apply, Finishing;
    j := i;
    if Steps(plan, run(i), run(i + 1)) {
      var e :| Enabled(plan, run(i), e) && Apply(plan, run(i), e) == run(i + 1);
      var stage', locs' := StepHolds(plan, run(i), e, stage, locs);
      StepLess(plan, run(i), e, stage, locs);
      Unissued(plan, run(i), stage, locs);
      Unissued(plan, run(i + 1), stage', locs');
      j := RunEnds(plan, run, i + 1, stage', locs');
    }
  }

  lemma Termination(plan: O.Plan, run: nat -> World)
    requires plan.cases > 0 && run(0) == Initial(plan)
    ensures exists j: nat :: !Steps(plan, run(j), run(j + 1))
  {
    InitiallyHolds(plan);
    var j := RunEnds(plan, run, 0, Gather, AllAt(plan.peers, Offline));
  }

  // Where a run can end.

  /** A peer that is not where its stage ends can move, or has something to deliver. */
  lemma PeerMoves(pe: C.Peer, known: Option<ClientState>, loc: Loc, stage: Stage, k: nat)
    requires PeerAt(pe, known, [], loc, stage, k)
    requires match stage
             case Gather => loc != Rest
             case Setup => loc != Ready
             case Winding => loc != Rest
             case Closing => loc != Gone
             case _ => false
    ensures !pe.exited
    ensures !pe.connected || pe.uplink != [] || C.Receptive(pe) || pe.jobs != [] || pe.starting
    ensures stage.Closing? ==> C.Receptive(pe)
  {}

  lemma SomeItems()
    ensures C.Uploadable([ResultFile([])])
  {
    assert C.Uploads(0, [ResultFile([])])[1..] == [];
  }

  lemma PeerEvent(plan: O.Plan, w: World, p: Name) returns (e: Event)
    requires p < |w.peers| && !w.peers[p].exited && w.orch.activity.Free?
    requires var pe := w.peers[p]; !pe.connected || pe.uplink != [] || C.Receptive(pe) || pe.jobs != [] || pe.starting
    ensures Enabled(plan, w, e)
  {
    var pe := w.peers[p];
    var order := SomeOrder(O.Roster(plan));
    SomeItems();
    e := if !pe.connected then Connect(p)
         else if pe.uplink != [] then DeliverUp(p, order)
         else if C.Receptive(pe) then DeliverDown(p, [ResultFile([])], 0)
         else if pe.starting then ReportTesting(p)
         else if pe.jobs[0].installed then FinishConfigure(p, 0)
         else AssignCase(p, 0);
  }

  /** Everything has been done: all peers have left, and the orchestrator has returned. */
  ghost predicate Done(plan: O.Plan, w: World) {
    w.orch.activity.Ended? && forall p :: 0 <= p < |w.peers| ==> w.peers[p].exited
  }

  lemma NextEvent(plan: O.Plan, w: World, stage: Stage, locs: seq<Loc>) returns (e: Event)
    requires Holds(plan, w, stage, locs) && plan.peers > 0 && !Done(plan, w)
    ensures Enabled(plan, w, e)
  {
    hide PeerAt, Recorded, Relayed, Rounds;
    var o := w.orch;
    if o.activity.Sending? {
      e := if o.activity.todo == [] then FinishSending else SendNext;
    } else if stage.Trial? {
      var order := SomeOrder(O.Roster(plan));
      e := FireTimer(order);
    } else if stage.Draining? {
      if w.unwritten == {} {
        var order := SomeOrder(o.connectedClients.Keys);
        e := BeginShutdown(order);
      } else {
        var i :| i in w.unwritten;
        e := WriteDone(i);
      }
    } else if stage.Closing? {
      var p :| 0 <= p < |w.peers| && !w.peers[p].exited;
      StillHere(w.peers[p], Entry(o, p), Unsent(o, p), locs[p], stage, o.currentCase);
      PeerMoves(w.peers[p], Entry(o, p), locs[p], stage, o.currentCase);
      SomeItems();
      e := DeliverDown(p, [ResultFile([])], 0);
    } else {
      var calm := if stage.Setup? then Ready else Rest;
      var p :| 0 <= p < |locs| && locs[p] != calm;
      assert Unsent(o, p) == [];
      PeerMoves(w.peers[p], Entry(o, p), locs[p], stage, o.currentCase);
      e := PeerEvent(plan, w, p);
    }
  }

  lemma StillHere(pe: C.Peer, known: Option<ClientState>, pending: seq<Down>, loc: Loc, stage: Stage, k: nat)
    requires PeerAt(pe, known, pending, loc, stage, k) && !pe.exited
    ensures loc != Gone
  {}

  /** A run that cannot go on has finished all its cases: every peer has received the whole script
      and left, everything it uploaded is stored under the path of its case, and every signal it
      emitted was received by every other peer, once and in order. */
  lemma StuckIsDone(plan: O.Plan, w: World)
    requires plan.cases > 0 && plan.peers > 0 && Reachable(plan, w)
    requires forall e :: !Enabled(plan, w, e)
    ensures Done(plan, w) && w.unwritten == {} && |w.peers| == plan.peers
    ensures forall p :: 0 <= p < plan.peers ==>
      && Orders(w.peers[p].log) == Rounds(plan.cases) + [Shutdown]
      && |w.peers[p].sent| == plan.cases
      && Taken(w.accepted, p) == Flatten(w.peers[p].sent)
    ensures forall i :: 0 <= i < |w.accepted| ==> w.accepted[i].path == Some(w.accepted[i].origin)
    ensures forall p, q :: 0 <= p < plan.peers && 0 <= q < plan.peers && p != q ==>
      SignalsOf(p, w.peers[q].log) == w.peers[p].emitted
  {
    hide Holds, Located, Enabled;
    ReachableInv(plan, w);
    var stage, locs :| Holds(plan, w, stage, locs);
    if !Done(plan, w) {
      var e := NextEvent(plan, w, stage, locs);
      assert false;
    }
    hide Done;
    DoneIsComplete(plan, w, stage, locs);
    CompleteAtShutdown(plan, w);
    forall i | 0 <= i < |w.accepted| ensures w.accepted[i].path == Some(w.accepted[i].origin) {
      Attribution(plan, w, i);
    }
    forall p, q | 0 <= p < plan.peers && 0 <= q < plan.peers && p != q
      ensures SignalsOf(p, w.peers[q].log) == w.peers[p].emitted
    {
      DoneIsHeard(plan, w, stage, locs, p, q);
    }
  }

  lemma DoneIsHeard(plan: O.Plan, w: World, stage: Stage, locs: seq<Loc>, p: Name, q: Name)
    requires Holds(plan, w, stage, locs) && Done(plan, w) && p < plan.peers && q < plan.peers && p != q
    ensures |w.peers| == plan.peers
    ensures SignalsOf(p, w.peers[q].log) == w.peers[p].emitted
  {
    hide PeerAt, SignalsOf, SignalsUp, Own;
    var o, k := w.orch, w.orch.currentCase;
    assert stage.Closing?;
    SentAt(w.peers[p], Entry(o, p), Unsent(o, p), locs[p], stage, k);
    GoneQuiet(w.peers[q], Entry(o, q), Unsent(o, q), locs[q], stage, k);
    assert Relays(p, q, Heard(w.peers[q]), w.peers[p].uplink, w.peers[p].emitted);
    assert SignalsUp([]) == [] by { NoSignals([]); }
    assert Heard(w.peers[q]) == w.peers[q].log;
  }

  /** Nothing is left on the downlink of a peer that has left: a signal there would not be in its case. */
  lemma GoneQuiet(pe: C.Peer, known: Option<ClientState>, pending: seq<Down>, loc: Loc, stage: Stage, k: nat)
    requires PeerAt(pe, known, pending, loc, stage, k) && pe.exited && InOwnCase(Heard(pe))
    ensures pe.downlink == []
  {
    assert SolidDown(pe.downlink) == [];
    if pe.downlink != [] {
      NextInCase(pe);
    }
  }

  lemma DoneIsComplete(plan: O.Plan, w: World, stage: Stage, locs: seq<Loc>)
    requires Holds(plan, w, stage, locs) && Done(plan, w)
    ensures Shutdown in w.orch.issued && |w.peers| == plan.peers
    ensures forall p :: 0 <= p < plan.peers ==> Orders(w.peers[p].log) == Rounds(plan.cases) + [Shutdown]
  {
    hide PeerAt, HeardRight;
    var o, k := w.orch, w.orch.currentCase;
    assert stage.Closing?;
    IssuedLength(plan, o, stage, locs);
    assert o.issued == Rounds(plan.cases) + [Shutdown] by { ScriptNext(k); }
    assert o.issued[|o.issued| - 1] == Shutdown;
    forall p | 0 <= p < plan.peers ensures Orders(w.peers[p].log) == o.issued {
      GoneComplete(w.peers[p], Entry(o, p), Unsent(o, p), locs[p], stage, k, o.issued);
    }
  }

  lemma GoneComplete(pe: C.Peer, known: Option<ClientState>, pending: seq<Down>, loc: Loc, stage: Stage, k: nat,
                     issued: seq<Down>)
    requires PeerAt(pe, known, pending, loc, stage, k) && pe.exited && stage.Closing?
    requires HeardRight(Heard(pe), pe.registered, pending, issued)
    ensures Orders(pe.log) == issued
  {
    OrdersCount(pe, known, pending, loc, stage, k, issued);
  }
}
