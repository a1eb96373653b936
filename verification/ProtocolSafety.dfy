/** `Located` holds along every run. */
module ProtocolSafety {
  import opened Wire
  import opened Queues
  import opened Protocol
  import opened ProtocolInvariant
  import opened ProtocolSteps
  import O = Orchestrator
  import C = ManagementClient

  /** A step that changes one peer only. */
  lemma OnePeer(plan: O.Plan, w: World, w': World, stage: Stage, locs: seq<Loc>, p: Name, q: C.Peer, loc': Loc)
    requires Located(plan, w, stage, locs) && p < plan.peers
    requires w'.orch == w.orch && w'.peers == w.peers[p := q]
    requires PeerAt(q, Entry(w.orch, p), Unsent(w.orch, p), loc', stage, w.orch.currentCase)
    requires (locs[p] == Rest <==> loc' == Rest) && (locs[p] == Ready <==> loc' == Ready)
    ensures Located(plan, w', stage, locs[p := loc'])
  {
    hide PeerAt;
    var locs' := locs[p := loc'];
    forall calm | (calm == Rest || calm == Ready) && Someone(locs, calm)
      ensures Someone(locs', calm)
    {
      var i :| 0 <= i < |locs| && locs[i] != calm;
      assert locs'[i] != calm;
    }
  }

  lemma DownStep(plan: O.Plan, w: World, e: Event, stage: Stage, locs: seq<Loc>) returns (locs': seq<Loc>)
    requires Located(plan, w, stage, locs) && Enabled(plan, w, e) && e.DeliverDown?
    ensures Located(plan, Apply(plan, w, e), stage, locs')
  {
    var p := e.p;
    var loc' := ReactLocal(w.peers[p], Entry(w.orch, p), Unsent(w.orch, p), locs[p], stage, w.orch.currentCase,
      e.items, e.budget);
    OnePeer(plan, w, Apply(plan, w, e), stage, locs, p, C.React(w.peers[p], e.items, e.budget), loc');
    locs' := locs[p := loc'];
  }

  lemma LocalStep(plan: O.Plan, w: World, e: Event, stage: Stage, locs: seq<Loc>) returns (locs': seq<Loc>)
    requires Located(plan, w, stage, locs) && Enabled(plan, w, e)
    requires e.Connect? || e.AssignCase? || e.FinishConfigure? || e.ReportTesting? || e.SendSignal?
    ensures Located(plan, Apply(plan, w, e), stage, locs')
  {
    hide PeerAt;
    var p, o, k := e.p, w.orch, w.orch.currentCase;
    var pe, known, pending, loc := w.peers[p], Entry(o, p), Unsent(o, p), locs[p];
    var loc', q;
    match e {
    case Connect(_) =>
      DialLocal(pe, known, pending, loc, stage, k);
      loc', q := Dialed, pe.(connected := true, uplink := [Register]);
    case AssignCase(_, i) =>
      AssignLocal(pe, known, pending, loc, stage, k, i);
      loc', q := Preparing(true, loc.seen), C.AssignCase(pe, i);
    case FinishConfigure(_, i) =>
      FinishLocal(pe, known, pending, loc, stage, k, i);
      loc', q := Prepared(loc.seen), C.FinishConfigure(pe, i);
    case ReportTesting(_) =>
      ReportLocal(pe, known, pending, loc, stage, k);
      loc', q := Launched, C.ReportTesting(pe);
    case SendSignal(_, data) =>
      EmitLocal(pe, known, pending, loc, stage, k, p, data);
      loc', q := loc, C.EmitSignal(pe, p, data);
    }
    OnePeer(plan, w, Apply(plan, w, e), stage, locs, p, q, loc');
    locs' := locs[p := loc'];
  }

  lemma UnsentPop(o: O.State, p: Name)
    requires o.activity.Sending? && o.activity.todo != []
    ensures var o' := o.(activity := o.activity.(todo := o.activity.todo[1..]));
      Unsent(o, p) == if o.activity.todo[0].to == p then [o.activity.todo[0].message] + Unsent(o', p) else Unsent(o', p)
  {}

  lemma SendStep(plan: O.Plan, w: World, stage: Stage, locs: seq<Loc>)
    requires w.orch.activity.Sending? && w.orch.activity.todo != []
    requires Located(plan, w, stage, locs)
    ensures Located(plan, SendOne(w), stage, locs)
    ensures var to := w.orch.activity.todo[0].to; to < |w.peers| && w.peers[to].registered
    ensures !SendOne(w).orch.activity.Crashed?
  {
    hide PeerAt;
    var k := w.orch.currentCase;
    var p, m := w.orch.activity.todo[0].to, w.orch.activity.todo[0].message;
    var o' := w.orch.(activity := w.orch.activity.(todo := w.orch.activity.todo[1..]));
    assert p < plan.peers;
    UnsentPop(w.orch, p);
    SentLocal(w.peers[p], Entry(w.orch, p), m, Unsent(o', p), locs[p], stage, k);
    var w' := SendOne(w);
    assert w'.orch == o';
    forall q | 0 <= q < plan.peers
      ensures PeerAt(w'.peers[q], Entry(o', q), Unsent(o', q), locs[q], stage, k)
    {
      UnsentPop(w.orch, q);
    }
    assert StageInv(plan, o', stage, locs);
  }

  lemma SettleStep(plan: O.Plan, w: World, stage: Stage, locs: seq<Loc>)
    requires Located(plan, w, stage, locs) && Enabled(plan, w, FinishSending)
    ensures Located(plan, Apply(plan, w, FinishSending), stage, locs)
  {
    hide PeerAt;
    var w' := Apply(plan, w, FinishSending);
    forall q | 0 <= q < plan.peers
      ensures PeerAt(w'.peers[q], Entry(w'.orch, q), Unsent(w'.orch, q), locs[q], stage, w'.orch.currentCase)
    {
      assert Unsent(w.orch, q) == [] == Unsent(w'.orch, q);
    }
  }

  /** All peers are moved at once by a command issued to each of them. */
  lemma Issued(plan: O.Plan, o': O.State, order: seq<Name>, m: Down, t: O.Then)
    requires O.Ordering(order, O.Roster(plan)) && o'.activity == O.Sending(O.ToAll(order, m), t)
    ensures forall q :: 0 <= q < plan.peers ==> Unsent(o', q) == [m]
    ensures forall i :: 0 <= i < |o'.activity.todo| ==> o'.activity.todo[i].to < plan.peers
  {
    forall q | 0 <= q < plan.peers ensures Unsent(o', q) == [m] {
      PendingToAll(order, m, q);
    }
    forall i | 0 <= i < |order| ensures order[i] < plan.peers {
      assert order[i] in order;
    }
  }

  function AllAt(n: nat, loc: Loc): (r: seq<Loc>) {
    seq(n, _ => loc)
  }

  lemma CalmFree(pe: C.Peer, known: Option<ClientState>, pending: seq<Down>, loc: Loc, k: nat)
    requires PeerAt(pe, known, pending, loc, Trial, k)
    ensures loc != Rest
  {}

  lemma TimerStep(plan: O.Plan, w: World, order: seq<Name>, stage: Stage, locs: seq<Loc>)
    requires Located(plan, w, stage, locs) && Enabled(plan, w, FireTimer(order))
    ensures stage.Trial? && Located(plan, Apply(plan, w, FireTimer(order)), Winding, locs)
  {
    hide PeerAt;
    var w' := Apply(plan, w, FireTimer(order));
    var k := w.orch.currentCase;
    assert stage.Trial?;
    ScriptNext(k);
    Issued(plan, w'.orch, order, Stop, O.Return);
    forall q | 0 <= q < plan.peers
      ensures PeerAt(w'.peers[q], Entry(w'.orch, q), Unsent(w'.orch, q), locs[q], Winding, k) && locs[q] != Rest
    {
      StoppedLocal(w.peers[q], Entry(w.orch, q), locs[q], k);
      CalmFree(w.peers[q], Entry(w.orch, q), Unsent(w.orch, q), locs[q], k);
    }
    if plan.peers > 0 {
      assert locs[0] != Rest;
    }
  }

  lemma KnownKeys(plan: O.Plan, w: World, stage: Stage, locs: seq<Loc>)
    requires Located(plan, w, stage, locs) && stage.Draining?
    ensures w.orch.connectedClients.Keys == O.Roster(plan)
  {
    forall q | q in O.Roster(plan) ensures q in w.orch.connectedClients {
      assert Entry(w.orch, q) == Known(locs[q]);
    }
  }

  lemma DrainingRest(plan: O.Plan, w: World, stage: Stage, locs: seq<Loc>)
    requires Located(plan, w, stage, locs) && stage.Draining?
    ensures forall q :: 0 <= q < plan.peers ==> locs[q] == Rest
  {}

  lemma ShutdownStep(plan: O.Plan, w: World, order: seq<Name>, stage: Stage, locs: seq<Loc>)
    requires Located(plan, w, stage, locs) && Enabled(plan, w, BeginShutdown(order))
    ensures stage.Draining?
    ensures Located(plan, Apply(plan, w, BeginShutdown(order)), Closing, AllAt(plan.peers, Dismissed))
  {
    hide PeerAt, Rounds, O.NamesBelow;
    DrainingRest(plan, w, stage, locs);
    var w' := Apply(plan, w, BeginShutdown(order));
    var k := w.orch.currentCase;
    KnownKeys(plan, w, stage, locs);
    Issued(plan, w'.orch, order, Shutdown, O.EndRun);
    forall q | 0 <= q < plan.peers
      ensures PeerAt(w'.peers[q], Entry(w'.orch, q), Unsent(w'.orch, q), Dismissed, Closing, k)
    {
      DismissedLocal(w.peers[q], Entry(w.orch, q), k);
    }
  }

  // Delivery of the head of an uplink.

  lemma RegisterStep(plan: O.Plan, w: World, p: Name, order: seq<Name>, stage: Stage, locs: seq<Loc>)
    requires Located(plan, w, stage, locs) && Enabled(plan, w, DeliverUp(p, order)) && w.peers[p].uplink[0].Register?
    ensures Located(plan, Apply(plan, w, DeliverUp(p, order)), stage, locs[p := Welcomed])
  {
    hide PeerAt;
    var pe := w.peers[p];
    assert Unsent(w.orch, p) == [] by {
      RegisterStage(pe, Entry(w.orch, p), Unsent(w.orch, p), locs[p], stage, w.orch.currentCase);
    }
    UpRegisterLocal(pe, Entry(w.orch, p), locs[p], stage, w.orch.currentCase);
    var q := Popped(pe).(registered := true, downlink := pe.downlink + [RegisterOk]);
    OnePeer(plan, w, Apply(plan, w, DeliverUp(p, order)), stage, locs, p, q, Welcomed);
  }

  lemma RegisterStage(pe: C.Peer, known: Option<ClientState>, pending: seq<Down>, loc: Loc, stage: Stage, k: nat)
    requires PeerAt(pe, known, pending, loc, stage, k) && pe.uplink != [] && pe.uplink[0].Register?
    ensures stage.Gather?
  {
    hide SolidDown, CaseAfter, C.Finishes, C.Uploadable, ControlAt, Inbox, Known;
    UpHead(pe.uplink);
    assert pe.uplink[0] == SolidUp(pe.uplink)[0];
  }

  lemma UploadStep(plan: O.Plan, w: World, p: Name, order: seq<Name>, stage: Stage, locs: seq<Loc>) returns (loc': Loc)
    requires Located(plan, w, stage, locs) && Enabled(plan, w, DeliverUp(p, order)) && w.peers[p].uplink[0].Upload?
    ensures w.peers[p].registered && w.peers[p].uplink[0].origin == w.orch.currentCase && stage.Winding?
    ensures Located(plan, Apply(plan, w, DeliverUp(p, order)), stage, locs[p := loc'])
  {
    hide PeerAt;
    var pe := w.peers[p];
    UpUploadLocal(pe, Entry(w.orch, p), Unsent(w.orch, p), locs[p], stage, w.orch.currentCase);
    loc' := Unloading(2, locs[p].ups[1..]);
    OnePeer(plan, w, Apply(plan, w, DeliverUp(p, order)), stage, locs, p, Popped(pe), loc');
  }

  lemma SignalStep(plan: O.Plan, w: World, p: Name, order: seq<Name>, stage: Stage, locs: seq<Loc>)
    requires Located(plan, w, stage, locs) && Enabled(plan, w, DeliverUp(p, order)) && w.peers[p].uplink[0].PeerSignal?
    ensures w.peers[p].uplink[0].signal.run == w.orch.currentCase && (stage.Trial? || stage.Winding?)
    ensures Located(plan, Apply(plan, w, DeliverUp(p, order)), stage, locs)
  {
    hide PeerAt;
    var w' := Apply(plan, w, DeliverUp(p, order));
    var k, o, s := w.orch.currentCase, w.orch, w.peers[p].uplink[0].signal;
    UpSignalLocal(w.peers[p], Entry(o, p), Unsent(o, p), locs[p], stage, k);
    forall q | 0 <= q < plan.peers
      ensures PeerAt(w'.peers[q], Entry(o, q), Unsent(o, q), locs[q], stage, k)
    {
      if q != p {
        HearLocal(w.peers[q], Entry(o, q), Unsent(o, q), locs[q], stage, k, s);
      }
    }
  }

  /** The world before the listener runs: the report is off the uplink, and the entry of `p` is updated. */
  lemma ReportSeen(plan: O.Plan, w: World, p: Name, stage: Stage, locs: seq<Loc>, o': O.State)
    requires Located(plan, w, stage, locs) && p < plan.peers
    requires w.peers[p].uplink != [] && w.peers[p].uplink[0].StateUpdate?
    requires o' == w.orch.(connectedClients := w.orch.connectedClients[p := w.peers[p].uplink[0].state])
    ensures w.peers[p].registered
    ensures Known(Advance(locs[p])) == Some(w.peers[p].uplink[0].state) && locs[p] != Rest && locs[p] != Ready
    ensures forall q :: 0 <= q < plan.peers ==>
      PeerAt(Put(w, p, Popped(w.peers[p])).peers[q], Entry(o', q), Unsent(o', q), locs[p := Advance(locs[p])][q],
        stage, w.orch.currentCase)
  {
    hide PeerAt;
    var pe, k := w.peers[p], w.orch.currentCase;
    UpStateKnown(pe, Entry(w.orch, p), Unsent(w.orch, p), locs[p], stage, k);
    UpStateLocal(pe, Entry(w.orch, p), Unsent(w.orch, p), locs[p], stage, k);
  }

  lemma UpStateKnown(pe: C.Peer, known: Option<ClientState>, pending: seq<Down>, loc: Loc, stage: Stage, k: nat)
    requires PeerAt(pe, known, pending, loc, stage, k) && pe.uplink != [] && pe.uplink[0].StateUpdate?
    ensures Known(Advance(loc)) == Some(pe.uplink[0].state) && loc != Rest && loc != Ready && pe.registered
    ensures stage.Gather? || stage.Setup? || stage.Trial? || stage.Winding?
    ensures stage.Setup? ==> pe.uplink[0].state != Registered
    ensures stage.Gather? ==> pe.uplink[0].state == Registered
  {
    UpStatePlace(pe, loc, stage, k);
  }

  /** What the common state of all entries says about the places of all peers. */
  lemma CommonState(pe: C.Peer, known: Option<ClientState>, pending: seq<Down>, loc: Loc, stage: Stage, k: nat)
    requires PeerAt(pe, known, pending, loc, stage, k)
    ensures known == Known(loc)
    ensures (stage.Gather? || stage.Winding?) ==> (known == Some(Registered) <==> loc == Rest)
    ensures stage.Setup? ==> (known == Some(TestReady) <==> loc == Ready)
  {
    hide Inbox, UplinkAt, ControlAt, SolidDown;
  }

  ghost predicate AllCalm(locs: seq<Loc>, calm: Loc) { forall q :: 0 <= q < |locs| ==> locs[q] == calm }

  /** All peers named by the roster, or someone who is not there yet. */
  lemma AllOrSomeone(plan: O.Plan, peers: seq<C.Peer>, o: O.State, stage: Stage, locs: seq<Loc>, k: nat,
                     st: ClientState, calm: Loc)
    requires |peers| == |locs| == plan.peers
    requires forall q :: 0 <= q < plan.peers ==> PeerAt(peers[q], Entry(o, q), Unsent(o, q), locs[q], stage, k)
    requires ((stage.Gather? || stage.Winding?) && st == Registered && calm == Rest)
      || (stage.Setup? && st == TestReady && calm == Ready)
    ensures O.AllIn(o.connectedClients, O.Roster(plan), st) ==> forall q :: 0 <= q < plan.peers ==> locs[q] == calm
    ensures !O.AllIn(o.connectedClients, O.Roster(plan), st) ==> Someone(locs, calm)
    ensures O.AllIn(o.connectedClients, O.Roster(plan), st) <==> AllCalm(locs, calm)
  {
    hide PeerAt;
    forall q | 0 <= q < plan.peers ensures Entry(o, q) == Some(st) <==> locs[q] == calm {
      CommonState(peers[q], Entry(o, q), Unsent(o, q), locs[q], stage, k);
    }
    if O.AllIn(o.connectedClients, O.Roster(plan), st) {
      forall q | 0 <= q < plan.peers ensures locs[q] == calm {
        assert q in O.Roster(plan);
      }
    } else {
      var q :| q in O.Roster(plan) && !(q in o.connectedClients && o.connectedClients[q] == st);
      assert locs[q] != calm;
    }
  }

  lemma AllTold(plan: O.Plan, peers: seq<C.Peer>, o: O.State, o': O.State, stage: Stage, locs: seq<Loc>, k: nat,
                order: seq<Name>)
    requires |peers| == |locs| == plan.peers && (stage.Gather? || stage.Winding?) && O.Ordering(order, O.Roster(plan))
    requires forall q :: 0 <= q < plan.peers ==> PeerAt(peers[q], Entry(o, q), [], locs[q], stage, k) && locs[q] == Rest
    requires o'.connectedClients == o.connectedClients
    requires var k' := if stage.Gather? then k else k + 1;
      o'.activity == O.Sending(O.ToAll(order, Configure(k')), O.Return)
    ensures var k' := if stage.Gather? then k else k + 1;
      forall q :: 0 <= q < plan.peers ==> PeerAt(peers[q], Entry(o', q), Unsent(o', q), Told, Setup, k')
    ensures forall i :: 0 <= i < |o'.activity.todo| ==> o'.activity.todo[i].to < plan.peers
  {
    hide PeerAt;
    var k' := if stage.Gather? then k else k + 1;
    Issued(plan, o', order, Configure(k'), O.Return);
    forall q | 0 <= q < plan.peers ensures PeerAt(peers[q], Entry(o', q), Unsent(o', q), Told, Setup, k') {
      ToldLocal(peers[q], Entry(o, q), stage, k);
    }
  }

  lemma AllCalled(plan: O.Plan, peers: seq<C.Peer>, o: O.State, o': O.State, locs: seq<Loc>, k: nat, order: seq<Name>)
    requires |peers| == |locs| == plan.peers && O.Ordering(order, O.Roster(plan))
    requires forall q :: 0 <= q < plan.peers ==>
      PeerAt(peers[q], Entry(o, q), [], locs[q], Setup, k) && locs[q] == Ready
    requires o'.connectedClients == o.connectedClients && o'.activity == O.Sending(O.ToAll(order, Start), O.ArmTimer)
    ensures forall q :: 0 <= q < plan.peers ==> PeerAt(peers[q], Entry(o', q), Unsent(o', q), Called, Trial, k)
    ensures forall i :: 0 <= i < |o'.activity.todo| ==> o'.activity.todo[i].to < plan.peers
  {
    hide PeerAt;
    Issued(plan, o', order, Start, O.ArmTimer);
    forall q | 0 <= q < plan.peers ensures PeerAt(peers[q], Entry(o', q), Unsent(o', q), Called, Trial, k) {
      CalledLocal(peers[q], Entry(o, q), k);
    }
  }

  lemma AllDrained(plan: O.Plan, peers: seq<C.Peer>, o: O.State, o': O.State, locs: seq<Loc>, k: nat)
    requires |peers| == |locs| == plan.peers
    requires forall q :: 0 <= q < plan.peers ==>
      PeerAt(peers[q], Entry(o, q), [], locs[q], Winding, k) && locs[q] == Rest
    requires o'.connectedClients == o.connectedClients && o'.activity.Draining?
    ensures forall q :: 0 <= q < plan.peers ==> PeerAt(peers[q], Entry(o', q), Unsent(o', q), locs[q], Draining, k)
  {
    hide PeerAt;
    forall q | 0 <= q < plan.peers ensures PeerAt(peers[q], Entry(o', q), Unsent(o', q), locs[q], Draining, k) {
      DrainedLocal(peers[q], Entry(o, q), k);
    }
  }

  lemma ScriptNext(k: nat)
    ensures Script(k, 1) == Rounds(k) + [Configure(k)]
    ensures Script(k, 2) == Script(k, 1) + [Start]
    ensures Script(k, 3) == Script(k, 2) + [Stop]
    ensures Script(k, 3) == Rounds(k + 1)
  {
    assert [Configure(k), Start, Stop][..1] == [Configure(k)];
    assert [Configure(k), Start, Stop][..2] == [Configure(k), Start];
    assert [Configure(k), Start, Stop][..3] == [Configure(k), Start, Stop];
  }

  lemma NoneCalm(n: nat, loc: Loc, calm: Loc)
    requires loc != calm
    ensures Someone(AllAt(n, loc), calm)
  {
    if n > 0 {
      assert AllAt(n, loc)[0] != calm;
    }
  }

  /** Where a report leads once the peer has moved on: to the next stage exactly if it was the last. */
  ghost function AfterReport(plan: O.Plan, k: nat, stage: Stage, moved: seq<Loc>): (Stage, seq<Loc>) {
    if stage.Gather? && AllCalm(moved, Rest) then (Setup, AllAt(plan.peers, Told))
    else if stage.Setup? && AllCalm(moved, Ready) then (Trial, AllAt(plan.peers, Called))
    else if stage.Winding? && AllCalm(moved, Rest) then
      if k == plan.cases - 1 then (Draining, moved) else (Setup, AllAt(plan.peers, Told))
    else (stage, moved)
  }

  /** A state update of `p` reaches the listener. */
  ghost predicate Reports(plan: O.Plan, w: World, p: Name, order: seq<Name>, stage: Stage, locs: seq<Loc>) {
    && Located(plan, w, stage, locs) && Enabled(plan, w, DeliverUp(p, order))
    && w.peers[p].uplink[0].StateUpdate? && w.peers[p].registered
  }

  lemma GatherReport(plan: O.Plan, w: World, p: Name, order: seq<Name>, locs: seq<Loc>)
    returns (stage': Stage, locs': seq<Loc>)
    requires Reports(plan, w, p, order, Gather, locs)
    ensures Located(plan, Apply(plan, w, DeliverUp(p, order)), stage', locs')
    ensures (stage', locs') == AfterReport(plan, w.orch.currentCase, Gather, locs[p := Advance(locs[p])])
  {
    hide PeerAt, O.Ordering, Rounds, Script, Someone, O.ToAll, AllCalm;
    var k, w' := w.orch.currentCase, Apply(plan, w, DeliverUp(p, order));
    var o := w.orch.(connectedClients := w.orch.connectedClients[p := w.peers[p].uplink[0].state]);
    ReportSeen(plan, w, p, Gather, locs, o);
    stage', locs' := Gather, locs[p := Advance(locs[p])];
    UpStateKnown(w.peers[p], Entry(w.orch, p), Unsent(w.orch, p), locs[p], Gather, k);
    assert p in O.Roster(plan) && o.connectedClients[p] != TestReady;
    AllOrSomeone(plan, w'.peers, o, Gather, locs', k, Registered, Rest);
    if O.AllIn(o.connectedClients, O.Roster(plan), Registered) {
      AllTold(plan, w'.peers, o, w'.orch, Gather, locs', k, order);
      ScriptNext(k);
      NoneCalm(plan.peers, Told, Ready);
      stage', locs' := Setup, AllAt(plan.peers, Told);
    }
  }

  lemma SetupReport(plan: O.Plan, w: World, p: Name, order: seq<Name>, locs: seq<Loc>)
    returns (stage': Stage, locs': seq<Loc>)
    requires Reports(plan, w, p, order, Setup, locs)
    ensures Located(plan, Apply(plan, w, DeliverUp(p, order)), stage', locs')
    ensures (stage', locs') == AfterReport(plan, w.orch.currentCase, Setup, locs[p := Advance(locs[p])])
  {
    hide PeerAt, O.Ordering, Rounds, Script, Someone, O.ToAll, AllCalm;
    var k, w' := w.orch.currentCase, Apply(plan, w, DeliverUp(p, order));
    var o := w.orch.(connectedClients := w.orch.connectedClients[p := w.peers[p].uplink[0].state]);
    ReportSeen(plan, w, p, Setup, locs, o);
    stage', locs' := Setup, locs[p := Advance(locs[p])];
    UpStateKnown(w.peers[p], Entry(w.orch, p), Unsent(w.orch, p), locs[p], Setup, k);
    assert p in O.Roster(plan) && o.connectedClients[p] != Registered;
    AllOrSomeone(plan, w'.peers, o, Setup, locs', k, TestReady, Ready);
    if O.AllIn(o.connectedClients, O.Roster(plan), TestReady) {
      AllCalled(plan, w'.peers, o, w'.orch, locs', k, order);
      ScriptNext(k);
      stage', locs' := Trial, AllAt(plan.peers, Called);
    }
  }

  lemma TrialReport(plan: O.Plan, w: World, p: Name, order: seq<Name>, locs: seq<Loc>)
    returns (stage': Stage, locs': seq<Loc>)
    requires Reports(plan, w, p, order, Trial, locs)
    ensures Located(plan, Apply(plan, w, DeliverUp(p, order)), stage', locs')
    ensures (stage', locs') == AfterReport(plan, w.orch.currentCase, Trial, locs[p := Advance(locs[p])])
  {
    hide PeerAt;
    var k, w' := w.orch.currentCase, Apply(plan, w, DeliverUp(p, order));
    var o := w.orch.(connectedClients := w.orch.connectedClients[p := w.peers[p].uplink[0].state]);
    ReportSeen(plan, w, p, Trial, locs, o);
    stage', locs' := Trial, locs[p := Advance(locs[p])];
  }

  lemma WindingReport(plan: O.Plan, w: World, p: Name, order: seq<Name>, locs: seq<Loc>)
    returns (stage': Stage, locs': seq<Loc>)
    requires Reports(plan, w, p, order, Winding, locs)
    ensures Located(plan, Apply(plan, w, DeliverUp(p, order)), stage', locs')
    ensures (stage', locs') == AfterReport(plan, w.orch.currentCase, Winding, locs[p := Advance(locs[p])])
  {
    hide PeerAt, O.Ordering, Rounds, Script, Someone, O.ToAll, Advance, AllCalm, O.AllIn, Known, Pending;
    var k, w' := w.orch.currentCase, Apply(plan, w, DeliverUp(p, order));
    var o := w.orch.(connectedClients := w.orch.connectedClients[p := w.peers[p].uplink[0].state]);
    ReportSeen(plan, w, p, Winding, locs, o);
    stage', locs' := Winding, locs[p := Advance(locs[p])];
    AllOrSomeone(plan, w'.peers, o, Winding, locs', k, Registered, Rest);
    if O.AllIn(o.connectedClients, O.Roster(plan), Registered) {
      stage', locs' := WindingOver(plan, w', o, locs', order);
    }
  }

  /** The last peer has wound down: all results are in, or the next case begins. */
  lemma WindingOver(plan: O.Plan, w: World, o: O.State, locs: seq<Loc>, order: seq<Name>)
    returns (stage': Stage, locs': seq<Loc>)
    requires var k := o.currentCase;
      && |w.peers| == |locs| == plan.peers && O.Ordering(order, O.Roster(plan)) && AllCalm(locs, Rest)
      && (forall q :: 0 <= q < plan.peers ==> PeerAt(w.peers[q], Entry(o, q), [], locs[q], Winding, k))
      && k < plan.cases && o.connectedClients.Keys <= O.Roster(plan)
      && o.runState.AfterTest? && o.timers == 0 && o.resultPath == Some(k) && o.issued == Script(k, 3)
      && w.orch == if k == plan.cases - 1 then o.(activity := O.Draining)
                   else O.State(o.connectedClients, O.BeforeTest, k + 1, 0, Some(k + 1),
                     O.Sending(O.ToAll(order, Configure(k + 1)), O.Return), o.issued + [Configure(k + 1)])
    ensures Located(plan, w, stage', locs')
    ensures (stage', locs') == AfterReport(plan, o.currentCase, Winding, locs)
  {
    hide PeerAt, O.Ordering, Rounds, Script, Someone, O.ToAll;
    var k := o.currentCase;
    if k == plan.cases - 1 {
      AllDrained(plan, w.peers, o, w.orch, locs, k);
      stage', locs' := Draining, locs;
    } else {
      AllTold(plan, w.peers, o, w.orch, Winding, locs, k, order);
      ScriptNext(k);
      ScriptNext(k + 1);
      NoneCalm(plan.peers, Told, Ready);
      stage', locs' := Setup, AllAt(plan.peers, Told);
    }
  }

  lemma ReportStep(plan: O.Plan, w: World, p: Name, order: seq<Name>, stage: Stage, locs: seq<Loc>)
    returns (stage': Stage, locs': seq<Loc>)
    requires Located(plan, w, stage, locs) && Enabled(plan, w, DeliverUp(p, order)) && w.peers[p].uplink[0].StateUpdate?
    ensures Located(plan, Apply(plan, w, DeliverUp(p, order)), stage', locs')
    ensures (stage', locs') == AfterReport(plan, w.orch.currentCase, stage, locs[p := Advance(locs[p])])
  {
    hide PeerAt, Advance;
    UpStateKnown(w.peers[p], Entry(w.orch, p), Unsent(w.orch, p), locs[p], stage, w.orch.currentCase);
    match stage {
      case Gather => stage', locs' := GatherReport(plan, w, p, order, locs);
      case Setup => stage', locs' := SetupReport(plan, w, p, order, locs);
      case Trial => stage', locs' := TrialReport(plan, w, p, order, locs);
      case Winding => stage', locs' := WindingReport(plan, w, p, order, locs);
    }
  }
}
