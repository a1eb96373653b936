/** What the closed system guarantees in every reachable state. */
module ProtocolTheorems {
  import opened Wire
  import opened Queues
  import opened Protocol
  import opened ProtocolInvariant
  import opened ProtocolSteps
  import opened ProtocolSafety
  import opened ProtocolHistory
  import opened ProtocolSignals
  import O = Orchestrator
  import C = ManagementClient

  predicate Finishing(o: O.State) {
    o.activity.Ended? || (o.activity.Sending? && o.activity.andThen.EndRun?)
  }

  ghost predicate Holds(plan: O.Plan, w: World, stage: Stage, locs: seq<Loc>) {
    && Located(plan, w, stage, locs) && Recorded(plan, w) && Relayed(w.peers)
    && (Finishing(w.orch) ==> w.unwritten == {})
  }

  ghost predicate Inv(plan: O.Plan, w: World) {
    exists stage, locs :: Holds(plan, w, stage, locs)
  }

  lemma InitiallyHolds(plan: O.Plan)
    requires plan.cases > 0
    ensures Holds(plan, Initial(plan), Gather, AllAt(plan.peers, Offline))
  {
    var w := Initial(plan);
    assert Rounds(0) == [];
    if plan.peers > 0 {
      assert AllAt(plan.peers, Offline)[0] != Rest;
    }
    forall p | 0 <= p < plan.peers
      ensures PeerAt(w.peers[p], Entry(w.orch, p), Unsent(w.orch, p), Offline, Gather, 0)
      ensures HeardRight(Heard(w.peers[p]), w.peers[p].registered, Unsent(w.orch, p), w.orch.issued)
    {
      FreshPeer();
    }
    InitiallyRelayed(plan);
  }

  lemma InitiallyRelayed(plan: O.Plan)
    ensures Relayed(Initial(plan).peers)
  {
    assert Heard(C.Fresh) == [];
  }

  lemma FreshPeer()
    ensures PeerAt(C.Fresh, None, [], Offline, Gather, 0)
    ensures HeardRight(Heard(C.Fresh), false, [], [])
  {
    assert Heard(C.Fresh) == [];
  }

  lemma StepLocated(plan: O.Plan, w: World, e: Event, stage: Stage, locs: seq<Loc>)
    returns (stage': Stage, locs': seq<Loc>)
    requires Located(plan, w, stage, locs) && Enabled(plan, w, e)
    ensures Located(plan, Apply(plan, w, e), stage', locs')
  {
    hide PeerAt, StageInv;
    stage', locs' := stage, locs;
    match e {
      case DeliverUp(p, order) =>
        match w.peers[p].uplink[0] {
          case Register => RegisterStep(plan, w, p, order, stage, locs); locs' := locs[p := Welcomed];
          case StateUpdate(_) => stage', locs' := ReportStep(plan, w, p, order, stage, locs);
          case PeerSignal(_) => SignalStep(plan, w, p, order, stage, locs);
          case Upload(_, _) => var loc' := UploadStep(plan, w, p, order, stage, locs); locs' := locs[p := loc'];
        }
      case DeliverDown(_, _, _) => locs' := DownStep(plan, w, e, stage, locs);
      case SendNext => SendStep(plan, w, stage, locs);
      case FinishSending => SettleStep(plan, w, stage, locs);
      case FireTimer(order) => TimerStep(plan, w, order, stage, locs); stage' := Winding;
      case WriteDone(_) =>
      case BeginShutdown(order) =>
        ShutdownStep(plan, w, order, stage, locs);
        stage', locs' := Closing, AllAt(plan.peers, Dismissed);
      case _ => locs' := LocalStep(plan, w, e, stage, locs);
    }
  }

  lemma StepRecorded(plan: O.Plan, w: World, e: Event, stage: Stage, locs: seq<Loc>)
    requires Located(plan, w, stage, locs) && Recorded(plan, w) && Enabled(plan, w, e)
    ensures Recorded(plan, Apply(plan, w, e))
  {
    hide Located, Recorded;
    match e {
      case DeliverUp(p, order) => UpRecorded(plan, w, p, order, stage, locs);
      case DeliverDown(_, _, _) => DownRecorded(plan, w, e);
      case SendNext => SendRecorded(plan, w, stage, locs);
      case FinishSending => OrchRecorded(plan, w, e, stage, locs);
      case FireTimer(order) => OrchRecorded(plan, w, e, stage, locs);
      case WriteDone(_) => OrchRecorded(plan, w, e, stage, locs);
      case BeginShutdown(order) => OrchRecorded(plan, w, e, stage, locs);
      case _ => LocalRecorded(plan, w, e, stage, locs);
    }
  }

  /** Writers only start while the last case is not yet closed. */
  lemma StepFlushed(plan: O.Plan, w: World, e: Event, stage: Stage, locs: seq<Loc>)
    requires Located(plan, w, stage, locs) && Enabled(plan, w, e) && (Finishing(w.orch) ==> w.unwritten == {})
    ensures var w' := Apply(plan, w, e); Finishing(w'.orch) ==> w'.unwritten == {}
  {
    hide PeerAt, O.Ordering, Rounds, Script, C.React, C.AssignCase, C.FinishConfigure, C.ReportTesting, C.EmitSignal;
    hide O.AllIn, O.ToAll, Someone, C.Uploadable;
    if e.DeliverUp? && w.peers[e.p].uplink[0].Upload? {
      var _ := UploadStep(plan, w, e.p, e.order, stage, locs);
    }
  }

  lemma StepHolds(plan: O.Plan, w: World, e: Event, stage: Stage, locs: seq<Loc>)
    returns (stage': Stage, locs': seq<Loc>)
    requires Holds(plan, w, stage, locs) && Enabled(plan, w, e)
    ensures Holds(plan, Apply(plan, w, e), stage', locs')
  {
    hide Located, Recorded, Relayed;
    stage', locs' := StepLocated(plan, w, e, stage, locs);
    StepRecorded(plan, w, e, stage, locs);
    StepRelayed(plan, w, e, stage, locs);
    StepFlushed(plan, w, e, stage, locs);
  }

  lemma {:induction false} RunKeeps(plan: O.Plan, w: World, es: seq<Event>)
    requires Inv(plan, w) && Runs(plan, w, es)
    ensures Inv(plan, After(plan, w, es))
    decreases |es|
  {
    hide Holds;
    if es != [] {
      var stage, locs :| Holds(plan, w, stage, locs);
      var stage', locs' := StepHolds(plan, w, es[0], stage, locs);
      RunKeeps(plan, Apply(plan, w, es[0]), es[1..]);
    }
  }

  lemma ReachableInv(plan: O.Plan, w: World)
    requires plan.cases > 0 && Reachable(plan, w)
    ensures Inv(plan, w)
  {
    hide Holds;
    var es :| Runs(plan, Initial(plan), es) && After(plan, Initial(plan), es) == w;
    InitiallyHolds(plan);
    RunKeeps(plan, Initial(plan), es);
  }

  // Lockstep.

  /** The commands a peer has received, without the reply to its registration. */
  function Orders(log: seq<Down>): seq<Down> {
    var s := SolidDown(log);
    if s != [] && s[0].RegisterOk? then s[1..] else s
  }

  /** How far every peer must be once some peer has received n commands. */
  function Barrier(n: nat): nat {
    if n == 0 then 0 else if n % 3 == 0 then n - 2 else n - 1
  }

  lemma {:induction false} RoundsLength(k: nat)
    ensures |Rounds(k)| == 3 * k
  {
    if k > 0 {
      RoundsLength(k - 1);
    }
  }

  lemma {:induction false} RoundsPrefix(j: nat, k: nat)
    requires j <= k
    ensures Rounds(j) <= Rounds(k)
    decreases k
  {
    if j < k {
      RoundsPrefix(j, k - 1);
    }
  }

  lemma ScriptPrefix(k: nat, n: nat, cases: nat)
    requires k < cases && n <= 3
    ensures Script(k, n) <= Rounds(cases)
  {
    RoundsPrefix(k + 1, cases);
    assert Rounds(k + 1) == Rounds(k) + [Configure(k), Start, Stop];
    assert Script(k, n) <= Rounds(k + 1);
  }

  lemma IssuedScript(plan: O.Plan, o: O.State, stage: Stage, locs: seq<Loc>)
    requires StageInv(plan, o, stage, locs)
    ensures o.issued <= Rounds(plan.cases) + [Shutdown]
  {
    var k := o.currentCase;
    if stage.Closing? {
      assert Script(k, 3) == Rounds(k + 1);
    } else if stage.Gather? {
      RoundsPrefix(k, plan.cases);
    } else {
      ScriptPrefix(k, if stage.Setup? then 1 else if stage.Trial? then 2 else 3, plan.cases);
    }
  }

  lemma Queued(pe: C.Peer, known: Option<ClientState>, pending: seq<Down>, loc: Loc, stage: Stage, k: nat)
    requires PeerAt(pe, known, pending, loc, stage, k)
    ensures SolidDown(pe.downlink) + pending == Inbox(loc, stage, k)
    ensures pe.registered == (!loc.Offline? && !loc.Dialed?)
    ensures loc.Offline? || loc.Dialed? || loc.Welcomed? ==> stage.Gather?
    ensures loc.Offline? || loc.Dialed? ==> Inbox(loc, stage, k) == []
    ensures loc.Welcomed? ==> Inbox(loc, stage, k) == [RegisterOk]
  {
    hide SolidDown, UplinkAt;
  }

  /** What is still under way is exactly what the peer lacks. */
  lemma OrdersHeld(pe: C.Peer, known: Option<ClientState>, pending: seq<Down>, loc: Loc, stage: Stage, k: nat,
                   issued: seq<Down>)
    requires PeerAt(pe, known, pending, loc, stage, k)
    requires HeardRight(Heard(pe), pe.registered, pending, issued)
    ensures pe.registered && loc != Welcomed ==> SolidDown(pe.log) + Inbox(loc, stage, k) == [RegisterOk] + issued
    ensures !(pe.registered && loc != Welcomed) && (issued == [] || !stage.Gather?) ==>
      SolidDown(pe.log) == [] && stage.Gather?
  {
    Queued(pe, known, pending, loc, stage, k);
    hide PeerAt, SolidDown, InOwnCase, Inbox;
    SolidDownConcat(pe.log, pe.downlink);
    var told := if pe.registered then [RegisterOk] else [];
    Lacks(SolidDown(pe.log), SolidDown(pe.downlink), pending, Inbox(loc, stage, k), told + issued);
    if !(pe.registered && loc != Welcomed) && issued == [] {
      assert |SolidDown(pe.log)| + |Inbox(loc, stage, k)| == |told|;
    }
  }

  lemma Lacks(log: seq<Down>, down: seq<Down>, pending: seq<Down>, inbox: seq<Down>, all: seq<Down>)
    requires log + down + pending == all && down + pending == inbox
    ensures log + inbox == all && |log| + |inbox| == |all|
  {
    assert log + (down + pending) == log + down + pending;
  }

  lemma TailOf(s: seq<Down>, inbox: seq<Down>, issued: seq<Down>)
    requires s + inbox == [RegisterOk] + issued && (inbox == [] || !inbox[0].RegisterOk?)
    ensures s != [] && s[0].RegisterOk? && s[1..] <= issued && |s[1..]| == |issued| - |inbox|
  {
    assert |s| + |inbox| == 1 + |issued|;
    assert (s + inbox)[0] == RegisterOk;
    assert s[1..] + inbox == (s + inbox)[1..] == issued;
  }

  lemma InboxPlain(pe: C.Peer, known: Option<ClientState>, pending: seq<Down>, loc: Loc, stage: Stage, k: nat)
    requires PeerAt(pe, known, pending, loc, stage, k) && loc != Welcomed
    ensures var inbox := Inbox(loc, stage, k);
      (inbox == [] || !inbox[0].RegisterOk?) && (stage.Gather? ==> inbox == [])
  {
    hide UplinkAt, ControlAt;
  }

  lemma OrdersCount(pe: C.Peer, known: Option<ClientState>, pending: seq<Down>, loc: Loc, stage: Stage, k: nat,
                    issued: seq<Down>)
    requires PeerAt(pe, known, pending, loc, stage, k)
    requires HeardRight(Heard(pe), pe.registered, pending, issued) && (stage.Gather? ==> issued == [])
    ensures |Orders(pe.log)| == |issued| - (if stage.Gather? then 0 else |Inbox(loc, stage, k)|)
    ensures Orders(pe.log) <= issued
  {
    hide PeerAt, HeardRight, Inbox, SolidDown;
    OrdersHeld(pe, known, pending, loc, stage, k, issued);
    if pe.registered && loc != Welcomed {
      InboxPlain(pe, known, pending, loc, stage, k);
      TailOf(SolidDown(pe.log), Inbox(loc, stage, k), issued);
    }
  }

  /** Commands issued in this stage. */
  function IssuedCount(stage: Stage, k: nat): nat {
    match stage
    case Gather => 3 * k
    case Setup => 3 * k + 1
    case Trial => 3 * k + 2
    case Winding => 3 * k + 3
    case Draining => 3 * k + 3
    case Closing => 3 * k + 4
  }

  lemma ScriptLength(k: nat, n: nat)
    requires n <= 3
    ensures |Script(k, n)| == 3 * k + n
  {
    RoundsLength(k);
  }

  lemma IssuedLength(plan: O.Plan, o: O.State, stage: Stage, locs: seq<Loc>)
    requires StageInv(plan, o, stage, locs)
    ensures |o.issued| == IssuedCount(stage, o.currentCase)
    ensures stage.Gather? ==> o.issued == []
  {
    RoundsLength(o.currentCase);
    ScriptLength(o.currentCase, 1);
    ScriptLength(o.currentCase, 2);
    ScriptLength(o.currentCase, 3);
  }

  lemma OrdersBounds(pe: C.Peer, known: Option<ClientState>, pending: seq<Down>, loc: Loc, stage: Stage, k: nat,
                     issued: seq<Down>)
    requires PeerAt(pe, known, pending, loc, stage, k)
    requires HeardRight(Heard(pe), pe.registered, pending, issued) && |issued| == IssuedCount(stage, k)
    requires stage.Gather? ==> issued == []
    ensures Orders(pe.log) <= issued
    ensures |Orders(pe.log)| >= |issued| -
      (if stage.Gather? || stage.Draining? then 0 else if stage.Winding? then 2 else 1)
    ensures stage.Gather? ==> k == 0
  {
    OrdersCount(pe, known, pending, loc, stage, k, issued);
  }

  /** Every peer receives the same script, a prefix of it at any time, and none gets past a
      barrier before all the others have reached it. */
  lemma Lockstep(plan: O.Plan, w: World, p: Name, q: Name)
    requires plan.cases > 0 && Reachable(plan, w) && p < plan.peers && q < plan.peers
    ensures |w.peers| == plan.peers
    ensures Orders(w.peers[p].log) <= w.orch.issued <= Rounds(plan.cases) + [Shutdown]
    ensures |Orders(w.peers[q].log)| >= Barrier(|Orders(w.peers[p].log)|)
  {
    hide Holds, Orders, Rounds;
    ReachableInv(plan, w);
    var stage, locs :| Holds(plan, w, stage, locs);
    LockstepAt(plan, w, stage, locs, p, q);
  }

  lemma LockstepAt(plan: O.Plan, w: World, stage: Stage, locs: seq<Loc>, p: Name, q: Name)
    requires Holds(plan, w, stage, locs) && p < plan.peers && q < plan.peers
    ensures |w.peers| == plan.peers
    ensures Orders(w.peers[p].log) <= w.orch.issued <= Rounds(plan.cases) + [Shutdown]
    ensures |Orders(w.peers[q].log)| >= Barrier(|Orders(w.peers[p].log)|)
  {
    hide Relayed, PeerAt, HeardRight, Orders, Rounds, Script, StageInv, StoreRight, Conserved;
    var o, k := w.orch, w.orch.currentCase;
    IssuedScript(plan, o, stage, locs);
    IssuedLength(plan, o, stage, locs);
    OrdersBounds(w.peers[p], Entry(o, p), Unsent(o, p), locs[p], stage, k, o.issued);
    OrdersBounds(w.peers[q], Entry(o, q), Unsent(o, q), locs[q], stage, k, o.issued);
  }

  /** While a test runs: every peer has the current case configured, the case has been issued its
      Start and not yet its Stop, and the timer is pending once the sends are made. At all other
      times no timer is pending. */
  lemma TestWindow(plan: O.Plan, w: World)
    requires plan.cases > 0 && Reachable(plan, w)
    ensures w.orch.timers == if w.orch.runState.DuringTest? && w.orch.activity.Free? then 1 else 0
    ensures w.orch.runState.DuringTest? <==> exists k: nat :: k < plan.cases && w.orch.issued == Script(k, 2)
    ensures w.orch.runState.DuringTest? ==>
      && w.orch.issued == Script(w.orch.currentCase, 2)
      && forall p :: 0 <= p < |w.peers| ==>
           && w.peers[p].jobs == [] && w.peers[p].currentCase == Some(w.orch.currentCase)
           && |w.peers[p].sent| == w.orch.currentCase
  {
    hide Relayed, Recorded, PeerAt, Rounds, Script;
    ReachableInv(plan, w);
    var stage, locs :| Holds(plan, w, stage, locs);
    var o, k := w.orch, w.orch.currentCase;
    IssuedLength(plan, o, stage, locs);
    if stage.Trial? {
      forall p | 0 <= p < plan.peers
        ensures w.peers[p].jobs == [] && w.peers[p].currentCase == Some(k) && |w.peers[p].sent| == k
      {
        TrialPeer(w.peers[p], Entry(o, p), Unsent(o, p), locs[p], k);
      }
    } else {
      forall j: nat | j < plan.cases ensures o.issued != Script(j, 2) {
        ScriptLength(j, 2);
      }
    }
  }

  lemma TrialPeer(pe: C.Peer, known: Option<ClientState>, pending: seq<Down>, loc: Loc, k: nat)
    requires PeerAt(pe, known, pending, loc, Trial, k)
    ensures pe.jobs == [] && pe.currentCase == Some(k) && |pe.sent| == k
  {}

  // Fatal branches.

  /** log.Fatal and the index panics are out of reach if there is a case to run. */
  lemma NeverFatal(plan: O.Plan, w: World)
    requires plan.cases > 0 && Reachable(plan, w)
    ensures !w.orch.activity.Crashed?
  {
    hide Relayed;
    ReachableInv(plan, w);
    var stage, locs :| Holds(plan, w, stage, locs);
  }

  lemma FirstReport(plan: O.Plan, w: World, items: seq<Item>)
    requires Enabled(plan, w, DeliverDown(0, items, 0))
    requires |w.peers| > 0 && w.peers[0].downlink == [RegisterOk] && w.peers[0].uplink == []
    ensures var w' := Apply(plan, w, DeliverDown(0, items, 0));
      w' == w.(peers := w'.peers) && |w'.peers| == |w.peers| && w'.peers[0].uplink == [SU(Registered)]
      && w'.peers[0].registered == w.peers[0].registered
  {}

  /** Without a case, the first state update indexes the empty case list. */
  lemma FatalWithoutCases(plan: O.Plan) returns (w: World)
    requires plan.cases == 0 && plan.peers > 0
    ensures Reachable(plan, w) && w.orch.activity.Crashed?
  {
    var order := SomeOrder(O.Roster(plan));
    var w0 := Initial(plan);
    var items := [ResultFile([])];
    assert C.Uploads(0, items)[1..] == [];
    var e0, e1, e2, e3 := Connect(0), DeliverUp(0, order), DeliverDown(0, items, 0), DeliverUp(0, order);
    var w1 := Apply(plan, w0, e0);
    var w2 := Apply(plan, w1, e1);
    assert w2.peers[0].downlink == [RegisterOk] && w2.peers[0].uplink == [];
    var w3 := Apply(plan, w2, e2);
    FirstReport(plan, w2, items);
    w := Apply(plan, w3, e3);
    assert Enabled(plan, w0, e0) && Enabled(plan, w1, e1) && Enabled(plan, w2, e2) && Enabled(plan, w3, e3);
    hide Apply, Enabled;
    RunOf([], plan, w3, e3, w);
    RunOf([e3], plan, w2, e2, w);
    RunOf([e2, e3], plan, w1, e1, w);
    RunOf([e1, e2, e3], plan, w0, e0, w);
  }

  lemma RunOf(rest: seq<Event>, plan: O.Plan, w: World, e: Event, end: World)
    requires Enabled(plan, w, e) && Runs(plan, Apply(plan, w, e), rest) && After(plan, Apply(plan, w, e), rest) == end
    ensures Runs(plan, w, [e] + rest) && After(plan, w, [e] + rest) == end
  {
    hide Enabled, Apply;
    assert ([e] + rest)[1..] == rest;
  }

  /** A fatal branch can be reached exactly if there is no case to run. It is the index panic then, in the
      handler of a connection: net/http recovers it, and the orchestrator waits for ever. */
  lemma FatalIff(plan: O.Plan)
    requires plan.peers > 0
    ensures (exists w :: Reachable(plan, w) && w.orch.activity.Crashed?) <==> plan.cases == 0
  {
    hide Reachable;
    if plan.cases == 0 {
      var w := FatalWithoutCases(plan);
    } else if w :| Reachable(plan, w) && w.orch.activity.Crashed? {
      NeverFatal(plan, w);
    }
  }

  lemma {:induction false} SomeOrder(names: set<Name>) returns (order: seq<Name>)
    ensures O.Ordering(order, names)
    decreases |names|
  {
    if names == {} {
      order := [];
    } else {
      var p :| p in names;
      var rest := SomeOrder(names - {p});
      order := [p] + rest;
    }
  }

  // Attribution.

  /** Every upload the server took is stored under the path of the case it was produced in. */
  lemma Attribution(plan: O.Plan, w: World, i: nat)
    requires plan.cases > 0 && Reachable(plan, w) && i < |w.accepted|
    ensures w.accepted[i].path == Some(w.accepted[i].origin)
  {
    hide Relayed;
    ReachableInv(plan, w);
    var stage, locs :| Holds(plan, w, stage, locs);
  }

  /** The server takes each peer's uploads in order: what it took, followed by what is under way,
      is what the peer produced, one batch per case, in case order. */
  lemma UploadsConserved(plan: O.Plan, w: World, p: Name)
    requires plan.cases > 0 && Reachable(plan, w) && p < plan.peers
    ensures |w.peers| == plan.peers
    ensures Taken(w.accepted, p) + Uploading(w.peers[p].uplink) == Flatten(w.peers[p].sent)
    ensures forall j :: 0 <= j < |w.peers[p].sent| ==>
      w.peers[p].sent[j].origin == j && C.Uploadable(w.peers[p].sent[j].items)
  {
    hide Relayed;
    ReachableInv(plan, w);
    var stage, locs :| Holds(plan, w, stage, locs);
    SentAt(w.peers[p], Entry(w.orch, p), Unsent(w.orch, p), locs[p], stage, w.orch.currentCase);
  }

  lemma SentAt(pe: C.Peer, known: Option<ClientState>, pending: seq<Down>, loc: Loc, stage: Stage, k: nat)
    requires PeerAt(pe, known, pending, loc, stage, k)
    ensures forall j :: 0 <= j < |pe.sent| ==> pe.sent[j].origin == j && C.Uploadable(pe.sent[j].items)
    ensures stage.Closing? ==> |pe.sent| == k + 1 && pe.uplink == []
  {
    if stage.Closing? {
      SolidUpAll(pe.uplink);
    }
  }

  /** Once Shutdown is issued, every batch of every case is stored and its writer has finished. */
  lemma CompleteAtShutdown(plan: O.Plan, w: World)
    requires plan.cases > 0 && Reachable(plan, w) && Shutdown in w.orch.issued
    ensures w.unwritten == {} && w.openFiles == map[]
    ensures forall p :: 0 <= p < |w.peers| ==>
      && |w.peers[p].sent| == plan.cases
      && Taken(w.accepted, p) == Flatten(w.peers[p].sent)
  {
    hide Relayed, PeerAt, HeardRight;
    ReachableInv(plan, w);
    var stage, locs :| Holds(plan, w, stage, locs);
    NoShutdown(w.orch.currentCase);
    assert stage.Closing?;
    NoOpenFiles(plan, w, stage, locs);
    forall p | 0 <= p < plan.peers
      ensures |w.peers[p].sent| == plan.cases && Taken(w.accepted, p) == Flatten(w.peers[p].sent)
    {
      SentAt(w.peers[p], Entry(w.orch, p), Unsent(w.orch, p), locs[p], stage, w.orch.currentCase);
      assert Taken(w.accepted, p) + [] == Taken(w.accepted, p);
    }
  }

  lemma {:induction false} NoShutdown(k: nat)
    ensures Shutdown !in Rounds(k)
    ensures Shutdown !in Script(k, 1) && Shutdown !in Script(k, 2) && Shutdown !in Script(k, 3)
  {
    if k > 0 {
      NoShutdown(k - 1);
    }
  }

  // Signals.

  /** The signals of one peer sent to another so far, followed by those it has still to get to the
      server, are exactly those it emitted, in order. Nobody is sent his own. */
  lemma SignalsConserved(plan: O.Plan, w: World, p: Name, q: Name)
    requires plan.cases > 0 && Reachable(plan, w) && p < plan.peers && q < plan.peers
    ensures |w.peers| == plan.peers
    ensures p != q ==> SignalsOf(p, Heard(w.peers[q])) + SignalsUp(w.peers[p].uplink) == w.peers[p].emitted
    ensures p == q ==> SignalsOf(p, Heard(w.peers[q])) == []
  {
    hide Located, Recorded, SignalsOf, SignalsUp, Heard, Own;
    ReachableInv(plan, w);
    var stage, locs :| Holds(plan, w, stage, locs);
    PeerCount(plan, w, stage, locs);
    assert Relays(p, q, Heard(w.peers[q]), w.peers[p].uplink, w.peers[p].emitted);
  }

  lemma PeerCount(plan: O.Plan, w: World, stage: Stage, locs: seq<Loc>)
    requires Located(plan, w, stage, locs)
    ensures |w.peers| == plan.peers
  {}

  /** A signal that one peer emitted in case k and another has received was received after its
      Configure k and before its next Configure or Shutdown; and one it is about to receive meets the
      executor of case k. None of those emitted is lost on the way. */
  lemma SignalsStayInCase(plan: O.Plan, w: World, p: Name, q: Name)
    requires plan.cases > 0 && Reachable(plan, w) && p < plan.peers && q < plan.peers && p != q
    ensures |w.peers| == plan.peers
    ensures InOwnCase(w.peers[q].log)
    ensures w.peers[q].downlink != [] && w.peers[q].downlink[0].Forwarded? ==>
      !w.peers[q].exited && w.peers[q].currentCase == Some(w.peers[q].downlink[0].signal.run)
    ensures SignalsOf(p, w.peers[q].log + w.peers[q].downlink) + SignalsUp(w.peers[p].uplink) == w.peers[p].emitted
  {
    hide PeerAt, Relayed, SignalsOf, SignalsUp;
    SignalsConserved(plan, w, p, q);
    assert Heard(w.peers[q]) == w.peers[q].log + w.peers[q].downlink;
    ReachableInv(plan, w);
    var stage, locs :| Holds(plan, w, stage, locs);
    var pe := w.peers[q];
    InOwnCaseSplit(pe.log, pe.downlink);
    if pe.downlink != [] && pe.downlink[0].Forwarded? {
      NextInCase(pe);
      SignalHandler(pe, Entry(w.orch, q), Unsent(w.orch, q), locs[q], stage, w.orch.currentCase);
    }
  }

  lemma NextInCase(pe: C.Peer)
    requires InOwnCase(Heard(pe)) && pe.downlink != [] && pe.downlink[0].Forwarded?
    ensures CaseAfter(pe.log) == Some(pe.downlink[0].signal.run)
  {
    var m := pe.downlink[0];
    assert Heard(pe) == (pe.log + [m]) + pe.downlink[1..];
    InOwnCaseSplit(pe.log + [m], pe.downlink[1..]);
    assert (pe.log + [m])[..|pe.log|] == pe.log;
  }

  lemma SignalHandler(pe: C.Peer, known: Option<ClientState>, pending: seq<Down>, loc: Loc, stage: Stage, k: nat)
    requires PeerAt(pe, known, pending, loc, stage, k) && pe.downlink != []
    requires CaseAfter(pe.log).Some?
    ensures !pe.exited && pe.currentCase == CaseAfter(pe.log)
  {}

  /** Signals are emitted for the current case only, and while every peer has it configured. */
  lemma SignalsEmitted(plan: O.Plan, w: World, p: Name, i: nat)
    requires plan.cases > 0 && Reachable(plan, w) && p < plan.peers
    ensures |w.peers| == plan.peers
    ensures i < |w.peers[p].uplink| && w.peers[p].uplink[i].PeerSignal? ==>
      w.peers[p].uplink[i].signal.run == w.orch.currentCase && !w.orch.runState.BeforeTest?
  {
    hide Relayed, PeerAt;
    ReachableInv(plan, w);
    var stage, locs :| Holds(plan, w, stage, locs);
    SignalAt(w.peers[p], Entry(w.orch, p), Unsent(w.orch, p), locs[p], stage, w.orch.currentCase, i);
  }

  lemma SignalAt(pe: C.Peer, known: Option<ClientState>, pending: seq<Down>, loc: Loc, stage: Stage, k: nat, i: nat)
    requires PeerAt(pe, known, pending, loc, stage, k)
    ensures i < |pe.uplink| && pe.uplink[i].PeerSignal? ==>
      pe.uplink[i].signal.run == k && (stage.Trial? || stage.Winding?)
  {}
}
