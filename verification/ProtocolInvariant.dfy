/** The inductive invariant of the closed system: where each peer stands, and what that says
    about both queues, the pending sends and the orchestrator's view of the peer. */
module ProtocolInvariant {
  import opened Wire
  import opened Queues
  import opened Protocol
  import O = Orchestrator
  import C = ManagementClient

  datatype Stage = Gather | Setup | Trial | Winding | Draining | Closing

  datatype Loc =
    | Offline
    | Dialed                                 // Register under way
    | Welcomed                               // RegisterOk under way
    | Greeting                               // first "registered" under way
    | Rest                                   // reported "registered", nothing under way
    | Told                                   // Configure under way
    | Preparing(installed: bool, seen: bool) // configureCase running; "configuring" already seen?
    | Prepared(seen: bool)                   // "test_ready" under way
    | Ready
    | Called                                 // Start under way
    | Launching                              // inside the Start handler
    | Launched                               // "testing" under way
    | Running
    | Unloading(through: nat, ups: seq<Up>)  // stopped; `through` of "testing", "test_ending" processed
    | Dismissed                              // Shutdown under way
    | Gone

  function SU(st: ClientState): Up { StateUpdate(st) }

  function Unload(through: nat, ups: seq<Up>): seq<Up> {
    var uploads := ups + [SU(Registered)];
    if through == 0 then [SU(Testing)] + ([SU(TestEnding)] + uploads)
    else if through == 1 then [SU(TestEnding)] + uploads
    else uploads
  }

  predicate Possible(stage: Stage, loc: Loc) {
    match stage
    case Gather => loc.Offline? || loc.Dialed? || loc.Welcomed? || loc.Greeting? || loc.Rest?
    case Setup => loc.Told? || loc.Preparing? || loc.Prepared? || loc.Ready?
    case Trial => loc.Called? || loc.Launching? || loc.Launched? || loc.Running?
    case Winding => loc.Called? || loc.Launching? || loc.Launched? || loc.Running? || loc.Unloading? || loc.Rest?
    case Draining => loc.Rest?
    case Closing => loc.Dismissed? || loc.Gone?
  }

  /** Commands under way to the peer: in its downlink or still to be sent. */
  function Inbox(loc: Loc, stage: Stage, k: nat): seq<Down> {
    var stop := if stage.Winding? then [Stop] else [];
    match loc
    case Welcomed => [RegisterOk]
    case Told => [Configure(k)]
    case Called => [Start] + stop
    case Launching => stop
    case Launched => stop
    case Running => stop
    case Dismissed => [Shutdown]
    case _ => []
  }

  /** Messages other than signals under way from the peer. */
  function Outbox(loc: Loc): seq<Up> {
    match loc
    case Dialed => [Register]
    case Greeting => [SU(Registered)]
    case Preparing(_, seen) => if seen then [] else [SU(Configuring)]
    case Prepared(seen) => if seen then [SU(TestReady)] else [SU(Configuring), SU(TestReady)]
    case Launched => [SU(Testing)]
    case Unloading(through, ups) => Unload(through, ups)
    case _ => []
  }

  /** The entry of the peer in connectedClients. */
  function Known(loc: Loc): Option<ClientState> {
    match loc
    case Offline => None
    case Dialed => None
    case Welcomed => None
    case Greeting => None
    case Preparing(_, seen) => Some(if seen then Configuring else Registered)
    case Prepared(seen) => Some(if seen then Configuring else Registered)
    case Ready => Some(TestReady)
    case Called => Some(TestReady)
    case Launching => Some(TestReady)
    case Launched => Some(TestReady)
    case Running => Some(Testing)
    case Unloading(through, _) => Some(if through == 0 then TestReady else if through == 1 then Testing else TestEnding)
    case _ => Some(Registered)
  }

  predicate Busy(loc: Loc) { loc.Launching? || loc.Launched? || loc.Running? }

  predicate InSetup(loc: Loc) { loc.Preparing? || loc.Prepared? || loc.Ready? }

  /** Cases the peer has been stopped in. */
  function Done(loc: Loc, stage: Stage, k: nat): nat {
    if loc.Unloading? || loc.Dismissed? || loc.Gone? || (loc.Rest? && !stage.Gather?) then k + 1 else k
  }

  ghost predicate UplinkAt(us: seq<Up>, loc: Loc, k: nat) {
    && SolidUp(us) == Outbox(loc)
    && (forall i :: 0 <= i < |us| && us[i].PeerSignal? ==> us[i].signal.run == k)
    && (!Busy(loc) && !loc.Unloading? ==> forall i :: 0 <= i < |us| ==> !us[i].PeerSignal?)
    && (loc.Unloading? ==>
          && us != [] && us[|us| - 1] == SU(Registered)
          && loc.through <= 2
          && forall i :: 0 <= i < |loc.ups| ==> loc.ups[i].Upload? && loc.ups[i].origin == k)
    && C.Finishes(us)
  }

  ghost predicate ControlAt(pe: C.Peer, loc: Loc, stage: Stage, k: nat) {
    && pe.connected == !loc.Offline?
    && pe.registered == (!loc.Offline? && !loc.Dialed?)
    && pe.exited == loc.Gone?
    && pe.starting == loc.Launching?
    && pe.executing == Busy(loc)
    && pe.jobs == (if loc.Preparing? then [C.Job(k, loc.installed)] else [])
    && (loc.Told? && pe.downlink != [] && pe.downlink[|pe.downlink| - 1].Forwarded? ==> SolidDown(pe.downlink) == [])
    && (InSetup(loc) ==> pe.downlink == [] && CaseAfter(pe.log) == Some(k))
    && (!loc.Gone? && !(loc.Preparing? && !loc.installed) ==> pe.currentCase == CaseAfter(pe.log))
    && (stage.Trial? || stage.Winding? || stage.Draining? ==> CaseAfter(pe.log + pe.downlink) == Some(k))
    && (stage.Trial? || stage.Winding? || stage.Draining? ==> CaseAfter(pe.log) == Some(k))
    && (loc.Gone? ==> CaseAfter(pe.log).None?)
    && (stage.Gather? ==> k == 0)
    && |pe.sent| == Done(loc, stage, k)
    && forall j :: 0 <= j < |pe.sent| ==> pe.sent[j].origin == j && C.Uploadable(pe.sent[j].items)
  }

  ghost predicate PeerAt(pe: C.Peer, known: Option<ClientState>, pending: seq<Down>, loc: Loc, stage: Stage, k: nat) {
    && Possible(stage, loc)
    && SolidDown(pe.downlink) + pending == Inbox(loc, stage, k)
    && known == Known(loc)
    && UplinkAt(pe.uplink, loc, k)
    && ControlAt(pe, loc, stage, k)
  }

  function Entry(o: O.State, p: Name): Option<ClientState> {
    if p in o.connectedClients then Some(o.connectedClients[p]) else None
  }

  function Unsent(o: O.State, p: Name): seq<Down> {
    if o.activity.Sending? then Pending(o.activity.todo, p) else []
  }

  /** Configure 0, Start, Stop, Configure 1, Start, Stop, ... for the first k cases */
  function Rounds(k: nat): seq<Down> {
    if k == 0 then [] else Rounds(k - 1) + [Configure(k - 1), Start, Stop]
  }

  /** The first k rounds and n commands of the next one. */
  function Script(k: nat, n: nat): seq<Down>
    requires n <= 3
  {
    Rounds(k) + [Configure(k), Start, Stop][..n]
  }

  ghost predicate Someone(locs: seq<Loc>, calm: Loc) {
    locs == [] || exists p :: 0 <= p < |locs| && locs[p] != calm
  }

  predicate SendingOr(a: O.Activity, t: O.Then, other: O.Activity) {
    a == other || (a.Sending? && a.andThen == t)
  }

  ghost predicate StageInv(plan: O.Plan, o: O.State, stage: Stage, locs: seq<Loc>) {
    var k := o.currentCase;
    && k < plan.cases
    && o.connectedClients.Keys <= O.Roster(plan)
    && (o.activity.Sending? ==> forall i :: 0 <= i < |o.activity.todo| ==> o.activity.todo[i].to < plan.peers)
    && match stage
       case Gather =>
         && o.runState.BeforeTest? && o.activity.Free? && o.timers == 0 && k == 0
         && o.resultPath.None? && o.issued == Rounds(k) && Someone(locs, Rest)
       case Setup =>
         && o.runState.BeforeTest? && SendingOr(o.activity, O.Return, O.Free) && o.timers == 0
         && o.resultPath == Some(k) && o.issued == Script(k, 1) && Someone(locs, Ready)
       case Trial =>
         && o.runState.DuringTest? && SendingOr(o.activity, O.ArmTimer, O.Free)
         && o.timers == (if o.activity.Free? then 1 else 0)
         && o.resultPath == Some(k) && o.issued == Script(k, 2)
       case Winding =>
         && o.runState.AfterTest? && SendingOr(o.activity, O.Return, O.Free) && o.timers == 0
         && o.resultPath == Some(k) && o.issued == Script(k, 3) && Someone(locs, Rest)
       case Draining =>
         && o.runState.AfterTest? && o.activity.Draining? && o.timers == 0 && k == plan.cases - 1
         && o.resultPath == Some(k) && o.issued == Script(k, 3)
       case Closing =>
         && o.runState.AfterTest? && SendingOr(o.activity, O.EndRun, O.Ended) && o.timers == 0
         && k == plan.cases - 1 && o.resultPath == Some(k) && o.issued == Script(k, 3) + [Shutdown]
  }

  ghost predicate Located(plan: O.Plan, w: World, stage: Stage, locs: seq<Loc>) {
    && |w.peers| == |locs| == plan.peers
    && StageInv(plan, w.orch, stage, locs)
    && forall p :: 0 <= p < plan.peers ==>
         PeerAt(w.peers[p], Entry(w.orch, p), Unsent(w.orch, p), locs[p], stage, w.orch.currentCase)
  }
}
