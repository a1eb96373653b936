/** The server's table of connections, and its part in the steps of the closed system. */
module ManagementServer {
  import opened Wire
  import P = Protocol
  import I = ProtocolInvariant
  import Y = ProtocolSafety
  import H = ProtocolHistory
  import G = ProtocolSignals
  import Q = Queues
  import T = ProtocolTheorems
  import O = Orchestrator
  import C = ManagementClient

  /** `sendChan` is the channel with the socket behind it. */
  datatype WsClient = WsClient(sendChan: seq<Down>, registeredAs: Option<Name>)

  predicate IsNamed(clients: map<nat, WsClient>, id: nat, name: Name) {
    id in clients && clients[id].registeredAs == Some(name)
  }

  function Queued(clients: map<nat, WsClient>, id: nat, m: Down): map<nat, WsClient>
    requires id in clients
  {
    clients[id := clients[id].(sendChan := clients[id].sendChan + [m])]
  }

  function ForwardedToOthers(clients: map<nat, WsClient>, from: nat, s: Signal): map<nat, WsClient> {
    map id | id in clients ::
      if id != from then clients[id].(sendChan := clients[id].sendChan + [Forwarded(s)]) else clients[id]
  }

  class Server {
    var clients: map<nat, WsClient>
    var currentResultPath: Option<nat>
    var accepted: seq<P.Record>
    var writers: set<nat>
    var writeResultsWaiter: nat

    constructor ()
      ensures clients == map[] && currentResultPath == None && accepted == [] && writers == {}
      ensures writeResultsWaiter == 0
    {
      clients, currentResultPath, accepted, writers, writeResultsWaiter := map[], None, [], {}, 0;
    }

    /** Every record has at most one writer, and what the wait group counts beyond the writers is never
        counted down again. */
    ghost predicate Counted(lost: nat)
      reads this
    {
      && (forall i :: i in writers ==> i < |accepted|)
      && writeResultsWaiter == |writers| + lost
    }

    method OnConnect(id: nat)
      requires id !in clients
      modifies this`clients
      ensures clients == old(clients)[id := WsClient([], None)]
    {
      clients := clients[id := WsClient([], None)];
    }

    method OnRegister(id: nat, name: Name)
      requires id in clients
      modifies this`clients
      ensures clients == old(clients)[id := WsClient(old(clients)[id].sendChan + [RegisterOk], Some(name))]
    {
      clients := Queued(clients, id, RegisterOk);
      clients := clients[id := WsClient(clients[id].sendChan, Some(name))];
    }

    method OnPeerSignal(from: nat, s: Signal)
      modifies this`clients
      ensures clients == ForwardedToOthers(old(clients), from, s)
    {
      var left := clients.Keys;
      while left != {}
        invariant left <= clients.Keys == old(clients).Keys
        invariant forall id :: id in clients ==>
          clients[id] == if id in left then old(clients)[id] else ForwardedToOthers(old(clients), from, s)[id]
        decreases left
      {
        var id :| id in left;
        left := left - {id};
        if id != from {
          clients := Queued(clients, id, Forwarded(s));
        }
      }
    }

    method GetPeerByName(name: Name) returns (peer: Option<nat>)
      ensures peer.Some? ==> IsNamed(clients, peer.value, name)
      ensures peer.None? ==> forall id :: !IsNamed(clients, id, name)
    {
      var left := clients.Keys;
      while left != {}
        invariant left <= clients.Keys
        invariant forall id :: id in clients.Keys - left ==> !IsNamed(clients, id, name)
        decreases left
      {
        var id :| id in left;
        if clients[id].registeredAs.Some? && clients[id].registeredAs.value == name {
          return Some(id);
        }
        left := left - {id};
      }
      peer := None;
    }

    method SendMessage(name: Name, m: Down) returns (peer: Option<nat>)
      modifies this`clients
      ensures peer.Some? ==> IsNamed(old(clients), peer.value, name) && clients == Queued(old(clients), peer.value, m)
      ensures peer.None? ==> clients == old(clients) && forall id :: !IsNamed(clients, id, name)
    {
      peer := GetPeerByName(name);
      if peer.Some? {
        clients := Queued(clients, peer.value, m);
      }
    }

    /** The file is written later, to the path of now. `message` is None if it cannot be parsed; false:
        that, or a nil name is dereferenced, which costs the connection. The writer is counted before either
        is noticed. */
    method OnResults(id: nat, origin: nat, message: Option<Bytes>, ghost lost: nat) returns (ok: bool)
      requires id in clients && Counted(lost)
      modifies `accepted, `writers, `writeResultsWaiter
      ensures ok <==> message.Some? && clients[id].registeredAs.Some?
      ensures writeResultsWaiter == old(writeResultsWaiter) + 1
      ensures Counted(if ok then lost else lost + 1)
      ensures ok ==>
        accepted
        == old(accepted)
        + [P.Record(clients[id].registeredAs.value, currentResultPath, origin, ResultFile(message.value))]
      ensures ok ==> writers == old(writers) + {|old(accepted)|}
      ensures !ok ==> accepted == old(accepted) && writers == old(writers)
    {
      writeResultsWaiter := writeResultsWaiter + 1;
      if message.None? || clients[id].registeredAs.None? {
        return false;
      }
      writers := writers + {|accepted|};
      accepted := accepted + [P.Record(clients[id].registeredAs.value, currentResultPath, origin,
                                        ResultFile(message.value))];
      ok := true;
    }

    /** A writer is done. */
    method OnWritten(i: nat, ghost lost: nat)
      requires i in writers && Counted(lost)
      modifies `writers, `writeResultsWaiter
      ensures writers == old(writers) - {i} && Counted(lost)
    {
      writers := writers - {i};
      writeResultsWaiter := writeResultsWaiter - 1;
    }

    /** Whether SetShuttingDown returns: never again once a results message has failed. */
    method Drained(ghost lost: nat) returns (zero: bool)
      requires Counted(lost)
      ensures zero <==> writers == {} && lost == 0
    {
      zero := writeResultsWaiter == 0;
    }

    method SetCurrentResultPath(path: Option<nat>)
      modifies this`currentResultPath
      ensures currentResultPath == path
    {
      currentResultPath := path;
    }
  }

  // The same table in the closed system.

  function TableOf(w: P.World): map<nat, WsClient> {
    map p: nat | p < |w.peers| && w.peers[p].connected ::
      WsClient(w.peers[p].downlink, if w.peers[p].registered then Some(p) else None)
  }

  /** Messages are sent to registered peers only. */
  lemma Addressed(plan: O.Plan, w: P.World)
    requires plan.cases > 0 && P.Reachable(plan, w)
    requires w.orch.activity.Sending? && w.orch.activity.todo != []
    ensures var to := w.orch.activity.todo[0].to;
      to < |w.peers| && w.peers[to].connected && w.peers[to].registered
  {
    T.ReachableInv(plan, w);
    hide P.Reachable, T.Holds;
    var stage, locs :| T.Holds(plan, w, stage, locs);
    StandsAt(plan, w, stage, locs, w.orch.activity.todo[0].to);
  }

  lemma StandsAt(plan: O.Plan, w: P.World, stage: I.Stage, locs: seq<I.Loc>, p: Name)
    requires T.Holds(plan, w, stage, locs)
    requires w.orch.activity.Sending? && w.orch.activity.todo != [] && p == w.orch.activity.todo[0].to
    ensures p < |w.peers| && w.peers[p].connected && w.peers[p].registered
  {
    hide I.PeerAt;
    InStage(w.peers[p], I.Entry(w.orch, p), I.Unsent(w.orch, p), locs[p], stage, w.orch.currentCase);
  }

  lemma InStage(pe: C.Peer, known: Option<ClientState>, pending: seq<Down>, loc: I.Loc, stage: I.Stage, k: nat)
    requires I.PeerAt(pe, known, pending, loc, stage, k) && !stage.Gather?
    ensures pe.connected && pe.registered
  {
    hide I.UplinkAt;
  }

  /** A forwarded signal does to the table what the server's loop over its connections does, whatever
      the order of the loop. */
  lemma ForwardRefines(w: P.World, p: Name, s: Signal)
    ensures TableOf(w.(peers := P.Broadcast(w.peers, p, s))) == ForwardedToOthers(TableOf(w), p, s)
  {}

  /** In reachable states one connection at most has a given name, so the search by name does not
      depend on its order; each send of the orchestrator queues the message there. */
  lemma SendRefines(plan: O.Plan, w: P.World)
    requires plan.cases > 0 && P.Reachable(plan, w)
    requires w.orch.activity.Sending? && w.orch.activity.todo != []
    ensures var to, m := w.orch.activity.todo[0].to, w.orch.activity.todo[0].message;
      && IsNamed(TableOf(w), to, to) && (forall id :: IsNamed(TableOf(w), id, to) ==> id == to)
      && TableOf(P.SendOne(w)) == Queued(TableOf(w), to, m)
  {
    hide P.Reachable;
    var to, m := w.orch.activity.todo[0].to, w.orch.activity.todo[0].message;
    Addressed(plan, w);
    var w' := P.SendOne(w);
    forall p: nat | p < |w.peers| && p != to ensures w'.peers[p] == w.peers[p] {}
  }

  lemma SilentUntilTold(ds: seq<Down>)
    requires Q.InOwnCase(ds) && Q.SolidDown(ds) == []
    ensures ds == []
  {
    if ds != [] {
      assert ds == ds[..1] + ds[1..] && ds[..1][..0] == [];
      Q.InOwnCaseSplit(ds[..1], ds[1..]);
    }
  }

  lemma OfflineFresh(pe: C.Peer, known: Option<ClientState>, pending: seq<Down>, loc: I.Loc, stage: I.Stage, k: nat,
                     issued: seq<Down>)
    requires I.PeerAt(pe, known, pending, loc, stage, k)
    requires H.HeardRight(H.Heard(pe), pe.registered, pending, issued) && (stage.Gather? ==> issued == [])
    ensures !pe.connected ==> pe.downlink == [] && !pe.registered
    ensures pe.uplink != [] ==> pe.connected
  {
    if !pe.connected {
      hide I.UplinkAt, Q.InOwnCase, Q.SolidDown;
      H.OfflineEmpty(pe, known, pending, loc, stage, k);
      assert |Q.SolidDown(H.Heard(pe))| == 0;
      SilentUntilTold(H.Heard(pe));
    }
  }

  lemma PeerFresh(plan: O.Plan, w: P.World, p: Name)
    requires plan.cases > 0 && P.Reachable(plan, w) && p < |w.peers|
    ensures !w.peers[p].connected ==> w.peers[p].downlink == [] && !w.peers[p].registered
    ensures w.peers[p].uplink != [] ==> w.peers[p].connected
  {
    T.ReachableInv(plan, w);
    hide P.Reachable, I.PeerAt, H.HeardRight, G.Relayed, I.Rounds, I.Script;
    var stage, locs :| T.Holds(plan, w, stage, locs);
    T.IssuedLength(plan, w.orch, stage, locs);
    OfflineFresh(w.peers[p], I.Entry(w.orch, p), I.Unsent(w.orch, p), locs[p], stage, w.orch.currentCase,
      w.orch.issued);
  }

  /** The first steps of a connection do to the table what OnConnect and OnRegister do. */
  lemma ConnectRefines(plan: O.Plan, w: P.World, p: Name)
    requires plan.cases > 0 && P.Reachable(plan, w) && P.Enabled(plan, w, P.Connect(p))
    ensures p !in TableOf(w)
    ensures TableOf(P.Apply(plan, w, P.Connect(p))) == TableOf(w)[p := WsClient([], None)]
  {
    hide P.Reachable;
    PeerFresh(plan, w, p);
  }

  lemma RegisterRefines(plan: O.Plan, w: P.World, p: Name, order: seq<Name>)
    requires plan.cases > 0 && P.Reachable(plan, w) && P.Enabled(plan, w, P.DeliverUp(p, order))
    requires w.peers[p].uplink[0].Register?
    ensures p in TableOf(w)
    ensures TableOf(P.Apply(plan, w, P.DeliverUp(p, order)))
      == TableOf(w)[p := WsClient(TableOf(w)[p].sendChan + [RegisterOk], Some(p))]
  {
    hide P.Reachable;
    PeerFresh(plan, w, p);
  }

  /** A results message finds its sender registered, and is recorded as OnResults records it. */
  lemma ResultsRefine(plan: O.Plan, w: P.World, p: Name, order: seq<Name>)
    requires plan.cases > 0 && P.Reachable(plan, w) && P.Enabled(plan, w, P.DeliverUp(p, order))
    requires w.peers[p].uplink[0].Upload? && w.peers[p].uplink[0].item.ResultFile?
    ensures var u, w' := w.peers[p].uplink[0], P.Apply(plan, w, P.DeliverUp(p, order));
      && p in TableOf(w) && TableOf(w)[p].registeredAs == Some(p) && TableOf(w') == TableOf(w)
      && w'.accepted == w.accepted + [P.Record(p, w.orch.resultPath, u.origin, u.item)]
      && w'.unwritten == w.unwritten + {|w.accepted|}
  {
    hide P.Reachable, I.Located, H.Recorded, G.Relayed, O.Listener;
    PeerFresh(plan, w, p);
    T.ReachableInv(plan, w);
    var stage, locs :| T.Holds(plan, w, stage, locs);
    var _ := Y.UploadStep(plan, w, p, order, stage, locs);
  }

  /** The result path is set, to the path of the case, exactly when a Configure is issued. */
  lemma PathRefines(plan: O.Plan, w: P.World, e: P.Event)
    requires P.Enabled(plan, w, e)
    ensures var o, o' := w.orch, P.Apply(plan, w, e).orch;
      if exists k :: o'.issued == o.issued + [Configure(k)]
      then o'.resultPath == Some(o'.currentCase) && o'.issued == o.issued + [Configure(o'.currentCase)]
      else o'.resultPath == o.resultPath
  {
    var o, o' := w.orch, P.Apply(plan, w, e).orch;
    if k :| o'.issued == o.issued + [Configure(k)] {
      assert o'.issued[|o.issued|] == Configure(k);
    }
  }
}
