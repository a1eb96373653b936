/** Signals on their way: what every peer emitted reaches every other peer, once and in order. */
module ProtocolSignals {
  import opened Wire
  import opened Queues
  import opened Protocol
  import opened ProtocolInvariant
  import opened ProtocolSteps
  import opened ProtocolSafety
  import opened ProtocolHistory
  import O = Orchestrator
  import C = ManagementClient

  /** The signals waiting in an uplink. */
  function SignalsUp(us: seq<Up>): seq<Signal> {
    if us == [] then []
    else if us[0].PeerSignal? then [us[0].signal] + SignalsUp(us[1..])
    else SignalsUp(us[1..])
  }

  /** The signals of peer `p` in a downlink or log. */
  function SignalsOf(p: Name, ds: seq<Down>): seq<Signal> {
    if ds == [] then []
    else
      var m := ds[|ds| - 1];
      SignalsOf(p, ds[..|ds| - 1]) + if m.Forwarded? && m.signal.from == p then [m.signal] else []
  }

  ghost predicate Own(us: seq<Up>, p: Name) {
    forall i :: 0 <= i < |us| && us[i].PeerSignal? ==> us[i].signal.from == p
  }

  /** What peer `q` was sent of the signals of `p`, followed by those still on the uplink of `p`, is
      what `p` emitted; nobody is sent his own. */
  ghost predicate Relays(p: Name, q: Name, heard: seq<Down>, us: seq<Up>, emitted: seq<Signal>) {
    if p == q then SignalsOf(p, heard) == [] else SignalsOf(p, heard) + SignalsUp(us) == emitted
  }

  ghost predicate Relayed(peers: seq<C.Peer>) {
    && (forall p :: 0 <= p < |peers| ==> Own(peers[p].uplink, p))
    && (forall p, q :: 0 <= p < |peers| && 0 <= q < |peers| ==>
          Relays(p, q, Heard(peers[q]), peers[p].uplink, peers[p].emitted))
  }

  lemma {:induction false} SignalsUpConcat(a: seq<Up>, b: seq<Up>)
    ensures SignalsUp(a + b) == SignalsUp(a) + SignalsUp(b)
  {
    if a == [] {
      assert a + b == b;
    } else {
      assert (a + b)[0] == a[0] && (a + b)[1..] == a[1..] + b;
      SignalsUpConcat(a[1..], b);
      if a[0].PeerSignal? {
        ConsConcat(a[0].signal, SignalsUp(a[1..]), SignalsUp(b));
      }
    }
  }

  lemma {:induction false} NoSignals(us: seq<Up>)
    requires forall i :: 0 <= i < |us| ==> !us[i].PeerSignal?
    ensures SignalsUp(us) == []
  {
    if us != [] {
      NoSignals(us[1..]);
    }
  }

  lemma SignalsPush(p: Name, ds: seq<Down>, m: Down)
    ensures SignalsOf(p, ds + [m])
      == if m.Forwarded? && m.signal.from == p then SignalsOf(p, ds) + [m.signal] else SignalsOf(p, ds)
  {
    assert (ds + [m])[..|ds|] == ds;
  }

  // One peer changes.

  /** The peer neither hears anything new nor emits anything, and no signal leaves its uplink. */
  ghost predicate Silent(pe: C.Peer, pe': C.Peer, p: Name) {
    && Heard(pe') == Heard(pe) && pe'.emitted == pe.emitted
    && SignalsUp(pe'.uplink) == SignalsUp(pe.uplink) && (Own(pe.uplink, p) ==> Own(pe'.uplink, p))
  }

  lemma SilentRelayed(peers: seq<C.Peer>, p: Name, pe': C.Peer)
    requires Relayed(peers) && p < |peers| && Silent(peers[p], pe', p)
    ensures Relayed(peers[p := pe'])
  {
    hide Own, Heard, SignalsUp, SignalsOf;
  }

  lemma UplinkGrows(pe: C.Peer, pe': C.Peer, p: Name, tail: seq<Up>)
    requires Heard(pe') == Heard(pe) && pe'.emitted == pe.emitted && pe'.uplink == pe.uplink + tail
    requires forall i :: 0 <= i < |tail| ==> !tail[i].PeerSignal?
    ensures Silent(pe, pe', p)
  {
    SignalsUpConcat(pe.uplink, tail);
    NoSignals(tail);
    hide Heard, SignalsUp;
    assert SignalsUp(pe.uplink) + [] == SignalsUp(pe.uplink);
  }

  lemma UplinkPops(pe: C.Peer, p: Name)
    requires pe.uplink != [] && !pe.uplink[0].PeerSignal?
    ensures Silent(pe, Popped(pe), p)
  {}

  lemma Emits(pe: C.Peer, p: Name, data: Bytes, q: Name, heard: seq<Down>)
    requires pe.currentCase.Some? && pe.budget > 0 && Own(pe.uplink, p) && Relays(p, q, heard, pe.uplink, pe.emitted)
    ensures var pe' := C.EmitSignal(pe, p, data);
      Own(pe'.uplink, p) && Relays(p, q, heard, pe'.uplink, pe'.emitted) && Heard(pe') == Heard(pe)
  {
    var s := Signal(p, pe.currentCase.value, data);
    SignalsUpConcat(pe.uplink, [PeerSignal(s)]);
    assert SignalsUp([PeerSignal(s)]) == [s];
    hide SignalsUp, SignalsOf;
    assert SignalsOf(p, heard) + (SignalsUp(pe.uplink) + [s]) == (SignalsOf(p, heard) + SignalsUp(pe.uplink)) + [s];
  }

  lemma EmitRelayed(peers: seq<C.Peer>, p: Name, data: Bytes)
    requires Relayed(peers) && p < |peers| && peers[p].currentCase.Some? && peers[p].budget > 0
    ensures Relayed(peers[p := C.EmitSignal(peers[p], p, data)])
  {
    hide Own, Heard, Relays;
    var pe := peers[p];
    forall q | 0 <= q < |peers|
      ensures var pe' := C.EmitSignal(pe, p, data);
        Own(pe'.uplink, p) && Relays(p, q, Heard(peers[q]), pe'.uplink, pe'.emitted) && Heard(pe') == Heard(pe)
    {
      Emits(pe, p, data, q, Heard(peers[q]));
    }
    hide C.EmitSignal;
    var pe' := C.EmitSignal(pe, p, data);
    var peers' := peers[p := pe'];
    assert forall q :: 0 <= q < |peers| ==> Heard(peers'[q]) == Heard(peers[q]);
  }

  /** The peer is sent something that is not a signal. */
  lemma TellRelayed(peers: seq<C.Peer>, p: Name, pe': C.Peer, m: Down)
    requires Relayed(peers) && p < |peers| && !m.Forwarded?
    requires Heard(pe') == Heard(peers[p]) + [m] && pe'.emitted == peers[p].emitted && pe'.uplink == peers[p].uplink
    ensures Relayed(peers[p := pe'])
  {
    hide Own, Heard, SignalsUp, SignalsOf;
    forall q: Name ensures SignalsOf(q, Heard(pe')) == SignalsOf(q, Heard(peers[p])) {
      SignalsPush(q, Heard(peers[p]), m);
    }
  }

  // A signal is forwarded.

  lemma ForwardOwn(p: Name, q: Name, heard: seq<Down>, us: seq<Up>, emitted: seq<Signal>)
    requires Relays(p, q, heard, us, emitted)
    requires us != [] && us[0].PeerSignal? && us[0].signal.from == p
    ensures Relays(p, q, if q == p then heard else heard + [Forwarded(us[0].signal)], us[1..], emitted)
  {
    var s := us[0].signal;
    assert SignalsUp(us) == [s] + SignalsUp(us[1..]);
    SignalsPush(p, heard, Forwarded(s));
    hide SignalsUp, SignalsOf;
    assert (SignalsOf(p, heard) + [s]) + SignalsUp(us[1..]) == SignalsOf(p, heard) + ([s] + SignalsUp(us[1..]));
  }

  lemma ForwardOther(r: Name, q: Name, heard: seq<Down>, us: seq<Up>, emitted: seq<Signal>, s: Signal)
    requires Relays(r, q, heard, us, emitted) && s.from != r
    ensures Relays(r, q, heard + [Forwarded(s)], us, emitted)
  {
    hide SignalsUp, SignalsOf;
    SignalsPush(r, heard, Forwarded(s));
  }

  lemma ForwardOne(peers: seq<C.Peer>, p: Name, q: Name, r: Name)
    requires Relayed(peers) && p < |peers| && q < |peers| && r < |peers|
    requires peers[p].uplink != [] && peers[p].uplink[0].PeerSignal?
    ensures Relays(r, q, if q == p then Heard(peers[q]) else Heard(peers[q]) + [Forwarded(peers[p].uplink[0].signal)],
      if r == p then peers[p].uplink[1..] else peers[r].uplink, peers[r].emitted)
  {
    var us := peers[p].uplink;
    assert us[0].signal.from == p by { assert Own(us, p); }
    assert Relays(r, q, Heard(peers[q]), peers[r].uplink, peers[r].emitted);
    hide Own, Heard, Relays, Relayed;
    if r == p {
      ForwardOwn(p, q, Heard(peers[q]), us, peers[p].emitted);
    } else if q != p {
      ForwardOther(r, q, Heard(peers[q]), peers[r].uplink, peers[r].emitted, us[0].signal);
    }
  }

  lemma Forwards(peers: seq<C.Peer>, p: Name, peers': seq<C.Peer>, q: Name)
    requires p < |peers| && peers[p].uplink != [] && peers[p].uplink[0].PeerSignal?
    requires q < |peers| && peers[q].connected && Own(peers[q].uplink, q)
    requires peers' == Broadcast(peers[p := Popped(peers[p])], p, peers[p].uplink[0].signal)
    ensures Heard(peers'[q]) ==
      if q == p then Heard(peers[q]) else Heard(peers[q]) + [Forwarded(peers[p].uplink[0].signal)]
    ensures peers'[q].uplink == if q == p then peers[q].uplink[1..] else peers[q].uplink
    ensures peers'[q].emitted == peers[q].emitted && Own(peers'[q].uplink, q)
  {
    var m := Forwarded(peers[p].uplink[0].signal);
    assert peers[q].log + (peers[q].downlink + [m]) == (peers[q].log + peers[q].downlink) + [m];
  }

  lemma ForwardRelayed(peers: seq<C.Peer>, p: Name, peers': seq<C.Peer>)
    requires Relayed(peers) && p < |peers| && peers[p].uplink != [] && peers[p].uplink[0].PeerSignal?
    requires forall q :: 0 <= q < |peers| ==> peers[q].connected
    requires peers' == Broadcast(peers[p := Popped(peers[p])], p, peers[p].uplink[0].signal)
    ensures Relayed(peers')
  {
    hide Own, Heard, Relays, Broadcast;
    forall r, q | 0 <= r < |peers| && 0 <= q < |peers|
      ensures Own(peers'[q].uplink, q)
      ensures Relays(r, q, Heard(peers'[q]), peers'[r].uplink, peers'[r].emitted)
    {
      Forwards(peers, p, peers', q);
      Forwards(peers, p, peers', r);
      ForwardOne(peers, p, q, r);
    }
  }

  lemma ConnectedNow(pe: C.Peer, known: Option<ClientState>, pending: seq<Down>, loc: Loc, stage: Stage, k: nat)
    requires PeerAt(pe, known, pending, loc, stage, k) && (stage.Trial? || stage.Winding?)
    ensures pe.connected
  {
    hide UplinkAt, Inbox;
  }

  // The steps.

  lemma SignalUpRelayed(plan: O.Plan, w: World, p: Name, order: seq<Name>, stage: Stage, locs: seq<Loc>)
    requires Located(plan, w, stage, locs) && Relayed(w.peers) && Enabled(plan, w, DeliverUp(p, order))
    requires w.peers[p].uplink[0].PeerSignal?
    ensures Relayed(Apply(plan, w, DeliverUp(p, order)).peers)
  {
    hide PeerAt, Relayed;
    SignalStep(plan, w, p, order, stage, locs);
    forall q | 0 <= q < |w.peers| ensures w.peers[q].connected {
      ConnectedNow(w.peers[q], Entry(w.orch, q), Unsent(w.orch, q), locs[q], stage, w.orch.currentCase);
    }
    ForwardRelayed(w.peers, p, Apply(plan, w, DeliverUp(p, order)).peers);
  }

  lemma UpRelayed(plan: O.Plan, w: World, p: Name, order: seq<Name>, stage: Stage, locs: seq<Loc>)
    requires Located(plan, w, stage, locs) && Relayed(w.peers) && Enabled(plan, w, DeliverUp(p, order))
    ensures Relayed(Apply(plan, w, DeliverUp(p, order)).peers)
  {
    hide Located, Relayed, Heard, Silent, O.Listener;
    var pe := w.peers[p];
    if pe.uplink[0].PeerSignal? {
      SignalUpRelayed(plan, w, p, order, stage, locs);
    } else {
      UplinkPops(pe, p);
      SilentRelayed(w.peers, p, Popped(pe));
      if pe.uplink[0].Register? {
        var mid := w.peers[p := Popped(pe)];
        var pe' := Popped(pe).(registered := true, downlink := pe.downlink + [RegisterOk]);
        TellHeard(Popped(pe), pe', RegisterOk);
        TellRelayed(mid, p, pe', RegisterOk);
        assert Apply(plan, w, DeliverUp(p, order)).peers == mid[p := pe'];
      }
    }
  }

  lemma TellHeard(pe: C.Peer, pe': C.Peer, m: Down)
    requires pe'.log == pe.log && pe'.downlink == pe.downlink + [m]
    ensures Heard(pe') == Heard(pe) + [m]
  {}

  lemma ReactSilent(pe: C.Peer, items: seq<Item>, budget: nat, p: Name)
    requires C.Receptive(pe)
    ensures Silent(pe, C.React(pe, items, budget), p)
  {
    var pe' := C.React(pe, items, budget);
    HeardReact(pe, items, budget);
    var tail := pe'.uplink[|pe.uplink|..];
    hide Heard, Silent;
    UplinkGrows(pe, pe', p, tail);
  }

  lemma LocalRelayed(plan: O.Plan, w: World, e: Event, stage: Stage, locs: seq<Loc>)
    requires Located(plan, w, stage, locs) && Relayed(w.peers) && Enabled(plan, w, e)
    requires e.Connect? || e.AssignCase? || e.FinishConfigure? || e.ReportTesting? || e.SendSignal?
    ensures Relayed(Apply(plan, w, e).peers)
  {
    hide PeerAt, Relayed, Silent;
    var p := e.p;
    var pe, pe' := w.peers[p], Apply(plan, w, e).peers[p];
    if e.SendSignal? {
      EmitRelayed(w.peers, p, e.data);
    } else {
      if e.Connect? {
        OfflineEmpty(pe, Entry(w.orch, p), Unsent(w.orch, p), locs[p], stage, w.orch.currentCase);
      }
      UplinkGrows(pe, pe', p, pe'.uplink[|pe.uplink|..]);
      SilentRelayed(w.peers, p, pe');
    }
  }

  lemma SendRelayed(plan: O.Plan, w: World, stage: Stage, locs: seq<Loc>)
    requires w.orch.activity.Sending? && w.orch.activity.todo != []
    requires Located(plan, w, stage, locs) && Relayed(w.peers)
    ensures Relayed(SendOne(w).peers)
  {
    hide PeerAt, Relayed, Pending;
    var p, m := w.orch.activity.todo[0].to, w.orch.activity.todo[0].message;
    var o' := w.orch.(activity := w.orch.activity.(todo := w.orch.activity.todo[1..]));
    UnsentPop(w.orch, p);
    SentPlain(w.peers[p], Entry(w.orch, p), m, Unsent(o', p), locs[p], stage, w.orch.currentCase);
    var pe' := w.peers[p].(downlink := w.peers[p].downlink + [m]);
    TellHeard(w.peers[p], pe', m);
    TellRelayed(w.peers, p, pe', m);
  }

  lemma StepRelayed(plan: O.Plan, w: World, e: Event, stage: Stage, locs: seq<Loc>)
    requires Located(plan, w, stage, locs) && Relayed(w.peers) && Enabled(plan, w, e)
    ensures Relayed(Apply(plan, w, e).peers)
  {
    hide Located, Relayed, Silent, HandleUp, O.StopTest, O.ShutdownAll;
    match e {
      case DeliverUp(p, order) => UpRelayed(plan, w, p, order, stage, locs);
      case DeliverDown(p, items, budget) =>
        ReactSilent(w.peers[p], items, budget, p);
        SilentRelayed(w.peers, p, C.React(w.peers[p], items, budget));
      case SendNext => SendRelayed(plan, w, stage, locs);
      case FinishSending =>
      case FireTimer(_) =>
      case WriteDone(_) =>
      case BeginShutdown(_) =>
      case _ => LocalRelayed(plan, w, e, stage, locs);
    }
  }
}
