/** Every step keeps `Located`: first what a step does at the peer it concerns, then the whole. */
module ProtocolSteps {
  import opened Wire
  import opened Queues
  import opened Protocol
  import opened ProtocolInvariant
  import O = Orchestrator
  import C = ManagementClient

  lemma {:induction false} ClosesConcat(a: seq<Up>, b: seq<Up>, f: string)
    ensures C.Closes(a + b, f) == (C.Closes(a, f) || C.Closes(b, f))
  {
    if a == [] {
      assert a + b == b;
    } else {
      assert (a + b)[1..] == a[1..] + b;
      ClosesConcat(a[1..], b, f);
    }
  }

  lemma {:induction false} FinishesConcat(a: seq<Up>, b: seq<Up>)
    requires C.Finishes(a) && C.Finishes(b)
    ensures C.Finishes(a + b)
  {
    if a == [] {
      assert a + b == b;
    } else {
      assert (a + b)[1..] == a[1..] + b;
      FinishesConcat(a[1..], b);
      if a[0].Upload? && a[0].item.Piece? {
        ClosesConcat(a, b, a[0].item.chunk.fileName);
      }
    }
  }

  lemma {:induction false} ClosesUploads(k: nat, items: seq<Item>, f: string)
    ensures C.Closes(C.Uploads(k, items), f) == C.Closes(C.Uploads(0, items), f)
  {
    if items != [] {
      assert C.Uploads(k, items)[1..] == C.Uploads(k, items[1..]);
      assert C.Uploads(0, items)[1..] == C.Uploads(0, items[1..]);
      ClosesUploads(k, items[1..], f);
    }
  }

  lemma {:induction false} FinishesUploads(k: nat, items: seq<Item>)
    requires C.Finishes(C.Uploads(0, items))
    ensures C.Finishes(C.Uploads(k, items))
  {
    if items != [] {
      assert C.Uploads(k, items)[1..] == C.Uploads(k, items[1..]);
      assert C.Uploads(0, items)[1..] == C.Uploads(0, items[1..]);
      if items[0].Piece? {
        ClosesUploads(k, items, items[0].chunk.fileName);
      }
      FinishesUploads(k, items[1..]);
    }
  }

  /** A message appended to the uplink that carries no chunk. */
  lemma PushUp(us: seq<Up>, m: Up)
    requires C.Finishes(us) && !(m.Upload? && m.item.Piece?)
    ensures C.Finishes(us + [m])
    ensures SolidUp(us + [m]) == SolidUp(us) + (if m.PeerSignal? then [] else [m])
  {
    FinishesConcat(us, [m]);
    SolidUpConcat(us, [m]);
  }

  lemma PopDown(ds: seq<Down>, log: seq<Down>)
    requires ds != []
    ensures SolidDown(ds) == (if ds[0].Forwarded? then [] else [ds[0]]) + SolidDown(ds[1..])
    ensures log + ds == (log + [ds[0]]) + ds[1..]
    ensures CaseAfter(log + [ds[0]]) == match ds[0]
                                        case Configure(k) => Some(k)
                                        case Shutdown => None
                                        case _ => CaseAfter(log)
  {
    assert (log + [ds[0]])[..|log|] == log;
  }

  lemma HeadOf(ds: seq<Down>, pending: seq<Down>, inbox: seq<Down>)
    requires ds != [] && !ds[0].Forwarded? && SolidDown(ds) + pending == inbox
    ensures inbox != [] && ds[0] == inbox[0] && SolidDown(ds[1..]) + pending == inbox[1..]
  {
    var s := SolidDown(ds[1..]);
    assert SolidDown(ds) == [ds[0]] + s;
    ConsConcat(ds[0], s, pending);
  }

  /** The peer at `loc` is about to handle the head of its downlink. */
  ghost predicate Handles(pe: C.Peer, known: Option<ClientState>, pending: seq<Down>, loc: Loc, stage: Stage, k: nat,
                          items: seq<Item>) {
    && PeerAt(pe, known, pending, loc, stage, k)
    && C.Receptive(pe) && C.Uploadable(items)
  }

  /** Only one place expects each command. */
  lemma HeadPlace(pe: C.Peer, known: Option<ClientState>, pending: seq<Down>, loc: Loc, stage: Stage, k: nat)
    requires PeerAt(pe, known, pending, loc, stage, k)
    requires pe.downlink != [] && !pe.downlink[0].Forwarded? && !pe.starting
    ensures SolidDown(pe.downlink[1..]) + pending == Inbox(loc, stage, k)[1..]
    ensures match pe.downlink[0]
            case RegisterOk => loc == Welcomed && stage.Gather?
            case Configure(j) => loc == Told && stage.Setup? && j == k
            case Start => loc == Called && (stage.Trial? || stage.Winding?)
            case Stop => (loc == Launched || loc == Running) && stage.Winding?
            case Shutdown => loc == Dismissed && stage.Closing?
            case Forwarded(_) => true
  {
    HeadOf(pe.downlink, pending, Inbox(loc, stage, k));
  }

  lemma ReactForwarded(pe: C.Peer, known: Option<ClientState>, pending: seq<Down>, loc: Loc, stage: Stage, k: nat,
                       items: seq<Item>, budget: nat)
    requires Handles(pe, known, pending, loc, stage, k, items) && pe.downlink[0].Forwarded?
    ensures PeerAt(C.React(pe, items, budget), known, pending, loc, stage, k)
  {
    hide SolidDown, SolidUp, CaseAfter, C.Finishes, C.Uploadable;
    PopDown(pe.downlink, pe.log);
  }

  lemma ReactConfigure(pe: C.Peer, known: Option<ClientState>, pending: seq<Down>, k: nat, items: seq<Item>,
                       budget: nat)
    requires Handles(pe, known, pending, Told, Setup, k, items) && pe.downlink[0] == Configure(k)
    ensures PeerAt(C.React(pe, items, budget), known, pending, Preparing(false, false), Setup, k)
  {
    hide SolidDown, SolidUp, CaseAfter, C.Finishes, C.Uploadable, ControlAt;
    HeadPlace(pe, known, pending, Told, Setup, k);
    PushUp(pe.uplink, SU(Configuring));
    assert SolidDown(pe.downlink[1..]) == [];
    ConfigureControl(pe, k, items, budget);
  }

  lemma ConfigureControl(pe: C.Peer, k: nat, items: seq<Item>, budget: nat)
    requires ControlAt(pe, Told, Setup, k) && C.Receptive(pe) && pe.downlink[0] == Configure(k)
    requires SolidDown(pe.downlink[1..]) == []
    ensures ControlAt(C.React(pe, items, budget), Preparing(false, false), Setup, k)
  {
    hide SolidDown, CaseAfter, C.Uploadable;
    PopDown(pe.downlink, pe.log);
    var rest := pe.downlink[1..];
    if rest != [] && !rest[|rest| - 1].Forwarded? {
      SolidDownHas(rest, |rest| - 1);
    }
  }

  /** What a handled Stop appends. */
  lemma StopTail(k: nat, items: seq<Item>)
    requires C.Uploadable(items)
    ensures var tail := Unload(1, C.Uploads(k, items));
      C.Finishes(tail) && SolidUp(tail) == tail
  {
    var ups := C.Uploads(k, items);
    FinishesUploads(k, items);
    FinishesConcat(ups, [SU(Registered)]);
    FinishesConcat([SU(TestEnding)], ups + [SU(Registered)]);
    SolidUpAll(Unload(1, ups));
  }

  lemma SignalsConcat(us: seq<Up>, tail: seq<Up>, k: nat)
    requires forall i :: 0 <= i < |us| && us[i].PeerSignal? ==> us[i].signal.run == k
    requires forall i :: 0 <= i < |tail| ==> !tail[i].PeerSignal?
    ensures forall i :: 0 <= i < |us + tail| && (us + tail)[i].PeerSignal? ==> (us + tail)[i].signal.run == k
  {}

  lemma StopTailShape(k: nat, items: seq<Item>)
    ensures var tail := Unload(1, C.Uploads(k, items));
      && tail != [] && tail[|tail| - 1] == SU(Registered) && forall i :: 0 <= i < |tail| ==> !tail[i].PeerSignal?
    ensures forall i :: 0 <= i < |C.Uploads(k, items)| ==>
      C.Uploads(k, items)[i].Upload? && C.Uploads(k, items)[i].origin == k
  {}

  lemma UnloadingAt(us: seq<Up>, through: nat, ups: seq<Up>, k: nat)
    requires through <= 2 && SolidUp(us) == Unload(through, ups) && C.Finishes(us)
    requires forall i :: 0 <= i < |us| && us[i].PeerSignal? ==> us[i].signal.run == k
    requires us != [] && us[|us| - 1] == SU(Registered)
    requires forall i :: 0 <= i < |ups| ==> ups[i].Upload? && ups[i].origin == k
    ensures UplinkAt(us, Unloading(through, ups), k)
  {
    hide SolidUp, C.Finishes, Unload;
  }

  lemma StopUplinkAt(us: seq<Up>, loc: Loc, k: nat, items: seq<Item>)
    requires UplinkAt(us, loc, k) && (loc == Launched || loc == Running) && C.Uploadable(items)
    ensures UplinkAt(us + Unload(1, C.Uploads(k, items)),
      Unloading(if loc.Launched? then 0 else 1, C.Uploads(k, items)), k)
  {
    hide SolidUp, C.Finishes, C.Uploadable, C.Uploads;
    StopTail(k, items);
    StopTailShape(k, items);
    var ups := C.Uploads(k, items);
    var tail := Unload(1, ups);
    assert Unload(0, ups) == [SU(Testing)] + tail;
    assert C.Finishes(us) && SolidUp(us) == if loc.Launched? then [SU(Testing)] else [];
    assert forall i :: 0 <= i < |us| && us[i].PeerSignal? ==> us[i].signal.run == k;
    hide Unload, UplinkAt;
    FinishesConcat(us, tail);
    SolidUpConcat(us, tail);
    SignalsConcat(us, tail, k);
    assert [] + tail == tail && (us + tail)[|us + tail| - 1] == tail[|tail| - 1];
    UnloadingAt(us + tail, if loc.Launched? then 0 else 1, ups, k);
  }

  lemma StopUplink(pe: C.Peer, loc: Loc, k: nat, items: seq<Item>)
    requires UplinkAt(pe.uplink, loc, k) && (loc == Launched || loc == Running)
    requires C.Uploadable(items) && pe.currentCase == Some(k) && C.Receptive(pe) && pe.downlink[0].Stop?
    ensures UplinkAt(C.React(pe, items, 0).uplink, Unloading(if loc.Launched? then 0 else 1, C.Uploads(k, items)), k)
  {
    StopUplinkAt(pe.uplink, loc, k, items);
    hide UplinkAt, C.Uploads, C.Uploadable, C.React, Unload;
    StopAppends(pe, k, items);
  }

  lemma StopAppends(pe: C.Peer, k: nat, items: seq<Item>)
    requires pe.currentCase == Some(k) && C.Receptive(pe) && pe.downlink[0].Stop?
    ensures C.React(pe, items, 0).uplink == pe.uplink + Unload(1, C.Uploads(k, items))
  {
    hide C.Uploads;
    var us, ups := pe.uplink, C.Uploads(k, items);
    assert C.React(pe, items, 0).uplink == ((us + [SU(TestEnding)]) + ups) + [SU(Registered)];
    assert ((us + [SU(TestEnding)]) + ups) + [SU(Registered)] == us + (([SU(TestEnding)] + ups) + [SU(Registered)]);
  }

  lemma StopControl(pe: C.Peer, loc: Loc, k: nat, items: seq<Item>)
    requires ControlAt(pe, loc, Winding, k) && (loc == Launched || loc == Running)
    requires C.Uploadable(items) && C.Receptive(pe) && pe.downlink[0].Stop?
    ensures pe.currentCase == Some(k)
    ensures ControlAt(C.React(pe, items, 0), Unloading(if loc.Launched? then 0 else 1, C.Uploads(k, items)), Winding, k)
  {
    hide SolidDown, SolidUp, CaseAfter, C.Finishes, C.Uploadable;
    PopDown(pe.downlink, pe.log);
  }

  lemma ReactStop(pe: C.Peer, known: Option<ClientState>, pending: seq<Down>, loc: Loc, k: nat,
                  items: seq<Item>, budget: nat)
    requires Handles(pe, known, pending, loc, Winding, k, items) && pe.downlink[0].Stop?
    requires loc == Launched || loc == Running
    ensures PeerAt(C.React(pe, items, budget), known, pending,
                   Unloading(if loc.Launched? then 0 else 1, C.Uploads(k, items)), Winding, k)
  {
    hide SolidDown, SolidUp, CaseAfter, C.Finishes, C.Uploadable, UplinkAt, ControlAt;
    HeadPlace(pe, known, pending, loc, Winding, k);
    StopControl(pe, loc, k, items);
    StopUplink(pe, loc, k, items);
  }

  lemma ReactRegisterOk(pe: C.Peer, known: Option<ClientState>, pending: seq<Down>, k: nat, items: seq<Item>,
                        budget: nat)
    requires Handles(pe, known, pending, Welcomed, Gather, k, items) && pe.downlink[0].RegisterOk?
    ensures PeerAt(C.React(pe, items, budget), known, pending, Greeting, Gather, k)
  {
    hide SolidDown, SolidUp, CaseAfter, C.Finishes, C.Uploadable;
    HeadPlace(pe, known, pending, Welcomed, Gather, k);
    PopDown(pe.downlink, pe.log);
    PushUp(pe.uplink, SU(Registered));
  }

  lemma ReactStart(pe: C.Peer, known: Option<ClientState>, pending: seq<Down>, stage: Stage, k: nat,
                   items: seq<Item>, budget: nat)
    requires Handles(pe, known, pending, Called, stage, k, items) && pe.downlink[0].Start?
    ensures PeerAt(C.React(pe, items, budget), known, pending, Launching, stage, k)
  {
    hide SolidDown, SolidUp, CaseAfter, C.Finishes, C.Uploadable;
    HeadPlace(pe, known, pending, Called, stage, k);
    PopDown(pe.downlink, pe.log);
  }

  lemma ReactShutdown(pe: C.Peer, known: Option<ClientState>, pending: seq<Down>, k: nat, items: seq<Item>, budget: nat)
    requires Handles(pe, known, pending, Dismissed, Closing, k, items) && pe.downlink[0].Shutdown?
    ensures PeerAt(C.React(pe, items, budget), known, pending, Gone, Closing, k)
  {
    hide SolidDown, SolidUp, CaseAfter, C.Finishes, C.Uploadable;
    HeadPlace(pe, known, pending, Dismissed, Closing, k);
    PopDown(pe.downlink, pe.log);
  }

  /** The place of a peer after it has handled a message. */
  function Heeding(loc: Loc, m: Down, ups: seq<Up>): Loc {
    match m
    case RegisterOk => Greeting
    case Configure(_) => Preparing(false, false)
    case Start => Launching
    case Stop => Unloading(if loc.Launched? then 0 else 1, ups)
    case Shutdown => Gone
    case Forwarded(_) => loc
  }

  lemma ReactLocal(pe: C.Peer, known: Option<ClientState>, pending: seq<Down>, loc: Loc, stage: Stage, k: nat,
                   items: seq<Item>, budget: nat) returns (loc': Loc)
    requires Handles(pe, known, pending, loc, stage, k, items)
    ensures PeerAt(C.React(pe, items, budget), known, pending, loc', stage, k)
    ensures loc' == Heeding(loc, pe.downlink[0], C.Uploads(k, items))
    ensures (loc == Ready <==> loc' == Ready) && (loc == Rest <==> loc' == Rest)
  {
    loc' := loc;
    if pe.downlink[0].Forwarded? {
      ReactForwarded(pe, known, pending, loc, stage, k, items, budget);
      return;
    }
    HeadPlace(pe, known, pending, loc, stage, k);
    match pe.downlink[0]
    case RegisterOk =>
      ReactRegisterOk(pe, known, pending, k, items, budget);
      loc' := Greeting;
    case Configure(_) =>
      ReactConfigure(pe, known, pending, k, items, budget);
      loc' := Preparing(false, false);
    case Start =>
      ReactStart(pe, known, pending, stage, k, items, budget);
      loc' := Launching;
    case Stop =>
      ReactStop(pe, known, pending, loc, k, items, budget);
      loc' := Unloading(if loc.Launched? then 0 else 1, C.Uploads(k, items));
    case Shutdown =>
      ReactShutdown(pe, known, pending, k, items, budget);
      loc' := Gone;
  }

  // Steps of the peer's own goroutines.

  lemma DialLocal(pe: C.Peer, known: Option<ClientState>, pending: seq<Down>, loc: Loc, stage: Stage, k: nat)
    requires PeerAt(pe, known, pending, loc, stage, k) && !pe.connected
    ensures loc == Offline
    ensures PeerAt(pe.(connected := true, uplink := [Register]), known, pending, Dialed, stage, k)
  {
    assert SolidUp([Register]) == [Register];
  }

  lemma AssignLocal(pe: C.Peer, known: Option<ClientState>, pending: seq<Down>, loc: Loc, stage: Stage, k: nat, i: nat)
    requires PeerAt(pe, known, pending, loc, stage, k) && i < |pe.jobs| && !pe.jobs[i].installed
    ensures loc.Preparing?
    ensures PeerAt(C.AssignCase(pe, i), known, pending, Preparing(true, loc.seen), stage, k)
  {
    hide SolidDown, SolidUp, CaseAfter, C.Finishes, C.Uploadable;
    assert pe.jobs[i := pe.jobs[i].(installed := true)] == [C.Job(k, true)];
  }

  lemma FinishLocal(pe: C.Peer, known: Option<ClientState>, pending: seq<Down>, loc: Loc, stage: Stage, k: nat, i: nat)
    requires PeerAt(pe, known, pending, loc, stage, k) && i < |pe.jobs| && pe.jobs[i].installed
    ensures loc.Preparing?
    ensures PeerAt(C.FinishConfigure(pe, i), known, pending, Prepared(loc.seen), stage, k)
  {
    hide SolidDown, SolidUp, CaseAfter, C.Finishes, C.Uploadable;
    assert pe.jobs[..i] + pe.jobs[i + 1..] == [];
    PushUp(pe.uplink, SU(TestReady));
  }

  lemma ReportLocal(pe: C.Peer, known: Option<ClientState>, pending: seq<Down>, loc: Loc, stage: Stage, k: nat)
    requires PeerAt(pe, known, pending, loc, stage, k) && pe.starting
    ensures loc == Launching
    ensures PeerAt(C.ReportTesting(pe), known, pending, Launched, stage, k)
  {
    hide SolidDown, SolidUp, CaseAfter, C.Finishes, C.Uploadable;
    PushUp(pe.uplink, SU(Testing));
  }

  lemma EmitLocal(pe: C.Peer, known: Option<ClientState>, pending: seq<Down>, loc: Loc, stage: Stage, k: nat,
                  me: Name, data: Bytes)
    requires PeerAt(pe, known, pending, loc, stage, k) && pe.executing && pe.currentCase.Some? && pe.budget > 0
    ensures Busy(loc) && pe.currentCase == Some(k)
    ensures PeerAt(C.EmitSignal(pe, me, data), known, pending, loc, stage, k)
  {
    hide SolidDown, SolidUp, CaseAfter, C.Finishes, C.Uploadable;
    PushUp(pe.uplink, PeerSignal(Signal(me, k, data)));
  }

  // The head of the uplink is taken off.

  function Advance(loc: Loc): Loc {
    match loc
    case Greeting => Rest
    case Preparing(i, _) => Preparing(i, true)
    case Prepared(seen) => if seen then Ready else Prepared(true)
    case Launched => Running
    case Unloading(through, ups) => if through < 2 then Unloading(through + 1, ups) else Rest
    case _ => loc
  }

  function Popped(pe: C.Peer): C.Peer
    requires pe.uplink != []
  {
    pe.(uplink := pe.uplink[1..])
  }

  lemma UpHead(us: seq<Up>)
    requires us != [] && C.Finishes(us)
    ensures SolidUp(us) == (if us[0].PeerSignal? then [] else [us[0]]) + SolidUp(us[1..])
    ensures C.Finishes(us[1..])
    ensures |us| == 1 || us[1..][|us| - 2] == us[|us| - 1]
  {}

  lemma UnloadShape(ups: seq<Up>)
    requires ups != []
    ensures Unload(2, ups) == [ups[0]] + Unload(2, ups[1..])
  {
    assert ups == [ups[0]] + ups[1..];
    ConsConcat(ups[0], ups[1..], [SU(Registered)]);
  }

  lemma OutboxState(loc: Loc)
    requires Outbox(loc) != [] && Outbox(loc)[0].StateUpdate?
    requires loc.Unloading? ==> loc.through <= 2 && forall i :: 0 <= i < |loc.ups| ==> loc.ups[i].Upload?
    ensures Outbox(loc)[1..] == Outbox(Advance(loc))
    ensures Known(Advance(loc)) == Some(Outbox(loc)[0].state)
    ensures loc.Greeting? || (loc.Preparing? && !loc.seen) || loc.Prepared? || loc.Launched? || loc.Unloading?
    ensures loc.Unloading? && loc.through == 2 ==> loc.ups == []
  {
    if loc.Unloading? && loc.through == 2 && loc.ups != [] {
      UnloadShape(loc.ups);
    }
  }

  lemma UpStatePlace(pe: C.Peer, loc: Loc, stage: Stage, k: nat)
    requires UplinkAt(pe.uplink, loc, k) && ControlAt(pe, loc, stage, k)
    requires pe.uplink != [] && pe.uplink[0].StateUpdate?
    ensures pe.registered
    ensures SolidUp(pe.uplink[1..]) == Outbox(Advance(loc))
    ensures Known(Advance(loc)) == Some(pe.uplink[0].state)
    ensures loc.Greeting? || (loc.Preparing? && !loc.seen) || loc.Prepared? || loc.Launched? || loc.Unloading?
    ensures loc.Unloading? && loc.through == 2 ==> loc.ups == []
  {
    hide SolidDown, SolidUp, CaseAfter, C.Finishes, C.Uploadable;
    UpHead(pe.uplink);
    assert SolidUp(pe.uplink)[1..] == SolidUp(pe.uplink[1..]);
    OutboxState(loc);
  }

  lemma UpStateUplink(pe: C.Peer, loc: Loc, k: nat)
    requires UplinkAt(pe.uplink, loc, k) && pe.uplink != [] && pe.uplink[0].StateUpdate?
    requires SolidUp(pe.uplink[1..]) == Outbox(Advance(loc))
    requires loc.Greeting? || loc.Preparing? || loc.Prepared? || loc.Launched? || loc.Unloading?
    ensures UplinkAt(pe.uplink[1..], Advance(loc), k)
  {
    hide C.Finishes;
    UpHead(pe.uplink);
    var us := pe.uplink[1..];
    if loc.Unloading? && us != [] {
      assert us[|us| - 1] == SU(Registered);
      SolidUpHas(us, |us| - 1);
    }
  }

  lemma UpStateControl(pe: C.Peer, loc: Loc, stage: Stage, k: nat)
    requires ControlAt(pe, loc, stage, k) && Possible(stage, loc) && pe.uplink != []
    requires loc.Greeting? || loc.Preparing? || loc.Prepared? || loc.Launched? || loc.Unloading?
    ensures ControlAt(Popped(pe), Advance(loc), stage, k) && Possible(stage, Advance(loc))
    ensures Inbox(loc, stage, k) == Inbox(Advance(loc), stage, k)
  {
    hide SolidDown, SolidUp, CaseAfter, C.Finishes, C.Uploadable;
  }

  lemma UpStateLocal(pe: C.Peer, known: Option<ClientState>, pending: seq<Down>, loc: Loc, stage: Stage, k: nat)
    requires PeerAt(pe, known, pending, loc, stage, k)
    requires pe.uplink != [] && pe.uplink[0].StateUpdate?
    ensures PeerAt(Popped(pe), Some(pe.uplink[0].state), pending, Advance(loc), stage, k)
  {
    hide SolidDown, SolidUp, CaseAfter, C.Finishes, C.Uploadable, UplinkAt, ControlAt;
    UpStatePlace(pe, loc, stage, k);
    UpStateUplink(pe, loc, k);
    UpStateControl(pe, loc, stage, k);
  }

  lemma UpRegisterLocal(pe: C.Peer, known: Option<ClientState>, loc: Loc, stage: Stage, k: nat)
    requires PeerAt(pe, known, [], loc, stage, k)
    requires pe.uplink != [] && pe.uplink[0].Register?
    ensures loc == Dialed && stage.Gather?
    ensures PeerAt(Popped(pe).(registered := true, downlink := pe.downlink + [RegisterOk]), known, [], Welcomed,
      stage, k)
  {
    hide SolidDown, SolidUp, CaseAfter, C.Finishes, C.Uploadable, ControlAt;
    UpRegisterUplink(pe, loc, k);
    DownPush(pe, RegisterOk);
    UpRegisterControl(pe, stage, k);
  }

  lemma UpRegisterUplink(pe: C.Peer, loc: Loc, k: nat)
    requires UplinkAt(pe.uplink, loc, k) && pe.uplink != [] && pe.uplink[0].Register?
    ensures loc == Dialed && UplinkAt(pe.uplink[1..], Welcomed, k)
  {
    hide SolidUp, C.Finishes;
    UpHead(pe.uplink);
    assert pe.uplink[0] == SolidUp(pe.uplink)[0] && SolidUp(pe.uplink)[1..] == SolidUp(pe.uplink[1..]);
  }

  lemma UpRegisterControl(pe: C.Peer, stage: Stage, k: nat)
    requires ControlAt(pe, Dialed, stage, k) && stage.Gather? && pe.uplink != []
    ensures ControlAt(Popped(pe).(registered := true, downlink := pe.downlink + [RegisterOk]), Welcomed, stage, k)
  {
    hide SolidDown, CaseAfter, C.Uploadable;
  }

  lemma UpSignalLocal(pe: C.Peer, known: Option<ClientState>, pending: seq<Down>, loc: Loc, stage: Stage, k: nat)
    requires PeerAt(pe, known, pending, loc, stage, k)
    requires pe.uplink != [] && pe.uplink[0].PeerSignal?
    ensures pe.uplink[0].signal.run == k && (stage.Trial? || stage.Winding?)
    ensures PeerAt(Popped(pe), known, pending, loc, stage, k)
  {
    hide SolidDown, SolidUp, CaseAfter, C.Finishes, C.Uploadable, ControlAt, Inbox, Outbox, Known;
    UpHead(pe.uplink);
    assert ControlAt(Popped(pe), loc, stage, k) by { ControlPopped(pe, loc, stage, k); }
  }

  lemma ControlPopped(pe: C.Peer, loc: Loc, stage: Stage, k: nat)
    requires ControlAt(pe, loc, stage, k) && pe.uplink != []
    ensures ControlAt(Popped(pe), loc, stage, k)
  {
    hide SolidDown, CaseAfter, C.Uploadable;
  }

  lemma UpUploadPlace(us: seq<Up>, loc: Loc, stage: Stage, k: nat)
    requires UplinkAt(us, loc, k) && Possible(stage, loc) && us != [] && us[0].Upload?
    ensures loc.Unloading? && loc.ups != [] && us[0].origin == k && loc.through == 2 && us[0] == loc.ups[0]
  {
    hide SolidUp, C.Finishes;
    UpHead(us);
    assert us[0] == SolidUp(us)[0];
  }

  lemma UpUploadUplink(us: seq<Up>, loc: Loc, k: nat)
    requires UplinkAt(us, loc, k) && us != [] && us[0].Upload?
    requires loc.Unloading? && loc.ups != [] && loc.through == 2
    ensures UplinkAt(us[1..], Unloading(2, loc.ups[1..]), k)
  {
    hide SolidUp, C.Finishes;
    UpHead(us);
    UnloadShape(loc.ups);
    assert SolidUp(us[1..]) == SolidUp(us)[1..];
    assert us[0] != us[|us| - 1];
  }

  lemma UpUploadControl(pe: C.Peer, loc: Loc, stage: Stage, k: nat)
    requires ControlAt(pe, loc, stage, k) && pe.uplink != [] && loc.Unloading? && loc.ups != []
    ensures ControlAt(Popped(pe), Unloading(2, loc.ups[1..]), stage, k) && pe.registered
  {
    hide SolidDown, CaseAfter, C.Uploadable;
  }

  lemma UpUploadLocal(pe: C.Peer, known: Option<ClientState>, pending: seq<Down>, loc: Loc, stage: Stage, k: nat)
    requires PeerAt(pe, known, pending, loc, stage, k)
    requires pe.uplink != [] && pe.uplink[0].Upload?
    ensures loc.Unloading? && loc.ups != [] && pe.uplink[0].origin == k && stage.Winding? && pe.registered
    ensures PeerAt(Popped(pe), known, pending, Unloading(2, loc.ups[1..]), stage, k)
  {
    hide SolidDown, UplinkAt, ControlAt;
    UpUploadPlace(pe.uplink, loc, stage, k);
    UpUploadUplink(pe.uplink, loc, k);
    UpUploadControl(pe, loc, stage, k);
  }

  // The downlink grows.

  lemma DownPush(pe: C.Peer, m: Down)
    ensures SolidDown(pe.downlink + [m]) == SolidDown(pe.downlink) + (if m.Forwarded? then [] else [m])
    ensures pe.log + (pe.downlink + [m]) == (pe.log + pe.downlink) + [m]
    ensures m.Start? || m.Stop? || m.Forwarded? ==>
      CaseAfter(pe.log + (pe.downlink + [m])) == CaseAfter(pe.log + pe.downlink)
  {
    SolidDownConcat(pe.downlink, [m]);
    assert ((pe.log + pe.downlink) + [m])[..|pe.log + pe.downlink|] == pe.log + pe.downlink;
  }

  lemma HearControl(pe: C.Peer, loc: Loc, stage: Stage, k: nat, s: Signal)
    requires ControlAt(pe, loc, stage, k) && Possible(stage, loc) && (stage.Trial? || stage.Winding?)
    ensures ControlAt(pe.(downlink := pe.downlink + [Forwarded(s)]), loc, stage, k)
  {
    hide SolidDown, SolidUp, CaseAfter, C.Finishes, C.Uploadable;
    DownPush(pe, Forwarded(s));
  }

  lemma HearLocal(pe: C.Peer, known: Option<ClientState>, pending: seq<Down>, loc: Loc, stage: Stage, k: nat, s: Signal)
    requires PeerAt(pe, known, pending, loc, stage, k) && (stage.Trial? || stage.Winding?)
    ensures PeerAt(pe.(downlink := pe.downlink + [Forwarded(s)]), known, pending, loc, stage, k)
  {
    hide SolidDown, SolidUp, CaseAfter, C.Finishes, C.Uploadable;
    DownPush(pe, Forwarded(s));
    assert SolidDown(pe.downlink) + [] == SolidDown(pe.downlink);
    HearControl(pe, loc, stage, k, s);
  }

  lemma SentPlace(pe: C.Peer, known: Option<ClientState>, m: Down, rest: seq<Down>, loc: Loc, stage: Stage, k: nat)
    requires PeerAt(pe, known, [m] + rest, loc, stage, k)
    ensures m in Inbox(loc, stage, k) && !m.Forwarded? && pe.registered
    ensures !InSetup(loc)
    ensures stage.Trial? || stage.Winding? ==> m.Start? || m.Stop?
    ensures !stage.Draining?
  {
    assert ([m] + rest)[0] == m;
    assert m in SolidDown(pe.downlink) + ([m] + rest);
  }

  lemma SentControl(pe: C.Peer, m: Down, loc: Loc, stage: Stage, k: nat)
    requires ControlAt(pe, loc, stage, k) && !m.Forwarded? && !InSetup(loc) && !stage.Draining?
    requires stage.Trial? || stage.Winding? ==> m.Start? || m.Stop?
    ensures ControlAt(pe.(downlink := pe.downlink + [m]), loc, stage, k)
  {
    hide SolidDown, CaseAfter, C.Uploadable;
    DownPush(pe, m);
  }

  lemma SentLocal(pe: C.Peer, known: Option<ClientState>, m: Down, rest: seq<Down>, loc: Loc, stage: Stage, k: nat)
    requires PeerAt(pe, known, [m] + rest, loc, stage, k)
    ensures pe.registered && !m.Forwarded?
    ensures PeerAt(pe.(downlink := pe.downlink + [m]), known, rest, loc, stage, k)
  {
    hide SolidDown, CaseAfter, UplinkAt, ControlAt, Inbox, Known, Possible, InSetup;
    SentPlace(pe, known, m, rest, loc, stage, k);
    SentControl(pe, m, loc, stage, k);
    DownPush(pe, m);
    assert (SolidDown(pe.downlink) + [m]) + rest == SolidDown(pe.downlink) + ([m] + rest);
  }

  // A command is issued to the peer.

  lemma ToldLocal(pe: C.Peer, known: Option<ClientState>, stage: Stage, k: nat)
    requires PeerAt(pe, known, [], Rest, stage, k) && (stage.Gather? || stage.Winding?)
    ensures PeerAt(pe, known, [Configure(if stage.Gather? then k else k + 1)], Told, Setup,
      if stage.Gather? then k else k + 1)
  {
    hide SolidDown, SolidUp, CaseAfter, C.Finishes, C.Uploadable;
  }

  lemma CalledLocal(pe: C.Peer, known: Option<ClientState>, k: nat)
    requires PeerAt(pe, known, [], Ready, Setup, k)
    ensures PeerAt(pe, known, [Start], Called, Trial, k)
  {
    hide SolidDown, SolidUp, CaseAfter, C.Finishes, C.Uploadable;
    assert pe.log + pe.downlink == pe.log;
  }

  lemma StoppedLocal(pe: C.Peer, known: Option<ClientState>, loc: Loc, k: nat)
    requires PeerAt(pe, known, [], loc, Trial, k)
    ensures PeerAt(pe, known, [Stop], loc, Winding, k)
  {
    hide SolidDown, SolidUp, CaseAfter, C.Finishes, C.Uploadable, UplinkAt;
    assert SolidDown(pe.downlink) + [] == SolidDown(pe.downlink);
  }

  lemma DrainedLocal(pe: C.Peer, known: Option<ClientState>, k: nat)
    requires PeerAt(pe, known, [], Rest, Winding, k)
    ensures PeerAt(pe, known, [], Rest, Draining, k)
  {
    hide SolidDown, SolidUp, CaseAfter, C.Finishes, C.Uploadable;
  }

  lemma DismissedLocal(pe: C.Peer, known: Option<ClientState>, k: nat)
    requires PeerAt(pe, known, [], Rest, Draining, k)
    ensures PeerAt(pe, known, [Shutdown], Dismissed, Closing, k)
  {
    hide SolidDown, SolidUp, CaseAfter, C.Finishes, C.Uploadable;
  }
}
