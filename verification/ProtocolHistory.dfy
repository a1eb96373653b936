/** What every run has recorded: the commands each peer was sent, the signals it was passed, and
    the uploads the server accepted. */
module ProtocolHistory {
  import opened Wire
  import opened Queues
  import opened Protocol
  import opened ProtocolInvariant
  import opened ProtocolSteps
  import opened ProtocolSafety
  import O = Orchestrator
  import C = ManagementClient

  type Tagged = (nat, Item)

  /** Everything put on the downlink so far. */
  function Heard(pe: C.Peer): seq<Down> { pe.log + pe.downlink }

  /** The uploads waiting in an uplink. */
  function Uploading(us: seq<Up>): seq<Tagged> {
    if us == [] then []
    else if us[0].Upload? then [(us[0].origin, us[0].item)] + Uploading(us[1..])
    else Uploading(us[1..])
  }

  function Tag(b: C.Batch): seq<Tagged> {
    seq(|b.items|, i requires 0 <= i < |b.items| => (b.origin, b.items[i]))
  }

  /** Everything a peer has uploaded, in order. */
  function Flatten(sent: seq<C.Batch>): seq<Tagged> {
    if sent == [] then [] else Flatten(sent[..|sent| - 1]) + Tag(sent[|sent| - 1])
  }

  /** What the server accepted from `p`, in order. */
  function Taken(accepted: seq<Record>, p: Name): seq<Tagged> {
    if accepted == [] then []
    else
      var r := accepted[|accepted| - 1];
      Taken(accepted[..|accepted| - 1], p) + (if r.from == p then [(r.origin, r.item)] else [])
  }

  /** The peer was sent exactly the commands issued, and signals of its own case only. */
  ghost predicate HeardRight(heard: seq<Down>, registered: bool, unsent: seq<Down>, issued: seq<Down>) {
    && SolidDown(heard) + unsent == (if registered then [RegisterOk] else []) + issued
    && InOwnCase(heard)
  }

  /** Nothing uploaded is lost, repeated or reordered on its way to the server. */
  ghost predicate Conserved(us: seq<Up>, sent: seq<C.Batch>, taken: seq<Tagged>) {
    taken + Uploading(us) == Flatten(sent)
  }

  ghost predicate StoreRight(w: World) {
    && (forall i :: 0 <= i < |w.accepted| ==> w.accepted[i].path == Some(w.accepted[i].origin))
    && (forall i :: i in w.unwritten ==> i < |w.accepted|)
    && (forall p, f :: (p, f) in w.openFiles ==>
          p < |w.peers| && w.openFiles[(p, f)] == Some(w.orch.currentCase) && C.Closes(w.peers[p].uplink, f))
  }

  ghost predicate Recorded(plan: O.Plan, w: World) {
    && |w.peers| == plan.peers
    && (forall p :: 0 <= p < plan.peers ==>
          HeardRight(Heard(w.peers[p]), w.peers[p].registered, Unsent(w.orch, p), w.orch.issued)
          && Conserved(w.peers[p].uplink, w.peers[p].sent, Taken(w.accepted, p)))
    && StoreRight(w)
  }

  lemma {:induction false} UploadingConcat(a: seq<Up>, b: seq<Up>)
    ensures Uploading(a + b) == Uploading(a) + Uploading(b)
  {
    if a == [] {
      assert a + b == b;
    } else {
      assert (a + b)[0] == a[0] && (a + b)[1..] == a[1..] + b;
      UploadingConcat(a[1..], b);
      if a[0].Upload? {
        ConsConcat((a[0].origin, a[0].item), Uploading(a[1..]), Uploading(b));
      }
    }
  }

  lemma {:induction false} UploadingBatch(k: nat, items: seq<Item>)
    ensures Uploading(C.Uploads(k, items)) == Tag(C.Batch(k, items))
  {
    if items != [] {
      assert C.Uploads(k, items)[1..] == C.Uploads(k, items[1..]);
      UploadingBatch(k, items[1..]);
      assert Tag(C.Batch(k, items)) == [(k, items[0])] + Tag(C.Batch(k, items[1..]));
    }
  }

  lemma HeardPush(pe: C.Peer, m: Down)
    ensures var pe' := pe.(downlink := pe.downlink + [m]);
      && Heard(pe') == Heard(pe) + [m]
      && SolidDown(Heard(pe')) == SolidDown(Heard(pe)) + (if m.Forwarded? then [] else [m])
      && (InOwnCase(Heard(pe)) && (m.Forwarded? ==> CaseAfter(Heard(pe)) == Some(m.signal.run)) ==>
          InOwnCase(Heard(pe')))
  {
    var pe' := pe.(downlink := pe.downlink + [m]);
    assert Heard(pe') == Heard(pe) + [m];
    SolidDownConcat(Heard(pe), [m]);
    assert (Heard(pe) + [m])[..|Heard(pe)|] == Heard(pe);
  }

  // The effect of each kind of change on one peer's records.

  lemma HeardReact(pe: C.Peer, items: seq<Item>, budget: nat)
    requires C.Receptive(pe)
    ensures Heard(C.React(pe, items, budget)) == Heard(pe)
    ensures C.React(pe, items, budget).registered == pe.registered
  {
    assert Heard(pe) == (pe.log + [pe.downlink[0]]) + pe.downlink[1..];
  }

  lemma GrowUplink(pe: C.Peer, pe': C.Peer, tail: seq<Up>, taken: seq<Tagged>)
    requires Conserved(pe.uplink, pe.sent, taken) && pe'.uplink == pe.uplink + tail
    requires Flatten(pe'.sent) == Flatten(pe.sent) + Uploading(tail)
    ensures Conserved(pe'.uplink, pe'.sent, taken)
    ensures forall f :: C.Closes(pe.uplink, f) ==> C.Closes(pe'.uplink, f)
  {
    UploadingConcat(pe.uplink, tail);
    assert taken + (Uploading(pe.uplink) + Uploading(tail)) == (taken + Uploading(pe.uplink)) + Uploading(tail);
    forall f | C.Closes(pe.uplink, f) ensures C.Closes(pe'.uplink, f) {
      ClosesConcat(pe.uplink, tail, f);
    }
  }

  lemma StopUploads(k: nat, items: seq<Item>)
    ensures Uploading([SU(TestEnding)] + C.Uploads(k, items) + [SU(Registered)]) == Tag(C.Batch(k, items))
  {
    var ups := C.Uploads(k, items);
    UploadingConcat([SU(TestEnding)] + ups, [SU(Registered)]);
    UploadingConcat([SU(TestEnding)], ups);
    UploadingBatch(k, items);
    assert Uploading([SU(TestEnding)]) == [] && Uploading([SU(Registered)]) == [];
  }

  lemma FlattenPush(sent: seq<C.Batch>, b: C.Batch)
    ensures Flatten(sent + [b]) == Flatten(sent) + Tag(b)
  {
    assert (sent + [b])[..|sent|] == sent;
  }

  lemma UploadingReact(pe: C.Peer, items: seq<Item>, budget: nat, taken: seq<Tagged>)
    requires C.Receptive(pe) && Conserved(pe.uplink, pe.sent, taken)
    ensures var q := C.React(pe, items, budget); Conserved(q.uplink, q.sent, taken)
    ensures forall f :: C.Closes(pe.uplink, f) ==> C.Closes(C.React(pe, items, budget).uplink, f)
  {
    hide Uploading, Flatten, C.Closes, Tag, Conserved;
    var q := C.React(pe, items, budget);
    if pe.downlink[0].Stop? && pe.currentCase.Some? {
      var k := pe.currentCase.value;
      var tail := [SU(TestEnding)] + C.Uploads(k, items) + [SU(Registered)];
      StopUploads(k, items);
      assert q.uplink == pe.uplink + tail;
      FlattenPush(pe.sent, C.Batch(k, items));
      GrowUplink(pe, q, tail, taken);
    } else if pe.downlink[0].RegisterOk? || pe.downlink[0].Configure? {
      var m := SU(if pe.downlink[0].RegisterOk? then Registered else Configuring);
      NoUpload(m);
      assert Flatten(pe.sent) + [] == Flatten(pe.sent);
      GrowUplink(pe, q, [m], taken);
    }
  }

  lemma UploadingPop(pe: C.Peer, taken: seq<Tagged>)
    requires pe.uplink != [] && Conserved(pe.uplink, pe.sent, taken)
    ensures !pe.uplink[0].Upload? ==> Conserved(pe.uplink[1..], pe.sent, taken)
    ensures pe.uplink[0].Upload? ==>
      Conserved(pe.uplink[1..], pe.sent, taken + [(pe.uplink[0].origin, pe.uplink[0].item)])
    ensures forall f :: C.Closes(pe.uplink, f) && !C.FinalPiece(pe.uplink[0], f) ==> C.Closes(pe.uplink[1..], f)
  {
    if pe.uplink[0].Upload? {
      var x := (pe.uplink[0].origin, pe.uplink[0].item);
      assert (taken + [x]) + Uploading(pe.uplink[1..]) == taken + ([x] + Uploading(pe.uplink[1..]));
    }
  }

  // The steps.

  /** A step that leaves the server's records, the pending sends and all but one peer alone. */
  lemma OnePeerRecorded(plan: O.Plan, w: World, w': World, p: Name, q: C.Peer)
    requires Recorded(plan, w) && p < plan.peers && w' == Put(w, p, q)
    requires Heard(q) == Heard(w.peers[p]) && q.registered == w.peers[p].registered
    requires Conserved(q.uplink, q.sent, Taken(w.accepted, p))
    requires forall f :: C.Closes(w.peers[p].uplink, f) ==> C.Closes(q.uplink, f)
    ensures Recorded(plan, w')
  {}

  lemma LocalRecorded(plan: O.Plan, w: World, e: Event, stage: Stage, locs: seq<Loc>)
    requires Recorded(plan, w) && Located(plan, w, stage, locs) && Enabled(plan, w, e)
    requires e.Connect? || e.AssignCase? || e.FinishConfigure? || e.ReportTesting? || e.SendSignal?
    ensures Recorded(plan, Apply(plan, w, e))
  {
    hide PeerAt, Uploading, Flatten;
    var p := e.p;
    var pe := w.peers[p];
    var q := Apply(plan, w, e).peers[p];
    if !e.AssignCase? {
      var m := match e
        case Connect(_) => Register
        case FinishConfigure(_, _) => SU(TestReady)
        case ReportTesting(_) => SU(Testing)
        case SendSignal(_, data) => PeerSignal(Signal(p, pe.currentCase.value, data));
      NoUpload(m);
      if e.Connect? {
        OfflineEmpty(pe, Entry(w.orch, p), Unsent(w.orch, p), locs[p], stage, w.orch.currentCase);
        assert q.uplink == pe.uplink + [m];
      }
      assert Flatten(pe.sent) + [] == Flatten(pe.sent);
      GrowUplink(pe, q, [m], Taken(w.accepted, p));
    }
    OnePeerRecorded(plan, w, Apply(plan, w, e), p, q);
  }

  lemma NoUpload(m: Up)
    requires !m.Upload?
    ensures Uploading([m]) == []
  {}

  lemma OfflineEmpty(pe: C.Peer, known: Option<ClientState>, pending: seq<Down>, loc: Loc, stage: Stage, k: nat)
    requires PeerAt(pe, known, pending, loc, stage, k) && !pe.connected
    ensures pe.uplink == []
  {
    SolidUpAll(pe.uplink);
  }

  lemma DownRecorded(plan: O.Plan, w: World, e: Event)
    requires Recorded(plan, w) && Enabled(plan, w, e) && e.DeliverDown?
    ensures Recorded(plan, Apply(plan, w, e))
  {
    var q := C.React(w.peers[e.p], e.items, e.budget);
    HeardReact(w.peers[e.p], e.items, e.budget);
    UploadingReact(w.peers[e.p], e.items, e.budget, Taken(w.accepted, e.p));
    OnePeerRecorded(plan, w, Apply(plan, w, e), e.p, q);
  }

  lemma HeardSent(pe: C.Peer, m: Down, rest: seq<Down>, issued: seq<Down>)
    requires HeardRight(Heard(pe), pe.registered, [m] + rest, issued) && !m.Forwarded?
    ensures HeardRight(Heard(pe.(downlink := pe.downlink + [m])), pe.registered, rest, issued)
  {
    HeardPush(pe, m);
    assert (SolidDown(Heard(pe)) + [m]) + rest == SolidDown(Heard(pe)) + ([m] + rest);
  }

  lemma SendRecorded(plan: O.Plan, w: World, stage: Stage, locs: seq<Loc>)
    requires w.orch.activity.Sending? && w.orch.activity.todo != []
    requires Recorded(plan, w) && Located(plan, w, stage, locs)
    ensures Recorded(plan, SendOne(w))
  {
    hide PeerAt, HeardRight, Conserved, Pending, Heard;
    SendStep(plan, w, stage, locs);
    var p, m := w.orch.activity.todo[0].to, w.orch.activity.todo[0].message;
    var o' := w.orch.(activity := w.orch.activity.(todo := w.orch.activity.todo[1..]));
    UnsentPop(w.orch, p);
    SentPlain(w.peers[p], Entry(w.orch, p), m, Unsent(o', p), locs[p], stage, w.orch.currentCase);
    HeardSent(w.peers[p], m, Unsent(o', p), w.orch.issued);
    var w' := SendOne(w);
    forall q | 0 <= q < plan.peers
      ensures HeardRight(Heard(w'.peers[q]), w'.peers[q].registered, Unsent(w'.orch, q), w'.orch.issued)
    {
      UnsentPop(w.orch, q);
    }
  }

  lemma SentPlain(pe: C.Peer, known: Option<ClientState>, m: Down, rest: seq<Down>, loc: Loc, stage: Stage, k: nat)
    requires PeerAt(pe, known, [m] + rest, loc, stage, k)
    ensures !m.Forwarded? && pe.registered
  {
    SentPlace(pe, known, m, rest, loc, stage, k);
  }

  // Uploads.

  lemma {:induction false} ClosesHas(us: seq<Up>, f: string) returns (i: nat)
    requires C.Closes(us, f)
    ensures i < |us| && us[i].Upload?
  {
    if C.FinalPiece(us[0], f) {
      i := 0;
    } else {
      var j := ClosesHas(us[1..], f);
      i := j + 1;
    }
  }

  lemma UploadsOnlyWinding(pe: C.Peer, known: Option<ClientState>, pending: seq<Down>, loc: Loc, stage: Stage,
                           k: nat, f: string)
    requires PeerAt(pe, known, pending, loc, stage, k) && C.Closes(pe.uplink, f)
    ensures stage.Winding?
  {
    var i := ClosesHas(pe.uplink, f);
    SolidUpHas(pe.uplink, i);
  }

  lemma NoOpenFiles(plan: O.Plan, w: World, stage: Stage, locs: seq<Loc>)
    requires Located(plan, w, stage, locs) && !stage.Winding?
    requires forall p, f :: (p, f) in w.openFiles ==> p < |w.peers| && C.Closes(w.peers[p].uplink, f)
    ensures w.openFiles == map[]
  {
    hide PeerAt;
    forall key | key in w.openFiles.Keys ensures false {
      assert (key.0, key.1) in w.openFiles;
      UploadsOnlyWinding(w.peers[key.0], Entry(w.orch, key.0), Unsent(w.orch, key.0), locs[key.0], stage,
                         w.orch.currentCase, key.1);
    }
    assert w.openFiles.Keys == {};
  }

  lemma TakenPush(accepted: seq<Record>, r: Record, p: Name)
    ensures Taken(accepted + [r], p) ==
      if r.from == p then Taken(accepted, p) + [(r.origin, r.item)] else Taken(accepted, p)
  {
    assert (accepted + [r])[..|accepted|] == accepted;
  }

  lemma HeadFinishes(pe: C.Peer, known: Option<ClientState>, pending: seq<Down>, loc: Loc, stage: Stage, k: nat)
    requires PeerAt(pe, known, pending, loc, stage, k) && pe.uplink != []
    ensures pe.uplink[0].Upload? && pe.uplink[0].item.Piece? ==> C.Closes(pe.uplink, pe.uplink[0].item.chunk.fileName)
  {}

  lemma UploadTaken(plan: O.Plan, w: World, p: Name, order: seq<Name>, stage: Stage, locs: seq<Loc>)
    requires Located(plan, w, stage, locs) && Enabled(plan, w, DeliverUp(p, order)) && w.peers[p].uplink[0].Upload?
    requires StoreRight(w) && |w.peers| == plan.peers
    ensures var u, w' := w.peers[p].uplink[0], Apply(plan, w, DeliverUp(p, order));
      && u.origin == w.orch.currentCase && w'.peers == w.peers[p := Popped(w.peers[p])] && w'.orch == w.orch
      && w'.accepted == w.accepted + [Record(p, Some(u.origin), u.origin, u.item)]
      && w'.unwritten <= w.unwritten + {|w.accepted|}
      && w'.openFiles == match u.item
         case ResultFile(_) => w.openFiles
         case Piece(c) => if c.isFinal then w.openFiles - {(p, c.fileName)}
                          else w.openFiles[(p, c.fileName) := Some(u.origin)]
  {
    hide PeerAt, C.Closes, Rounds, O.Ordering;
    var loc' := UploadStep(plan, w, p, order, stage, locs);
    assert w.orch.resultPath == Some(w.orch.currentCase);
  }

  lemma UploadRecorded(plan: O.Plan, w: World, p: Name, order: seq<Name>, stage: Stage, locs: seq<Loc>)
    requires Recorded(plan, w) && Located(plan, w, stage, locs) && Enabled(plan, w, DeliverUp(p, order))
    requires w.peers[p].uplink[0].Upload?
    ensures Recorded(plan, Apply(plan, w, DeliverUp(p, order)))
  {
    hide PeerAt, HeardRight, Conserved, Heard, Taken, C.Closes, Rounds, O.Ordering, StageInv, StoreItem;
    var pe, u := w.peers[p], w.peers[p].uplink[0];
    var w' := Apply(plan, w, DeliverUp(p, order));
    HeadFinishes(pe, Entry(w.orch, p), Unsent(w.orch, p), locs[p], stage, w.orch.currentCase);
    UploadingPop(pe, Taken(w.accepted, p));
    UploadTaken(plan, w, p, order, stage, locs);
    SameHeard(pe);
    hide Apply, Enabled;
    forall q | 0 <= q < plan.peers
      ensures HeardRight(Heard(w'.peers[q]), w'.peers[q].registered, Unsent(w'.orch, q), w'.orch.issued)
      ensures Conserved(w'.peers[q].uplink, w'.peers[q].sent, Taken(w'.accepted, q))
    {
      TakenPush(w.accepted, Record(p, Some(u.origin), u.origin, u.item), q);
    }
  }

  lemma SameHeard(pe: C.Peer)
    requires pe.uplink != []
    ensures Heard(Popped(pe)) == Heard(pe)
  {}

  lemma SignalRecorded(plan: O.Plan, w: World, p: Name, order: seq<Name>, stage: Stage, locs: seq<Loc>)
    requires Recorded(plan, w) && Located(plan, w, stage, locs) && Enabled(plan, w, DeliverUp(p, order))
    requires w.peers[p].uplink[0].PeerSignal?
    ensures Recorded(plan, Apply(plan, w, DeliverUp(p, order)))
  {
    hide PeerAt, HeardRight, Conserved, Heard, Taken;
    var s := w.peers[p].uplink[0].signal;
    var w' := Apply(plan, w, DeliverUp(p, order));
    SignalStep(plan, w, p, order, stage, locs);
    UploadingPop(w.peers[p], Taken(w.accepted, p));
    SameHeard(w.peers[p]);
    forall q | 0 <= q < plan.peers
      ensures HeardRight(Heard(w'.peers[q]), w'.peers[q].registered, Unsent(w'.orch, q), w'.orch.issued)
    {
      if q != p {
        HeardCase(w.peers[q], Entry(w.orch, q), Unsent(w.orch, q), locs[q], stage, w.orch.currentCase);
        HeardSignal(w.peers[q], Unsent(w.orch, q), s, w.orch.issued);
      }
    }
  }

  lemma HeardCase(pe: C.Peer, known: Option<ClientState>, pending: seq<Down>, loc: Loc, stage: Stage, k: nat)
    requires PeerAt(pe, known, pending, loc, stage, k) && (stage.Trial? || stage.Winding?)
    ensures CaseAfter(Heard(pe)) == Some(k)
  {}

  lemma HeardSignal(pe: C.Peer, pending: seq<Down>, s: Signal, issued: seq<Down>)
    requires HeardRight(Heard(pe), pe.registered, pending, issued) && CaseAfter(Heard(pe)) == Some(s.run)
    ensures HeardRight(Heard(pe.(downlink := pe.downlink + [Forwarded(s)])), pe.registered, pending, issued)
  {
    hide CaseAfter, SolidDown, InOwnCase;
    HeardPush(pe, Forwarded(s));
    assert SolidDown(Heard(pe)) + [] == SolidDown(Heard(pe));
  }

  lemma HeardWelcome(pe: C.Peer)
    requires HeardRight(Heard(pe), false, [], [])
    ensures HeardRight(Heard(pe.(downlink := pe.downlink + [RegisterOk])), true, [], [])
  {
    HeardPush(pe, RegisterOk);
    assert SolidDown(Heard(pe)) == SolidDown(Heard(pe)) + [] == [];
  }

  lemma RegisterRecorded(plan: O.Plan, w: World, p: Name, order: seq<Name>, stage: Stage, locs: seq<Loc>)
    requires Recorded(plan, w) && Located(plan, w, stage, locs) && Enabled(plan, w, DeliverUp(p, order))
    requires w.peers[p].uplink[0].Register?
    ensures Recorded(plan, Apply(plan, w, DeliverUp(p, order)))
  {
    hide PeerAt, Conserved, Taken, HeardRight, Heard;
    var pe := w.peers[p];
    var w' := Apply(plan, w, DeliverUp(p, order));
    RegisterStage(pe, Entry(w.orch, p), Unsent(w.orch, p), locs[p], stage, w.orch.currentCase);
    UpRegisterLocal(pe, Entry(w.orch, p), locs[p], stage, w.orch.currentCase);
    Unregistered(pe, Entry(w.orch, p), locs[p], stage, w.orch.currentCase);
    UploadingPop(pe, Taken(w.accepted, p));
    HeardWelcome(pe);
    WelcomeFrame(pe);
  }

  lemma WelcomeFrame(pe: C.Peer)
    requires pe.uplink != []
    ensures Heard(Popped(pe).(registered := true, downlink := pe.downlink + [RegisterOk]))
         == Heard(pe.(downlink := pe.downlink + [RegisterOk]))
  {}

  lemma Unregistered(pe: C.Peer, known: Option<ClientState>, loc: Loc, stage: Stage, k: nat)
    requires PeerAt(pe, known, [], loc, stage, k) && loc == Dialed
    ensures pe.connected && !pe.registered
  {}

  // Commands issued to everybody.

  lemma HeardIssue(heard: seq<Down>, registered: bool, m: Down, issued: seq<Down>)
    requires HeardRight(heard, registered, [], issued)
    ensures HeardRight(heard, registered, [m], issued + [m])
  {
    var g := if registered then [RegisterOk] else [];
    assert SolidDown(heard) + [] == SolidDown(heard);
    assert (g + issued) + [m] == g + (issued + [m]);
  }

  lemma IssueRecorded(plan: O.Plan, w: World, o': O.State, order: seq<Name>, m: Down, t: O.Then)
    requires Recorded(plan, w) && (w.orch.activity.Free? || w.orch.activity.Draining?)
    requires O.Ordering(order, O.Roster(plan)) && o'.activity == O.Sending(O.ToAll(order, m), t)
    requires o'.issued == w.orch.issued + [m]
    requires o'.currentCase == w.orch.currentCase || w.openFiles == map[]
    ensures Recorded(plan, w.(orch := o'))
  {
    hide HeardRight, Conserved, Heard, Taken;
    Issued(plan, o', order, m, t);
    forall q | 0 <= q < plan.peers
      ensures HeardRight(Heard(w.peers[q]), w.peers[q].registered, Unsent(o', q), o'.issued)
    {
      HeardIssue(Heard(w.peers[q]), w.peers[q].registered, m, w.orch.issued);
    }
  }

  lemma ReportRecorded(plan: O.Plan, w: World, p: Name, order: seq<Name>, stage: Stage, locs: seq<Loc>)
    requires Recorded(plan, w) && Located(plan, w, stage, locs) && Enabled(plan, w, DeliverUp(p, order))
    requires w.peers[p].uplink[0].StateUpdate?
    ensures Recorded(plan, Apply(plan, w, DeliverUp(p, order)))
  {
    hide PeerAt, HeardRight, Conserved, Heard, Taken, O.AllIn, O.ToAll, O.Ordering;
    hide AfterReport, AllCalm, Advance, Someone, Rounds, Script, C.Closes;
    var pe, o := w.peers[p], w.orch;
    var mid := Put(w, p, Popped(pe));
    var w' := Apply(plan, w, DeliverUp(p, order));
    UpStateKnown(pe, Entry(o, p), Unsent(o, p), locs[p], stage, o.currentCase);
    UploadingPop(pe, Taken(w.accepted, p));
    SameHeard(pe);
    assert Recorded(plan, mid);
    var stage', locs' := ReportStep(plan, w, p, order, stage, locs);
    assert w' == mid.(orch := w'.orch);
    if w'.orch.activity.Sending? {
      var m := w'.orch.issued[|o.issued|];
      if w'.orch.currentCase != o.currentCase {
        NoOpenFiles(plan, w', stage', locs');
      }
      IssueRecorded(plan, mid, w'.orch, order, m, w'.orch.activity.andThen);
    }
  }

  lemma UpRecorded(plan: O.Plan, w: World, p: Name, order: seq<Name>, stage: Stage, locs: seq<Loc>)
    requires Recorded(plan, w) && Located(plan, w, stage, locs) && Enabled(plan, w, DeliverUp(p, order))
    ensures Recorded(plan, Apply(plan, w, DeliverUp(p, order)))
  {
    match w.peers[p].uplink[0] {
      case Register => RegisterRecorded(plan, w, p, order, stage, locs);
      case StateUpdate(_) => ReportRecorded(plan, w, p, order, stage, locs);
      case PeerSignal(_) => SignalRecorded(plan, w, p, order, stage, locs);
      case Upload(_, _) => UploadRecorded(plan, w, p, order, stage, locs);
    }
  }

  lemma OrchRecorded(plan: O.Plan, w: World, e: Event, stage: Stage, locs: seq<Loc>)
    requires Recorded(plan, w) && Located(plan, w, stage, locs) && Enabled(plan, w, e)
    requires e.FinishSending? || e.FireTimer? || e.WriteDone? || e.BeginShutdown?
    ensures Recorded(plan, Apply(plan, w, e))
  {
    hide PeerAt, HeardRight, Conserved, Heard, Taken;
    var w' := Apply(plan, w, e);
    match e {
      case FinishSending => assert forall q :: Unsent(w'.orch, q) == Unsent(w.orch, q);
      case FireTimer(order) => IssueRecorded(plan, w, w'.orch, order, Stop, O.Return);
      case WriteDone(_) =>
      case BeginShutdown(order) =>
        KnownKeys(plan, w, stage, locs);
        IssueRecorded(plan, w, w'.orch, order, Shutdown, O.EndRun);
    }
  }
}
