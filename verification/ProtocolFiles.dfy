/** Large files in the closed system: every run of it drives the server's chunk handler. */
module ProtocolFiles {
  import opened Wire
  import opened Queues
  import opened Protocol
  import opened ProtocolInvariant
  import opened ProtocolSafety
  import opened ProtocolHistory
  import opened ProtocolSignals
  import opened ProtocolTheorems
  import P = ProtocolProgress
  import O = Orchestrator
  import C = ManagementClient
  import S = ChunkServer
  import T = ChunkTheorems
  import F = FileDelivery

  // The server's files along a run.

  predicate ChunkArrives(w: World, e: Event) {
    && e.DeliverUp? && e.p < |w.peers| && w.peers[e.p].uplink != []
    && w.peers[e.p].uplink[0].Upload? && w.peers[e.p].uplink[0].item.Piece?
  }

  /** The handler works at the current result path, for the name the connection has. */
  function Handled(nm: F.Naming, w: World, e: Event, s: S.Store): (S.Store, S.Outcome)
    requires ChunkArrives(w, e)
  {
    var here := if w.orch.resultPath.Some? then s.(resultPath := nm.dir(w.orch.resultPath.value)) else s;
    var client := if w.peers[e.p].registered then Some(nm.name(e.p)) else None;
    S.Handle(here, client, w.peers[e.p].uplink[0].item.chunk)
  }

  ghost function FilesAfter(plan: O.Plan, nm: F.Naming, w: World, es: seq<Event>, s: S.Store): S.Store
    requires Runs(plan, w, es)
    decreases |es|
  {
    if es == [] then s
    else FilesAfter(plan, nm, Apply(plan, w, es[0]), es[1..],
      if ChunkArrives(w, es[0]) then Handled(nm, w, es[0], s).0 else s)
  }

  ghost predicate NoneRefused(plan: O.Plan, nm: F.Naming, w: World, es: seq<Event>, s: S.Store)
    requires Runs(plan, w, es)
    decreases |es|
  {
    es == [] || (
      && (ChunkArrives(w, es[0]) ==> Handled(nm, w, es[0], s).1 == S.Nil)
      && NoneRefused(plan, nm, Apply(plan, w, es[0]), es[1..],
                     if ChunkArrives(w, es[0]) then Handled(nm, w, es[0], s).0 else s))
  }

  // The chunks among the uploads.

  function Deliveries(accepted: seq<Record>): seq<F.Delivery> {
    if accepted == [] then []
    else
      var r := accepted[|accepted| - 1];
      Deliveries(accepted[..|accepted| - 1])
      + if r.item.Piece? then [F.Delivery(r.from, r.origin, r.item.chunk)] else []
  }

  function Chunked(ts: seq<Tagged>): seq<F.Tagged> {
    if ts == [] then []
    else
      var t := ts[|ts| - 1];
      Chunked(ts[..|ts| - 1]) + if t.1.Piece? then [(t.0, t.1.chunk)] else []
  }

  lemma ChunkedPush(ts: seq<Tagged>, t: Tagged)
    ensures Chunked(ts + [t]) == if t.1.Piece? then Chunked(ts) + [(t.0, t.1.chunk)] else Chunked(ts)
  {
    assert (ts + [t])[..|ts|] == ts;
  }

  lemma {:induction false} ChunkedPrefix(a: seq<Tagged>, b: seq<Tagged>)
    ensures Chunked(a) <= Chunked(a + b)
    decreases |b|
  {
    if b == [] {
      assert a + b == a;
    } else {
      var init, last := b[..|b| - 1], b[|b| - 1];
      ChunkedPrefix(a, init);
      ChunkedPush(a + init, last);
      assert a + b == (a + init) + [last];
      hide Chunked;
    }
  }

  lemma {:induction false} ChunksOf(accepted: seq<Record>, p: Name)
    ensures F.From(Deliveries(accepted), p) == Chunked(Taken(accepted, p))
  {
    if accepted != [] {
      var init, r := accepted[..|accepted| - 1], accepted[|accepted| - 1];
      ChunksOf(init, p);
      if r.item.Piece? {
        F.FromPush(Deliveries(init), F.Delivery(r.from, r.origin, r.item.chunk), p);
      } else {
        assert Deliveries(accepted) == Deliveries(init);
      }
      if r.from == p {
        ChunkedPush(Taken(init, p), (r.origin, r.item));
      } else {
        assert Taken(accepted, p) == Taken(init, p);
      }
      hide F.From, Chunked, Taken, Deliveries;
    }
  }

  lemma DeliveriesPush(accepted: seq<Record>, r: Record)
    ensures Deliveries(accepted + [r])
      == if r.item.Piece? then Deliveries(accepted) + [F.Delivery(r.from, r.origin, r.item.chunk)]
         else Deliveries(accepted)
  {
    assert (accepted + [r])[..|accepted|] == accepted;
  }

  // One step.

  lemma NothingAccepted(plan: O.Plan, w: World, e: Event)
    requires Enabled(plan, w, e) && !(e.DeliverUp? && w.peers[e.p].uplink[0].Upload?)
    ensures Apply(plan, w, e).accepted == w.accepted
  {
    hide O.Listener, O.StopTest, O.ShutdownAll, C.React, C.AssignCase, C.FinishConfigure, C.EmitSignal, C.ReportTesting;
  }

  lemma UploadAccepted(plan: O.Plan, w: World, e: Event, stage: Stage, locs: seq<Loc>)
    requires Located(plan, w, stage, locs) && Enabled(plan, w, e) && e.DeliverUp? && w.peers[e.p].uplink[0].Upload?
    ensures var u := w.peers[e.p].uplink[0];
      && w.peers[e.p].registered && w.orch.resultPath == Some(u.origin)
      && exists path :: Apply(plan, w, e).accepted == w.accepted + [Record(e.p, path, u.origin, u.item)]
  {
    hide PeerAt, O.Listener;
    var loc' := UploadStep(plan, w, e.p, e.order, stage, locs);
    var r := Apply(plan, w, e).accepted[|w.accepted|];
    assert Apply(plan, w, e).accepted == w.accepted +
      [Record(e.p, r.path, w.peers[e.p].uplink[0].origin, w.peers[e.p].uplink[0].item)];
  }

  /** A chunk that arrives is handled as the delivery it is. */
  lemma StepServes(plan: O.Plan, nm: F.Naming, w: World, e: Event, stage: Stage, locs: seq<Loc>, s0: S.Store)
    requires Located(plan, w, stage, locs) && Enabled(plan, w, e)
    ensures var xs, xs' := Deliveries(w.accepted), Deliveries(Apply(plan, w, e).accepted);
      var s := F.ServeAll(nm, s0, xs);
      if ChunkArrives(w, e) then
        && |xs'| == |xs| + 1 && xs'[..|xs|] == xs
        && Handled(nm, w, e, s) == (F.ServeAll(nm, s0, xs'), F.AnswerTo(nm, s0, xs', |xs|))
      else xs' == xs
  {
    hide Located, Deliveries, F.ServeAll, T.Answer, S.Handle, Apply;
    if e.DeliverUp? && w.peers[e.p].uplink[0].Upload? {
      UploadAccepted(plan, w, e, stage, locs);
      var u := w.peers[e.p].uplink[0];
      var path :| Apply(plan, w, e).accepted == w.accepted + [Record(e.p, path, u.origin, u.item)];
      DeliveriesPush(w.accepted, Record(e.p, path, u.origin, u.item));
      if u.item.Piece? {
        var xs, x := Deliveries(w.accepted), F.Delivery(e.p, u.origin, u.item.chunk);
        F.AnswersPush(nm, s0, xs, x);
        HandledAs(nm, w, e, F.ServeAll(nm, s0, xs), x);
      }
    } else {
      NothingAccepted(plan, w, e);
    }
  }

  lemma HandledAs(nm: F.Naming, w: World, e: Event, s: S.Store, x: F.Delivery)
    requires ChunkArrives(w, e) && w.peers[e.p].registered
    requires var u := w.peers[e.p].uplink[0];
      w.orch.resultPath == Some(u.origin) && x == F.Delivery(e.p, u.origin, u.item.chunk)
    ensures Handled(nm, w, e, s) == (F.Serve(nm, s, x), T.Answer(F.At(nm, s, x.origin), F.MsgOf(nm, x)))
  {}

  // Runs.

  ghost predicate AllAnswered(nm: F.Naming, s0: S.Store, xs: seq<F.Delivery>) {
    forall n :: 0 <= n < |xs| ==> F.AnswerTo(nm, s0, xs, n) == S.Nil
  }

  lemma AnsweredBefore(nm: F.Naming, s0: S.Store, xs: seq<F.Delivery>, ys: seq<F.Delivery>, n: nat)
    requires ys <= xs && n < |ys| && AllAnswered(nm, s0, xs)
    ensures F.AnswerTo(nm, s0, ys, n) == S.Nil
  {
    assert ys[..n] == xs[..n] && ys[n] == xs[n];
    assert F.AnswerTo(nm, s0, xs, n) == S.Nil;
  }

  /** Along a run the server's files are those of the deliveries in the accepted uploads, and none is
      refused if none of these would be. */
  lemma {:induction false} RunServes(plan: O.Plan, nm: F.Naming, w: World, es: seq<Event>, stage: Stage, locs: seq<Loc>,
                                     s0: S.Store)
    requires Holds(plan, w, stage, locs) && Runs(plan, w, es)
    ensures var xs, xs' := Deliveries(w.accepted), Deliveries(After(plan, w, es).accepted);
      var s := F.ServeAll(nm, s0, xs);
      && xs <= xs' && FilesAfter(plan, nm, w, es, s) == F.ServeAll(nm, s0, xs')
      && (AllAnswered(nm, s0, xs') ==> NoneRefused(plan, nm, w, es, s))
    decreases |es|
  {
    if es != [] {
      hide Located, Recorded, Relayed, Deliveries, F.ServeAll, F.AnswerTo, Apply, Enabled, Handled, AllAnswered;
      var w1 := Apply(plan, w, es[0]);
      var stage', locs' := StepHolds(plan, w, es[0], stage, locs);
      StepServes(plan, nm, w, es[0], stage, locs, s0);
      RunServes(plan, nm, w1, es[1..], stage', locs', s0);
      var xs, xs1 := Deliveries(w.accepted), Deliveries(w1.accepted);
      var xs' := Deliveries(After(plan, w1, es[1..]).accepted);
      if AllAnswered(nm, s0, xs') && ChunkArrives(w, es[0]) {
        AnsweredBefore(nm, s0, xs', xs1, |xs|);
      }
    }
  }

  /** The files that the peers leave in their cases; every upload besides is one of their chunks. */
  ghost predicate LeaveFiles(w: World, slots: seq<seq<F.Slot>>, size: nat)
    requires size > 0
  {
    |slots| == |w.peers| && forall p :: 0 <= p < |slots| ==>
      Chunked(Flatten(w.peers[p].sent)) == F.Stream(slots[p], size, 0)
  }

  lemma InStream(sent: seq<C.Batch>, us: seq<Up>, taken: seq<Tagged>, stream: seq<F.Tagged>)
    requires Conserved(us, sent, taken) && Chunked(Flatten(sent)) == stream
    ensures Chunked(taken) <= stream
  {
    ChunkedPrefix(taken, Uploading(us));
  }

  lemma {:induction false} SendersKnown(accepted: seq<Record>, n: nat)
    requires forall i :: 0 <= i < |accepted| ==> accepted[i].from < n
    ensures forall i :: 0 <= i < |Deliveries(accepted)| ==> Deliveries(accepted)[i].from < n
  {
    if accepted != [] {
      SendersKnown(accepted[..|accepted| - 1], n);
    }
  }

  ghost predicate Senders(w: World, n: nat) {
    |w.peers| == n && forall i :: 0 <= i < |w.accepted| ==> w.accepted[i].from < n
  }

  lemma SendersStep(plan: O.Plan, w: World, e: Event, n: nat)
    requires Enabled(plan, w, e) && Senders(w, n)
    ensures Senders(Apply(plan, w, e), n)
  {
    hide O.Listener, O.StopTest, O.ShutdownAll, C.React, C.AssignCase, C.FinishConfigure, C.EmitSignal, C.ReportTesting;
  }

  lemma {:induction false} SendersKept(plan: O.Plan, w: World, es: seq<Event>)
    requires Runs(plan, w, es) && Senders(w, plan.peers)
    ensures Senders(After(plan, w, es), plan.peers)
    decreases |es|
  {
    hide Enabled, Apply, Senders;
    if es != [] {
      SendersStep(plan, w, es[0], plan.peers);
      SendersKept(plan, Apply(plan, w, es[0]), es[1..]);
    }
  }

  /** If the large files that peers leave do not share a path, nor two peers a chunk key: in every run
      of the system no chunk is refused; and when it ends, every file that is not empty is stored under
      the result path of its case as the peer left it. */
  lemma FilesRestored(plan: O.Plan, nm: F.Naming, es: seq<Event>, slots: seq<seq<F.Slot>>, size: nat, s0: S.Store)
    requires plan.cases > 0 && Runs(plan, Initial(plan), es)
    requires size > 0 && s0.open == map[] && F.Apart(nm, slots)
    requires LeaveFiles(After(plan, Initial(plan), es), slots, size)
    ensures NoneRefused(plan, nm, Initial(plan), es, s0)
    ensures plan.peers > 0 && (forall e :: !Enabled(plan, After(plan, Initial(plan), es), e)) ==>
      forall p :: 0 <= p < |slots| ==> F.Stored(nm, slots[p], FilesAfter(plan, nm, Initial(plan), es, s0).disk)
  {
    var w := After(plan, Initial(plan), es);
    InitiallyHolds(plan);
    RunServes(plan, nm, Initial(plan), es, Gather, AllAt(plan.peers, Offline), s0);
    assert F.ServeAll(nm, s0, Deliveries([])) == s0;
    hide NoneRefused, FilesAfter, Enabled, F.Apart, F.Stored;
    Reached(plan, es);
    SendersKept(plan, Initial(plan), es);
    AllInStream(plan, w, slots, size);
    F.FilesDelivered(nm, slots, size, s0, Deliveries(w.accepted));
    if plan.peers > 0 && forall e :: !Enabled(plan, w, e) {
      P.StuckIsDone(plan, w);
      forall p | 0 <= p < |slots| ensures F.Stored(nm, slots[p], FilesAfter(plan, nm, Initial(plan), es, s0).disk) {
        ChunksOf(w.accepted, p);
      }
    }
  }

  /** The same in terms of names: each file is in the directory of its case, under its own name. */
  lemma FilesFiled(plan: O.Plan, nm: F.Naming, es: seq<Event>, slots: seq<seq<F.Slot>>, size: nat, s0: S.Store)
    requires plan.cases > 0 && Runs(plan, Initial(plan), es)
    requires size > 0 && s0.open == map[] && F.NamesApart(nm, slots)
    requires LeaveFiles(After(plan, Initial(plan), es), slots, size)
    ensures NoneRefused(plan, nm, Initial(plan), es, s0)
    ensures plan.peers > 0 && (forall e :: !Enabled(plan, After(plan, Initial(plan), es), e)) ==>
      forall p :: 0 <= p < |slots| ==> F.Filed(nm, slots[p], FilesAfter(plan, nm, Initial(plan), es, s0).disk)
  {
    F.ApartByName(nm, slots);
    assert forall p, j :: 0 <= p < |slots| && 0 <= j < |slots[p]| ==> '/' !in slots[p][j].name;
    hide F.Apart, F.NamesApart, F.Stored, F.Filed, FilesAfter, NoneRefused, Enabled, LeaveFiles;
    FilesRestored(plan, nm, es, slots, size, s0);
    if plan.peers > 0 && forall e :: !Enabled(plan, After(plan, Initial(plan), es), e) {
      forall p | 0 <= p < |slots| ensures F.Filed(nm, slots[p], FilesAfter(plan, nm, Initial(plan), es, s0).disk) {
        F.StoredIsFiled(nm, slots[p], FilesAfter(plan, nm, Initial(plan), es, s0).disk);
      }
    }
  }

  lemma Reached(plan: O.Plan, es: seq<Event>)
    requires Runs(plan, Initial(plan), es)
    ensures Reachable(plan, After(plan, Initial(plan), es))
  {}

  lemma AllInStream(plan: O.Plan, w: World, slots: seq<seq<F.Slot>>, size: nat)
    requires plan.cases > 0 && Reachable(plan, w) && size > 0 && LeaveFiles(w, slots, size)
    requires forall i :: 0 <= i < |w.accepted| ==> w.accepted[i].from < plan.peers
    ensures |w.peers| == plan.peers && F.Sends(slots, size, Deliveries(w.accepted))
  {
    hide Located, Relayed, Chunked, F.Stream, Deliveries;
    ReachableInv(plan, w);
    var stage, locs :| Holds(plan, w, stage, locs);
    SendersKnown(w.accepted, plan.peers);
    forall p | 0 <= p < |slots| ensures F.From(Deliveries(w.accepted), p) <= F.Stream(slots[p], size, 0) {
      ChunksOf(w.accepted, p);
      InStream(w.peers[p].sent, w.peers[p].uplink, Taken(w.accepted, p), F.Stream(slots[p], size, 0));
    }
  }
}
