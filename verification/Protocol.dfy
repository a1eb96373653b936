/** The closed system: the orchestrator, the server and all peers, joined by FIFO links. */
module Protocol {
  import opened Wire
  import O = Orchestrator
  import C = ManagementClient

  /** An accepted upload with the result path it is stored under. */
  datatype Record = Record(from: Name, path: Option<nat>, origin: nat, item: Item)

  /** `openFiles` is fileChunks with the path of each open file, `accepted` every upload the server
      took, `unwritten` the positions whose writer goroutine has not finished. */
  datatype World = World(
    orch: O.State,
    peers: seq<C.Peer>,
    openFiles: map<(Name, string), Option<nat>>,
    accepted: seq<Record>,
    unwritten: set<nat>)

  /** The steps; everything left open by the system is an argument of its step. */
  datatype Event =
    | Connect(p: Name)
    | DeliverUp(p: Name, order: seq<Name>)
    | DeliverDown(p: Name, items: seq<Item>, budget: nat)
    | AssignCase(p: Name, i: nat)
    | FinishConfigure(p: Name, i: nat)
    | ReportTesting(p: Name)
    | SendSignal(p: Name, data: Bytes)
    | SendNext
    | FinishSending
    | FireTimer(order: seq<Name>)
    | WriteDone(i: nat)
    | BeginShutdown(order: seq<Name>)

  function Initial(plan: O.Plan): World {
    World(O.Boot, seq(plan.peers, _ => C.Fresh), map[], [], {})
  }

  ghost predicate Enabled(plan: O.Plan, w: World, e: Event) {
    && !w.orch.activity.Crashed?
    && match e
       case Connect(p) => p < |w.peers| && !w.peers[p].connected && !w.orch.activity.Ended?
       case DeliverUp(p, order) =>
         && p < |w.peers| && w.peers[p].uplink != [] && !w.orch.activity.Ended?
         && O.Ordering(order, O.Roster(plan))
         && (w.peers[p].uplink[0].StateUpdate? && w.peers[p].registered ==> w.orch.activity.Free?)
       case DeliverDown(p, items, budget) => p < |w.peers| && C.Receptive(w.peers[p]) && C.Uploadable(items)
       case AssignCase(p, i) => p < |w.peers| && !w.peers[p].exited && i < |w.peers[p].jobs| &&
         !w.peers[p].jobs[i].installed
       case FinishConfigure(p, i) => p < |w.peers| && !w.peers[p].exited && i < |w.peers[p].jobs| &&
         w.peers[p].jobs[i].installed
       case ReportTesting(p) => p < |w.peers| && !w.peers[p].exited && w.peers[p].starting
       case SendSignal(p, data) =>
         p < |w.peers| && !w.peers[p].exited && w.peers[p].executing && w.peers[p].currentCase.Some? &&
           w.peers[p].budget > 0
       case SendNext => w.orch.activity.Sending? && w.orch.activity.todo != []
       case FinishSending => w.orch.activity.Sending? && w.orch.activity.todo == []
       case FireTimer(order) => w.orch.activity.Free? && w.orch.timers > 0 && O.Ordering(order, O.Roster(plan))
       case WriteDone(i) => i in w.unwritten
       case BeginShutdown(order) =>
         w.orch.activity.Draining? && w.unwritten == {} && O.Ordering(order, w.orch.connectedClients.Keys)
  }

  function Put(w: World, p: Name, q: C.Peer): World
    requires p < |w.peers|
  {
    w.(peers := w.peers[p := q])
  }

  /** A signal goes to every connected peer but its sender. */
  function Broadcast(peers: seq<C.Peer>, from: Name, s: Signal): (r: seq<C.Peer>)
    ensures |r| == |peers|
  {
    seq(|peers|, q requires 0 <= q < |peers| =>
      if q != from && peers[q].connected then peers[q].(downlink := peers[q].downlink + [Forwarded(s)]) else peers[q])
  }

  /** The result path of a chunk: the one its file was created under. */
  function ChunkPath(w: World, p: Name, c: FileChunk): Option<nat> {
    if (p, c.fileName) in w.openFiles then w.openFiles[(p, c.fileName)] else w.orch.resultPath
  }

  function StoreItem(w: World, p: Name, origin: nat, item: Item): World {
    match item
    case ResultFile(_) =>
      w.(accepted := w.accepted + [Record(p, w.orch.resultPath, origin, item)],
         unwritten := w.unwritten + {|w.accepted|})
    case Piece(c) =>
      w.(accepted := w.accepted + [Record(p, ChunkPath(w, p, c), origin, item)],
         openFiles := if c.isFinal then w.openFiles - {(p, c.fileName)}
                      else w.openFiles[(p, c.fileName) := ChunkPath(w, p, c)])
  }

  ghost function HandleUp(plan: O.Plan, w: World, p: Name, m: Up, order: seq<Name>): World
    requires p < |w.peers|
  {
    match m
    case Register =>
      Put(w, p, w.peers[p].(registered := true, downlink := w.peers[p].downlink + [RegisterOk]))
    case StateUpdate(st) =>
      if w.peers[p].registered then w.(orch := O.Listener(plan, w.orch, p, st, order)) else w
    case PeerSignal(s) => w.(peers := Broadcast(w.peers, p, s))
    case Upload(origin, item) =>
      if w.peers[p].registered then StoreItem(w, p, origin, item)
      else w.(orch := w.orch.(activity := O.Crashed))
  }

  /** One SendMessage: an unknown client is fatal, except for the final Shutdown. */
  function SendOne(w: World): World
    requires w.orch.activity.Sending? && w.orch.activity.todo != []
  {
    var a := w.orch.activity;
    var p, m := a.todo[0].to, a.todo[0].message;
    var rest := w.(orch := w.orch.(activity := a.(todo := a.todo[1..])));
    if p < |w.peers| && w.peers[p].registered then
      Put(rest, p, w.peers[p].(downlink := w.peers[p].downlink + [m]))
    else if m == Shutdown then rest
    else w.(orch := w.orch.(activity := O.Crashed))
  }

  ghost function Apply(plan: O.Plan, w: World, e: Event): World
    requires Enabled(plan, w, e)
  {
    match e
    case Connect(p) => Put(w, p, w.peers[p].(connected := true, uplink := [Register]))
    case DeliverUp(p, order) =>
      HandleUp(plan, Put(w, p, w.peers[p].(uplink := w.peers[p].uplink[1..])), p, w.peers[p].uplink[0], order)
    case DeliverDown(p, items, budget) => Put(w, p, C.React(w.peers[p], items, budget))
    case AssignCase(p, i) => Put(w, p, C.AssignCase(w.peers[p], i))
    case FinishConfigure(p, i) => Put(w, p, C.FinishConfigure(w.peers[p], i))
    case ReportTesting(p) => Put(w, p, C.ReportTesting(w.peers[p]))
    case SendSignal(p, data) => Put(w, p, C.EmitSignal(w.peers[p], p, data))
    case SendNext => SendOne(w)
    case FinishSending => w.(orch := O.Settle(w.orch, w.orch.activity.andThen))
    case FireTimer(order) => w.(orch := O.StopTest(plan, w.orch, order))
    case WriteDone(i) => w.(unwritten := w.unwritten - {i})
    case BeginShutdown(order) => w.(orch := O.ShutdownAll(w.orch, order))
  }

  /** A run, oldest event first. */
  ghost predicate Runs(plan: O.Plan, w: World, es: seq<Event>)
    decreases |es|
  {
    es == [] || (Enabled(plan, w, es[0]) && Runs(plan, Apply(plan, w, es[0]), es[1..]))
  }

  ghost function After(plan: O.Plan, w: World, es: seq<Event>): World
    requires Runs(plan, w, es)
    decreases |es|
  {
    if es == [] then w else After(plan, Apply(plan, w, es[0]), es[1..])
  }

  ghost predicate Reachable(plan: O.Plan, w: World) {
    exists es :: Runs(plan, Initial(plan), es) && After(plan, Initial(plan), es) == w
  }
}
