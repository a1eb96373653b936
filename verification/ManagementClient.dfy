/** A peer: its message loop, the goroutines it starts and both halves of its connection. */
module ManagementClient {
  import opened Wire

  /** A goroutine running configureCase; `installed` once it has set CurrentCase. */
  datatype Job = Job(caseNo: nat, installed: bool)

  /** What one handled Stop uploads. */
  datatype Batch = Batch(origin: nat, items: seq<Item>)

  /** `connected` and `registered` are the server's view of the connection. `starting` holds while
      the loop is inside the Start handler, `budget` bounds the signals the running executor will
      still emit. `log`, `sent` and `emitted` are histories. */
  datatype Peer = Peer(
    connected: bool,
    registered: bool,
    uplink: seq<Up>,
    downlink: seq<Down>,
    currentCase: Option<nat>,
    jobs: seq<Job>,
    starting: bool,
    executing: bool,
    budget: nat,
    exited: bool,
    log: seq<Down>,
    sent: seq<Batch>,
    emitted: seq<Signal>)

  const Fresh := Peer(false, false, [], [], None, [], false, false, 0, false, [], [], [])

  predicate FinalPiece(u: Up, fileName: string) {
    u.Upload? && u.item.Piece? && u.item.chunk.fileName == fileName && u.item.chunk.isFinal
  }

  predicate Closes(us: seq<Up>, fileName: string) {
    us != [] && (FinalPiece(us[0], fileName) || Closes(us[1..], fileName))
  }

  /** Every file of which a chunk is queued is also finished in the queue. */
  predicate Finishes(us: seq<Up>) {
    us == [] || (
      && (us[0].Upload? && us[0].item.Piece? ==> Closes(us, us[0].item.chunk.fileName))
      && Finishes(us[1..]))
  }

  /** A results message followed by the chunks of the large files, each sent to its end. */
  ghost predicate Uploadable(items: seq<Item>) {
    && items != [] && items[0].ResultFile?
    && (forall i :: 0 < i < |items| ==> items[i].Piece?)
    && Finishes(Uploads(0, items))
  }

  function Uploads(origin: nat, items: seq<Item>): (r: seq<Up>) {
    seq(|items|, i requires 0 <= i < |items| => Upload(origin, items[i]))
  }

  predicate Receptive(p: Peer) {
    p.downlink != [] && !p.starting && !p.exited
  }

  /** The reaction of the message loop to the next message. `items` is what the executor leaves
      behind when it is stopped, `budget` how many signals it emits once started. */
  function React(p: Peer, items: seq<Item>, budget: nat): Peer
    requires Receptive(p)
  {
    Handle(p.(downlink := p.downlink[1..], log := p.log + [p.downlink[0]]), p.downlink[0], items, budget)
  }

  function Handle(p: Peer, m: Down, items: seq<Item>, budget: nat): Peer {
    match m
    case RegisterOk => p.(uplink := p.uplink + [StateUpdate(Registered)])
    case Shutdown => p.(exited := true)
    case Configure(k) => p.(uplink := p.uplink + [StateUpdate(Configuring)], jobs := p.jobs + [Job(k, false)])
    case Start =>
      if p.currentCase.None? then p else p.(starting := true, executing := true, budget := budget)
    case Stop =>
      if p.currentCase.None? then p
      else
        var k := p.currentCase.value;
        p.(executing := false, budget := 0, sent := p.sent + [Batch(k, items)],
           uplink := p.uplink + [StateUpdate(TestEnding)] + Uploads(k, items) + [StateUpdate(Registered)])
    case Forwarded(_) => p
  }

  function AssignCase(p: Peer, i: nat): Peer
    requires i < |p.jobs|
  {
    p.(currentCase := Some(p.jobs[i].caseNo), jobs := p.jobs[i := p.jobs[i].(installed := true)])
  }

  function FinishConfigure(p: Peer, i: nat): Peer
    requires i < |p.jobs|
  {
    p.(jobs := p.jobs[..i] + p.jobs[i + 1..], uplink := p.uplink + [StateUpdate(TestReady)])
  }

  function ReportTesting(p: Peer): Peer {
    p.(starting := false, uplink := p.uplink + [StateUpdate(Testing)])
  }

  /** The running executor calls the sendSignal callback it was configured with. */
  function EmitSignal(p: Peer, me: Name, data: Bytes): Peer
    requires p.currentCase.Some? && p.budget > 0
  {
    var s := Signal(me, p.currentCase.value, data);
    p.(budget := p.budget - 1, uplink := p.uplink + [PeerSignal(s)], emitted := p.emitted + [s])
  }

  /** The fields the message loop of `Start` works on; `uplink` is SendChan with the socket behind it. */
  class Client {
    var uplink: seq<Up>
    var downlink: seq<Down>
    var currentCase: Option<nat>
    var jobs: seq<Job>
    var starting: bool
    var executing: bool
    var budget: nat
    var exited: bool
    var log: seq<Down>
    var sent: seq<Batch>
    var emitted: seq<Signal>

    ghost function View(connected: bool, registered: bool): Peer
      reads this
    {
      Peer(connected, registered, uplink, downlink, currentCase, jobs, starting, executing, budget, exited,
           log, sent, emitted)
    }

    method SendMessage(m: Up)
      modifies this`uplink
      ensures uplink == old(uplink) + [m]
    {
      uplink := uplink + [m];
    }

    method OnStop(items: seq<Item>)
      requires currentCase.Some?
      modifies this`uplink, this`sent, this`executing, this`budget
      ensures !executing && budget == 0 && sent == old(sent) + [Batch(currentCase.value, items)]
      ensures uplink
        == old(uplink) + [StateUpdate(TestEnding)] + Uploads(currentCase.value, items) + [StateUpdate(Registered)]
    {
      executing, budget := false, 0;
      SendMessage(StateUpdate(TestEnding));
      UploadAll(items);
      SendMessage(StateUpdate(Registered));
    }

    method OnMessage(items: seq<Item>, signals: nat)
      requires Receptive(View(true, true))
      modifies this
      ensures forall c, r :: View(c, r) == React(old(View(c, r)), items, signals)
    {
      hide Handle;
      var m := downlink[0];
      downlink, log := downlink[1..], log + [m];
      OnCommand(m, items, signals);
    }

    method OnCommand(m: Down, items: seq<Item>, signals: nat)
      modifies this
      ensures forall c, r :: View(c, r) == Handle(old(View(c, r)), m, items, signals)
    {
      hide Uploads;
      match m
      case RegisterOk => SendMessage(StateUpdate(Registered));
      case Shutdown => exited := true;
      case Configure(k) =>
        SendMessage(StateUpdate(Configuring));
        jobs := jobs + [Job(k, false)];
      case Start =>
        if currentCase.Some? {
          starting, executing, budget := true, true, signals;
        }
      case Stop =>
        if currentCase.Some? {
          OnStop(items);
        }
      case Forwarded(_) =>
    }

    /** The sendSignal callback that the executor was configured with. */
    method SendSignal(me: Name, data: Bytes)
      requires currentCase.Some? && budget > 0
      modifies this`uplink, this`budget, this`emitted
      ensures forall c, r :: View(c, r) == EmitSignal(old(View(c, r)), me, data)
    {
      var s := Signal(me, currentCase.value, data);
      budget, emitted := budget - 1, emitted + [s];
      SendMessage(PeerSignal(s));
    }

    method UploadAll(items: seq<Item>)
      requires currentCase.Some?
      modifies this`uplink, this`sent
      ensures uplink == old(uplink) + Uploads(currentCase.value, items)
      ensures sent == old(sent) + [Batch(currentCase.value, items)]
    {
      sent := sent + [Batch(currentCase.value, items)];
      var i := 0;
      while i < |items|
        invariant 0 <= i <= |items|
        invariant uplink == old(uplink) + Uploads(currentCase.value, items)[..i]
        invariant sent == old(sent) + [Batch(currentCase.value, items)]
      {
        SendMessage(Upload(currentCase.value, items[i]));
        i := i + 1;
      }
    }
  }
}
