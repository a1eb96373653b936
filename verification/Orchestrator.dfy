/** The orchestrator: the client-state listener, the stop timer and the final shutdown. */
module Orchestrator {
  import opened Wire

  datatype RunState = BeforeTest | DuringTest | AfterTest

  /** One SendMessage call the orchestrator still has to make. */
  datatype Send = Send(to: Name, message: Down)

  datatype Then = Return | ArmTimer | EndRun

  /** What the holder of the client-state lock is doing: the sends of one listener or timer
      call are separate steps, and the lock is held until the last of them is made. */
  datatype Activity =
    | Free
    | Sending(todo: seq<Send>, andThen: Then)
    | Draining   // inside SetShuttingDown, waiting for the result writers
    | Ended
    | Crashed    // log.Fatal, or a panic: that costs only the connection, but the run never goes on

  /** Every peer takes part in every case. */
  datatype Plan = Plan(peers: nat, cases: nat)

  /** `resultPath` is the path handed to SetCurrentResultPath, named by its case;
      `issued` is a history of the commands issued to all peers. */
  datatype State = State(
    connectedClients: map<Name, ClientState>,
    runState: RunState,
    currentCase: nat,
    timers: nat,
    resultPath: Option<nat>,
    activity: Activity,
    issued: seq<Down>)

  const Boot := State(map[], BeforeTest, 0, 0, None, Free, [])

  function NamesBelow(n: nat): (r: set<Name>)
    ensures forall p: nat :: p in r <==> p < n
  {
    if n == 0 then {} else NamesBelow(n - 1) + {n - 1}
  }

  /** The keys of PeerConfigs, the same for every case. */
  function Roster(plan: Plan): set<Name> {
    NamesBelow(plan.peers)
  }

  ghost predicate AllIn(states: map<Name, ClientState>, names: set<Name>, required: ClientState) {
    forall p :: p in names ==> p in states && states[p] == required
  }

  /** An iteration order over a map with these keys. */
  ghost predicate Ordering(order: seq<Name>, names: set<Name>) {
    && (forall p :: p in order <==> p in names)
    && (forall i, j :: 0 <= i < j < |order| ==> order[i] != order[j])
  }

  function ToAll(order: seq<Name>, m: Down): (r: seq<Send>) {
    seq(|order|, i requires 0 <= i < |order| => Send(order[i], m))
  }

  /** The listener, up to its sends. `order` is the iteration order over the peer map. */
  ghost function Listener(plan: Plan, o: State, name: Name, st: ClientState, order: seq<Name>): State {
    var seen := o.connectedClients[name := st];
    if o.runState != DuringTest && o.currentCase >= plan.cases then
      o.(connectedClients := seen, activity := Crashed)
    else if o.runState != DuringTest && AllIn(seen, Roster(plan), Registered) then
      if o.runState == AfterTest && o.currentCase == plan.cases - 1 then
        o.(connectedClients := seen, activity := Draining)
      else
        var k := if o.runState == AfterTest then o.currentCase + 1 else o.currentCase;
        State(seen, BeforeTest, k, o.timers, Some(k), Sending(ToAll(order, Configure(k)), Return),
              o.issued + [Configure(k)])
    else if o.runState == BeforeTest && AllIn(seen, Roster(plan), TestReady) then
      o.(connectedClients := seen, runState := DuringTest,
         activity := Sending(ToAll(order, Start), ArmTimer), issued := o.issued + [Start])
    else
      o.(connectedClients := seen)
  }

  /** The timer goroutine after its sleep, up to its sends. */
  ghost function StopTest(plan: Plan, o: State, order: seq<Name>): State
    requires o.timers > 0
  {
    if o.currentCase >= plan.cases then
      o.(runState := AfterTest, timers := o.timers - 1, activity := Crashed)
    else
      o.(runState := AfterTest, timers := o.timers - 1,
         activity := Sending(ToAll(order, Stop), Return), issued := o.issued + [Stop])
  }

  /** The listener once SetShuttingDown has returned. */
  ghost function ShutdownAll(o: State, order: seq<Name>): State {
    o.(activity := Sending(ToAll(order, Shutdown), EndRun), issued := o.issued + [Shutdown])
  }

  /** The listener or timer call returns after its last send. */
  function Settle(o: State, t: Then): State {
    match t
    case Return => o.(activity := Free)
    case ArmTimer => o.(activity := Free, timers := o.timers + 1)
    case EndRun => o.(activity := Ended)
  }

  /** The closure of main with the variables it captures. */
  class Process {
    const plan: Plan
    var connectedClients: map<Name, ClientState>
    var runState: RunState
    var currentCase: nat
    var timers: nat
    var resultPath: Option<nat>
    var activity: Activity
    var issued: seq<Down>

    ghost function View(): State
      reads this
    {
      State(connectedClients, runState, currentCase, timers, resultPath, activity, issued)
    }

    constructor (plan: Plan)
      ensures this.plan == plan && View() == Boot
    {
      this.plan := plan;
      connectedClients, runState, currentCase, timers := map[], BeforeTest, 0, 0;
      resultPath, activity, issued := None, Free, [];
    }

    method AllTestClientsInState(required: ClientState) returns (r: bool)
      ensures r <==> AllIn(connectedClients, Roster(plan), required)
    {
      var names := Roster(plan);
      while names != {}
        invariant names <= Roster(plan)
        invariant forall p :: p in Roster(plan) - names ==> p in connectedClients && connectedClients[p] == required
        decreases names
      {
        var p :| p in names;
        if p !in connectedClients || connectedClients[p] != required {
          return false;
        }
        names := names - {p};
      }
      return true;
    }

    /** One pass over a key set, queueing the same message for every key. */
    method QueueForAll(names: set<Name>, m: Down, andThen: Then) returns (order: seq<Name>)
      modifies this`activity, this`issued
      ensures Ordering(order, names)
      ensures activity == Sending(ToAll(order, m), andThen) && issued == old(issued) + [m]
    {
      order := [];
      var todo := [];
      var left := names;
      while left != {}
        invariant left <= names
        invariant Ordering(order, names - left)
        invariant todo == ToAll(order, m)
        decreases left
      {
        var p :| p in left;
        left := left - {p};
        order := order + [p];
        todo := todo + [Send(p, m)];
      }
      assert names - left == names;
      activity, issued := Sending(todo, andThen), issued + [m];
    }

    method OnClientState(name: Name, st: ClientState) returns (order: seq<Name>)
      requires activity == Free
      modifies this
      ensures activity.Sending? ==> Ordering(order, Roster(plan))
      ensures View() == Listener(plan, old(View()), name, st, order)
    {
      order := [];
      connectedClients := connectedClients[name := st];
      if runState != DuringTest && currentCase >= plan.cases {
        activity := Crashed;
        return;
      }
      var registered := AllTestClientsInState(Registered);
      if (runState == BeforeTest || runState == AfterTest) && registered {
        if runState == AfterTest {
          if currentCase == plan.cases - 1 {
            activity := Draining;
            return;
          }
          runState := BeforeTest;
          currentCase := currentCase + 1;
        }
        resultPath := Some(currentCase);
        order := QueueForAll(Roster(plan), Configure(currentCase), Return);
      } else if runState == BeforeTest {
        var ready := AllTestClientsInState(TestReady);
        if ready {
          runState := DuringTest;
          order := QueueForAll(Roster(plan), Start, ArmTimer);
        }
      }
    }

    method OnTimer() returns (order: seq<Name>)
      requires activity == Free && timers > 0
      modifies this
      ensures activity.Sending? ==> Ordering(order, Roster(plan))
      ensures View() == StopTest(plan, old(View()), order)
    {
      order := [];
      timers, runState := timers - 1, AfterTest;
      if currentCase >= plan.cases {
        activity := Crashed;
        return;
      }
      order := QueueForAll(Roster(plan), Stop, Return);
    }

    method OnWritersDone() returns (order: seq<Name>)
      requires activity == Draining
      modifies this
      ensures Ordering(order, connectedClients.Keys) && connectedClients == old(connectedClients)
      ensures View() == ShutdownAll(old(View()), order)
    {
      order := QueueForAll(connectedClients.Keys, Shutdown, EndRun);
    }
  }
}
