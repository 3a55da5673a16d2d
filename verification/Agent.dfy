/** The agent's session protocol: client states (agent/src/agent_state.rs)
    driven by the event loop (agent/src/epoll_thread.rs). */
module Agent {

  import opened Basics

  datatype Status = Pending | Started

  datatype Client = Client(status: Status, timestamp: nat)

  /** Calls made to the extension that succeeded in starting it, or that stopped it, and how that went. */
  datatype Call = StartCall | StopCall(ok: bool)

  datatype State = State(
    clients: map<nat, Client>, startedClient: Option<nat>, nextClientId: nat, anotherStarted: bool,
    extensionActive: bool, calls: seq<Call>)

  datatype Config = Config(timeoutNs: nat, hasExtension: bool)

  const INITIAL: State := State(map[], None, 1, false, false, [])

  /** A start request: whether it names tracing arguments, which of its
      descriptors are valid, and how creating the producer and starting the
      extension turn out. */
  datatype Message =
    | Version
    | Start(tracing: bool, fds: seq<bool>, producerOk: bool, extensionOk: bool)
    | Stop
    | Continue
    | Reply

  datatype Answer = VersionResponse | Ack | Nack(reason: Reason)

  datatype Reason = AlreadyStarted | NoArguments | MissingDescriptors | InvalidDescriptors | ExtensionRefused

  datatype Action = Send(id: nat, answer: Answer) | Delete(id: nat)

  datatype Outcome = Outcome(state: State, actions: seq<Action>)

  // ------------------------------------------------------------ client states

  /** Stop the extension if it is active, and let the next client start. */
  function Released(c: Config, a: State, stopOk: bool): State {
    var stops := a.extensionActive && c.hasExtension;
    a.(calls := if stops then a.calls + [StopCall(stopOk)] else a.calls,
       extensionActive := if stops then false else a.extensionActive,
       anotherStarted := false, startedClient := None)
  }

  function Disconnected(c: Config, a: State, id: nat, stopOk: bool): State {
    if a.startedClient == Some(id) then Released(c, a, stopOk) else a
  }

  /** Why a start request is refused. */
  function Refusal(c: Config, a: State, m: Message): Option<Reason>
    requires m.Start?
  {
    if a.anotherStarted then Some(AlreadyStarted)
    else if !m.tracing then Some(NoArguments)
    else if |m.fds| < 2 then Some(MissingDescriptors)
    else if !m.fds[0] || !m.fds[1] then Some(InvalidDescriptors)
    else if m.producerOk && c.hasExtension && !m.extensionOk then Some(ExtensionRefused)
    else None
  }

  function StartClient(c: Config, a: State, id: nat, now: nat): State {
    a.(clients := a.clients[id := Client(Started, now)], startedClient := Some(id), anotherStarted := true,
       extensionActive := a.extensionActive || c.hasExtension,
       calls := if c.hasExtension then a.calls + [StartCall] else a.calls)
  }

  function OnMessage(c: Config, a: State, id: nat, m: Message, now: nat, stopOk: bool): Outcome {
    if m.Version? then Outcome(a, [Send(id, VersionResponse)])
    else if id !in a.clients then Outcome(a, [])
    else if a.clients[id].status.Pending? then
      if !m.Start? then Outcome(a, [])
      else if Refusal(c, a, m).Some? then Outcome(a, [Send(id, Nack(Refusal(c, a, m).value))])
      else if !m.producerOk then Outcome(Disconnected(c, a, id, stopOk), [Delete(id)])
      else Outcome(StartClient(c, a, id, now), [Send(id, Ack)])
    else if m.Stop? then Outcome(Disconnected(c, a, id, stopOk), [Send(id, Ack), Delete(id)])
    else if m.Continue? then Outcome(a.(clients := a.clients[id := a.clients[id].(timestamp := now)]), [Send(id, Ack)])
    else Outcome(a, [])
  }

  /** `AgentClientState::timer`. */
  predicate Alive(c: Config, client: Client, now: nat) { SaturatingSub(now, client.timestamp) <= c.timeoutNs }

  /** The clients a timer sweep finds expired; `clock(id)` is the clock as it checks `id`. */
  function Expired(c: Config, a: State, clock: nat -> nat): set<nat> {
    set id | id in a.clients && !Alive(c, a.clients[id], clock(id))
  }

  /** Those among `ids` that are expired and not the started client. */
  function PendingExpired(c: Config, a: State, ids: set<nat>, clock: nat -> nat): set<nat> {
    set id | id in ids && id in a.clients && Some(id) != a.startedClient && !Alive(c, a.clients[id], clock(id))
  }

  lemma PendingExpiredAdd(c: Config, a: State, ids: set<nat>, id: nat, clock: nat -> nat)
    requires id in a.clients
    ensures PendingExpired(c, a, ids + {id}, clock) == PendingExpired(c, a, ids, clock)
      + if Some(id) != a.startedClient && !Alive(c, a.clients[id], clock(id)) then {id} else {}
  {
  }

  function Swept(c: Config, a: State, clock: nat -> nat, stopOk: bool): State {
    if a.startedClient.Some? && a.startedClient.value in Expired(c, a, clock) then Released(c, a, stopOk) else a
  }

  class AgentState {
    const cfg: Config
    var clients: map<nat, Client>
    var startedClient: Option<nat>
    var nextClientId: nat
    var anotherStarted: bool
    var extensionActive: bool
    var calls: seq<Call>

    function Contents(): State
      reads this
    {
      State(clients, startedClient, nextClientId, anotherStarted, extensionActive, calls)
    }

    constructor (cfg: Config)
      ensures this.cfg == cfg && Contents() == INITIAL
    {
      this.cfg := cfg;
      clients, startedClient, nextClientId, anotherStarted := map[], None, 1, false;
      extensionActive, calls := false, [];
    }

    method RemoveClient(id: nat)
      modifies `clients
      ensures clients == old(clients) - {id}
    {
      clients := clients - {id};
    }

    method RegisterClient(now: nat) returns (id: nat)
      modifies this
      ensures id == old(nextClientId)
      ensures Contents() == old(Contents()).(nextClientId := id + 1,
                                             clients := old(clients)[id := Client(Pending, now)])
    {
      id := nextClientId;
      nextClientId := nextClientId + 1;
      clients := clients[id := Client(Pending, now)];
    }

    method StopExtension(stopOk: bool)
      modifies `extensionActive, `calls
      ensures var r := Released(cfg, old(Contents()), stopOk);
        extensionActive == r.extensionActive && calls == r.calls
    {
      if extensionActive {
        if cfg.hasExtension {
          calls := calls + [StopCall(stopOk)];
          extensionActive := false;
        }
      }
    }

    method HandleDisconnect(id: nat, stopOk: bool, actions: seq<Action>) returns (actions': seq<Action>)
      modifies this
      ensures Contents() == Disconnected(cfg, old(Contents()), id, stopOk) && actions' == actions + [Delete(id)]
    {
      if startedClient == Some(id) {
        StopExtension(stopOk);
        anotherStarted := false;
        startedClient := None;
      }
      actions' := actions + [Delete(id)];
    }

    /** The long arm of `handle_message`: a start request of a pending client. */
    method HandleStart(id: nat, m: Message, now: nat, stopOk: bool) returns (actions: seq<Action>)
      requires m.Start? && id in clients && clients[id].status.Pending?
      modifies this
      ensures Outcome(Contents(), actions) == OnMessage(cfg, old(Contents()), id, m, now, stopOk)
    {
      if anotherStarted {
        return [Send(id, Nack(AlreadyStarted))];
      }
      if !m.tracing {
        return [Send(id, Nack(NoArguments))];
      }
      if |m.fds| < 2 {
        return [Send(id, Nack(MissingDescriptors))];
      }
      if !m.fds[0] {
        return [Send(id, Nack(InvalidDescriptors))];
      }
      if !m.fds[1] {
        return [Send(id, Nack(InvalidDescriptors))];
      }
      if !m.producerOk {
        actions := HandleDisconnect(id, stopOk, []);
        return;
      }
      if cfg.hasExtension {
        if !m.extensionOk {
          return [Send(id, Nack(ExtensionRefused))];
        }
        calls := calls + [StartCall];
        extensionActive := true;
      }
      actions := [Send(id, Ack)];
      anotherStarted := true;
      startedClient := Some(id);
      clients := clients[id := Client(Started, now)];
    }

    method HandleMessage(id: nat, m: Message, now: nat, stopOk: bool) returns (actions: seq<Action>)
      modifies this
      ensures Outcome(Contents(), actions) == OnMessage(cfg, old(Contents()), id, m, now, stopOk)
    {
      if m.Version? {
        return [Send(id, VersionResponse)];
      }
      actions := [];
      if id in clients {
        match clients[id].status {
          case Pending =>
            if m.Start? { actions := HandleStart(id, m, now, stopOk); }
          case Started =>
            if m.Stop? {
              actions := HandleDisconnect(id, stopOk, [Send(id, Ack)]);
            } else if m.Continue? {
              clients := clients[id := clients[id].(timestamp := now)];
              actions := [Send(id, Ack)];
            }
        }
      }
    }

    /** The first half of `timer`: the pending clients. */
    method SweepPending(clock: nat -> nat) returns (actions: seq<Action>)
      ensures Deletions(actions) == PendingExpired(cfg, Contents(), clients.Keys, clock)
    {
      actions := [];
      var todo := clients.Keys;
      ghost var seen: set<nat> := {};
      while todo != {}
        invariant todo + seen == clients.Keys
        invariant Deletions(actions) == PendingExpired(cfg, Contents(), seen, clock)
        decreases todo
      {
        var id :| id in todo;
        PendingExpiredAdd(cfg, Contents(), seen, id, clock);
        todo := todo - {id};
        seen := seen + {id};
        if Some(id) != startedClient && !Alive(cfg, clients[id], clock(id)) {
          DeletionsAppend(actions, Delete(id));
          actions := actions + [Delete(id)];
        }
      }
    }

    /** `timer`; the precondition is what its `unwrap` relies on. */
    method Timer(clock: nat -> nat, stopOk: bool) returns (actions: seq<Action>)
      requires startedClient.Some? ==> startedClient.value in clients
      modifies this
      ensures Contents() == Swept(cfg, old(Contents()), clock, stopOk)
      ensures Deletions(actions) == Expired(cfg, old(Contents()), clock)
    {
      actions := SweepPending(clock);
      if startedClient.Some? {
        var id := startedClient.value;
        if !Alive(cfg, clients[id], clock(id)) {
          DeletionsAppend(actions, Delete(id));
          actions := actions + [Delete(id)];
          StopExtension(stopOk);
          startedClient := None;
          anotherStarted := false;
        }
      }
    }
  }

  function Deletions(actions: seq<Action>): set<nat> {
    if actions == [] then {}
    else
      var x := actions[|actions| - 1];
      Deletions(actions[..|actions| - 1]) + if x.Delete? then {x.id} else {}
  }

  lemma DeletionsAppend(actions: seq<Action>, x: Action)
    ensures Deletions(actions + [x]) == Deletions(actions) + if x.Delete? then {x.id} else {}
  {
    assert (actions + [x])[..|actions|] == actions;
  }

  // ---------------------------------------------------------- the event loop

  /** What happens to the loop: a connection, a hang-up or read error on a socket,
      a message, or a timer sweep. The loop may still be told about a client
      that it has just removed. */
  datatype Event =
    | Connect(now: nat)
    | HangUp(id: nat, stopOk: bool)
    | ReadError(id: nat, stopOk: bool)
    | Receive(id: nat, message: Message, now: nat, stopOk: bool)
    | Sweep(clock: nat -> nat, stopOk: bool)

  datatype Loop = Loop(state: State, sockets: set<nat>)

  function Without(l: Loop, ids: set<nat>): Loop {
    Loop(l.state.(clients := l.state.clients - ids), l.sockets - ids)
  }

  /** One event: its handler, its actions, and the removals they ask for. */
  function Step(c: Config, l: Loop, e: Event): Loop {
    match e
    case Connect(now) =>
      var id := l.state.nextClientId;
      Loop(l.state.(nextClientId := id + 1, clients := l.state.clients[id := Client(Pending, now)]), l.sockets + {id})
    case HangUp(id, stopOk) => Without(l.(state := Disconnected(c, l.state, id, stopOk)), {id})
    case ReadError(id, stopOk) =>
      if id in l.sockets then Without(l.(state := Disconnected(c, l.state, id, stopOk)), {id}) else l
    case Receive(id, m, now, stopOk) =>
      if id in l.sockets then
        var o := OnMessage(c, l.state, id, m, now, stopOk);
        Without(l.(state := o.state), Deletions(o.actions))
      else l
    case Sweep(clock, stopOk) =>
      Without(l.(state := Swept(c, l.state, clock, stopOk)), Expired(c, l.state, clock))
  }

  /** Exactly one client is started, or none, and every part of the state says so. */
  ghost predicate Consistent(c: Config, l: Loop) {
    var a := l.state;
    && (a.anotherStarted <==> a.startedClient.Some?)
    && (a.startedClient.Some? ==> a.startedClient.value in a.clients)
    && (forall id | id in a.clients :: a.clients[id].status.Started? <==> a.startedClient == Some(id))
    && a.clients.Keys == l.sockets
    && (forall id | id in a.clients :: 0 < id < a.nextClientId)
    && a.nextClientId > 0
    && (a.extensionActive <==> c.hasExtension && a.startedClient.Some?)
  }

  lemma StepKeepsConsistent(c: Config, l: Loop, e: Event)
    requires Consistent(c, l)
    ensures Consistent(c, Step(c, l, e))
  {
    if e.Receive? && e.id in l.sockets {
      MessageKeepsConsistent(c, l, e.id, e.message, e.now, e.stopOk);
    }
  }

  lemma MessageDeletions(c: Config, a: State, id: nat, m: Message, now: nat, stopOk: bool)
    ensures var o := OnMessage(c, a, id, m, now, stopOk);
      Deletions(o.actions) == if |o.actions| > 0 && o.actions[|o.actions| - 1].Delete? then {id} else {}
  {
    var o := OnMessage(c, a, id, m, now, stopOk);
    DeletionsAppend([], Send(id, Ack));
    if |o.actions| == 2 {
      DeletionsAppend([Send(id, Ack)], Delete(id));
      assert o.actions == [Send(id, Ack)] + [Delete(id)] && [Send(id, Ack)] == [] + [Send(id, Ack)];
    }
  }

  lemma MessageKeepsConsistent(c: Config, l: Loop, id: nat, m: Message, now: nat, stopOk: bool)
    requires Consistent(c, l) && id in l.sockets
    ensures var o := OnMessage(c, l.state, id, m, now, stopOk);
      Consistent(c, Without(l.(state := o.state), Deletions(o.actions)))
  {
    MessageDeletions(c, l.state, id, m, now, stopOk);
  }

  /** The answers that reach a socket, in order. */
  function Sends(queue: seq<Action>, sockets: set<nat>): seq<Action> {
    if queue == [] then []
    else
      var x := queue[|queue| - 1];
      Sends(queue[..|queue| - 1], sockets) + if x.Send? && x.id in sockets then [x] else []
  }

  /** `epoll_listener_thread`, with the sockets it keeps. */
  class EventLoop {
    const agent: AgentState
    var sockets: set<nat>

    ghost function Contents(): Loop
      reads this, agent
    {
      Loop(agent.Contents(), sockets)
    }

    ghost predicate Valid()
      reads this, agent
    {
      Consistent(agent.cfg, Contents())
    }

    constructor (agent: AgentState)
      requires agent.Contents() == INITIAL
      ensures this.agent == agent && Contents() == Loop(INITIAL, {}) && Valid()
    {
      this.agent := agent;
      sockets := {};
    }

    /** `process_actions`: drain the queue; deletions are collected for the caller. */
    method ProcessActions(queue: seq<Action>) returns (ids: seq<nat>, sent: seq<Action>)
      ensures (set id | id in ids) == Deletions(queue)
      ensures sent == Sends(queue, sockets)
    {
      ids, sent := [], [];
      var actions := queue;
      ghost var k := 0;
      while actions != []
        invariant 0 <= k <= |queue| && actions == queue[k..]
        invariant (set id | id in ids) == Deletions(queue[..k])
        invariant sent == Sends(queue[..k], sockets)
        decreases |actions|
      {
        var action := actions[0];
        actions := actions[1..];
        k := k + 1;
        assert queue[..k][..k - 1] == queue[..k - 1];
        match action {
          case Send(id, _) =>
            if id in sockets { sent := sent + [action]; }
          case Delete(id) =>
            ids := ids + [id];
        }
      }
      assert queue[..k] == queue;
    }

    /** The removal loop after every handler. */
    method RemoveAll(ids: seq<nat>)
      modifies this`sockets, agent`clients
      ensures Contents() == Without(old(Contents()), set id | id in ids)
    {
      for i := 0 to |ids|
        invariant Contents() == Without(old(Contents()), set id | id in ids[..i])
      {
        assert ids[..i + 1] == ids[..i] + [ids[i]];
        agent.RemoveClient(ids[i]);
        sockets := sockets - {ids[i]};
      }
      assert ids[..|ids|] == ids;
    }

    method Finish(actions: seq<Action>)
      modifies this`sockets, agent`clients
      ensures Contents() == Without(old(Contents()), Deletions(actions))
    {
      var ids, _ := ProcessActions(actions);
      RemoveAll(ids);
    }

    method OnConnect(now: nat)
      requires Valid()
      modifies this, agent
      ensures Valid() && Contents() == Step(agent.cfg, old(Contents()), Connect(now))
    {
      StepKeepsConsistent(agent.cfg, Contents(), Connect(now));
      var id := agent.RegisterClient(now);
      sockets := sockets + {id};
    }

    method OnHangUp(id: nat, stopOk: bool)
      requires Valid()
      modifies this, agent
      ensures Valid() && Contents() == Step(agent.cfg, old(Contents()), HangUp(id, stopOk))
    {
      StepKeepsConsistent(agent.cfg, Contents(), HangUp(id, stopOk));
      var actions := agent.HandleDisconnect(id, stopOk, []);
      Finish(actions);
      assert Deletions([] + [Delete(id)]) == {id};
    }

    method OnReadable(id: nat, received: Option<Message>, now: nat, stopOk: bool)
      requires Valid()
      modifies this, agent
      ensures Valid() && Contents() == Step(agent.cfg, old(Contents()),
                                            if received.Some? then Receive(id, received.value, now, stopOk)
                                            else ReadError(id, stopOk))
    {
      ghost var event := if received.Some? then Receive(id, received.value, now, stopOk) else ReadError(id, stopOk);
      StepKeepsConsistent(agent.cfg, Contents(), event);
      if id in sockets {
        var actions;
        if received.Some? {
          actions := agent.HandleMessage(id, received.value, now, stopOk);
        } else {
          actions := agent.HandleDisconnect(id, stopOk, []);
          assert Deletions([] + [Delete(id)]) == {id};
        }
        Finish(actions);
      }
    }

    method OnTimer(clock: nat -> nat, stopOk: bool)
      requires Valid()
      modifies this, agent
      ensures Valid() && Contents() == Step(agent.cfg, old(Contents()), Sweep(clock, stopOk))
    {
      StepKeepsConsistent(agent.cfg, Contents(), Sweep(clock, stopOk));
      var actions := agent.Timer(clock, stopOk);
      Finish(actions);
    }
  }
}
