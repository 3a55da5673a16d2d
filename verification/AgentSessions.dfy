/** Who is connected, who holds the session and what is answered, read off what
    happened to the agent. */
module AgentSessions {
  import opened Basics
  import opened Agent
  import opened AgentLaws

  // ----------------------------------------------------- read off the events

  /** The id the next connection gets. */
  function NextId(es: seq<Event>): nat {
    if es == [] then 1 else NextId(es[..|es| - 1]) + if es[|es| - 1].Connect? then 1 else 0
  }

  /** A start request with tracing arguments and both descriptors valid. */
  predicate InOrder(m: Message) { m.Start? && m.tracing && |m.fds| >= 2 && m.fds[0] && m.fds[1] }

  /** A connected client asks for the session while nobody holds it, and all goes well. */
  predicate Granted(c: Config, es: seq<Event>, e: Event)
    decreases |es|, 3
  {
    && e.Receive? && InOrder(e.message) && e.message.producerOk && (c.hasExtension ==> e.message.extensionOk)
    && Holder(c, es).None? && Live(c, es, e.id)
  }

  /** A client goes: its connection breaks, it stops the session it holds, its
      producer cannot be made, or it has been silent for longer than the timeout. */
  predicate Leaves(c: Config, es: seq<Event>, e: Event, id: nat)
    decreases |es|, 2
  {
    match e
    case Connect(_) => false
    case HangUp(i, _) => i == id
    case ReadError(i, _) => i == id
    case Receive(i, m, _, _) =>
      && i == id
      && if Holder(c, es).Some? then m.Stop? && Holder(c, es) == Some(id) else InOrder(m) && !m.producerOk
    case Sweep(clock, _) => clock(id) > LastSeen(c, es, id) + c.timeoutNs
  }

  predicate Live(c: Config, es: seq<Event>, id: nat)
    decreases |es|, 1
  {
    es != []
    && var (before, e) := (es[..|es| - 1], es[|es| - 1]);
       (Live(c, before, id) || (e.Connect? && id == NextId(before))) && !Leaves(c, before, e, id)
  }

  /** The client granted the session last, until it leaves. */
  function Holder(c: Config, es: seq<Event>): Option<nat>
    decreases |es|, 1
  {
    if es == [] then None
    else
      var (before, e) := (es[..|es| - 1], es[|es| - 1]);
      var holder := Holder(c, before);
      if Granted(c, before, e) then Some(e.id)
      else if holder.Some? && Leaves(c, before, e, holder.value) then None
      else holder
  }

  /** When a client last gave a sign: it connected, was granted the session, or continued it. */
  function LastSeen(c: Config, es: seq<Event>, id: nat): nat
    decreases |es|, 1
  {
    if es == [] then 0
    else
      var (before, e) := (es[..|es| - 1], es[|es| - 1]);
      var held := Holder(c, before) == Some(id);
      if e.Connect? && id == NextId(before) then e.now
      else if e.Receive? && e.id == id && (Granted(c, before, e) || (e.message.Continue? && held)) then e.now
      else LastSeen(c, before, id)
  }

  // ----------------------------------------------------------- main theorems

  /** The agent's state is what the events make of it. */
  ghost predicate Reflects(c: Config, l: Loop, es: seq<Event>) {
    && l.state.nextClientId == NextId(es) && l.state.startedClient == Holder(c, es)
    && (forall id: nat :: id in l.state.clients <==> Live(c, es, id))
    && (forall id | id in l.state.clients :: l.state.clients[id].timestamp == LastSeen(c, es, id))
  }

  /** What a message does to the loop. */
  lemma MessageStep(c: Config, l: Loop, e: Event)
    requires Consistent(c, l) && e.Receive?
    ensures var (a, a', id, m) := (l.state, Step(c, l, e).state, e.id, e.message);
      var granted := id in a.clients && a.startedClient.None? && InOrder(m) && m.producerOk
        && (c.hasExtension ==> m.extensionOk);
      var leaves := if a.startedClient.Some? then m.Stop? && a.startedClient == Some(id)
                    else InOrder(m) && !m.producerOk;
      && a'.nextClientId == a.nextClientId
      && a'.startedClient == (if granted then Some(id) else if leaves && a.startedClient == Some(id) then None
                              else a.startedClient)
      && (forall k :: k in a'.clients <==> k in a.clients && !(leaves && k == id))
      && (forall k | k in a'.clients ::
            a'.clients[k].timestamp
              == if k == id && (granted || (m.Continue? && a.startedClient == Some(id))) then e.now
                 else a.clients[k].timestamp)
  {
    if e.id in l.sockets { MessageDeletions(c, l.state, e.id, e.message, e.now, e.stopOk); }
  }

  lemma OneMoreMessage(c: Config, l: Loop, es: seq<Event>, e: Event)
    requires Consistent(c, l) && Reflects(c, l, es) && e.Receive?
    ensures Reflects(c, Step(c, l, e), es + [e])
  {
    assert (es + [e])[..|es|] == es;
    MessageStep(c, l, e);
  }

  lemma OneMoreSweep(c: Config, l: Loop, es: seq<Event>, e: Event)
    requires Consistent(c, l) && Reflects(c, l, es) && e.Sweep?
    ensures Reflects(c, Step(c, l, e), es + [e])
  {
    assert (es + [e])[..|es|] == es;
  }

  lemma OneMoreEvent(c: Config, l: Loop, es: seq<Event>, e: Event)
    requires Consistent(c, l) && Reflects(c, l, es)
    ensures Reflects(c, Step(c, l, e), es + [e])
  {
    match e {
      case Receive(_, _, _, _) => OneMoreMessage(c, l, es, e);
      case Sweep(_, _) => OneMoreSweep(c, l, es, e);
      case _ => assert (es + [e])[..|es|] == es;
    }
  }

  /** In every run: the clients registered are those that connected and did not
      leave, the one started is the one that holds the session, and every
      timestamp is the time its client last gave a sign. */
  lemma {:induction false} SessionsAreOfEvents(c: Config, es: seq<Event>)
    ensures Reflects(c, After(c, es), es)
  {
    if es != [] {
      var before := es[..|es| - 1];
      SessionsAreOfEvents(c, before);
      AtMostOneStarted(c, before);
      OneMoreEvent(c, After(c, before), before, es[|es| - 1]);
      assert before + [es[|es| - 1]] == es;
    }
  }

  /** What a connected client is answered, in every run: its version request
      always; an acknowledgement exactly for the start that grants it the session
      and, while it holds it, for `Continue` and `Stop`; a refusal of every other
      start that does not end its connection; and nobody else is answered. */
  lemma AnswersAre(c: Config, es: seq<Event>, e: Event)
    requires e.Receive? && Live(c, es, e.id)
    ensures var (id, m) := (e.id, e.message);
      var actions := OnMessage(c, After(c, es).state, id, m, e.now, e.stopOk).actions;
      && (forall x | x in actions :: x.id == id)
      && (Send(id, VersionResponse) in actions <==> m.Version?)
      && (Send(id, Ack) in actions <==>
            Granted(c, es, e) || (Holder(c, es) == Some(id) && (m.Continue? || m.Stop?)))
      && (m.Start? && Holder(c, es) != Some(id) && !Granted(c, es, e) && !Leaves(c, es, e, id) <==>
            exists r :: Send(id, Nack(r)) in actions)
      && (Delete(id) in actions <==> Leaves(c, es, e, id))
  {
    SessionsAreOfEvents(c, es);
    AtMostOneStarted(c, es);
    if e.message.Start? && Refusal(c, After(c, es).state, e.message).Some? {
      var r := Refusal(c, After(c, es).state, e.message).value;
      var actions := OnMessage(c, After(c, es).state, e.id, e.message, e.now, e.stopOk).actions;
      if Holder(c, es) != Some(e.id) { assert actions == [Send(e.id, Nack(r))] && Send(e.id, Nack(r)) in actions; }
    }
  }
}
