/** What holds of the agent after every sequence of connections, messages,
    hang-ups, read errors and timer sweeps. */
module AgentLaws {
  import opened Basics
  import opened Agent

  function After(c: Config, es: seq<Event>): Loop {
    if es == [] then Loop(INITIAL, {}) else Step(c, After(c, es[..|es| - 1]), es[|es| - 1])
  }

  /** Mutual exclusion: at most one client is started, it is the one the state
      names, it is registered and has a socket. */
  lemma {:induction false} AtMostOneStarted(c: Config, es: seq<Event>)
    ensures Consistent(c, After(c, es))
  {
    if es != [] {
      AtMostOneStarted(c, es[..|es| - 1]);
      StepKeepsConsistent(c, After(c, es[..|es| - 1]), es[|es| - 1]);
    }
  }

  /** A registered pending client's start request is acknowledged if and only if
      nobody is started and nothing is wrong with the request, and then the
      client is the started one. */
  lemma StartSucceedsIff(c: Config, es: seq<Event>, id: nat, m: Message, now: nat, stopOk: bool)
    requires var a := After(c, es).state; id in a.clients && a.clients[id].status.Pending?
    requires m.Start?
    ensures var (a, o) := (After(c, es).state, OnMessage(c, After(c, es).state, id, m, now, stopOk));
      && (Send(id, Ack) in o.actions <==>
            (forall k | k in a.clients :: a.clients[k].status.Pending?)
            && m.tracing && |m.fds| >= 2 && m.fds[0] && m.fds[1] && m.producerOk && (c.hasExtension ==> m.extensionOk))
      && (Send(id, Ack) in o.actions <==> o.state.startedClient == Some(id))
      && (Send(id, Ack) !in o.actions ==> o.state == a)
  {
    AtMostOneStarted(c, es);
  }

  // --------------------------------------------------------------- identities

  lemma StepIds(c: Config, l: Loop, e: Event)
    ensures Step(c, l, e).state.nextClientId == l.state.nextClientId + if e.Connect? then 1 else 0
    ensures forall id | id in Step(c, l, e).state.clients ::
        id in l.state.clients || (e.Connect? && id == l.state.nextClientId)
  {
  }

  /** The id the next connection gets after `n` events. */
  function IdAt(c: Config, es: seq<Event>, n: nat): nat
    requires n <= |es|
  {
    After(c, es[..n]).state.nextClientId
  }

  lemma IdAtPrefix(c: Config, es: seq<Event>, n: nat, m: nat)
    requires n <= m <= |es|
    ensures IdAt(c, es[..m], n) == IdAt(c, es, n)
  {
    assert es[..m][..n] == es[..n];
  }

  lemma {:induction false} IdsGrow(c: Config, es: seq<Event>, i: nat)
    requires i <= |es|
    ensures IdAt(c, es, i) <= After(c, es).state.nextClientId
    ensures i < |es| && es[i].Connect? ==> IdAt(c, es, i) < After(c, es).state.nextClientId
  {
    if i == |es| {
      assert es[..i] == es;
    } else {
      var n := |es| - 1;
      IdsGrow(c, es[..n], i);
      IdAtPrefix(c, es, i, n);
      StepIds(c, After(c, es[..n]), es[n]);
    }
  }

  /** No two connections ever get the same id, even after the first is gone. */
  lemma IdsAreNeverReused(c: Config, es: seq<Event>, i: nat, j: nat)
    requires i < j < |es| && es[i].Connect? && es[j].Connect?
    ensures IdAt(c, es, i) < IdAt(c, es, j)
  {
    IdAtPrefix(c, es, i, j);
    IdsGrow(c, es[..j], i);
  }

  // ---------------------------------------------------------------- lifecycle

  /** The last call left the extension running. */
  predicate Running(calls: seq<Call>) { calls != [] && calls[|calls| - 1].StartCall? }

  /** Starts and stops take turns, beginning with a start. */
  predicate Alternate(calls: seq<Call>) {
    calls == [] || (
      && Alternate(calls[..|calls| - 1])
      && (calls[|calls| - 1].StartCall? <==> !Running(calls[..|calls| - 1])))
  }

  lemma AlternateAppend(calls: seq<Call>, x: Call)
    ensures Alternate(calls + [x]) <==> Alternate(calls) && (x.StartCall? <==> !Running(calls))
  {
    assert (calls + [x])[..|calls|] == calls;
  }

  /** A step makes at most one call. */
  lemma StepCalls(c: Config, l: Loop, e: Event)
    requires Consistent(c, l)
    ensures var (a, b) := (l.state, Step(c, l, e).state);
      || (b.calls == a.calls && b.extensionActive == a.extensionActive)
      || (b.calls == a.calls + [StartCall] && !a.extensionActive && b.extensionActive)
      || (exists ok :: b.calls == a.calls + [StopCall(ok)] && a.extensionActive && !b.extensionActive)
  {
    if !e.Connect? && Step(c, l, e).state.calls != l.state.calls && l.state.extensionActive {
      assert Step(c, l, e).state.calls == l.state.calls + [StopCall(e.stopOk)];
    }
  }

  lemma StepAlternates(c: Config, l: Loop, e: Event)
    requires Consistent(c, l) && Alternate(l.state.calls)
    requires l.state.extensionActive <==> Running(l.state.calls)
    ensures var a := Step(c, l, e).state;
      Alternate(a.calls) && (a.extensionActive <==> Running(a.calls))
  {
    StepCalls(c, l, e);
    var a, b := l.state.calls, Step(c, l, e).state.calls;
    if a != b { AlternateAppend(a, b[|a|]); }
  }

  /** In every run the extension is started and stopped in turns, and it is
      active exactly between a start and the next stop. */
  lemma {:induction false} CallsAlternate(c: Config, es: seq<Event>)
    ensures var a := After(c, es).state;
      Alternate(a.calls) && (a.extensionActive <==> Running(a.calls))
  {
    if es != [] {
      var before := es[..|es| - 1];
      CallsAlternate(c, before);
      AtMostOneStarted(c, before);
      StepAlternates(c, After(c, before), es[|es| - 1]);
    }
  }

  /** The calls that succeeded. */
  function Successes(calls: seq<Call>): seq<Call> {
    if calls == [] then []
    else
      var x := calls[|calls| - 1];
      Successes(calls[..|calls| - 1]) + if x.StartCall? || x.ok then [x] else []
  }

  predicate AllStopsOk(calls: seq<Call>) {
    calls == [] || (AllStopsOk(calls[..|calls| - 1]) && (calls[|calls| - 1].StopCall? ==> calls[|calls| - 1].ok))
  }

  /** Only the last call may be a failed stop. */
  predicate StopsSucceed(calls: seq<Call>) { calls != [] ==> AllStopsOk(calls[..|calls| - 1]) }

  lemma {:induction false} AllSucceed(calls: seq<Call>)
    requires AllStopsOk(calls)
    ensures Successes(calls) == calls
  {
    if calls != [] {
      AllSucceed(calls[..|calls| - 1]);
      assert calls == calls[..|calls| - 1] + [calls[|calls| - 1]];
    }
  }

  /** A start right after a failed stop makes two successful starts in a row. */
  lemma FailedStopJoins(before: seq<Call>, x: Call)
    requires before != [] && Alternate(before) && (x.StartCall? <==> !Running(before))
    requires AllStopsOk(before[..|before| - 1]) && before[|before| - 1].StopCall? && !before[|before| - 1].ok
    ensures !Alternate(Successes(before) + [x]) && x.StartCall?
  {
    AllSucceed(before[..|before| - 1]);
    AlternateAppend(before[..|before| - 1], x);
    assert Successes(before) == before[..|before| - 1];
  }

  lemma {:induction false} SuccessesAlternate(calls: seq<Call>)
    requires Alternate(calls)
    ensures Alternate(Successes(calls)) <==> StopsSucceed(calls)
  {
    if calls != [] {
      var before, x := calls[..|calls| - 1], calls[|calls| - 1];
      SuccessesAlternate(before);
      AlternateAppend(Successes(before), x);
      assert calls == before + [x] && Successes(before) + [] == Successes(before);
      if AllStopsOk(before) {
        AllSucceed(before);
      } else if StopsSucceed(before) {
        FailedStopJoins(before, x);
      }
    }
  }

  /** Successful starts and successful stops alternate in a run if and only if no
      stop before the last call failed. */
  lemma SuccessfulCallsAlternateIff(c: Config, es: seq<Event>)
    ensures Alternate(Successes(After(c, es).state.calls)) <==> StopsSucceed(After(c, es).state.calls)
  {
    CallsAlternate(c, es);
    SuccessesAlternate(After(c, es).state.calls);
  }

  lemma OneMore(c: Config, es: seq<Event>, l: Loop, e: Event) returns (es': seq<Event>)
    requires After(c, es) == l
    ensures After(c, es') == Step(c, l, e)
  {
    es' := es + [e];
    assert es'[..|es|] == es;
  }

  const GOOD_START: Message := Start(true, [true, true], true, true)

  /** The loop with nobody connected. */
  function Quiet(n: nat, calls: seq<Call>): Loop { Loop(State(map[], None, n, false, false, calls), {}) }

  /** The loop with only client `n`, which is started. */
  function Busy(n: nat, calls: seq<Call>): Loop {
    Loop(State(map[n := Client(Started, 0)], Some(n), n + 1, true, true, calls), {n})
  }

  lemma StartsAlone(c: Config, n: nat, calls: seq<Call>)
    requires c.hasExtension
    ensures Step(c, Step(c, Quiet(n, calls), Connect(0)), Receive(n, GOOD_START, 0, true))
        == Busy(n, calls + [StartCall])
  {
    var l := Step(c, Quiet(n, calls), Connect(0));
    assert l == Loop(State(map[n := Client(Pending, 0)], None, n + 1, false, false, calls), {n});
    MessageDeletions(c, l.state, n, GOOD_START, 0, true);
  }

  lemma StopFails(c: Config, n: nat, calls: seq<Call>)
    requires c.hasExtension
    ensures Step(c, Busy(n, calls), HangUp(n, false)) == Quiet(n + 1, calls + [StopCall(false)])
  {
  }

  /** One client starts the extension and hangs up, the stop fails, and another starts it. */
  lemma FailedStopRun(c: Config) returns (es: seq<Event>)
    requires c.hasExtension
    ensures After(c, es).state.calls == [StartCall] + [StopCall(false)] + [StartCall]
  {
    var l1, l2 := Busy(1, [] + [StartCall]), Quiet(2, [] + [StartCall] + [StopCall(false)]);
    es := OneMore(c, [], Quiet(1, []), Connect(0));
    es := OneMore(c, es, Step(c, Quiet(1, []), Connect(0)), Receive(1, GOOD_START, 0, true));
    StartsAlone(c, 1, []);
    es := OneMore(c, es, l1, HangUp(1, false));
    StopFails(c, 1, [] + [StartCall]);
    es := OneMore(c, es, l2, Connect(0));
    es := OneMore(c, es, Step(c, l2, Connect(0)), Receive(2, GOOD_START, 0, true));
    StartsAlone(c, 2, [] + [StartCall] + [StopCall(false)]);
  }

  lemma SuccessesAppend(calls: seq<Call>, x: Call)
    ensures Successes(calls + [x]) == Successes(calls) + if x.StartCall? || x.ok then [x] else []
  {
    assert (calls + [x])[..|calls|] == calls;
  }

  /** Two successful starts, and no successful stop between them. */
  lemma FailedStopBreaksAlternation(c: Config) returns (es: seq<Event>)
    requires c.hasExtension
    ensures Successes(After(c, es).state.calls) == [StartCall, StartCall]
    ensures !Alternate(Successes(After(c, es).state.calls))
  {
    es := FailedStopRun(c);
    SuccessesAppend([], StartCall);
    SuccessesAppend([] + [StartCall], StopCall(false));
    SuccessesAppend([] + [StartCall] + [StopCall(false)], StartCall);
    AlternateAppend([StartCall], StartCall);
    assert [StartCall] + [StartCall] == [StartCall, StartCall];
  }

  // --------------------------------------------------------------- timestamps

  lemma StepTimestamps(c: Config, l: Loop, e: Event, id: nat)
    requires Consistent(c, l) && id in Step(c, l, e).state.clients && Step(c, l, e).state.clients[id].status.Pending?
    ensures if e.Connect? && id == l.state.nextClientId then Step(c, l, e).state.clients[id].timestamp == e.now
            else id in l.state.clients && Step(c, l, e).state.clients[id] == l.state.clients[id]
  {
  }

  /** Client `id` is registered and pending with this timestamp, if it is pending at all. */
  predicate PendingSince(l: Loop, id: nat, time: nat) {
    id in l.state.clients && l.state.clients[id].status.Pending? ==> l.state.clients[id].timestamp == time
  }

  lemma StillPendingSince(c: Config, l: Loop, e: Event, id: nat, time: nat)
    requires Consistent(c, l) && PendingSince(l, id, time) && id < l.state.nextClientId
    ensures PendingSince(Step(c, l, e), id, time)
  {
    var l' := Step(c, l, e);
    if id in l'.state.clients && l'.state.clients[id].status.Pending? { StepTimestamps(c, l, e, id); }
  }

  /** Whatever a pending client sends, its timestamp stays the time it connected. */
  lemma {:induction false} PendingKeepsItsTime(c: Config, es: seq<Event>, k: nat)
    requires k < |es| && es[k].Connect?
    ensures PendingSince(After(c, es), IdAt(c, es, k), es[k].now)
  {
    var n := |es| - 1;
    AtMostOneStarted(c, es[..n]);
    if k == n {
      StepTimestampOfNew(c, After(c, es[..n]), es[n].now);
    } else {
      PendingKeepsItsTime(c, es[..n], k);
      IdAtPrefix(c, es, k, n);
      IdsGrow(c, es[..n], k);
      StillPendingSince(c, After(c, es[..n]), es[n], IdAt(c, es, k), es[k].now);
    }
  }

  lemma StepTimestampOfNew(c: Config, l: Loop, now: nat)
    ensures PendingSince(Step(c, l, Connect(now)), l.state.nextClientId, now)
  {
  }

  /** A client that survives a sweep had shown itself within the timeout when the
      sweep began, and one that still has when it ends survives unchanged. */
  lemma SurvivorsWereAlive(c: Config, l: Loop, clock: nat -> nat, stopOk: bool, began: nat, ended: nat, id: nat)
    requires id in l.state.clients && began <= clock(id) <= ended
    ensures var (l', shown) := (Step(c, l, Sweep(clock, stopOk)), l.state.clients[id].timestamp);
      && (id in l'.state.clients ==> began <= shown + c.timeoutNs)
      && (ended <= shown + c.timeoutNs ==> id in l'.state.clients)
      && (id in l'.state.clients <==> clock(id) <= shown + c.timeoutNs)
      && (id in l'.state.clients ==> l'.state.clients[id] == l.state.clients[id])
  {
  }
}
