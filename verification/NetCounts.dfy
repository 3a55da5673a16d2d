/** What each of the ten network counters counts, read off the socket operations. */
module NetCounts {
  import opened Basics
  import opened NetTrack
  import opened NetLaws

  /** The operation is looked at at all. */
  predicate Observed(c: Config, o: SocketOp) {
    && (o.send ==> c.sendEnabled) && (!o.send ==> c.receiveEnabled)
    && o.tgid != 0 && (!c.filterEnabled || o.tgid in c.tgids)
    && (o.protocol == Tcp ==> c.tcpEnabled) && (o.protocol == Udp ==> c.udpEnabled)
  }

  /** What it adds to counter `k`: bytes sent and received; sends and receives that
      did not fail; failed sends and receives; those of them that would have blocked;
      TCP receives at the end of the stream; truncated UDP receives. */
  function Adds(c: Config, o: SocketOp, k: nat): nat
    requires k < COUNTERS
  {
    if !Observed(c, o) then 0
    else if k == 0 then if o.send && o.ret > 0 && c.bytesEnabled then o.ret else 0
    else if k == 1 then if !o.send && o.ret > 0 && c.bytesEnabled then o.ret else 0
    else if k == 2 then if o.send && o.ret >= 0 && c.operationsEnabled then 1 else 0
    else if k == 3 then if !o.send && o.ret >= 0 && c.operationsEnabled then 1 else 0
    else if k == 4 then if o.send && o.ret < 0 && c.errorsEnabled then 1 else 0
    else if k == 5 then if !o.send && o.ret < 0 && c.errorsEnabled then 1 else 0
    else if k == 6 then if o.send && o.ret == -11 && c.errorsEnabled then 1 else 0
    else if k == 7 then if !o.send && o.ret == -11 && c.errorsEnabled then 1 else 0
    else if k == 8 then if !o.send && o.ret == 0 && o.protocol == Tcp && c.operationsEnabled then 1 else 0
    else if !o.send && o.ret >= 0 && o.protocol == Udp && o.truncated && c.operationsEnabled then 1 else 0
  }

  /** The operation is counted under this key. */
  predicate Under(c: Config, key: Key, o: SocketOp) {
    match key
    case Host(cpu, p) => c.hostEnabled && o.cpu == cpu && o.protocol == p
    case Process(tgid, p) => c.processEnabled && o.tgid == tgid && o.protocol == p
    case Peer(tgid, p, remote) => c.peerEnabled && o.tgid == tgid && o.protocol == p && o.remote == Some(remote)
  }

  function AddsUnder(c: Config, e: Event, key: Key, k: nat): nat
    requires k < COUNTERS
  {
    if e.Io? && Under(c, key, e.op) then Adds(c, e.op, k) else 0
  }

  /** Counter `k` summed over the operations under a key, from event number `first` on, counting from one. */
  function SumSince(c: Config, es: seq<Event>, first: nat, key: Key, k: nat): nat
    requires k < COUNTERS
  {
    if es == [] || |es| < first then 0
    else SumSince(c, es[..|es| - 1], first, key, k) + AddsUnder(c, es[|es| - 1], key, k)
  }

  /** Counter `k` summed over all operations of a protocol. */
  function SumOfOperations(c: Config, es: seq<Event>, p: Protocol, k: nat): nat
    requires k < COUNTERS
  {
    if es == [] then 0
    else
      var e := es[|es| - 1];
      SumOfOperations(c, es[..|es| - 1], p, k)
      + if e.Io? && e.op.protocol == p && c.hostEnabled then Adds(c, e.op, k) else 0
  }

  // -------------------------------------------------------------------- proofs

  lemma ObservedIsAccounted(c: Config, o: SocketOp)
    ensures Observed(c, o) <==> Accounted(c, o)
  {
  }

  lemma AddsIsIncrement(c: Config, o: SocketOp, k: nat)
    requires k < COUNTERS && Observed(c, o)
    ensures Increment(c, o, k) == Adds(c, o, k)
  {
    var t := Updated(c, ZERO, o);
    assert Counters(t) == [t.sendBytes, t.recvBytes, t.sendOperations, t.recvOperations, t.sendErrors, t.recvErrors,
                           t.sendWouldBlock, t.recvWouldBlock, t.tcpRecvEof, t.udpRecvTruncated];
  }

  lemma ZeroCounters(now: nat, k: nat)
    requires k < COUNTERS
    ensures Counters(ZERO)[k] == 0 == Counters(ZERO.(firstSeen := now, lastSeen := now))[k]
  {
  }

  /** One table counts one observed operation under one key. */
  lemma CountInAdds(c: Config, m: map<Key, NetStats>, own: Key, o: SocketOp, room: bool, key: Key, k: nat)
    requires k < COUNTERS && Observed(c, o)
    ensures var m' := CountIn(c, m, own, o, room);
      && (key in m ==> key in m')
      && (key in m' ==> Counters(m'[key])[k] == (if key in m then Counters(m[key])[k] else 0)
                                                + if key == own then Adds(c, o, k) else 0)
  {
    AddsIsIncrement(c, o, k);
    if own in m {
      UpdateAdds(c, m[own], o, k);
    } else {
      UpdateAdds(c, ZERO.(firstSeen := o.now, lastSeen := o.now), o, k);
      ZeroCounters(o.now, k);
    }
  }

  /** A table never has keys of another scope. */
  predicate OwnKeys(t: Tables) {
    && (forall key | key in t.host :: key.Host?)
    && (forall key | key in t.processes :: key.Process?)
    && (forall key | key in t.peers :: key.Peer?)
  }

  lemma {:induction false} AlwaysOwnKeys(c: Config, cpus: nat, es: seq<Event>)
    ensures OwnKeys(After(c, cpus, es))
  {
    if es != [] { AlwaysOwnKeys(c, cpus, es[..|es| - 1]); }
  }

  lemma EntryAdds(c: Config, t: Tables, e: Event, scope: Scope, key: Key, k: nat)
    requires k < COUNTERS && OwnKeys(t) && key in TableOf(Handle(c, t, e), scope)
    ensures Counters(TableOf(Handle(c, t, e), scope)[key])[k]
      == (if key in TableOf(t, scope) then Counters(TableOf(t, scope)[key])[k] else 0) + AddsUnder(c, e, key, k)
  {
    if e.Io? {
      ObservedIsAccounted(c, e.op);
      if Observed(c, e.op) {
        var o := e.op;
        if scope.OfProcesses? {
          CountInAdds(c, t.processes, Process(o.tgid, o.protocol), o, e.processRoom, key, k);
        } else if o.remote.Some? {
          CountInAdds(c, t.peers, Peer(o.tgid, o.protocol, o.remote.value), o, e.peerRoom, key, k);
        }
      }
    }
  }

  /** In every run each counter of each process's and each peer's entry is the sum over
      the operations of that process, protocol and peer since the entry was created. */
  lemma {:induction false} EntriesCountOperations(c: Config, cpus: nat, es: seq<Event>, scope: Scope, key: Key, k: nat)
    requires k < COUNTERS && key in Entries(c, cpus, es, scope)
    ensures Counters(Entries(c, cpus, es, scope)[key])[k]
      == SumSince(c, es, Born(c, cpus, es, scope, key), key, k)
  {
    var before, e := es[..|es| - 1], es[|es| - 1];
    AlwaysOwnKeys(c, cpus, before);
    EntryAdds(c, After(c, cpus, before), e, scope, key, k);
    FirstSeenAtBirth(c, cpus, es, scope, key);
    if key in Entries(c, cpus, before, scope) {
      EntriesCountOperations(c, cpus, before, scope, key, k);
      FirstSeenAtBirth(c, cpus, before, scope, key);
    }
  }

  lemma HostAdds(c: Config, t: Tables, e: Event, key: Key, k: nat)
    requires k < COUNTERS && OwnKeys(t) && key in t.host
    ensures key in Handle(c, t, e).host
    ensures Counters(Handle(c, t, e).host[key])[k] == Counters(t.host[key])[k] + AddsUnder(c, e, key, k)
  {
    if e.Io? {
      ObservedIsAccounted(c, e.op);
      if Observed(c, e.op) { CountInAdds(c, t.host, Host(e.op.cpu, e.op.protocol), e.op, false, key, k); }
    }
  }

  /** The same of each CPU's entry of the host, since loading. */
  lemma {:induction false} CpusCountOperations(c: Config, cpus: nat, es: seq<Event>, cpu: nat, p: Protocol, k: nat)
    requires k < COUNTERS && cpu < cpus
    ensures Host(cpu, p) in After(c, cpus, es).host
    ensures Counters(After(c, cpus, es).host[Host(cpu, p)])[k] == SumSince(c, es, 0, Host(cpu, p), k)
  {
    if es == [] {
      HostEntriesExist(cpus, cpu, p);
      ZeroCounters(0, k);
    } else {
      var before := es[..|es| - 1];
      CpusCountOperations(c, cpus, before, cpu, p, k);
      AlwaysOwnKeys(c, cpus, before);
      HostAdds(c, After(c, cpus, before), es[|es| - 1], Host(cpu, p), k);
    }
  }

  lemma HostTotalAdds(c: Config, t: Tables, e: Event, p: Protocol, k: nat)
    requires k < COUNTERS && (e.Io? ==> Host(e.op.cpu, e.op.protocol) in t.host)
    ensures Total(Handle(c, t, e).host, p, k)
      == Total(t.host, p, k) + if e.Io? && e.op.protocol == p && c.hostEnabled then Adds(c, e.op, k) else 0
  {
    if e.Io? {
      ObservedIsAccounted(c, e.op);
      if Observed(c, e.op) {
        AddsIsIncrement(c, e.op, k);
        TotalCounts(c, t.host, Host(e.op.cpu, e.op.protocol), e.op, false, p, k);
      }
    }
  }

  /** And so each host counter of a protocol is the sum over all its operations. */
  lemma {:induction false} HostCountsOperations(c: Config, cpus: nat, es: seq<Event>, p: Protocol, k: nat)
    requires k < COUNTERS && forall e | e in es && e.Io? :: e.op.cpu < cpus
    ensures Total(After(c, cpus, es).host, p, k) == SumOfOperations(c, es, p, k)
  {
    if es == [] {
      NothingYet(cpus, p, k);
    } else {
      var before, e := es[..|es| - 1], es[|es| - 1];
      assert forall x | x in before :: x in es;
      HostCountsOperations(c, cpus, before, p, k);
      if e.Io? {
        assert e in es;
        CpusCountOperations(c, cpus, before, e.op.cpu, e.op.protocol, k);
      }
      HostTotalAdds(c, After(c, cpus, before), e, p, k);
    }
  }
}
