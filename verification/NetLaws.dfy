/** The counters of the three scopes agree, and sampling them loses nothing. */
module NetLaws {
  import opened Basics
  import opened Sums
  import opened NetTrack
  import Deltas

  // ---------------------------------------------------------- scope agreement

  ghost function EntryOf(m: map<Key, NetStats>, p: Protocol, k: nat): Key -> int
    requires k < COUNTERS
  {
    key => if key in m && key.protocol == p then Counters(m[key])[k] else 0
  }

  /** Counter `k` of a protocol, summed over a table. */
  ghost function Total(m: map<Key, NetStats>, p: Protocol, k: nat): int
    requires k < COUNTERS
  {
    Sum(m.Keys, EntryOf(m, p, k))
  }

  lemma TotalCounts(c: Config, m: map<Key, NetStats>, key: Key, o: SocketOp, room: bool, p: Protocol, k: nat)
    requires k < COUNTERS && key.protocol == o.protocol
    ensures Total(CountIn(c, m, key, o, room), p, k)
      == Total(m, p, k) + if p == o.protocol && (key in m || room) then Increment(c, o, k) else 0
  {
    var m' := CountIn(c, m, key, o, room);
    SumChange(m.Keys, m'.Keys, EntryOf(m, p, k), EntryOf(m', p, k), key);
    if key in m {
      UpdateAdds(c, m[key], o, k);
    } else {
      UpdateAdds(c, ZERO.(firstSeen := o.now, lastSeen := o.now), o, k);
    }
  }

  lemma TotalEvicts(m: map<Key, NetStats>, key: Key, p: Protocol, k: nat)
    requires k < COUNTERS
    ensures Total(m - {key}, p, k) == Total(m, p, k) - EntryOf(m, p, k)(key)
  {
    SumChange(m.Keys, (m - {key}).Keys, EntryOf(m, p, k), EntryOf(m - {key}, p, k), key);
  }

  /** What the process table, respectively the peer table, loses with an event:
      evicted counts, and operations it has no room or no peer for. */
  ghost function LostToProcesses(c: Config, t: Tables, e: Event, p: Protocol, k: nat): int
    requires k < COUNTERS
  {
    match e
    case EvictProcess(key) => EntryOf(t.processes, p, k)(key)
    case EvictPeer(_) => 0
    case Io(o, room, _) =>
      if Accounted(c, o) && p == o.protocol && Process(o.tgid, o.protocol) !in t.processes && !room
      then Increment(c, o, k) else 0
  }

  ghost function LostToPeers(c: Config, t: Tables, e: Event, p: Protocol, k: nat): int
    requires k < COUNTERS
  {
    match e
    case EvictPeer(key) => EntryOf(t.peers, p, k)(key)
    case EvictProcess(_) => 0
    case Io(o, _, room) =>
      if Accounted(c, o) && p == o.protocol
         && (o.remote.None? || (Peer(o.tgid, o.protocol, o.remote.value) !in t.peers && !room))
      then Increment(c, o, k) else 0
  }

  ghost function ProcessLosses(c: Config, cpus: nat, es: seq<Event>, p: Protocol, k: nat): int
    requires k < COUNTERS
  {
    if es == [] then 0
    else
      var before := es[..|es| - 1];
      ProcessLosses(c, cpus, before, p, k) + LostToProcesses(c, After(c, cpus, before), es[|es| - 1], p, k)
  }

  ghost function PeerLosses(c: Config, cpus: nat, es: seq<Event>, p: Protocol, k: nat): int
    requires k < COUNTERS
  {
    if es == [] then 0
    else
      var before := es[..|es| - 1];
      PeerLosses(c, cpus, before, p, k) + LostToPeers(c, After(c, cpus, before), es[|es| - 1], p, k)
  }

  predicate AllScopes(c: Config) { c.hostEnabled && c.processEnabled && c.peerEnabled }

  lemma EventHost(c: Config, t: Tables, e: Event, p: Protocol, k: nat)
    requires AllScopes(c) && k < COUNTERS && (e.Io? ==> Host(e.op.cpu, e.op.protocol) in t.host)
    ensures Handle(c, t, e).host.Keys == t.host.Keys
    ensures Total(Handle(c, t, e).host, p, k)
      == Total(t.host, p, k) + if e.Io? && Accounted(c, e.op) && p == e.op.protocol then Increment(c, e.op, k) else 0
  {
    if e.Io? { TotalCounts(c, t.host, Host(e.op.cpu, e.op.protocol), e.op, false, p, k); }
  }

  lemma EventProcesses(c: Config, t: Tables, e: Event, p: Protocol, k: nat)
    requires AllScopes(c) && k < COUNTERS
    ensures LostToProcesses(c, t, e, p, k) >= 0
    ensures Total(Handle(c, t, e).processes, p, k) + LostToProcesses(c, t, e, p, k)
      == Total(t.processes, p, k)
         + if e.Io? && Accounted(c, e.op) && p == e.op.protocol then Increment(c, e.op, k) else 0
  {
    if e.EvictProcess? { TotalEvicts(t.processes, e.key, p, k); }
    if e.Io? { TotalCounts(c, t.processes, Process(e.op.tgid, e.op.protocol), e.op, e.processRoom, p, k); }
  }

  lemma EventPeers(c: Config, t: Tables, e: Event, p: Protocol, k: nat)
    requires AllScopes(c) && k < COUNTERS
    ensures LostToPeers(c, t, e, p, k) >= 0
    ensures Total(Handle(c, t, e).peers, p, k) + LostToPeers(c, t, e, p, k)
      == Total(t.peers, p, k) + if e.Io? && Accounted(c, e.op) && p == e.op.protocol then Increment(c, e.op, k) else 0
  {
    if e.EvictPeer? { TotalEvicts(t.peers, e.key, p, k); }
    if e.Io? && e.op.remote.Some? {
      TotalCounts(c, t.peers, Peer(e.op.tgid, e.op.protocol, e.op.remote.value), e.op, e.peerRoom, p, k);
    }
  }

  lemma HostEntriesExist(cpus: nat, cpu: nat, p: Protocol)
    requires cpu < cpus
    ensures Host(cpu, p) in Loaded(cpus).host
  {
    assert p in {Tcp, Udp};
    assert Host(cpu, p).cpu == cpu && Host(cpu, p).protocol == p;
  }

  lemma NothingYet(cpus: nat, p: Protocol, k: nat)
    requires k < COUNTERS
    ensures Total(Loaded(cpus).host, p, k) == 0 && Total(map[], p, k) == 0
  {
    var m := Loaded(cpus).host;
    SumEqual(m.Keys, EntryOf(m, p, k), _ => 0);
    SumOfZero(m.Keys);
  }

  lemma {:induction false} SumOfZero(s: set<Key>)
    ensures Sum(s, _ => 0) == 0
  {
    if s != {} {
      var x :| x in s;
      SumRemove(s, _ => 0, x);
      SumOfZero(s - {x});
    }
  }

  /** The scopes agree up to what was lost: in every run the host counter summed
      over CPUs is the sum of the process counters plus the process table's
      losses, and likewise for peers, so peers never exceed the host. */
  lemma {:induction false} ScopesAgree(c: Config, cpus: nat, es: seq<Event>, p: Protocol, k: nat)
    requires AllScopes(c) && k < COUNTERS && forall e | e in es && e.Io? :: e.op.cpu < cpus
    ensures var t := After(c, cpus, es);
      && t.host.Keys == Loaded(cpus).host.Keys
      && Total(t.host, p, k) == Total(t.processes, p, k) + ProcessLosses(c, cpus, es, p, k)
      && Total(t.host, p, k) == Total(t.peers, p, k) + PeerLosses(c, cpus, es, p, k)
      && ProcessLosses(c, cpus, es, p, k) >= 0 && PeerLosses(c, cpus, es, p, k) >= 0
  {
    if es == [] {
      NothingYet(cpus, p, k);
    } else {
      var before, e := es[..|es| - 1], es[|es| - 1];
      assert forall x | x in before :: x in es;
      ScopesAgree(c, cpus, before, p, k);
      if e.Io? {
        assert e in es;
        HostEntriesExist(cpus, e.op.cpu, e.op.protocol);
      }
      EventHost(c, After(c, cpus, before), e, p, k);
      EventProcesses(c, After(c, cpus, before), e, p, k);
      EventPeers(c, After(c, cpus, before), e, p, k);
    }
  }

  /** Without eviction and with room for every process, the host counter is the
      sum of the process counters, and the peers' at most that. */
  lemma {:induction false} NoLossWithoutEviction(c: Config, cpus: nat, es: seq<Event>, p: Protocol, k: nat)
    requires AllScopes(c) && k < COUNTERS && forall e | e in es :: e.Io? && e.op.cpu < cpus && e.processRoom
    ensures var t := After(c, cpus, es);
      Total(t.peers, p, k) <= Total(t.host, p, k) == Total(t.processes, p, k)
  {
    ScopesAgree(c, cpus, es, p, k);
    NoProcessLosses(c, cpus, es, p, k);
  }

  lemma {:induction false} NoProcessLosses(c: Config, cpus: nat, es: seq<Event>, p: Protocol, k: nat)
    requires k < COUNTERS && forall e | e in es :: e.Io? && e.processRoom
    ensures ProcessLosses(c, cpus, es, p, k) == 0
  {
    if es != [] {
      var before := es[..|es| - 1];
      assert forall x | x in before :: x in es;
      NoProcessLosses(c, cpus, before, p, k);
      assert es[|es| - 1] in es;
    }
  }

  // ---------------------------------------------------------------- sampling

  /** What was read of one key, in order. */
  function SamplesOf(rs: seq<Reading>, key: Key): seq<Deltas.Sample> {
    if rs == [] then []
    else SamplesOf(rs[..|rs| - 1], key) + if rs[|rs| - 1].key == key then [AsSample(rs[|rs| - 1].value)] else []
  }

  /** Counter `k` of one key, summed over changes. */
  function ComputedFor(changes: seq<Reading>, key: Key, k: nat): nat
    requires k < COUNTERS
  {
    if changes == [] then 0
    else
      var r := changes[|changes| - 1];
      ComputedFor(changes[..|changes| - 1], key, k) + if r.key == key then Counters(r.value)[k] else 0
  }

  function SampleFor(previous: Option<NetStats>): Option<Deltas.Sample> {
    if previous.None? then None else Some(AsSample(previous.value))
  }

  lemma {:induction false} LastSample(rs: seq<Reading>, key: Key)
    ensures Deltas.Last(SamplesOf(rs, key)) == SampleFor(PreviousOf(Remembered(map[], rs), key))
  {
    if rs != [] {
      LastSample(rs[..|rs| - 1], key);
      assert SamplesOf(rs[..|rs| - 1], key) + [] == SamplesOf(rs[..|rs| - 1], key);
    }
  }

  /** The sampler computes, for every key and counter, the differences of what it read. */
  lemma {:induction false} ComputedIsDeltas(rs: seq<Reading>, key: Key, k: nat)
    requires k < COUNTERS
    ensures ComputedFor(Changes(map[], rs), key, k) == Deltas.Reported(SamplesOf(rs, key), k)
  {
    if rs != [] {
      var before, r := rs[..|rs| - 1], rs[|rs| - 1];
      ComputedIsDeltas(before, key, k);
      var changes, samples := Changes(map[], rs), SamplesOf(rs, key);
      assert changes[..|changes| - 1] == Changes(map[], before);
      if r.key == key {
        assert samples[..|samples| - 1] == SamplesOf(before, key);
        LastSample(before, key);
        DeltaMatches(r.value, PreviousOf(Remembered(map[], before), key), k);
      } else {
        assert samples == SamplesOf(before, key);
      }
    }
  }

  lemma DeltaMatches(current: NetStats, previous: Option<NetStats>, k: nat)
    requires k < COUNTERS
    ensures Counters(DeltaOf(current, previous))[k]
      == Deltas.DeltaOf(AsSample(current), SampleFor(previous), k)
  {
  }

  // ------------------------------------------- kernel and user space together

  /** The two tables whose entries come and go. */
  datatype Scope = OfProcesses | OfPeers

  function TableOf(t: Tables, scope: Scope): map<Key, NetStats> {
    if scope.OfProcesses? then t.processes else t.peers
  }

  function Entries(c: Config, cpus: nat, es: seq<Event>, scope: Scope): map<Key, NetStats> {
    TableOf(After(c, cpus, es), scope)
  }

  lemma EntryStep(c: Config, t: Tables, e: Event, scope: Scope, key: Key, k: nat)
    requires k < COUNTERS && key in TableOf(Handle(c, t, e), scope)
    ensures var (m, s) := (TableOf(t, scope), TableOf(Handle(c, t, e), scope)[key]);
      if key in m then s.firstSeen == m[key].firstSeen && Counters(s)[k] >= Counters(m[key])[k]
      else e.Io? && s.firstSeen == e.op.now
  {
    if e.Io? && key in TableOf(t, scope) { UpdateAdds(c, TableOf(t, scope)[key], e.op, k); }
  }

  /** The number of events up to the one that created the present entry of a key. */
  function Born(c: Config, cpus: nat, es: seq<Event>, scope: Scope, key: Key): nat {
    if es == [] then 0
    else if key in Entries(c, cpus, es[..|es| - 1], scope) && key in Entries(c, cpus, es, scope)
    then Born(c, cpus, es[..|es| - 1], scope, key)
    else |es|
  }

  /** An entry's first-seen time is the reading of the operation that created it. */
  lemma {:induction false} FirstSeenAtBirth(c: Config, cpus: nat, es: seq<Event>, scope: Scope, key: Key)
    requires key in Entries(c, cpus, es, scope)
    ensures var b := Born(c, cpus, es, scope, key);
      0 < b <= |es| && es[b - 1].Io? && Entries(c, cpus, es, scope)[key].firstSeen == es[b - 1].op.now
  {
    var before := es[..|es| - 1];
    EntryStep(c, After(c, cpus, before), es[|es| - 1], scope, key, 0);
    if key in Entries(c, cpus, before, scope) { FirstSeenAtBirth(c, cpus, before, scope, key); }
  }

  /** Entries at two moments are one entry, which has then kept its first-seen time
      and only grown, or the later one was created in between. */
  lemma {:induction false} EntriesGrow(c: Config, cpus: nat, es: seq<Event>, i: nat, scope: Scope, key: Key, k: nat)
    requires i <= |es| && k < COUNTERS
    requires key in Entries(c, cpus, es[..i], scope) && key in Entries(c, cpus, es, scope)
    ensures var (a, b) := (Entries(c, cpus, es[..i], scope)[key], Entries(c, cpus, es, scope)[key]);
      if Born(c, cpus, es[..i], scope, key) == Born(c, cpus, es, scope, key)
      then a.firstSeen == b.firstSeen && Counters(a)[k] <= Counters(b)[k]
      else i < Born(c, cpus, es, scope, key)
  {
    if i == |es| {
      assert es[..i] == es;
    } else {
      var before := es[..|es| - 1];
      assert before[..i] == es[..i];
      EntryStep(c, After(c, cpus, before), es[|es| - 1], scope, key, k);
      FirstSeenAtBirth(c, cpus, es[..i], scope, key);
      if key in Entries(c, cpus, before, scope) { EntriesGrow(c, cpus, before, i, scope, key, k); }
    }
  }

  /** Moments at which an entry is read, in order. */
  predicate ReadTimes(c: Config, cpus: nat, es: seq<Event>, times: seq<nat>, scope: Scope, key: Key) {
    && (forall i | 0 <= i < |times| :: times[i] <= |es| && key in Entries(c, cpus, es[..times[i]], scope))
    && (forall i, j | 0 <= i < j < |times| :: times[i] <= times[j])
  }

  function ReadAt(c: Config, cpus: nat, es: seq<Event>, times: seq<nat>, scope: Scope, key: Key): seq<Deltas.Sample>
    requires ReadTimes(c, cpus, es, times, scope, key)
  {
    seq(|times|, i requires 0 <= i < |times| => AsSample(Entries(c, cpus, es[..times[i]], scope)[key]))
  }

  /** The same, each entry that ever was under a number of its own. */
  function LivesAt(c: Config, cpus: nat, es: seq<Event>, times: seq<nat>, scope: Scope, key: Key): seq<Deltas.Sample>
    requires ReadTimes(c, cpus, es, times, scope, key)
  {
    seq(|times|, i requires 0 <= i < |times| =>
      Deltas.Sample(Born(c, cpus, es[..times[i]], scope, key), Counters(Entries(c, cpus, es[..times[i]], scope)[key])))
  }

  lemma EntriesGrowBetween(c: Config, cpus: nat, es: seq<Event>, i: nat, j: nat, scope: Scope, key: Key, k: nat)
    requires i <= j <= |es| && k < COUNTERS
    requires key in Entries(c, cpus, es[..i], scope) && key in Entries(c, cpus, es[..j], scope)
    requires Born(c, cpus, es[..i], scope, key) == Born(c, cpus, es[..j], scope, key)
    ensures var (a, b) := (Entries(c, cpus, es[..i], scope)[key], Entries(c, cpus, es[..j], scope)[key]);
      a.firstSeen == b.firstSeen && Counters(a)[k] <= Counters(b)[k]
  {
    assert es[..j][..i] == es[..i];
    EntriesGrow(c, cpus, es[..j], i, scope, key, k);
  }

  lemma ReadsInARow(c: Config, cpus: nat, es: seq<Event>, times: seq<nat>, scope: Scope, key: Key, i: nat, k: nat)
    requires k < COUNTERS && ReadTimes(c, cpus, es, times, scope, key) && i + 1 < |times|
    ensures var (seen, lives) := (ReadAt(c, cpus, es, times, scope, key), LivesAt(c, cpus, es, times, scope, key));
      lives[i].generation == lives[i + 1].generation ==>
        && seen[i].generation == seen[i + 1].generation
        && Deltas.CounterOf(lives[i], k) <= Deltas.CounterOf(lives[i + 1], k)
  {
    if Born(c, cpus, es[..times[i]], scope, key) == Born(c, cpus, es[..times[i + 1]], scope, key) {
      EntriesGrowBetween(c, cpus, es, times[i], times[i + 1], scope, key, k);
    }
  }

  lemma SameCounters(c: Config, cpus: nat, es: seq<Event>, times: seq<nat>, scope: Scope, key: Key)
    requires ReadTimes(c, cpus, es, times, scope, key)
    ensures var (seen, lives) := (ReadAt(c, cpus, es, times, scope, key), LivesAt(c, cpus, es, times, scope, key));
      forall i | 0 <= i < |times| :: seen[i].counters == lives[i].counters
  {
  }

  lemma ReadsAreLives(c: Config, cpus: nat, es: seq<Event>, times: seq<nat>, scope: Scope, key: Key, k: nat)
    requires k < COUNTERS && ReadTimes(c, cpus, es, times, scope, key)
    ensures Deltas.Relabelled(ReadAt(c, cpus, es, times, scope, key), LivesAt(c, cpus, es, times, scope, key))
    ensures Deltas.MonotoneWithin(LivesAt(c, cpus, es, times, scope, key), k)
  {
    var seen, lives := ReadAt(c, cpus, es, times, scope, key), LivesAt(c, cpus, es, times, scope, key);
    SameCounters(c, cpus, es, times, scope, key);
    forall i: nat | i + 1 < |seen|
      ensures lives[i].generation == lives[i + 1].generation ==>
        seen[i].generation == seen[i + 1].generation
        && Deltas.CounterOf(lives[i], k) <= Deltas.CounterOf(lives[i + 1], k)
    {
      ReadsInARow(c, cpus, es, times, scope, key, i, k);
    }
  }

  /** End to end, for both tables: over every run with evictions and recreations,
      and however an entry is sampled, the reported changes never exceed what
      every entry of the key had counted when last read, and equal it if and only
      if no entry that had counted was taken for an earlier one that had. */
  lemma ReportsConserveCountsIff(c: Config, cpus: nat, es: seq<Event>, times: seq<nat>, scope: Scope, key: Key, k: nat)
    requires k < COUNTERS && ReadTimes(c, cpus, es, times, scope, key)
    ensures var (seen, lives) := (ReadAt(c, cpus, es, times, scope, key), LivesAt(c, cpus, es, times, scope, key));
      && Deltas.Reported(seen, k) <= Deltas.Counted(lives, k)
      && (Deltas.Reported(seen, k) == Deltas.Counted(lives, k) <==> Deltas.Harmless(seen, lives, k))
  {
    ReadsAreLives(c, cpus, es, times, scope, key, k);
    Deltas.ReportsAreExactIff(ReadAt(c, cpus, es, times, scope, key), LivesAt(c, cpus, es, times, scope, key), k);
  }

  // -------------------------------------- rounds of sampling a running kernel

  /** A sampling round: entries in the order they would be read, and how many changes
      the consumer takes before it refuses one, of which it takes the counters `partly`. */
  datatype Round = Round(rs: seq<Reading>, accepted: nat, partly: set<nat>)

  /** The readings of a round up to the one whose change is refused. */
  function Done(r: Round): seq<Reading> { if r.accepted < |r.rs| then r.rs[..r.accepted + 1] else r.rs }

  function SeenIn(rounds: seq<Round>): seq<Reading> {
    if rounds == [] then [] else SeenIn(rounds[..|rounds| - 1]) + Done(rounds[|rounds| - 1])
  }

  /** What the consumer takes of counter `k` of a key, respectively what it refuses. */
  function TakenOf(changes: seq<Reading>, accepted: nat, partly: set<nat>, key: Key, k: nat): nat
    requires k < COUNTERS
  {
    if changes == [] then 0
    else
      var (i, r) := (|changes| - 1, changes[|changes| - 1]);
      TakenOf(changes[..i], accepted, partly, key, k)
      + if r.key == key && (i < accepted || k in partly) then Counters(r.value)[k] else 0
  }

  function RefusedOf(changes: seq<Reading>, accepted: nat, partly: set<nat>, key: Key, k: nat): nat
    requires k < COUNTERS
  {
    if changes == [] then 0
    else
      var (i, r) := (|changes| - 1, changes[|changes| - 1]);
      RefusedOf(changes[..i], accepted, partly, key, k)
      + if r.key == key && !(i < accepted || k in partly) then Counters(r.value)[k] else 0
  }

  lemma {:induction false} TakenOrRefused(changes: seq<Reading>, accepted: nat, partly: set<nat>, key: Key, k: nat)
    requires k < COUNTERS
    ensures TakenOf(changes, accepted, partly, key, k) + RefusedOf(changes, accepted, partly, key, k)
      == ComputedFor(changes, key, k)
  {
    if changes != [] { TakenOrRefused(changes[..|changes| - 1], accepted, partly, key, k); }
  }

  /** The changes computed in the last of some rounds. */
  function LastChanges(rounds: seq<Round>): seq<Reading>
    requires rounds != []
  {
    Changes(Remembered(map[], SeenIn(rounds[..|rounds| - 1])), Done(rounds[|rounds| - 1]))
  }

  /** Everything the consumer was given of a counter, respectively refused. */
  function Delivered(rounds: seq<Round>, key: Key, k: nat): nat
    requires k < COUNTERS
  {
    if rounds == [] then 0
    else
      var r := rounds[|rounds| - 1];
      Delivered(rounds[..|rounds| - 1], key, k) + TakenOf(LastChanges(rounds), r.accepted, r.partly, key, k)
  }

  function Refused(rounds: seq<Round>, key: Key, k: nat): nat
    requires k < COUNTERS
  {
    if rounds == [] then 0
    else
      var r := rounds[|rounds| - 1];
      Refused(rounds[..|rounds| - 1], key, k) + RefusedOf(LastChanges(rounds), r.accepted, r.partly, key, k)
  }

  lemma {:induction false} RememberedSplit(previous: map<Key, NetStats>, a: seq<Reading>, b: seq<Reading>)
    ensures Remembered(Remembered(previous, a), b) == Remembered(previous, a + b)
  {
    if b == [] {
      assert a + b == a;
    } else {
      assert (a + b)[..|a + b| - 1] == a + b[..|b| - 1];
      RememberedSplit(previous, a, b[..|b| - 1]);
    }
  }

  lemma {:induction false} ChangesSplit(previous: map<Key, NetStats>, a: seq<Reading>, b: seq<Reading>)
    ensures Changes(previous, a + b) == Changes(previous, a) + Changes(Remembered(previous, a), b)
  {
    if b == [] {
      assert a + b == a;
    } else {
      assert (a + b)[..|a + b| - 1] == a + b[..|b| - 1];
      ChangesSplit(previous, a, b[..|b| - 1]);
      RememberedSplit(previous, a, b[..|b| - 1]);
    }
  }

  lemma {:induction false} ComputedAppend(a: seq<Reading>, b: seq<Reading>, key: Key, k: nat)
    requires k < COUNTERS
    ensures ComputedFor(a + b, key, k) == ComputedFor(a, key, k) + ComputedFor(b, key, k)
  {
    if b == [] {
      assert a + b == a;
    } else {
      ComputedAppend(a, b[..|b| - 1], key, k);
      assert (a + b)[..|a + b| - 1] == a + b[..|b| - 1];
    }
  }

  /** What is delivered and what is refused is all that is computed. */
  lemma {:induction false} DeliveredOrRefused(rounds: seq<Round>, key: Key, k: nat)
    requires k < COUNTERS
    ensures Delivered(rounds, key, k) + Refused(rounds, key, k) == ComputedFor(Changes(map[], SeenIn(rounds)), key, k)
  {
    if rounds != [] {
      var before, r := rounds[..|rounds| - 1], rounds[|rounds| - 1];
      DeliveredOrRefused(before, key, k);
      ChangesSplit(map[], SeenIn(before), Done(r));
      ComputedAppend(Changes(map[], SeenIn(before)), LastChanges(rounds), key, k);
      TakenOrRefused(LastChanges(rounds), r.accepted, r.partly, key, k);
    }
  }

  lemma OneChange(previous: map<Key, NetStats>, r: Reading)
    ensures Changes(previous, [r]) == [Reading(r.key, DeltaOf(r.value, PreviousOf(previous, r.key)))]
    ensures Remembered(previous, [r]) == previous[r.key := r.value]
  {
    assert [r][..0] == [];
  }

  lemma OneSent(change: Reading, accepted: nat, k: nat)
    requires k < COUNTERS
    ensures TakenOf([change], accepted, {}, change.key, k) == if accepted > 0 then Counters(change.value)[k] else 0
    ensures RefusedOf([change], accepted, {}, change.key, k) == if accepted > 0 then 0 else Counters(change.value)[k]
  {
    assert [change][..0] == [];
  }

  lemma OneMoreRound(rounds: seq<Round>, r: Reading, accepted: nat, k: nat)
    requires k < COUNTERS && accepted <= 1
    ensures var (more, change) := (rounds + [Round([r], accepted, {})],
                                   DeltaOf(r.value, PreviousOf(Remembered(map[], SeenIn(rounds)), r.key)));
      && SeenIn(more) == SeenIn(rounds) + [r]
      && Delivered(more, r.key, k) == Delivered(rounds, r.key, k) + (if accepted > 0 then Counters(change)[k] else 0)
      && Refused(more, r.key, k) == Refused(rounds, r.key, k) + (if accepted > 0 then 0 else Counters(change)[k])
  {
    assert (rounds + [Round([r], accepted, {})])[..|rounds|] == rounds;
    assert Done(Round([r], accepted, {})) == [r];
    OneChange(Remembered(map[], SeenIn(rounds)), r);
    OneSent(Reading(r.key, DeltaOf(r.value, PreviousOf(Remembered(map[], SeenIn(rounds)), r.key))), accepted, k);
  }

  /** A refused change is lost for good: read again, an entry that has not changed yields nothing. */
  lemma RefusedChangeIsLost(r: Reading, k: nat)
    requires k < COUNTERS
    ensures var rounds := [] + [Round([r], 0, {})] + [Round([r], 1, {})];
      Delivered(rounds, r.key, k) == 0 && Refused(rounds, r.key, k) == Counters(r.value)[k]
  {
    OneMoreRound([], r, 0, k);
    OneMoreRound([] + [Round([r], 0, {})], r, 1, k);
    OneChange(map[], r);
    assert SeenIn([] + [Round([r], 0, {})]) == [r];
    SameAgain(r.value, k);
  }

  lemma SameAgain(s: NetStats, k: nat)
    requires k < COUNTERS
    ensures Counters(DeltaOf(s, Some(s)))[k] == 0
  {
  }

  /** An entry read after `at` events of the kernel's run. */
  datatype Read = Read(at: nat, key: Key)

  /** Readings are taken one after the other, of entries that are there. */
  predicate ReadFrom(c: Config, cpus: nat, es: seq<Event>, scope: Scope, looks: seq<Read>, rs: seq<Reading>) {
    && |looks| == |rs|
    && (forall i | 0 <= i < |rs| ::
          && looks[i].at <= |es| && rs[i].key == looks[i].key
          && rs[i].key in Entries(c, cpus, es[..looks[i].at], scope)
          && rs[i].value == Entries(c, cpus, es[..looks[i].at], scope)[rs[i].key])
    && (forall i, j | 0 <= i < j < |looks| :: looks[i].at <= looks[j].at)
  }

  /** When one key was read. */
  function TimesOf(looks: seq<Read>, key: Key): seq<nat> {
    if looks == [] then []
    else
      var r := looks[|looks| - 1];
      TimesOf(looks[..|looks| - 1], key) + if r.key == key then [r.at] else []
  }

  lemma {:induction false} TimesBefore(looks: seq<Read>, key: Key, bound: nat)
    requires forall i | 0 <= i < |looks| :: looks[i].at <= bound
    ensures forall t | t in TimesOf(looks, key) :: t <= bound
  {
    if looks != [] { TimesBefore(looks[..|looks| - 1], key, bound); }
  }

  lemma LaterRead(c: Config, cpus: nat, es: seq<Event>, scope: Scope, key: Key, times: seq<nat>, t: nat)
    requires ReadTimes(c, cpus, es, times, scope, key) && t <= |es| && key in Entries(c, cpus, es[..t], scope)
    requires forall u | u in times :: u <= t
    ensures ReadTimes(c, cpus, es, times + [t], scope, key)
    ensures ReadAt(c, cpus, es, times + [t], scope, key)
      == ReadAt(c, cpus, es, times, scope, key) + [AsSample(Entries(c, cpus, es[..t], scope)[key])]
  {
    forall i, j | 0 <= i < j < |times + [t]| ensures (times + [t])[i] <= (times + [t])[j] {
      assert times[i] in times;
    }
  }

  /** What the sampler reads of a key is the sequence of that key's entries in the kernel. */
  lemma {:induction false} SamplesAreReads(c: Config, cpus: nat, es: seq<Event>, scope: Scope, looks: seq<Read>,
                                           rs: seq<Reading>, key: Key)
    requires ReadFrom(c, cpus, es, scope, looks, rs)
    ensures ReadTimes(c, cpus, es, TimesOf(looks, key), scope, key)
    ensures SamplesOf(rs, key) == ReadAt(c, cpus, es, TimesOf(looks, key), scope, key)
  {
    if looks != [] {
      var n := |looks| - 1;
      SamplesAreReads(c, cpus, es, scope, looks[..n], rs[..n], key);
      TimesBefore(looks[..n], key, looks[n].at);
      var before := TimesOf(looks[..n], key);
      if looks[n].key == key {
        LaterRead(c, cpus, es, scope, key, before, looks[n].at);
      } else {
        assert before + [] == before;
      }
    }
  }

  /** Kernel, sampler and consumer together: over every run with evictions and
      recreations, every sampling and every refusal, what the consumer was given of
      a counter never exceeds what every entry of the key had counted when last
      read, and equals it if and only if no entry that had counted was taken for an
      earlier one that had, and nothing but zeros was refused. */
  lemma DeliveredIsCountedIff(c: Config, cpus: nat, es: seq<Event>, scope: Scope, looks: seq<Read>, rounds: seq<Round>,
                              key: Key, k: nat)
    requires k < COUNTERS && ReadFrom(c, cpus, es, scope, looks, SeenIn(rounds))
    ensures ReadTimes(c, cpus, es, TimesOf(looks, key), scope, key)
    ensures var times := TimesOf(looks, key);
      var (seen, lives) := (ReadAt(c, cpus, es, times, scope, key), LivesAt(c, cpus, es, times, scope, key));
      && Delivered(rounds, key, k) + Refused(rounds, key, k) <= Deltas.Counted(lives, k)
      && (Delivered(rounds, key, k) == Deltas.Counted(lives, k)
          <==> Deltas.Harmless(seen, lives, k) && Refused(rounds, key, k) == 0)
  {
    SamplesAreReads(c, cpus, es, scope, looks, SeenIn(rounds), key);
    DeliveredOrRefused(rounds, key, k);
    ComputedIsDeltas(SeenIn(rounds), key, k);
    ReportsConserveCountsIff(c, cpus, es, TimesOf(looks, key), scope, key, k);
  }

  // -------------------------------------------------------------- the clock

  function Clock(es: seq<Event>): nat {
    if es == [] then 0 else if es[|es| - 1].Io? then es[|es| - 1].op.now else Clock(es[..|es| - 1])
  }

  /** The clock never runs backwards. */
  predicate Timed(es: seq<Event>) { es == [] || (Timed(es[..|es| - 1]) && Clock(es[..|es| - 1]) <= Clock(es)) }

  lemma {:induction false} ClockGrows(es: seq<Event>, i: nat)
    requires Timed(es) && i <= |es|
    ensures Timed(es[..i]) && Clock(es[..i]) <= Clock(es)
  {
    if i == |es| {
      assert es[..i] == es;
    } else {
      ClockGrows(es[..|es| - 1], i);
      assert es[..|es| - 1][..i] == es[..i];
    }
  }

  lemma ClockAt(es: seq<Event>, b: nat)
    requires Timed(es) && 0 < b <= |es| && es[b - 1].Io?
    ensures es[b - 1].op.now == Clock(es[..b]) <= Clock(es)
  {
    ClockGrows(es, b);
    assert es[..b][..b - 1] == es[..b - 1];
  }

  /** The entry of a key was recreated, after `i` events, at the very reading at
      which the entry of then was first seen. */
  predicate RecreatedAtOnce(c: Config, cpus: nat, es: seq<Event>, i: nat, scope: Scope, key: Key)
    requires i <= |es| && key in Entries(c, cpus, es[..i], scope) && key in Entries(c, cpus, es, scope)
  {
    var b := Born(c, cpus, es, scope, key);
    i < b <= |es| && es[b - 1].Io? && es[b - 1].op.now == Entries(c, cpus, es[..i], scope)[key].firstSeen
  }

  /** The sampler takes an entry for an earlier one if and only if it was
      recreated at the very reading of that one's first sight. */
  lemma MistakenIff(c: Config, cpus: nat, es: seq<Event>, i: nat, scope: Scope, key: Key)
    requires i <= |es| && key in Entries(c, cpus, es[..i], scope) && key in Entries(c, cpus, es, scope)
    ensures Entries(c, cpus, es[..i], scope)[key].firstSeen == Entries(c, cpus, es, scope)[key].firstSeen
        && Born(c, cpus, es[..i], scope, key) != Born(c, cpus, es, scope, key)
      <==> RecreatedAtOnce(c, cpus, es, i, scope, key)
  {
    EntriesGrow(c, cpus, es, i, scope, key, 0);
    FirstSeenAtBirth(c, cpus, es, scope, key);
    FirstSeenAtBirth(c, cpus, es[..i], scope, key);
  }

  /** On a clock that never runs backwards, the mistaken entry was first seen, read,
      evicted and recreated while the clock stood still. */
  lemma MistakenWithinOneReading(c: Config, cpus: nat, es: seq<Event>, i: nat, scope: Scope, key: Key)
    requires Timed(es) && i <= |es|
    requires key in Entries(c, cpus, es[..i], scope) && key in Entries(c, cpus, es, scope)
    requires RecreatedAtOnce(c, cpus, es, i, scope, key)
    ensures Entries(c, cpus, es[..i], scope)[key].firstSeen == Clock(es[..i])
      == Clock(es[..Born(c, cpus, es, scope, key)])
  {
    var a, b := Born(c, cpus, es[..i], scope, key), Born(c, cpus, es, scope, key);
    FirstSeenAtBirth(c, cpus, es[..i], scope, key);
    ClockGrows(es, i);
    ClockAt(es[..i], a);
    ClockAt(es, b);
    ClockGrows(es, b);
    ClockGrows(es[..b], i);
    assert es[..b][..i] == es[..i];
  }

  /** No entry that is read next was recreated at the reading of its read predecessor's first sight. */
  predicate NeverRecreatedAtOnce(c: Config, cpus: nat, es: seq<Event>, times: seq<nat>, scope: Scope, key: Key)
    requires ReadTimes(c, cpus, es, times, scope, key)
  {
    forall i: nat | i + 1 < |times| :: ReadApart(c, cpus, es, times, i, scope, key)
  }

  predicate ReadApart(c: Config, cpus: nat, es: seq<Event>, times: seq<nat>, i: nat, scope: Scope, key: Key)
    requires ReadTimes(c, cpus, es, times, scope, key) && i + 1 < |times|
  {
    assert es[..times[i + 1]][..times[i]] == es[..times[i]];
    !RecreatedAtOnce(c, cpus, es[..times[i + 1]], times[i], scope, key)
  }

  lemma ReadApartIff(c: Config, cpus: nat, es: seq<Event>, times: seq<nat>, i: nat, scope: Scope, key: Key)
    requires ReadTimes(c, cpus, es, times, scope, key) && i + 1 < |times|
    ensures ReadApart(c, cpus, es, times, i, scope, key) <==>
      Deltas.ToldApartAt(ReadAt(c, cpus, es, times, scope, key), LivesAt(c, cpus, es, times, scope, key), i)
  {
    assert es[..times[i + 1]][..times[i]] == es[..times[i]];
    MistakenIff(c, cpus, es[..times[i + 1]], times[i], scope, key);
  }

  /** The first-seen times tell the entries apart, over all reads, if and only if
      none was recreated at once. */
  lemma LivesToldApartIff(c: Config, cpus: nat, es: seq<Event>, times: seq<nat>, scope: Scope, key: Key)
    requires ReadTimes(c, cpus, es, times, scope, key)
    ensures NeverRecreatedAtOnce(c, cpus, es, times, scope, key) <==>
      Deltas.ToldApart(ReadAt(c, cpus, es, times, scope, key), LivesAt(c, cpus, es, times, scope, key))
  {
    var seen, lives := ReadAt(c, cpus, es, times, scope, key), LivesAt(c, cpus, es, times, scope, key);
    forall i: nat | i + 1 < |times|
      ensures ReadApart(c, cpus, es, times, i, scope, key) <==> Deltas.ToldApartAt(seen, lives, i)
    {
      ReadApartIff(c, cpus, es, times, i, scope, key);
    }
  }

  /** Then every counter is conserved. */
  lemma ReportsConserveCounts(c: Config, cpus: nat, es: seq<Event>, times: seq<nat>, scope: Scope, key: Key, k: nat)
    requires k < COUNTERS && ReadTimes(c, cpus, es, times, scope, key)
    requires NeverRecreatedAtOnce(c, cpus, es, times, scope, key)
    ensures Deltas.Reported(ReadAt(c, cpus, es, times, scope, key), k)
      == Deltas.Counted(LivesAt(c, cpus, es, times, scope, key), k)
  {
    LivesToldApartIff(c, cpus, es, times, scope, key);
    Deltas.ToldApartIsHarmless(ReadAt(c, cpus, es, times, scope, key), LivesAt(c, cpus, es, times, scope, key), k);
    ReportsConserveCountsIff(c, cpus, es, times, scope, key, k);
  }

  // ------------------------------------- a run that loses counts at one reading

  const EVERYTHING: Config := Config(true, true, true, true, true, true, true, true, true, true, false, {})

  function Send(bytes: nat): Event { Io(SocketOp(0, 7, Tcp, true, bytes, false, None, 5), true, true) }

  /** Ten bytes, a read, the eviction, three bytes, a read, all at reading 5. */
  function HastyRun(): seq<Event> { [Send(10), EvictProcess(Process(7, Tcp)), Send(3)] }

  lemma HastyTables(c: Config, t1: Tables, t2: Tables, t3: Tables)
    requires c == EVERYTHING && t1 == Handle(c, Loaded(1), Send(10))
    requires t2 == Handle(c, t1, EvictProcess(Process(7, Tcp))) && t3 == Handle(c, t2, Send(3))
    ensures var key := Process(7, Tcp);
      && key in t1.processes && t1.processes[key] == NetStats(10, 0, 1, 0, 0, 0, 0, 0, 0, 0, 5, 5)
      && key !in t2.processes
      && key in t3.processes && t3.processes[key] == NetStats(3, 0, 1, 0, 0, 0, 0, 0, 0, 0, 5, 5)
  {
  }

  lemma HastyEntries()
    ensures var (c, key, es) := (EVERYTHING, Process(7, Tcp), HastyRun());
      && key in Entries(c, 1, es[..1], OfProcesses) && key in Entries(c, 1, es[..3], OfProcesses)
      && Entries(c, 1, es[..1], OfProcesses)[key] == NetStats(10, 0, 1, 0, 0, 0, 0, 0, 0, 0, 5, 5)
      && Entries(c, 1, es[..3], OfProcesses)[key] == NetStats(3, 0, 1, 0, 0, 0, 0, 0, 0, 0, 5, 5)
      && Born(c, 1, es[..1], OfProcesses, key) == 1 && Born(c, 1, es[..3], OfProcesses, key) == 3
  {
    var c, es := EVERYTHING, HastyRun();
    assert es[..1][..0] == [] && es[..2][..1] == es[..1] && es[..3][..2] == es[..2];
    assert es[..1][0] == es[0] && es[..2][1] == es[1] && es[..3][2] == es[2];
    assert After(c, 1, []) == Loaded(1);
    HastyTables(c, After(c, 1, es[..1]), After(c, 1, es[..2]), After(c, 1, es[..3]));
  }

  /** The sums over two samples. */
  lemma TwoSamples(a: Deltas.Sample, b: Deltas.Sample, k: nat)
    ensures Deltas.Reported([a, b], k) == Deltas.CounterOf(a, k) + Deltas.DeltaOf(b, Some(a), k)
    ensures a.generation != b.generation ==>
        Deltas.Counted([a, b], k) == Deltas.CounterOf(a, k) + Deltas.CounterOf(b, k)
  {
    assert [a, b][..1] == [a] && [a][..0] == [];
    assert Deltas.Reported([a], k) == Deltas.CounterOf(a, k);
    assert Deltas.Counted([a], k) == Deltas.Superseded([], a.generation, k) + Deltas.CounterOf(a, k);
  }

  /** The clock never runs backwards in it, yet only ten of thirteen bytes are reported. */
  lemma HastyRunLosesCounts()
    ensures var (c, key, times) := (EVERYTHING, Process(7, Tcp), [1, 3]);
      && Timed(HastyRun()) && ReadTimes(c, 1, HastyRun(), times, OfProcesses, key)
      && !NeverRecreatedAtOnce(c, 1, HastyRun(), times, OfProcesses, key)
      && Deltas.Reported(ReadAt(c, 1, HastyRun(), times, OfProcesses, key), 0) == 10
      && Deltas.Counted(LivesAt(c, 1, HastyRun(), times, OfProcesses, key), 0) == 13
  {
    var c, key, times, es := EVERYTHING, Process(7, Tcp), [1, 3], HastyRun();
    HastyEntries();
    HastyRunIsTimed();
    var seen, lives := ReadAt(c, 1, es, times, OfProcesses, key), LivesAt(c, 1, es, times, OfProcesses, key);
    assert seen == [seen[0], seen[1]] && lives == [lives[0], lives[1]];
    TwoSamples(seen[0], seen[1], 0);
    TwoSamples(lives[0], lives[1], 0);
    LivesToldApartIff(c, 1, es, times, OfProcesses, key);
    assert !Deltas.ToldApartAt(seen, lives, 0);
  }

  lemma HastyRunIsTimed()
    ensures Timed(HastyRun())
  {
    var es := HastyRun();
    assert es[..2][..1] == es[..1] && es[..1][..0] == [];
    assert Timed(es[..1]) && Clock(es[..1]) == 5;
    assert Timed(es[..2]) && Clock(es[..2]) == 5;
  }

  // -------------------------------------------------------------------- host

  /** Per-CPU entries are never created or evicted, so they keep the first-seen
      time zero and host changes are always differences. */
  lemma {:induction false} HostHasOneGeneration(c: Config, cpus: nat, es: seq<Event>)
    ensures var m := After(c, cpus, es).host;
      m.Keys == Loaded(cpus).host.Keys && forall key | key in m :: m[key].firstSeen == 0
  {
    if es != [] { HostHasOneGeneration(c, cpus, es[..|es| - 1]); }
  }

  /** The entries of the first `n` CPUs. */
  function HostKeys(n: nat): set<Key> {
    if n == 0 then {} else HostKeys(n - 1) + {Host(n - 1, Tcp), Host(n - 1, Udp)}
  }

  lemma BothProtocols(cpu: nat, p: Protocol)
    ensures Host(cpu, p) in {Host(cpu, Tcp), Host(cpu, Udp)}
  {
    match p {
      case Tcp =>
      case Udp =>
    }
  }

  lemma {:induction false} HostKeysExact(n: nat)
    ensures forall key :: key in HostKeys(n) <==> key.Host? && key.cpu < n
  {
    if n > 0 {
      HostKeysExact(n - 1);
      forall key ensures key in HostKeys(n) <==> key.Host? && key.cpu < n {
        if key.Host? { BothProtocols(key.cpu, key.protocol); }
      }
    }
  }

  lemma HostTableKeys(c: Config, cpus: nat, es: seq<Event>)
    ensures After(c, cpus, es).host.Keys == HostKeys(cpus)
  {
    HostHasOneGeneration(c, cpus, es);
    HostKeysExact(cpus);
    forall key ensures key in Loaded(cpus).host.Keys <==> key in HostKeys(cpus) {
      if key.Host? && key.cpu < cpus { HostEntriesExist(cpus, key.cpu, key.protocol); }
    }
  }

  /** What `lookup_percpu` returns for a protocol: one value for each CPU. */
  function PerCpu(m: map<Key, NetStats>, p: Protocol, n: nat): (values: seq<NetStats>)
    requires HostKeys(n) <= m.Keys
    ensures |values| == n
  {
    if n == 0 then []
    else
      BothProtocols(n - 1, p);
      PerCpu(m, p, n - 1) + [m[Host(n - 1, p)]]
  }

  lemma SumOfTwo(s: set<Key>, f: Key -> int, a: Key, b: Key)
    requires a !in s && b !in s && a != b
    ensures Sum(s + {a, b}, f) == Sum(s, f) + f(a) + f(b)
  {
    SumRemove(s + {a, b}, f, a);
    SumRemove(s + {a, b} - {a}, f, b);
    assert s + {a, b} - {a} - {b} == s;
  }

  /** The two entries of one CPU hold one value of each protocol. */
  lemma OneCpu(m: map<Key, NetStats>, p: Protocol, cpu: nat, k: nat)
    requires k < COUNTERS && Host(cpu, Tcp) in m && Host(cpu, Udp) in m && Host(cpu, p) in m
    ensures EntryOf(m, p, k)(Host(cpu, Tcp)) + EntryOf(m, p, k)(Host(cpu, Udp)) == Counters(m[Host(cpu, p)])[k]
  {
    match p {
      case Tcp =>
      case Udp =>
    }
  }

  lemma NewHostKeys(n: nat)
    ensures Host(n, Tcp) !in HostKeys(n) && Host(n, Udp) !in HostKeys(n)
  {
    HostKeysExact(n);
  }

  lemma {:induction false} SumOfHostKeys(f: Key -> int, values: seq<NetStats>, k: nat)
    requires k < COUNTERS
    requires forall i: nat | i < |values| :: f(Host(i, Tcp)) + f(Host(i, Udp)) == Counters(values[i])[k]
    ensures Sum(HostKeys(|values|), f) == SumOf(values, k)
  {
    if values != [] {
      var n := |values| - 1;
      SumOfHostKeys(f, values[..n], k);
      NewHostKeys(n);
      SumOfTwo(HostKeys(n), f, Host(n, Tcp), Host(n, Udp));
    }
  }

  lemma {:induction false} PerCpuAt(m: map<Key, NetStats>, p: Protocol, n: nat, i: nat)
    requires HostKeys(n) <= m.Keys && i < n
    ensures Host(i, Tcp) in m && Host(i, Udp) in m && Host(i, p) in m && PerCpu(m, p, n)[i] == m[Host(i, p)]
  {
    BothProtocols(i, p);
    if i < n - 1 { PerCpuAt(m, p, n - 1, i); }
  }

  lemma SumOfPerCpu(m: map<Key, NetStats>, p: Protocol, n: nat, k: nat)
    requires k < COUNTERS && HostKeys(n) <= m.Keys
    ensures Sum(HostKeys(n), EntryOf(m, p, k)) == SumOf(PerCpu(m, p, n), k)
  {
    var f, values := EntryOf(m, p, k), PerCpu(m, p, n);
    forall i: nat | i < n ensures f(Host(i, Tcp)) + f(Host(i, Udp)) == Counters(values[i])[k] {
      PerCpuAt(m, p, n, i);
      OneCpu(m, p, i, k);
    }
    SumOfHostKeys(f, values, k);
  }

  /** What the sampler reads for the host is the host total of the laws above, up
      to the largest 64-bit number. */
  lemma HostTotalIsRead(c: Config, cpus: nat, es: seq<Event>, p: Protocol, k: nat)
    requires k < COUNTERS
    ensures HostKeys(cpus) <= After(c, cpus, es).host.Keys
    ensures Total(After(c, cpus, es).host, p, k) == SumOf(PerCpu(After(c, cpus, es).host, p, cpus), k)
    ensures AllZero(PerCpu(After(c, cpus, es).host, p, cpus))
  {
    var m := After(c, cpus, es).host;
    HostTableKeys(c, cpus, es);
    SumOfPerCpu(m, p, cpus, k);
    HostHasOneGeneration(c, cpus, es);
    PerCpuValues(m, p, cpus);
  }

  lemma {:induction false} PerCpuValues(m: map<Key, NetStats>, p: Protocol, n: nat)
    requires HostKeys(n) <= m.Keys && forall key | key in m :: m[key].firstSeen == 0
    ensures AllZero(PerCpu(m, p, n))
  {
    if n > 0 {
      HostKeysExact(n);
      PerCpuValues(m, p, n - 1);
    }
  }
}
