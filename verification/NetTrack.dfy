/** Network accounting: bpf/src/bpf/nettrack.bpf.c counts every socket operation
    once per scope (host, process, peer); bpf/src/nettrack.rs samples the counters. */
module NetTrack {
  import opened Basics
  import Deltas

  const EAGAIN: int := 11

  datatype Protocol = Tcp | Udp

  datatype NetStats = NetStats(
    sendBytes: nat, recvBytes: nat, sendOperations: nat, recvOperations: nat, sendErrors: nat, recvErrors: nat,
    sendWouldBlock: nat, recvWouldBlock: nat, tcpRecvEof: nat, udpRecvTruncated: nat, firstSeen: nat, lastSeen: nat)

  const ZERO: NetStats := NetStats(0, 0, 0, 0, 0, 0, 0, 0, 0, 0, 0, 0)

  /** Keys of the three tables. A peer's family, ports and address are one number here. */
  datatype Key =
    | Host(cpu: nat, protocol: Protocol)
    | Process(tgid: nat, protocol: Protocol)
    | Peer(tgid: nat, protocol: Protocol, remote: nat)

  datatype Config = Config(
    tcpEnabled: bool, udpEnabled: bool, sendEnabled: bool, receiveEnabled: bool,
    hostEnabled: bool, processEnabled: bool, peerEnabled: bool,
    bytesEnabled: bool, operationsEnabled: bool, errorsEnabled: bool, filterEnabled: bool, tgids: set<nat>)

  /** A finished socket operation; `remote` is the peer, if the message or the socket names one. */
  datatype SocketOp = SocketOp(cpu: nat, tgid: nat, protocol: Protocol, send: bool, ret: int, truncated: bool,
                               remote: Option<nat>, now: nat)

  // ---------------------------------------------------------------- counting

  predicate Accounted(c: Config, o: SocketOp) {
    && (if o.send then c.sendEnabled else c.receiveEnabled)
    && o.tgid != 0 && (c.filterEnabled ==> o.tgid in c.tgids)
    && (if o.protocol.Tcp? then c.tcpEnabled else c.udpEnabled)
  }

  /** `update_stats`. */
  function Updated(c: Config, s: NetStats, o: SocketOp): NetStats {
    var t := s.(lastSeen := o.now);
    if o.ret < 0 then
      if !c.errorsEnabled then t
      else if o.send then
        t.(sendErrors := s.sendErrors + 1,
           sendWouldBlock := if o.ret == -EAGAIN then s.sendWouldBlock + 1 else s.sendWouldBlock)
      else
        t.(recvErrors := s.recvErrors + 1,
           recvWouldBlock := if o.ret == -EAGAIN then s.recvWouldBlock + 1 else s.recvWouldBlock)
    else if o.send then
      t.(sendBytes := if c.bytesEnabled then s.sendBytes + o.ret else s.sendBytes,
         sendOperations := if c.operationsEnabled then s.sendOperations + 1 else s.sendOperations)
    else
      t.(recvBytes := if c.bytesEnabled then s.recvBytes + o.ret else s.recvBytes,
         recvOperations := if c.operationsEnabled then s.recvOperations + 1 else s.recvOperations,
         tcpRecvEof := if c.operationsEnabled && o.protocol.Tcp? && o.ret == 0 then s.tcpRecvEof + 1 else s.tcpRecvEof,
         udpRecvTruncated := if c.operationsEnabled && o.protocol.Udp? && o.truncated then s.udpRecvTruncated + 1
                             else s.udpRecvTruncated)
  }

  /** The ten counters, by number. */
  const COUNTERS: nat := 10

  function Counters(s: NetStats): (v: seq<nat>)
    ensures |v| == COUNTERS
  {
    [s.sendBytes, s.recvBytes, s.sendOperations, s.recvOperations, s.sendErrors, s.recvErrors,
     s.sendWouldBlock, s.recvWouldBlock, s.tcpRecvEof, s.udpRecvTruncated]
  }

  /** What an operation adds to counter `k`, in whatever entry it is counted. */
  function Increment(c: Config, o: SocketOp, k: nat): nat
    requires k < COUNTERS
  {
    Counters(Updated(c, ZERO, o))[k]
  }

  function Plus(s: NetStats, t: NetStats): NetStats {
    NetStats(s.sendBytes + t.sendBytes, s.recvBytes + t.recvBytes, s.sendOperations + t.sendOperations,
             s.recvOperations + t.recvOperations, s.sendErrors + t.sendErrors, s.recvErrors + t.recvErrors,
             s.sendWouldBlock + t.sendWouldBlock, s.recvWouldBlock + t.recvWouldBlock, s.tcpRecvEof + t.tcpRecvEof,
             s.udpRecvTruncated + t.udpRecvTruncated, s.firstSeen, t.lastSeen)
  }

  lemma UpdatedIsPlus(c: Config, s: NetStats, o: SocketOp)
    ensures Updated(c, s, o) == Plus(s, Updated(c, ZERO, o))
  {
  }

  lemma UpdateAdds(c: Config, s: NetStats, o: SocketOp, k: nat)
    requires k < COUNTERS
    ensures Counters(Updated(c, s, o))[k] == Counters(s)[k] + Increment(c, o, k)
    ensures Updated(c, s, o).firstSeen == s.firstSeen && Updated(c, s, o).lastSeen == o.now
  {
    UpdatedIsPlus(c, s, o);
  }

  /** The three tables. */
  datatype Tables = Tables(host: map<Key, NetStats>, processes: map<Key, NetStats>, peers: map<Key, NetStats>)

  /** Count an operation in the entry of a key, creating it if there is room. */
  function CountIn(c: Config, m: map<Key, NetStats>, key: Key, o: SocketOp, room: bool): map<Key, NetStats> {
    if key in m then m[key := Updated(c, m[key], o)]
    else if room then m[key := Updated(c, ZERO.(firstSeen := o.now, lastSeen := o.now), o)]
    else m
  }

  /** Socket operations, and the tables dropping their least recently used entries. */
  datatype Event =
    | Io(op: SocketOp, processRoom: bool, peerRoom: bool)
    | EvictProcess(key: Key)
    | EvictPeer(key: Key)

  /** `account_socket_io`. */
  function Handle(c: Config, t: Tables, e: Event): Tables {
    match e
    case EvictProcess(key) => t.(processes := t.processes - {key})
    case EvictPeer(key) => t.(peers := t.peers - {key})
    case Io(o, processRoom, peerRoom) =>
      if !Accounted(c, o) then t
      else
        Tables(if c.hostEnabled then CountIn(c, t.host, Host(o.cpu, o.protocol), o, false) else t.host,
               if c.processEnabled
               then CountIn(c, t.processes, Process(o.tgid, o.protocol), o, processRoom) else t.processes,
               if c.peerEnabled && o.remote.Some?
               then CountIn(c, t.peers, Peer(o.tgid, o.protocol, o.remote.value), o, peerRoom) else t.peers)
  }

  /** Loading: per-CPU entries exist from the start, all zero. */
  function Loaded(cpus: nat): Tables {
    Tables(map cpu, protocol | 0 <= cpu < cpus && protocol in {Tcp, Udp} :: Host(cpu, protocol) := ZERO, map[], map[])
  }

  function After(c: Config, cpus: nat, es: seq<Event>): Tables {
    if es == [] then Loaded(cpus) else Handle(c, After(c, cpus, es[..|es| - 1]), es[|es| - 1])
  }

  /** The programs as they run on the tables. */
  class SocketCounter {
    const cfg: Config
    var host: map<Key, NetStats>
    var processes: map<Key, NetStats>
    var peers: map<Key, NetStats>

    function Contents(): Tables
      reads this
    {
      Tables(host, processes, peers)
    }

    constructor (cfg: Config, cpus: nat)
      ensures this.cfg == cfg && Contents() == Loaded(cpus)
    {
      this.cfg := cfg;
      host := map cpu, protocol | 0 <= cpu < cpus && protocol in {Tcp, Udp} :: Host(cpu, protocol) := ZERO;
      processes, peers := map[], map[];
    }

    /** `update_stats`, field by field. */
    method UpdateStats(s: NetStats, o: SocketOp) returns (t: NetStats)
      ensures t == Updated(cfg, s, o)
    {
      t := s.(lastSeen := o.now);
      if o.ret < 0 {
        if !cfg.errorsEnabled {
          return;
        }
        if o.send {
          t := t.(sendErrors := t.sendErrors + 1);
          if o.ret == -EAGAIN { t := t.(sendWouldBlock := t.sendWouldBlock + 1); }
        } else {
          t := t.(recvErrors := t.recvErrors + 1);
          if o.ret == -EAGAIN { t := t.(recvWouldBlock := t.recvWouldBlock + 1); }
        }
        return;
      }
      if o.send {
        if cfg.bytesEnabled && o.ret > 0 { t := t.(sendBytes := t.sendBytes + o.ret); }
        if cfg.operationsEnabled { t := t.(sendOperations := t.sendOperations + 1); }
      } else {
        if cfg.bytesEnabled && o.ret > 0 { t := t.(recvBytes := t.recvBytes + o.ret); }
        if cfg.operationsEnabled {
          t := t.(recvOperations := t.recvOperations + 1);
          if o.protocol.Tcp? && o.ret == 0 { t := t.(tcpRecvEof := t.tcpRecvEof + 1); }
          if o.protocol.Udp? && o.truncated { t := t.(udpRecvTruncated := t.udpRecvTruncated + 1); }
        }
      }
    }

    /** `update_process_stats` and the end of `update_peer_stats`, on the table given. */
    method CountOperation(m: map<Key, NetStats>, key: Key, o: SocketOp, room: bool) returns (m': map<Key, NetStats>)
      ensures m' == CountIn(cfg, m, key, o, room)
    {
      if key in m {
        var s := UpdateStats(m[key], o);
        return m[key := s];
      }
      var initial := ZERO.(firstSeen := o.now, lastSeen := o.now);
      initial := UpdateStats(initial, o);
      if room {
        return m[key := initial];
      }
      return m;
    }

    /** The guards of `account_socket_io`. */
    method ShouldAccount(o: SocketOp) returns (b: bool)
      ensures b == Accounted(cfg, o)
    {
      if (o.send && !cfg.sendEnabled) || (!o.send && !cfg.receiveEnabled) {
        return false;
      }
      if o.tgid == 0 || (cfg.filterEnabled && o.tgid !in cfg.tgids) {
        return false;
      }
      return !((o.protocol.Tcp? && !cfg.tcpEnabled) || (o.protocol.Udp? && !cfg.udpEnabled));
    }

    method AccountSocketIo(o: SocketOp, processRoom: bool, peerRoom: bool)
      modifies this
      ensures Contents() == Handle(cfg, old(Contents()), Io(o, processRoom, peerRoom))
    {
      var accounted := ShouldAccount(o);
      if !accounted {
        return;
      }
      if cfg.hostEnabled {
        host := CountOperation(host, Host(o.cpu, o.protocol), o, false);
      }
      if cfg.processEnabled {
        processes := CountOperation(processes, Process(o.tgid, o.protocol), o, processRoom);
      }
      if cfg.peerEnabled && o.remote.Some? {
        peers := CountOperation(peers, Peer(o.tgid, o.protocol, o.remote.value), o, peerRoom);
      }
    }
  }

  // ---------------------------------------------------------------- sampling

  /** `StatsValue::accumulate`. */
  function Accumulate(s: NetStats, o: NetStats): NetStats {
    NetStats(SaturatingAdd(s.sendBytes, o.sendBytes), SaturatingAdd(s.recvBytes, o.recvBytes),
             SaturatingAdd(s.sendOperations, o.sendOperations), SaturatingAdd(s.recvOperations, o.recvOperations),
             SaturatingAdd(s.sendErrors, o.sendErrors), SaturatingAdd(s.recvErrors, o.recvErrors),
             SaturatingAdd(s.sendWouldBlock, o.sendWouldBlock), SaturatingAdd(s.recvWouldBlock, o.recvWouldBlock),
             SaturatingAdd(s.tcpRecvEof, o.tcpRecvEof), SaturatingAdd(s.udpRecvTruncated, o.udpRecvTruncated),
             if s.firstSeen == 0 || (o.firstSeen != 0 && o.firstSeen < s.firstSeen) then o.firstSeen else s.firstSeen,
             if s.lastSeen < o.lastSeen then o.lastSeen else s.lastSeen)
  }

  function SumOf(values: seq<NetStats>, k: nat): nat
    requires k < COUNTERS
  {
    if values == [] then 0 else SumOf(values[..|values| - 1], k) + Counters(values[|values| - 1])[k]
  }

  predicate AllZero(values: seq<NetStats>) { forall v | v in values :: v.firstSeen == 0 }

  /** `read_global`: the per-CPU values of one protocol added up, stopping at the
      largest 64-bit number. Entries without a first-seen time give a total without one. */
  method ReadGlobal(values: seq<NetStats>) returns (total: NetStats)
    ensures forall k | 0 <= k < COUNTERS ::
      Counters(total)[k] == if SumOf(values, k) > U64_MAX then U64_MAX else SumOf(values, k)
    ensures AllZero(values) ==> total.firstSeen == 0
  {
    total := ZERO;
    for i := 0 to |values|
      invariant forall k | 0 <= k < COUNTERS ::
        Counters(total)[k] == if SumOf(values[..i], k) > U64_MAX then U64_MAX else SumOf(values[..i], k)
      invariant AllZero(values) ==> total.firstSeen == 0
    {
      assert values[..i + 1][..i] == values[..i];
      var next := Accumulate(total, values[i]);
      forall k | 0 <= k < COUNTERS
        ensures Counters(next)[k] == SaturatingAdd(Counters(total)[k], Counters(values[i])[k])
      {
      }
      total := next;
    }
    assert values[..|values|] == values;
  }

  /** `StatsValue::delta`. */
  function DeltaOf(current: NetStats, previous: Option<NetStats>): NetStats {
    if previous.None? || previous.value.firstSeen != current.firstSeen then current
    else
      var p := previous.value;
      NetStats(SaturatingSub(current.sendBytes, p.sendBytes), SaturatingSub(current.recvBytes, p.recvBytes),
               SaturatingSub(current.sendOperations, p.sendOperations),
               SaturatingSub(current.recvOperations, p.recvOperations),
               SaturatingSub(current.sendErrors, p.sendErrors), SaturatingSub(current.recvErrors, p.recvErrors),
               SaturatingSub(current.sendWouldBlock, p.sendWouldBlock),
               SaturatingSub(current.recvWouldBlock, p.recvWouldBlock),
               SaturatingSub(current.tcpRecvEof, p.tcpRecvEof),
               SaturatingSub(current.udpRecvTruncated, p.udpRecvTruncated), current.firstSeen, current.lastSeen)
  }

  function AsSample(s: NetStats): Deltas.Sample { Deltas.Sample(s.firstSeen, Counters(s)) }

  /** A table entry as read in a sampling round. */
  datatype Reading = Reading(key: Key, value: NetStats)

  function PreviousOf(previous: map<Key, NetStats>, key: Key): Option<NetStats> {
    if key in previous then Some(previous[key]) else None
  }

  /** The previous-value table after a sequence of readings, and the changes they yield. */
  function Remembered(previous: map<Key, NetStats>, rs: seq<Reading>): map<Key, NetStats> {
    if rs == [] then previous else Remembered(previous, rs[..|rs| - 1])[rs[|rs| - 1].key := rs[|rs| - 1].value]
  }

  function Changes(previous: map<Key, NetStats>, rs: seq<Reading>): seq<Reading> {
    if rs == [] then []
    else
      var (before, r) := (rs[..|rs| - 1], rs[|rs| - 1]);
      Changes(previous, before) + [Reading(r.key, DeltaOf(r.value, PreviousOf(Remembered(previous, before), r.key)))]
  }

  /** The sampler of one scope, with its table of previous values. */
  class Sampler {
    var previous: map<Key, NetStats>

    constructor ()
      ensures previous == map[]
    {
      previous := map[];
    }

    /** The process part of `sample_host_and_processes`, and `sample_peers`: the
        consumer of the messages takes the changes of `accepted` readings and
        refuses a message of the next, which ends the round. That reading's change
        is computed, and its value remembered, all the same. */
    method SampleRound(rs: seq<Reading>, accepted: nat) returns (changes: seq<Reading>)
      modifies this
      ensures var n := if accepted < |rs| then accepted + 1 else |rs|;
        previous == Remembered(old(previous), rs[..n]) && changes == Changes(old(previous), rs[..n])
    {
      changes := [];
      for i := 0 to |rs|
        invariant i <= accepted
        invariant previous == Remembered(old(previous), rs[..i]) && changes == Changes(old(previous), rs[..i])
      {
        assert rs[..i + 1][..i] == rs[..i];
        var last := if rs[i].key in previous then Some(previous[rs[i].key]) else None;
        previous := previous[rs[i].key := rs[i].value];
        changes := changes + [Reading(rs[i].key, DeltaOf(rs[i].value, last))];
        if i == accepted {
          return;
        }
      }
    }
  }
}
