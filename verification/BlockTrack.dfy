/** The block-I/O tracepoint handlers of bpf/src/bpf/blocktrack.bpf.c, as a
    function on the tables they share. One handler is one step. */
module BlockTrack {
  import opened Basics

  const OPERATIONS: nat := 5
  const BUCKETS: nat := 32

  /** Load-time settings, and what the kernel says of a request: its device
      and operation do not change while it is in flight. */
  datatype Config = Config(
    operationMask: set<nat>, trackedDevices: set<nat>, filterEnabled: bool, requestTracking: bool,
    bytesEnabled: bool, operationsEnabled: bool, latencyEnabled: bool, saturationEnabled: bool,
    errorsEnabled: bool, deviceOf: nat -> nat, operationOf: nat -> nat)

  datatype Request = Request(
    firstSeen: nat, insertNs: nat, issueNs: nat, serviceNs: nat, bytes: nat, remaining: nat,
    requeues: nat, inserted: bool, issued: bool)

  datatype Depth = Depth(
    firstSeen: nat, lastUpdate: nat, busyNs: nat, saturatedNs: nat, inflightNs: nat, queuedNs: nat,
    inflight: nat, queued: nat, maxInflight: nat, maxQueued: nat)

  datatype OpStats = OpStats(
    bytes: nat, operations: nat, errors: nat, queueNs: nat, serviceNs: nat, totalNs: nat,
    serviceHistogram: seq<nat>, totalHistogram: seq<nat>)

  /** `ops` has one entry per operation. */
  datatype DeviceStats = DeviceStats(
    ops: seq<OpStats>, requeues: nat, lostRequests: nat, firstSeen: nat, lastSeen: nat)

  datatype Tables = Tables(
    requests: map<nat, Request>, depths: map<nat, Depth>, stats: map<nat, DeviceStats>)

  /** `room`: the request map, respectively the statistics map, accepts a new key. */
  datatype Event =
    | Insert(id: nat, now: nat, bytes: nat, room: bool, statsRoom: bool)
    | Merge(id: nat, bytes: nat)
    | Issue(id: nat, now: nat, bytes: nat, room: bool, statsRoom: bool)
    | Requeue(id: nat, now: nat, statsRoom: bool)
    | Complete(id: nat, now: nat, error: bool, bytes: nat, statsRoom: bool)

  predicate ShouldTrack(c: Config, id: nat) {
    && c.deviceOf(id) != 0 && c.operationOf(id) < OPERATIONS && c.operationOf(id) in c.operationMask
    && (c.filterEnabled ==> c.deviceOf(id) in c.trackedDevices)
  }

  // ------------------------------------------------------------ queue depth

  /** Charge the time since the last update to the current depths. */
  function Advance(d: Depth, now: nat): Depth {
    if d.lastUpdate != 0 && now > d.lastUpdate then
      var elapsed := now - d.lastUpdate;
      d.(busyNs := if d.inflight > 0 then d.busyNs + elapsed else d.busyNs,
         saturatedNs := if d.queued > 0 then d.saturatedNs + elapsed else d.saturatedNs,
         inflightNs := d.inflightNs + elapsed * d.inflight,
         queuedNs := d.queuedNs + elapsed * d.queued,
         lastUpdate := now)
    else d.(lastUpdate := now)
  }

  /** The inflight integral extended to time `t`. */
  function InflightUntil(d: Depth, t: nat): int { d.inflightNs + (t - d.lastUpdate) * d.inflight }

  /** Counters never go below zero. */
  function Shift(n: nat, delta: int): nat { if n + delta < 0 then 0 else n + delta }

  function ShiftDepth(d: Depth, queuedDelta: int, inflightDelta: int, now: nat): Depth {
    var a := Advance(d, now);
    var (q, i) := (Shift(d.queued, queuedDelta), Shift(d.inflight, inflightDelta));
    a.(queued := q, inflight := i, maxQueued := Max(d.maxQueued, q), maxInflight := Max(d.maxInflight, i))
  }

  /** The counters of an entry within their recorded maxima, as every handler leaves them. */
  predicate MaximaHold(d: Depth) { d.inflight <= d.maxInflight && d.queued <= d.maxQueued }

  function ShiftDepths(c: Config, depths: map<nat, Depth>, dev: nat, queuedDelta: int, inflightDelta: int, now: nat)
    : map<nat, Depth>
  {
    if c.saturationEnabled && dev in depths
    then depths[dev := ShiftDepth(depths[dev], queuedDelta, inflightDelta, now)]
    else depths
  }

  /** The depth tables after a request's flags changed, if they did. */
  function Moved(c: Config, depths: map<nat, Depth>, dev: nat, queuedDelta: int, inflightDelta: int, now: nat)
    : map<nat, Depth>
  {
    if queuedDelta == 0 && inflightDelta == 0 then depths
    else ShiftDepths(c, depths, dev, queuedDelta, inflightDelta, now)
  }

  // ------------------------------------------------------------- statistics

  function NoOps(): OpStats {
    OpStats(0, 0, 0, 0, 0, 0, seq(BUCKETS, _ => 0), seq(BUCKETS, _ => 0))
  }

  /** `get_device_stats`: the entry, created on first use if there is room. */
  function Touch(stats: map<nat, DeviceStats>, dev: nat, now: nat, room: bool): map<nat, DeviceStats> {
    if dev in stats then
      stats[dev := stats[dev].(firstSeen := if stats[dev].firstSeen == 0 then now else stats[dev].firstSeen)]
    else if room then stats[dev := DeviceStats(seq(OPERATIONS, _ => NoOps()), 0, 0, now, now)]
    else stats
  }

  function UpdateOp(s: DeviceStats, op: nat, o: OpStats): DeviceStats {
    if op < |s.ops| then s.(ops := s.ops[op := o]) else s
  }

  function OpOf(s: DeviceStats, op: nat): OpStats {
    if op < |s.ops| then s.ops[op] else NoOps()
  }

  function RecordBytes(c: Config, stats: map<nat, DeviceStats>, dev: nat, op: nat, bytes: nat, error: bool,
                       now: nat, room: bool): map<nat, DeviceStats>
  {
    if !c.bytesEnabled && (!c.errorsEnabled || !error) then stats
    else
      var t := Touch(stats, dev, now, room);
      if dev !in t then t
      else
        var o := OpOf(t[dev], op);
        t[dev := UpdateOp(t[dev], op,
                   o.(bytes := if c.bytesEnabled then o.bytes + bytes else o.bytes,
                      errors := if c.errorsEnabled && error then o.errors + 1 else o.errors))
                 .(lastSeen := now)]
  }

  /** One step of the search for the highest bit: if `m` has a bit at or above
      `k`, with `p` = 2^k, shift it away and count it. */
  function Narrow(mb: (nat, nat), p: nat, k: nat): (nat, nat)
    requires p > 0
  {
    if mb.0 >= p then (mb.0 / p, mb.1 + k) else mb
  }

  function HighestBit(m: nat): nat {
    Narrow(Narrow(Narrow(Narrow(Narrow((m, 0), 0x1_0000, 16), 0x100, 8), 0x10, 4), 4, 2), 2, 1).1
  }

  function LatencyBucket(latencyNs: nat): nat {
    var micros := latencyNs / 1000;
    if micros <= 1 then 0
    else if micros >= 0x8000_0000 then BUCKETS - 1
    else HighestBit(micros)
  }

  function Bump(histogram: seq<nat>, bucket: nat): (h: seq<nat>)
    ensures |h| == |histogram|
  {
    if bucket < |histogram| then histogram[bucket := histogram[bucket] + 1] else histogram
  }

  function AddLatencies(o: OpStats, queueNs: nat, serviceNs: nat, totalNs: nat): OpStats {
    o.(queueNs := o.queueNs + queueNs, serviceNs := o.serviceNs + serviceNs, totalNs := o.totalNs + totalNs,
       serviceHistogram := Bump(o.serviceHistogram, LatencyBucket(serviceNs)),
       totalHistogram := Bump(o.totalHistogram, LatencyBucket(totalNs)))
  }

  function RecordCompletion(c: Config, stats: map<nat, DeviceStats>, dev: nat, op: nat,
                            queueNs: nat, serviceNs: nat, totalNs: nat, now: nat, room: bool): map<nat, DeviceStats>
  {
    if !c.operationsEnabled && !c.latencyEnabled then stats
    else
      var t := Touch(stats, dev, now, room);
      if dev !in t then t
      else
        var o := OpOf(t[dev], op);
        var counted := if c.operationsEnabled then o.(operations := o.operations + 1) else o;
        t[dev := UpdateOp(t[dev], op, if c.latencyEnabled then AddLatencies(counted, queueNs, serviceNs, totalNs)
                                      else counted).(lastSeen := now)]
  }

  function CountLost(c: Config, stats: map<nat, DeviceStats>, dev: nat, now: nat, room: bool): map<nat, DeviceStats> {
    if !c.errorsEnabled then stats
    else
      var t := Touch(stats, dev, now, room);
      if dev in t then t[dev := t[dev].(lostRequests := t[dev].lostRequests + 1)] else t
  }

  function CountRequeue(c: Config, stats: map<nat, DeviceStats>, dev: nat, now: nat, room: bool): map<nat, DeviceStats>
  {
    if !c.errorsEnabled then stats
    else
      var t := Touch(stats, dev, now, room);
      if dev in t then t[dev := t[dev].(requeues := t[dev].requeues + 1)] else t
  }

  // ------------------------------------------------- the life of one request

  function NewRequest(now: nat, bytes: nat, inserted: bool): Request {
    Request(now, if inserted then now else 0, 0, 0, bytes, bytes, 0, inserted, false)
  }

  function InsertedAgain(r: Request, now: nat, bytes: nat): Request {
    var sized := r.(bytes := bytes, remaining := Max(r.remaining, bytes));
    if r.inserted || r.issued then sized else sized.(insertNs := now, inserted := true)
  }

  function Issued(r: Request, now: nat, bytes: nat): Request {
    r.(inserted := false, issued := true, issueNs := now, bytes := bytes,
       remaining := if r.remaining == 0 then bytes else r.remaining)
  }

  /** The attempt ends, provided time has passed since it was issued. */
  predicate EndsAttempt(r: Request, now: nat) { r.issued && now > r.issueNs }

  function AttemptEnded(r: Request, now: nat): Request {
    if EndsAttempt(r, now) then r.(serviceNs := r.serviceNs + (now - r.issueNs), issued := false) else r
  }

  function Requeued(r: Request, now: nat): Request {
    AttemptEnded(r, now).(requeues := r.requeues + 1, issueNs := 0)
  }

  /** A request as its completion leaves it, just before it is forgotten. */
  function Completed(r: Request, now: nat): Request {
    AttemptEnded(r, now).(inserted := false)
  }

  function TotalNs(r: Request, now: nat): nat { if now > r.firstSeen then now - r.firstSeen else 0 }

  function QueueNs(r: Request, now: nat): nat {
    if TotalNs(r, now) > r.serviceNs then TotalNs(r, now) - r.serviceNs else 0
  }

  // ---------------------------------------------------------------- handlers

  function Unit(b: bool): int { if b then 1 else 0 }

  /** A request as the map knows it; one not there yet is neither waiting nor in service. */
  function Known(reqs: map<nat, Request>, id: nat): Request {
    if id in reqs then reqs[id] else Request(0, 0, 0, 0, 0, 0, 0, false, false)
  }

  /** Store a request's new state and move its device's depths along with its flags. */
  function Put(c: Config, s: Tables, id: nat, r: Request, now: nat): Tables {
    var b := Known(s.requests, id);
    Tables(s.requests[id := r],
           Moved(c, s.depths, c.deviceOf(id), Unit(r.inserted) - Unit(b.inserted), Unit(r.issued) - Unit(b.issued),
                 now),
           s.stats)
  }

  function HandleInsert(c: Config, s: Tables, id: nat, now: nat, bytes: nat, room: bool, statsRoom: bool): Tables {
    if !c.requestTracking || !ShouldTrack(c, id) then s
    else if id in s.requests then Put(c, s, id, InsertedAgain(s.requests[id], now, bytes), now)
    else if room then Put(c, s, id, NewRequest(now, bytes, true), now)
    else s.(stats := CountLost(c, s.stats, c.deviceOf(id), now, statsRoom))
  }

  function HandleMerge(c: Config, s: Tables, id: nat, bytes: nat): Tables {
    if c.requestTracking && id in s.requests
    then s.(requests := s.requests[id := s.requests[id].(bytes := bytes, remaining := bytes)])
    else s
  }

  function HandleIssue(c: Config, s: Tables, id: nat, now: nat, bytes: nat, room: bool, statsRoom: bool): Tables {
    if !c.requestTracking || !ShouldTrack(c, id) then s
    else if id in s.requests then Put(c, s, id, Issued(s.requests[id], now, bytes), now)
    else if room then Put(c, s, id, Issued(NewRequest(now, bytes, false), now, bytes), now)
    else s.(stats := CountLost(c, s.stats, c.deviceOf(id), now, statsRoom))
  }

  function HandleRequeue(c: Config, s: Tables, id: nat, now: nat, statsRoom: bool): Tables {
    if (!c.errorsEnabled && !c.requestTracking) || !ShouldTrack(c, id) then s
    else
      var s1 := s.(stats := CountRequeue(c, s.stats, c.deviceOf(id), now, statsRoom));
      if !c.requestTracking || id !in s.requests then s1
      else Put(c, s1, id, Requeued(s.requests[id], now), now)
  }

  function HandleComplete(c: Config, s: Tables, id: nat, now: nat, error: bool, bytes: nat, statsRoom: bool): Tables {
    if !ShouldTrack(c, id) then s
    else
      var (dev, op) := (c.deviceOf(id), c.operationOf(id));
      var s1 := s.(stats := RecordBytes(c, s.stats, dev, op, bytes, error, now, statsRoom));
      if !c.requestTracking then s1
      else if id !in s.requests then s1.(stats := RecordCompletion(c, s1.stats, dev, op, 0, 0, 0, now, statsRoom))
      else
        var r := s.requests[id];
        if !error && bytes < r.remaining then s1.(requests := s.requests[id := r.(remaining := r.remaining - bytes)])
        else
          var f := Completed(r, now);
          Tables(s.requests - {id}, Put(c, s1, id, f, now).depths,
                 RecordCompletion(c, s1.stats, dev, op, QueueNs(f, now), f.serviceNs, TotalNs(f, now), now, statsRoom))
  }

  function Handle(c: Config, s: Tables, e: Event): Tables {
    match e
    case Insert(id, now, bytes, room, statsRoom) => HandleInsert(c, s, id, now, bytes, room, statsRoom)
    case Merge(id, bytes) => HandleMerge(c, s, id, bytes)
    case Issue(id, now, bytes, room, statsRoom) => HandleIssue(c, s, id, now, bytes, room, statsRoom)
    case Requeue(id, now, statsRoom) => HandleRequeue(c, s, id, now, statsRoom)
    case Complete(id, now, error, bytes, statsRoom) => HandleComplete(c, s, id, now, error, bytes, statsRoom)
  }

  // -------------------------------------------------------------------- runs

  /** The tables as user space sets them up: one idle depth entry per device
      of interest, stamped with the time of set-up. */
  predicate Initial(s: Tables, start: nat) {
    && start > 0 && s.requests == map[] && s.stats == map[]
    && forall dev | dev in s.depths :: s.depths[dev] == Depth(start, start, 0, 0, 0, 0, 0, 0, 0, 0)
  }

  function After(c: Config, s0: Tables, es: seq<Event>): Tables {
    if es == [] then s0 else Handle(c, After(c, s0, es[..|es| - 1]), es[|es| - 1])
  }

  /** The clock after an event, respectively after a run; merging reads no clock. */
  function ClockAfter(clock: nat, e: Event): nat { if e.Merge? then clock else e.now }

  function Clock(start: nat, es: seq<Event>): nat {
    if es == [] then start else ClockAfter(Clock(start, es[..|es| - 1]), es[|es| - 1])
  }

  /** The clock never runs backwards. */
  predicate Timed(start: nat, es: seq<Event>) {
    es == [] || (Timed(start, es[..|es| - 1]) && Clock(start, es[..|es| - 1]) <= Clock(start, es))
  }
}
