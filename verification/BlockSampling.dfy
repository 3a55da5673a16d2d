/** User-space side of the block tracker (bpf/src/blocktrack.rs): lazy depth
    snapshots and their differences. */
module BlockSampling {
  import opened Basics
  import opened BlockTrack
  import Deltas
  import Words

  // --------------------------------------------------------------- snapshots

  datatype Snapshot = Snapshot(firstSeen: nat, busyNs: nat, saturatedNs: nat, inflightNs: nat, queuedNs: nat,
                               inflight: nat, queued: nat, maxInflight: nat, maxQueued: nat)

  /** `DeviceDepth::snapshot`. */
  function TakeSnapshot(d: Depth, now: nat): Snapshot {
    var elapsed := SaturatingSub(now, d.lastUpdate);
    Snapshot(d.firstSeen,
             SaturatingAdd(d.busyNs, if d.inflight > 0 then elapsed else 0),
             SaturatingAdd(d.saturatedNs, if d.queued > 0 then elapsed else 0),
             SaturatingAdd(d.inflightNs, SaturatingMul(elapsed, d.inflight)),
             SaturatingAdd(d.queuedNs, SaturatingMul(elapsed, d.queued)),
             d.inflight, d.queued, d.maxInflight, d.maxQueued)
  }

  /** A depth entry read directly. */
  function ReadOff(d: Depth): Snapshot {
    Snapshot(d.firstSeen, d.busyNs, d.saturatedNs, d.inflightNs, d.queuedNs, d.inflight, d.queued, d.maxInflight,
             d.maxQueued)
  }

  /** A depth entry's sums as the kernel holds them: 64 bits that wrap. */
  function Wrapped(d: Depth): Depth {
    d.(busyNs := d.busyNs % Words.U64, saturatedNs := d.saturatedNs % Words.U64,
       inflightNs := d.inflightNs % Words.U64, queuedNs := d.queuedNs % Words.U64)
  }

  /** A sum the snapshot stops at the largest number and the kernel wraps comes out
      alike: it fits, or wraps to just that number. */
  predicate SameEitherWay(n: nat) { n <= U64_MAX || n % Words.U64 == U64_MAX }

  predicate SumsSameEitherWay(d: Depth) {
    && SameEitherWay(d.busyNs) && SameEitherWay(d.saturatedNs)
    && SameEitherWay(d.inflightNs) && SameEitherWay(d.queuedNs)
  }

  /** None of the entry's sums has reached the end of its range. */
  predicate BelowU64(d: Depth) {
    d.busyNs < U64_MAX && d.saturatedNs < U64_MAX && d.inflightNs < U64_MAX && d.queuedNs < U64_MAX
  }

  /** What a snapshot and a zero update make of a sum: `more` is what the time passed adds. */
  predicate SumAgrees(n: nat, more: nat) { SaturatingAdd(n, Min(more, U64_MAX)) == (n + more) % Words.U64 }

  lemma CappedTwice(n: nat, more: nat)
    ensures SaturatingAdd(n, Min(more, U64_MAX)) == SaturatingAdd(n, more)
  {
  }

  lemma SumAgreesIff(n: nat, more: nat)
    requires n < U64_MAX
    ensures SumAgrees(n, more) <==> SameEitherWay(n + more)
  {
    CappedTwice(n, more);
    if n + more <= U64_MAX { assert (n + more) % Words.U64 == n + more; }
  }

  /** What the time passed adds to each of an entry's sums. */
  datatype Charge = Charge(busy: nat, saturated: nat, inflight: nat, queued: nat)

  function ChargeOf(d: Depth, elapsed: nat): Charge {
    Charge(if d.inflight > 0 then elapsed else 0, if d.queued > 0 then elapsed else 0,
           elapsed * d.inflight, elapsed * d.queued)
  }

  lemma ChargesAgreeIff(d: Depth, more: Charge)
    requires BelowU64(d)
    ensures SumAgrees(d.busyNs, more.busy) && SumAgrees(d.saturatedNs, more.saturated)
        && SumAgrees(d.inflightNs, more.inflight) && SumAgrees(d.queuedNs, more.queued)
      <==> SameEitherWay(d.busyNs + more.busy) && SameEitherWay(d.saturatedNs + more.saturated)
           && SameEitherWay(d.inflightNs + more.inflight) && SameEitherWay(d.queuedNs + more.queued)
  {
    SumAgreesIff(d.busyNs, more.busy);
    SumAgreesIff(d.saturatedNs, more.saturated);
    SumAgreesIff(d.inflightNs, more.inflight);
    SumAgreesIff(d.queuedNs, more.queued);
  }

  lemma ChargesAreSums(d: Depth, now: nat, more: Charge)
    requires 0 < d.lastUpdate < now && more == ChargeOf(d, now - d.lastUpdate)
    ensures Advance(d, now) == d.(busyNs := d.busyNs + more.busy, saturatedNs := d.saturatedNs + more.saturated,
                                  inflightNs := d.inflightNs + more.inflight, queuedNs := d.queuedNs + more.queued,
                                  lastUpdate := now)
  {
  }

  lemma ChargesAreSnapshots(d: Depth, now: nat, more: Charge)
    requires d.lastUpdate < now && more == ChargeOf(d, now - d.lastUpdate)
    ensures TakeSnapshot(d, now)
      == ReadOff(d).(busyNs := SaturatingAdd(d.busyNs, Min(more.busy, U64_MAX)),
                     saturatedNs := SaturatingAdd(d.saturatedNs, Min(more.saturated, U64_MAX)),
                     inflightNs := SaturatingAdd(d.inflightNs, Min(more.inflight, U64_MAX)),
                     queuedNs := SaturatingAdd(d.queuedNs, Min(more.queued, U64_MAX)))
  {
    CappedTwice(d.busyNs, more.busy);
    CappedTwice(d.saturatedNs, more.saturated);
  }

  /** An entry that was ever stamped, some time ago. */
  lemma StampedAgreesIff(d: Depth, now: nat)
    requires BelowU64(d) && MaximaHold(d) && 0 < d.lastUpdate < now
    ensures TakeSnapshot(d, now) == ReadOff(Wrapped(ShiftDepth(d, 0, 0, now))) <==> SumsSameEitherWay(Advance(d, now))
  {
    var more := ChargeOf(d, now - d.lastUpdate);
    ChargesAreSums(d, now, more);
    ChargesAreSnapshots(d, now, more);
    ChargesAgreeIff(d, more);
  }

  /** An entry to which nothing is to be charged, or that was never stamped. */
  lemma UnchargedAgreesIff(d: Depth, now: nat)
    requires BelowU64(d) && MaximaHold(d) && (d.lastUpdate == 0 || now <= d.lastUpdate)
    ensures SumsSameEitherWay(Advance(d, now))
    ensures TakeSnapshot(d, now) == ReadOff(Wrapped(ShiftDepth(d, 0, 0, now)))
      <==> d.lastUpdate != 0 || now == 0 || (d.inflight == 0 && d.queued == 0)
  {
    assert Wrapped(d) == d;
    if d.lastUpdate == 0 && now > 0 && d.inflight + d.queued > 0 {
      assert TakeSnapshot(d, now).busyNs > d.busyNs || TakeSnapshot(d, now).saturatedNs > d.saturatedNs;
    }
  }

  /** The lazy snapshot is what an update of the entry at that moment would
      leave, exactly if every sum fits 64 bits or happens to wrap to the largest
      number, and the entry was ever stamped (or is idle, or no time has passed). */
  lemma SnapshotAgreesIff(d: Depth, now: nat)
    requires BelowU64(d) && MaximaHold(d)
    ensures TakeSnapshot(d, now) == ReadOff(Wrapped(ShiftDepth(d, 0, 0, now)))
      <==> SumsSameEitherWay(Advance(d, now))
           && (d.lastUpdate != 0 || now == 0 || (d.inflight == 0 && d.queued == 0))
  {
    if 0 < d.lastUpdate < now { StampedAgreesIff(d, now); } else { UnchargedAgreesIff(d, now); }
  }

  // ------------------------------------------------- samples over a whole run

  /** Busy time, respectively saturated time, extended to `t`. */
  function BusyUntil(d: Depth, t: nat): int { d.busyNs + if d.inflight > 0 then t - d.lastUpdate else 0 }

  function SaturatedUntil(d: Depth, t: nat): int { d.saturatedNs + if d.queued > 0 then t - d.lastUpdate else 0 }

  /** The queue integral, extended to `t`. */
  function QueuedUntil(d: Depth, t: nat): int { d.queuedNs + (t - d.lastUpdate) * d.queued }

  /** Between two moments of one entry the extended sums grow, the busy and
      saturated times by no more than the time between. */
  ghost predicate GrowsWithin(d: Depth, t: nat, d': Depth, t': nat) {
    && d'.firstSeen == d.firstSeen
    && 0 <= BusyUntil(d', t') - BusyUntil(d, t) <= t' - t
    && 0 <= SaturatedUntil(d', t') - SaturatedUntil(d, t) <= t' - t
    && InflightUntil(d, t) <= InflightUntil(d', t') && QueuedUntil(d, t) <= QueuedUntil(d', t')
  }

  lemma ProductGrows(a: nat, b: nat, n: nat)
    requires a <= b
    ensures 0 <= a * n <= b * n
  {
    assert b * n == a * n + (b - a) * n;
  }

  ghost predicate Stamped(s: Tables, dev: nat, clock: nat) {
    dev in s.depths && 0 < s.depths[dev].lastUpdate <= clock && MaximaHold(s.depths[dev])
  }

  lemma ShiftGrowsWithin(d: Depth, queuedDelta: int, inflightDelta: int, clock: nat, now: nat)
    requires 0 < d.lastUpdate <= clock <= now && MaximaHold(d)
    ensures var d' := ShiftDepth(d, queuedDelta, inflightDelta, now);
      MaximaHold(d') && d'.lastUpdate == now && GrowsWithin(d, clock, d', now)
  {
    ProductGrows(clock - d.lastUpdate, now - d.lastUpdate, d.inflight);
    ProductGrows(clock - d.lastUpdate, now - d.lastUpdate, d.queued);
  }

  lemma PutDepthsOnly(c: Config, s: Tables, stats': map<nat, DeviceStats>, id: nat, r: Request, now: nat)
    ensures Put(c, s.(stats := stats'), id, r, now).depths == Put(c, s, id, r, now).depths
  {
  }

  lemma CompleteDepths(c: Config, s: Tables, e: Event)
    requires e.Complete?
    ensures var f := Completed(Known(s.requests, e.id), e.now);
      || Handle(c, s, e).depths == s.depths
      || Handle(c, s, e).depths == Put(c, s, e.id, f, e.now).depths
  {
    if ShouldTrack(c, e.id) && c.requestTracking && e.id in s.requests
       && (e.error || e.bytes >= s.requests[e.id].remaining) {
      var stats1 := RecordBytes(c, s.stats, c.deviceOf(e.id), c.operationOf(e.id), e.bytes, e.error, e.now,
                                e.statsRoom);
      PutDepthsOnly(c, s, stats1, e.id, Completed(s.requests[e.id], e.now), e.now);
    }
  }

  /** The depths are unchanged, or moved along with the event's request. */
  predicate DepthsFollow(c: Config, s: Tables, id: nat, now: nat, s': Tables) {
    s'.depths == s.depths || (id in s'.requests && s'.depths == Put(c, s, id, s'.requests[id], now).depths)
  }

  lemma InsertDepths(c: Config, s: Tables, id: nat, now: nat, bytes: nat, room: bool, statsRoom: bool)
    ensures DepthsFollow(c, s, id, now, HandleInsert(c, s, id, now, bytes, room, statsRoom))
  {
  }

  lemma IssueDepths(c: Config, s: Tables, id: nat, now: nat, bytes: nat, room: bool, statsRoom: bool)
    ensures DepthsFollow(c, s, id, now, HandleIssue(c, s, id, now, bytes, room, statsRoom))
  {
  }

  lemma RequeueDepths(c: Config, s: Tables, id: nat, now: nat, statsRoom: bool)
    ensures DepthsFollow(c, s, id, now, HandleRequeue(c, s, id, now, statsRoom))
  {
  }

  lemma OtherDepths(c: Config, s: Tables, e: Event)
    requires !e.Complete? && !e.Merge?
    ensures DepthsFollow(c, s, e.id, e.now, Handle(c, s, e))
  {
    match e {
      case Insert(id, now, bytes, room, statsRoom) => InsertDepths(c, s, id, now, bytes, room, statsRoom);
      case Issue(id, now, bytes, room, statsRoom) => IssueDepths(c, s, id, now, bytes, room, statsRoom);
      case Requeue(id, now, statsRoom) => RequeueDepths(c, s, id, now, statsRoom);
    }
  }

  /** A handler moves depths by at most one step of one device. */
  lemma HandlerDepths(c: Config, s: Tables, e: Event) returns (shifts: bool, queuedDelta: int, inflightDelta: int)
    ensures !e.Merge? && shifts ==>
      Handle(c, s, e).depths == ShiftDepths(c, s.depths, c.deviceOf(e.id), queuedDelta, inflightDelta, e.now)
    ensures e.Merge? || !shifts ==> Handle(c, s, e).depths == s.depths
  {
    shifts := Handle(c, s, e).depths != s.depths;
    var b := Known(s.requests, e.id);
    var r;
    if e.Complete? {
      CompleteDepths(c, s, e);
      r := Completed(b, e.now);
    } else if e.Merge? {
      r := b;
    } else {
      OtherDepths(c, s, e);
      r := Known(Handle(c, s, e).requests, e.id);
    }
    queuedDelta, inflightDelta := Unit(r.inserted) - Unit(b.inserted), Unit(r.issued) - Unit(b.issued);
  }

  lemma StillGrowsWithin(d: Depth, clock: nat, now: nat)
    requires d.lastUpdate <= clock <= now
    ensures GrowsWithin(d, clock, d, now)
  {
    ProductGrows(clock - d.lastUpdate, now - d.lastUpdate, d.inflight);
    ProductGrows(clock - d.lastUpdate, now - d.lastUpdate, d.queued);
  }

  lemma DepthsGrowWithin(c: Config, depths: map<nat, Depth>, dev: nat, depths': map<nat, Depth>, shifts: bool, own: nat,
                         queuedDelta: int, inflightDelta: int, clock: nat, now: nat)
    requires dev in depths && 0 < depths[dev].lastUpdate <= clock <= now && MaximaHold(depths[dev])
    requires depths' == if shifts then ShiftDepths(c, depths, own, queuedDelta, inflightDelta, now) else depths
    ensures dev in depths' && 0 < depths'[dev].lastUpdate <= now && MaximaHold(depths'[dev])
    ensures GrowsWithin(depths[dev], clock, depths'[dev], now)
  {
    if depths'[dev] == depths[dev] {
      StillGrowsWithin(depths[dev], clock, now);
    } else {
      ShiftGrowsWithin(depths[dev], queuedDelta, inflightDelta, clock, now);
    }
  }

  lemma HandlerGrowsWithin(c: Config, s: Tables, e: Event, dev: nat, clock: nat)
    requires Stamped(s, dev, clock) && clock <= ClockAfter(clock, e)
    ensures Stamped(Handle(c, s, e), dev, ClockAfter(clock, e))
    ensures GrowsWithin(s.depths[dev], clock, Handle(c, s, e).depths[dev], ClockAfter(clock, e))
  {
    var shifts, q, i := HandlerDepths(c, s, e);
    DepthsGrowWithin(c, s.depths, dev, Handle(c, s, e).depths, shifts && !e.Merge?, c.deviceOf(e.id), q, i,
                     clock, ClockAfter(clock, e));
  }

  lemma {:induction false} RunGrowsWithin(c: Config, s: Tables, t0: nat, es: seq<Event>, dev: nat)
    requires Stamped(s, dev, t0) && Timed(t0, es)
    ensures Stamped(After(c, s, es), dev, Clock(t0, es))
    ensures GrowsWithin(s.depths[dev], t0, After(c, s, es).depths[dev], Clock(t0, es))
  {
    if es != [] {
      var before, e := es[..|es| - 1], es[|es| - 1];
      RunGrowsWithin(c, s, t0, before, dev);
      HandlerGrowsWithin(c, After(c, s, before), e, dev, Clock(t0, before));
    }
  }

  /** A first sample is taken at `t0` some time after the events `es`, a second
      at `t1` after the further events `more`: the busy and the saturated
      difference are at most the time between the two samples. */
  lemma DifferencesWithinElapsed(c: Config, s0: Tables, start: nat, es: seq<Event>, t0: nat, more: seq<Event>, t1: nat,
                                 dev: nat)
    requires Initial(s0, start) && dev in s0.depths && Timed(start, es) && Clock(start, es) <= t0
    requires Timed(t0, more) && Clock(t0, more) <= t1
    ensures var s := After(c, s0, es);
      dev in s.depths && dev in After(c, s, more).depths
      && var (a, b) := (TakeSnapshot(s.depths[dev], t0), TakeSnapshot(After(c, s, more).depths[dev], t1));
         && SaturatingSub(b.busyNs, a.busyNs) <= t1 - t0
         && SaturatingSub(b.saturatedNs, a.saturatedNs) <= t1 - t0
  {
    RunGrowsWithin(c, s0, start, es, dev);
    var s := After(c, s0, es);
    RunGrowsWithin(c, s, t0, more, dev);
    SnapshotDifference(s.depths[dev], t0, After(c, s, more).depths[dev], Clock(t0, more), t1);
  }

  lemma SnapshotDifference(d: Depth, t0: nat, d': Depth, clock: nat, t1: nat)
    requires d.lastUpdate <= t0 <= clock <= t1 && d'.lastUpdate <= clock && GrowsWithin(d, t0, d', clock)
    ensures SaturatingSub(TakeSnapshot(d', t1).busyNs, TakeSnapshot(d, t0).busyNs) <= t1 - t0
    ensures SaturatingSub(TakeSnapshot(d', t1).saturatedNs, TakeSnapshot(d, t0).saturatedNs) <= t1 - t0
  {
  }

  // ------------------------------------------------------- rounds of sampling

  /** A sampling round: what happened since the last one, and when the sample is taken. */
  datatype Round = Round(events: seq<Event>, at: nat)

  ghost function TablesAt(c: Config, s0: Tables, rounds: seq<Round>): Tables {
    if rounds == [] then s0 else After(c, TablesAt(c, s0, rounds[..|rounds| - 1]), rounds[|rounds| - 1].events)
  }

  ghost function TimeAt(start: nat, rounds: seq<Round>): nat {
    if rounds == [] then start else rounds[|rounds| - 1].at
  }

  ghost predicate TimedRounds(start: nat, rounds: seq<Round>) {
    rounds == [] || (
      var (before, r) := (rounds[..|rounds| - 1], rounds[|rounds| - 1]);
      && TimedRounds(start, before) && Timed(TimeAt(start, before), r.events)
      && Clock(TimeAt(start, before), r.events) <= r.at)
  }

  /** The samples of a device's entry, one per round. */
  ghost function SamplesOf(c: Config, s0: Tables, rounds: seq<Round>, dev: nat): (samples: seq<Deltas.Sample>)
    requires dev in s0.depths
    ensures |samples| == |rounds|
  {
    if rounds == [] then []
    else
      KeepsDevice(c, s0, rounds, dev);
      SamplesOf(c, s0, rounds[..|rounds| - 1], dev)
      + [AsSample(TakeSnapshot(TablesAt(c, s0, rounds).depths[dev], TimeAt(0, rounds)))]
  }

  lemma {:induction false} EventsKeepDevice(c: Config, s: Tables, es: seq<Event>, dev: nat)
    requires dev in s.depths
    ensures dev in After(c, s, es).depths
  {
    if es != [] {
      EventsKeepDevice(c, s, es[..|es| - 1], dev);
      var shifts, q, i := HandlerDepths(c, After(c, s, es[..|es| - 1]), es[|es| - 1]);
    }
  }

  lemma {:induction false} KeepsDevice(c: Config, s0: Tables, rounds: seq<Round>, dev: nat)
    requires dev in s0.depths
    ensures dev in TablesAt(c, s0, rounds).depths
  {
    if rounds != [] {
      KeepsDevice(c, s0, rounds[..|rounds| - 1], dev);
      EventsKeepDevice(c, TablesAt(c, s0, rounds[..|rounds| - 1]), rounds[|rounds| - 1].events, dev);
    }
  }

  function Capped(n: int): int { if n > U64_MAX then U64_MAX else n }

  /** The sums of a snapshot, as extended by the time since the last update and capped. */
  lemma SnapshotSums(d: Depth, t: nat)
    requires d.lastUpdate <= t
    ensures var v := AsSample(TakeSnapshot(d, t)).counters;
      && v[0] == Capped(BusyUntil(d, t)) && v[1] == Capped(SaturatedUntil(d, t))
      && v[2] == Capped(InflightUntil(d, t)) && v[3] == Capped(QueuedUntil(d, t))
  {
    ProductGrows(0, t - d.lastUpdate, d.inflight);
    ProductGrows(0, t - d.lastUpdate, d.queued);
  }

  lemma SamplesGrow(d: Depth, t: nat, d': Depth, clock: nat, t': nat, k: nat)
    requires d.lastUpdate <= t <= clock <= t' && d'.lastUpdate <= clock && GrowsWithin(d, t, d', clock) && k < 4
    ensures var (a, b) := (AsSample(TakeSnapshot(d, t)), AsSample(TakeSnapshot(d', t')));
      a.generation == b.generation && a.counters[k] <= b.counters[k]
  {
    SnapshotSums(d, t);
    SnapshotSums(d', t');
    ProductGrows(clock - d'.lastUpdate, t' - d'.lastUpdate, d'.inflight);
    ProductGrows(clock - d'.lastUpdate, t' - d'.lastUpdate, d'.queued);
  }

  lemma {:induction false} RoundsStamped(c: Config, s0: Tables, start: nat, rounds: seq<Round>, dev: nat)
    requires Initial(s0, start) && dev in s0.depths && TimedRounds(start, rounds)
    ensures Stamped(TablesAt(c, s0, rounds), dev, TimeAt(start, rounds))
  {
    if rounds != [] {
      var before, r := rounds[..|rounds| - 1], rounds[|rounds| - 1];
      RoundsStamped(c, s0, start, before, dev);
      RunGrowsWithin(c, TablesAt(c, s0, before), TimeAt(start, before), r.events, dev);
    }
  }

  lemma LastSamplesGrow(c: Config, s0: Tables, start: nat, rounds: seq<Round>, dev: nat, k: nat)
    requires Initial(s0, start) && dev in s0.depths && TimedRounds(start, rounds) && |rounds| >= 2 && k < 4
    ensures var (a, b) := (SamplesOf(c, s0, rounds, dev)[|rounds| - 2], SamplesOf(c, s0, rounds, dev)[|rounds| - 1]);
      a.generation == b.generation && Deltas.CounterOf(a, k) <= Deltas.CounterOf(b, k)
  {
    var before, r := rounds[..|rounds| - 1], rounds[|rounds| - 1];
    var s, t := TablesAt(c, s0, before), TimeAt(start, before);
    RoundsStamped(c, s0, start, before, dev);
    RunGrowsWithin(c, s, t, r.events, dev);
    SamplesGrow(s.depths[dev], t, After(c, s, r.events).depths[dev], Clock(t, r.events), r.at, k);
  }

  lemma {:induction false} SamplesAreMonotone(c: Config, s0: Tables, start: nat, rounds: seq<Round>, dev: nat, k: nat)
    requires Initial(s0, start) && dev in s0.depths && TimedRounds(start, rounds) && k < 4
    ensures var samples := SamplesOf(c, s0, rounds, dev);
      && Deltas.MonotoneWithin(samples, k)
      && forall i | 0 <= i < |samples| :: samples[i].generation == samples[0].generation
  {
    if |rounds| >= 2 {
      var samples := SamplesOf(c, s0, rounds, dev);
      SamplesAreMonotone(c, s0, start, rounds[..|rounds| - 1], dev, k);
      LastSamplesGrow(c, s0, start, rounds, dev, k);
      assert samples[..|samples| - 1] == SamplesOf(c, s0, rounds[..|rounds| - 1], dev);
      Deltas.LastPair(samples, k);
    }
  }

  /** However a device's depth is sampled over a run, the reported differences of
      each of its four sums add up to the last snapshot. */
  lemma DifferencesSumToSnapshot(c: Config, s0: Tables, start: nat, rounds: seq<Round>, dev: nat, k: nat)
    requires Initial(s0, start) && dev in s0.depths && TimedRounds(start, rounds) && rounds != [] && k < 4
    ensures var samples := SamplesOf(c, s0, rounds, dev);
      Deltas.Reported(samples, k) == samples[|samples| - 1].counters[k]
  {
    SamplesAreMonotone(c, s0, start, rounds, dev, k);
    Deltas.DeltasSumToLast(SamplesOf(c, s0, rounds, dev), k);
  }

  /** `DepthSnapshot::delta`. */
  function SnapshotDelta(current: Snapshot, previous: Option<Snapshot>): Snapshot {
    if previous.None? || previous.value.firstSeen != current.firstSeen then current
    else
      var p := previous.value;
      current.(busyNs := SaturatingSub(current.busyNs, p.busyNs),
               saturatedNs := SaturatingSub(current.saturatedNs, p.saturatedNs),
               inflightNs := SaturatingSub(current.inflightNs, p.inflightNs),
               queuedNs := SaturatingSub(current.queuedNs, p.queuedNs))
  }

  /** The cumulative part of a snapshot, as a sample of its map entry. */
  function AsSample(s: Snapshot): (r: Deltas.Sample)
    ensures |r.counters| == 4
  {
    Deltas.Sample(s.firstSeen, [s.busyNs, s.saturatedNs, s.inflightNs, s.queuedNs])
  }

  function AsPrevious(s: Option<Snapshot>): Option<Deltas.Sample> {
    if s.None? then None else Some(AsSample(s.value))
  }

  lemma SnapshotDeltaIsDelta(current: Snapshot, previous: Option<Snapshot>, k: nat)
    requires k < 4
    ensures AsSample(SnapshotDelta(current, previous)).counters[k]
      == Deltas.DeltaOf(AsSample(current), AsPrevious(previous), k)
  {
  }
}
