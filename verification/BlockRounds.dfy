/** What the sampler reports of a device's operations each round (bpf/src/blocktrack.rs):
    the differences of the statistics, and the quantiles of the differences. */
module BlockRounds {
  import opened Basics
  import opened BlockTrack
  import opened BlockLaws
  import opened BlockSampling
  import opened BlockQuantiles
  import Deltas

  // -------------------------------------------------------------- differences

  function HistogramDelta(current: seq<nat>, previous: seq<nat>): (h: seq<nat>)
    ensures |h| == |current|
  {
    seq(|current|, i requires 0 <= i < |current| =>
      SaturatingSub(current[i], if i < |previous| then previous[i] else 0))
  }

  /** `OperationStats::delta`. */
  function OpDelta(current: OpStats, previous: OpStats): OpStats {
    OpStats(SaturatingSub(current.bytes, previous.bytes), SaturatingSub(current.operations, previous.operations),
            SaturatingSub(current.errors, previous.errors), SaturatingSub(current.queueNs, previous.queueNs),
            SaturatingSub(current.serviceNs, previous.serviceNs), SaturatingSub(current.totalNs, previous.totalNs),
            HistogramDelta(current.serviceHistogram, previous.serviceHistogram),
            HistogramDelta(current.totalHistogram, previous.totalHistogram))
  }

  /** `DeviceStats::delta`. */
  function StatsDelta(current: DeviceStats, previous: Option<DeviceStats>): DeviceStats {
    if previous.None? || previous.value.firstSeen != current.firstSeen then current
    else
      var p := previous.value;
      current.(ops := seq(|current.ops|, i requires 0 <= i < |current.ops| => OpDelta(current.ops[i], OpOf(p, i))),
               requeues := SaturatingSub(current.requeues, p.requeues),
               lostRequests := SaturatingSub(current.lostRequests, p.lostRequests))
  }

  /** What was read of a device, if it had an entry. */
  function StatsOf(stats: map<nat, DeviceStats>, dev: nat): Option<DeviceStats> {
    if dev in stats then Some(stats[dev]) else None
  }

  /** The counters of an entry for one operation, by number. */
  const STATS_COUNTERS: nat := 8

  function StatsCounters(s: DeviceStats, op: nat): (v: seq<nat>)
    ensures |v| == STATS_COUNTERS
  {
    var o := OpOf(s, op);
    [o.bytes, o.operations, o.errors, o.queueNs, o.serviceNs, o.totalNs, s.requeues, s.lostRequests]
  }

  function AsStatsSample(s: DeviceStats, op: nat): Deltas.Sample {
    Deltas.Sample(s.firstSeen, StatsCounters(s, op))
  }

  function AsPreviousStats(s: Option<DeviceStats>, op: nat): Option<Deltas.Sample> {
    if s.None? then None else Some(AsStatsSample(s.value, op))
  }

  /** The difference of the statistics is the generation-aware difference of each counter. */
  lemma StatsDeltaIsDelta(current: DeviceStats, previous: Option<DeviceStats>, op: nat, k: nat)
    requires |current.ops| == OPERATIONS && op < OPERATIONS && k < STATS_COUNTERS
    ensures StatsCounters(StatsDelta(current, previous), op)[k]
      == Deltas.DeltaOf(AsStatsSample(current, op), AsPreviousStats(previous, op), k)
  {
  }

  // ---------------------------------------- entries stay and their counters grow

  predicate AllSeen(stats: map<nat, DeviceStats>) { forall dev | dev in stats :: stats[dev].firstSeen > 0 }

  ghost predicate Grows(s: DeviceStats, s': DeviceStats) {
    && s'.firstSeen == s.firstSeen
    && forall op: nat, k: nat | k < STATS_COUNTERS :: StatsCounters(s, op)[k] <= StatsCounters(s', op)[k]
  }

  ghost predicate Follows(stats: map<nat, DeviceStats>, stats': map<nat, DeviceStats>) {
    AllSeen(stats') && forall dev | dev in stats :: dev in stats' && Grows(stats[dev], stats'[dev])
  }

  lemma FollowsOn(a: map<nat, DeviceStats>, b: map<nat, DeviceStats>, d: map<nat, DeviceStats>)
    requires Follows(a, b) && Follows(b, d)
    ensures Follows(a, d)
  {
    forall dev | dev in a ensures dev in d && Grows(a[dev], d[dev]) {
      assert Grows(a[dev], b[dev]) && Grows(b[dev], d[dev]);
    }
  }

  lemma TouchFollows(stats: map<nat, DeviceStats>, dev: nat, now: nat, room: bool)
    requires AllSeen(stats) && now > 0
    ensures Follows(stats, Touch(stats, dev, now, room))
  {
  }

  /** An entry is looked up or made, and then replaced by one that has only grown. */
  lemma ReplacedFollows(stats: map<nat, DeviceStats>, dev: nat, now: nat, room: bool, s: DeviceStats)
    requires AllSeen(stats) && now > 0 && dev in Touch(stats, dev, now, room)
    requires Grows(Touch(stats, dev, now, room)[dev], s)
    ensures Follows(stats, Touch(stats, dev, now, room)[dev := s])
  {
    var t := Touch(stats, dev, now, room);
    TouchFollows(stats, dev, now, room);
    FollowsOn(stats, t, t[dev := s]);
  }

  predicate AtLeast(o: OpStats, o': OpStats) {
    && o.bytes <= o'.bytes && o.operations <= o'.operations && o.errors <= o'.errors
    && o.queueNs <= o'.queueNs && o.serviceNs <= o'.serviceNs && o.totalNs <= o'.totalNs
  }

  lemma UpdateGrows(s: DeviceStats, op: nat, o: OpStats, now: nat)
    requires AtLeast(OpOf(s, op), o)
    ensures Grows(s, UpdateOp(s, op, o).(lastSeen := now))
  {
  }

  lemma UpdateFollows(stats: map<nat, DeviceStats>, dev: nat, op: nat, o: OpStats, now: nat, room: bool)
    requires AllSeen(stats) && now > 0 && dev in Touch(stats, dev, now, room)
    requires AtLeast(OpOf(Touch(stats, dev, now, room)[dev], op), o)
    ensures var t := Touch(stats, dev, now, room);
      Follows(stats, t[dev := UpdateOp(t[dev], op, o).(lastSeen := now)])
  {
    var t := Touch(stats, dev, now, room);
    UpdateGrows(t[dev], op, o, now);
    ReplacedFollows(stats, dev, now, room, UpdateOp(t[dev], op, o).(lastSeen := now));
  }

  lemma Unchanged(stats: map<nat, DeviceStats>)
    requires AllSeen(stats)
    ensures Follows(stats, stats)
  {
  }

  lemma BytesFollow(c: Config, stats: map<nat, DeviceStats>, dev: nat, op: nat, bytes: nat, error: bool, now: nat,
                    room: bool)
    requires AllSeen(stats) && now > 0
    ensures Follows(stats, RecordBytes(c, stats, dev, op, bytes, error, now, room))
  {
    var t, stats' := Touch(stats, dev, now, room), RecordBytes(c, stats, dev, op, bytes, error, now, room);
    if stats' == stats {
      Unchanged(stats);
    } else if dev !in t {
      TouchFollows(stats, dev, now, room);
    } else {
      var o := OpOf(t[dev], op);
      var o' := o.(bytes := if c.bytesEnabled then o.bytes + bytes else o.bytes,
                   errors := if c.errorsEnabled && error then o.errors + 1 else o.errors);
      UpdateFollows(stats, dev, op, o', now, room);
      assert stats' == t[dev := UpdateOp(t[dev], op, o').(lastSeen := now)];
    }
  }

  lemma CompletionFollows(c: Config, stats: map<nat, DeviceStats>, dev: nat, op: nat, queueNs: nat, serviceNs: nat,
                          totalNs: nat, now: nat, room: bool)
    requires AllSeen(stats) && now > 0
    ensures Follows(stats, RecordCompletion(c, stats, dev, op, queueNs, serviceNs, totalNs, now, room))
  {
    var t := Touch(stats, dev, now, room);
    var stats' := RecordCompletion(c, stats, dev, op, queueNs, serviceNs, totalNs, now, room);
    if stats' == stats {
      Unchanged(stats);
    } else if dev !in t {
      TouchFollows(stats, dev, now, room);
    } else {
      var o := OpOf(t[dev], op);
      var counted := if c.operationsEnabled then o.(operations := o.operations + 1) else o;
      var o' := if c.latencyEnabled then AddLatencies(counted, queueNs, serviceNs, totalNs) else counted;
      UpdateFollows(stats, dev, op, o', now, room);
      assert stats' == t[dev := UpdateOp(t[dev], op, o').(lastSeen := now)];
    }
  }

  lemma CountersGrow(s: DeviceStats, s': DeviceStats)
    requires s' == s.(requeues := s'.requeues, lostRequests := s'.lostRequests)
    requires s.requeues <= s'.requeues && s.lostRequests <= s'.lostRequests
    ensures Grows(s, s')
  {
  }

  lemma LostFollow(c: Config, stats: map<nat, DeviceStats>, dev: nat, now: nat, room: bool)
    requires AllSeen(stats) && now > 0
    ensures Follows(stats, CountLost(c, stats, dev, now, room))
  {
    var t := Touch(stats, dev, now, room);
    TouchFollows(stats, dev, now, room);
    if dev in t {
      CountersGrow(t[dev], t[dev].(lostRequests := t[dev].lostRequests + 1));
      ReplacedFollows(stats, dev, now, room, t[dev].(lostRequests := t[dev].lostRequests + 1));
    }
  }

  lemma RequeueFollows(c: Config, stats: map<nat, DeviceStats>, dev: nat, now: nat, room: bool)
    requires AllSeen(stats) && now > 0
    ensures Follows(stats, CountRequeue(c, stats, dev, now, room))
  {
    var t := Touch(stats, dev, now, room);
    TouchFollows(stats, dev, now, room);
    if dev in t {
      CountersGrow(t[dev], t[dev].(requeues := t[dev].requeues + 1));
      ReplacedFollows(stats, dev, now, room, t[dev].(requeues := t[dev].requeues + 1));
    }
  }

  lemma CompleteFollows(c: Config, s: Tables, e: Event)
    requires AllSeen(s.stats) && e.Complete? && e.now > 0
    ensures Follows(s.stats, HandleComplete(c, s, e.id, e.now, e.error, e.bytes, e.statsRoom).stats)
  {
    if ShouldTrack(c, e.id) {
      var own, op, l := c.deviceOf(e.id), c.operationOf(e.id), Closing(c, s, e);
      var stats1, queueNs := CompleteStats(c, s, e);
      BytesFollow(c, s.stats, own, op, e.bytes, e.error, e.now, e.statsRoom);
      if l.Some? {
        CompletionFollows(c, stats1, own, op, queueNs, l.value.serviceNs, l.value.totalNs, e.now, e.statsRoom);
        FollowsOn(s.stats, stats1, HandleComplete(c, s, e.id, e.now, e.error, e.bytes, e.statsRoom).stats);
      }
    }
  }

  lemma EventFollows(c: Config, s: Tables, e: Event)
    requires AllSeen(s.stats) && (!e.Merge? ==> e.now > 0)
    ensures Follows(s.stats, Handle(c, s, e).stats)
  {
    if e.Complete? {
      CompleteFollows(c, s, e);
    } else if !e.Merge? {
      LostFollow(c, s.stats, c.deviceOf(e.id), e.now, e.statsRoom);
      RequeueFollows(c, s.stats, c.deviceOf(e.id), e.now, e.statsRoom);
    }
  }

  lemma {:induction false} RunFollows(c: Config, s: Tables, t0: nat, es: seq<Event>)
    requires AllSeen(s.stats) && t0 > 0 && Timed(t0, es)
    ensures Follows(s.stats, After(c, s, es).stats) && Clock(t0, es) > 0
  {
    if es != [] {
      var before, e := es[..|es| - 1], es[|es| - 1];
      RunFollows(c, s, t0, before);
      EventFollows(c, After(c, s, before), e);
      FollowsOn(s.stats, After(c, s, before).stats, After(c, s, es).stats);
    }
  }

  // ------------------------------------------------------------ round by round

  lemma {:induction false} RoundsKeepEntries(c: Config, s0: Tables, start: nat, rounds: seq<Round>)
    requires Initial(s0, start) && TimedRounds(start, rounds)
    ensures AllSeen(TablesAt(c, s0, rounds).stats) && TimeAt(start, rounds) > 0
  {
    if rounds != [] {
      var before, r := rounds[..|rounds| - 1], rounds[|rounds| - 1];
      RoundsKeepEntries(c, s0, start, before);
      RunFollows(c, TablesAt(c, s0, before), TimeAt(start, before), r.events);
    }
  }

  /** All events of some rounds, one after the other. */
  function EventsOf(rounds: seq<Round>): seq<Event> {
    if rounds == [] then [] else EventsOf(rounds[..|rounds| - 1]) + rounds[|rounds| - 1].events
  }

  lemma {:induction false} AfterBoth(c: Config, s0: Tables, a: seq<Event>, b: seq<Event>)
    ensures After(c, s0, a + b) == After(c, After(c, s0, a), b)
  {
    if b == [] {
      assert a + b == a;
    } else {
      assert (a + b)[..|a + b| - 1] == a + b[..|b| - 1];
      AfterBoth(c, s0, a, b[..|b| - 1]);
    }
  }

  lemma {:induction false} TablesAreAfter(c: Config, s0: Tables, rounds: seq<Round>)
    ensures TablesAt(c, s0, rounds) == After(c, s0, EventsOf(rounds))
  {
    if rounds != [] {
      var before, r := rounds[..|rounds| - 1], rounds[|rounds| - 1];
      TablesAreAfter(c, s0, before);
      AfterBoth(c, s0, EventsOf(before), r.events);
    }
  }

  lemma RoundsKeepHistograms(c: Config, s0: Tables, start: nat, rounds: seq<Round>, dev: nat, op: nat)
    requires Initial(s0, start) && op < OPERATIONS
    ensures var stats := TablesAt(c, s0, rounds).stats;
      && GoodStats(stats)
      && |ServiceHistogram(stats, dev, op)| == |TotalHistogram(stats, dev, op)| == BUCKETS
  {
    TablesAreAfter(c, s0, rounds);
    HistogramsAreOfRecordedTimes(c, s0, start, EventsOf(rounds), dev, op);
  }

  /** Taking away what was there before leaves what was added. */
  lemma AddedBack(h: seq<nat>, more: seq<nat>)
    requires |h| == |more|
    ensures HistogramDelta(AddHistograms(h, more), h) == more
  {
  }

  /** The difference the sampler computes for an operation in the last of some rounds. */
  ghost function LastDifference(c: Config, s0: Tables, rounds: seq<Round>, dev: nat, op: nat): OpStats
    requires rounds != [] && dev in TablesAt(c, s0, rounds).stats
  {
    var previous := StatsOf(TablesAt(c, s0, rounds[..|rounds| - 1]).stats, dev);
    OpOf(StatsDelta(TablesAt(c, s0, rounds).stats[dev], previous), op)
  }

  /** In every round the differences of both histograms of an operation are the
      histograms of exactly the times recorded for it since the round before. */
  lemma DifferencesAreOfRoundTimes(c: Config, s0: Tables, start: nat, rounds: seq<Round>, dev: nat, op: nat)
    requires Initial(s0, start) && TimedRounds(start, rounds) && rounds != [] && op < OPERATIONS
    requires dev in TablesAt(c, s0, rounds).stats
    ensures var (s, es) := (TablesAt(c, s0, rounds[..|rounds| - 1]), rounds[|rounds| - 1].events);
      var d := LastDifference(c, s0, rounds, dev, op);
      && d.serviceHistogram == HistogramOf(LatencyBucket, ServiceTimes(c, s, es, dev, op))
      && d.totalHistogram == HistogramOf(LatencyBucket, TotalTimes(c, s, es, dev, op))
  {
    var before, es := rounds[..|rounds| - 1], rounds[|rounds| - 1].events;
    var s := TablesAt(c, s0, before);
    RoundsKeepEntries(c, s0, start, before);
    RunFollows(c, s, TimeAt(start, before), es);
    RoundsKeepHistograms(c, s0, start, before, dev, op);
    RunsAddHistograms(c, s, es, dev, op);
    var service := HistogramOf(LatencyBucket, ServiceTimes(c, s, es, dev, op));
    var total := HistogramOf(LatencyBucket, TotalTimes(c, s, es, dev, op));
    AddedBack(ServiceHistogram(s.stats, dev, op), service);
    AddedBack(TotalHistogram(s.stats, dev, op), total);
    if dev !in s.stats {
      AddNothing(service);
      AddNothing(total);
    }
  }

  /** What a quantile promises of the times it was read for: at least the time of
      the rank aimed at and, if above 1, at most twice it, in microseconds. */
  ghost predicate IsTight(times: seq<nat>, quantile: real, reported: nat) {
    exists sample: nat, rank: nat ::
      && IsRankOf(|times|, quantile, rank) && sample in times && HasRank(times, Micros(sample), rank)
      && Micros(sample) <= reported && (reported > 1 ==> reported <= 2 * Micros(sample))
  }

  /** Times a histogram can tell apart. */
  predicate Measurable(times: seq<nat>) {
    0 < |times| <= U64_MAX && forall l | l in times :: Micros(l) < 0x1_0000_0000
  }

  lemma QuantileOfTimes(times: seq<nat>, quantile: real)
    requires Measurable(times) && 0.0 < quantile <= 1.0
    ensures IsTight(times, quantile, PercentileOf(HistogramOf(LatencyBucket, times), quantile))
  {
    var sample, rank := QuantileIsTight(times, quantile);
    assert IsRankOf(|times|, quantile, rank) && HasRank(times, Micros(sample), rank);
  }

  /** So every quantile reported in a round is tight for the times recorded since the round before. */
  lemma RoundQuantilesAreTight(c: Config, s0: Tables, start: nat, rounds: seq<Round>, dev: nat, op: nat, quantile: real)
    requires Initial(s0, start) && TimedRounds(start, rounds) && rounds != [] && op < OPERATIONS
    requires dev in TablesAt(c, s0, rounds).stats && 0.0 < quantile <= 1.0
    ensures var (s, es) := (TablesAt(c, s0, rounds[..|rounds| - 1]), rounds[|rounds| - 1].events);
      var (d, service, total) := (LastDifference(c, s0, rounds, dev, op),
                                  ServiceTimes(c, s, es, dev, op), TotalTimes(c, s, es, dev, op));
      && |d.serviceHistogram| == |d.totalHistogram| == BUCKETS
      && (Measurable(service) ==> IsTight(service, quantile, PercentileOf(d.serviceHistogram, quantile)))
      && (Measurable(total) ==> IsTight(total, quantile, PercentileOf(d.totalHistogram, quantile)))
  {
    var s, es := TablesAt(c, s0, rounds[..|rounds| - 1]), rounds[|rounds| - 1].events;
    DifferencesAreOfRoundTimes(c, s0, start, rounds, dev, op);
    var service, total := ServiceTimes(c, s, es, dev, op), TotalTimes(c, s, es, dev, op);
    if Measurable(service) { QuantileOfTimes(service, quantile); }
    if Measurable(total) { QuantileOfTimes(total, quantile); }
  }

  // ----------------------------------------------------------- over all rounds

  /** The samples of a device's statistics, one for every round that finds an entry. */
  ghost function StatsSamples(c: Config, s0: Tables, rounds: seq<Round>, dev: nat, op: nat): seq<Deltas.Sample> {
    if rounds == [] then []
    else
      var stats := TablesAt(c, s0, rounds).stats;
      StatsSamples(c, s0, rounds[..|rounds| - 1], dev, op)
      + if dev in stats then [AsStatsSample(stats[dev], op)] else []
  }

  lemma {:induction false} LastStatsSample(c: Config, s0: Tables, start: nat, rounds: seq<Round>, dev: nat, op: nat)
    requires Initial(s0, start) && TimedRounds(start, rounds)
    ensures Deltas.Last(StatsSamples(c, s0, rounds, dev, op))
      == AsPreviousStats(StatsOf(TablesAt(c, s0, rounds).stats, dev), op)
  {
    if rounds != [] {
      var before, r := rounds[..|rounds| - 1], rounds[|rounds| - 1];
      LastStatsSample(c, s0, start, before, dev, op);
      RoundsKeepEntries(c, s0, start, before);
      RunFollows(c, TablesAt(c, s0, before), TimeAt(start, before), r.events);
    }
  }

  /** An entry read in two rounds in a row is one entry that has only grown. */
  lemma NextSampleGrows(c: Config, s0: Tables, start: nat, rounds: seq<Round>, dev: nat, op: nat, k: nat)
    requires Initial(s0, start) && TimedRounds(start, rounds) && rounds != [] && k < STATS_COUNTERS
    requires dev in TablesAt(c, s0, rounds[..|rounds| - 1]).stats
    ensures var (s, s') := (TablesAt(c, s0, rounds[..|rounds| - 1]).stats, TablesAt(c, s0, rounds).stats);
      && dev in s' && s'[dev].firstSeen == s[dev].firstSeen
      && StatsCounters(s[dev], op)[k] <= StatsCounters(s'[dev], op)[k]
  {
    var before, r := rounds[..|rounds| - 1], rounds[|rounds| - 1];
    RoundsKeepEntries(c, s0, start, before);
    RunFollows(c, TablesAt(c, s0, before), TimeAt(start, before), r.events);
    assert Grows(TablesAt(c, s0, before).stats[dev], TablesAt(c, s0, rounds).stats[dev]);
  }

  /** One generation whose counter never falls. */
  predicate OneGrowing(samples: seq<Deltas.Sample>, k: nat) {
    && Deltas.MonotoneWithin(samples, k)
    && forall i | 0 <= i < |samples| :: samples[i].generation == samples[0].generation
  }

  lemma GrowingOn(samples: seq<Deltas.Sample>, next: Deltas.Sample, k: nat)
    requires OneGrowing(samples, k)
    requires samples != [] ==>
      var last := samples[|samples| - 1];
      next.generation == last.generation && Deltas.CounterOf(last, k) <= Deltas.CounterOf(next, k)
    ensures OneGrowing(samples + [next], k)
  {
    if samples != [] {
      assert (samples + [next])[..|samples|] == samples;
      Deltas.LastPair(samples + [next], k);
    }
  }

  lemma {:induction false} StatsSamplesGrow(c: Config, s0: Tables, start: nat, rounds: seq<Round>, dev: nat, op: nat,
                                            k: nat)
    requires Initial(s0, start) && TimedRounds(start, rounds) && k < STATS_COUNTERS
    ensures OneGrowing(StatsSamples(c, s0, rounds, dev, op), k)
  {
    if rounds != [] {
      var before := rounds[..|rounds| - 1];
      var earlier, stats := StatsSamples(c, s0, before, dev, op), TablesAt(c, s0, rounds).stats;
      StatsSamplesGrow(c, s0, start, before, dev, op, k);
      LastStatsSample(c, s0, start, before, dev, op);
      if dev in TablesAt(c, s0, before).stats { NextSampleGrows(c, s0, start, rounds, dev, op, k); }
      if dev in stats {
        GrowingOn(earlier, AsStatsSample(stats[dev], op), k);
      } else {
        assert earlier + [] == earlier;
      }
    }
  }

  /** However often a device is sampled, the differences of each counter of an
      operation add up to what the last sample showed. */
  lemma StatsDifferencesSumToLast(c: Config, s0: Tables, start: nat, rounds: seq<Round>, dev: nat, op: nat, k: nat)
    requires Initial(s0, start) && TimedRounds(start, rounds) && rounds != [] && k < STATS_COUNTERS
    requires dev in TablesAt(c, s0, rounds).stats
    ensures Deltas.Reported(StatsSamples(c, s0, rounds, dev, op), k)
      == StatsCounters(TablesAt(c, s0, rounds).stats[dev], op)[k]
  {
    StatsSamplesGrow(c, s0, start, rounds, dev, op, k);
    Deltas.DeltasSumToLast(StatsSamples(c, s0, rounds, dev, op), k);
  }
}
