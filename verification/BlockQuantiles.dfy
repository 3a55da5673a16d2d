/** Latency histograms of the block tracker and the quantiles read from them
    (bpf/src/blocktrack.rs). */
module BlockQuantiles {
  import opened Basics
  import opened BlockTrack
  import opened BlockLaws
  import Words

  function Micros(latencyNs: nat): nat { latencyNs / 1000 }

  lemma {:induction false} PowAdd(a: nat, b: nat)
    ensures Words.Pow(2, a + b) == Words.Pow(2, a) * Words.Pow(2, b)
  {
    if a > 0 {
      PowAdd(a - 1, b);
      Regroup(Words.Pow(2, a - 1), Words.Pow(2, b));
    }
  }

  lemma Regroup(x: nat, y: nat)
    ensures 2 * (x * y) == (2 * x) * y
  {
  }

  /** The binary logarithm, rounded down. */
  function Log2(m: nat): nat { if m < 2 then 0 else 1 + Log2(m / 2) }

  lemma {:induction false} Log2Bounds(m: nat)
    requires m >= 1
    ensures Words.Pow(2, Log2(m)) <= m < Words.Pow(2, Log2(m) + 1)
  {
    if m >= 2 {
      Log2Bounds(m / 2);
      assert Words.Pow(2, Log2(m / 2) + 1) == 2 * Words.Pow(2, Log2(m / 2));
      assert Words.Pow(2, Log2(m) + 1) == 2 * Words.Pow(2, Log2(m));
    }
  }

  lemma DivideTwice(m: nat, p: nat)
    requires p > 0
    ensures m / 2 / p == m / (2 * p)
  {
    var q := m / 2 / p;
    var r := m - (2 * p) * q;
    assert m / 2 == p * q + m / 2 % p;
    assert (2 * p) * q == 2 * (p * q);
    Words.ModuloUnique(m, 2 * p, q, r);
  }

  /** Shifting right by `k` lowers the logarithm by `k`. */
  lemma {:induction false} Log2Shift(m: nat, k: nat)
    requires m >= Words.Pow(2, k) > 0
    ensures Log2(m) == k + Log2(m / Words.Pow(2, k))
  {
    if k > 0 {
      assert m >= 2 * Words.Pow(2, k - 1);
      DivideTwice(m, Words.Pow(2, k - 1));
      Log2Shift(m / 2, k - 1);
    }
  }

  lemma SmallPowers()
    ensures Words.Pow(2, 1) == 2 && Words.Pow(2, 2) == 4 && Words.Pow(2, 4) == 0x10 && Words.Pow(2, 8) == 0x100
    ensures Words.Pow(2, 16) == 0x1_0000
    ensures Words.Pow(2, 31) == 0x8000_0000 && Words.Pow(2, 32) == 0x1_0000_0000
  {
    PowAdd(2, 2);
    PowAdd(4, 4);
    PowAdd(8, 8);
    PowAdd(16, 16);
  }

  lemma NarrowKeepsLog(mb: (nat, nat), p: nat, k: nat)
    requires p == Words.Pow(2, k) > 0 && mb.0 >= 1
    ensures var r := Narrow(mb, p, k); r.0 >= 1 && r.1 + Log2(r.0) == mb.1 + Log2(mb.0)
  {
    if mb.0 >= p { Log2Shift(mb.0, k); }
  }

  lemma HighestBitIsLog2(m: nat)
    requires 1 <= m < 0x1_0000_0000
    ensures HighestBit(m) == Log2(m)
  {
    SmallPowers();
    var a := Narrow((m, 0), 0x1_0000, 16);
    NarrowKeepsLog((m, 0), 0x1_0000, 16);
    assert a.0 < 0x1_0000;
    HighestBitLow(a);
  }

  lemma HighestBitLow(a: (nat, nat))
    requires 1 <= a.0 < 0x1_0000
    ensures Narrow(Narrow(Narrow(Narrow(a, 0x100, 8), 0x10, 4), 4, 2), 2, 1).1 == a.1 + Log2(a.0)
  {
    SmallPowers();
    var b := Narrow(a, 0x100, 8);
    NarrowKeepsLog(a, 0x100, 8);
    var c := Narrow(b, 0x10, 4);
    NarrowKeepsLog(b, 0x10, 4);
    var d := Narrow(c, 4, 2);
    NarrowKeepsLog(c, 4, 2);
    NarrowKeepsLog(d, 2, 1);
  }

  /** The branchy search finds the binary logarithm: bucket `b` holds the
      latencies of at least 2^b and less than 2^(b+1) microseconds, except that
      bucket 0 starts at zero and the last one is open. */
  lemma BucketBrackets(latencyNs: nat)
    ensures LatencyBucket(latencyNs) < BUCKETS
    ensures LatencyBucket(latencyNs) == 0 <==> Micros(latencyNs) <= 1
    ensures LatencyBucket(latencyNs) > 0 ==> Words.Pow(2, LatencyBucket(latencyNs)) <= Micros(latencyNs)
    ensures LatencyBucket(latencyNs) < BUCKETS - 1 ==> Micros(latencyNs) < Words.Pow(2, LatencyBucket(latencyNs) + 1)
  {
    SmallPowers();
    var m := Micros(latencyNs);
    if 1 < m < 0x8000_0000 {
      HighestBitIsLog2(m);
      Log2Bounds(m);
      LogIsSmall(m);
    }
  }

  lemma LogIsSmall(m: nat)
    requires 1 < m < 0x8000_0000
    ensures 0 < Log2(m) < 31
  {
    SmallPowers();
    Log2Bounds(m);
    if Log2(m) >= 31 { PowMonotone(31, Log2(m)); }
  }

  lemma {:induction false} PowMonotone(a: nat, b: nat)
    requires a <= b
    ensures Words.Pow(2, a) <= Words.Pow(2, b)
  {
    if a < b { PowMonotone(a, b - 1); }
  }

  /** How many elements satisfy `p`. */
  function Count(xs: seq<nat>, p: nat -> bool): nat {
    if xs == [] then 0 else Count(xs[..|xs| - 1], p) + if p(xs[|xs| - 1]) then 1 else 0
  }

  /** Latencies in the buckets below `n`, respectively below `v` microseconds. */
  function BucketBelow(bucketOf: nat -> nat, n: nat): nat -> bool { (l: nat) => bucketOf(l) < n }

  function MicrosBelow(v: nat): nat -> bool { (l: nat) => Micros(l) < v }

  lemma {:induction false} CountImplies(xs: seq<nat>, p: nat -> bool, q: nat -> bool)
    requires forall x | x in xs :: p(x) ==> q(x)
    ensures Count(xs, p) <= Count(xs, q)
  {
    if xs != [] { CountImplies(xs[..|xs| - 1], p, q); }
  }

  /** The histogram built up from latencies recorded one by one. */
  function HistogramOf(bucketOf: nat -> nat, latencies: seq<nat>): (h: seq<nat>)
    ensures |h| == BUCKETS
  {
    if latencies == [] then seq(BUCKETS, _ => 0)
    else Bump(HistogramOf(bucketOf, latencies[..|latencies| - 1]), bucketOf(latencies[|latencies| - 1]))
  }

  /** The entries of the first `n` buckets. */
  function Cumulative(h: seq<nat>, n: nat): nat
    requires n <= |h|
  {
    if n == 0 then 0 else Cumulative(h, n - 1) + h[n - 1]
  }

  lemma {:induction false} CumulativeBump(h: seq<nat>, b: nat, n: nat)
    requires n <= |h| && b < |h|
    ensures Cumulative(Bump(h, b), n) == Cumulative(h, n) + if b < n then 1 else 0
  {
    if n > 0 { CumulativeBump(h, b, n - 1); }
  }

  lemma {:induction false} CumulativeZero(bucketOf: nat -> nat, n: nat)
    requires n <= BUCKETS
    ensures Cumulative(HistogramOf(bucketOf, []), n) == 0
  {
    if n > 0 { CumulativeZero(bucketOf, n - 1); }
  }

  lemma {:induction false} CumulativeCounts(bucketOf: nat -> nat, latencies: seq<nat>, n: nat)
    requires n <= BUCKETS && forall l :: bucketOf(l) < BUCKETS
    ensures Cumulative(HistogramOf(bucketOf, latencies), n) == Count(latencies, BucketBelow(bucketOf, n))
  {
    if latencies == [] {
      CumulativeZero(bucketOf, n);
    } else {
      var before, l := latencies[..|latencies| - 1], latencies[|latencies| - 1];
      CumulativeCounts(bucketOf, before, n);
      CumulativeBump(HistogramOf(bucketOf, before), bucketOf(l), n);
    }
  }

  /** The first bucket by which `target` entries are reached, or the number of buckets. */
  function FirstReaching(h: seq<nat>, target: nat, b: nat): (r: nat)
    requires b <= |h|
    ensures b <= r <= |h|
    ensures forall i | b < i <= r :: Cumulative(h, i) < target
    ensures r < |h| ==> Cumulative(h, r + 1) >= target
    decreases |h| - b
  {
    if b == |h| || Cumulative(h, b + 1) >= target then b else FirstReaching(h, target, b + 1)
  }

  /** The value reported for a bucket: its upper end in microseconds. */
  function UpperEnd(b: nat): nat { if b == 0 then 1 else Words.Pow(2, if b + 1 < 32 then b + 1 else 32) }

  /** The rank a quantile of `total` entries aims at: the product rounded up, as
      an unsigned 64-bit number. */
  function Target(total: nat, quantile: real): nat {
    var rank := -(-(total as real * quantile)).Floor;
    if rank < 0 then 0 else Min(rank, U64_MAX)
  }

  function PercentileOf(h: seq<nat>, quantile: real): nat
    requires |h| == BUCKETS
  {
    var total := Cumulative(h, BUCKETS);
    if total == 0 then 0 else UpperEnd(FirstReaching(h, Target(total, quantile), 0))
  }

  /** `histogram_percentile`. */
  method HistogramPercentile(h: seq<nat>, quantile: real) returns (micros: nat)
    requires |h| == BUCKETS
    ensures micros == PercentileOf(h, quantile)
  {
    var total := 0;
    for i := 0 to BUCKETS
      invariant total == Cumulative(h, i)
    {
      total := total + h[i];
    }
    if total == 0 {
      return 0;
    }
    var target := Target(total, quantile);
    var cumulative := 0;
    for bucket := 0 to BUCKETS
      invariant cumulative == Cumulative(h, bucket)
      invariant FirstReaching(h, target, 0) == FirstReaching(h, target, bucket)
    {
      cumulative := cumulative + h[bucket];
      if cumulative >= target {
        return if bucket == 0 then 1 else Words.Pow(2, if bucket + 1 < 32 then bucket + 1 else 32);
      }
    }
    return Words.Pow(2, 32);
  }

  /** `v` is the `rank`-th smallest of the latencies, in whole microseconds. */
  ghost predicate HasRank(latencies: seq<nat>, v: nat, rank: nat) {
    Count(latencies, MicrosBelow(v)) < rank <= Count(latencies, MicrosBelow(v + 1))
  }

  /** Bucket `b` covers `v` microseconds: at least 2^b and less than 2^(b+1),
      except that bucket 0 starts at zero and the last one is open. */
  predicate Covers(b: nat, v: nat) {
    && b < BUCKETS && (b == 0 <==> v <= 1)
    && (b > 0 ==> Words.Pow(2, b) <= v) && (b < BUCKETS - 1 ==> v < Words.Pow(2, b + 1))
  }

  lemma LowerBucketIsLower(b: nat, v: nat, b': nat, v': nat)
    requires Covers(b, v) && Covers(b', v') && b < b'
    ensures v < v'
  {
    PowMonotone(b + 1, b');
  }

  /** The search finds the bucket of the latency with the target rank. */
  lemma RankFindsBucket(bucketOf: nat -> nat, latencies: seq<nat>, sample: nat, rank: nat)
    requires forall l :: Covers(bucketOf(l), Micros(l))
    requires HasRank(latencies, Micros(sample), rank)
    ensures FirstReaching(HistogramOf(bucketOf, latencies), rank, 0) == bucketOf(sample)
  {
    var v, b, h := Micros(sample), bucketOf(sample), HistogramOf(bucketOf, latencies);
    forall l: nat ensures bucketOf(l) < b ==> Micros(l) < v {
      if bucketOf(l) < b { LowerBucketIsLower(bucketOf(l), Micros(l), b, v); }
    }
    forall l: nat ensures Micros(l) <= v ==> bucketOf(l) < b + 1 {
      if bucketOf(l) > b { LowerBucketIsLower(b, v, bucketOf(l), Micros(l)); }
    }
    CountImplies(latencies, BucketBelow(bucketOf, b), MicrosBelow(v));
    CountImplies(latencies, MicrosBelow(v + 1), BucketBelow(bucketOf, b + 1));
    CumulativeCounts(bucketOf, latencies, b);
    CumulativeCounts(bucketOf, latencies, b + 1);
    ReachedAt(h, rank, b);
  }

  lemma ReachedAt(h: seq<nat>, rank: nat, b: nat)
    requires b < |h| && Cumulative(h, b) < rank <= Cumulative(h, b + 1)
    ensures FirstReaching(h, rank, 0) == b
  {
    var r := FirstReaching(h, rank, 0);
    if r < b { CumulativeMonotone(h, r + 1, b); }
  }

  lemma {:induction false} CumulativeMonotone(h: seq<nat>, m: nat, n: nat)
    requires m <= n <= |h|
    ensures Cumulative(h, m) <= Cumulative(h, n)
  {
    if m < n { CumulativeMonotone(h, m, n - 1); }
  }

  lemma CountAll(latencies: seq<nat>, sample: nat, rank: nat, bucketOf: nat -> nat)
    requires HasRank(latencies, Micros(sample), rank) && forall l :: bucketOf(l) < BUCKETS
    ensures Cumulative(HistogramOf(bucketOf, latencies), BUCKETS) > 0
  {
    CumulativeCounts(bucketOf, latencies, BUCKETS);
    CountImplies(latencies, MicrosBelow(Micros(sample) + 1), BucketBelow(bucketOf, BUCKETS));
  }

  lemma BucketCovers(l: nat)
    ensures Covers(LatencyBucket(l), Micros(l))
  {
    BucketBrackets(l);
  }

  lemma ReportedIsTight(b: nat, v: nat)
    requires Covers(b, v) && v < 0x1_0000_0000
    ensures v <= UpperEnd(b) && (UpperEnd(b) > 1 ==> UpperEnd(b) <= 2 * v)
  {
    SmallPowers();
    if b > 0 { assert Words.Pow(2, b + 1) == 2 * Words.Pow(2, b); }
  }

  lemma TightAt(latencies: seq<nat>, sample: nat, rank: nat)
    requires HasRank(latencies, Micros(sample), rank) && Micros(sample) < 0x1_0000_0000
    ensures Cumulative(HistogramOf(LatencyBucket, latencies), BUCKETS) > 0
    ensures var reported := UpperEnd(FirstReaching(HistogramOf(LatencyBucket, latencies), rank, 0));
      Micros(sample) <= reported && (reported > 1 ==> reported <= 2 * Micros(sample))
  {
    forall l: nat ensures Covers(LatencyBucket(l), Micros(l)) { BucketCovers(l); }
    RankFindsBucket(LatencyBucket, latencies, sample, rank);
    CountAll(latencies, sample, rank, LatencyBucket);
    ReportedIsTight(LatencyBucket(sample), Micros(sample));
  }

  lemma {:induction false} CountNone(latencies: seq<nat>)
    ensures Count(latencies, MicrosBelow(0)) == 0
  {
    if latencies != [] { CountNone(latencies[..|latencies| - 1]); }
  }

  lemma {:induction false} CountEvery(latencies: seq<nat>, v: nat)
    requires forall l | l in latencies :: Micros(l) < v
    ensures Count(latencies, MicrosBelow(v)) == |latencies|
  {
    if latencies != [] { CountEvery(latencies[..|latencies| - 1], v); }
  }

  lemma {:induction false} CountGrew(latencies: seq<nat>, v: nat) returns (sample: nat)
    requires Count(latencies, MicrosBelow(v)) < Count(latencies, MicrosBelow(v + 1))
    ensures sample in latencies && Micros(sample) == v
  {
    var last := latencies[|latencies| - 1];
    if Micros(last) == v { sample := last; } else { sample := CountGrew(latencies[..|latencies| - 1], v); }
  }

  /** Every rank from 1 to the number of latencies is that of one of them. */
  lemma {:induction false} RankedSample(latencies: seq<nat>, rank: nat, bound: nat) returns (sample: nat)
    requires 1 <= rank <= Count(latencies, MicrosBelow(bound))
    ensures sample in latencies && HasRank(latencies, Micros(sample), rank)
    decreases bound
  {
    CountNone(latencies);
    if Count(latencies, MicrosBelow(bound - 1)) >= rank {
      sample := RankedSample(latencies, rank, bound - 1);
    } else {
      sample := CountGrew(latencies, bound - 1);
    }
  }

  /** The quantile is tight: for every target rank, the value reported is at
      least the latency of that rank, and if above 1 at most twice it. */
  lemma RankIsTight(latencies: seq<nat>, rank: nat) returns (sample: nat)
    requires 1 <= rank <= |latencies| && forall l | l in latencies :: Micros(l) < 0x1_0000_0000
    ensures sample in latencies && HasRank(latencies, Micros(sample), rank)
    ensures var reported := UpperEnd(FirstReaching(HistogramOf(LatencyBucket, latencies), rank, 0));
      Micros(sample) <= reported && (reported > 1 ==> reported <= 2 * Micros(sample))
  {
    CountEvery(latencies, 0x1_0000_0000);
    sample := RankedSample(latencies, rank, 0x1_0000_0000);
    TightAt(latencies, sample, rank);
  }

  lemma {:induction false} HistogramTotal(latencies: seq<nat>)
    ensures Cumulative(HistogramOf(LatencyBucket, latencies), BUCKETS) == |latencies|
  {
    if latencies == [] {
      CumulativeZero(LatencyBucket, BUCKETS);
    } else {
      var before, l := latencies[..|latencies| - 1], latencies[|latencies| - 1];
      HistogramTotal(before);
      BucketCovers(l);
      CumulativeBump(HistogramOf(LatencyBucket, before), LatencyBucket(l), BUCKETS);
    }
  }

  /** A quantile above 0 and up to 1 aims at one of the ranks there are. */
  lemma TargetIsRank(total: nat, quantile: real)
    requires 0 < total <= U64_MAX && 0.0 < quantile <= 1.0
    ensures 1 <= Target(total, quantile) <= total
  {
    var x := ProductBetween(total as real, quantile);
    RoundedUpBetween(x, total);
  }

  lemma RoundedUpBetween(x: real, n: nat)
    requires 0.0 < x <= n as real
    ensures 1 <= -(-x).Floor <= n
  {
  }

  lemma ProductBetween(a: real, q: real) returns (x: real)
    requires 0.0 < a && 0.0 < q <= 1.0
    ensures x == a * q && 0.0 < x <= a
  {
    x := a * q;
    assert a * (1.0 - q) >= 0.0;
    assert x == a - a * (1.0 - q);
  }

  /** `rank` is the least integer not below the quantile of `total`. */
  ghost predicate IsRankOf(total: nat, quantile: real, rank: nat) {
    (rank - 1) as real < total as real * quantile <= rank as real
  }

  lemma TargetIsLeast(total: nat, quantile: real)
    requires 0 < total <= U64_MAX && 0.0 < quantile <= 1.0
    ensures IsRankOf(total, quantile, Target(total, quantile))
  {
    TargetIsRank(total, quantile);
    RoundedUp(total as real * quantile);
  }

  lemma RoundedUp(x: real)
    ensures (-(-x).Floor - 1) as real < x <= (-(-x).Floor) as real
  {
  }

  /** For every quantile the value reported for a histogram is at least the latency
      whose rank is the least not below that quantile of their number and, if above 1,
      at most twice it. */
  lemma QuantileIsTight(latencies: seq<nat>, quantile: real) returns (sample: nat, rank: nat)
    requires 0 < |latencies| <= U64_MAX && forall l | l in latencies :: Micros(l) < 0x1_0000_0000
    requires 0.0 < quantile <= 1.0
    ensures (rank - 1) as real < |latencies| as real * quantile <= rank as real
    ensures sample in latencies && HasRank(latencies, Micros(sample), rank)
    ensures var reported := PercentileOf(HistogramOf(LatencyBucket, latencies), quantile);
      Micros(sample) <= reported && (reported > 1 ==> reported <= 2 * Micros(sample))
  {
    rank := Target(|latencies|, quantile);
    TargetIsLeast(|latencies|, quantile);
    TargetIsRank(|latencies|, quantile);
    HistogramTotal(latencies);
    sample := RankIsTight(latencies, rank);
  }

  // ------------------------------------------------------ the tables' histograms

  /** The histogram of an operation's service times, respectively of its total
      times; all zero before the device has an entry. */
  function ServiceHistogram(stats: map<nat, DeviceStats>, dev: nat, op: nat): seq<nat> {
    if dev in stats then OpOf(stats[dev], op).serviceHistogram else NoOps().serviceHistogram
  }

  function TotalHistogram(stats: map<nat, DeviceStats>, dev: nat, op: nat): seq<nat> {
    if dev in stats then OpOf(stats[dev], op).totalHistogram else NoOps().totalHistogram
  }

  predicate SameHistograms(stats: map<nat, DeviceStats>, stats': map<nat, DeviceStats>, dev: nat, op: nat) {
    && ServiceHistogram(stats', dev, op) == ServiceHistogram(stats, dev, op)
    && TotalHistogram(stats', dev, op) == TotalHistogram(stats, dev, op)
  }

  lemma TouchSame(stats: map<nat, DeviceStats>, d: nat, now: nat, room: bool, dev: nat, op: nat)
    requires op < OPERATIONS
    ensures SameHistograms(stats, Touch(stats, d, now, room), dev, op)
  {
  }

  lemma CountsSame(c: Config, stats: map<nat, DeviceStats>, d: nat, now: nat, room: bool, dev: nat, op: nat)
    requires op < OPERATIONS
    ensures SameHistograms(stats, CountLost(c, stats, d, now, room), dev, op)
    ensures SameHistograms(stats, CountRequeue(c, stats, d, now, room), dev, op)
  {
    TouchSame(stats, d, now, room, dev, op);
  }

  lemma BytesSame(c: Config, stats: map<nat, DeviceStats>, d: nat, op': nat, bytes: nat, error: bool, now: nat,
                  room: bool, dev: nat, op: nat)
    requires op < OPERATIONS
    ensures SameHistograms(stats, RecordBytes(c, stats, d, op', bytes, error, now, room), dev, op)
  {
    TouchSame(stats, d, now, room, dev, op);
  }

  /** A recorded completion adds one entry to each histogram of its operation, and to no other. */
  lemma CompletionBumps(c: Config, stats: map<nat, DeviceStats>, d: nat, op': nat, queueNs: nat, serviceNs: nat,
                        totalNs: nat, now: nat, room: bool, dev: nat, op: nat)
    requires GoodStats(stats) && op < OPERATIONS && op' < OPERATIONS
    ensures var stats' := RecordCompletion(c, stats, d, op', queueNs, serviceNs, totalNs, now, room);
      if d == dev && op' == op && Recorded(c, stats, d, room)
      then ServiceHistogram(stats', dev, op) == Bump(ServiceHistogram(stats, dev, op), LatencyBucket(serviceNs))
           && TotalHistogram(stats', dev, op) == Bump(TotalHistogram(stats, dev, op), LatencyBucket(totalNs))
      else SameHistograms(stats, stats', dev, op)
  {
    TouchSame(stats, d, now, room, dev, op);
    TouchKeeps(stats, d, now, room, d);
  }

  /** What a completion records of a request: its service and total time. */
  datatype Latency = Latency(serviceNs: nat, totalNs: nat)

  /** What a completion is about to record, if it ends its request. */
  function Closing(c: Config, s: Tables, e: Event): Option<Latency>
    requires e.Complete?
  {
    if !c.requestTracking then None
    else if e.id !in s.requests then Some(Latency(0, 0))
    else if !Closes(s, e) then None
    else
      var f := Completed(s.requests[e.id], e.now);
      Some(Latency(f.serviceNs, TotalNs(f, e.now)))
  }

  /** What an event records for an operation of a device. */
  function RecordedBy(c: Config, s: Tables, e: Event, dev: nat, op: nat): Option<Latency> {
    if e.Complete? && ShouldTrack(c, e.id) && c.deviceOf(e.id) == dev && c.operationOf(e.id) == op
       && Recorded(c, s.stats, dev, e.statsRoom)
    then Closing(c, s, e)
    else None
  }

  /** The service times, respectively total times, recorded by a run. */
  function ServiceTimes(c: Config, s0: Tables, es: seq<Event>, dev: nat, op: nat): seq<nat> {
    if es == [] then []
    else
      var r := RecordedBy(c, After(c, s0, es[..|es| - 1]), es[|es| - 1], dev, op);
      ServiceTimes(c, s0, es[..|es| - 1], dev, op) + if r.Some? then [r.value.serviceNs] else []
  }

  function TotalTimes(c: Config, s0: Tables, es: seq<Event>, dev: nat, op: nat): seq<nat> {
    if es == [] then []
    else
      var r := RecordedBy(c, After(c, s0, es[..|es| - 1]), es[|es| - 1], dev, op);
      TotalTimes(c, s0, es[..|es| - 1], dev, op) + if r.Some? then [r.value.totalNs] else []
  }

  /** One entry more in both histograms if something was recorded, else nothing new. */
  predicate Bumped(stats: map<nat, DeviceStats>, stats': map<nat, DeviceStats>, r: Option<Latency>, dev: nat, op: nat) {
    if r.Some?
    then ServiceHistogram(stats', dev, op) == Bump(ServiceHistogram(stats, dev, op), LatencyBucket(r.value.serviceNs))
         && TotalHistogram(stats', dev, op) == Bump(TotalHistogram(stats, dev, op), LatencyBucket(r.value.totalNs))
    else SameHistograms(stats, stats', dev, op)
  }

  lemma CompleteStats(c: Config, s: Tables, e: Event) returns (stats1: map<nat, DeviceStats>, queueNs: nat)
    requires e.Complete? && ShouldTrack(c, e.id)
    ensures var (own, op, l) := (c.deviceOf(e.id), c.operationOf(e.id), Closing(c, s, e));
      && stats1 == RecordBytes(c, s.stats, own, op, e.bytes, e.error, e.now, e.statsRoom)
      && HandleComplete(c, s, e.id, e.now, e.error, e.bytes, e.statsRoom).stats ==
           if l.Some?
           then RecordCompletion(c, stats1, own, op, queueNs, l.value.serviceNs, l.value.totalNs, e.now, e.statsRoom)
           else stats1
  {
    stats1 := RecordBytes(c, s.stats, c.deviceOf(e.id), c.operationOf(e.id), e.bytes, e.error, e.now, e.statsRoom);
    queueNs := 0;
    if e.id in s.requests { queueNs := QueueNs(Completed(s.requests[e.id], e.now), e.now); }
  }

  lemma CompleteBumps(c: Config, s: Tables, e: Event, dev: nat, op: nat)
    requires GoodStats(s.stats) && e.Complete? && op < OPERATIONS
    ensures Bumped(s.stats, HandleComplete(c, s, e.id, e.now, e.error, e.bytes, e.statsRoom).stats,
                   RecordedBy(c, s, e, dev, op), dev, op)
  {
    if ShouldTrack(c, e.id) {
      var own, op', l := c.deviceOf(e.id), c.operationOf(e.id), Closing(c, s, e);
      var stats1, queueNs := CompleteStats(c, s, e);
      BytesSame(c, s.stats, own, op', e.bytes, e.error, e.now, e.statsRoom, dev, op);
      RecordBytesKeeps(c, s.stats, own, op', e.bytes, e.error, e.now, e.statsRoom, own);
      RecordedEither(c, s.stats, stats1, own, e);
      if l.Some? {
        CompletionBumps(c, stats1, own, op', queueNs, l.value.serviceNs, l.value.totalNs, e.now, e.statsRoom, dev, op);
      }
    }
  }

  lemma EventBumps(c: Config, s: Tables, e: Event, dev: nat, op: nat)
    requires GoodStats(s.stats) && op < OPERATIONS
    ensures Bumped(s.stats, Handle(c, s, e).stats, RecordedBy(c, s, e, dev, op), dev, op)
  {
    if e.Complete? {
      CompleteBumps(c, s, e, dev, op);
    } else if !e.Merge? {
      CountsSame(c, s.stats, c.deviceOf(e.id), e.now, e.statsRoom, dev, op);
    }
  }

  /** Two histograms added up, bucket by bucket. */
  function AddHistograms(h: seq<nat>, more: seq<nat>): (sum: seq<nat>)
    requires |h| == |more|
    ensures |sum| == |h|
  {
    seq(|h|, i requires 0 <= i < |h| => h[i] + more[i])
  }

  lemma BumpSum(h: seq<nat>, more: seq<nat>, bucket: nat)
    requires |h| == |more|
    ensures Bump(AddHistograms(h, more), bucket) == AddHistograms(h, Bump(more, bucket))
  {
  }

  lemma AddNothing(h: seq<nat>)
    requires |h| == BUCKETS
    ensures AddHistograms(h, HistogramOf(LatencyBucket, [])) == h
    ensures AddHistograms(HistogramOf(LatencyBucket, []), h) == h
  {
  }

  lemma HistogramAppend(latencies: seq<nat>, l: nat)
    ensures HistogramOf(LatencyBucket, latencies + [l]) == Bump(HistogramOf(LatencyBucket, latencies), LatencyBucket(l))
  {
    assert (latencies + [l])[..|latencies|] == latencies;
  }

  lemma SumAppend(h: seq<nat>, latencies: seq<nat>, l: nat)
    requires |h| == BUCKETS
    ensures Bump(AddHistograms(h, HistogramOf(LatencyBucket, latencies)), LatencyBucket(l))
      == AddHistograms(h, HistogramOf(LatencyBucket, latencies + [l]))
  {
    HistogramAppend(latencies, l);
    BumpSum(h, HistogramOf(LatencyBucket, latencies), LatencyBucket(l));
  }

  /** From any tables on, a run adds to each histogram that of the times it records. */
  lemma {:induction false} RunsAddHistograms(c: Config, s0: Tables, es: seq<Event>, dev: nat, op: nat)
    requires GoodStats(s0.stats) && op < OPERATIONS
    requires |ServiceHistogram(s0.stats, dev, op)| == |TotalHistogram(s0.stats, dev, op)| == BUCKETS
    ensures GoodStats(After(c, s0, es).stats)
    ensures ServiceHistogram(After(c, s0, es).stats, dev, op)
      == AddHistograms(ServiceHistogram(s0.stats, dev, op),
                       HistogramOf(LatencyBucket, ServiceTimes(c, s0, es, dev, op)))
    ensures TotalHistogram(After(c, s0, es).stats, dev, op)
      == AddHistograms(TotalHistogram(s0.stats, dev, op), HistogramOf(LatencyBucket, TotalTimes(c, s0, es, dev, op)))
  {
    var h, g := ServiceHistogram(s0.stats, dev, op), TotalHistogram(s0.stats, dev, op);
    if es == [] {
      AddNothing(h);
      AddNothing(g);
    } else {
      var before, e := es[..|es| - 1], es[|es| - 1];
      RunsAddHistograms(c, s0, before, dev, op);
      var s := After(c, s0, before);
      EventBumps(c, s, e, dev, op);
      StatsStayGood(c, s, e);
      var service, total := ServiceTimes(c, s0, before, dev, op), TotalTimes(c, s0, before, dev, op);
      var r := RecordedBy(c, s, e, dev, op);
      if r.Some? {
        SumAppend(h, service, r.value.serviceNs);
        SumAppend(g, total, r.value.totalNs);
      } else {
        assert service + [] == service && total + [] == total;
      }
    }
  }

  /** In every run the histograms in the tables are those of the times recorded. */
  lemma HistogramsAreOfRecordedTimes(c: Config, s0: Tables, start: nat, es: seq<Event>, dev: nat, op: nat)
    requires Initial(s0, start) && op < OPERATIONS
    ensures GoodStats(After(c, s0, es).stats)
    ensures ServiceHistogram(After(c, s0, es).stats, dev, op)
      == HistogramOf(LatencyBucket, ServiceTimes(c, s0, es, dev, op))
    ensures TotalHistogram(After(c, s0, es).stats, dev, op)
      == HistogramOf(LatencyBucket, TotalTimes(c, s0, es, dev, op))
  {
    RunsAddHistograms(c, s0, es, dev, op);
    AddNothing(HistogramOf(LatencyBucket, ServiceTimes(c, s0, es, dev, op)));
    AddNothing(HistogramOf(LatencyBucket, TotalTimes(c, s0, es, dev, op)));
  }
}
