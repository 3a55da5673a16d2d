/** Every counter of the block statistics is a sum read off the events of the run:
    what is counted, for which device and operation, and under which settings. */
module BlockCounts {
  import opened Basics
  import opened BlockTrack
  import opened BlockLaws
  import opened BlockQuantiles
  import opened BlockRounds

  // ----------------------------------------------------- what an event counts

  // The counters, by number: bytes, operations, errors; queue, service and total
  // time; requeues and lost requests of the device.

  const NONE: seq<nat> := [0, 0, 0, 0, 0, 0, 0, 0]

  /** The statistics of `dev` are kept for this request. */
  predicate Watched(c: Config, id: nat, dev: nat) {
    && c.deviceOf(id) == dev && dev != 0
    && c.operationOf(id) < 5 && c.operationOf(id) in c.operationMask
    && (!c.filterEnabled || dev in c.trackedDevices)
  }

  /** A completion ends the request it is of, if that is known: by an error, or with the last of its bytes. */
  predicate EndsRequest(c: Config, s: Tables, e: Event)
    requires e.Complete?
  {
    c.requestTracking && (e.id !in s.requests || e.error || e.bytes >= s.requests[e.id].remaining)
  }

  /** Time in service of the request a completion is of, and its whole age. */
  function ServedFor(s: Tables, e: Event): nat
    requires e.Complete?
  {
    if e.id !in s.requests then 0
    else
      var r := s.requests[e.id];
      r.serviceNs + if r.issued && r.issueNs < e.now then e.now - r.issueNs else 0
  }

  function AgeOf(s: Tables, e: Event): nat
    requires e.Complete?
  {
    if e.id in s.requests && s.requests[e.id].firstSeen < e.now then e.now - s.requests[e.id].firstSeen else 0
  }

  function CompletionCounts(c: Config, s: Tables, e: Event): (v: seq<nat>)
    requires e.Complete?
    ensures |v| == STATS_COUNTERS
  {
    var (ends, served, age) := (EndsRequest(c, s, e), ServedFor(s, e), AgeOf(s, e));
    var timed := ends && c.latencyEnabled;
    [if c.bytesEnabled then e.bytes else 0,
     if ends && c.operationsEnabled then 1 else 0,
     if e.error && c.errorsEnabled then 1 else 0,
     if timed && age > served then age - served else 0,
     if timed then served else 0,
     if timed then age else 0,
     0, 0]
  }

  /** What an event adds to the counters of one operation of a device: nothing
      unless the device is watched and has an entry, or there is room for one. */
  function Counts(c: Config, s: Tables, e: Event, dev: nat, op: nat): (v: seq<nat>)
    ensures |v| == STATS_COUNTERS
  {
    if e.Merge? || !Watched(c, e.id, dev) || !(dev in s.stats || e.statsRoom) then NONE
    else match e
      case Complete(id, _, _, _, _) => if c.operationOf(id) == op then CompletionCounts(c, s, e) else NONE
      case Requeue(_, _, _) => if c.errorsEnabled then [0, 0, 0, 0, 0, 0, 1, 0] else NONE
      case _ =>
        if c.requestTracking && c.errorsEnabled && e.id !in s.requests && !e.room then [0, 0, 0, 0, 0, 0, 0, 1]
        else NONE
  }

  function Plus(a: seq<nat>, b: seq<nat>): (v: seq<nat>)
    requires |a| == |b| == STATS_COUNTERS
    ensures |v| == STATS_COUNTERS
  {
    [a[0] + b[0], a[1] + b[1], a[2] + b[2], a[3] + b[3], a[4] + b[4], a[5] + b[5], a[6] + b[6], a[7] + b[7]]
  }

  /** The sum over a run. */
  function Counted(c: Config, s0: Tables, es: seq<Event>, dev: nat, op: nat): (v: seq<nat>)
    ensures |v| == STATS_COUNTERS
  {
    if es == [] then NONE
    else
      var before := es[..|es| - 1];
      Plus(Counted(c, s0, before, dev, op), Counts(c, After(c, s0, before), es[|es| - 1], dev, op))
  }

  /** What the table shows, nothing counted where there is no entry. */
  function Shown(stats: map<nat, DeviceStats>, dev: nat, op: nat): (v: seq<nat>)
    ensures |v| == STATS_COUNTERS
  {
    if dev in stats then StatsCounters(stats[dev], op) else NONE
  }

  // ------------------------------------------------------- what the tables do

  lemma TouchShows(stats: map<nat, DeviceStats>, d: nat, now: nat, room: bool, dev: nat, op: nat)
    ensures Shown(Touch(stats, d, now, room), dev, op) == Shown(stats, dev, op)
  {
  }

  /** One operation of one device rewritten. */
  lemma UpdateShows(stats: map<nat, DeviceStats>, d: nat, op': nat, o: OpStats, now: nat, dev: nat, op: nat,
                    v: seq<nat>)
    requires d in stats && op' < |stats[d].ops| && |v| == STATS_COUNTERS && v[6] == v[7] == 0
    requires var b := stats[d].ops[op'];
      && o.bytes == b.bytes + v[0] && o.operations == b.operations + v[1] && o.errors == b.errors + v[2]
      && o.queueNs == b.queueNs + v[3] && o.serviceNs == b.serviceNs + v[4] && o.totalNs == b.totalNs + v[5]
    ensures Shown(stats[d := UpdateOp(stats[d], op', o).(lastSeen := now)], dev, op)
      == if d == dev && op == op' then Plus(Shown(stats, dev, op), v) else Shown(stats, dev, op)
  {
  }

  lemma PlusNone(v: seq<nat>)
    requires |v| == STATS_COUNTERS
    ensures Plus(v, NONE) == v
  {
  }

  /** The counters a completion moves at once, respectively when it ends its request. */
  function ByteCounts(c: Config, bytes: nat, error: bool): (v: seq<nat>)
    ensures |v| == STATS_COUNTERS
  {
    [if c.bytesEnabled then bytes else 0, 0, if error && c.errorsEnabled then 1 else 0, 0, 0, 0, 0, 0]
  }

  function EndCounts(c: Config, queueNs: nat, serviceNs: nat, totalNs: nat): (v: seq<nat>)
    ensures |v| == STATS_COUNTERS
  {
    var l := c.latencyEnabled;
    [0, if c.operationsEnabled then 1 else 0, 0,
     if l then queueNs else 0, if l then serviceNs else 0, if l then totalNs else 0, 0, 0]
  }

  lemma BytesShow(c: Config, stats: map<nat, DeviceStats>, d: nat, op': nat, bytes: nat, error: bool, now: nat,
                  room: bool, dev: nat, op: nat)
    requires GoodStats(stats) && op' < OPERATIONS
    ensures Shown(RecordBytes(c, stats, d, op', bytes, error, now, room), dev, op)
      == if d == dev && op == op' && (dev in stats || room)
         then Plus(Shown(stats, dev, op), ByteCounts(c, bytes, error)) else Shown(stats, dev, op)
  {
    var t, stats' := Touch(stats, d, now, room), RecordBytes(c, stats, d, op', bytes, error, now, room);
    if !c.bytesEnabled && (!c.errorsEnabled || !error) {
      assert ByteCounts(c, bytes, error) == NONE;
      PlusNone(Shown(stats, dev, op));
    } else {
      TouchShows(stats, d, now, room, dev, op);
      TouchKeeps(stats, d, now, room, d);
      if d in t {
        var o := OpOf(t[d], op');
        var o' := o.(bytes := if c.bytesEnabled then o.bytes + bytes else o.bytes,
                     errors := if c.errorsEnabled && error then o.errors + 1 else o.errors);
        assert stats' == t[d := UpdateOp(t[d], op', o').(lastSeen := now)];
        UpdateShows(t, d, op', o', now, dev, op, ByteCounts(c, bytes, error));
      }
    }
  }

  lemma CompletionShows(c: Config, stats: map<nat, DeviceStats>, d: nat, op': nat, queueNs: nat, serviceNs: nat,
                        totalNs: nat, now: nat, room: bool, dev: nat, op: nat)
    requires GoodStats(stats) && op' < OPERATIONS
    ensures Shown(RecordCompletion(c, stats, d, op', queueNs, serviceNs, totalNs, now, room), dev, op)
      == if d == dev && op == op' && (dev in stats || room)
         then Plus(Shown(stats, dev, op), EndCounts(c, queueNs, serviceNs, totalNs)) else Shown(stats, dev, op)
  {
    var t := Touch(stats, d, now, room);
    var stats' := RecordCompletion(c, stats, d, op', queueNs, serviceNs, totalNs, now, room);
    if !c.operationsEnabled && !c.latencyEnabled {
      assert EndCounts(c, queueNs, serviceNs, totalNs) == NONE;
      PlusNone(Shown(stats, dev, op));
    } else {
      TouchShows(stats, d, now, room, dev, op);
      TouchKeeps(stats, d, now, room, d);
      if d in t {
        var o := OpOf(t[d], op');
        var counted := if c.operationsEnabled then o.(operations := o.operations + 1) else o;
        var o' := if c.latencyEnabled then AddLatencies(counted, queueNs, serviceNs, totalNs) else counted;
        assert stats' == t[d := UpdateOp(t[d], op', o').(lastSeen := now)];
        UpdateShows(t, d, op', o', now, dev, op, EndCounts(c, queueNs, serviceNs, totalNs));
      }
    }
  }

  lemma LostShows(c: Config, stats: map<nat, DeviceStats>, d: nat, now: nat, room: bool, dev: nat, op: nat)
    ensures Shown(CountLost(c, stats, d, now, room), dev, op)
      == if d == dev && (dev in stats || room) && c.errorsEnabled
         then Plus(Shown(stats, dev, op), [0, 0, 0, 0, 0, 0, 0, 1]) else Shown(stats, dev, op)
  {
    TouchShows(stats, d, now, room, dev, op);
  }

  lemma RequeueShows(c: Config, stats: map<nat, DeviceStats>, d: nat, now: nat, room: bool, dev: nat, op: nat)
    ensures Shown(CountRequeue(c, stats, d, now, room), dev, op)
      == if d == dev && (dev in stats || room) && c.errorsEnabled
         then Plus(Shown(stats, dev, op), [0, 0, 0, 0, 0, 0, 1, 0]) else Shown(stats, dev, op)
  {
    TouchShows(stats, d, now, room, dev, op);
  }

  // -------------------------------------------------------------- main results

  /** Queue, service and total time of the request a completion ends. */
  function Ending(s: Tables, e: Event): (nat, nat, nat)
    requires e.Complete?
  {
    var (served, age) := (ServedFor(s, e), AgeOf(s, e));
    (if age > served then age - served else 0, served, age)
  }

  lemma CompletionParts(c: Config, s: Tables, e: Event, v: seq<nat>)
    requires e.Complete? && |v| == STATS_COUNTERS
    ensures var (first, t) := (Plus(v, ByteCounts(c, e.bytes, e.error)), Ending(s, e));
      Plus(v, CompletionCounts(c, s, e))
        == if EndsRequest(c, s, e) then Plus(first, EndCounts(c, t.0, t.1, t.2)) else first
  {
  }

  lemma EndingIs(s: Tables, e: Event)
    requires e.Complete? && e.id in s.requests
    ensures var f := Completed(s.requests[e.id], e.now);
      Ending(s, e) == (QueueNs(f, e.now), f.serviceNs, TotalNs(f, e.now))
  {
  }

  /** The statistics after a watched completion. */
  lemma CompleteWrites(c: Config, s: Tables, e: Event)
    requires e.Complete? && ShouldTrack(c, e.id)
    ensures var (d, op, t) := (c.deviceOf(e.id), c.operationOf(e.id), Ending(s, e));
      var stats1 := RecordBytes(c, s.stats, d, op, e.bytes, e.error, e.now, e.statsRoom);
      HandleComplete(c, s, e.id, e.now, e.error, e.bytes, e.statsRoom).stats
        == if EndsRequest(c, s, e) then RecordCompletion(c, stats1, d, op, t.0, t.1, t.2, e.now, e.statsRoom)
           else stats1
  {
    if e.id in s.requests {
      EndingIs(s, e);
      KnownWrites(c, s, e);
    }
  }

  lemma KnownWrites(c: Config, s: Tables, e: Event)
    requires e.Complete? && ShouldTrack(c, e.id) && e.id in s.requests
    ensures var (d, op, f) := (c.deviceOf(e.id), c.operationOf(e.id), Completed(s.requests[e.id], e.now));
      var stats1 := RecordBytes(c, s.stats, d, op, e.bytes, e.error, e.now, e.statsRoom);
      HandleComplete(c, s, e.id, e.now, e.error, e.bytes, e.statsRoom).stats
        == if EndsRequest(c, s, e)
           then RecordCompletion(c, stats1, d, op, QueueNs(f, e.now), f.serviceNs, TotalNs(f, e.now), e.now,
                                 e.statsRoom)
           else stats1
  {
  }

  lemma CompleteCounts(c: Config, s: Tables, e: Event, dev: nat, op: nat)
    requires GoodStats(s.stats) && e.Complete? && ShouldTrack(c, e.id)
    ensures var (d, op', v) := (c.deviceOf(e.id), c.operationOf(e.id), Shown(s.stats, dev, op));
      Shown(Handle(c, s, e).stats, dev, op)
        == if d == dev && op == op' && (dev in s.stats || e.statsRoom) then Plus(v, CompletionCounts(c, s, e)) else v
  {
    var d, op', t := c.deviceOf(e.id), c.operationOf(e.id), Ending(s, e);
    var stats1 := RecordBytes(c, s.stats, d, op', e.bytes, e.error, e.now, e.statsRoom);
    CompleteWrites(c, s, e);
    CompletionParts(c, s, e, Shown(s.stats, dev, op));
    BytesShow(c, s.stats, d, op', e.bytes, e.error, e.now, e.statsRoom, dev, op);
    RecordBytesKeeps(c, s.stats, d, op', e.bytes, e.error, e.now, e.statsRoom, d);
    EntryStays(c, s.stats, d, op', e);
    CompletionShows(c, stats1, d, op', t.0, t.1, t.2, e.now, e.statsRoom, dev, op);
  }

  lemma EntryStays(c: Config, stats: map<nat, DeviceStats>, d: nat, op: nat, e: Event)
    requires e.Complete?
    ensures d in RecordBytes(c, stats, d, op, e.bytes, e.error, e.now, e.statsRoom) || e.statsRoom
      <==> d in stats || e.statsRoom
  {
  }

  /** A request is tracked exactly if the statistics of its device are kept for it. */
  lemma TrackedIsWatched(c: Config, id: nat, dev: nat)
    ensures Watched(c, id, dev) <==> ShouldTrack(c, id) && c.deviceOf(id) == dev
  {
  }

  lemma OtherWrites(c: Config, s: Tables, e: Event)
    requires !e.Complete? && !e.Merge?
    ensures var (d, tracked) := (c.deviceOf(e.id), ShouldTrack(c, e.id));
      Handle(c, s, e).stats
        == if e.Requeue?
           then if tracked && (c.errorsEnabled || c.requestTracking)
                then CountRequeue(c, s.stats, d, e.now, e.statsRoom) else s.stats
           else if tracked && c.requestTracking && e.id !in s.requests && !e.room
                then CountLost(c, s.stats, d, e.now, e.statsRoom) else s.stats
  {
  }

  lemma EventCounts(c: Config, s: Tables, e: Event, dev: nat, op: nat)
    requires GoodStats(s.stats) && op < OPERATIONS
    ensures Shown(Handle(c, s, e).stats, dev, op) == Plus(Shown(s.stats, dev, op), Counts(c, s, e, dev, op))
  {
    TrackedIsWatched(c, e.id, dev);
    PlusNone(Shown(s.stats, dev, op));
    if e.Complete? {
      if ShouldTrack(c, e.id) { CompleteCounts(c, s, e, dev, op); }
    } else if !e.Merge? {
      OtherWrites(c, s, e);
      LostShows(c, s.stats, c.deviceOf(e.id), e.now, e.statsRoom, dev, op);
      RequeueShows(c, s.stats, c.deviceOf(e.id), e.now, e.statsRoom, dev, op);
    }
  }

  /** In every run each counter of each operation of each device is the sum of what the events count. */
  lemma {:induction false} StatsAreCounted(c: Config, s0: Tables, start: nat, es: seq<Event>, dev: nat, op: nat)
    requires Initial(s0, start) && op < OPERATIONS
    ensures Shown(After(c, s0, es).stats, dev, op) == Counted(c, s0, es, dev, op)
    ensures GoodStats(After(c, s0, es).stats)
  {
    if es != [] {
      var before, e := es[..|es| - 1], es[|es| - 1];
      StatsAreCounted(c, s0, start, before, dev, op);
      EventCounts(c, After(c, s0, before), e, dev, op);
      StatsStayGood(c, After(c, s0, before), e);
    }
  }

  function SumOfTimes(times: seq<nat>): nat {
    if times == [] then 0 else SumOfTimes(times[..|times| - 1]) + times[|times| - 1]
  }

  lemma RecordedIsCounted(c: Config, s: Tables, e: Event, dev: nat, op: nat)
    requires op < OPERATIONS
    ensures var (r, v) := (RecordedBy(c, s, e, dev, op), Counts(c, s, e, dev, op));
      && (c.operationsEnabled && c.latencyEnabled ==> v[1] == if r.Some? then 1 else 0)
      && v[4] == (if r.Some? then r.value.serviceNs else 0) && v[5] == if r.Some? then r.value.totalNs else 0
  {
  }

  lemma OneMoreTime(times: seq<nat>, t: nat)
    ensures SumOfTimes(times + [t]) == SumOfTimes(times) + t
  {
    assert (times + [t])[..|times|] == times;
  }

  lemma MoreTimes(times: seq<nat>, r: Option<Latency>, service: bool)
    ensures var more := if r.None? then [] else [if service then r.value.serviceNs else r.value.totalNs];
      && |times + more| == |times| + (if r.Some? then 1 else 0)
      && SumOfTimes(times + more)
           == SumOfTimes(times) + if r.None? then 0 else if service then r.value.serviceNs else r.value.totalNs
  {
    if r.Some? {
      OneMoreTime(times, if service then r.value.serviceNs else r.value.totalNs);
    } else {
      assert times + [] == times;
    }
  }

  /** Counters that are those of some recorded times. */
  predicate IsOfTimes(c: Config, v: seq<nat>, service: seq<nat>, total: seq<nat>)
    requires |v| == STATS_COUNTERS
  {
    && (c.operationsEnabled && c.latencyEnabled ==> v[1] == |service| == |total|)
    && v[4] == SumOfTimes(service) && v[5] == SumOfTimes(total)
  }

  lemma OneMoreRecord(c: Config, s: Tables, e: Event, dev: nat, op: nat, v: seq<nat>, service: seq<nat>,
                      total: seq<nat>)
    requires op < OPERATIONS && |v| == STATS_COUNTERS && IsOfTimes(c, v, service, total)
    ensures var r := RecordedBy(c, s, e, dev, op);
      IsOfTimes(c, Plus(v, Counts(c, s, e, dev, op)),
                service + if r.None? then [] else [r.value.serviceNs],
                total + if r.None? then [] else [r.value.totalNs])
  {
    RecordedIsCounted(c, s, e, dev, op);
    MoreTimes(service, RecordedBy(c, s, e, dev, op), true);
    MoreTimes(total, RecordedBy(c, s, e, dev, op), false);
  }

  lemma {:induction false} CountedTimes(c: Config, s0: Tables, es: seq<Event>, dev: nat, op: nat)
    requires op < OPERATIONS
    ensures IsOfTimes(c, Counted(c, s0, es, dev, op), ServiceTimes(c, s0, es, dev, op), TotalTimes(c, s0, es, dev, op))
  {
    if es != [] {
      var before := es[..|es| - 1];
      CountedTimes(c, s0, before, dev, op);
      OneMoreRecord(c, After(c, s0, before), es[|es| - 1], dev, op, Counted(c, s0, before, dev, op),
                    ServiceTimes(c, s0, before, dev, op), TotalTimes(c, s0, before, dev, op));
    }
  }

  /** With operations and latency enabled, every operation counted has its times
      recorded, and the sums are theirs. */
  lemma OperationsAreTimed(c: Config, s0: Tables, start: nat, es: seq<Event>, dev: nat, op: nat)
    requires Initial(s0, start) && op < OPERATIONS
    ensures var v := Shown(After(c, s0, es).stats, dev, op);
      && (c.operationsEnabled && c.latencyEnabled ==> v[1] == |TotalTimes(c, s0, es, dev, op)|)
      && v[4] == SumOfTimes(ServiceTimes(c, s0, es, dev, op)) && v[5] == SumOfTimes(TotalTimes(c, s0, es, dev, op))
  {
    StatsAreCounted(c, s0, start, es, dev, op);
    CountedTimes(c, s0, es, dev, op);
  }
}
