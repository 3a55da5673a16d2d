/** The tracepoint programs of bpf/src/bpf/blocktrack.bpf.c as they run: map
    entries are looked up, changed field by field and written back. Each is
    proved to do exactly one step of the `BlockTrack` tables. */
module BlockTracker {
  import opened Basics
  import opened BlockTrack

  predicate ShapedOp(o: OpStats) { |o.serviceHistogram| == BUCKETS == |o.totalHistogram| }

  predicate Shaped(s: DeviceStats) {
    |s.ops| == OPERATIONS && forall op | 0 <= op < OPERATIONS :: ShapedOp(s.ops[op])
  }

  /** The five shifts of `latency_bucket`. */
  method FindHighestBit(m: nat) returns (bucket: nat)
    requires 0 < m < 0x1_0000_0000
    ensures bucket == HighestBit(m) && bucket < BUCKETS
  {
    var micros := m;
    bucket := 0;
    ghost var a := Narrow((micros, 0), 0x1_0000, 16);
    if micros >= 0x1_0000 {
      micros := micros / 0x1_0000;
      bucket := bucket + 16;
    }
    assert (micros, bucket) == a && bucket <= 16;
    ghost var b := Narrow(a, 0x100, 8);
    if micros >= 0x100 {
      micros := micros / 0x100;
      bucket := bucket + 8;
    }
    assert (micros, bucket) == b && bucket <= 24;
    ghost var c := Narrow(b, 0x10, 4);
    if micros >= 0x10 {
      micros := micros / 0x10;
      bucket := bucket + 4;
    }
    assert (micros, bucket) == c && bucket <= 28;
    ghost var d := Narrow(c, 4, 2);
    if micros >= 4 {
      micros := micros / 4;
      bucket := bucket + 2;
    }
    assert (micros, bucket) == d && bucket <= 30;
    if micros >= 2 {
      bucket := bucket + 1;
    }
    assert bucket == Narrow(d, 2, 1).1;
  }

  /** `latency_bucket`. */
  method FindBucket(latencyNs: nat) returns (bucket: nat)
    ensures bucket == LatencyBucket(latencyNs)
    ensures bucket < BUCKETS
  {
    var micros := latencyNs / 1000;
    if micros <= 1 {
      return 0;
    }
    if micros >= 0x8000_0000 {
      return BUCKETS - 1;
    }
    bucket := FindHighestBit(micros);
  }

  /** Two updates of one entry at the same instant amount to one. */
  lemma ShiftTwice(d: Depth, now: nat)
    requires MaximaHold(d)
    ensures ShiftDepth(ShiftDepth(d, -1, 0, now), 0, 1, now) == ShiftDepth(d, -1, 1, now)
    ensures ShiftDepth(ShiftDepth(d, 0, -1, now), -1, 0, now) == ShiftDepth(d, -1, -1, now)
  {
  }

  lemma ShiftsTwice(c: Config, depths: map<nat, Depth>, dev: nat, now: nat)
    requires dev in depths ==> MaximaHold(depths[dev])
    ensures ShiftDepths(c, ShiftDepths(c, depths, dev, -1, 0, now), dev, 0, 1, now)
        == ShiftDepths(c, depths, dev, -1, 1, now)
    ensures ShiftDepths(c, ShiftDepths(c, depths, dev, 0, -1, now), dev, -1, 0, now)
        == ShiftDepths(c, depths, dev, -1, -1, now)
  {
    if dev in depths { ShiftTwice(depths[dev], now); }
  }

  /** Creating a request and issuing it at once amounts to storing it as issued. */
  lemma PutTwice(c: Config, s: Tables, id: nat, now: nat, bytes: nat)
    requires id !in s.requests
    ensures var n := NewRequest(now, bytes, false);
      Put(c, Put(c, s, id, n, now), id, Issued(n, now, bytes), now) == Put(c, s, id, Issued(n, now, bytes), now)
  {
    var n := NewRequest(now, bytes, false);
    assert s.requests[id := n][id := Issued(n, now, bytes)] == s.requests[id := Issued(n, now, bytes)];
  }

  /** The first part of `adjust_depth`. */
  method Charge(entry: Depth, now: nat) returns (d: Depth)
    ensures d == Advance(entry, now).(lastUpdate := entry.lastUpdate)
  {
    d := entry;
    if d.lastUpdate != 0 && now > d.lastUpdate {
      var elapsed := now - d.lastUpdate;
      if d.inflight > 0 { d := d.(busyNs := d.busyNs + elapsed); }
      if d.queued > 0 { d := d.(saturatedNs := d.saturatedNs + elapsed); }
      d := d.(inflightNs := d.inflightNs + elapsed * d.inflight);
      d := d.(queuedNs := d.queuedNs + elapsed * d.queued);
    }
  }

  /** One step up, or down unless at zero. */
  function Move(n: nat, delta: int): nat {
    if delta > 0 then n + 1 else if delta < 0 && n > 0 then n - 1 else n
  }

  /** The counting part of `record_bytes`, on one operation's entry. */
  method AddTransfer(cfg: Config, entry: OpStats, bytes: nat, error: bool) returns (o: OpStats)
    requires ShapedOp(entry)
    ensures ShapedOp(o) && o == entry.(bytes := if cfg.bytesEnabled then entry.bytes + bytes else entry.bytes,
                                       errors := if cfg.errorsEnabled && error then entry.errors + 1 else entry.errors)
  {
    o := entry;
    if cfg.bytesEnabled && bytes > 0 { o := o.(bytes := o.bytes + bytes); }
    if cfg.errorsEnabled && error { o := o.(errors := o.errors + 1); }
  }

  /** The latency part of `record_completion`, on one operation's entry. */
  method AddSample(entry: OpStats, queueNs: nat, serviceNs: nat, totalNs: nat) returns (o: OpStats)
    requires ShapedOp(entry)
    ensures o == AddLatencies(entry, queueNs, serviceNs, totalNs) && ShapedOp(o)
  {
    o := entry;
    o := o.(queueNs := o.queueNs + queueNs);
    o := o.(serviceNs := o.serviceNs + serviceNs);
    o := o.(totalNs := o.totalNs + totalNs);
    var serviceBucket := FindBucket(serviceNs);
    var totalBucket := FindBucket(totalNs);
    o := o.(serviceHistogram := o.serviceHistogram[serviceBucket := o.serviceHistogram[serviceBucket] + 1]);
    o := o.(totalHistogram := o.totalHistogram[totalBucket := o.totalHistogram[totalBucket] + 1]);
  }

  class Tracker {
    const cfg: Config
    var requests: map<nat, Request>
    var depths: map<nat, Depth>
    var stats: map<nat, DeviceStats>

    /** Every statistics entry has its five operations with full histograms,
        and no depth counter exceeds its maximum. */
    ghost predicate Valid()
      reads this
    {
      && (forall dev | dev in stats :: Shaped(stats[dev]))
      && (forall dev | dev in depths :: MaximaHold(depths[dev]))
    }

    ghost function Contents(): Tables
      reads this
    {
      Tables(requests, depths, stats)
    }

    /** Loading: every tracked device has its depth entry, stamped with the time of loading. */
    constructor (cfg: Config, devices: set<nat>, start: nat)
      requires start > 0
      ensures Valid() && this.cfg == cfg && depths.Keys == devices && Initial(Contents(), start)
    {
      this.cfg := cfg;
      requests := map[];
      depths := map dev | dev in devices :: Depth(start, start, 0, 0, 0, 0, 0, 0, 0, 0);
      stats := map[];
    }

    /** `adjust_depth`. */
    method AdjustDepth(dev: nat, queuedDelta: int, inflightDelta: int, now: nat)
      requires Valid() && -1 <= queuedDelta <= 1 && -1 <= inflightDelta <= 1
      modifies `depths
      ensures Valid() && depths == ShiftDepths(cfg, old(depths), dev, queuedDelta, inflightDelta, now)
    {
      if !cfg.saturationEnabled || dev !in depths {
        return;
      }
      var d := Charge(depths[dev], now);
      d := d.(queued := Move(d.queued, queuedDelta));
      d := d.(inflight := Move(d.inflight, inflightDelta));
      if d.queued > d.maxQueued { d := d.(maxQueued := d.queued); }
      if d.inflight > d.maxInflight { d := d.(maxInflight := d.inflight); }
      d := d.(lastUpdate := now);
      depths := depths[dev := d];
    }

    /** `get_device_stats`. */
    method GetStats(dev: nat, now: nat, room: bool) returns (found: bool)
      requires Valid()
      modifies `stats
      ensures Valid() && stats == Touch(old(stats), dev, now, room) && found == (dev in stats)
    {
      if dev in stats {
        if stats[dev].firstSeen == 0 {
          stats := stats[dev := stats[dev].(firstSeen := now)];
        }
        return true;
      }
      if !room {
        return false;
      }
      stats := stats[dev := DeviceStats(seq(OPERATIONS, _ => NoOps()), 0, 0, now, now)];
      return true;
    }

    /** Write back one operation's entry and stamp the device. */
    method StoreOp(dev: nat, op: nat, o: OpStats, now: nat)
      requires Valid() && dev in stats && op < OPERATIONS && ShapedOp(o)
      modifies `stats
      ensures Valid() && stats == old(stats)[dev := UpdateOp(old(stats[dev]), op, o).(lastSeen := now)]
    {
      var entry := stats[dev].(lastSeen := now);
      entry := entry.(ops := entry.ops[op := o]);
      assert Shaped(entry);
      stats := stats[dev := entry];
    }

    /** `record_bytes`. */
    method RecordTransfer(dev: nat, op: nat, bytes: nat, error: bool, now: nat, room: bool)
      requires Valid() && op < OPERATIONS
      modifies `stats
      ensures Valid() && stats == RecordBytes(cfg, old(stats), dev, op, bytes, error, now, room)
    {
      if !cfg.bytesEnabled && (!cfg.errorsEnabled || !error) {
        return;
      }
      var found := GetStats(dev, now, room);
      if found {
        var o := AddTransfer(cfg, stats[dev].ops[op], bytes, error);
        StoreOp(dev, op, o, now);
      }
    }

    /** `record_completion`. */
    method RecordLatency(dev: nat, op: nat, queueNs: nat, serviceNs: nat, totalNs: nat, now: nat, room: bool)
      requires Valid() && op < OPERATIONS
      modifies `stats
      ensures Valid() && stats == RecordCompletion(cfg, old(stats), dev, op, queueNs, serviceNs, totalNs, now, room)
    {
      if !cfg.operationsEnabled && !cfg.latencyEnabled {
        return;
      }
      var found := GetStats(dev, now, room);
      if found {
        var o := stats[dev].ops[op];
        if cfg.operationsEnabled { o := o.(operations := o.operations + 1); }
        if cfg.latencyEnabled { o := AddSample(o, queueNs, serviceNs, totalNs); }
        StoreOp(dev, op, o, now);
      }
    }

    /** `record_lost_request`. */
    method RecordLost(dev: nat, now: nat, room: bool)
      requires Valid()
      modifies `stats
      ensures Valid() && stats == CountLost(cfg, old(stats), dev, now, room)
    {
      if !cfg.errorsEnabled {
        return;
      }
      var found := GetStats(dev, now, room);
      if found {
        stats := stats[dev := stats[dev].(lostRequests := stats[dev].lostRequests + 1)];
      }
    }

    /** `create_request`. */
    method CreateRequest(id: nat, now: nat, bytes: nat, inserted: bool, room: bool, statsRoom: bool) returns (ok: bool)
      requires Valid() && id !in requests
      modifies this
      ensures Valid() && ok == room
      ensures !ok ==>
        Contents() == old(Contents()).(stats := CountLost(cfg, old(stats), cfg.deviceOf(id), now, statsRoom))
      ensures ok ==> Contents() == Put(cfg, old(Contents()), id, NewRequest(now, bytes, inserted), now)
    {
      var dev := cfg.deviceOf(id);
      var initial := Request(now, if inserted then now else 0, 0, 0, bytes, bytes, 0, inserted, false);
      if !room {
        RecordLost(dev, now, statsRoom);
        return false;
      }
      requests := requests[id := initial];
      if inserted { AdjustDepth(dev, 1, 0, now); }
      return true;
    }

    /** `block_rq_insert`. */
    method OnInsert(id: nat, now: nat, bytes: nat, room: bool, statsRoom: bool)
      requires Valid()
      modifies this
      ensures Valid() && Contents() == Handle(cfg, old(Contents()), Insert(id, now, bytes, room, statsRoom))
    {
      if !cfg.requestTracking || !ShouldTrack(cfg, id) {
        return;
      }
      if id !in requests {
        var _ := CreateRequest(id, now, bytes, true, room, statsRoom);
        return;
      }
      var state := requests[id];
      state := state.(bytes := bytes);
      if state.remaining < state.bytes { state := state.(remaining := state.bytes); }
      if !state.inserted && !state.issued {
        state := state.(insertNs := now);
        state := state.(inserted := true);
        AdjustDepth(cfg.deviceOf(id), 1, 0, now);
      }
      requests := requests[id := state];
    }

    /** `block_rq_merge`. */
    method OnMerge(id: nat, bytes: nat)
      requires Valid()
      modifies this
      ensures Valid() && Contents() == Handle(cfg, old(Contents()), Merge(id, bytes))
    {
      if !cfg.requestTracking {
        return;
      }
      if id in requests {
        requests := requests[id := requests[id].(bytes := bytes)];
        requests := requests[id := requests[id].(remaining := bytes)];
      }
    }

    /** Leave the queue and enter service, each only if need be. */
    method MoveToService(dev: nat, inserted: bool, issued: bool, now: nat)
      requires Valid()
      modifies `depths
      ensures Valid() && depths == Moved(cfg, old(depths), dev, -Unit(inserted), 1 - Unit(issued), now)
    {
      ShiftsTwice(cfg, depths, dev, now);
      if inserted { AdjustDepth(dev, -1, 0, now); }
      if !issued { AdjustDepth(dev, 0, 1, now); }
    }

    /** Leave service and the queue, each only if need be. */
    method MoveOut(dev: nat, ends: bool, inserted: bool, now: nat)
      requires Valid()
      modifies `depths
      ensures Valid() && depths == Moved(cfg, old(depths), dev, -Unit(inserted), -Unit(ends), now)
    {
      ShiftsTwice(cfg, depths, dev, now);
      if ends { AdjustDepth(dev, 0, -1, now); }
      if inserted { AdjustDepth(dev, -1, 0, now); }
    }

    /** The second half of `block_rq_issue`, on a request that is in the map. */
    method StartAttempt(id: nat, now: nat, bytes: nat)
      requires Valid() && id in requests
      modifies this
      ensures Valid() && Contents() == Put(cfg, old(Contents()), id, Issued(old(requests[id]), now, bytes), now)
    {
      var state := requests[id];
      MoveToService(cfg.deviceOf(id), state.inserted, state.issued, now);
      state := state.(inserted := false);
      state := state.(issued := true);
      state := state.(issueNs := now);
      state := state.(bytes := bytes);
      if state.remaining == 0 { state := state.(remaining := state.bytes); }
      requests := requests[id := state];
    }

    /** `block_rq_issue`. */
    method OnIssue(id: nat, now: nat, bytes: nat, room: bool, statsRoom: bool)
      requires Valid()
      modifies this
      ensures Valid() && Contents() == Handle(cfg, old(Contents()), Issue(id, now, bytes, room, statsRoom))
    {
      if !cfg.requestTracking || !ShouldTrack(cfg, id) {
        return;
      }
      if id !in requests {
        var created := CreateRequest(id, now, bytes, false, room, statsRoom);
        if !created {
          return;
        }
        PutTwice(cfg, old(Contents()), id, now, bytes);
      }
      StartAttempt(id, now, bytes);
    }

    /** The statistics part of `block_rq_requeue`. */
    method RecordRequeue(dev: nat, now: nat, room: bool)
      requires Valid()
      modifies `stats
      ensures Valid() && stats == CountRequeue(cfg, old(stats), dev, now, room)
    {
      if !cfg.errorsEnabled {
        return;
      }
      var found := GetStats(dev, now, room);
      if found {
        stats := stats[dev := stats[dev].(requeues := stats[dev].requeues + 1)];
      }
    }

    /** `block_rq_requeue`. */
    method OnRequeue(id: nat, now: nat, statsRoom: bool)
      requires Valid()
      modifies this
      ensures Valid() && Contents() == Handle(cfg, old(Contents()), Requeue(id, now, statsRoom))
    {
      if (!cfg.errorsEnabled && !cfg.requestTracking) || !ShouldTrack(cfg, id) {
        return;
      }
      RecordRequeue(cfg.deviceOf(id), now, statsRoom);
      if !cfg.requestTracking || id !in requests {
        return;
      }
      var state := requests[id];
      var ends := state.issued && now > state.issueNs;
      MoveOut(cfg.deviceOf(id), ends, false, now);
      if ends {
        state := state.(serviceNs := state.serviceNs + (now - state.issueNs));
        state := state.(issued := false);
      }
      state := state.(requeues := state.requeues + 1);
      state := state.(issueNs := 0);
      requests := requests[id := state];
    }

    /** The end of `block_rq_complete`: close the request's attempt and forget it. */
    method Finish(id: nat, now: nat) returns (state: Request)
      requires Valid() && id in requests
      modifies `requests, `depths
      ensures state == Completed(old(requests[id]), now)
      ensures requests == old(requests) - {id}
      ensures Valid() && depths == Put(cfg, old(Contents()), id, state, now).depths
    {
      state := requests[id];
      var ends := state.issued && now > state.issueNs;
      MoveOut(cfg.deviceOf(id), ends, state.inserted, now);
      if ends {
        state := state.(serviceNs := state.serviceNs + (now - state.issueNs));
        state := state.(issued := false);
      }
      state := state.(inserted := false);
      requests := requests - {id};
    }

    /** Finish a request and record how long it took. */
    method Conclude(id: nat, now: nat, statsRoom: bool)
      requires Valid() && id in requests && cfg.operationOf(id) < OPERATIONS
      modifies this
      ensures var f := Completed(old(requests[id]), now);
        && Valid() && requests == old(requests) - {id}
        && depths == Put(cfg, old(Contents()), id, f, now).depths
        && stats == RecordCompletion(cfg, old(stats), cfg.deviceOf(id), cfg.operationOf(id),
                                     QueueNs(f, now), f.serviceNs, TotalNs(f, now), now, statsRoom)
    {
      var state := Finish(id, now);
      var totalNs := if now > state.firstSeen then now - state.firstSeen else 0;
      var queueNs := if totalNs > state.serviceNs then totalNs - state.serviceNs else 0;
      RecordLatency(cfg.deviceOf(id), cfg.operationOf(id), queueNs, state.serviceNs, totalNs, now, statsRoom);
    }

    /** `block_rq_complete`. */
    method OnComplete(id: nat, now: nat, error: bool, bytes: nat, statsRoom: bool)
      requires Valid()
      modifies this
      ensures Valid() && Contents() == Handle(cfg, old(Contents()), Complete(id, now, error, bytes, statsRoom))
    {
      if !ShouldTrack(cfg, id) {
        return;
      }
      var dev, op := cfg.deviceOf(id), cfg.operationOf(id);
      RecordTransfer(dev, op, bytes, error, now, statsRoom);
      if !cfg.requestTracking {
        return;
      }
      if id !in requests {
        RecordLatency(dev, op, 0, 0, 0, now, statsRoom);
        return;
      }
      if !error && bytes < requests[id].remaining {
        requests := requests[id := requests[id].(remaining := requests[id].remaining - bytes)];
        return;
      }
      Conclude(id, now, statsRoom);
    }
  }
}
