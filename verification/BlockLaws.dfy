/** The two accounting schemes of the block tracker, time integrals of queue
    depth and sums of request latencies, agree: Little's law. */
module BlockLaws {
  import opened Basics
  import opened Sums
  import opened BlockTrack

  // ------------------------------------------------------- sums over requests

  ghost function On(c: Config, reqs: map<nat, Request>, dev: nat, entry: Request -> int): nat -> int {
    id => if id in reqs && c.deviceOf(id) == dev then entry(reqs[id]) else 0
  }

  /** The sum of `entry` over the live requests of a device. */
  ghost function Total(c: Config, reqs: map<nat, Request>, dev: nat, entry: Request -> int): int {
    Sum(reqs.Keys, On(c, reqs, dev, entry))
  }

  ghost function Part(c: Config, reqs: map<nat, Request>, dev: nat, entry: Request -> int, id: nat): int {
    On(c, reqs, dev, entry)(id)
  }

  lemma TotalAfterChange(c: Config, reqs: map<nat, Request>, reqs': map<nat, Request>, dev: nat, entry: Request -> int,
                         id: nat)
    requires reqs.Keys - {id} == reqs'.Keys - {id}
    requires forall x | x in reqs && x != id :: x in reqs' && reqs'[x] == reqs[x]
    ensures Total(c, reqs', dev, entry) == Total(c, reqs, dev, entry)
              - Part(c, reqs, dev, entry, id) + Part(c, reqs', dev, entry, id)
  {
    SumChange(reqs.Keys, reqs'.Keys, On(c, reqs, dev, entry), On(c, reqs', dev, entry), id);
  }

  function IssuedFlag(): Request -> int { (r: Request) => Unit(r.issued) }

  function InsertedFlag(): Request -> int { (r: Request) => Unit(r.inserted) }

  /** Service time of a request extended to time `t`. */
  function ServiceUntil(t: nat): Request -> int {
    (r: Request) => r.serviceNs + (if r.issued then t - r.issueNs else 0)
  }

  // --------------------------------------------------------- recorded latency

  function SumService(ops: seq<OpStats>): nat {
    if ops == [] then 0 else ops[0].serviceNs + SumService(ops[1..])
  }

  /** Service latency recorded for a device, over all its operations. */
  function RecordedService(stats: map<nat, DeviceStats>, dev: nat): nat {
    if dev in stats then SumService(stats[dev].ops) else 0
  }

  lemma {:induction false} SumServiceUpdate(ops: seq<OpStats>, op: nat, o: OpStats)
    requires op < |ops|
    ensures SumService(ops[op := o]) == SumService(ops) - ops[op].serviceNs + o.serviceNs
  {
    if op == 0 {
      assert ops[op := o][1..] == ops[1..];
    } else {
      SumServiceUpdate(ops[1..], op - 1, o);
      assert ops[op := o][1..] == ops[1..][op - 1 := o];
    }
  }

  predicate GoodStats(stats: map<nat, DeviceStats>) {
    forall dev | dev in stats :: |stats[dev].ops| == OPERATIONS
  }

  lemma {:induction false} SumServiceFresh(n: nat)
    ensures SumService(seq(n, _ => NoOps())) == 0
  {
    if n > 0 {
      SumServiceFresh(n - 1);
      assert seq(n, _ => NoOps())[1..] == seq(n - 1, _ => NoOps());
    }
  }

  lemma TouchKeeps(stats: map<nat, DeviceStats>, dev: nat, now: nat, room: bool, d: nat)
    requires GoodStats(stats)
    ensures GoodStats(Touch(stats, dev, now, room))
    ensures RecordedService(Touch(stats, dev, now, room), d) == RecordedService(stats, d)
  {
    SumServiceFresh(OPERATIONS);
  }

  lemma RecordBytesKeeps(c: Config, stats: map<nat, DeviceStats>, dev: nat, op: nat, bytes: nat, error: bool,
                         now: nat, room: bool, d: nat)
    requires GoodStats(stats) && op < OPERATIONS
    ensures var t := RecordBytes(c, stats, dev, op, bytes, error, now, room);
      GoodStats(t) && RecordedService(t, d) == RecordedService(stats, d)
  {
    TouchKeeps(stats, dev, now, room, d);
    var t := Touch(stats, dev, now, room);
    if dev in t {
      var o := OpOf(t[dev], op);
      SumServiceUpdate(t[dev].ops, op, o.(bytes := if c.bytesEnabled then o.bytes + bytes else o.bytes,
                                          errors := if c.errorsEnabled && error then o.errors + 1 else o.errors));
    }
  }

  /** The completion's service time reaches the statistics. */
  predicate Recorded(c: Config, stats: map<nat, DeviceStats>, dev: nat, room: bool) {
    c.latencyEnabled && (dev in stats || room)
  }

  lemma RecordCompletionAdds(c: Config, stats: map<nat, DeviceStats>, dev: nat, op: nat,
                             queueNs: nat, serviceNs: nat, totalNs: nat, now: nat, room: bool, d: nat)
    requires GoodStats(stats) && op < OPERATIONS
    ensures var t := RecordCompletion(c, stats, dev, op, queueNs, serviceNs, totalNs, now, room);
      GoodStats(t) && RecordedService(t, d) == RecordedService(stats, d)
                        + if d == dev && Recorded(c, stats, dev, room) then serviceNs else 0
  {
    TouchKeeps(stats, dev, now, room, d);
    var t := Touch(stats, dev, now, room);
    if dev in t {
      var o := OpOf(t[dev], op);
      var counted := if c.operationsEnabled then o.(operations := o.operations + 1) else o;
      SumServiceUpdate(t[dev].ops, op,
                       if c.latencyEnabled then AddLatencies(counted, queueNs, serviceNs, totalNs) else counted);
    }
  }

  // -------------------------------------------------------- the depth integral

  lemma ShiftedIntegral(d: Depth, queuedDelta: int, inflightDelta: int, now: nat, t: nat)
    requires 0 < d.lastUpdate <= now && d.inflight + inflightDelta >= 0
    ensures var d' := ShiftDepth(d, queuedDelta, inflightDelta, now);
      d'.lastUpdate == now && InflightUntil(d', t) == InflightUntil(d, t) + inflightDelta * (t - now)
  {
    var e, i := now - d.lastUpdate, d.inflight;
    assert (t - d.lastUpdate) * i == e * i + (t - now) * i;
    assert (t - now) * (i + inflightDelta) == (t - now) * i + inflightDelta * (t - now);
  }

  // ------------------------------------------------------------------ ledger

  /** The handler looks at request `id` of device `dev`. */
  predicate Reaches(c: Config, s: Tables, id: nat, dev: nat) {
    c.requestTracking && ShouldTrack(c, id) && c.deviceOf(id) == dev && id in s.requests
  }

  /** The completion ends the request rather than a part of it. */
  predicate Closes(s: Tables, e: Event)
    requires e.Complete? && e.id in s.requests
  {
    e.error || e.bytes >= s.requests[e.id].remaining
  }

  /** An attempt that is not charged because the clock has not moved since its issue. */
  predicate Instant(r: Request, now: nat) { r.issued && !EndsAttempt(r, now) }

  /** How far an event drives the depth integral, extended to `t`, away from
      the latency sums: a second issue restarts the clock of an attempt, an
      instantaneous requeue or completion leaves an attempt running, and a
      completion may find no room for its record. */
  function Drift(c: Config, s: Tables, e: Event, dev: nat, t: nat): int {
    if !Reaches(c, s, e.id, dev) then 0
    else
      var r := s.requests[e.id];
      match e
      case Issue(_, now, _, _, _) => if r.issued then now - r.issueNs else 0
      case Requeue(_, now, _) => if Instant(r, now) then 0 - r.issueNs else 0
      case Complete(_, now, _, _, room) =>
        if !Closes(s, e) then 0
        else (if Instant(r, now) then t - r.issueNs else 0)
             + (if Recorded(c, s.stats, dev, room) then 0 else Completed(r, now).serviceNs)
      case _ => 0
  }

  /** An instantaneous completion leaves the inflight counter one too high. */
  function Leak(c: Config, s: Tables, e: Event, dev: nat): nat {
    if e.Complete? && Reaches(c, s, e.id, dev) && Closes(s, e) && Instant(s.requests[e.id], e.now) then 1 else 0
  }

  function TotalDrift(c: Config, s0: Tables, es: seq<Event>, dev: nat, t: nat): int {
    if es == [] then 0
    else
      var before := es[..|es| - 1];
      TotalDrift(c, s0, before, dev, t) + Drift(c, After(c, s0, before), es[|es| - 1], dev, t)
  }

  function Leaks(c: Config, s0: Tables, es: seq<Event>, dev: nat): nat {
    if es == [] then 0
    else
      var before := es[..|es| - 1];
      Leaks(c, s0, before, dev) + Leak(c, After(c, s0, before), es[|es| - 1], dev)
  }

  // --------------------------------------------------------------- invariant

  ghost predicate Balanced(c: Config, d: Depth, reqs: map<nat, Request>, recorded: nat, dev: nat, t: nat, drift: int,
                           leaks: nat)
  {
    && d.inflight == Total(c, reqs, dev, IssuedFlag()) + leaks
    && d.queued == Total(c, reqs, dev, InsertedFlag())
    && InflightUntil(d, t) == recorded + Total(c, reqs, dev, ServiceUntil(t)) + drift
  }

  ghost predicate DeviceInv(c: Config, s: Tables, dev: nat, t: nat, drift: int, leaks: nat, clock: nat) {
    && dev in s.depths && 0 < s.depths[dev].lastUpdate <= clock
    && Balanced(c, s.depths[dev], s.requests, RecordedService(s.stats, dev), dev, t, drift, leaks)
  }

  /** No request is both waiting and in service. */
  predicate OnePlace(reqs: map<nat, Request>) {
    forall id | id in reqs :: !(reqs[id].inserted && reqs[id].issued)
  }

  lemma TotalAtLeast(c: Config, reqs: map<nat, Request>, dev: nat, entry: Request -> int, id: nat)
    requires forall r :: entry(r) >= 0
    ensures Total(c, reqs, dev, entry) >= Part(c, reqs, dev, entry, id)
  {
    var f := On(c, reqs, dev, entry);
    if id in reqs {
      SumRemove(reqs.Keys, f, id);
      SumNonNegative(reqs.Keys - {id}, f);
    } else {
      SumNonNegative(reqs.Keys, f);
    }
  }

  function RunningFrom(issued: bool, now: nat, t: nat): int { if issued then t - now else 0 }

  function ServiceOf(reqs: map<nat, Request>, id: nat, t: nat): int {
    if id in reqs then ServiceUntil(t)(reqs[id]) else 0
  }

  /** What storing `r` for `id` at `now` adds to the integral beyond the request's own service time. */
  function Slip(reqs: map<nat, Request>, id: nat, r: Request, now: nat, t: nat): int {
    RunningFrom(r.issued, now, t) - RunningFrom(Known(reqs, id).issued, now, t)
    - ServiceUntil(t)(r) + ServiceOf(reqs, id, t)
  }

  lemma PutTotals(c: Config, reqs: map<nat, Request>, id: nat, r: Request, dev: nat, t: nat)
    ensures var b, reqs' := Known(reqs, id), reqs[id := r];
      var own := c.deviceOf(id) == dev;
      && Total(c, reqs', dev, IssuedFlag())
          == Total(c, reqs, dev, IssuedFlag()) + (if own then Unit(r.issued) - Unit(b.issued) else 0)
      && Total(c, reqs', dev, InsertedFlag())
          == Total(c, reqs, dev, InsertedFlag()) + (if own then Unit(r.inserted) - Unit(b.inserted) else 0)
      && Total(c, reqs', dev, ServiceUntil(t))
          == Total(c, reqs, dev, ServiceUntil(t)) + (if own then ServiceUntil(t)(r) - ServiceOf(reqs, id, t) else 0)
      && (own ==> Total(c, reqs, dev, IssuedFlag()) >= Unit(b.issued))
      && (own ==> Total(c, reqs, dev, InsertedFlag()) >= Unit(b.inserted))
  {
    TotalAfterChange(c, reqs, reqs[id := r], dev, IssuedFlag(), id);
    TotalAfterChange(c, reqs, reqs[id := r], dev, InsertedFlag(), id);
    TotalAfterChange(c, reqs, reqs[id := r], dev, ServiceUntil(t), id);
    TotalAtLeast(c, reqs, dev, IssuedFlag(), id);
    TotalAtLeast(c, reqs, dev, InsertedFlag(), id);
  }

  lemma PutDepth(c: Config, s: Tables, id: nat, r: Request, now: nat, dev: nat, t: nat)
    requires c.saturationEnabled && dev in s.depths && c.deviceOf(id) == dev && 0 < s.depths[dev].lastUpdate <= now
    requires s.depths[dev].inflight >= Unit(Known(s.requests, id).issued)
    requires s.depths[dev].queued >= Unit(Known(s.requests, id).inserted)
    ensures var b, d := Known(s.requests, id), s.depths[dev];
      var depths' := Put(c, s, id, r, now).depths;
      dev in depths' && var d' := depths'[dev];
        && 0 < d'.lastUpdate <= now
        && d'.inflight == d.inflight + Unit(r.issued) - Unit(b.issued)
        && d'.queued == d.queued + Unit(r.inserted) - Unit(b.inserted)
        && InflightUntil(d', t) == InflightUntil(d, t) + RunningFrom(r.issued, now, t) - RunningFrom(b.issued, now, t)
  {
    var b := Known(s.requests, id);
    ShiftedIntegral(s.depths[dev], Unit(r.inserted) - Unit(b.inserted), Unit(r.issued) - Unit(b.issued), now, t);
  }

  /** Storing a request keeps the counters exact and moves the balance by `Slip`. */
  lemma PutKeeps(c: Config, s: Tables, id: nat, r: Request, now: nat, dev: nat, t: nat, drift: int, leaks: nat,
                 clock: nat)
    requires c.saturationEnabled && DeviceInv(c, s, dev, t, drift, leaks, clock) && clock <= now
    ensures DeviceInv(c, Put(c, s, id, r, now), dev, t,
                if c.deviceOf(id) == dev then drift + Slip(s.requests, id, r, now, t) else drift, leaks, now)
  {
    PutTotals(c, s.requests, id, r, dev, t);
    if c.deviceOf(id) == dev {
      PutDepth(c, s, id, r, now, dev, t);
    }
  }

  /** Forgetting a request that is neither waiting nor, leaks aside, in service. */
  lemma ForgetKeeps(c: Config, s: Tables, id: nat, dev: nat, t: nat, drift: int, leaks: nat, clock: nat)
    requires DeviceInv(c, s, dev, t, drift, leaks, clock) && id in s.requests && !s.requests[id].inserted
    ensures var own := c.deviceOf(id) == dev;
      DeviceInv(c, s.(requests := s.requests - {id}), dev, t,
                if own then drift + ServiceOf(s.requests, id, t) else drift,
                if own then leaks + Unit(s.requests[id].issued) else leaks, clock)
  {
    var reqs' := s.requests - {id};
    TotalAfterChange(c, s.requests, reqs', dev, IssuedFlag(), id);
    TotalAfterChange(c, s.requests, reqs', dev, InsertedFlag(), id);
    TotalAfterChange(c, s.requests, reqs', dev, ServiceUntil(t), id);
  }

  lemma StatsKeep(c: Config, s: Tables, stats': map<nat, DeviceStats>, dev: nat, t: nat, drift: int, leaks: nat,
                  clock: nat)
    requires DeviceInv(c, s, dev, t, drift, leaks, clock)
    ensures DeviceInv(c, s.(stats := stats'), dev, t,
                      drift + RecordedService(s.stats, dev) - RecordedService(stats', dev), leaks, clock)
  {
  }

  lemma CountsKeepService(c: Config, stats: map<nat, DeviceStats>, dev: nat, now: nat, room: bool, d: nat)
    requires GoodStats(stats)
    ensures GoodStats(CountLost(c, stats, dev, now, room)) && GoodStats(CountRequeue(c, stats, dev, now, room))
    ensures RecordedService(CountLost(c, stats, dev, now, room), d) == RecordedService(stats, d)
    ensures RecordedService(CountRequeue(c, stats, dev, now, room), d) == RecordedService(stats, d)
  {
    TouchKeeps(stats, dev, now, room, d);
  }

  /** A request rewritten without touching its flags or its service time. */
  lemma Resized(c: Config, s: Tables, id: nat, r: Request, dev: nat, t: nat, drift: int, leaks: nat, clock: nat)
    requires c.saturationEnabled && DeviceInv(c, s, dev, t, drift, leaks, clock) && id in s.requests
    requires r == s.requests[id].(bytes := r.bytes, remaining := r.remaining)
    ensures DeviceInv(c, s.(requests := s.requests[id := r]), dev, t, drift, leaks, clock)
  {
    PutKeeps(c, s, id, r, clock, dev, t, drift, leaks, clock);
  }

  ghost predicate Good(c: Config, s: Tables) {
    c.saturationEnabled && OnePlace(s.requests) && GoodStats(s.stats)
  }

  lemma CompletionStatsGood(c: Config, s: Tables, e: Event)
    requires GoodStats(s.stats) && e.Complete?
    ensures GoodStats(HandleComplete(c, s, e.id, e.now, e.error, e.bytes, e.statsRoom).stats)
  {
    if ShouldTrack(c, e.id) {
      var own, op := c.deviceOf(e.id), c.operationOf(e.id);
      RecordBytesKeeps(c, s.stats, own, op, e.bytes, e.error, e.now, e.statsRoom, own);
      var stats1 := RecordBytes(c, s.stats, own, op, e.bytes, e.error, e.now, e.statsRoom);
      if e.id in s.requests {
        var f := Completed(s.requests[e.id], e.now);
        RecordCompletionAdds(c, stats1, own, op, QueueNs(f, e.now), f.serviceNs, TotalNs(f, e.now), e.now, e.statsRoom,
                             own);
      } else {
        RecordCompletionAdds(c, stats1, own, op, 0, 0, 0, e.now, e.statsRoom, own);
      }
    }
  }

  lemma StatsStayGood(c: Config, s: Tables, e: Event)
    requires GoodStats(s.stats)
    ensures GoodStats(Handle(c, s, e).stats)
  {
    if e.Complete? {
      CompletionStatsGood(c, s, e);
    } else if !e.Merge? {
      CountsKeepService(c, s.stats, c.deviceOf(e.id), e.now, e.statsRoom, c.deviceOf(e.id));
    }
  }

  lemma OnePlaceStep(c: Config, s: Tables, e: Event)
    requires OnePlace(s.requests)
    ensures OnePlace(Handle(c, s, e).requests)
  {
  }

  lemma GoodStep(c: Config, s: Tables, e: Event)
    requires Good(c, s)
    ensures Good(c, Handle(c, s, e))
  {
    StatsStayGood(c, s, e);
    OnePlaceStep(c, s, e);
  }

  // What each transition of a request does to the balance.

  /** The state stored for the request by an insert or an issue the handler acts on. */
  function Stored(s: Tables, e: Event): Request
    requires e.Insert? || e.Issue?
  {
    if e.Insert? then
      if e.id in s.requests then InsertedAgain(s.requests[e.id], e.now, e.bytes) else NewRequest(e.now, e.bytes, true)
    else
      Issued(if e.id in s.requests then s.requests[e.id] else NewRequest(e.now, e.bytes, false), e.now, e.bytes)
  }

  predicate Acts(c: Config, s: Tables, e: Event)
    requires e.Insert? || e.Issue?
  {
    c.requestTracking && ShouldTrack(c, e.id) && (e.id in s.requests || e.room)
  }

  lemma SlipOfArrival(c: Config, s: Tables, e: Event, dev: nat, t: nat)
    requires (e.Insert? || e.Issue?) && Acts(c, s, e)
    ensures Handle(c, s, e) == Put(c, s, e.id, Stored(s, e), e.now)
    ensures (if c.deviceOf(e.id) == dev then Slip(s.requests, e.id, Stored(s, e), e.now, t) else 0)
        == Drift(c, s, e, dev, t)
  {
  }

  lemma ArrivalStep(c: Config, s: Tables, e: Event, dev: nat, t: nat, drift: int, leaks: nat, clock: nat)
    requires Good(c, s) && DeviceInv(c, s, dev, t, drift, leaks, clock) && (e.Insert? || e.Issue?) && clock <= e.now
    ensures DeviceInv(c, Handle(c, s, e), dev, t, drift + Drift(c, s, e, dev, t), leaks, e.now)
  {
    if Acts(c, s, e) {
      SlipOfArrival(c, s, e, dev, t);
      PutKeeps(c, s, e.id, Stored(s, e), e.now, dev, t, drift, leaks, clock);
    } else {
      IdleArrival(c, s, e, dev, t);
      StatsKeep(c, s, Handle(c, s, e).stats, dev, t, drift, leaks, clock);
    }
  }

  lemma IdleArrival(c: Config, s: Tables, e: Event, dev: nat, t: nat)
    requires Good(c, s) && (e.Insert? || e.Issue?) && !Acts(c, s, e)
    ensures Drift(c, s, e, dev, t) == 0 && Handle(c, s, e) == s.(stats := Handle(c, s, e).stats)
    ensures RecordedService(Handle(c, s, e).stats, dev) == RecordedService(s.stats, dev)
  {
    CountsKeepService(c, s.stats, c.deviceOf(e.id), e.now, e.statsRoom, dev);
  }

  lemma SlipOfRequeue(c: Config, s: Tables, e: Event, dev: nat, t: nat)
    requires e.Requeue? && c.requestTracking && ShouldTrack(c, e.id) && e.id in s.requests
    ensures var s1 := s.(stats := Handle(c, s, e).stats);
      Handle(c, s, e) == Put(c, s1, e.id, Requeued(s.requests[e.id], e.now), e.now)
    ensures (if c.deviceOf(e.id) == dev then Slip(s.requests, e.id, Requeued(s.requests[e.id], e.now), e.now, t) else 0)
      == Drift(c, s, e, dev, t)
  {
  }

  lemma RequeueCounts(c: Config, s: Tables, e: Event, dev: nat, t: nat)
    requires Good(c, s) && e.Requeue?
    ensures RecordedService(Handle(c, s, e).stats, dev) == RecordedService(s.stats, dev)
    ensures !(c.requestTracking && ShouldTrack(c, e.id) && e.id in s.requests) ==>
      Drift(c, s, e, dev, t) == 0 && Handle(c, s, e) == s.(stats := Handle(c, s, e).stats)
  {
    CountsKeepService(c, s.stats, c.deviceOf(e.id), e.now, e.statsRoom, dev);
  }

  lemma RequeueStep(c: Config, s: Tables, e: Event, dev: nat, t: nat, drift: int, leaks: nat, clock: nat)
    requires Good(c, s) && DeviceInv(c, s, dev, t, drift, leaks, clock) && e.Requeue? && clock <= e.now
    ensures DeviceInv(c, Handle(c, s, e), dev, t, drift + Drift(c, s, e, dev, t), leaks, e.now)
  {
    RequeueCounts(c, s, e, dev, t);
    var s1 := s.(stats := Handle(c, s, e).stats);
    StatsKeep(c, s, s1.stats, dev, t, drift, leaks, clock);
    if c.requestTracking && ShouldTrack(c, e.id) && e.id in s.requests {
      SlipOfRequeue(c, s, e, dev, t);
      PutKeeps(c, s1, e.id, Requeued(s.requests[e.id], e.now), e.now, dev, t, drift, leaks, clock);
    }
  }

  lemma SlipOfClose(reqs: map<nat, Request>, id: nat, now: nat, t: nat)
    requires id in reqs
    ensures var (r, f) := (reqs[id], Completed(reqs[id], now));
      Slip(reqs, id, f, now, t) + ServiceUntil(t)(f) == f.serviceNs + if Instant(r, now) then t - r.issueNs else 0
    ensures Completed(reqs[id], now).issued == Instant(reqs[id], now)
  {
  }

  lemma RecordedEither(c: Config, stats: map<nat, DeviceStats>, stats1: map<nat, DeviceStats>, dev: nat, e: Event)
    requires e.Complete?
    requires stats1 == RecordBytes(c, stats, dev, c.operationOf(e.id), e.bytes, e.error, e.now, e.statsRoom)
    ensures Recorded(c, stats1, dev, e.statsRoom) == Recorded(c, stats, dev, e.statsRoom)
  {
  }

  /** The request's final state is stored, charged and forgotten. */
  lemma CloseRequest(c: Config, s: Tables, id: nat, now: nat, dev: nat, t: nat, drift: int, leaks: nat, clock: nat)
    requires c.saturationEnabled && DeviceInv(c, s, dev, t, drift, leaks, clock) && clock <= now && id in s.requests
    ensures var (own, r, f) := (c.deviceOf(id) == dev, s.requests[id], Completed(s.requests[id], now));
      DeviceInv(c, Tables(s.requests - {id}, Put(c, s, id, f, now).depths, s.stats), dev, t,
                if own then drift + f.serviceNs + (if Instant(r, now) then t - r.issueNs else 0) else drift,
                if own then leaks + Unit(Instant(r, now)) else leaks, now)
  {
    var own, f := c.deviceOf(id) == dev, Completed(s.requests[id], now);
    SlipOfClose(s.requests, id, now, t);
    PutKeeps(c, s, id, f, now, dev, t, drift, leaks, clock);
    var s2 := Put(c, s, id, f, now);
    var drift2 := if own then drift + Slip(s.requests, id, f, now, t) else drift;
    ForgetKeeps(c, s2, id, dev, t, drift2, leaks, now);
    ForgottenIsRemoved(s.requests, id, f);
  }

  lemma ForgottenIsRemoved(reqs: map<nat, Request>, id: nat, f: Request)
    ensures reqs[id := f] - {id} == reqs - {id}
  {
  }

  /** What a completion records for a device. */
  lemma CloseStats(c: Config, stats: map<nat, DeviceStats>, e: Event, f: Request, dev: nat)
    returns (stats': map<nat, DeviceStats>)
    requires GoodStats(stats) && e.Complete? && ShouldTrack(c, e.id)
    ensures var (own, op) := (c.deviceOf(e.id), c.operationOf(e.id));
      stats' == RecordCompletion(c, RecordBytes(c, stats, own, op, e.bytes, e.error, e.now, e.statsRoom), own, op,
                                 QueueNs(f, e.now), f.serviceNs, TotalNs(f, e.now), e.now, e.statsRoom)
    ensures RecordedService(stats', dev) == RecordedService(stats, dev)
           + if c.deviceOf(e.id) == dev && Recorded(c, stats, dev, e.statsRoom) then f.serviceNs else 0
  {
    var own, op := c.deviceOf(e.id), c.operationOf(e.id);
    RecordBytesKeeps(c, stats, own, op, e.bytes, e.error, e.now, e.statsRoom, dev);
    var stats1 := RecordBytes(c, stats, own, op, e.bytes, e.error, e.now, e.statsRoom);
    RecordedEither(c, stats, stats1, own, e);
    RecordCompletionAdds(c, stats1, own, op, QueueNs(f, e.now), f.serviceNs, TotalNs(f, e.now), e.now, e.statsRoom,
                         dev);
    stats' := RecordCompletion(c, stats1, own, op, QueueNs(f, e.now), f.serviceNs, TotalNs(f, e.now), e.now,
                               e.statsRoom);
  }

  lemma CloseShape(c: Config, s: Tables, e: Event) returns (s': Tables)
    requires e.Complete? && c.requestTracking && ShouldTrack(c, e.id) && e.id in s.requests && Closes(s, e)
    ensures var (f, own, op) := (Completed(s.requests[e.id], e.now), c.deviceOf(e.id), c.operationOf(e.id));
      && s' == Handle(c, s, e)
      && s'.requests == s.requests - {e.id} && s'.depths == Put(c, s, e.id, f, e.now).depths
      && s'.stats == RecordCompletion(c, RecordBytes(c, s.stats, own, op, e.bytes, e.error, e.now, e.statsRoom),
                                      own, op,
                                      QueueNs(f, e.now), f.serviceNs, TotalNs(f, e.now), e.now, e.statsRoom)
  {
    s' := Handle(c, s, e);
  }

  /** The request closed and its record made, as one change of the tables. */
  lemma CloseKeeps(c: Config, s: Tables, id: nat, now: nat, stats': map<nat, DeviceStats>,
                   dev: nat, t: nat, drift: int, leaks: nat, clock: nat) returns (s': Tables)
    requires c.saturationEnabled && DeviceInv(c, s, dev, t, drift, leaks, clock) && clock <= now && id in s.requests
    ensures var f := Completed(s.requests[id], now);
      s' == Tables(s.requests - {id}, Put(c, s, id, f, now).depths, stats')
    ensures var (own, r, f) := (c.deviceOf(id) == dev, s.requests[id], Completed(s.requests[id], now));
      DeviceInv(c, s', dev, t,
                drift + (if own then f.serviceNs + (if Instant(r, now) then t - r.issueNs else 0) else 0)
                + RecordedService(s.stats, dev) - RecordedService(stats', dev),
                if own then leaks + Unit(Instant(r, now)) else leaks, now)
  {
    var own, r, f := c.deviceOf(id) == dev, s.requests[id], Completed(s.requests[id], now);
    CloseRequest(c, s, id, now, dev, t, drift, leaks, clock);
    var s1 := Tables(s.requests - {id}, Put(c, s, id, f, now).depths, s.stats);
    var drift1 := if own then drift + f.serviceNs + (if Instant(r, now) then t - r.issueNs else 0) else drift;
    StatsKeep(c, s1, stats', dev, t, drift1, if own then leaks + Unit(Instant(r, now)) else leaks, now);
    s' := s1.(stats := stats');
  }

  /** What the ledger says of a closing completion. */
  lemma CloseDrift(c: Config, s: Tables, e: Event, dev: nat, t: nat)
    requires e.Complete? && c.requestTracking && ShouldTrack(c, e.id) && e.id in s.requests && Closes(s, e)
    ensures var (own, r, f) := (c.deviceOf(e.id) == dev, s.requests[e.id], Completed(s.requests[e.id], e.now));
      && Leak(c, s, e, dev) == (if own then Unit(Instant(r, e.now)) else 0)
      && Drift(c, s, e, dev, t) ==
           if own then f.serviceNs + (if Instant(r, e.now) then t - r.issueNs else 0)
                       - (if Recorded(c, s.stats, dev, e.statsRoom) then f.serviceNs else 0)
           else 0
  {
  }

  lemma CloseStep(c: Config, s: Tables, e: Event, dev: nat, t: nat, drift: int, leaks: nat, clock: nat)
    returns (s': Tables)
    requires Good(c, s) && DeviceInv(c, s, dev, t, drift, leaks, clock) && e.Complete? && clock <= e.now
    requires c.requestTracking && ShouldTrack(c, e.id) && e.id in s.requests && Closes(s, e)
    ensures s' == Handle(c, s, e)
    ensures DeviceInv(c, s', dev, t, drift + Drift(c, s, e, dev, t), leaks + Leak(c, s, e, dev), e.now)
  {
    var closed := CloseShape(c, s, e);
    var stats' := CloseStats(c, s.stats, e, Completed(s.requests[e.id], e.now), dev);
    CloseDrift(c, s, e, dev, t);
    s' := CloseKeeps(c, s, e.id, e.now, stats', dev, t, drift, leaks, clock);
    assert s' == closed;
  }

  lemma StillLater(c: Config, s: Tables, dev: nat, t: nat, drift: int, leaks: nat, clock: nat, now: nat)
    requires DeviceInv(c, s, dev, t, drift, leaks, clock) && clock <= now
    ensures DeviceInv(c, s, dev, t, drift, leaks, now)
  {
  }

  lemma PartialShape(c: Config, s: Tables, e: Event, dev: nat) returns (s': Tables)
    requires Good(c, s) && e.Complete?
    requires ShouldTrack(c, e.id) && c.requestTracking && e.id in s.requests && !Closes(s, e)
    ensures s' == Handle(c, s, e)
    ensures var r := s.requests[e.id];
      && r.remaining >= e.bytes
      && s' == Tables(s.requests[e.id := r.(remaining := r.remaining - e.bytes)], s.depths, s'.stats)
    ensures RecordedService(s'.stats, dev) == RecordedService(s.stats, dev)
  {
    s' := Handle(c, s, e);
    RecordBytesKeeps(c, s.stats, c.deviceOf(e.id), c.operationOf(e.id), e.bytes, e.error, e.now, e.statsRoom, dev);
  }

  lemma PartialKeeps(c: Config, s: Tables, id: nat, r: Request, stats': map<nat, DeviceStats>, now: nat,
                     dev: nat, t: nat, drift: int, leaks: nat, clock: nat)
    requires Good(c, s) && DeviceInv(c, s, dev, t, drift, leaks, clock) && clock <= now
    requires id in s.requests && r == s.requests[id].(bytes := r.bytes, remaining := r.remaining)
    requires RecordedService(stats', dev) == RecordedService(s.stats, dev)
    ensures DeviceInv(c, Tables(s.requests[id := r], s.depths, stats'), dev, t, drift, leaks, now)
  {
    Resized(c, s, id, r, dev, t, drift, leaks, clock);
    var s1 := s.(requests := s.requests[id := r]);
    StillLater(c, s1, dev, t, drift, leaks, clock, now);
    StatsKeep(c, s1, stats', dev, t, drift, leaks, now);
  }

  lemma PartialStep(c: Config, s: Tables, e: Event, dev: nat, t: nat, drift: int, leaks: nat, clock: nat)
    returns (s': Tables)
    requires Good(c, s) && DeviceInv(c, s, dev, t, drift, leaks, clock) && e.Complete? && clock <= e.now
    requires ShouldTrack(c, e.id) && c.requestTracking && e.id in s.requests && !Closes(s, e)
    ensures s' == Handle(c, s, e) && DeviceInv(c, s', dev, t, drift, leaks, e.now)
  {
    s' := PartialShape(c, s, e, dev);
    PartialKeeps(c, s, e.id, s'.requests[e.id], s'.stats, e.now, dev, t, drift, leaks, clock);
  }

  lemma UnknownStep(c: Config, s: Tables, e: Event, dev: nat, t: nat)
    requires Good(c, s) && e.Complete? && !(ShouldTrack(c, e.id) && c.requestTracking && e.id in s.requests)
    ensures Handle(c, s, e) == s.(stats := Handle(c, s, e).stats)
    ensures RecordedService(Handle(c, s, e).stats, dev) == RecordedService(s.stats, dev)
  {
    if ShouldTrack(c, e.id) {
      var own, op := c.deviceOf(e.id), c.operationOf(e.id);
      RecordBytesKeeps(c, s.stats, own, op, e.bytes, e.error, e.now, e.statsRoom, dev);
      RecordCompletionAdds(c, RecordBytes(c, s.stats, own, op, e.bytes, e.error, e.now, e.statsRoom),
                           own, op, 0, 0, 0, e.now, e.statsRoom, dev);
    }
  }

  lemma CompleteStep(c: Config, s: Tables, e: Event, dev: nat, t: nat, drift: int, leaks: nat, clock: nat)
    requires Good(c, s) && DeviceInv(c, s, dev, t, drift, leaks, clock) && e.Complete? && clock <= e.now
    ensures DeviceInv(c, Handle(c, s, e), dev, t, drift + Drift(c, s, e, dev, t), leaks + Leak(c, s, e, dev), e.now)
  {
    if !(ShouldTrack(c, e.id) && c.requestTracking && e.id in s.requests) {
      UnknownStep(c, s, e, dev, t);
      StatsKeep(c, s, Handle(c, s, e).stats, dev, t, drift, leaks, clock);
    } else if Closes(s, e) {
      var s' := CloseStep(c, s, e, dev, t, drift, leaks, clock);
    } else {
      var s' := PartialStep(c, s, e, dev, t, drift, leaks, clock);
    }
  }

  lemma HandleStep(c: Config, s: Tables, e: Event, dev: nat, t: nat, drift: int, leaks: nat, clock: nat)
    requires Good(c, s) && DeviceInv(c, s, dev, t, drift, leaks, clock) && clock <= ClockAfter(clock, e)
    ensures DeviceInv(c, Handle(c, s, e), dev, t, drift + Drift(c, s, e, dev, t), leaks + Leak(c, s, e, dev),
                      ClockAfter(clock, e))
  {
    match e
    case Merge(id, bytes) =>
      if id in s.requests {
        Resized(c, s, id, s.requests[id].(bytes := bytes, remaining := bytes), dev, t, drift, leaks, clock);
      }
    case Requeue(_, _, _) => RequeueStep(c, s, e, dev, t, drift, leaks, clock);
    case Complete(_, _, _, _, _) => CompleteStep(c, s, e, dev, t, drift, leaks, clock);
    case _ => ArrivalStep(c, s, e, dev, t, drift, leaks, clock);
  }

  // ------------------------------------------------------------ main results

  lemma {:induction false} StartInv(c: Config, s0: Tables, start: nat, dev: nat, t: nat)
    requires Initial(s0, start) && dev in s0.depths
    ensures DeviceInv(c, s0, dev, t, 0, 0, start)
  {
  }

  lemma {:induction false} RunInv(c: Config, s0: Tables, start: nat, es: seq<Event>, dev: nat, t: nat)
    requires c.saturationEnabled && Initial(s0, start) && dev in s0.depths && Timed(start, es)
    ensures Good(c, After(c, s0, es))
    ensures DeviceInv(c, After(c, s0, es), dev, t, TotalDrift(c, s0, es, dev, t), Leaks(c, s0, es, dev),
                      Clock(start, es))
  {
    if es == [] {
      StartInv(c, s0, start, dev, t);
    } else {
      var before, e := es[..|es| - 1], es[|es| - 1];
      RunInv(c, s0, start, before, dev, t);
      GoodStep(c, After(c, s0, before), e);
      HandleStep(c, After(c, s0, before), e, dev, t, TotalDrift(c, s0, before, dev, t),
                 Leaks(c, s0, before, dev), Clock(start, before));
    }
  }

  /** The live requests of a device that are waiting, respectively in service. */
  ghost function Waiting(c: Config, reqs: map<nat, Request>, dev: nat): set<nat> {
    set id | id in reqs && c.deviceOf(id) == dev && reqs[id].inserted
  }

  ghost function InService(c: Config, reqs: map<nat, Request>, dev: nat): set<nat> {
    set id | id in reqs && c.deviceOf(id) == dev && reqs[id].issued
  }

  lemma FlagsCount(c: Config, reqs: map<nat, Request>, dev: nat)
    ensures Total(c, reqs, dev, InsertedFlag()) == |Waiting(c, reqs, dev)|
    ensures Total(c, reqs, dev, IssuedFlag()) == |InService(c, reqs, dev)|
  {
    SumIsCardinality(reqs.Keys, On(c, reqs, dev, InsertedFlag()), Waiting(c, reqs, dev));
    SumIsCardinality(reqs.Keys, On(c, reqs, dev, IssuedFlag()), InService(c, reqs, dev));
  }

  /** In every run, whatever the events: the queued counter is exact, the
      inflight counter is exact up to the leaks, no request is in two places. */
  lemma DepthCountersAreExact(c: Config, s0: Tables, start: nat, es: seq<Event>, dev: nat)
    requires c.saturationEnabled && Initial(s0, start) && dev in s0.depths && Timed(start, es)
    ensures var s := After(c, s0, es);
      && dev in s.depths
      && s.depths[dev].queued == |Waiting(c, s.requests, dev)|
      && s.depths[dev].inflight == |InService(c, s.requests, dev)| + Leaks(c, s0, es, dev)
      && OnePlace(s.requests)
  {
    RunInv(c, s0, start, es, dev, 0);
    FlagsCount(c, After(c, s0, es).requests, dev);
  }

  /** The balance of the two schemes at `t`: the extended depth integral less
      the recorded and the running service time. */
  ghost function Imbalance(c: Config, s: Tables, dev: nat, t: nat): int
    requires dev in s.depths
  {
    InflightUntil(s.depths[dev], t) - RecordedService(s.stats, dev) - Total(c, s.requests, dev, ServiceUntil(t))
  }

  /** Little's law, exactly: in every run the imbalance is the accumulated
      drift, so the law holds at `t` if and only if that is zero. */
  lemma LittlesLaw(c: Config, s0: Tables, start: nat, es: seq<Event>, dev: nat, t: nat)
    requires c.saturationEnabled && Initial(s0, start) && dev in s0.depths && Timed(start, es)
    ensures dev in After(c, s0, es).depths
    ensures Imbalance(c, After(c, s0, es), dev, t) == TotalDrift(c, s0, es, dev, t)
  {
    RunInv(c, s0, start, es, dev, t);
  }

  /** An event that keeps to what the accounting expects: no later second
      issue of an issued request, a later clock when an attempt ends, and room
      for the record of any service time. */
  predicate Orderly(c: Config, s: Tables, e: Event, dev: nat) {
    Reaches(c, s, e.id, dev) ==>
      var r := s.requests[e.id];
      match e
      case Issue(_, now, _, _, _) => r.issued ==> now == r.issueNs
      case Requeue(_, now, _) => !Instant(r, now)
      case Complete(_, now, _, _, room) =>
        Closes(s, e) ==> !Instant(r, now) && (Recorded(c, s.stats, dev, room) || Completed(r, now).serviceNs == 0)
      case _ => true
  }

  predicate OrderlyRun(c: Config, s0: Tables, es: seq<Event>, dev: nat) {
    es == [] || (OrderlyRun(c, s0, es[..|es| - 1], dev) && Orderly(c, After(c, s0, es[..|es| - 1]), es[|es| - 1], dev))
  }

  /** Exactly the orderly events leave the balance alone from then on. */
  lemma DriftVanishesIff(c: Config, s: Tables, e: Event, dev: nat, clock: nat)
    requires 0 < clock == ClockAfter(clock, e)
    ensures Orderly(c, s, e, dev) <==> forall t: nat | t >= clock :: Drift(c, s, e, dev, t) == 0
    ensures Orderly(c, s, e, dev) ==> Leak(c, s, e, dev) == 0
  {
    if !Orderly(c, s, e, dev) {
      var r := s.requests[e.id];
      var t := if e.Complete? then r.issueNs + clock + 1 else clock;
      assert Drift(c, s, e, dev, t) != 0;
    }
  }

  /** Little's law holds after every event of the run, at every time from then on. */
  ghost predicate LawThroughout(c: Config, s0: Tables, start: nat, es: seq<Event>, dev: nat) {
    && dev in After(c, s0, es).depths
    && (forall t: nat | t >= Clock(start, es) :: Imbalance(c, After(c, s0, es), dev, t) == 0)
    && (es != [] ==> LawThroughout(c, s0, start, es[..|es| - 1], dev))
  }

  lemma {:induction false} ClockPositive(start: nat, es: seq<Event>)
    requires start > 0 && Timed(start, es)
    ensures Clock(start, es) > 0
  {
    if es != [] { ClockPositive(start, es[..|es| - 1]); }
  }

  lemma {:induction false} OrderlyRunsBalance(c: Config, s0: Tables, start: nat, es: seq<Event>, dev: nat, t: nat)
    requires start > 0 && Timed(start, es) && OrderlyRun(c, s0, es, dev) && t >= Clock(start, es)
    ensures TotalDrift(c, s0, es, dev, t) == 0 && Leaks(c, s0, es, dev) == 0
  {
    if es != [] {
      var before, e := es[..|es| - 1], es[|es| - 1];
      OrderlyRunsBalance(c, s0, start, before, dev, t);
      ClockPositive(start, es);
      DriftVanishesIff(c, After(c, s0, before), e, dev, Clock(start, es));
    }
  }

  lemma LawAfterOrderlyRun(c: Config, s0: Tables, start: nat, es: seq<Event>, dev: nat, t: nat)
    requires c.saturationEnabled && Initial(s0, start) && dev in s0.depths && Timed(start, es)
    requires OrderlyRun(c, s0, es, dev) && t >= Clock(start, es)
    ensures dev in After(c, s0, es).depths && Imbalance(c, After(c, s0, es), dev, t) == 0 && Leaks(c, s0, es, dev) == 0
  {
    LittlesLaw(c, s0, start, es, dev, t);
    OrderlyRunsBalance(c, s0, start, es, dev, t);
  }

  lemma {:induction false} LawInOrderlyRuns(c: Config, s0: Tables, start: nat, es: seq<Event>, dev: nat)
    requires c.saturationEnabled && Initial(s0, start) && dev in s0.depths && Timed(start, es)
    requires OrderlyRun(c, s0, es, dev)
    ensures LawThroughout(c, s0, start, es, dev)
    ensures Leaks(c, s0, es, dev) == 0
  {
    LawAfterOrderlyRun(c, s0, start, es, dev, Clock(start, es));
    forall t: nat | t >= Clock(start, es) ensures Imbalance(c, After(c, s0, es), dev, t) == 0 {
      LawAfterOrderlyRun(c, s0, start, es, dev, t);
    }
    if es != [] { LawInOrderlyRuns(c, s0, start, es[..|es| - 1], dev); }
  }

  lemma LastEventWasOrderly(c: Config, s0: Tables, start: nat, es: seq<Event>, dev: nat)
    requires c.saturationEnabled && Initial(s0, start) && dev in s0.depths && Timed(start, es)
    requires es != [] && LawThroughout(c, s0, start, es, dev)
    ensures Orderly(c, After(c, s0, es[..|es| - 1]), es[|es| - 1], dev)
  {
    var before, e := es[..|es| - 1], es[|es| - 1];
    ClockPositive(start, es);
    forall t: nat | t >= Clock(start, es) ensures Drift(c, After(c, s0, before), e, dev, t) == 0 {
      LittlesLaw(c, s0, start, before, dev, t);
      LittlesLaw(c, s0, start, es, dev, t);
      assert Imbalance(c, After(c, s0, before), dev, t) == 0;
      assert Imbalance(c, After(c, s0, es), dev, t) == 0;
    }
    DriftVanishesIff(c, After(c, s0, before), e, dev, Clock(start, es));
  }

  /** The law holds throughout a run if and only if the run is orderly. */
  lemma {:induction false} LittlesLawIff(c: Config, s0: Tables, start: nat, es: seq<Event>, dev: nat)
    requires c.saturationEnabled && Initial(s0, start) && dev in s0.depths && Timed(start, es)
    ensures LawThroughout(c, s0, start, es, dev) <==> OrderlyRun(c, s0, es, dev)
  {
    if OrderlyRun(c, s0, es, dev) {
      LawInOrderlyRuns(c, s0, start, es, dev);
    } else if es != [] {
      LittlesLawIff(c, s0, start, es[..|es| - 1], dev);
      if LawThroughout(c, s0, start, es, dev) {
        LastEventWasOrderly(c, s0, start, es, dev);
        assert false;
      }
    }
  }

  /** In an orderly run both counters are exact. */
  lemma CountersInOrderlyRuns(c: Config, s0: Tables, start: nat, es: seq<Event>, dev: nat)
    requires c.saturationEnabled && Initial(s0, start) && dev in s0.depths && Timed(start, es)
    requires OrderlyRun(c, s0, es, dev)
    ensures var s := After(c, s0, es);
      && dev in s.depths
      && s.depths[dev].inflight == |InService(c, s.requests, dev)|
      && s.depths[dev].queued == |Waiting(c, s.requests, dev)|
  {
    LawInOrderlyRuns(c, s0, start, es, dev);
    DepthCountersAreExact(c, s0, start, es, dev);
  }

  // ------------------------------------------------ instantaneous completions

  /** No completion of the run closes a request of the device at the very reading of its issue. */
  predicate NoInstantCompletion(c: Config, s0: Tables, es: seq<Event>, dev: nat) {
    es == [] || (NoInstantCompletion(c, s0, es[..|es| - 1], dev)
                 && Leak(c, After(c, s0, es[..|es| - 1]), es[|es| - 1], dev) == 0)
  }

  lemma {:induction false} NoLeaksIff(c: Config, s0: Tables, es: seq<Event>, dev: nat)
    ensures Leaks(c, s0, es, dev) == 0 <==> NoInstantCompletion(c, s0, es, dev)
  {
    if es != [] { NoLeaksIff(c, s0, es[..|es| - 1], dev); }
  }

  /** After a run the inflight counter is exact if and only if no completion of it was instantaneous. */
  lemma InflightIsExactIff(c: Config, s0: Tables, start: nat, es: seq<Event>, dev: nat)
    requires c.saturationEnabled && Initial(s0, start) && dev in s0.depths && Timed(start, es)
    ensures var s := After(c, s0, es);
      && dev in s.depths
      && (s.depths[dev].inflight == |InService(c, s.requests, dev)| <==> NoInstantCompletion(c, s0, es, dev))
  {
    DepthCountersAreExact(c, s0, start, es, dev);
    NoLeaksIff(c, s0, es, dev);
  }

  lemma {:induction false} LeaksNeverHeal(c: Config, s0: Tables, es: seq<Event>, n: nat, dev: nat)
    requires n <= |es|
    ensures Leaks(c, s0, es[..n], dev) <= Leaks(c, s0, es, dev)
  {
    if n == |es| {
      assert es[..n] == es;
    } else {
      var before := es[..|es| - 1];
      LeaksNeverHeal(c, s0, before, n, dev);
      assert before[..n] == es[..n];
    }
  }

  /** A request issued and completed at one clock reading. */
  function AtOnce(id: nat, t: nat): seq<Event> { [Issue(id, t, 8, true, true), Complete(id, t, false, 8, true)] }

  lemma AtOnceLeaks(c: Config, s0: Tables, start: nat, id: nat, t: nat)
    requires Initial(s0, start) && c.requestTracking && ShouldTrack(c, id) && start <= t
    ensures Leaks(c, s0, AtOnce(id, t), c.deviceOf(id)) == 1
  {
    var dev, es := c.deviceOf(id), AtOnce(id, t);
    assert es[..1] == [es[0]] && [es[0]][..0] == [];
    var s1 := Handle(c, s0, es[0]);
    assert After(c, s0, [es[0]]) == s1;
    assert s1.requests[id] == Issued(NewRequest(t, 8, false), t, 8);
    assert Leak(c, s0, es[0], dev) == 0 && Leak(c, s1, es[1], dev) == 1;
    assert Leaks(c, s0, [], dev) == 0 && Leaks(c, s0, [es[0]], dev) == 0;
  }

  /** Such a run leaves the inflight counter above the number of requests in
      service, however it goes on. */
  lemma InstantCompletionLeaks(c: Config, s0: Tables, start: nat, id: nat, t: nat, es: seq<Event>)
    requires c.saturationEnabled && c.requestTracking && ShouldTrack(c, id)
    requires Initial(s0, start) && c.deviceOf(id) in s0.depths && Timed(start, es)
    requires start <= t && AtOnce(id, t) <= es
    ensures var (s, dev) := (After(c, s0, es), c.deviceOf(id));
      && dev in s.depths && s.depths[dev].inflight >= |InService(c, s.requests, dev)| + 1
      && (es == AtOnce(id, t) ==> s.depths[dev].inflight == |InService(c, s.requests, dev)| + 1)
  {
    var dev := c.deviceOf(id);
    DepthCountersAreExact(c, s0, start, es, dev);
    AtOnceLeaks(c, s0, start, id, t);
    assert es[..2] == AtOnce(id, t);
    LeaksNeverHeal(c, s0, es, 2, dev);
  }

  // ------------------------------------------------- queue + service == total

  /** The service time of a request fits between its first sight and its
      current attempt, or the present. */
  predicate Fits(r: Request, clock: nat) {
    (r.issued ==> r.issueNs <= clock) && r.firstSeen + r.serviceNs <= if r.issued then r.issueNs else clock
  }

  predicate TimesFit(reqs: map<nat, Request>, clock: nat) { forall id | id in reqs :: Fits(reqs[id], clock) }

  /** In every statistics entry the recorded parts add up. */
  predicate StatsAddUp(stats: map<nat, DeviceStats>) {
    forall dev, op: nat | dev in stats && op < |stats[dev].ops| ::
      var o := stats[dev].ops[op];
      o.queueNs + o.serviceNs == o.totalNs
  }

  /** No requeue finds its request issued at that very instant. */
  predicate SteadyRun(c: Config, s0: Tables, es: seq<Event>) {
    es == [] || (
      SteadyRun(c, s0, es[..|es| - 1])
      && var (s, e) := (After(c, s0, es[..|es| - 1]), es[|es| - 1]);
         e.Requeue? && e.id in s.requests ==> !Instant(s.requests[e.id], e.now))
  }

  lemma TimesFitPut(reqs: map<nat, Request>, reqs': map<nat, Request>, id: nat, clock: nat, now: nat)
    requires TimesFit(reqs, clock) && clock <= now
    requires forall x | x in reqs' && x != id :: x in reqs && reqs'[x] == reqs[x]
    requires id in reqs' ==> Fits(reqs'[id], now)
    ensures TimesFit(reqs', now)
  {
  }

  lemma ChangesFit(r: Request, clock: nat, now: nat, bytes: nat)
    requires Fits(r, clock) && clock <= now
    ensures Fits(InsertedAgain(r, now, bytes), now) && Fits(Issued(r, now, bytes), now)
    ensures !Instant(r, now) ==> Fits(Requeued(r, now), now)
  {
  }

  lemma OnlyOneRequest(c: Config, s: Tables, e: Event)
    ensures forall x | x in Handle(c, s, e).requests && x != e.id ::
        x in s.requests && Handle(c, s, e).requests[x] == s.requests[x]
  {
  }

  lemma TimesFitStep(c: Config, s: Tables, e: Event, clock: nat)
    requires TimesFit(s.requests, clock) && clock <= ClockAfter(clock, e)
    requires e.Requeue? && e.id in s.requests ==> !Instant(s.requests[e.id], e.now)
    ensures TimesFit(Handle(c, s, e).requests, ClockAfter(clock, e))
  {
    var now := ClockAfter(clock, e);
    OnlyOneRequest(c, s, e);
    NewStateFits(c, s, e, clock);
    TimesFitPut(s.requests, Handle(c, s, e).requests, e.id, clock, now);
  }

  lemma NewStateFits(c: Config, s: Tables, e: Event, clock: nat)
    requires e.id in s.requests ==> Fits(s.requests[e.id], clock)
    requires clock <= ClockAfter(clock, e)
    requires e.Requeue? && e.id in s.requests ==> !Instant(s.requests[e.id], e.now)
    ensures e.id in Handle(c, s, e).requests ==> Fits(Handle(c, s, e).requests[e.id], ClockAfter(clock, e))
  {
    if e.id in s.requests && !e.Merge? {
      ChangesFit(s.requests[e.id], clock, e.now, if e.Requeue? then 0 else e.bytes);
    }
  }

  lemma TouchAddsUp(stats: map<nat, DeviceStats>, dev: nat, now: nat, room: bool)
    requires StatsAddUp(stats)
    ensures StatsAddUp(Touch(stats, dev, now, room))
  {
  }

  lemma RecordCompletionAddsUp(c: Config, stats: map<nat, DeviceStats>, dev: nat, op: nat,
                               queueNs: nat, serviceNs: nat, totalNs: nat, now: nat, room: bool)
    requires StatsAddUp(stats) && queueNs + serviceNs == totalNs
    ensures StatsAddUp(RecordCompletion(c, stats, dev, op, queueNs, serviceNs, totalNs, now, room))
  {
    TouchAddsUp(stats, dev, now, room);
  }

  lemma RecordBytesAddsUp(c: Config, stats: map<nat, DeviceStats>, dev: nat, op: nat, bytes: nat, error: bool,
                          now: nat, room: bool)
    requires StatsAddUp(stats)
    ensures StatsAddUp(RecordBytes(c, stats, dev, op, bytes, error, now, room))
  {
    TouchAddsUp(stats, dev, now, room);
  }

  lemma SplitOf(r: Request, clock: nat, now: nat)
    requires Fits(r, clock) && clock <= now
    ensures var f := Completed(r, now);
      QueueNs(f, now) + f.serviceNs == TotalNs(f, now) == now - f.firstSeen
  {
  }

  lemma CompletionAddsUp(c: Config, s: Tables, e: Event, clock: nat)
    requires e.Complete? && TimesFit(s.requests, clock) && StatsAddUp(s.stats) && clock <= e.now
    ensures StatsAddUp(HandleComplete(c, s, e.id, e.now, e.error, e.bytes, e.statsRoom).stats)
  {
    var own, op := c.deviceOf(e.id), c.operationOf(e.id);
    RecordBytesAddsUp(c, s.stats, own, op, e.bytes, e.error, e.now, e.statsRoom);
    var stats1 := RecordBytes(c, s.stats, own, op, e.bytes, e.error, e.now, e.statsRoom);
    if e.id in s.requests {
      SplitOf(s.requests[e.id], clock, e.now);
      var f := Completed(s.requests[e.id], e.now);
      RecordCompletionAddsUp(c, stats1, own, op, QueueNs(f, e.now), f.serviceNs, TotalNs(f, e.now), e.now, e.statsRoom);
    } else {
      RecordCompletionAddsUp(c, stats1, own, op, 0, 0, 0, e.now, e.statsRoom);
    }
  }

  lemma CountersAddUp(c: Config, stats: map<nat, DeviceStats>, dev: nat, now: nat, room: bool)
    requires StatsAddUp(stats)
    ensures StatsAddUp(CountLost(c, stats, dev, now, room)) && StatsAddUp(CountRequeue(c, stats, dev, now, room))
  {
    TouchAddsUp(stats, dev, now, room);
  }

  lemma StatsAddUpStep(c: Config, s: Tables, e: Event, clock: nat)
    requires TimesFit(s.requests, clock) && StatsAddUp(s.stats) && clock <= ClockAfter(clock, e)
    ensures StatsAddUp(Handle(c, s, e).stats)
  {
    if e.Complete? {
      CompletionAddsUp(c, s, e, clock);
    } else if !e.Merge? {
      CountersAddUp(c, s.stats, c.deviceOf(e.id), e.now, e.statsRoom);
    }
  }

  /** Every completion splits its latency exactly, so the recorded sums do too. */
  lemma {:induction false} LatencySplitsExactly(c: Config, s0: Tables, start: nat, es: seq<Event>)
    requires Initial(s0, start) && Timed(start, es) && SteadyRun(c, s0, es)
    ensures TimesFit(After(c, s0, es).requests, Clock(start, es))
    ensures StatsAddUp(After(c, s0, es).stats)
  {
    if es != [] {
      var before, e := es[..|es| - 1], es[|es| - 1];
      LatencySplitsExactly(c, s0, start, before);
      TimesFitStep(c, After(c, s0, before), e, Clock(start, before));
      StatsAddUpStep(c, After(c, s0, before), e, Clock(start, before));
    }
  }

  /** The next completion of a live request records parts that add up to its age. */
  lemma CompletionSplits(c: Config, s0: Tables, start: nat, es: seq<Event>, e: Event)
    requires Initial(s0, start) && Timed(start, es) && SteadyRun(c, s0, es)
    requires e.Complete? && e.id in After(c, s0, es).requests && e.now >= Clock(start, es)
    ensures var f := Completed(After(c, s0, es).requests[e.id], e.now);
      QueueNs(f, e.now) + f.serviceNs == TotalNs(f, e.now) == e.now - f.firstSeen
  {
    LatencySplitsExactly(c, s0, start, es);
  }

  /** Whichever live request completes next, at whatever time from now on, its parts add up to its age. */
  ghost predicate SplitsFrom(reqs: map<nat, Request>, clock: nat) {
    forall id, now: nat | id in reqs && now >= clock ::
      var f := Completed(reqs[id], now);
      QueueNs(f, now) + f.serviceNs == TotalNs(f, now)
  }

  /** The same after every event of a run. */
  ghost predicate AlwaysSplits(c: Config, s0: Tables, start: nat, es: seq<Event>) {
    && SplitsFrom(After(c, s0, es).requests, Clock(start, es))
    && (es != [] ==> AlwaysSplits(c, s0, start, es[..|es| - 1]))
  }

  /** Only tracked requests are in the table, first seen after loading. */
  predicate Tracked(c: Config, reqs: map<nat, Request>) {
    forall id | id in reqs :: TrackedOne(c, id, reqs[id])
  }

  predicate TrackedOne(c: Config, id: nat, r: Request) {
    c.requestTracking && ShouldTrack(c, id) && r.firstSeen > 0
  }

  lemma NewStateTracked(c: Config, s: Tables, e: Event)
    requires e.id in s.requests ==> TrackedOne(c, e.id, s.requests[e.id])
    requires (e.Merge? || e.now > 0) && e.id in Handle(c, s, e).requests
    ensures TrackedOne(c, e.id, Handle(c, s, e).requests[e.id])
  {
  }

  lemma TrackedStep(c: Config, s: Tables, e: Event)
    requires Tracked(c, s.requests) && (e.Merge? || e.now > 0)
    ensures Tracked(c, Handle(c, s, e).requests)
  {
    var reqs' := Handle(c, s, e).requests;
    OnlyOneRequest(c, s, e);
    forall id | id in reqs' ensures TrackedOne(c, id, reqs'[id]) {
      if id == e.id { NewStateTracked(c, s, e); }
    }
  }

  lemma {:induction false} RunTracked(c: Config, s0: Tables, start: nat, es: seq<Event>)
    requires Initial(s0, start) && Timed(start, es)
    ensures Tracked(c, After(c, s0, es).requests)
  {
    if es != [] {
      RunTracked(c, s0, start, es[..|es| - 1]);
      ClockPositive(start, es);
      TrackedStep(c, After(c, s0, es[..|es| - 1]), es[|es| - 1]);
    }
  }

  /** An attempt whose beginning was forgotten is charged more than the request's age. */
  lemma ForgottenStartOvercharges(r: Request, now: nat)
    requires r.issued && r.issueNs == 0 && r.firstSeen > 0 && now > 0
    ensures var f := Completed(r, now); QueueNs(f, now) + f.serviceNs > TotalNs(f, now)
  {
  }

  lemma InstantRequeueNeverSplits(c: Config, s: Tables, e: Event)
    requires Tracked(c, s.requests) && e.Requeue? && e.id in s.requests && Instant(s.requests[e.id], e.now)
    ensures !SplitsFrom(Handle(c, s, e).requests, e.now)
  {
    var r := Handle(c, s, e).requests[e.id];
    assert r == Requeued(s.requests[e.id], e.now);
    ForgottenStartOvercharges(r, e.now + 1);
  }

  lemma SteadyRunsSplit(c: Config, s0: Tables, start: nat, es: seq<Event>)
    requires Initial(s0, start) && Timed(start, es) && SteadyRun(c, s0, es)
    ensures SplitsFrom(After(c, s0, es).requests, Clock(start, es))
  {
    LatencySplitsExactly(c, s0, start, es);
    var reqs, clock := After(c, s0, es).requests, Clock(start, es);
    forall id, now: nat | id in reqs && now >= clock
      ensures var f := Completed(reqs[id], now); QueueNs(f, now) + f.serviceNs == TotalNs(f, now)
    {
      SplitOf(reqs[id], clock, now);
    }
  }

  /** Throughout a run every completion splits its latency exactly if and only if
      no requeue of the run comes at the very clock reading of the issue. */
  lemma {:induction false} LatencySplitsIff(c: Config, s0: Tables, start: nat, es: seq<Event>)
    requires Initial(s0, start) && Timed(start, es)
    ensures AlwaysSplits(c, s0, start, es) <==> SteadyRun(c, s0, es)
  {
    if SteadyRun(c, s0, es) { SteadyRunsSplit(c, s0, start, es); }
    if es != [] {
      var before, e := es[..|es| - 1], es[|es| - 1];
      LatencySplitsIff(c, s0, start, before);
      if SteadyRun(c, s0, before) && !SteadyRun(c, s0, es) {
        RunTracked(c, s0, start, before);
        InstantRequeueNeverSplits(c, After(c, s0, before), e);
      }
    }
  }

  /** A requeue at the instant of the issue forgets when the attempt began but not
      that it runs; its completion then charges all time since boot. */
  lemma InstantRequeueBreaksSplit(c: Config, s0: Tables, start: nat, id: nat, t: nat, now: nat)
    requires Initial(s0, start) && c.requestTracking && ShouldTrack(c, id) && start <= t < now
    ensures var es := [Issue(id, t, 8, true, true), Requeue(id, t, true)];
      && Timed(start, es) && !SteadyRun(c, s0, es) && id in After(c, s0, es).requests
      && var f := Completed(After(c, s0, es).requests[id], now);
         f.serviceNs == now && TotalNs(f, now) == now - t && QueueNs(f, now) + f.serviceNs != TotalNs(f, now)
  {
    var e1, e2 := Issue(id, t, 8, true, true), Requeue(id, t, true);
    var es := [e1, e2];
    assert es[..1] == [e1] && [e1][..0] == [];
    var s1 := Handle(c, s0, e1);
    assert After(c, s0, [e1]) == s1;
    assert s1.requests[id] == Issued(NewRequest(t, 8, false), t, 8);
    assert After(c, s0, es) == Handle(c, s1, e2);
    assert Handle(c, s1, e2).requests[id] == Requeued(s1.requests[id], t);
    assert Timed(start, []) && Timed(start, [e1]);
  }
}
