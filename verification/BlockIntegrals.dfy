/** What the sums and maxima of a device's depth entry stand for: time, read off the
    counters as they were between the events of the run. */
module BlockIntegrals {
  import opened Basics
  import opened BlockTrack
  import opened BlockSampling

  /** A device's depth entry after some events. */
  function EntryAt(c: Config, s0: Tables, es: seq<Event>, dev: nat): Depth
    requires dev in s0.depths
    ensures dev in After(c, s0, es).depths
  {
    EventsKeepDevice(c, s0, es, dev);
    After(c, s0, es).depths[dev]
  }

  /** Time spent with requests in service, respectively waiting; and the same times
      weighted with their number. */
  datatype Times = Times(busy: int, saturated: int, inflight: int, queued: int)

  /** What passes before an event, at the counters there are until then. */
  function Passing(d: Depth, time: int): Times {
    Times(if d.inflight > 0 then time else 0, if d.queued > 0 then time else 0, time * d.inflight, time * d.queued)
  }

  function Sum(a: Times, b: Times): Times {
    Times(a.busy + b.busy, a.saturated + b.saturated, a.inflight + b.inflight, a.queued + b.queued)
  }

  /** Summed over the times between the events of a run. */
  function Passed(c: Config, s0: Tables, start: nat, es: seq<Event>, dev: nat): Times
    requires dev in s0.depths
  {
    if es == [] then Times(0, 0, 0, 0)
    else
      var before := es[..|es| - 1];
      Sum(Passed(c, s0, start, before, dev),
          Passing(EntryAt(c, s0, before, dev), Clock(start, es) - Clock(start, before)))
  }

  /** The largest counters there have been. */
  function MostInService(c: Config, s0: Tables, es: seq<Event>, dev: nat): nat
    requires dev in s0.depths
  {
    var now := EntryAt(c, s0, es, dev).inflight;
    if es == [] then now else Max(MostInService(c, s0, es[..|es| - 1], dev), now)
  }

  function MostWaiting(c: Config, s0: Tables, es: seq<Event>, dev: nat): nat
    requires dev in s0.depths
  {
    var now := EntryAt(c, s0, es, dev).queued;
    if es == [] then now else Max(MostWaiting(c, s0, es[..|es| - 1], dev), now)
  }

  /** The sums of an entry, extended from its last update to `t`. */
  function Extended(d: Depth, t: nat): Times {
    Times(BusyUntil(d, t), SaturatedUntil(d, t), InflightUntil(d, t), QueuedUntil(d, t))
  }

  lemma Later(d: Depth, t: nat, t': nat)
    ensures Extended(d, t') == Sum(Extended(d, t), Passing(d, t' - t))
  {
    Split(t - d.lastUpdate, t' - t, d.inflight);
    Split(t - d.lastUpdate, t' - t, d.queued);
  }

  lemma Split(a: int, b: int, n: int)
    ensures (a + b) * n == a * n + b * n
  {
  }

  /** Moving the counters charges nothing but the time up to then. */
  lemma ShiftCharges(d: Depth, queuedDelta: int, inflightDelta: int, now: nat)
    requires 0 < d.lastUpdate <= now
    ensures var d' := ShiftDepth(d, queuedDelta, inflightDelta, now);
      && Extended(d', now) == Extended(d, now) && d'.lastUpdate == now
      && d'.maxInflight == Max(d.maxInflight, d'.inflight) && d'.maxQueued == Max(d.maxQueued, d'.queued)
  {
  }

  lemma EventCharges(c: Config, s: Tables, e: Event, dev: nat, clock: nat)
    requires dev in s.depths && 0 < s.depths[dev].lastUpdate <= clock <= ClockAfter(clock, e)
    requires MaximaHold(s.depths[dev])
    ensures dev in Handle(c, s, e).depths
    ensures var (d, d', t) := (s.depths[dev], Handle(c, s, e).depths[dev], ClockAfter(clock, e));
      && Extended(d', t) == Extended(d, t) && 0 < d'.lastUpdate <= t && MaximaHold(d')
      && d'.maxInflight == Max(d.maxInflight, d'.inflight) && d'.maxQueued == Max(d.maxQueued, d'.queued)
  {
    var shifts, queuedDelta, inflightDelta := HandlerDepths(c, s, e);
    if !e.Merge? && shifts { ShiftCharges(s.depths[dev], queuedDelta, inflightDelta, ClockAfter(clock, e)); }
  }

  /** What the entry shows is what has passed. */
  predicate IsPassed(d: Depth, t: nat, passed: Times, mostInService: nat, mostWaiting: nat) {
    && Extended(d, t) == passed && d.maxInflight == mostInService && d.maxQueued == mostWaiting
    && 0 < d.lastUpdate <= t && MaximaHold(d)
  }

  lemma OneMoreEvent(c: Config, s: Tables, e: Event, dev: nat, t: nat, passed: Times, most: nat, mostWaiting: nat)
    requires dev in s.depths && IsPassed(s.depths[dev], t, passed, most, mostWaiting) && t <= ClockAfter(t, e)
    ensures dev in Handle(c, s, e).depths
    ensures var (d', t') := (Handle(c, s, e).depths[dev], ClockAfter(t, e));
      IsPassed(d', t', Sum(passed, Passing(s.depths[dev], t' - t)), Max(most, d'.inflight), Max(mostWaiting, d'.queued))
  {
    EventCharges(c, s, e, dev, t);
    Later(s.depths[dev], t, ClockAfter(t, e));
  }

  /** In every run, an entry's sums, extended to the present, are the time there were
      requests in service, the time there were requests waiting, and these weighted with
      their number; its maxima are the largest counters there have been. */
  lemma {:induction false} SumsAreTimes(c: Config, s0: Tables, start: nat, es: seq<Event>, dev: nat)
    requires Initial(s0, start) && dev in s0.depths && Timed(start, es)
    ensures IsPassed(EntryAt(c, s0, es, dev), Clock(start, es), Passed(c, s0, start, es, dev),
                     MostInService(c, s0, es, dev), MostWaiting(c, s0, es, dev))
  {
    if es != [] {
      var before, e := es[..|es| - 1], es[|es| - 1];
      SumsAreTimes(c, s0, start, before, dev);
      OneMoreEvent(c, After(c, s0, before), e, dev, Clock(start, before), Passed(c, s0, start, before, dev),
                   MostInService(c, s0, before, dev), MostWaiting(c, s0, before, dev));
    }
  }
}
