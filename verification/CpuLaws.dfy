/** Over every run of the probes and every delivery of what they emitted, the
    reported times are bounded by one another and by the time that has passed. */
module CpuLaws {
  import opened Basics
  import opened Sums
  import opened CpuUtil
  import Words

  // -------------------------------------------------------- runs of the probes

  function MachineAfter(filter: Filter, cpus: nat, ps: seq<Probe>): (m: Machine)
    requires forall p | p in ps :: p.cpu < cpus
    ensures |m.cpus| == cpus
  {
    if ps == [] then Machine(seq(cpus, _ => IDLE), [])
    else Observe(filter, MachineAfter(filter, cpus, ps[..|ps| - 1]), ps[|ps| - 1])
  }

  function Clock(ps: seq<Probe>): nat { if ps == [] then 0 else ps[|ps| - 1].now }

  /** A thread that becomes current on a CPU is current on no other. */
  predicate Exclusive(m: Machine, p: Probe) {
    p.Switch? && p.nextTid != 0 ==> forall c | 0 <= c < |m.cpus| && c != p.cpu :: m.cpus[c].tid != p.nextTid
  }

  /** Probes on existing CPUs, in the order of their times, no thread on two CPUs at once. */
  predicate Schedule(filter: Filter, cpus: nat, ps: seq<Probe>) {
    && (forall p | p in ps :: p.cpu < cpus)
    && (ps != [] ==>
          && Schedule(filter, cpus, ps[..|ps| - 1])
          && Clock(ps[..|ps| - 1]) <= Clock(ps)
          && Exclusive(MachineAfter(filter, cpus, ps[..|ps| - 1]), ps[|ps| - 1]))
  }

  /** Kernel time accumulated on a CPU fits into the stretch since its start. */
  predicate StateOk(s: CpuState, clock: nat) {
    && s.startTime <= clock && 0 <= s.kernelAcc
    && if s.inKernel && s.kernelStart > 0
       then s.startTime <= s.kernelStart <= clock && s.kernelAcc <= s.kernelStart - s.startTime
       else s.kernelAcc <= clock - s.startTime
  }

  predicate EventOk(e: CpuEvent, clock: nat) {
    e.startTime <= e.endTime <= clock && 0 <= e.kernelTime <= e.endTime - e.startTime
  }

  /** A thread's later stretch starts no earlier than an earlier one ends. */
  predicate InOrder(events: seq<CpuEvent>) {
    forall i, j | 0 <= i < j < |events| && events[i].tid == events[j].tid != 0 ::
        events[i].endTime <= events[j].startTime
  }

  /** What a thread did is over when the current stretch of the thread began. */
  predicate Past(events: seq<CpuEvent>, s: CpuState) {
    forall i | 0 <= i < |events| && events[i].tid == s.tid != 0 :: events[i].endTime <= s.startTime
  }

  predicate OnOneCpu(cpus: seq<CpuState>) {
    forall c, d | 0 <= c < d < |cpus| && cpus[c].tid == cpus[d].tid :: cpus[c].tid == 0
  }

  predicate MachineOk(m: Machine, clock: nat) {
    && (forall c | 0 <= c < |m.cpus| :: StateOk(m.cpus[c], clock) && Past(m.events, m.cpus[c]))
    && (forall i | 0 <= i < |m.events| :: EventOk(m.events[i], clock))
    && InOrder(m.events) && OnOneCpu(m.cpus)
  }

  lemma StateStep(filter: Filter, s: CpuState, p: Probe, clock: nat)
    requires StateOk(s, clock) && clock <= p.now
    ensures StateOk(StateAfter(filter, s, p), p.now)
    ensures forall e | e in Emitted(filter, s, p) ::
      EventOk(e, p.now) && e.tid == s.tid && e.startTime == s.startTime && e.endTime == p.now
  {
  }

  lemma StateWaits(s: CpuState, clock: nat, later: nat)
    requires StateOk(s, clock) && clock <= later
    ensures StateOk(s, later)
  {
  }

  /** Appending the events of one probe keeps a thread's stretches in order. */
  lemma EventsStep(events: seq<CpuEvent>, added: seq<CpuEvent>, s: CpuState, now: nat)
    requires InOrder(events) && Past(events, s) && |added| <= 1
    requires forall e | e in added :: e.tid == s.tid && e.startTime == s.startTime && e.endTime == now
    ensures InOrder(events + added)
  {
    forall i, j | 0 <= i < j < |events + added| && (events + added)[i].tid == (events + added)[j].tid != 0
      ensures (events + added)[i].endTime <= (events + added)[j].startTime
    {
      if j == |events| { assert (events + added)[j] in added; }
    }
  }

  lemma PastStep(filter: Filter, m: Machine, p: Probe, clock: nat, c: nat)
    requires MachineOk(m, clock) && p.cpu < |m.cpus| && clock <= p.now && Exclusive(m, p) && c < |m.cpus|
    ensures Past(Observe(filter, m, p).events, Observe(filter, m, p).cpus[c])
  {
    var s := m.cpus[p.cpu];
    StateStep(filter, s, p, clock);
    var added := Emitted(filter, s, p);
    forall i | 0 <= i < |m.events + added| && (m.events + added)[i].tid == Observe(filter, m, p).cpus[c].tid != 0
      ensures (m.events + added)[i].endTime <= Observe(filter, m, p).cpus[c].startTime
    {
      if i < |m.events| {
        assert EventOk(m.events[i], clock) && Past(m.events, m.cpus[c]);
      } else {
        assert (m.events + added)[i] in added;
      }
    }
  }

  lemma OneCpuStep(filter: Filter, m: Machine, p: Probe)
    requires OnOneCpu(m.cpus) && p.cpu < |m.cpus| && Exclusive(m, p)
    ensures OnOneCpu(Observe(filter, m, p).cpus)
  {
  }

  lemma MachineStep(filter: Filter, m: Machine, p: Probe, clock: nat)
    requires MachineOk(m, clock) && p.cpu < |m.cpus| && clock <= p.now && Exclusive(m, p)
    ensures MachineOk(Observe(filter, m, p), p.now)
  {
    var s, m' := m.cpus[p.cpu], Observe(filter, m, p);
    StateStep(filter, s, p, clock);
    EventsStep(m.events, Emitted(filter, s, p), s, p.now);
    OneCpuStep(filter, m, p);
    forall c | 0 <= c < |m'.cpus| ensures StateOk(m'.cpus[c], p.now) && Past(m'.events, m'.cpus[c]) {
      PastStep(filter, m, p, clock, c);
      if c != p.cpu { StateWaits(m.cpus[c], clock, p.now); }
    }
    forall i | 0 <= i < |m'.events| ensures EventOk(m'.events[i], p.now) {
      if i < |m.events| { assert EventOk(m.events[i], clock); } else { assert m'.events[i] in Emitted(filter, s, p); }
    }
  }

  /** In every schedule each event's kernel time lies within its stretch, and
      the stretches of one thread never overlap, on whatever CPUs they were. */
  lemma {:induction false} StretchesAreDisjoint(filter: Filter, cpus: nat, ps: seq<Probe>)
    requires Schedule(filter, cpus, ps)
    ensures MachineOk(MachineAfter(filter, cpus, ps), Clock(ps))
  {
    if ps != [] {
      StretchesAreDisjoint(filter, cpus, ps[..|ps| - 1]);
      MachineStep(filter, MachineAfter(filter, cpus, ps[..|ps| - 1]), ps[|ps| - 1], Clock(ps[..|ps| - 1]));
    }
  }

  // ----------------------------------------------------------------- delivery

  /** The event with this index reaches the collector; `done` are the threads
      reported if it ends a round. */
  datatype Delivery = Delivery(index: nat, done: set<Thread>)

  /** Any selection of the events in any order, none twice. */
  predicate Deliverable(events: seq<CpuEvent>, ds: seq<Delivery>) {
    && (forall i | 0 <= i < |ds| :: ds[i].index < |events|)
    && (forall i, j | 0 <= i < j < |ds| :: ds[i].index != ds[j].index)
  }

  function CollectedAfter(cpus: nat, events: seq<CpuEvent>, ds: seq<Delivery>): Collected
    requires forall i | 0 <= i < |ds| :: ds[i].index < |events|
  {
    if ds == [] then Collected(map[], 0, 0)
    else
      var d := ds[|ds| - 1];
      Received(CollectedAfter(cpus, events, ds[..|ds| - 1]), events[d.index], cpus, d.done)
  }

  /** The events delivered for a thread since its last report. */
  function Pending(cpus: nat, events: seq<CpuEvent>, ds: seq<Delivery>, th: Thread): set<nat>
    requires forall i | 0 <= i < |ds| :: ds[i].index < |events|
  {
    if ds == [] then {}
    else
      var (before, d) := (ds[..|ds| - 1], ds[|ds| - 1]);
      var e := events[d.index];
      if EndsRound(CollectedAfter(cpus, events, before), e, cpus) && th in d.done then {}
      else Pending(cpus, events, before, th) + if Counts(e) && ThreadOf(e) == th then {d.index} else {}
  }

  function CpuTimeOf(events: seq<CpuEvent>): nat -> int {
    (i: nat) => if i < |events| then events[i].endTime - events[i].startTime else 0
  }

  function KernelTimeOf(events: seq<CpuEvent>): nat -> int {
    (i: nat) => if i < |events| then events[i].kernelTime else 0
  }

  /** A thread's statistics are the sums over its pending events, and its span covers them. */
  ghost predicate StatsMatch(events: seq<CpuEvent>, c: Collected, th: Thread, pending: set<nat>) {
    if th !in c.stats then pending == {}
    else
      var s := c.stats[th];
      && s.cpuTime == Sum(pending, CpuTimeOf(events)) && s.kernelTime == Sum(pending, KernelTimeOf(events))
      && s.minTimestamp <= c.maxTimestamp
      && forall i | i in pending ::
           i < |events| && ThreadOf(events[i]) == th && th.tid != 0
           && s.minTimestamp <= events[i].startTime && events[i].endTime <= c.maxTimestamp
  }

  lemma AddToSum(s: set<nat>, x: nat, f: nat -> int)
    requires x !in s
    ensures Sum(s + {x}, f) == Sum(s, f) + f(x)
  {
    SumRemove(s + {x}, f, x);
    assert s + {x} - {x} == s;
  }

  lemma RecordedMatches(events: seq<CpuEvent>, c: Collected, th: Thread, pending: set<nat>, i: nat)
    requires StatsMatch(events, c, th, pending) && i < |events| && i !in pending
    requires events[i].startTime <= events[i].endTime
    ensures var e := events[i];
      StatsMatch(events, Recorded(c, e), th, pending + if Counts(e) && ThreadOf(e) == th then {i} else {})
  {
    AddToSum(pending, i, CpuTimeOf(events));
    AddToSum(pending, i, KernelTimeOf(events));
    var e := events[i];
    if !(Counts(e) && ThreadOf(e) == th) { assert pending + {} == pending; }
  }

  lemma {:induction false} PendingWasDelivered(cpus: nat, events: seq<CpuEvent>, ds: seq<Delivery>, th: Thread, k: nat)
    requires Deliverable(events, ds) && k in Pending(cpus, events, ds, th)
    ensures exists i | 0 <= i < |ds| :: ds[i].index == k
  {
    var n := |ds| - 1;
    if k != ds[n].index {
      PendingWasDelivered(cpus, events, ds[..n], th, k);
      var i :| 0 <= i < n && ds[..n][i].index == k;
      assert ds[i].index == k;
    }
  }

  lemma {:induction false} AlwaysMatch(cpus: nat, events: seq<CpuEvent>, ds: seq<Delivery>, th: Thread)
    requires Deliverable(events, ds) && forall i | 0 <= i < |events| :: events[i].startTime <= events[i].endTime
    ensures StatsMatch(events, CollectedAfter(cpus, events, ds), th, Pending(cpus, events, ds, th))
  {
    if ds != [] {
      var n := |ds| - 1;
      var before, d := ds[..n], ds[n];
      AlwaysMatch(cpus, events, before, th);
      var c, pending := CollectedAfter(cpus, events, before), Pending(cpus, events, before, th);
      if d.index in pending {
        PendingWasDelivered(cpus, events, before, th, d.index);
        assert false;
      }
      RecordedMatches(events, c, th, pending, d.index);
    }
  }

  // ------------------------------------------------------------------- bounds

  /** Stretches that are in order and within [lo, hi] sum to at most hi - lo. */
  lemma {:induction false} SumWithin(events: seq<CpuEvent>, chosen: set<nat>, lo: nat, hi: nat, th: Thread)
    requires InOrder(events) && th.tid != 0 && lo <= hi
    requires forall i | i in chosen ::
      i < |events| && ThreadOf(events[i]) == th && lo <= events[i].startTime <= events[i].endTime <= hi
    ensures Sum(chosen, CpuTimeOf(events)) <= hi - lo
    decreases |chosen|
  {
    if chosen != {} {
      var last := Latest(chosen);
      SumRemove(chosen, CpuTimeOf(events), last);
      SumWithin(events, chosen - {last}, lo, events[last].startTime, th);
    }
  }

  ghost function Latest(s: set<nat>): (m: nat)
    requires s != {}
    ensures m in s && forall i | i in s :: i <= m
  {
    var x :| x in s;
    if s == {x} then x
    else
      var y := Latest(s - {x});
      assert forall i | i in s :: i == x || i in s - {x};
      if x < y then y else x
  }

  lemma {:induction false} SumAtMost(s: set<nat>, f: nat -> int, g: nat -> int)
    requires forall i | i in s :: 0 <= f(i) <= g(i)
    ensures 0 <= Sum(s, f) <= Sum(s, g)
    decreases |s|
  {
    if s != {} {
      var x :| x in s;
      SumRemove(s, f, x);
      SumRemove(s, g, x);
      SumAtMost(s - {x}, f, g);
    }
  }

  /** For every schedule, every selection and order of the events, every outcome
      of the reports so far and every thread: its kernel time is at most its CPU
      time, and that at most the span the report divides by. */
  lemma TimesAreBounded(filter: Filter, cpus: nat, ps: seq<Probe>, ds: seq<Delivery>, th: Thread)
    requires Schedule(filter, cpus, ps) && Deliverable(MachineAfter(filter, cpus, ps).events, ds)
    ensures var c := CollectedAfter(cpus, MachineAfter(filter, cpus, ps).events, ds);
      th in c.stats ==> 0 <= c.stats[th].kernelTime <= c.stats[th].cpuTime <= c.maxTimestamp - c.stats[th].minTimestamp
  {
    StretchesAreDisjoint(filter, cpus, ps);
    var events := MachineAfter(filter, cpus, ps).events;
    var c, pending := CollectedAfter(cpus, events, ds), Pending(cpus, events, ds, th);
    AlwaysMatch(cpus, events, ds, th);
    if th in c.stats {
      SumAtMost(pending, KernelTimeOf(events), CpuTimeOf(events));
      if pending != {} { SumWithin(events, pending, c.stats[th].minTimestamp, c.maxTimestamp, th); }
    }
  }

  /** The same at the moment of a report: the reported numbers of the round that an event ends. */
  lemma ReportsAreBounded(filter: Filter, cpus: nat, ps: seq<Probe>, ds: seq<Delivery>, index: nat, th: Thread)
    requires Schedule(filter, cpus, ps)
    requires Deliverable(MachineAfter(filter, cpus, ps).events, ds + [Delivery(index, {})])
    ensures var events := MachineAfter(filter, cpus, ps).events;
      index < |events| && (forall i | 0 <= i < |ds| :: ds[i].index < |events|)
      && var c := Recorded(CollectedAfter(cpus, events, ds), events[index]);
         th in c.stats ==>
           var r := ReportOf(c, th);
           0 <= r.kernelTime <= r.cpuTime <= r.elapsed
  {
    var events, all := MachineAfter(filter, cpus, ps).events, ds + [Delivery(index, {})];
    assert all[|ds|].index == index;
    assert forall i | 0 <= i < |ds| :: all[i] == ds[i];
    assert all[..|ds|] == ds;
    TimesAreBounded(filter, cpus, ps, all, th);
    var c := Recorded(CollectedAfter(cpus, events, ds), events[index]);
    var c' := CollectedAfter(cpus, events, all);
    assert c'.maxTimestamp == c.maxTimestamp;
    if th in c.stats { assert c'.stats[th] == c.stats[th]; }
  }

  // ------------------------------------------------------------- conservation

  /** CPU time, respectively kernel time, in a thread's report, if it gets one. */
  function ReportedTime(c: Collected, th: Thread, kernel: bool): int {
    if th !in c.stats then 0 else if kernel then ReportOf(c, th).kernelTime else ReportOf(c, th).cpuTime
  }

  /** The same in all rounds so far. */
  function Reported(cpus: nat, events: seq<CpuEvent>, ds: seq<Delivery>, th: Thread, kernel: bool): int
    requires forall i | 0 <= i < |ds| :: ds[i].index < |events|
  {
    if ds == [] then 0
    else
      var (before, d) := (ds[..|ds| - 1], ds[|ds| - 1]);
      var c := CollectedAfter(cpus, events, before);
      Reported(cpus, events, before, th, kernel)
      + if EndsRound(c, events[d.index], cpus) && th in d.done
        then ReportedTime(Recorded(c, events[d.index]), th, kernel) else 0
  }

  /** The same as still pending. */
  function PendingTime(c: Collected, th: Thread, kernel: bool): int {
    if th !in c.stats then 0 else if kernel then c.stats[th].kernelTime else c.stats[th].cpuTime
  }

  /** The same of everything delivered so far: the stretches of a thread and process
      whose beginning is known. */
  function Delivered(events: seq<CpuEvent>, ds: seq<Delivery>, th: Thread, kernel: bool): int
    requires forall i | 0 <= i < |ds| :: ds[i].index < |events|
  {
    if ds == [] then 0
    else
      var e := events[ds[|ds| - 1].index];
      Delivered(events, ds[..|ds| - 1], th, kernel)
      + if e.tgid == th.tgid != 0 && e.tid == th.tid != 0 && e.startTime != 0
        then (if kernel then e.kernelTime else e.endTime - e.startTime) else 0
  }

  lemma OneMoreRecorded(c: Collected, e: CpuEvent, th: Thread, kernel: bool)
    ensures PendingTime(Recorded(c, e), th, kernel)
      == PendingTime(c, th, kernel)
         + if e.tgid == th.tgid != 0 && e.tid == th.tid != 0 && e.startTime != 0
           then (if kernel then e.kernelTime else e.endTime - e.startTime) else 0
  {
  }

  /** Rounds neither lose nor repeat CPU time or kernel time: what was reported and what
      is still pending make up what was delivered. */
  lemma {:induction false} TimeIsConserved(cpus: nat, events: seq<CpuEvent>, ds: seq<Delivery>, th: Thread,
                                           kernel: bool)
    requires forall i | 0 <= i < |ds| :: ds[i].index < |events|
    ensures Reported(cpus, events, ds, th, kernel) + PendingTime(CollectedAfter(cpus, events, ds), th, kernel)
      == Delivered(events, ds, th, kernel)
  {
    if ds != [] {
      var before, d := ds[..|ds| - 1], ds[|ds| - 1];
      TimeIsConserved(cpus, events, before, th, kernel);
      OneMoreRecorded(CollectedAfter(cpus, events, before), events[d.index], th, kernel);
    }
  }

  /** A round ends with the last of as many boundaries as there are CPUs. */
  function BoundariesOf(events: seq<CpuEvent>, ds: seq<Delivery>): nat
    requires forall i | 0 <= i < |ds| :: ds[i].index < |events|
  {
    if ds == [] then 0
    else BoundariesOf(events, ds[..|ds| - 1]) + if events[ds[|ds| - 1].index].boundary then 1 else 0
  }

  lemma OneMoreBoundary(c: Collected, e: CpuEvent, cpus: nat, done: set<Thread>)
    ensures Received(c, e, cpus, done).boundaries
      == if !e.boundary then c.boundaries else if c.boundaries + 1 == cpus then 0 else c.boundaries + 1
  {
  }

  lemma {:induction false} BoundariesCounted(cpus: nat, events: seq<CpuEvent>, ds: seq<Delivery>)
    requires cpus > 0 && forall i | 0 <= i < |ds| :: ds[i].index < |events|
    ensures CollectedAfter(cpus, events, ds).boundaries == BoundariesOf(events, ds) % cpus
  {
    if ds == [] {
      Words.ModuloUnique(0, cpus, 0, 0);
    } else {
      var before, d := ds[..|ds| - 1], ds[|ds| - 1];
      BoundariesCounted(cpus, events, before);
      OneMoreBoundary(CollectedAfter(cpus, events, before), events[d.index], cpus, d.done);
      NextInCycle(BoundariesOf(events, before), cpus);
    }
  }

  /** Rounds end exactly with every `cpus`-th boundary delivered. */
  lemma RoundsEndIff(cpus: nat, events: seq<CpuEvent>, ds: seq<Delivery>, next: CpuEvent)
    requires cpus > 0 && forall i | 0 <= i < |ds| :: ds[i].index < |events|
    ensures EndsRound(CollectedAfter(cpus, events, ds), next, cpus)
      <==> next.boundary && (BoundariesOf(events, ds) + 1) % cpus == 0
  {
    BoundariesCounted(cpus, events, ds);
    NextInCycle(BoundariesOf(events, ds), cpus);
  }

  lemma NextInCycle(n: nat, m: nat)
    requires m > 0
    ensures (n + 1) % m == if n % m + 1 == m then 0 else n % m + 1
  {
    var q, r := n / m, n % m;
    assert n == m * q + r;
    if r + 1 == m {
      assert n + 1 == m * (q + 1) + 0;
      Words.ModuloUnique(n + 1, m, q + 1, 0);
    } else {
      assert n + 1 == m * q + (r + 1);
      Words.ModuloUnique(n + 1, m, q, r + 1);
    }
  }

  // ------------------------------------------------------------ what a span is

  /** The latest end of all that was delivered. */
  function LatestEnd(events: seq<CpuEvent>, ds: seq<Delivery>): nat
    requires forall i | 0 <= i < |ds| :: ds[i].index < |events|
  {
    if ds == [] then 0
    else
      var (latest, e) := (LatestEnd(events, ds[..|ds| - 1]), events[ds[|ds| - 1].index]);
      if e.endTime > latest then e.endTime else latest
  }

  /** Where a thread's span begins: at what was the latest end when the thread was last
      reported, or at an earlier start of one of its stretches delivered since. */
  function SpanStart(cpus: nat, events: seq<CpuEvent>, ds: seq<Delivery>, th: Thread): Option<nat>
    requires cpus > 0 && forall i | 0 <= i < |ds| :: ds[i].index < |events|
  {
    if ds == [] then None
    else
      var (before, d) := (ds[..|ds| - 1], ds[|ds| - 1]);
      var start := WithStart(SpanStart(cpus, events, before, th), events[d.index], th);
      var ends := events[d.index].boundary && (BoundariesOf(events, before) + 1) % cpus == 0;
      if ends && th in d.done && start.Some? then Some(LatestEnd(events, ds)) else start
  }

  function WithStart(start: Option<nat>, e: CpuEvent, th: Thread): Option<nat> {
    if e.tgid == th.tgid != 0 && e.tid == th.tid != 0 && e.startTime != 0
    then (if start.Some? && start.value <= e.startTime then start else Some(e.startTime))
    else start
  }

  /** The collector's times are those of its deliveries. */
  predicate SpanIs(c: Collected, th: Thread, latest: nat, start: Option<nat>) {
    && c.maxTimestamp == latest && (th in c.stats <==> start.Some?)
    && (start.Some? ==> c.stats[th].minTimestamp == start.value)
  }

  lemma RecordedSpan(c: Collected, e: CpuEvent, th: Thread, latest: nat, start: Option<nat>)
    requires SpanIs(c, th, latest, start) && e.startTime <= U64_MAX
    ensures SpanIs(Recorded(c, e), th, if e.endTime > latest then e.endTime else latest, WithStart(start, e, th))
  {
  }

  lemma {:induction false} SpansAreDelivered(cpus: nat, events: seq<CpuEvent>, ds: seq<Delivery>, th: Thread)
    requires cpus > 0 && (forall i | 0 <= i < |ds| :: ds[i].index < |events|)
    requires forall i | 0 <= i < |events| :: events[i].startTime <= U64_MAX
    ensures SpanIs(CollectedAfter(cpus, events, ds), th, LatestEnd(events, ds), SpanStart(cpus, events, ds, th))
  {
    if ds != [] {
      var before, d := ds[..|ds| - 1], ds[|ds| - 1];
      SpansAreDelivered(cpus, events, before, th);
      RecordedSpan(CollectedAfter(cpus, events, before), events[d.index], th, LatestEnd(events, before),
                   SpanStart(cpus, events, before, th));
      RoundsEndIff(cpus, events, before, events[d.index]);
    }
  }

  /** Whatever was delivered in whatever order: the span a report divides by runs from
      the latest end there was when the thread was last reported, or from an earlier
      start delivered since, to the latest end of all. */
  lemma ReportedSpan(cpus: nat, events: seq<CpuEvent>, ds: seq<Delivery>, last: CpuEvent, th: Thread)
    requires cpus > 0 && (forall i | 0 <= i < |ds| :: ds[i].index < |events|)
    requires last.startTime <= U64_MAX && forall i | 0 <= i < |events| :: events[i].startTime <= U64_MAX
    ensures var (c, start) := (Recorded(CollectedAfter(cpus, events, ds), last),
                               WithStart(SpanStart(cpus, events, ds, th), last, th));
      && (th in c.stats <==> start.Some?)
      && (start.Some? ==> ReportOf(c, th).elapsed == Max(LatestEnd(events, ds), last.endTime) - start.value)
  {
    SpansAreDelivered(cpus, events, ds, th);
    RecordedSpan(CollectedAfter(cpus, events, ds), last, th, LatestEnd(events, ds), SpanStart(cpus, events, ds, th));
  }
}
