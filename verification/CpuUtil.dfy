/** CPU-time accounting: the per-CPU probes of bpf/src/bpf/cpuutil.bpf.c emit
    one event per stretch of time a thread was current on a CPU, and
    bpf/src/cpuutil.rs folds them into per-thread statistics. */
module CpuUtil {
  import opened Basics

  // -------------------------------------------------------------- the probes

  /** Times in nanoseconds. Kernel times are signed here: that the program never
      subtracts a later time from an earlier one is proved, not built in. */
  datatype CpuState = CpuState(tid: nat, tgid: nat, startTime: nat, kernelStart: nat, kernelAcc: int, inKernel: bool)

  datatype CpuEvent = CpuEvent(tid: nat, tgid: nat, endTime: nat, kernelTime: int, startTime: nat, cpu: nat,
                               boundary: bool)

  /** What the kernel reports, with the CPU it happens on and the time the probe reads. */
  datatype Probe =
    | Switch(cpu: nat, prevTid: nat, prevTgid: nat, nextTid: nat, now: nat)
    | Enter(cpu: nat, tid: nat, now: nat)
    | Exit(cpu: nat, tid: nat, now: nat)
    | Boundary(cpu: nat, tgid: nat, now: nat)

  const IDLE: CpuState := CpuState(0, 0, 0, 0, 0, false)

  predicate ShouldTrack(filter: Filter, tgid: nat) { !filter.enabled || tgid == 0 || tgid in filter.tgids }

  datatype Filter = Filter(enabled: bool, tgids: set<nat>)

  /** `submit_cpu_event`. */
  function EventOf(s: CpuState, cpu: nat, endTime: nat, boundary: bool): CpuEvent {
    var kernel := if s.inKernel && s.kernelStart > 0 then s.kernelAcc + (endTime - s.kernelStart) else s.kernelAcc;
    CpuEvent(s.tid, s.tgid, endTime, kernel, s.startTime, cpu, boundary)
  }

  function StateAfter(filter: Filter, s: CpuState, p: Probe): CpuState {
    match p
    case Switch(_, _, _, nextTid, now) => CpuState(nextTid, 0, now, 0, 0, false)
    case Enter(_, tid, now) =>
      if s.tid == tid && !s.inKernel then s.(inKernel := true, kernelStart := now) else s
    case Exit(_, tid, now) =>
      if s.tid != tid then s
      else if s.inKernel && s.kernelStart > 0
      then s.(kernelAcc := s.kernelAcc + (now - s.kernelStart), kernelStart := 0, inKernel := false)
      else s.(inKernel := false)
    case Boundary(_, tgid, now) =>
      s.(tgid := if ShouldTrack(filter, tgid) then tgid else s.tgid, startTime := now,
         kernelStart := if s.inKernel then now else s.kernelStart, kernelAcc := 0)
  }

  function Emitted(filter: Filter, s: CpuState, p: Probe): seq<CpuEvent> {
    match p
    case Switch(cpu, prevTid, prevTgid, _, now) =>
      if s.tid == prevTid && s.tid != 0 && ShouldTrack(filter, prevTgid)
      then [EventOf(s.(tgid := prevTgid), cpu, now, false)] else []
    case Boundary(cpu, tgid, now) =>
      [EventOf(s.(tgid := if ShouldTrack(filter, tgid) then tgid else s.tgid), cpu, now, true)]
    case _ => []
  }

  /** All CPUs, and everything emitted so far. */
  datatype Machine = Machine(cpus: seq<CpuState>, events: seq<CpuEvent>)

  function Observe(filter: Filter, m: Machine, p: Probe): Machine
    requires p.cpu < |m.cpus|
    ensures |Observe(filter, m, p).cpus| == |m.cpus|
  {
    Machine(m.cpus[p.cpu := StateAfter(filter, m.cpus[p.cpu], p)], m.events + Emitted(filter, m.cpus[p.cpu], p))
  }

  /** The probes as they run on each CPU's own state. */
  class Tracer {
    const filter: Filter
    const states: array<CpuState>
    var events: seq<CpuEvent>

    ghost function Contents(): Machine
      reads this, states
    {
      Machine(states[..], events)
    }

    constructor (filter: Filter, cpus: nat)
      ensures this.filter == filter && Contents() == Machine(seq(cpus, _ => IDLE), []) && fresh(states)
    {
      this.filter := filter;
      states := new CpuState[cpus](_ => IDLE);
      events := [];
      new;
      assert states[..] == seq(cpus, _ => IDLE);
    }

    method Submit(s: CpuState, cpu: nat, endTime: nat, boundary: bool)
      modifies `events
      ensures events == old(events) + [EventOf(s, cpu, endTime, boundary)]
    {
      var kernelTime := s.kernelAcc;
      if s.inKernel && s.kernelStart > 0 {
        kernelTime := kernelTime + (endTime - s.kernelStart);
      }
      events := events + [CpuEvent(s.tid, s.tgid, endTime, kernelTime, s.startTime, cpu, boundary)];
    }

    method OnSwitch(cpu: nat, prevTid: nat, prevTgid: nat, nextTid: nat, now: nat)
      requires cpu < states.Length
      modifies this, states
      ensures Contents() == Observe(filter, old(Contents()), Switch(cpu, prevTid, prevTgid, nextTid, now))
    {
      var state := states[cpu];
      if state.tid == prevTid && state.tid != 0 {
        state := state.(tgid := prevTgid);
        if ShouldTrack(filter, state.tgid) {
          Submit(state, cpu, now, false);
        }
      }
      state := state.(tid := nextTid, tgid := 0);
      state := state.(startTime := now);
      state := state.(kernelStart := 0, kernelAcc := 0, inKernel := false);
      states[cpu] := state;
    }

    method OnEnter(cpu: nat, tid: nat, now: nat)
      requires cpu < states.Length
      modifies states
      ensures Contents() == Observe(filter, old(Contents()), Enter(cpu, tid, now))
    {
      if states[cpu].tid != tid {
        return;
      }
      if !states[cpu].inKernel {
        states[cpu] := states[cpu].(inKernel := true);
        states[cpu] := states[cpu].(kernelStart := now);
      }
    }

    method OnExit(cpu: nat, tid: nat, now: nat)
      requires cpu < states.Length
      modifies states
      ensures Contents() == Observe(filter, old(Contents()), Exit(cpu, tid, now))
    {
      var state := states[cpu];
      if state.tid != tid {
        return;
      }
      if state.inKernel && state.kernelStart > 0 {
        state := state.(kernelAcc := state.kernelAcc + (now - state.kernelStart));
        state := state.(kernelStart := 0);
      }
      state := state.(inKernel := false);
      states[cpu] := state;
    }

    method OnBoundary(cpu: nat, tgid: nat, now: nat)
      requires cpu < states.Length
      modifies this, states
      ensures Contents() == Observe(filter, old(Contents()), Boundary(cpu, tgid, now))
    {
      var state := states[cpu];
      if ShouldTrack(filter, tgid) {
        state := state.(tgid := tgid);
      }
      Submit(state, cpu, now, true);
      state := state.(startTime := now);
      if state.inKernel {
        state := state.(kernelStart := now);
      }
      state := state.(kernelAcc := 0);
      states[cpu] := state;
    }
  }

  // ----------------------------------------------------------- the collector

  datatype Thread = Thread(tgid: nat, tid: nat)

  datatype ThreadStats = ThreadStats(cpuTime: int, kernelTime: int, minTimestamp: nat)

  datatype Collected = Collected(stats: map<Thread, ThreadStats>, maxTimestamp: nat, boundaries: nat)

  datatype Report = Report(thread: Thread, cpuTime: int, kernelTime: int, elapsed: int)

  predicate Counts(e: CpuEvent) { e.tgid != 0 && e.tid != 0 && e.startTime != 0 }

  function ThreadOf(e: CpuEvent): Thread { Thread(e.tgid, e.tid) }

  function StatsOf(stats: map<Thread, ThreadStats>, th: Thread): ThreadStats {
    if th in stats then stats[th] else ThreadStats(0, 0, U64_MAX)
  }

  function AddEvent(s: ThreadStats, e: CpuEvent): ThreadStats {
    ThreadStats(s.cpuTime + (e.endTime - e.startTime), s.kernelTime + e.kernelTime, Min(s.minTimestamp, e.startTime))
  }

  function Recorded(c: Collected, e: CpuEvent): Collected {
    c.(stats := if Counts(e) then c.stats[ThreadOf(e) := AddEvent(StatsOf(c.stats, ThreadOf(e)), e)] else c.stats,
       maxTimestamp := Max(c.maxTimestamp, e.endTime))
  }

  /** Whether the event is the last boundary of a round. */
  predicate EndsRound(c: Collected, e: CpuEvent, cpus: nat) { e.boundary && c.boundaries + 1 == cpus }

  /** Start a new round for the threads in `done`. */
  function Renewed(stats: map<Thread, ThreadStats>, done: set<Thread>, at: nat): map<Thread, ThreadStats> {
    map th | th in stats :: if th in done then ThreadStats(0, 0, at) else stats[th]
  }

  /** One event, the threads of `done` being reported if it ends a round: all of
      them, unless the callback refuses a message on the way. */
  function Received(c: Collected, e: CpuEvent, cpus: nat, done: set<Thread>): Collected {
    var r := Recorded(c, e);
    if EndsRound(c, e, cpus) then Collected(Renewed(r.stats, done, r.maxTimestamp), r.maxTimestamp, 0)
    else if e.boundary then r.(boundaries := c.boundaries + 1)
    else r
  }

  function ReportOf(c: Collected, th: Thread): Report
    requires th in c.stats
  {
    Report(th, c.stats[th].cpuTime, c.stats[th].kernelTime, c.maxTimestamp - c.stats[th].minTimestamp)
  }

  /** The ring-buffer callback and the state it closes over. */
  class Collector {
    const cpus: nat
    var threadStats: map<Thread, ThreadStats>
    var maxTimestamp: nat
    var boundariesReported: nat

    ghost function Contents(): Collected
      reads this
    {
      Collected(threadStats, maxTimestamp, boundariesReported)
    }

    constructor (cpus: nat)
      ensures this.cpus == cpus && Contents() == Collected(map[], 0, 0)
    {
      this.cpus := cpus;
      threadStats, maxTimestamp, boundariesReported := map[], 0, 0;
    }

    /** Report threads one by one, in whatever order, until the consumer of the
        messages refuses one. */
    method ReportRound(accepts: Thread -> bool) returns (reports: map<Thread, Report>)
      modifies `threadStats
      ensures reports.Keys <= old(threadStats.Keys)
      ensures (forall th | th in old(threadStats) :: accepts(th)) ==> reports.Keys == old(threadStats.Keys)
      ensures threadStats == Renewed(old(threadStats), reports.Keys, maxTimestamp)
      ensures forall th | th in reports :: reports[th] == ReportOf(old(Contents()), th)
    {
      ghost var c := Contents();
      reports := map[];
      var todo := threadStats.Keys;
      while todo != {}
        invariant todo + reports.Keys == c.stats.Keys && todo !! reports.Keys
        invariant threadStats == Renewed(c.stats, reports.Keys, maxTimestamp)
        invariant forall th | th in reports :: reports[th] == ReportOf(c, th)
        decreases todo
      {
        var th :| th in todo;
        if !accepts(th) {
          return;
        }
        todo := todo - {th};
        var s := threadStats[th];
        reports := reports[th := Report(th, s.cpuTime, s.kernelTime, maxTimestamp - s.minTimestamp)];
        threadStats := threadStats[th := ThreadStats(0, 0, maxTimestamp)];
      }
    }

    /** The first part of the callback. */
    method Record(e: CpuEvent)
      modifies `threadStats, `maxTimestamp
      ensures Contents() == Recorded(old(Contents()), e)
    {
      if e.tgid != 0 && e.tid != 0 && e.startTime != 0 {
        var th := Thread(e.tgid, e.tid);
        var entry := if th in threadStats then threadStats[th] else ThreadStats(0, 0, U64_MAX);
        entry := entry.(cpuTime := entry.cpuTime + (e.endTime - e.startTime));
        entry := entry.(kernelTime := entry.kernelTime + e.kernelTime);
        if e.startTime < entry.minTimestamp { entry := entry.(minTimestamp := e.startTime); }
        threadStats := threadStats[th := entry];
      }
      if e.endTime > maxTimestamp { maxTimestamp := e.endTime; }
    }

    method OnEvent(e: CpuEvent, accepts: Thread -> bool) returns (reports: map<Thread, Report>)
      modifies this
      ensures Contents() == Received(old(Contents()), e, cpus, reports.Keys)
      ensures var c := Recorded(old(Contents()), e);
        && reports.Keys <= c.stats.Keys
        && (forall th | th in reports :: reports[th] == ReportOf(c, th))
        && (EndsRound(old(Contents()), e, cpus) && (forall th | th in c.stats :: accepts(th))
            ==> reports.Keys == c.stats.Keys)
    {
      reports := map[];
      Record(e);
      if e.boundary {
        boundariesReported := boundariesReported + 1;
        if boundariesReported == cpus {
          boundariesReported := 0;
          reports := ReportRound(accepts);
        }
      }
    }
  }
}
