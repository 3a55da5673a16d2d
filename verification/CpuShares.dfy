/** Where a thread's CPU time goes: the stretches emitted for it, and the one that is
    open, are exactly the time between its being switched in and out, and likewise
    for the kernel. Both sides are computed from the probes alone. */
module CpuShares {
  import opened Basics
  import opened CpuUtil
  import opened CpuLaws

  // ------------------------------------------------------- reading the probes

  /** The thread last switched to on a CPU, none before the first switch. */
  function Current(ps: seq<Probe>, cpu: nat): nat {
    if ps == [] then 0
    else
      var p := ps[|ps| - 1];
      if p.Switch? && p.cpu == cpu then p.nextTid else Current(ps[..|ps| - 1], cpu)
  }

  /** When it was switched in. */
  function Since(ps: seq<Probe>, cpu: nat): nat {
    if ps == [] then 0
    else
      var p := ps[|ps| - 1];
      if p.Switch? && p.cpu == cpu then p.now else Since(ps[..|ps| - 1], cpu)
  }

  /** When its stretch was last cut: by the switch to it or a boundary since. */
  function Cut(ps: seq<Probe>, cpu: nat): nat {
    if ps == [] then 0
    else
      var p := ps[|ps| - 1];
      if (p.Switch? || p.Boundary?) && p.cpu == cpu then p.now else Cut(ps[..|ps| - 1], cpu)
  }

  /** When the system call it is in was entered. */
  function Entered(ps: seq<Probe>, cpu: nat): Option<nat> {
    if ps == [] then None
    else
      var (before, p) := (ps[..|ps| - 1], ps[|ps| - 1]);
      var t := Entered(before, cpu);
      if p.cpu != cpu || p.Boundary? then t
      else if p.Switch? then None
      else if p.tid != Current(before, cpu) then t
      else if p.Exit? then None
      else if t.None? then Some(p.now) else t
  }

  /** The time of a thread's finished stays on a CPU. */
  function Stayed(ps: seq<Probe>, cpu: nat, tid: nat): int {
    if ps == [] then 0
    else
      var (before, p) := (ps[..|ps| - 1], ps[|ps| - 1]);
      Stayed(before, cpu, tid)
      + if p.Switch? && p.cpu == cpu && Current(before, cpu) == tid then p.now - Since(before, cpu) else 0
  }

  /** The time of its finished calls there: until the exit, or until it is switched away. */
  function Called(ps: seq<Probe>, cpu: nat, tid: nat): int {
    if ps == [] then 0
    else
      var (before, p) := (ps[..|ps| - 1], ps[|ps| - 1]);
      var t := Entered(before, cpu);
      Called(before, cpu, tid)
      + if p.cpu == cpu && Current(before, cpu) == tid && t.Some? && (p.Switch? || (p.Exit? && p.tid == tid))
        then p.now - t.value else 0
  }

  /** The time, since the last cut, of calls that have ended since. */
  function CalledSinceCut(ps: seq<Probe>, cpu: nat): int {
    if ps == [] then 0
    else
      var (before, p) := (ps[..|ps| - 1], ps[|ps| - 1]);
      var t := Entered(before, cpu);
      if p.cpu != cpu then CalledSinceCut(before, cpu)
      else if p.Switch? || p.Boundary? then 0
      else if p.Exit? && p.tid == Current(before, cpu) && t.Some?
      then CalledSinceCut(before, cpu) + (p.now - Max(t.value, Cut(before, cpu)))
      else CalledSinceCut(before, cpu)
  }

  /** Time on a CPU, respectively in a call there, up to the present. */
  function TimeOn(ps: seq<Probe>, cpu: nat, tid: nat): int {
    Stayed(ps, cpu, tid) + if Current(ps, cpu) == tid then Clock(ps) - Since(ps, cpu) else 0
  }

  function TimeInCalls(ps: seq<Probe>, cpu: nat, tid: nat): int {
    var t := Entered(ps, cpu);
    Called(ps, cpu, tid) + if Current(ps, cpu) == tid && t.Some? then Clock(ps) - t.value else 0
  }

  /** The part of it in the stretch now open. */
  function OpenTime(ps: seq<Probe>, cpu: nat, tid: nat): int {
    if Current(ps, cpu) == tid then Clock(ps) - Cut(ps, cpu) else 0
  }

  function OpenCalls(ps: seq<Probe>, cpu: nat, tid: nat): int {
    var t := Entered(ps, cpu);
    if Current(ps, cpu) == tid
    then CalledSinceCut(ps, cpu) + if t.Some? then Clock(ps) - Max(t.value, Cut(ps, cpu)) else 0
    else 0
  }

  // ------------------------------------------------------------ what is emitted

  /** The lengths of a thread's stretches on a CPU, respectively their kernel times. */
  function Lengths(events: seq<CpuEvent>, cpu: nat, tid: nat): int {
    if events == [] then 0
    else
      var e := events[|events| - 1];
      Lengths(events[..|events| - 1], cpu, tid) + if e.cpu == cpu && e.tid == tid then e.endTime - e.startTime else 0
  }

  function KernelTimes(events: seq<CpuEvent>, cpu: nat, tid: nat): int {
    if events == [] then 0
    else
      var e := events[|events| - 1];
      KernelTimes(events[..|events| - 1], cpu, tid) + if e.cpu == cpu && e.tid == tid then e.kernelTime else 0
  }

  /** What the kernel says fits together: times are positive, what is switched away is
      what was switched to, and threads keep their process. */
  predicate Coherent(ps: seq<Probe>, tgidOf: nat -> nat) {
    ps == [] || (
      var (before, p) := (ps[..|ps| - 1], ps[|ps| - 1]);
      && Coherent(before, tgidOf) && p.now > 0
      && (p.Switch? ==>
            (Current(before, p.cpu) != 0 ==> p.prevTid == Current(before, p.cpu)) && p.prevTgid == tgidOf(p.prevTid))
      && (p.Boundary? && Current(before, p.cpu) != 0 ==> p.tgid == tgidOf(Current(before, p.cpu))))
  }

  /** Stretches of this process's threads are to be reported. */
  predicate Wanted(filter: Filter, tgid: nat) { filter.enabled ==> tgid == 0 || tgid in filter.tgids }

  // -------------------------------------------------------------------- proofs

  lemma OneMoreProbe(ps: seq<Probe>, p: Probe)
    ensures (ps + [p])[..|ps + [p]| - 1] == ps && (ps + [p])[|ps + [p]| - 1] == p
  {
    assert (ps + [p])[..|ps|] == ps;
  }

  /** Probes elsewhere say nothing of a CPU. */
  lemma NothingHere(ps: seq<Probe>, p: Probe, cpu: nat, tid: nat)
    requires p.cpu != cpu
    ensures var ps' := ps + [p];
      && Current(ps', cpu) == Current(ps, cpu) && Since(ps', cpu) == Since(ps, cpu) && Cut(ps', cpu) == Cut(ps, cpu)
      && Entered(ps', cpu) == Entered(ps, cpu) && CalledSinceCut(ps', cpu) == CalledSinceCut(ps, cpu)
      && Stayed(ps', cpu, tid) == Stayed(ps, cpu, tid) && Called(ps', cpu, tid) == Called(ps, cpu, tid)
  {
    OneMoreProbe(ps, p);
  }

  lemma SwitchHere(ps: seq<Probe>, p: Probe)
    requires p.Switch?
    ensures var ps' := ps + [p];
      && Current(ps', p.cpu) == p.nextTid && Cut(ps', p.cpu) == p.now && Entered(ps', p.cpu) == None
      && CalledSinceCut(ps', p.cpu) == 0
  {
    OneMoreProbe(ps, p);
  }

  lemma BoundaryHere(ps: seq<Probe>, p: Probe)
    requires p.Boundary?
    ensures var ps' := ps + [p];
      && Current(ps', p.cpu) == Current(ps, p.cpu) && Cut(ps', p.cpu) == p.now
      && Entered(ps', p.cpu) == Entered(ps, p.cpu) && CalledSinceCut(ps', p.cpu) == 0
  {
    OneMoreProbe(ps, p);
  }

  lemma CallHere(ps: seq<Probe>, p: Probe)
    requires p.Enter? || p.Exit?
    ensures var (ps', t) := (ps + [p], Entered(ps, p.cpu));
      var own := p.tid == Current(ps, p.cpu);
      && Current(ps', p.cpu) == Current(ps, p.cpu) && Cut(ps', p.cpu) == Cut(ps, p.cpu)
      && Entered(ps', p.cpu) == (if !own then t else if p.Exit? then None else if t.None? then Some(p.now) else t)
      && CalledSinceCut(ps', p.cpu)
           == CalledSinceCut(ps, p.cpu)
              + if p.Exit? && own && t.Some? then p.now - Max(t.value, Cut(ps, p.cpu)) else 0
  {
    OneMoreProbe(ps, p);
  }

  /** A CPU's state is what its probes say. */
  predicate StateIs(s: CpuState, ps: seq<Probe>, cpu: nat) {
    var t := Entered(ps, cpu);
    && s.tid == Current(ps, cpu) && s.startTime == Cut(ps, cpu) && s.inKernel == t.Some?
    && (t.Some? ==> s.kernelStart == Max(t.value, Cut(ps, cpu)) > 0)
    && s.kernelAcc == CalledSinceCut(ps, cpu)
  }

  lemma {:induction false} EarlierThanNow(ps: seq<Probe>, tgidOf: nat -> nat, filter: Filter, cpus: nat, cpu: nat)
    requires Schedule(filter, cpus, ps)
    ensures Cut(ps, cpu) <= Clock(ps) && Since(ps, cpu) <= Cut(ps, cpu)
    ensures var t := Entered(ps, cpu); t.Some? ==> t.value <= Clock(ps)
  {
    if ps != [] { EarlierThanNow(ps[..|ps| - 1], tgidOf, filter, cpus, cpu); }
  }

  lemma StateStaysIs(filter: Filter, s: CpuState, ps: seq<Probe>, p: Probe)
    requires StateIs(s, ps, p.cpu) && p.now > 0
    requires var t := Entered(ps, p.cpu); Cut(ps, p.cpu) <= p.now && (t.Some? ==> t.value <= p.now)
    ensures StateIs(StateAfter(filter, s, p), ps + [p], p.cpu)
  {
    match p {
      case Switch(_, _, _, _, _) => SwitchHere(ps, p);
      case Boundary(_, _, _) => BoundaryHere(ps, p);
      case _ => CallHere(ps, p);
    }
  }

  lemma OtherCpu(s: CpuState, ps: seq<Probe>, p: Probe, cpu: nat)
    requires StateIs(s, ps, cpu) && p.cpu != cpu
    ensures StateIs(s, ps + [p], cpu)
  {
    NothingHere(ps, p, cpu, 0);
  }

  lemma {:induction false} StatesAre(filter: Filter, cpus: nat, ps: seq<Probe>, tgidOf: nat -> nat, cpu: nat)
    requires Schedule(filter, cpus, ps) && Coherent(ps, tgidOf) && cpu < cpus
    ensures StateIs(MachineAfter(filter, cpus, ps).cpus[cpu], ps, cpu)
  {
    if ps != [] {
      var before, p := ps[..|ps| - 1], ps[|ps| - 1];
      StatesAre(filter, cpus, before, tgidOf, cpu);
      EarlierThanNow(before, tgidOf, filter, cpus, cpu);
      assert ps == before + [p];
      var s := MachineAfter(filter, cpus, before).cpus[cpu];
      if p.cpu == cpu { StateStaysIs(filter, s, before, p); } else { OtherCpu(s, before, p, cpu); }
    }
  }

  lemma OneMoreEvent(events: seq<CpuEvent>, e: CpuEvent, cpu: nat, tid: nat)
    ensures Lengths(events + [e], cpu, tid)
      == Lengths(events, cpu, tid) + if e.cpu == cpu && e.tid == tid then e.endTime - e.startTime else 0
    ensures KernelTimes(events + [e], cpu, tid)
      == KernelTimes(events, cpu, tid) + if e.cpu == cpu && e.tid == tid then e.kernelTime else 0
  {
    assert (events + [e])[..|events|] == events;
  }

  /** What a probe emits for a thread that is tracked, in terms of the probes before. */
  lemma EmittedFor(filter: Filter, s: CpuState, ps: seq<Probe>, p: Probe, tgidOf: nat -> nat, tid: nat)
    requires StateIs(s, ps, p.cpu) && Coherent(ps + [p], tgidOf) && tid != 0 && Wanted(filter, tgidOf(tid))
    ensures var (es, t) := (Emitted(filter, s, p), Entered(ps, p.cpu));
      && |es| <= 1
      && (es != [] ==> es[0].cpu == p.cpu && es[0].endTime == p.now && es[0].startTime == Cut(ps, p.cpu)
                       && es[0].tid == Current(ps, p.cpu))
      && (Current(ps, p.cpu) == tid ==>
            && (es != [] <==> p.Switch? || p.Boundary?)
            && (es != [] ==>
                  && es[0].tgid == tgidOf(tid)
                  && es[0].kernelTime == CalledSinceCut(ps, p.cpu)
                                         + if t.Some? then p.now - Max(t.value, Cut(ps, p.cpu)) else 0))
  {
    assert (ps + [p])[..|ps|] == ps;
  }

  /** Everything emitted up to the last cut. */
  predicate UpToCut(events: seq<CpuEvent>, ps: seq<Probe>, cpu: nat, tid: nat) {
    var (here, t) := (Current(ps, cpu) == tid, Entered(ps, cpu));
    && Lengths(events, cpu, tid) == Stayed(ps, cpu, tid) + (if here then Cut(ps, cpu) - Since(ps, cpu) else 0)
    && KernelTimes(events, cpu, tid)
         == Called(ps, cpu, tid)
            + if here then (if t.Some? then Max(t.value, Cut(ps, cpu)) - t.value else 0) - CalledSinceCut(ps, cpu)
              else 0
  }

  lemma ElsewhereKeeps(events: seq<CpuEvent>, added: seq<CpuEvent>, ps: seq<Probe>, p: Probe, cpu: nat, tid: nat)
    requires UpToCut(events, ps, cpu, tid) && p.cpu != cpu && |added| <= 1 && (added != [] ==> added[0].cpu == p.cpu)
    ensures UpToCut(events + added, ps + [p], cpu, tid)
  {
    NothingHere(ps, p, cpu, tid);
    if added != [] {
      OneMoreEvent(events, added[0], cpu, tid);
      assert events + added == events + [added[0]];
    } else {
      assert events + added == events;
    }
  }

  /** The finished times after a probe here. */
  lemma FinishedHere(ps: seq<Probe>, p: Probe, tid: nat)
    ensures var (ps', here, t) := (ps + [p], Current(ps, p.cpu) == tid, Entered(ps, p.cpu));
      && Since(ps', p.cpu) == (if p.Switch? then p.now else Since(ps, p.cpu))
      && Stayed(ps', p.cpu, tid)
           == Stayed(ps, p.cpu, tid) + (if p.Switch? && here then p.now - Since(ps, p.cpu) else 0)
      && Called(ps', p.cpu, tid)
           == Called(ps, p.cpu, tid)
              + if here && t.Some? && (p.Switch? || (p.Exit? && p.tid == tid)) then p.now - t.value else 0
  {
    OneMoreProbe(ps, p);
  }

  /** A probe that cuts, with the event it emits for the thread that is current. */
  lemma CutKeeps(events: seq<CpuEvent>, added: seq<CpuEvent>, ps: seq<Probe>, p: Probe, tid: nat)
    requires UpToCut(events, ps, p.cpu, tid) && (p.Switch? || p.Boundary?) && |added| <= 1
    requires added != [] ==> added[0].cpu == p.cpu && added[0].tid == Current(ps, p.cpu)
    requires var t := Entered(ps, p.cpu);
      Current(ps, p.cpu) == tid ==>
        && added != [] && added[0].endTime == p.now && added[0].startTime == Cut(ps, p.cpu)
        && added[0].kernelTime == CalledSinceCut(ps, p.cpu)
                                  + if t.Some? then p.now - Max(t.value, Cut(ps, p.cpu)) else 0
    requires var t := Entered(ps, p.cpu); Cut(ps, p.cpu) <= p.now && (t.Some? ==> t.value <= p.now)
    ensures UpToCut(events + added, ps + [p], p.cpu, tid)
  {
    FinishedHere(ps, p, tid);
    if p.Switch? { SwitchHere(ps, p); } else { BoundaryHere(ps, p); }
    if added != [] {
      OneMoreEvent(events, added[0], p.cpu, tid);
      assert events + added == events + [added[0]];
    } else {
      assert events + added == events;
    }
  }

  lemma CallKeeps(events: seq<CpuEvent>, ps: seq<Probe>, p: Probe, tid: nat)
    requires UpToCut(events, ps, p.cpu, tid) && (p.Enter? || p.Exit?) && Cut(ps, p.cpu) <= p.now
    ensures UpToCut(events, ps + [p], p.cpu, tid)
  {
    FinishedHere(ps, p, tid);
    CallHere(ps, p);
  }

  lemma HereKeeps(filter: Filter, s: CpuState, events: seq<CpuEvent>, ps: seq<Probe>, p: Probe, tgidOf: nat -> nat,
                  tid: nat)
    requires UpToCut(events, ps, p.cpu, tid) && StateIs(s, ps, p.cpu) && Coherent(ps + [p], tgidOf)
    requires tid != 0 && Wanted(filter, tgidOf(tid))
    requires var t := Entered(ps, p.cpu); Cut(ps, p.cpu) <= p.now && (t.Some? ==> t.value <= p.now)
    ensures UpToCut(events + Emitted(filter, s, p), ps + [p], p.cpu, tid)
  {
    EmittedFor(filter, s, ps, p, tgidOf, tid);
    if p.Switch? || p.Boundary? {
      CutKeeps(events, Emitted(filter, s, p), ps, p, tid);
    } else {
      CallKeeps(events, ps, p, tid);
      assert events + [] == events;
    }
  }

  lemma ProbeKeeps(filter: Filter, m: Machine, ps: seq<Probe>, p: Probe, tgidOf: nat -> nat, cpu: nat, tid: nat)
    requires UpToCut(m.events, ps, cpu, tid) && Coherent(ps + [p], tgidOf)
    requires p.cpu < |m.cpus| && StateIs(m.cpus[p.cpu], ps, p.cpu)
    requires tid != 0 && Wanted(filter, tgidOf(tid))
    requires var t := Entered(ps, p.cpu); Cut(ps, p.cpu) <= p.now && (t.Some? ==> t.value <= p.now)
    ensures UpToCut(Observe(filter, m, p).events, ps + [p], cpu, tid)
  {
    var s := m.cpus[p.cpu];
    if p.cpu == cpu {
      HereKeeps(filter, s, m.events, ps, p, tgidOf, tid);
    } else {
      EmittedFor(filter, s, ps, p, tgidOf, tid);
      ElsewhereKeeps(m.events, Emitted(filter, s, p), ps, p, cpu, tid);
    }
  }

  lemma {:induction false} AlwaysUpToCut(filter: Filter, cpus: nat, ps: seq<Probe>, tgidOf: nat -> nat, cpu: nat,
                                         tid: nat)
    requires Schedule(filter, cpus, ps) && Coherent(ps, tgidOf) && cpu < cpus
    requires tid != 0 && Wanted(filter, tgidOf(tid))
    ensures UpToCut(MachineAfter(filter, cpus, ps).events, ps, cpu, tid)
  {
    if ps != [] {
      var before, p := ps[..|ps| - 1], ps[|ps| - 1];
      AlwaysUpToCut(filter, cpus, before, tgidOf, cpu, tid);
      StatesAre(filter, cpus, before, tgidOf, p.cpu);
      EarlierThanNow(before, tgidOf, filter, cpus, p.cpu);
      assert ps == before + [p];
      ProbeKeeps(filter, MachineAfter(filter, cpus, before), before, p, tgidOf, cpu, tid);
    }
  }

  // -------------------------------------------------------------- main results

  /** On every CPU of every coherent schedule, the lengths of a tracked thread's stretches
      plus the open one are the time it was current there, and the kernel times plus the
      open calls the time it was in calls. */
  lemma CpuTimeIsEmitted(filter: Filter, cpus: nat, ps: seq<Probe>, tgidOf: nat -> nat, cpu: nat, tid: nat)
    requires Schedule(filter, cpus, ps) && Coherent(ps, tgidOf) && cpu < cpus
    requires tid != 0 && Wanted(filter, tgidOf(tid))
    ensures var events := MachineAfter(filter, cpus, ps).events;
      && Lengths(events, cpu, tid) + OpenTime(ps, cpu, tid) == TimeOn(ps, cpu, tid)
      && KernelTimes(events, cpu, tid) + OpenCalls(ps, cpu, tid) == TimeInCalls(ps, cpu, tid)
  {
    AlwaysUpToCut(filter, cpus, ps, tgidOf, cpu, tid);
  }

  /** Sums over the first `n` CPUs. */
  function AllTimeOn(ps: seq<Probe>, n: nat, tid: nat): int {
    if n == 0 then 0 else AllTimeOn(ps, n - 1, tid) + TimeOn(ps, n - 1, tid)
  }

  function AllTimeInCalls(ps: seq<Probe>, n: nat, tid: nat): int {
    if n == 0 then 0 else AllTimeInCalls(ps, n - 1, tid) + TimeInCalls(ps, n - 1, tid)
  }

  function AllOpenTime(ps: seq<Probe>, n: nat, tid: nat): int {
    if n == 0 then 0 else AllOpenTime(ps, n - 1, tid) + OpenTime(ps, n - 1, tid)
  }

  function AllOpenCalls(ps: seq<Probe>, n: nat, tid: nat): int {
    if n == 0 then 0 else AllOpenCalls(ps, n - 1, tid) + OpenCalls(ps, n - 1, tid)
  }

  /** A thread's stretches and kernel times on the first `n` CPUs. */
  function LengthsBelow(events: seq<CpuEvent>, n: nat, tid: nat): int {
    if events == [] then 0
    else
      var e := events[|events| - 1];
      LengthsBelow(events[..|events| - 1], n, tid) + if e.cpu < n && e.tid == tid then e.endTime - e.startTime else 0
  }

  function KernelTimesBelow(events: seq<CpuEvent>, n: nat, tid: nat): int {
    if events == [] then 0
    else
      var e := events[|events| - 1];
      KernelTimesBelow(events[..|events| - 1], n, tid) + if e.cpu < n && e.tid == tid then e.kernelTime else 0
  }

  lemma {:induction false} OneCpuMore(events: seq<CpuEvent>, n: nat, tid: nat)
    ensures LengthsBelow(events, n + 1, tid) == LengthsBelow(events, n, tid) + Lengths(events, n, tid)
    ensures KernelTimesBelow(events, n + 1, tid) == KernelTimesBelow(events, n, tid) + KernelTimes(events, n, tid)
    ensures LengthsBelow(events, 0, tid) == 0 == KernelTimesBelow(events, 0, tid)
  {
    if events != [] { OneCpuMore(events[..|events| - 1], n, tid); }
  }

  /** Conservation on one CPU. */
  predicate SharesOn(events: seq<CpuEvent>, ps: seq<Probe>, cpu: nat, tid: nat) {
    && Lengths(events, cpu, tid) + OpenTime(ps, cpu, tid) == TimeOn(ps, cpu, tid)
    && KernelTimes(events, cpu, tid) + OpenCalls(ps, cpu, tid) == TimeInCalls(ps, cpu, tid)
  }

  lemma {:induction false} SharesBelow(events: seq<CpuEvent>, ps: seq<Probe>, n: nat, tid: nat)
    requires forall cpu: nat | cpu < n :: SharesOn(events, ps, cpu, tid)
    ensures LengthsBelow(events, n, tid) + AllOpenTime(ps, n, tid) == AllTimeOn(ps, n, tid)
    ensures KernelTimesBelow(events, n, tid) + AllOpenCalls(ps, n, tid) == AllTimeInCalls(ps, n, tid)
  {
    if n == 0 {
      OneCpuMore(events, 0, tid);
    } else {
      SharesBelow(events, ps, n - 1, tid);
      assert SharesOn(events, ps, n - 1, tid);
      OneCpuMore(events, n - 1, tid);
    }
  }

  /** A stretch as what it is for: on an existing CPU, ending with a boundary or else of a
      process to be reported, and of a tracked thread always under its own process. */
  predicate Labelled(filter: Filter, cpus: nat, tgidOf: nat -> nat, e: CpuEvent) {
    && e.cpu < cpus && (!e.boundary ==> e.tid != 0 && Wanted(filter, e.tgid))
    && (e.tid != 0 && Wanted(filter, tgidOf(e.tid)) ==> e.tgid == tgidOf(e.tid))
  }

  lemma {:induction false} AllLabelled(filter: Filter, cpus: nat, ps: seq<Probe>, tgidOf: nat -> nat)
    requires Schedule(filter, cpus, ps) && Coherent(ps, tgidOf)
    ensures forall e | e in MachineAfter(filter, cpus, ps).events :: Labelled(filter, cpus, tgidOf, e)
  {
    if ps != [] {
      var before, p := ps[..|ps| - 1], ps[|ps| - 1];
      AllLabelled(filter, cpus, before, tgidOf);
      StatesAre(filter, cpus, before, tgidOf, p.cpu);
    }
  }

  lemma {:induction false} AllBelow(events: seq<CpuEvent>, cpus: nat, tid: nat)
    requires forall e | e in events :: e.cpu < cpus
    ensures LengthsBelow(events, cpus, tid) == LengthsOf(events, tid)
    ensures KernelTimesBelow(events, cpus, tid) == KernelTimesOf(events, tid)
  {
    if events != [] {
      assert events[|events| - 1] in events;
      AllBelow(events[..|events| - 1], cpus, tid);
    }
  }

  function LengthsOf(events: seq<CpuEvent>, tid: nat): int {
    if events == [] then 0
    else
      var e := events[|events| - 1];
      LengthsOf(events[..|events| - 1], tid) + if e.tid == tid then e.endTime - e.startTime else 0
  }

  function KernelTimesOf(events: seq<CpuEvent>, tid: nat): int {
    if events == [] then 0
    else
      var e := events[|events| - 1];
      KernelTimesOf(events[..|events| - 1], tid) + if e.tid == tid then e.kernelTime else 0
  }

  /** Conservation at the probes: for every coherent schedule and every tracked thread,
      what was emitted for it on all CPUs and what is open add up to the time between its
      being switched in and out, and between its entering and leaving the kernel. */
  lemma SharesAreConserved(filter: Filter, cpus: nat, ps: seq<Probe>, tgidOf: nat -> nat, tid: nat)
    requires Schedule(filter, cpus, ps) && Coherent(ps, tgidOf)
    requires tid != 0 && Wanted(filter, tgidOf(tid))
    ensures var events := MachineAfter(filter, cpus, ps).events;
      && LengthsOf(events, tid) + AllOpenTime(ps, cpus, tid) == AllTimeOn(ps, cpus, tid)
      && KernelTimesOf(events, tid) + AllOpenCalls(ps, cpus, tid) == AllTimeInCalls(ps, cpus, tid)
      && forall e | e in events && e.tid == tid :: e.tgid == tgidOf(tid)
  {
    var events := MachineAfter(filter, cpus, ps).events;
    AllLabelled(filter, cpus, ps, tgidOf);
    AllBelow(events, cpus, tid);
    forall cpu: nat | cpu < cpus ensures SharesOn(events, ps, cpu, tid) {
      CpuTimeIsEmitted(filter, cpus, ps, tgidOf, cpu, tid);
    }
    SharesBelow(events, ps, cpus, tid);
  }
}
