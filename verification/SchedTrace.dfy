/** Scheduler tracing (bpf/src/bpf/schedtrace.bpf.c): context switches, wakeups
    and exits drive one small state per thread and turn into spans of running,
    blocked and runnable time. */
module SchedTrace {

  datatype Kind = Running | Blocked | Runnable

  datatype Reason = NoReason | Preempted | StillRunning | Woken

  datatype TaskState = TaskState(timestamp: nat, frame: nat, tgid: nat, cpu: nat, kind: Kind, reason: Reason,
                                 taskState: nat, exiting: bool)

  datatype Span = Span(pid: nat, tid: nat, start: nat, end: nat, cpu: nat, kind: Kind, frame: nat, reason: Reason,
                       taskState: nat)

  datatype Task = Task(tid: nat, tgid: nat)

  datatype Filter = Filter(enabled: bool, tgids: set<nat>)

  /** One handler call on one task. `room`: the ring buffer takes a span now. A
      context switch is `Off` of the previous and `On` of the next task, at one
      time; `Evict` is the table dropping its least recently used entry. */
  datatype Move =
    | Off(task: Task, now: nat, cpu: nat, preempt: bool, prevState: nat, frame: nat, room: bool)
    | On(task: Task, now: nat, cpu: nat, room: bool)
    | Wake(task: Task, now: nat, cpu: nat, room: bool)
    | Exit(task: Task, now: nat, cpu: nat)
    | Evict(task: Task)

  datatype Trace = Trace(tasks: map<nat, TaskState>, spans: seq<Span>)

  predicate ShouldTrack(f: Filter, t: Task) {
    t.tid != 0 && (!f.enabled || (t.tgid != 0 && t.tgid in f.tgids))
  }

  /** `emit_span`. */
  function Emit(spans: seq<Span>, s: Span, room: bool): seq<Span> {
    if s.start == 0 || s.start >= s.end || !room then spans else spans + [s]
  }

  function WaitState(t: Task, now: nat, cpu: nat, preempt: bool, prevState: nat, frame: nat): TaskState {
    if preempt || prevState == 0
    then TaskState(now, 0, t.tgid, cpu, Runnable, if preempt then Preempted else StillRunning, 0, false)
    else TaskState(now, frame, t.tgid, cpu, Blocked, NoReason, prevState, false)
  }

  function OffCpu(tr: Trace, t: Task, now: nat, cpu: nat, preempt: bool, prevState: nat, frame: nat, room: bool): Trace
  {
    var waiting := WaitState(t, now, cpu, preempt, prevState, frame);
    if t.tid !in tr.tasks then tr.(tasks := tr.tasks[t.tid := waiting])
    else
      var s := tr.tasks[t.tid];
      var spans := if s.kind.Running?
                   then Emit(tr.spans, Span(t.tgid, t.tid, s.timestamp, now, s.cpu, Running, 0, NoReason, 0), room)
                   else tr.spans;
      Trace(if s.exiting then tr.tasks - {t.tid} else tr.tasks[t.tid := waiting], spans)
  }

  function BlockedSpan(s: TaskState, t: Task, now: nat): Span {
    Span(t.tgid, t.tid, s.timestamp, now, s.cpu, Blocked, s.frame, NoReason, s.taskState)
  }

  function OnCpu(tr: Trace, t: Task, now: nat, cpu: nat, room: bool): Trace {
    var running := TaskState(now, 0, t.tgid, cpu, Running, NoReason, 0, false);
    if t.tid !in tr.tasks then tr.(tasks := tr.tasks[t.tid := running])
    else
      var s := tr.tasks[t.tid];
      Trace(tr.tasks[t.tid := running],
            match s.kind
            case Running => tr.spans
            case Runnable => Emit(tr.spans, Span(t.tgid, t.tid, s.timestamp, now, cpu, Runnable, 0, s.reason, 0), room)
            case Blocked => Emit(tr.spans, BlockedSpan(s, t, now), room))
  }

  function Wakeup(tr: Trace, t: Task, now: nat, cpu: nat, room: bool): Trace {
    if t.tid !in tr.tasks then
      tr.(tasks := tr.tasks[t.tid := TaskState(now, 0, t.tgid, cpu, Runnable, Woken, 0, false)])
    else
      var s := tr.tasks[t.tid];
      if !s.kind.Blocked? then tr
      else Trace(tr.tasks[t.tid := s.(timestamp := now, frame := 0, kind := Runnable, reason := Woken, taskState := 0)],
                 Emit(tr.spans, BlockedSpan(s, t, now), room))
  }

  function ProcessExit(tr: Trace, t: Task, now: nat, cpu: nat): Trace {
    tr.(tasks := tr.tasks[t.tid := if t.tid in tr.tasks then tr.tasks[t.tid].(exiting := true)
                                   else TaskState(now, 0, t.tgid, cpu, Running, NoReason, 0, true)])
  }

  function Handle(f: Filter, tr: Trace, m: Move): Trace {
    if m.Evict? then tr.(tasks := tr.tasks - {m.task.tid})
    else if !ShouldTrack(f, m.task) then tr
    else match m
      case Off(t, now, cpu, preempt, prevState, frame, room) => OffCpu(tr, t, now, cpu, preempt, prevState, frame, room)
      case On(t, now, cpu, room) => OnCpu(tr, t, now, cpu, room)
      case Wake(t, now, cpu, room) => Wakeup(tr, t, now, cpu, room)
      case Exit(t, now, cpu) => ProcessExit(tr, t, now, cpu)
  }

  /** The programs as they run: entries of the task table are overwritten in place. */
  class Tracer {
    const filter: Filter
    var tasks: map<nat, TaskState>
    var spans: seq<Span>

    ghost function Contents(): Trace
      reads this
    {
      Trace(tasks, spans)
    }

    constructor (filter: Filter)
      ensures this.filter == filter && Contents() == Trace(map[], [])
    {
      this.filter := filter;
      tasks, spans := map[], [];
    }

    method EmitSpan(s: Span, room: bool)
      modifies `spans
      ensures spans == Emit(old(spans), s, room)
    {
      if s.start == 0 || s.start >= s.end {
        return;
      }
      if !room {
        return;
      }
      spans := spans + [s];
    }

    method TaskOff(t: Task, now: nat, cpu: nat, preempt: bool, prevState: nat, frame: nat, room: bool)
      modifies this
      ensures Contents() == Handle(filter, old(Contents()), Off(t, now, cpu, preempt, prevState, frame, room))
    {
      if !ShouldTrack(filter, t) {
        return;
      }
      if t.tid in tasks && tasks[t.tid].kind.Running? {
        EmitSpan(Span(t.tgid, t.tid, tasks[t.tid].timestamp, now, tasks[t.tid].cpu, Running, 0, NoReason, 0), room);
      }
      if t.tid in tasks && tasks[t.tid].exiting {
        tasks := tasks - {t.tid};
        return;
      }
      var runnable := preempt || prevState == 0;
      var newState := TaskState(now, if runnable then 0 else frame, t.tgid, cpu, if runnable then Runnable else Blocked,
                                if runnable then (if preempt then Preempted else StillRunning) else NoReason,
                                if runnable then 0 else prevState, false);
      tasks := tasks[t.tid := newState];
    }

    method TaskOn(t: Task, now: nat, cpu: nat, room: bool)
      modifies this
      ensures Contents() == Handle(filter, old(Contents()), On(t, now, cpu, room))
    {
      if !ShouldTrack(filter, t) {
        return;
      }
      if t.tid in tasks {
        var state := tasks[t.tid];
        if state.kind.Runnable? {
          EmitSpan(Span(t.tgid, t.tid, state.timestamp, now, cpu, Runnable, 0, state.reason, 0), room);
        } else if state.kind.Blocked? {
          EmitSpan(Span(t.tgid, t.tid, state.timestamp, now, state.cpu, Blocked, state.frame, NoReason,
                        state.taskState), room);
        }
        state := state.(timestamp := now, frame := 0);
        state := state.(tgid := t.tgid, cpu := cpu);
        state := state.(kind := Running, reason := NoReason);
        state := state.(taskState := 0, exiting := false);
        tasks := tasks[t.tid := state];
        return;
      }
      tasks := tasks[t.tid := TaskState(now, 0, t.tgid, cpu, Running, NoReason, 0, false)];
    }

    method TaskWakeup(t: Task, now: nat, cpu: nat, room: bool)
      modifies this
      ensures Contents() == Handle(filter, old(Contents()), Wake(t, now, cpu, room))
    {
      if !ShouldTrack(filter, t) {
        return;
      }
      if t.tid in tasks {
        var state := tasks[t.tid];
        if !state.kind.Blocked? {
          return;
        }
        EmitSpan(Span(t.tgid, t.tid, state.timestamp, now, state.cpu, Blocked, state.frame, NoReason, state.taskState),
                 room);
        state := state.(timestamp := now, frame := 0);
        state := state.(kind := Runnable, reason := Woken);
        state := state.(taskState := 0);
        tasks := tasks[t.tid := state];
        return;
      }
      tasks := tasks[t.tid := TaskState(now, 0, t.tgid, cpu, Runnable, Woken, 0, false)];
    }

    method OnProcessExit(t: Task, now: nat, cpu: nat)
      modifies this
      ensures Contents() == Handle(filter, old(Contents()), Exit(t, now, cpu))
    {
      if !ShouldTrack(filter, t) {
        return;
      }
      if t.tid in tasks {
        tasks := tasks[t.tid := tasks[t.tid].(exiting := true)];
        return;
      }
      tasks := tasks[t.tid := TaskState(now, 0, t.tgid, cpu, Running, NoReason, 0, true)];
    }

    /** `sched_switch`. */
    method OnSwitch(prev: Task, next: Task, now: nat, cpu: nat, preempt: bool, prevState: nat, frame: nat,
                    prevRoom: bool, nextRoom: bool)
      modifies this
      ensures Contents() == Handle(filter,
                                   Handle(filter, old(Contents()),
                                          Off(prev, now, cpu, preempt, prevState, frame, prevRoom)),
                                   On(next, now, cpu, nextRoom))
    {
      TaskOff(prev, now, cpu, preempt, prevState, frame, prevRoom);
      TaskOn(next, now, cpu, nextRoom);
    }
  }
}
