/** The spans are those of the moves alone: which kind each has, where it begins
    and ends and what it tells is read off two moves of its thread. */
module SchedSpans {
  import opened SchedTrace
  import opened SchedLaws

  // ------------------------------------------------------ read off the moves

  /** The moves looked at: threads other than the idle one, of a traced process if there is a filter. */
  predicate Watched(f: Filter, m: Move, tid: nat) {
    && !m.Evict? && m.task.tid == tid && tid != 0
    && (f.enabled ==> m.task.tgid != 0 && m.task.tgid in f.tgids)
  }

  /** A thread that leaves the CPU neither preempted nor in state 0 goes to sleep. */
  predicate Sleeps(m: Move) { m.Off? && !m.preempt && m.prevState != 0 }

  predicate Runs(m: Move) { m.On? || m.Exit? }

  /** An exit is pending: since the last one the thread neither left nor entered
      a CPU, nor was it forgotten. */
  predicate Leaving(f: Filter, ms: seq<Move>, tid: nat) {
    if ms == [] then false
    else
      var m := ms[|ms| - 1];
      if m.Evict? && m.task.tid == tid then false
      else if Watched(f, m, tid) && !m.Wake? then m.Exit?
      else Leaving(f, ms[..|ms| - 1], tid)
  }

  /** The move that put the thread where it is now, or -1 when nothing is known of
      it. Wakeups count for sleeping and unknown threads, exits for unknown ones. */
  function Since(f: Filter, ms: seq<Move>, tid: nat): (k: int)
    ensures -1 <= k < |ms|
    ensures k >= 0 ==> Watched(f, ms[k], tid)
  {
    if ms == [] then -1
    else
      var n := |ms| - 1;
      var k := Since(f, ms[..n], tid);
      var m := ms[n];
      if m.Evict? && m.task.tid == tid then -1
      else if !Watched(f, m, tid) then k
      else if m.Off? && k >= 0 && Leaving(f, ms[..n], tid) then -1
      else if k < 0 || m.Off? || m.On? || (m.Wake? && Sleeps(ms[k])) then n
      else k
  }

  /** The span that `m` ends, the thread being where `from` put it: time on a CPU
      ends by leaving it, sleep by waking or entering one, waiting by entering one. */
  function Ended(from: Move, m: Move): seq<Span>
    requires !from.Evict? && !m.Evict?
  {
    var (pid, tid) := (m.task.tgid, m.task.tid);
    if from.now == 0 || m.now <= from.now || m.Exit? || !m.room then []
    else if Runs(from) then
      if m.Off? then [Span(pid, tid, from.now, m.now, from.cpu, Running, 0, NoReason, 0)] else []
    else if m.Off? then []
    else if Sleeps(from) then
      [Span(pid, tid, from.now, m.now, from.cpu, Blocked, from.frame, NoReason, from.prevState)]
    else if m.On? then
      var reason := if from.Wake? then Woken else if from.preempt then Preempted else StillRunning;
      [Span(pid, tid, from.now, m.now, m.cpu, Runnable, 0, reason, 0)]
    else []
  }

  function Written(f: Filter, ms: seq<Move>): seq<Span> {
    if ms == [] then []
    else
      var before, m := ms[..|ms| - 1], ms[|ms| - 1];
      var k := Since(f, before, m.task.tid);
      Written(f, before) + if Watched(f, m, m.task.tid) && k >= 0 then Ended(ms[k], m) else []
  }

  // ----------------------------------------------------------- main theorems

  /** What the table knows of a thread, told by the move that put it there. */
  predicate Tells(s: TaskState, m: Move, leaving: bool)
    requires !m.Evict?
  {
    && s.timestamp == m.now && s.exiting == leaving
    && (s.kind.Running? <==> Runs(m)) && (s.kind.Blocked? <==> Sleeps(m))
    && (!s.kind.Runnable? ==> s.cpu == m.cpu)
    && (Sleeps(m) ==> s.frame == m.frame && s.taskState == m.prevState)
    && (s.kind.Runnable? ==>
          s.reason == if m.Wake? then Woken else if m.preempt then Preempted else StillRunning)
  }

  lemma OtherStays(f: Filter, tr: Trace, m: Move, tid: nat)
    requires !Watched(f, m, tid) && !(m.Evict? && m.task.tid == tid)
    ensures tid in Handle(f, tr, m).tasks <==> tid in tr.tasks
    ensures tid in tr.tasks ==> Handle(f, tr, m).tasks[tid] == tr.tasks[tid]
  {
    var added := MoveShape(f, tr, m);
  }

  /** One step of a thread known through the move `from`. */
  lemma KnownStep(f: Filter, tr: Trace, m: Move, from: Move, leaving: bool)
    requires Watched(f, m, m.task.tid) && !from.Evict? && m.task.tid in tr.tasks
    requires Tells(tr.tasks[m.task.tid], from, leaving)
    ensures var (tr', tid) := (Handle(f, tr, m), m.task.tid);
      && (tid !in tr'.tasks <==> m.Off? && leaving)
      && (tid in tr'.tasks ==>
            if m.Off? || m.On? || (m.Wake? && Sleeps(from)) then Tells(tr'.tasks[tid], m, m.Wake? && leaving)
            else Tells(tr'.tasks[tid], from, m.Exit? || leaving))
  {
  }

  lemma KnownSpan(f: Filter, tr: Trace, m: Move, from: Move, leaving: bool)
    requires Watched(f, m, m.task.tid) && !from.Evict? && m.task.tid in tr.tasks
    requires Tells(tr.tasks[m.task.tid], from, leaving)
    ensures Handle(f, tr, m).spans == tr.spans + Ended(from, m)
  {
  }

  lemma UnknownStep(f: Filter, tr: Trace, m: Move)
    requires Watched(f, m, m.task.tid) && m.task.tid !in tr.tasks
    ensures m.task.tid in Handle(f, tr, m).tasks && Tells(Handle(f, tr, m).tasks[m.task.tid], m, m.Exit?)
    ensures Handle(f, tr, m).spans == tr.spans
  {
  }

  /** In every run the table knows exactly the threads that a move put somewhere,
      and of each what that move says. */
  lemma {:induction false} StateIsOfItsMove(f: Filter, ms: seq<Move>, tid: nat)
    ensures var (tr, k) := (After(f, Trace(map[], []), ms), Since(f, ms, tid));
      && (tid in tr.tasks <==> k >= 0)
      && (if k >= 0 then Tells(tr.tasks[tid], ms[k], Leaving(f, ms, tid)) else !Leaving(f, ms, tid))
  {
    if ms != [] {
      var n := |ms| - 1;
      var tr, m, k := After(f, Trace(map[], []), ms[..n]), ms[n], Since(f, ms[..n], tid);
      StateIsOfItsMove(f, ms[..n], tid);
      if Watched(f, m, tid) {
        if k >= 0 { KnownStep(f, tr, m, ms[k], Leaving(f, ms[..n], tid)); } else { UnknownStep(f, tr, m); }
      } else if !m.Evict? || m.task.tid != tid {
        OtherStays(f, tr, m, tid);
      }
    }
  }

  /** In every run the spans written are, in order, those the moves end: time on a
      CPU is running, time after falling asleep blocked, and time after a wakeup,
      a preemption or a switch away in state 0 runnable, each from the move that
      began it to the one that ended it. */
  lemma {:induction false} SpansAreOfMoves(f: Filter, ms: seq<Move>)
    ensures After(f, Trace(map[], []), ms).spans == Written(f, ms)
  {
    if ms != [] {
      var n := |ms| - 1;
      var tr, m := After(f, Trace(map[], []), ms[..n]), ms[n];
      var tid := m.task.tid;
      var k := Since(f, ms[..n], tid);
      SpansAreOfMoves(f, ms[..n]);
      StateIsOfItsMove(f, ms[..n], tid);
      if Watched(f, m, tid) {
        if k >= 0 { KnownSpan(f, tr, m, ms[k], Leaving(f, ms[..n], tid)); } else { UnknownStep(f, tr, m); }
      }
    }
  }
}
