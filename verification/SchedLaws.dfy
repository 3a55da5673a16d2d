/** The spans of a thread tile its time. */
module SchedLaws {
  import opened SchedTrace

  // -------------------------------------------------------------------- runs

  function After(f: Filter, tr: Trace, ms: seq<Move>): Trace {
    if ms == [] then tr else Handle(f, After(f, tr, ms[..|ms| - 1]), ms[|ms| - 1])
  }

  function Clock(start: nat, ms: seq<Move>): nat {
    if ms == [] then start
    else if ms[|ms| - 1].Evict? then Clock(start, ms[..|ms| - 1])
    else ms[|ms| - 1].now
  }

  predicate Timed(start: nat, ms: seq<Move>) {
    ms == [] || (Timed(start, ms[..|ms| - 1]) && Clock(start, ms[..|ms| - 1]) <= Clock(start, ms))
  }

  // ---------------------------------------------------- order, no overlap

  /** Spans have positive length, and those of one thread follow one another. */
  predicate Ordered(spans: seq<Span>) {
    && (forall i | 0 <= i < |spans| :: spans[i].start < spans[i].end)
    && (forall i, j | 0 <= i < j < |spans| && spans[i].tid == spans[j].tid :: spans[i].end <= spans[j].start)
  }

  /** A thread's spans end by the time its current state began, all spans by now. */
  predicate Behind(tr: Trace, clock: nat) {
    && (forall i | 0 <= i < |tr.spans| ::
          && tr.spans[i].end <= clock
          && (tr.spans[i].tid in tr.tasks ==> tr.spans[i].end <= tr.tasks[tr.spans[i].tid].timestamp))
    && (forall tid | tid in tr.tasks :: tr.tasks[tid].timestamp <= clock)
  }

  /** What a move may do: touch one thread's entry and add at most one span of it,
      from the start of its state to the new present. */
  lemma MoveShape(f: Filter, tr: Trace, m: Move) returns (added: seq<Span>)
    ensures var (tr', tid) := (Handle(f, tr, m), m.task.tid);
      && tr'.spans == tr.spans + added && |added| <= 1
      && (forall k | k != tid :: (k in tr'.tasks <==> k in tr.tasks) && (k in tr.tasks ==> tr'.tasks[k] == tr.tasks[k]))
      && (added != [] ==>
            && !m.Evict? && tid in tr.tasks && added[0].tid == tid
            && added[0].start == tr.tasks[tid].timestamp && added[0].end == m.now && added[0].start < m.now
            && (tid in tr'.tasks ==> tr'.tasks[tid].timestamp == m.now))
      && (tid in tr'.tasks ==>
            if !m.Evict? && (tid !in tr.tasks || tr'.tasks[tid].timestamp != tr.tasks[tid].timestamp)
            then tr'.tasks[tid].timestamp == m.now
            else tid in tr.tasks && tr'.tasks[tid].timestamp == tr.tasks[tid].timestamp)
  {
    added := Handle(f, tr, m).spans[|tr.spans|..];
  }

  lemma SpanKeepsOrder(spans: seq<Span>, s: Span)
    requires Ordered(spans) && s.start < s.end
    requires forall i | 0 <= i < |spans| && spans[i].tid == s.tid :: spans[i].end <= s.start
    ensures Ordered(spans + [s])
  {
  }

  lemma MoveKeepsOrder(f: Filter, tr: Trace, m: Move, clock: nat)
    requires Ordered(tr.spans) && Behind(tr, clock) && (m.Evict? || clock <= m.now)
    ensures Ordered(Handle(f, tr, m).spans) && Behind(Handle(f, tr, m), if m.Evict? then clock else m.now)
  {
    var added := MoveShape(f, tr, m);
    var tr' := Handle(f, tr, m);
    if added != [] {
      SpanKeepsOrder(tr.spans, added[0]);
      assert added == [added[0]];
    } else {
      assert tr'.spans == tr.spans;
    }
    MoveKeepsBehind(f, tr, m, clock, added);
  }

  lemma MoveKeepsBehind(f: Filter, tr: Trace, m: Move, clock: nat, added: seq<Span>)
    requires Behind(tr, clock) && (m.Evict? || clock <= m.now)
    requires Handle(f, tr, m).spans == tr.spans + added && |added| <= 1
    ensures Behind(Handle(f, tr, m), if m.Evict? then clock else m.now)
  {
    var again := MoveShape(f, tr, m);
    var tr' := Handle(f, tr, m);
    forall i | 0 <= i < |tr'.spans|
      ensures tr'.spans[i].end <= if m.Evict? then clock else m.now
      ensures tr'.spans[i].tid in tr'.tasks ==> tr'.spans[i].end <= tr'.tasks[tr'.spans[i].tid].timestamp
    {
      if i < |tr.spans| { assert tr'.spans[i] == tr.spans[i]; } else { assert tr'.spans[i] == again[0]; }
    }
  }

  /** In every run the spans of each thread are ordered and do not overlap. */
  lemma {:induction false} SpansNeverOverlap(f: Filter, start: nat, ms: seq<Move>)
    requires Timed(start, ms)
    ensures Ordered(After(f, Trace(map[], []), ms).spans)
    ensures Behind(After(f, Trace(map[], []), ms), Clock(start, ms))
  {
    if ms != [] {
      SpansNeverOverlap(f, start, ms[..|ms| - 1]);
      MoveKeepsOrder(f, After(f, Trace(map[], []), ms[..|ms| - 1]), ms[|ms| - 1], Clock(start, ms[..|ms| - 1]));
    }
  }

  // ------------------------------------------------------------------- tiling

  /** The time covered by a thread's spans. */
  function Covered(spans: seq<Span>, tid: nat): int {
    if spans == [] then 0
    else
      var s := spans[|spans| - 1];
      Covered(spans[..|spans| - 1], tid) + if s.tid == tid then s.end - s.start else 0
  }

  /** Whether a move closes the state of a thread. */
  predicate Closes(f: Filter, tr: Trace, m: Move, tid: nat) {
    && m.task.tid == tid && tid in tr.tasks && !m.Evict? && ShouldTrack(f, m.task)
    && (m.Off? || m.On? || (m.Wake? && tr.tasks[tid].kind.Blocked?))
  }

  /** A close in its proper place: off the CPU from running, onto it from
      waiting, with room for the span, or else at the very instant the state began. */
  predicate Placed(f: Filter, tr: Trace, m: Move, tid: nat) {
    Closes(f, tr, m, tid) ==>
      var s := tr.tasks[tid];
      m.now == s.timestamp || (m.room && (m.Off? ==> s.kind.Running?) && (m.On? ==> !s.kind.Running?))
  }

  predicate WellPlaced(f: Filter, tr: Trace, ms: seq<Move>, tid: nat) {
    ms == [] || (WellPlaced(f, tr, ms[..|ms| - 1], tid) && Placed(f, After(f, tr, ms[..|ms| - 1]), ms[|ms| - 1], tid))
  }

  /** The thread keeps its table entry throughout. */
  predicate Kept(f: Filter, tr: Trace, ms: seq<Move>, tid: nat) {
    tid in After(f, tr, ms).tasks && (ms != [] ==> Kept(f, tr, ms[..|ms| - 1], tid))
  }

  lemma CoveredAppend(spans: seq<Span>, s: Span, tid: nat)
    ensures Covered(spans + [s], tid) == Covered(spans, tid) + if s.tid == tid then s.end - s.start else 0
  {
    assert (spans + [s])[..|spans|] == spans;
  }

  /** The time a move moves a thread's state on without covering it. */
  function Uncovered(f: Filter, tr: Trace, m: Move, tid: nat): nat {
    if Closes(f, tr, m, tid) && !Placed(f, tr, m, tid) && m.now > tr.tasks[tid].timestamp
    then m.now - tr.tasks[tid].timestamp else 0
  }

  /** A move covers the time by which it moves a thread's state on, up to what it leaves uncovered. */
  lemma MoveCovers(f: Filter, tr: Trace, m: Move, tid: nat)
    requires tid in tr.tasks && 0 < tr.tasks[tid].timestamp && (m.Evict? || tr.tasks[tid].timestamp <= m.now)
    ensures var tr' := Handle(f, tr, m);
      tid in tr'.tasks ==>
        && tr.tasks[tid].timestamp <= tr'.tasks[tid].timestamp
        && Covered(tr'.spans, tid) - Covered(tr.spans, tid) + Uncovered(f, tr, m, tid)
             == tr'.tasks[tid].timestamp - tr.tasks[tid].timestamp
    ensures var tr' := Handle(f, tr, m);
      m.Off? && Closes(f, tr, m, tid) && tid !in tr'.tasks ==>
        Covered(tr'.spans, tid) - Covered(tr.spans, tid) + Uncovered(f, tr, m, tid) == m.now - tr.tasks[tid].timestamp
    ensures Uncovered(f, tr, m, tid) == 0 <==> Placed(f, tr, m, tid)
  {
    var added := MoveShape(f, tr, m);
    if added != [] {
      CoveredAppend(tr.spans, added[0], tid);
      assert added == [added[0]];
    } else {
      assert tr.spans + added == tr.spans;
    }
  }

  function Missing(f: Filter, tr: Trace, ms: seq<Move>, tid: nat): nat {
    if ms == [] then 0
    else Missing(f, tr, ms[..|ms| - 1], tid) + Uncovered(f, After(f, tr, ms[..|ms| - 1]), ms[|ms| - 1], tid)
  }

  lemma {:induction false} RunCovers(f: Filter, tr: Trace, clock: nat, ms: seq<Move>, tid: nat)
    requires tid in tr.tasks && Kept(f, tr, ms, tid) && Timed(clock, ms) && 0 < tr.tasks[tid].timestamp <= clock
    ensures 0 < After(f, tr, ms).tasks[tid].timestamp <= Clock(clock, ms)
    ensures Covered(After(f, tr, ms).spans, tid) - Covered(tr.spans, tid) + Missing(f, tr, ms, tid)
      == After(f, tr, ms).tasks[tid].timestamp - tr.tasks[tid].timestamp
    ensures Missing(f, tr, ms, tid) == 0 <==> WellPlaced(f, tr, ms, tid)
  {
    if ms != [] {
      var before, m := ms[..|ms| - 1], ms[|ms| - 1];
      RunCovers(f, tr, clock, before, tid);
      MoveCovers(f, After(f, tr, before), m, tid);
    }
  }

  /** From any moment on, for as long as a thread stays in the table, its spans
      add up to the time between its state then and its state now, if and only
      if every move that closed one of its states was in its place. */
  lemma SpansTileIff(f: Filter, tr: Trace, clock: nat, ms: seq<Move>, tid: nat)
    requires tid in tr.tasks && Kept(f, tr, ms, tid) && Timed(clock, ms) && 0 < tr.tasks[tid].timestamp <= clock
    ensures Covered(After(f, tr, ms).spans, tid) - Covered(tr.spans, tid)
        == After(f, tr, ms).tasks[tid].timestamp - tr.tasks[tid].timestamp
      <==> WellPlaced(f, tr, ms, tid)
  {
    RunCovers(f, tr, clock, ms, tid);
  }

  /** A whole life: first seen by the move `birth`, the thread exits and is
      switched away for good by `death`; its spans cover exactly the time between
      if and only if every move on the way was in its place. */
  lemma WholeLifeIsCoveredIff(f: Filter, tr: Trace, birth: Move, clock: nat, ms: seq<Move>, death: Move)
    requires tr.tasks.Keys !! {birth.task.tid} && !birth.Evict? && birth.now > 0 && birth.now <= clock
    requires Kept(f, Handle(f, tr, birth), ms, birth.task.tid) && Timed(clock, ms)
    requires death.Off? && death.task.tid == birth.task.tid && ShouldTrack(f, death.task)
    requires Clock(clock, ms) <= death.now
    requires After(f, Handle(f, tr, birth), ms).tasks[birth.task.tid].exiting
    ensures var (tid, tr1) := (birth.task.tid, Handle(f, tr, birth));
      var last := After(f, tr1, ms);
      && tid !in Handle(f, last, death).tasks
      && (Covered(Handle(f, last, death).spans, tid) - Covered(tr.spans, tid) == death.now - birth.now
          <==> WellPlaced(f, tr1, ms, tid) && Placed(f, last, death, tid))
  {
    var tid, tr1 := birth.task.tid, Handle(f, tr, birth);
    assert Kept(f, tr1, [], tid) by { KeptFromStart(f, tr1, ms, tid); }
    var added := MoveShape(f, tr, birth);
    assert added == [] && tr.spans + [] == tr.spans;
    RunCovers(f, tr1, clock, ms, tid);
    MoveCovers(f, After(f, tr1, ms), death, tid);
  }

  lemma {:induction false} KeptFromStart(f: Filter, tr: Trace, ms: seq<Move>, tid: nat)
    requires Kept(f, tr, ms, tid)
    ensures tid in tr.tasks
  {
    if ms != [] { KeptFromStart(f, tr, ms[..|ms| - 1], tid); }
  }

  /** Moves of other threads never disturb a thread, so its tiling is its own. */
  lemma {:induction false} OthersDoNotMatter(f: Filter, tr: Trace, ms: seq<Move>, tid: nat)
    requires forall m | m in ms :: m.task.tid != tid
    ensures (tid in After(f, tr, ms).tasks <==> tid in tr.tasks)
    ensures tid in tr.tasks ==> After(f, tr, ms).tasks[tid] == tr.tasks[tid]
    ensures Covered(After(f, tr, ms).spans, tid) == Covered(tr.spans, tid)
  {
    if ms != [] {
      var before, m := ms[..|ms| - 1], ms[|ms| - 1];
      OthersDoNotMatter(f, tr, before, tid);
      var added := MoveShape(f, After(f, tr, before), m);
      if added != [] {
        CoveredAppend(After(f, tr, before).spans, added[0], tid);
        assert added == [added[0]];
      } else {
        assert After(f, tr, before).spans + added == After(f, tr, before).spans;
      }
    }
  }
}
