/** The drop that follows `discard`: it re-reads a header the consumer may have
    given back, which is harmless exactly as long as nobody has come round to it. */
module RingDrops {
  import opened Words
  import opened RingMemory
  import opened RingProtocol
  import opened RingSafety
  import opened RingScenarios
  import opened RingLimits
  import F = FifoQueue

  /** While the producers have not come round, the drop after `discard` sees
      its own mark and leaves the memory alone. */
  lemma TimelyDropIsHarmless(c: Config, s0: State, acts: seq<Action>, p: nat)
    requires ValidConfig(c) && LimitedRun(c, s0, acts)
    requires Pc(After(c, s0, acts), p).Rejected? && Timely(c, After(c, s0, acts), DropCheck(p))
    ensures var s := After(c, s0, acts); Step(c, s, DropCheck(p)) == SetPc(s, p, Notifying)
  {
    RingRefinesFifo(c, s0, acts);
    RejectedDropNotifies(c, After(c, s0, acts), QueueAfter(c, s0, acts), p);
  }

  /** The store of a drop, whatever came between, changes the memory exactly if the low 32
      bits of the word it loaded are not the word that is there by now. */
  lemma StoreChangesMemoryIff(c: Config, s: State, p: nat)
    requires ValidConfig(c) && |s.mem| == c.layout.dataSize && Enabled(c, s, StoreCommit(p)) && Pc(s, p).pos % 8 == 0
    ensures Step(c, s, StoreCommit(p)).mem != s.mem <==> Header(c, s, Pc(s, p).pos) != Pc(s, p).word % U32
  {
    OffsetFacts(c.layout, Pc(s, p).pos);
    StoreWordSameIff(s.mem, Offset(c.layout, Pc(s, p).pos), CommitHeader(Pc(s, p).word));
  }

  lemma RejectedPos(c: Config, s0: State, acts: seq<Action>, s: State, q: F.Queue, p: nat)
    requires ValidConfig(c) && Reaches(c, s0, acts, s, q) && Pc(s, p).Rejected?
    ensures Pc(s, p).pos % 8 == 0 && |s.mem| == c.layout.dataSize
  {
    ReachedInv(c, s0, acts, s, q);
    PcOf(c, s, q, p);
    EntryFacts(c.layout.dataSize, s.prod, s.cons, q, q.owner[p]);
  }

  /** A late drop that is not interrupted changes the memory if and only if the
      word it finds is unmarked and not below 2^32. */
  lemma LateDropChangesMemoryIff(c: Config, s0: State, acts: seq<Action>, s: State, q: F.Queue, p: nat)
    requires ValidConfig(c) && Reaches(c, s0, acts, s, q) && Pc(s, p).Rejected?
    ensures var (s1, w) := (Step(c, s, DropCheck(p)), Header(c, s, Pc(s, p).pos));
      && (Enabled(c, s1, LoadCommit(p)) <==> !IsDiscarded(w))
      && (!IsDiscarded(w) ==>
            (Step(c, Step(c, s1, LoadCommit(p)), StoreCommit(p)).mem != s.mem <==> w >= U32))
  {
    RejectedPos(c, s0, acts, s, q, p);
    UninterruptedDrop(c, s, p);
  }

  lemma UninterruptedDrop(c: Config, s: State, p: nat)
    requires ValidConfig(c) && |s.mem| == c.layout.dataSize && Pc(s, p).Rejected? && Pc(s, p).pos % 8 == 0
    ensures var (s1, w) := (Step(c, s, DropCheck(p)), Header(c, s, Pc(s, p).pos));
      && (Enabled(c, s1, LoadCommit(p)) <==> !IsDiscarded(w))
      && (!IsDiscarded(w) ==>
            (Step(c, Step(c, s1, LoadCommit(p)), StoreCommit(p)).mem != s.mem <==> w >= U32))
  {
    var s1, w := Step(c, s, DropCheck(p)), Header(c, s, Pc(s, p).pos);
    if !IsDiscarded(w) {
      assert s1 == SetPc(s, p, Dropping(Pc(s, p).size, Pc(s, p).pos, true));
      StoreChangesMemoryIff(c, Step(c, s1, LoadCommit(p)), p);
    }
  }

  /** Reservation `r` includes the header-sized word at stream position `x`. */
  predicate Includes(r: F.Reservation, x: nat) { r.pos <= x && x + HEADER_SIZE <= EndOf(r) }

  lemma {:induction false} WordIsReserved(n: nat, prod: nat, cons: nat, q: F.Queue, x: nat, k: nat) returns (i: nat)
    requires LogInv(n, prod, cons, q) && x % 8 == 0 && k <= |q.log| && x < StartOf(q, k)
    ensures i < k && Includes(q.log[i], x)
  {
    LookAtLog(n, prod, cons, q);
    if x >= q.log[k - 1].pos {
      i := k - 1;
      assert StartOf(q, k) == EndOf(q.log[i]);
      AlignedGap(x, EndOf(q.log[i]), 0);
    } else {
      i := WordIsReserved(n, prod, cons, q, x, k - 1);
    }
  }

  /** The word at stream position `x` lies in a reservation, or is where the next header goes. */
  ghost predicate Claimed(prod: nat, q: F.Queue, x: nat) {
    x == prod || exists i: nat :: i < |q.log| && Includes(q.log[i], x)
  }

  lemma ClaimedIff(n: nat, prod: nat, cons: nat, q: F.Queue, x: nat)
    requires LogInv(n, prod, cons, q) && x % 8 == 0
    ensures Claimed(prod, q, x) <==> x <= prod
  {
    if x < prod {
      var i := WordIsReserved(n, prod, cons, q, x, |q.log|);
    } else if x > prod && Claimed(prod, q, x) {
      var i: nat :| i < |q.log| && Includes(q.log[i], x);
      EntryFacts(n, prod, cons, q, i);
    }
  }

  /** Once they have, that word of memory is no longer its own: it lies in a
      later reservation, or where the next header is about to be written. So
      the word the drop re-reads is its own exactly when the limit is kept. */
  lemma LateDropTouchesForeignWord(c: Config, s0: State, acts: seq<Action>, s: State, q: F.Queue, p: nat)
    requires ValidConfig(c) && Reaches(c, s0, acts, s, q) && Pc(s, p).Rejected?
    ensures !Timely(c, s, DropCheck(p)) <==> Claimed(s.prod, q, Pc(s, p).pos + c.layout.dataSize)
  {
    ReachedInv(c, s0, acts, s, q);
    LaterReservation(c, s, q, p);
  }

  lemma LaterReservation(c: Config, s: State, q: F.Queue, p: nat)
    requires ValidConfig(c) && Inv(c, s, q) && Pc(s, p).Rejected?
    ensures !Timely(c, s, DropCheck(p)) <==> Claimed(s.prod, q, Pc(s, p).pos + c.layout.dataSize)
  {
    LayoutFacts(c.layout);
    PcOf(c, s, q, p);
    EntryFacts(c.layout.dataSize, s.prod, s.cons, q, q.owner[p]);
    ClaimedIff(c.layout.dataSize, s.prod, s.cons, q, Pc(s, p).pos + c.layout.dataSize);
  }

  /** All producers but one are where they were. */
  ghost predicate OthersStay(s: State, s': State, p: nat) { forall o: nat | o != p :: Pc(s', o) == Pc(s, o) }

  lemma OthersStayOn(s: State, t: State, u: State, p: nat)
    requires OthersStay(s, t, p) && OthersStay(t, u, p)
    ensures OthersStay(s, u, p)
  {
    forall o: nat | o != p ensures Pc(u, o) == Pc(s, o) { assert Pc(t, o) == Pc(s, o); }
  }

  /** Producer 1 reserves and commits an empty record. */
  lemma PutSmallRun(c: Config, s0: State, acts: seq<Action>, s: State, q: F.Queue)
    returns (acts': seq<Action>, s': State, q': F.Queue)
    requires ValidConfig(c) && Reaches(c, s0, acts, s, q) && Idling(s, q) && Pc(s, 1).Idle?
    requires s.prod < c.layout.dataSize
    ensures Reaches(c, s0, acts', s', q') && OthersStay(s, s', 1) && !s'.lock && Pc(s', 1) == Notifying
    ensures s'.prod == s.prod + 8 && s'.cons == s.cons && s'.consumer == s.consumer
    ensures q'.head == q.head && q'.log == q.log + [F.Reservation(s.prod, 0, F.Committed, map[])]
  {
    LayoutFacts(c.layout);
    ReachedInv(c, s0, acts, s, q);
    assert q.tail == s.prod;
    var a, b;
    SumFits64(0, s.cons, s.prod);
    acts', a, b := ReserveRun(c, s0, acts, s, q, 1, 0);
    assert b.log == q.log + [F.Reservation(s.prod, 0, F.Pending, map[])] && b.owner[1] == |q.log|;
    acts', s', q' := CommitRun(c, s0, acts', a, b, 1);
    OthersStayOn(s, a, s', 1);
  }

  /** The consumer takes the only record there is. */
  lemma TakeOnlyRun(c: Config, s0: State, acts: seq<Action>, s: State, q: F.Queue)
    returns (acts': seq<Action>, s': State, q': F.Queue)
    requires ValidConfig(c) && Reaches(c, s0, acts, s, q)
    requires (s.consumer.Ready? || s.consumer.Looping?) && q.head + 1 == |q.log|
    requires q.log[q.head].status == F.Committed && EndOf(q.log[q.head]) == s.prod
    ensures Reaches(c, s0, acts', s', q') && s' == s.(cons := s.prod, consumer := Ready(false)) && q'.head == |q'.log|
  {
    var a, b;
    acts', a, b := LookRun(c, s0, acts, s, q);
    acts', s', q' := Do(c, s0, acts', a, b, DropRecord);
  }

  lemma NotifyRun(c: Config, s0: State, acts: seq<Action>, s: State, q: F.Queue)
    returns (acts': seq<Action>, s': State)
    requires ValidConfig(c) && Reaches(c, s0, acts, s, q) && Pc(s, 1) == Notifying
    ensures Reaches(c, s0, acts', s', q) && s' == SetPc(s, 1, Idle).(eventfd := s'.eventfd)
  {
    var q';
    acts', s', q' := Do(c, s0, acts, s, q, Notify(1));
  }

  /** Such a record goes all the way through an empty ring. */
  lemma SmallRecordRun(c: Config, s0: State, acts: seq<Action>, s: State, q: F.Queue)
    returns (acts': seq<Action>, s': State, q': F.Queue)
    requires ValidConfig(c) && Reaches(c, s0, acts, s, q) && Idling(s, q) && Pc(s, 1).Idle?
    requires s.prod < c.layout.dataSize
    ensures Reaches(c, s0, acts', s', q') && Idling(s', q') && s'.prod == s.prod + 8 && s'.consumer == Ready(false)
    ensures Pc(s', 1).Idle? && OthersStay(s, s', 1)
  {
    var a, b;
    acts', a, b := PutSmallRun(c, s0, acts, s, q);
    assert b.log[b.head] == F.Reservation(s.prod, 0, F.Committed, map[]);
    var d;
    acts', d, q' := TakeOnlyRun(c, s0, acts', a, b);
    acts', s' := NotifyRun(c, s0, acts', d, q');
    assert OthersStay(a, s', 1);
    OthersStayOn(s, a, s', 1);
  }

  /** Small records until the producer position is `end`. */
  lemma {:induction false} LapRun(c: Config, s0: State, acts: seq<Action>, s: State, q: F.Queue, end: nat)
    returns (acts': seq<Action>, s': State, q': F.Queue)
    requires ValidConfig(c) && Reaches(c, s0, acts, s, q) && Idling(s, q) && Pc(s, 1).Idle?
    requires s.prod % 8 == 0 && end % 8 == 0 && s.prod < end <= c.layout.dataSize
    ensures Reaches(c, s0, acts', s', q') && Idling(s', q')
    ensures s'.prod == end && s'.consumer == Ready(false) && OthersStay(s, s', 1)
    decreases end - s.prod
  {
    AlignedRoom(s.prod, end);
    var a, b, d := SmallRecordRun(c, s0, acts, s, q);
    if b.prod < end {
      acts', s', q' := LapRun(c, s0, a, b, d, end);
      OthersStayOn(s, b, s', 1);
    } else {
      acts', s', q' := a, b, d;
    }
  }

  lemma AlignedRoom(x: nat, n: nat)
    requires x % 8 == 0 && n % 8 == 0 && x < n
    ensures x + 8 <= n && (x + 8) % 8 == 0
  {
  }

  /** Producer 0 discards an empty record and is held up before its drop. */
  lemma DiscardRun(c: Config, s0: State) returns (acts: seq<Action>, s: State, q: F.Queue)
    requires ValidConfig(c) && Init(c, s0)
    ensures Reaches(c, s0, acts, s, q) && s.consumer == Ready(false) && !s.lock && s.cons == 0 && s.prod == 8
    ensures Pc(s, 0) == Rejected(0, 0) && forall o: nat | o != 0 :: Pc(s, o) == Idle
    ensures q.log == [F.Reservation(0, 0, F.Discarded, map[])] && q.head == 0 && q.tail == 8
  {
    LayoutFacts(c.layout);
    Start(c, s0);
    SumFits64(0, 0, 0);
    var a;
    acts, a, q := ReserveRun(c, s0, [], s0, F.EmptyQueue, 0, 0);
    acts, s, q := MarkRun(c, s0, acts, a, q);
    forall o: nat | o != 0 ensures Pc(s, o) == Idle {
      assert Pc(s, o) == Pc(a, o) == Pc(s0, o);
    }
  }

  lemma MarkRun(c: Config, s0: State, acts: seq<Action>, s: State, q: F.Queue)
    returns (acts': seq<Action>, s': State, q': F.Queue)
    requires ValidConfig(c) && Reaches(c, s0, acts, s, q) && Pc(s, 0).Filling?
    ensures Reaches(c, s0, acts', s', q') && q' == F.Record(q, F.Discard(0))
    ensures s' == SetPc(s, 0, Rejected(Pc(s, 0).size, Pc(s, 0).pos)).(mem := s'.mem)
  {
    var b;
    acts', b, q' := Do(c, s0, acts, s, q, LoadDiscard(0));
    acts', s', q' := Do(c, s0, acts', b, q', StoreDiscard(0));
  }

  /** The consumer skips the record. */
  lemma SkippedDiscardRun(c: Config, s0: State) returns (acts: seq<Action>, s: State, q: F.Queue)
    requires ValidConfig(c) && Init(c, s0)
    ensures Reaches(c, s0, acts, s, q) && Idling(s, q) && s.prod == 8
    ensures Pc(s, 0) == Rejected(0, 0) && forall o: nat | o != 0 :: Pc(s, o) == Idle
  {
    var sBefore, sSeen;
    acts, sBefore, q := DiscardRun(c, s0);
    acts, sSeen, q := LookRun(c, s0, acts, sBefore, q);
    acts, s, q := Do(c, s0, acts, sSeen, q, AdvancePast);
    forall o: nat ensures Pc(s, o) == Pc(sBefore, o) {
      assert s.producers == sBefore.producers;
    }
  }

  /** Small records up to position `end`, where producer 2 reserves eight bytes. */
  lemma LappedRun(c: Config, s0: State, end: nat) returns (acts: seq<Action>, s: State, q: F.Queue)
    requires ValidConfig(c) && Init(c, s0) && end % 8 == 0 && 8 < end <= c.layout.dataSize
    ensures Reaches(c, s0, acts, s, q) && s.consumer == Ready(false)
    ensures Pc(s, 0) == Rejected(0, 0) && Pc(s, 2) == Filling(8, end)
    ensures s.cons == end && s.prod == end + 16 && F.HeadIs(q, F.Pending) && F.Owned(q, 2) && q.owner[2] == q.head
  {
    LayoutFacts(c.layout);
    SumFits64(8, end, end);
    var a, b;
    acts, a, q := SkippedDiscardRun(c, s0);
    acts, b, q := LapRun(c, s0, acts, a, q, end);
    assert Pc(b, 0) == Pc(a, 0) && Pc(b, 2) == Pc(a, 2);
    acts, s, q := ReserveRun(c, s0, acts, b, q, 2, 8);
    assert Pc(s, 0) == Pc(b, 0);
  }

  lemma SameSlot(l: Layout)
    requires ValidLayout(l)
    ensures Offset(l, 0) == 0 == Offset(l, l.dataSize)
  {
    OffsetIsModulo(l, 0);
    OffsetIsModulo(l, l.dataSize);
    ModuloUnique(l.dataSize, l.dataSize, 1, 0);
    ModuloUnique(0, l.dataSize, 0, 0);
  }

  /** Positions one lap apart share their header word; clearing its busy flag
      through one shows through the other. */
  lemma CommittedByStranger(c: Config, s: State, q: F.Queue)
    requires ValidConfig(c) && Inv(c, s, q) && Pc(s, 2) == Filling(8, c.layout.dataSize)
    ensures Header(c, s, 0) == BusyHeader(8) && !IsDiscarded(BusyHeader(8))
    ensures var mem' := StoreWord(s.mem, Offset(c.layout, 0), CommitHeader(Header(c, s, 0)));
      LoadWord(mem', Offset(c.layout, c.layout.dataSize)) == 8 && !IsBusy(8) && !IsDiscarded(8)
  {
    var n := c.layout.dataSize;
    LayoutFacts(c.layout);
    PcOf(c, s, q, 2);
    OwnedHeader(c, s, q, 2);
    HeaderStates(8);
    SameSlot(c.layout);
    StoreWordEffect(c.layout, s.mem, n, 8, n);
    LoadWordAt(c.layout, StoreWord(s.mem, Offset(c.layout, n), 8), n, 8);
  }

  /** A drop after `discard` that finds no mark. */
  lemma LateStoreRun(c: Config, s0: State, acts: seq<Action>, s: State, q: F.Queue, p: nat)
    returns (acts': seq<Action>, s': State)
    requires ValidConfig(c) && Course(c, s0, acts, s, q, false, true)
    requires Pc(s, p).Rejected? && !IsDiscarded(Header(c, s, Pc(s, p).pos))
    ensures Course(c, s0, acts', s', q, false, true)
    ensures var pos := Pc(s, p).pos;
      s'.mem == StoreWord(s.mem, Offset(c.layout, pos), CommitHeader(Header(c, s, pos)))
    ensures s'.cons == s.cons && s'.consumer == s.consumer && s'.prod == s.prod
  {
    var q';
    acts', s', q' := Next(c, s0, acts, s, q, DropCheck(p), false);
    acts', s', q' := Next(c, s0, acts', s', q, LoadCommit(p), false);
    acts', s', q' := Next(c, s0, acts', s', q, StoreCommit(p), false);
  }

  /** The consumer takes an unfinished record for a finished one. */
  lemma UnfinishedRun(c: Config, s0: State, acts: seq<Action>, s: State, q: F.Queue)
    returns (acts': seq<Action>, s': State, q': F.Queue)
    requires ValidConfig(c) && Course(c, s0, acts, s, q, false, true) && s.consumer == Ready(false)
    requires s.cons < s.prod && F.HeadIs(q, F.Pending)
    requires !IsBusy(Header(c, s, s.cons)) && !IsDiscarded(Header(c, s, s.cons))
    ensures Course(c, s0, acts', s', q', false, false)
  {
    acts', s', q' := Next(c, s0, acts, s, q, ReadPositions, false);
    assert s' == s.(consumer := SawRecord) && q' == q;
    UnfinishedIsSeen(c, s', q);
    acts', s', q' := Next(c, s0, acts', s', q', ReadHeader, false);
  }

  lemma UnfinishedIsSeen(c: Config, s: State, q: F.Queue)
    requires ValidConfig(c) && s.consumer == SawRecord && F.HeadIs(q, F.Pending)
    requires !IsBusy(Header(c, s, s.cons)) && !IsDiscarded(Header(c, s, s.cons))
    ensures !F.Allowed(q, Emit(c, s, ReadHeader))
  {
    assert Emit(c, s, ReadHeader) == F.Deliver(Payload(c, s, HeaderLen(Header(c, s, s.cons))));
  }

  /** In every ring a late drop can commit another producer's unfinished
      record: the consumer is handed eight bytes nobody has written. */
  lemma LateDropBreaksFifo(c: Config, s0: State) returns (acts: seq<Action>)
    requires ValidConfig(c) && Init(c, s0)
    ensures Run(c, s0, acts) && !F.FifoTrace(Trace(c, s0, acts))
  {
    LayoutFacts(c.layout);
    var s, q;
    acts, s, q := LappedRun(c, s0, c.layout.dataSize);
    ReachedInv(c, s0, acts, s, q);
    CommittedByStranger(c, s, q);
    ReachedCourse(c, s0, acts, s, q);
    LessCareful(c, s0, acts, s, q, false);
    acts, s := LateStoreRun(c, s0, acts, s, q, 0);
    acts, s, q := UnfinishedRun(c, s0, acts, s, q);
    LookAtCourse(c, s0, acts, s, q, false, false);
  }

  // -------------------------------------- a late drop that is interrupted

  ghost predicate ZeroFrom(r: F.Reservation, from: nat, upTo: nat) {
    forall i: nat | from <= i < upTo :: i in r.written && r.written[i] == 0
  }

  /** Producer 2 writes zeros into the last `n` bytes of its payload. */
  lemma {:induction false} ZerosRun(c: Config, s0: State, acts: seq<Action>, s: State, q: F.Queue, n: nat)
    returns (acts': seq<Action>, s': State, q': F.Queue)
    requires ValidConfig(c) && Reaches(c, s0, acts, s, q) && Pc(s, 2).Filling? && n <= Pc(s, 2).size
    requires F.HeadIs(q, F.Pending) && F.Owned(q, 2) && q.owner[2] == q.head
    ensures Reaches(c, s0, acts', s', q') && s' == s.(mem := s'.mem)
    ensures q' == q.(log := q'.log) && |q'.log| == |q.log| && q'.log[q.head].status == F.Pending
    ensures ZeroFrom(q'.log[q.head], Pc(s, 2).size - n, Pc(s, 2).size)
  {
    acts', s', q' := acts, s, q;
    if n > 0 {
      acts', s', q' := ZerosRun(c, s0, acts, s, q, n - 1);
      acts', s', q' := ZeroRun(c, s0, acts', s', q', Pc(s, 2).size - n);
    }
  }

  lemma ZeroRun(c: Config, s0: State, acts: seq<Action>, s: State, q: F.Queue, i: nat)
    returns (acts': seq<Action>, s': State, q': F.Queue)
    requires ValidConfig(c) && Reaches(c, s0, acts, s, q) && Pc(s, 2).Filling? && i < Pc(s, 2).size
    requires F.HeadIs(q, F.Pending) && F.Owned(q, 2) && q.owner[2] == q.head
    ensures Reaches(c, s0, acts', s', q') && s' == s.(mem := s'.mem)
    ensures q' == q.(log := q'.log) && |q'.log| == |q.log|
    ensures var r := q.log[q.head]; q'.log[q.head] == r.(written := r.written[i := 0])
  {
    acts', s', q' := Do(c, s0, acts, s, q, Fill(2, i, 0));
  }

  lemma {:induction false} EncodeByte(b: byte, n: nat, j: nat)
    requires j < n
    ensures Encode(b, n)[j] == if j == 0 then b else 0
  {
    if j > 0 { EncodeByte(0, n - 1, j - 1); }
  }

  /** The payload of the owner's reservation is `b` and seven zero bytes. */
  predicate PayloadIs(q: F.Queue, p: nat, b: byte) {
    F.Owned(q, p) && var w := q.log[q.owner[p]].written;
    forall i: nat | i < 8 :: i in w && w[i] == if i == 0 then b else 0
  }

  /** Payload at the start of a lap is the word producer 0 takes for its header. */
  lemma PayloadAsHeader(c: Config, s: State, q: F.Queue, b: byte)
    requires ValidConfig(c) && Inv(c, s, q) && Pc(s, 2) == Filling(8, s.cons) && PayloadIs(q, 2, b)
    requires s.cons + 8 == c.layout.dataSize
    ensures Header(c, s, 0) == b
  {
    var n, r := c.layout.dataSize, q.log[q.owner[2]];
    LayoutFacts(c.layout);
    PcOf(c, s, q, 2);
    OwnedHeader(c, s, q, 2);
    forall j | 0 <= j < 8 ensures At(s.mem, n + j) == Encode(b, 8)[j] {
      assert j in r.written;
      assert At(s.mem, r.pos + HEADER_SIZE + j) == r.written[j];
      EncodeByte(b, 8, j);
    }
    LoadWordAt(c.layout, s.mem, n, b);
    SameSlot(c.layout);
  }

  lemma NothingHeld(c: Config, s0: State, acts: seq<Action>, s: State, q: F.Queue)
    requires ValidConfig(c) && Reaches(c, s0, acts, s, q) && s.consumer == Ready(false)
    ensures !q.holding
  {
    ReachedInv(c, s0, acts, s, q);
  }

  /** Producer 2 owns eight zero bytes one lap behind the header of producer 0, whose drop is still to come. */
  lemma ZeroedRun(c: Config, s0: State) returns (acts: seq<Action>, s: State, q: F.Queue)
    requires ValidConfig(c) && Init(c, s0)
    ensures Reaches(c, s0, acts, s, q) && s.consumer == Ready(false)
    ensures Pc(s, 0) == Rejected(0, 0) && Pc(s, 2) == Filling(8, s.cons) && s.cons + 8 == c.layout.dataSize
    ensures F.HeadIs(q, F.Pending) && F.Owned(q, 2) && q.owner[2] == q.head
    ensures s.cons < s.prod && !q.holding && PayloadIs(q, 2, 0)
  {
    var end := LastHeader(c.layout);
    var a, b;
    acts, a, b := LappedRun(c, s0, end);
    acts, s, q := ZerosRun(c, s0, acts, a, b, 8);
    NothingHeld(c, s0, acts, s, q);
    AllZero(q);
  }

  lemma LastHeader(l: Layout) returns (end: nat)
    requires ValidLayout(l)
    ensures end + 8 == l.dataSize && end % 8 == 0 && end > 8
  {
    LayoutFacts(l);
    end := EightLess(l.dataSize);
  }

  lemma EightLess(n: nat) returns (m: nat)
    requires n % 8 == 0 && n > 16
    ensures m + 8 == n && m % 8 == 0 && m > 8
  {
    m := n - 8;
  }

  lemma AllZero(q: F.Queue)
    requires F.Owned(q, 2) && ZeroFrom(q.log[q.owner[2]], 0, 8)
    ensures PayloadIs(q, 2, 0)
  {
  }

  /** A header just below what was changed is still there. */
  lemma HeaderBelow(mem: seq<byte>, mem': seq<byte>, pos: nat, w: nat, from: nat)
    requires OnlyChanged(mem, mem', pos, from, from + 8) && |mem| >= 8 && pos + 8 <= from
    requires WordAt(mem, pos, w)
    ensures WordAt(mem', pos, w)
  {
    forall j | 0 <= j < 8 ensures At(mem', pos + j) == Encode(w, 8)[j] {
      assert At(mem, pos + j) == Encode(w, 8)[j];
    }
  }

  /** Over an owner's payload a zero word is stored; its header stays. */
  lemma ZeroStored(l: Layout, mem: seq<byte>, pos: nat, o: nat) returns (mem1: seq<byte>)
    requires ValidLayout(l) && |mem| == l.dataSize && mem != [] && pos % 8 == 0
    requires WordAt(mem, pos, BusyHeader(8)) && o == Offset(l, pos + 8)
    ensures mem1 == StoreWord(mem, o, 0) && |mem1| == l.dataSize && mem1 != []
    ensures WordAt(mem1, pos, BusyHeader(8)) && At(mem1, pos + HEADER_SIZE) == 0
  {
    LayoutFacts(l);
    mem1 := StoreWord(mem, Offset(l, pos + 8), 0);
    StoreWordEffect(l, mem, pos + 8, 0, pos);
    HeaderBelow(mem, mem1, pos, BusyHeader(8), pos + 8);
    EncodeByte(0, 8, 0);
    assert At(mem1, pos + 8 + 0) == Encode(0, 8)[0];
  }

  lemma OwnersHeader(c: Config, s: State, q: F.Queue, p: nat)
    requires ValidConfig(c) && Inv(c, s, q) && Pc(s, p).Filling?
    ensures |s.mem| == c.layout.dataSize && s.mem != [] && Pc(s, p).pos % 8 == 0
    ensures WordAt(s.mem, Pc(s, p).pos, BusyHeader(Pc(s, p).size))
  {
    PcOf(c, s, q, p);
    OwnedHeader(c, s, q, p);
  }

  /** Then the owner commits: its first byte still reads zero. */
  lemma ByteIsLost(l: Layout, mem1: seq<byte>, pos: nat)
    requires ValidLayout(l) && |mem1| == l.dataSize && mem1 != [] && pos % 8 == 0
    requires WordAt(mem1, pos, BusyHeader(8)) && At(mem1, pos + HEADER_SIZE) == 0
    ensures LoadWord(mem1, Offset(l, pos)) == BusyHeader(8) && !IsDiscarded(BusyHeader(8))
    ensures CommitHeader(BusyHeader(8)) == 8
    ensures var mem2 := StoreWord(mem1, Offset(l, pos), 8);
      LoadWord(mem2, Offset(l, pos)) == 8 && LoadByte(mem2, Offset(l, pos) + HEADER_SIZE) == 0
  {
    LayoutFacts(l);
    HeaderStates(8);
    LoadWordAt(l, mem1, pos, BusyHeader(8));
    var mem2 := StoreWord(mem1, Offset(l, pos), 8);
    StoreWordEffect(l, mem1, pos, 8, pos);
    LoadWordAt(l, mem2, pos, 8);
    LinearIsCircular(l, mem2, pos, HEADER_SIZE);
    assert At(mem2, pos + HEADER_SIZE) == At(mem1, pos + HEADER_SIZE);
  }

  /** Where the drop of producer 0 is about to undo what producer 2 has written. */
  ghost predicate AboutToUndo(c: Config, s: State, q: F.Queue, mem1: seq<byte>)
    requires ValidConfig(c)
  {
    && s.consumer == Ready(false) && !q.holding && s.cons < s.prod
    && Pc(s, 0) == Committing(0, 0, true, 0) && Pc(s, 2) == Filling(8, s.cons) && s.cons % 8 == 0
    && F.HeadIs(q, F.Pending) && F.Owned(q, 2) && q.owner[2] == q.head && PayloadIs(q, 2, 5)
    && mem1 == StoreWord(s.mem, Offset(c.layout, 0), 0) && |mem1| == c.layout.dataSize && mem1 != []
    && WordAt(mem1, s.cons, BusyHeader(8)) && At(mem1, s.cons + HEADER_SIZE) == 0
  }

  /** The drop of producer 0 has loaded the zero word; then producer 2 writes 5 into it. */
  lemma OverwrittenRun(c: Config, s0: State) returns (acts: seq<Action>, s: State, q: F.Queue, mem1: seq<byte>)
    requires ValidConfig(c) && Init(c, s0)
    ensures Course(c, s0, acts, s, q, false, true) && AboutToUndo(c, s, q, mem1) && Header(c, s, 0) == 5
  {
    var a;
    acts, a, q := ZeroedCourse(c, s0);
    mem1 := FiveOverZero(c, a, q);
    acts, s := LoadedRun(c, s0, acts, a, q);
    acts, s, q := FiveRun(c, s0, acts, s, q);
  }

  /** The drop of producer 0 finds no mark, and loads a zero word. */
  lemma LoadedRun(c: Config, s0: State, acts: seq<Action>, s: State, q: F.Queue)
    returns (acts': seq<Action>, s': State)
    requires ValidConfig(c) && Course(c, s0, acts, s, q, false, true)
    requires Pc(s, 0) == Rejected(0, 0) && Header(c, s, 0) == 0 && !IsDiscarded(0)
    ensures Course(c, s0, acts', s', q, false, true) && s' == SetPc(s, 0, Committing(0, 0, true, 0))
  {
    var s1, q';
    acts', s1, q' := Next(c, s0, acts, s, q, DropCheck(0), false);
    assert s1 == SetPc(s, 0, Dropping(0, 0, true));
    acts', s', q' := Next(c, s0, acts', s1, q, LoadCommit(0), false);
  }

  lemma FiveRun(c: Config, s0: State, acts: seq<Action>, s: State, q: F.Queue)
    returns (acts': seq<Action>, s': State, q': F.Queue)
    requires ValidConfig(c) && Course(c, s0, acts, s, q, false, true) && Pc(s, 2) == Filling(8, s.cons)
    requires F.OwnsPending(q, 2) && q.log[q.owner[2]].size == 8
    ensures Course(c, s0, acts', s', q', false, true) && q' == F.Record(q, F.Write(2, 0, 5))
    ensures s' == s.(mem := StoreByte(s.mem, Offset(c.layout, s.cons) + HEADER_SIZE + 0, 5))
  {
    acts', s', q' := Next(c, s0, acts, s, q, Fill(2, 0, 5), false);
  }

  lemma ZeroedCourse(c: Config, s0: State) returns (acts: seq<Action>, s: State, q: F.Queue)
    requires ValidConfig(c) && Init(c, s0)
    ensures Course(c, s0, acts, s, q, false, true) && Inv(c, s, q) && s.consumer == Ready(false)
    ensures Pc(s, 0) == Rejected(0, 0) && Pc(s, 2) == Filling(8, s.cons) && s.cons + 8 == c.layout.dataSize
    ensures F.HeadIs(q, F.Pending) && F.Owned(q, 2) && q.owner[2] == q.head && q.log[q.head].size == 8
    ensures s.cons < s.prod && !q.holding && PayloadIs(q, 2, 0)
  {
    acts, s, q := ZeroedRun(c, s0);
    ReachedInv(c, s0, acts, s, q);
    PcOf(c, s, q, 2);
    ReachedCourse(c, s0, acts, s, q);
    LessCareful(c, s0, acts, s, q, false);
  }

  lemma FiveWritten(q: F.Queue)
    requires PayloadIs(q, 2, 0)
    ensures PayloadIs(F.Record(q, F.Write(2, 0, 5)), 2, 5)
  {
  }

  /** Producer 2 writes 5 into its zero payload. */
  lemma FiveStored(c: Config, s: State, q: F.Queue)
    requires ValidConfig(c) && Inv(c, s, q) && Pc(s, 2) == Filling(8, s.cons) && PayloadIs(q, 2, 0)
    requires s.cons + 8 == c.layout.dataSize
    ensures var (u, v) := (Step(c, s, Fill(2, 0, 5)), F.Record(q, F.Write(2, 0, 5)));
      && Header(c, u, 0) == 5 && PayloadIs(v, 2, 5) && |u.mem| == c.layout.dataSize && u.mem != []
      && s.cons % 8 == 0 && WordAt(u.mem, s.cons, BusyHeader(8))
  {
    FiveWritten(q);
    FillAction(c, s, q, 2, 0, 5);
    var u, v := Step(c, s, Fill(2, 0, 5)), F.Record(q, F.Write(2, 0, 5));
    PayloadAsHeader(c, u, v, 5);
    OwnersHeader(c, u, v, 2);
  }

  /** What the memory would be if the zero word were stored over it. */
  lemma FiveOverZero(c: Config, s: State, q: F.Queue) returns (mem1: seq<byte>)
    requires ValidConfig(c) && Inv(c, s, q) && Pc(s, 2) == Filling(8, s.cons) && PayloadIs(q, 2, 0)
    requires s.cons + 8 == c.layout.dataSize
    ensures Header(c, s, 0) == 0 && !IsDiscarded(0) && s.cons % 8 == 0
    ensures var u := Step(c, s, Fill(2, 0, 5));
      && Header(c, u, 0) == 5 && PayloadIs(F.Record(q, F.Write(2, 0, 5)), 2, 5)
      && mem1 == StoreWord(u.mem, Offset(c.layout, 0), 0) && |mem1| == c.layout.dataSize && mem1 != []
    ensures WordAt(mem1, s.cons, BusyHeader(8)) && At(mem1, s.cons + HEADER_SIZE) == 0
  {
    PayloadAsHeader(c, s, q, 0);
    FiveStored(c, s, q);
    SameSlot(c.layout);
    mem1 := ZeroStored(c.layout, Step(c, s, Fill(2, 0, 5)).mem, s.cons, Offset(c.layout, 0));
    ZeroIsUnmarked();
  }

  lemma ZeroIsUnmarked()
    ensures !IsDiscarded(0)
  {
  }

  /** The drop stores what it loaded, producer 2 commits, and the consumer looks. */
  lemma LostByteRun(c: Config, s0: State, acts: seq<Action>, s: State, q: F.Queue, mem1: seq<byte>)
    returns (acts': seq<Action>, s': State, q': F.Queue)
    requires ValidConfig(c) && Course(c, s0, acts, s, q, false, true) && AboutToUndo(c, s, q, mem1)
    ensures Course(c, s0, acts', s', q', false, false) && acts + [StoreCommit(0)] <= acts'
  {
    var b;
    acts', b := UndoneRun(c, s0, acts, s, q, mem1);
    acts', s', q' := OwnerCommits(c, s0, acts', b, q);
    acts', s', q' := SeenRun(c, s0, acts', s', q');
  }

  lemma UndoneRun(c: Config, s0: State, acts: seq<Action>, s: State, q: F.Queue, mem1: seq<byte>)
    returns (acts': seq<Action>, s': State)
    requires ValidConfig(c) && Course(c, s0, acts, s, q, false, true) && AboutToUndo(c, s, q, mem1)
    ensures Course(c, s0, acts', s', q, false, true) && acts' == acts + [StoreCommit(0)] && Undone(c, s', q)
    ensures F.OwnsPending(q, 2) && q.owner[2] == q.head
    ensures !q.holding && 0 in q.log[q.head].written && q.log[q.head].written[0] == 5
  {
    var q';
    acts', s', q' := Next(c, s0, acts, s, q, StoreCommit(0), false);
    assert s' == SetPc(s, 0, Notifying).(mem := mem1);
  }

  /** Producer 2 is about to commit a payload whose first byte has been undone. */
  ghost predicate Undone(c: Config, s: State, q: F.Queue)
    requires ValidConfig(c)
  {
    && s.consumer == Ready(false) && s.cons < s.prod && Pc(s, 2) == Filling(8, s.cons) && s.cons % 8 == 0
    && |s.mem| == c.layout.dataSize && s.mem != []
    && WordAt(s.mem, s.cons, BusyHeader(8)) && At(s.mem, s.cons + HEADER_SIZE) == 0
  }

  lemma OwnerCommits(c: Config, s0: State, acts: seq<Action>, s: State, q: F.Queue)
    returns (acts': seq<Action>, s': State, q': F.Queue)
    requires ValidConfig(c) && Course(c, s0, acts, s, q, false, true) && Undone(c, s, q) && F.OwnsPending(q, 2)
    ensures Course(c, s0, acts', s', q', false, true) && acts <= acts' && q' == F.Record(q, F.Commit(2))
    ensures s'.consumer == Ready(false) && s'.cons < s'.prod
    ensures Header(c, s', s'.cons) == 8 && LoadByte(s'.mem, Offset(c.layout, s'.cons) + HEADER_SIZE) == 0
  {
    ByteIsLost(c.layout, s.mem, s.cons);
    var mem2 := StoreWord(s.mem, Offset(c.layout, s.cons), 8);
    assert Header(c, s, Pc(s, 2).pos) == BusyHeader(8);
    acts', s', q' := GivenRun(c, s0, acts, s, q, 2, false);
    assert s'.mem == mem2;
  }

  /** The consumer looks, and is handed a zero where 5 was written. */
  lemma SeenRun(c: Config, s0: State, acts: seq<Action>, s: State, q: F.Queue)
    returns (acts': seq<Action>, s': State, q': F.Queue)
    requires ValidConfig(c) && Course(c, s0, acts, s, q, false, true) && s.consumer == Ready(false) && s.cons < s.prod
    requires F.HeadIs(q, F.Committed) && 0 in q.log[q.head].written && q.log[q.head].written[0] == 5
    requires Header(c, s, s.cons) == 8 && LoadByte(s.mem, Offset(c.layout, s.cons) + HEADER_SIZE) == 0
    ensures Course(c, s0, acts', s', q', false, false) && acts <= acts'
  {
    acts', s', q' := Next(c, s0, acts, s, q, ReadPositions, false);
    LostByteIsSeen(c, s', q');
    acts', s', q' := Next(c, s0, acts', s', q', ReadHeader, false);
  }

  /** The consumer is handed a zero where 5 was written. */
  lemma LostByteIsSeen(c: Config, s: State, q: F.Queue)
    requires ValidConfig(c) && s.consumer == SawRecord && F.HeadIs(q, F.Committed)
    requires 0 in q.log[q.head].written && q.log[q.head].written[0] == 5
    requires Header(c, s, s.cons) == 8 && LoadByte(s.mem, Offset(c.layout, s.cons) + HEADER_SIZE) == 0
    ensures !F.Allowed(q, Emit(c, s, ReadHeader))
  {
    HeaderStates(8);
    var bytes := Payload(c, s, 8);
    assert Emit(c, s, ReadHeader) == F.Deliver(bytes);
    assert bytes[0] == 0;
  }

  /** And in every ring a late drop that is interrupted between its load and its
      store can undo a byte written in between, although the word it overwrites is below 2^32. */
  lemma InterruptedDropLosesByte(c: Config, s0: State) returns (acts: seq<Action>, before: seq<Action>)
    requires ValidConfig(c) && Init(c, s0)
    ensures Run(c, s0, acts) && !F.FifoTrace(Trace(c, s0, acts))
    ensures before + [StoreCommit(0)] <= acts && Run(c, s0, before) && Header(c, After(c, s0, before), 0) == 5
  {
    var s, q, mem1, s', q';
    before, s, q, mem1 := OverwrittenRun(c, s0);
    acts, s', q' := LostByteRun(c, s0, before, s, q, mem1);
    LookAtCourse(c, s0, before, s, q, false, true);
    LookAtCourse(c, s0, acts, s', q', false, false);
  }
}
