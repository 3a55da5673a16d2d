/** The sizes the ring buffer leaves to its callers: which attempts it handles
    rightly, and what becomes of the others. */
module RingLimits {
  import opened Words
  import opened RingMemory
  import opened RingProtocol
  import opened RingSafety
  import opened RingScenarios
  import F = FifoQueue

  // ------------------------------------------------------ lengths of records

  lemma {:induction false} LimitedIsCareful(c: Config, s0: State, acts: seq<Action>)
    requires ValidConfig(c) && LimitedRun(c, s0, acts)
    ensures CarefulRun(c, s0, acts)
  {
    if acts != [] { LimitedIsCareful(c, s0, acts[..|acts| - 1]); }
  }

  /** In a ring of at most 2^32 bytes the space check refuses every length that
      would not fit, as long as the position asked for is below 2^64. */
  lemma RoomBoundsLength(c: Config, s: State, q: F.Queue, a: Action)
    requires ValidConfig(c) && Inv(c, s, q) && Enabled(c, s, a) && SumFits(s, a) && c.layout.dataSize <= U32
    ensures LengthFits(s, a)
  {
    if a.WriteHeader? { SpaceCheckNeverUnderflows(c, s, q, a.p); }
  }

  lemma {:induction false} CarefulRunsAreLimited(c: Config, s0: State, acts: seq<Action>)
    requires ValidConfig(c) && CarefulRun(c, s0, acts) && c.layout.dataSize <= U32
    ensures LimitedRun(c, s0, acts)
  {
    if acts != [] {
      var before := acts[..|acts| - 1];
      CarefulRunsAreLimited(c, s0, before);
      RingRefinesFifo(c, s0, before);
      RoomBoundsLength(c, After(c, s0, before), QueueAfter(c, s0, before), acts[|acts| - 1]);
    }
  }

  // ------------------------------------------ attempts of any size, one by one

  /** Nothing is in the ring, nobody holds the lock, and the consumer may look. */
  predicate Idling(s: State, q: F.Queue) {
    && !s.lock && s.cons == s.prod && q.head == |q.log|
    && (s.consumer.Ready? || s.consumer.Looping?)
  }

  /** A reservation refused for lack of room. */
  function Refused(p: nat, size: nat): seq<Action> {
    [BeginReserve(p, size), TryLock(p, false), ReadProducer(p), Refuse(p)]
  }

  /** A reservation whose buffer is dropped at once. */
  function Used(p: nat, size: nat): seq<Action> {
    [BeginReserve(p, size), TryLock(p, false), ReadProducer(p), WriteHeader(p), Publish(p), Unlock(p),
     DropCheck(p), LoadCommit(p), StoreCommit(p)]
  }

  /** What follows a call of `reserve` in an idle ring: a refusal, or a record for
      which the consumer then looks. */
  function Attempt(c: Config, s: State, p: nat, size: nat): seq<Action> {
    if NoRoom(c, size, s.cons, s.prod) then Refused(p, size)
    else Used(p, size) + if NextPos(size, s.prod) > s.cons then [ReadPositions, ReadHeader] else [ReadPositions]
  }

  /** A run, where it has led, and how far it has kept to the rules. */
  ghost predicate Fares(c: Config, s0: State, acts: seq<Action>, s: State, q: F.Queue, careful: bool, fifo: bool)
    requires ValidConfig(c)
  {
    && Run(c, s0, acts) && After(c, s0, acts) == s && QueueAfter(c, s0, acts) == q
    && (careful ==> CarefulRun(c, s0, acts)) && (F.FifoTrace(Trace(c, s0, acts)) <==> fifo)
  }

  /** The same, folded: it is looked at only where `LookAtCourse` is called. */
  ghost predicate Course(c: Config, s0: State, acts: seq<Action>, s: State, q: F.Queue, careful: bool, fifo: bool)
    requires ValidConfig(c)
  {
    forall k: nat {:trigger Looking(k)} | Looking(k) :: Fares(c, s0, acts, s, q, careful, fifo)
  }

  lemma LookAtCourse(c: Config, s0: State, acts: seq<Action>, s: State, q: F.Queue, careful: bool, fifo: bool)
    requires ValidConfig(c) && Course(c, s0, acts, s, q, careful, fifo)
    ensures Fares(c, s0, acts, s, q, careful, fifo)
  {
    assert Looking(0);
  }

  lemma Next(c: Config, s0: State, acts: seq<Action>, s: State, q: F.Queue, a: Action, careful: bool)
    returns (acts': seq<Action>, s': State, q': F.Queue)
    requires ValidConfig(c) && Course(c, s0, acts, s, q, careful, true) && Enabled(c, s, a)
    requires careful ==> Careful(c, s, a)
    ensures acts' == acts + [a] && s' == Step(c, s, a) && q' == F.Record(q, Emit(c, s, a))
    ensures Course(c, s0, acts', s', q', careful, F.Allowed(q, Emit(c, s, a)))
  {
    LookAtCourse(c, s0, acts, s, q, careful, true);
    Extend(c, s0, acts, s, q, a);
    ExtendLimited(c, s0, acts, a);
    acts', s', q' := acts + [a], Step(c, s, a), F.Record(q, Emit(c, s, a));
  }

  lemma ReachedCourse(c: Config, s0: State, acts: seq<Action>, s: State, q: F.Queue)
    requires ValidConfig(c) && Reaches(c, s0, acts, s, q)
    ensures Course(c, s0, acts, s, q, true, true)
  {
    LookAtRun(c, s0, acts, s, q);
    RingRefinesFifo(c, s0, acts);
    LimitedIsCareful(c, s0, acts);
  }

  /** What a header holds after it was written for `size` bytes and committed. */
  lemma CommittedHeader(l: Layout, mem: seq<byte>, pos: nat, size: nat)
    requires ValidLayout(l) && |mem| == l.dataSize && pos % 8 == 0
    ensures var (o, w) := (Offset(l, pos), BusyHeader(size));
      var busy := StoreWord(mem, o, w);
      && LoadWord(busy, o) == w && !IsDiscarded(w)
      && LoadWord(StoreWord(busy, o, CommitHeader(w)), o) == size % U32
      && !IsBusy(size % U32) && !IsDiscarded(size % U32)
  {
    LayoutFacts(l);
    var o, w := Offset(l, pos), BusyHeader(size);
    StoreWordEffect(l, mem, pos, w, pos);
    LoadWordAt(l, StoreWord(mem, o, w), pos, w);
    HeaderStates(size % U32);
    StoreWordEffect(l, StoreWord(mem, o, w), pos, size % U32, pos);
    LoadWordAt(l, StoreWord(StoreWord(mem, o, w), o, size % U32), pos, size % U32);
  }

  /** `reserve` from the space check on, whatever the check made of the size. */
  lemma TakenRun(c: Config, s0: State, acts: seq<Action>, s: State, q: F.Queue, p: nat, careful: bool)
    returns (acts': seq<Action>, s': State, q': F.Queue)
    requires ValidConfig(c) && Course(c, s0, acts, s, q, careful, true)
    requires Enabled(c, s, WriteHeader(p)) && (careful ==> SumFits(s, WriteHeader(p)))
    ensures acts' == acts + [WriteHeader(p), Publish(p), Unlock(p)]
    ensures Course(c, s0, acts', s', q', careful, true)
    ensures var Checking(size, _, pos) := Pc(s, p);
      && Pc(s', p) == Filling(size, pos) && q' == F.Record(q, F.Reserve(p, size))
      && s'.mem == StoreWord(s.mem, Offset(c.layout, pos), BusyHeader(size)) && s'.prod == NextPos(size, pos)
    ensures s'.cons == s.cons && s'.consumer == s.consumer
  {
    acts', s', q' := Next(c, s0, acts, s, q, WriteHeader(p), careful);
    acts', s', q' := Next(c, s0, acts', s', q', Publish(p), careful);
    acts', s', q' := Next(c, s0, acts', s', q', Unlock(p), careful);
  }

  /** The drop of a buffer whose header bears no discard mark. */
  lemma GivenRun(c: Config, s0: State, acts: seq<Action>, s: State, q: F.Queue, p: nat, careful: bool)
    returns (acts': seq<Action>, s': State, q': F.Queue)
    requires ValidConfig(c) && Course(c, s0, acts, s, q, careful, true)
    requires Pc(s, p).Filling? && F.OwnsPending(q, p) && !IsDiscarded(Header(c, s, Pc(s, p).pos))
    ensures acts' == acts + [DropCheck(p), LoadCommit(p), StoreCommit(p)]
    ensures Course(c, s0, acts', s', q', careful, true)
    ensures var pos := Pc(s, p).pos;
      s'.mem == StoreWord(s.mem, Offset(c.layout, pos), CommitHeader(Header(c, s, pos)))
    ensures s'.cons == s.cons && s'.consumer == s.consumer && s'.prod == s.prod && q' == F.Record(q, F.Commit(p))
  {
    acts', s', q' := Next(c, s0, acts, s, q, DropCheck(p), careful);
    acts', s', q' := Next(c, s0, acts', s', q', LoadCommit(p), careful);
    acts', s', q' := Next(c, s0, acts', s', q', StoreCommit(p), careful);
  }

  lemma IdlingFacts(c: Config, s0: State, acts: seq<Action>, s: State, q: F.Queue)
    requires ValidConfig(c) && Reaches(c, s0, acts, s, q) && Idling(s, q)
    ensures |s.mem| == c.layout.dataSize && s.prod % 8 == 0 && s.prod < U64 && !q.holding
  {
    ReachedInv(c, s0, acts, s, q);
    LookAtLog(c.layout.dataSize, s.prod, s.cons, q);
  }

  /** The first half of `reserve`, up to the space check. */
  lemma LockedCourse(c: Config, s0: State, acts: seq<Action>, s: State, q: F.Queue, p: nat, size: nat)
    returns (acts': seq<Action>, s': State)
    requires ValidConfig(c) && Reaches(c, s0, acts, s, q) && !s.lock && Pc(s, p).Idle? && size < U64
    ensures acts' == acts + [BeginReserve(p, size), TryLock(p, false), ReadProducer(p)]
    ensures Course(c, s0, acts', s', q, true, true) && Pc(s', p) == Checking(size, s.cons, s.prod)
    ensures s'.mem == s.mem && s'.cons == s.cons && s'.consumer == s.consumer
  {
    acts', s' := LockRun(c, s0, acts, s, q, p, size);
    ReachedCourse(c, s0, acts', s', q);
  }

  lemma LessCareful(c: Config, s0: State, acts: seq<Action>, s: State, q: F.Queue, careful: bool)
    requires ValidConfig(c) && Course(c, s0, acts, s, q, true, true)
    ensures Course(c, s0, acts, s, q, careful, true)
  {
    LookAtCourse(c, s0, acts, s, q, true, true);
  }

  /** An accepted attempt, its buffer dropped at once. */
  lemma UsedRun(c: Config, s0: State, acts: seq<Action>, s: State, q: F.Queue, p: nat, size: nat)
    returns (acts': seq<Action>, s': State, q': F.Queue)
    requires ValidConfig(c) && Reaches(c, s0, acts, s, q) && Idling(s, q) && Pc(s, p).Idle? && size < U64
    requires !NoRoom(c, size, s.cons, s.prod)
    ensures acts' == acts + Used(p, size)
    ensures Course(c, s0, acts', s', q', s.prod + TotalSize(size) < U64, true)
    ensures s'.consumer == s.consumer && s'.prod == NextPos(size, s.prod)
    ensures s'.cons == s.cons && Header(c, s', s.cons) == size % U32
    ensures !q'.holding && q'.head == q.head && q'.log == q.log + [F.Reservation(q.tail, size, F.Committed, map[])]
  {
    IdlingFacts(c, s0, acts, s, q);
    CommittedHeader(c.layout, s.mem, s.prod, size);
    var careful := s.prod + TotalSize(size) < U64;
    acts', s' := LockedCourse(c, s0, acts, s, q, p, size);
    LessCareful(c, s0, acts', s', q, careful);
    acts', s', q' := TakenRun(c, s0, acts', s', q, p, careful);
    acts', s', q' := GivenRun(c, s0, acts', s', q', p, careful);
  }

  /** The consumer is handed the record whole exactly if its length fits the header. */
  lemma ReadAllowedIff(c: Config, s: State, q: F.Queue)
    requires ValidConfig(c) && s.consumer == SawRecord && !q.holding && F.HeadIs(q, F.Committed)
    requires q.log[q.head].written == map[] && Header(c, s, s.cons) == q.log[q.head].size % U32
    ensures F.Allowed(q, Emit(c, s, ReadHeader)) <==> q.log[q.head].size < U32
  {
    var size := q.log[q.head].size;
    HeaderStates(size % U32);
    assert Emit(c, s, ReadHeader) == F.Deliver(Payload(c, s, size % U32));
  }

  /** The consumer's look at what such an attempt left. */
  lemma LookedRun(c: Config, s0: State, acts: seq<Action>, s: State, q: F.Queue, careful: bool)
    returns (acts': seq<Action>, s': State, q': F.Queue)
    requires ValidConfig(c) && Course(c, s0, acts, s, q, careful, true)
    requires (s.consumer.Ready? || s.consumer.Looping?) && !q.holding && F.HeadIs(q, F.Committed)
    requires q.log[q.head].written == map[] && Header(c, s, s.cons) == q.log[q.head].size % U32
    ensures acts' == acts + if s.prod > s.cons then [ReadPositions, ReadHeader] else [ReadPositions]
    ensures Course(c, s0, acts', s', q', careful, s.prod > s.cons && q.log[q.head].size < U32)
  {
    acts', s', q' := Next(c, s0, acts, s, q, ReadPositions, careful);
    if s.prod > s.cons {
      ReadAllowedIff(c, s', q');
      acts', s', q' := Next(c, s0, acts', s', q', ReadHeader, careful);
    }
  }

  lemma AttemptRun(c: Config, s0: State, acts: seq<Action>, s: State, q: F.Queue, p: nat, size: nat)
    returns (acts': seq<Action>, s': State, q': F.Queue)
    requires ValidConfig(c) && Reaches(c, s0, acts, s, q) && Idling(s, q) && Pc(s, p).Idle? && size < U64
    ensures acts' == acts + Attempt(c, s, p, size)
    ensures var (refused, fits) := (NoRoom(c, size, s.cons, s.prod), s.prod + TotalSize(size) < U64);
      Course(c, s0, acts', s', q', refused || fits,
             refused || (NextPos(size, s.prod) > s.cons && size < U32))
  {
    if NoRoom(c, size, s.cons, s.prod) {
      acts', s' := LockedCourse(c, s0, acts, s, q, p, size);
      acts', s', q' := Next(c, s0, acts', s', q, Refuse(p), true);
    } else {
      acts', s', q' := UsedRun(c, s0, acts, s, q, p, size);
      acts', s', q' := LookedRun(c, s0, acts', s', q', s.prod + TotalSize(size) < U64);
    }
  }

  /** For a length that fits its header the position moves forward exactly if it does not wrap. */
  lemma SumWrapsIff(pos: nat, size: nat)
    requires size < U64 && pos < U64
    ensures pos + TotalSize(size) < U64 ==> NextPos(size, pos) > pos
    ensures size < U32 && NextPos(size, pos) > pos ==> pos + TotalSize(size) < U64
  {
    OutstandingWraps(size, 0, pos);
  }

  /** From any idle ring, with an attempt of any size: what follows is a run of the
      queue if and only if the attempt is refused, or its length fits the header
      and the position behind it is below 2^64. */
  lemma AttemptIsSafeIff(c: Config, s0: State, acts: seq<Action>, s: State, q: F.Queue, p: nat, size: nat)
    requires ValidConfig(c) && Reaches(c, s0, acts, s, q) && Idling(s, q) && Pc(s, p).Idle? && size < U64
    ensures var acts' := acts + Attempt(c, s, p, size);
      && Run(c, s0, acts')
      && (NoRoom(c, size, s.cons, s.prod) || s.prod + TotalSize(size) < U64 ==> CarefulRun(c, s0, acts'))
      && (F.FifoTrace(Trace(c, s0, acts'))
          <==> NoRoom(c, size, s.cons, s.prod) || (size < U32 && s.prod + TotalSize(size) < U64))
  {
    IdlingFacts(c, s0, acts, s, q);
    SumWrapsIff(s.prod, size);
    var refused, fits := NoRoom(c, size, s.cons, s.prod), s.prod + TotalSize(size) < U64;
    var acts', s', q' := AttemptRun(c, s0, acts, s, q, p, size);
    LookAtCourse(c, s0, acts', s', q', refused || fits, refused || (size < U32 && fits));
  }

  /** Nothing has happened yet. */
  lemma FreshIsIdling(c: Config, s0: State, p: nat)
    requires ValidConfig(c) && Init(c, s0)
    ensures Reaches(c, s0, [], s0, F.EmptyQueue) && Idling(s0, F.EmptyQueue) && Pc(s0, p).Idle?
  {
    Start(c, s0);
  }

  lemma WrappedTotal(size: nat)
    requires size < U64 <= TotalSize(size)
    ensures Total64(size) in {0, 8} && Outstanding(size, 0, 0) == Total64(size)
  {
    TotalWraps(size);
    assert TotalSize(size) == U64 || TotalSize(size) == U64 + 8;
  }

  /** In every ring, an attempt whose total size wraps, such as one for 2^64 - 1
      bytes, is accepted as if it were for next to nothing, and breaks the queue. */
  lemma WrappedTotalBreaksFifo(c: Config, s0: State, size: nat) returns (acts: seq<Action>)
    requires ValidConfig(c) && Init(c, s0) && size < U64 <= TotalSize(size)
    ensures Run(c, s0, acts) && !F.FifoTrace(Trace(c, s0, acts)) && BeginReserve(0, size) in acts
    ensures Total64(size) in {0, 8} && !NoRoom(c, size, 0, 0) && Lacks(c, size, 0, 0)
  {
    LayoutFacts(c.layout);
    WrappedTotal(size);
    FreshIsIdling(c, s0, 0);
    AttemptIsSafeIff(c, s0, [], s0, F.EmptyQueue, 0, size);
    acts := [] + Attempt(c, s0, 0, size);
    assert acts[0] == BeginReserve(0, size);
  }

  /** Any record too long for its header that finds room reaches the consumer cut short. */
  lemma OverlongRecordBreaksFifo(c: Config, s0: State, size: nat) returns (acts: seq<Action>)
    requires ValidConfig(c) && Init(c, s0) && U32 <= size && TotalSize(size) < c.layout.dataSize
    ensures CarefulRun(c, s0, acts) && !F.FifoTrace(Trace(c, s0, acts)) && BeginReserve(0, size) in acts
  {
    SumFits64(size, 0, 0);
    FreshIsIdling(c, s0, 0);
    AttemptIsSafeIff(c, s0, [], s0, F.EmptyQueue, 0, size);
    acts := [] + Attempt(c, s0, 0, size);
    assert acts[0] == BeginReserve(0, size);
  }

  ghost predicate CarefulRunsAreFifo(c: Config)
    requires ValidConfig(c)
  {
    forall s0: State, acts: seq<Action> | CarefulRun(c, s0, acts) :: F.FifoTrace(Trace(c, s0, acts))
  }

  /** As long as positions stay below 2^64 and drops are timely, the ring is a queue in
      every run if and only if it has at most 2^32 bytes; larger ones depend on their callers. */
  lemma LengthsAreSafeIff(c: Config)
    requires ValidConfig(c)
    ensures CarefulRunsAreFifo(c) <==> c.layout.dataSize <= U32
  {
    if c.layout.dataSize <= U32 {
      forall s0: State, acts: seq<Action> | CarefulRun(c, s0, acts) ensures F.FifoTrace(Trace(c, s0, acts)) {
        CarefulRunsAreLimited(c, s0, acts);
        RingRefinesFifo(c, s0, acts);
      }
    } else {
      LayoutFacts(c.layout);
      var s0 := State(seq<byte>(c.layout.dataSize, i => 0), 0, 0, false, 0, map[], Ready(false));
      var acts := OverlongRecordBreaksFifo(c, s0, U32);
    }
  }
}
