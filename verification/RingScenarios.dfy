/** Building runs of the ring buffer, and the run that shows that wakeups have to be forced. */
module RingScenarios {
  import opened Words
  import opened RingMemory
  import opened RingProtocol
  import opened RingSafety
  import opened RingGuarantees
  import F = FifoQueue

  // --------------------------------------------------------- building runs

  ghost predicate LeadsTo(c: Config, s0: State, acts: seq<Action>, s: State, q: F.Queue)
    requires ValidConfig(c)
  {
    LimitedRun(c, s0, acts) && After(c, s0, acts) == s && QueueAfter(c, s0, acts) == q
  }

  /** A limited run and where it leads, folded like the invariant: it is looked
      at only where `LookAtRun` is called. */
  ghost predicate Reaches(c: Config, s0: State, acts: seq<Action>, s: State, q: F.Queue)
    requires ValidConfig(c)
  {
    forall k: nat {:trigger Looking(k)} | Looking(k) :: LeadsTo(c, s0, acts, s, q)
  }

  lemma LookAtRun(c: Config, s0: State, acts: seq<Action>, s: State, q: F.Queue)
    requires ValidConfig(c) && Reaches(c, s0, acts, s, q)
    ensures LeadsTo(c, s0, acts, s, q)
  {
    assert Looking(0);
  }

  lemma ReachedInv(c: Config, s0: State, acts: seq<Action>, s: State, q: F.Queue)
    requires ValidConfig(c) && Reaches(c, s0, acts, s, q)
    ensures Inv(c, s, q)
  {
    LookAtRun(c, s0, acts, s, q);
    RingRefinesFifo(c, s0, acts);
  }

  lemma ExtendRun(c: Config, s0: State, acts: seq<Action>, a: Action)
    requires ValidConfig(c) && Run(c, s0, acts) && Enabled(c, After(c, s0, acts), a)
    ensures Run(c, s0, acts + [a]) && After(c, s0, acts + [a]) == Step(c, After(c, s0, acts), a)
  {
    assert (acts + [a])[..|acts|] == acts;
  }

  lemma ExtendTrace(c: Config, s0: State, acts: seq<Action>, a: Action)
    requires ValidConfig(c) && Run(c, s0, acts) && Enabled(c, After(c, s0, acts), a) && Run(c, s0, acts + [a])
    ensures Trace(c, s0, acts + [a]) == Trace(c, s0, acts) + [Emit(c, After(c, s0, acts), a)]
  {
    assert (acts + [a])[..|acts|] == acts;
  }

  lemma ObserveMore(es: seq<F.Event>, e: F.Event)
    ensures F.Observe(es + [e]) == F.Record(F.Observe(es), e)
    ensures F.FifoTrace(es + [e]) <==> F.FifoTrace(es) && F.Allowed(F.Observe(es), e)
  {
    assert (es + [e])[..|es|] == es;
  }

  /** One more action of a run. */
  lemma Extend(c: Config, s0: State, acts: seq<Action>, s: State, q: F.Queue, a: Action)
    requires ValidConfig(c) && Run(c, s0, acts) && After(c, s0, acts) == s && QueueAfter(c, s0, acts) == q
    requires Enabled(c, s, a)
    ensures Run(c, s0, acts + [a]) && After(c, s0, acts + [a]) == Step(c, s, a)
    ensures QueueAfter(c, s0, acts + [a]) == F.Record(q, Emit(c, s, a))
    ensures F.FifoTrace(Trace(c, s0, acts + [a])) <==> F.FifoTrace(Trace(c, s0, acts)) && F.Allowed(q, Emit(c, s, a))
  {
    ExtendRun(c, s0, acts, a);
    ExtendTrace(c, s0, acts, a);
    ObserveMore(Trace(c, s0, acts), Emit(c, s, a));
  }

  lemma ExtendLimited(c: Config, s0: State, acts: seq<Action>, a: Action)
    requires ValidConfig(c) && Run(c, s0, acts + [a])
    ensures LimitedRun(c, s0, acts) && WithinLimits(c, After(c, s0, acts), a) ==> LimitedRun(c, s0, acts + [a])
    ensures CarefulRun(c, s0, acts) && Careful(c, After(c, s0, acts), a) ==> CarefulRun(c, s0, acts + [a])
  {
    assert (acts + [a])[..|acts|] == acts;
  }

  lemma Do(c: Config, s0: State, acts: seq<Action>, s: State, q: F.Queue, a: Action)
    returns (acts': seq<Action>, s': State, q': F.Queue)
    requires ValidConfig(c) && Reaches(c, s0, acts, s, q) && Enabled(c, s, a) && WithinLimits(c, s, a)
    ensures Reaches(c, s0, acts', s', q') && s' == Step(c, s, a) && q' == F.Record(q, Emit(c, s, a))
    ensures acts' == acts + [a]
  {
    LookAtRun(c, s0, acts, s, q);
    Extend(c, s0, acts, s, q, a);
    ExtendLimited(c, s0, acts, a);
    acts', s', q' := acts + [a], Step(c, s, a), F.Record(q, Emit(c, s, a));
  }

  lemma Start(c: Config, s0: State)
    requires ValidConfig(c) && Init(c, s0)
    ensures Reaches(c, s0, [], s0, F.EmptyQueue)
  {
  }

  ghost predicate SameElsewhere(s: State, s': State, p: nat) {
    && (forall o: nat | o != p :: Pc(s', o) == Pc(s, o))
    && s'.cons == s.cons && s'.consumer == s.consumer && s'.eventfd == s.eventfd
  }

  /** The first half of a successful `reserve`, up to the space check. */
  lemma LockRun(c: Config, s0: State, acts: seq<Action>, s: State, q: F.Queue, p: nat, size: nat)
    returns (acts': seq<Action>, s': State)
    requires ValidConfig(c) && Reaches(c, s0, acts, s, q) && Pc(s, p).Idle? && !s.lock && size < U64
    ensures Reaches(c, s0, acts', s', q) && SameElsewhere(s, s', p) && s'.lock && s'.prod == s.prod
    ensures acts' == acts + [BeginReserve(p, size), TryLock(p, false), ReadProducer(p)] && s'.mem == s.mem
    ensures Pc(s', p) == Checking(size, s.cons, s.prod)
  {
    var q';
    acts', s', q' := Do(c, s0, acts, s, q, BeginReserve(p, size));
    acts', s', q' := Do(c, s0, acts', s', q, TryLock(p, false));
    acts', s', q' := Do(c, s0, acts', s', q, ReadProducer(p));
  }

  /** A whole successful `reserve`. */
  lemma ReserveRun(c: Config, s0: State, acts: seq<Action>, s: State, q: F.Queue, p: nat, size: nat)
    returns (acts': seq<Action>, s': State, q': F.Queue)
    requires ValidConfig(c) && Reaches(c, s0, acts, s, q)
    requires Pc(s, p).Idle? && !s.lock && size < U32 && !NoRoom(c, size, s.cons, s.prod)
    requires s.prod + TotalSize(size) < U64
    ensures Reaches(c, s0, acts', s', q') && q' == F.Record(q, F.Reserve(p, size))
    ensures SameElsewhere(s, s', p) && !s'.lock && s'.prod == s.prod + TotalSize(size)
    ensures Pc(s', p) == Filling(size, s.prod)
  {
    SumFits64(size, 0, s.prod);
    acts', s' := LockRun(c, s0, acts, s, q, p, size);
    acts', s', q' := Do(c, s0, acts', s', q, WriteHeader(p));
    acts', s', q' := Do(c, s0, acts', s', q', Publish(p));
    acts', s', q' := Do(c, s0, acts', s', q', Unlock(p));
  }

  /** Dropping a filled buffer: its record becomes visible. */
  lemma CommitRun(c: Config, s0: State, acts: seq<Action>, s: State, q: F.Queue, p: nat)
    returns (acts': seq<Action>, s': State, q': F.Queue)
    requires ValidConfig(c) && Reaches(c, s0, acts, s, q) && Pc(s, p).Filling?
    ensures Reaches(c, s0, acts', s', q') && q' == F.Record(q, F.Commit(p))
    ensures SameElsewhere(s, s', p) && s'.lock == s.lock && s'.prod == s.prod && Pc(s', p) == Notifying
  {
    ReachedInv(c, s0, acts, s, q);
    CommitSteps(c, s, q, p);
    acts', s', q' := Do(c, s0, acts, s, q, DropCheck(p));
    acts', s', q' := Do(c, s0, acts', s', q, LoadCommit(p));
    acts', s', q' := Do(c, s0, acts', s', q, StoreCommit(p));
  }

  lemma CommitSteps(c: Config, s: State, q: F.Queue, p: nat)
    requires ValidConfig(c) && Inv(c, s, q) && Pc(s, p).Filling?
    ensures Enabled(c, s, DropCheck(p)) && Emit(c, s, DropCheck(p)) == F.Silent
    ensures var s1 := Step(c, s, DropCheck(p));
      Pc(s1, p).Dropping? && !Pc(s1, p).rejected
    ensures var s2 := Step(c, Step(c, s, DropCheck(p)), LoadCommit(p));
      var s3 := Step(c, s2, StoreCommit(p));
      && Emit(c, s2, StoreCommit(p)) == F.Commit(p)
      && SameElsewhere(s, s3, p) && s3.lock == s.lock && s3.prod == s.prod && Pc(s3, p) == Notifying
  {
    PcOf(c, s, q, p);
    OwnedHeader(c, s, q, p);
    HeaderStates(Pc(s, p).size);
  }

  /** What `consume` makes of a finished head record. */
  lemma LookAtHead(c: Config, s: State, q: F.Queue)
    requires ValidConfig(c) && Inv(c, s, q) && s.consumer == SawRecord && q.log[q.head].status != F.Pending
    ensures var r := q.log[q.head];
      var (s', q') := (Step(c, s, ReadHeader), F.Record(q, Emit(c, s, ReadHeader)));
      && s' == s.(consumer := if r.status == F.Discarded then Skipping(EndOf(r)) else Holding(r.size, EndOf(r)))
      && (if r.status == F.Discarded then q' == q else q' == q.(holding := true, out := q'.out))
  {
    HeadHeader(c, s, q);
    EntryFacts(c.layout.dataSize, s.prod, s.cons, q, q.head);
    SumFits64(q.log[q.head].size, 0, s.cons);
  }

  lemma RecordIsThere(c: Config, s: State, q: F.Queue)
    requires ValidConfig(c) && Inv(c, s, q) && q.head < |q.log|
    ensures s.cons < s.prod
  {
    EntryFacts(c.layout.dataSize, s.prod, s.cons, q, q.head);
  }

  /** `consume` on a finished head record, up to the point where it is recognised. */
  lemma LookRun(c: Config, s0: State, acts: seq<Action>, s: State, q: F.Queue)
    returns (acts': seq<Action>, s': State, q': F.Queue)
    requires ValidConfig(c) && Reaches(c, s0, acts, s, q)
    requires (s.consumer.Ready? || s.consumer.Looping?) && q.head < |q.log| && q.log[q.head].status != F.Pending
    ensures Reaches(c, s0, acts', s', q')
    ensures var r := q.log[q.head];
      && s' == s.(consumer := if r.status == F.Discarded then Skipping(EndOf(r)) else Holding(r.size, EndOf(r)))
      && (if r.status == F.Discarded then q' == q else q' == q.(holding := true, out := q'.out))
  {
    ReachedInv(c, s0, acts, s, q);
    RecordIsThere(c, s, q);
    acts', s', q' := Do(c, s0, acts, s, q, ReadPositions);
    assert s' == s.(consumer := SawRecord) && q' == q;
    ReachedInv(c, s0, acts', s', q);
    LookAtHead(c, s', q);
    acts', s', q' := Do(c, s0, acts', s', q, ReadHeader);
  }

  // ------------------------------------------------ forced wakeups are needed

  /** No limited run ends with the consumer asleep on a finished record while nobody is on its way to notify. */
  ghost predicate NeverLosesWakeups(c: Config)
    requires ValidConfig(c)
  {
    forall s0: State, acts: seq<Action> | LimitedRun(c, s0, acts) && Asleep(c, After(c, s0, acts)) ::
      exists p: nat :: OnItsWayToNotify(Pc(After(c, s0, acts), p))
  }

  lemma Sleep(c: Config, s0: State) returns (acts: seq<Action>, s: State)
    requires ValidConfig(c) && Init(c, s0)
    ensures Reaches(c, s0, acts, s, F.EmptyQueue) && s == s0.(consumer := Blocked(true))
  {
    var q;
    Start(c, s0);
    acts, s, q := Do(c, s0, [], s0, F.EmptyQueue, ReadPositions);
    acts, s, q := Do(c, s0, acts, s, q, Wait);
  }

  /** The consumer finds nothing and waits; then a producer finishes a record. */
  lemma SleepThenCommit(c: Config, p: nat, s0: State)
    returns (acts: seq<Action>, s: State, q: F.Queue)
    requires ValidConfig(c) && Init(c, s0)
    ensures Reaches(c, s0, acts, s, q) && s.consumer == Blocked(true) && s.eventfd == 0
    ensures Pc(s, p) == Notifying && forall o: nat | o != p :: Pc(s, o) == Idle
    ensures q.head == 0 && |q.log| == 1 && q.log[0].status == F.Committed
  {
    LayoutFacts(c.layout);
    acts, s := Sleep(c, s0);
    SumFits64(0, s.cons, s.prod);
    acts, s, q := ReserveRun(c, s0, acts, s, F.EmptyQueue, p, 0);
    assert q.owner[p] == 0 && |q.log| == 1;
    acts, s, q := CommitRun(c, s0, acts, s, q, p);
  }

  /** A producer that does not force wakeups finishes a record behind a waiting consumer's back. */
  lemma UnforcedProducerLosesWakeup(c: Config, p: nat, s0: State) returns (acts: seq<Action>)
    requires ValidConfig(c) && p !in c.forced && Init(c, s0)
    ensures LimitedRun(c, s0, acts) && Asleep(c, After(c, s0, acts))
    ensures forall o: nat :: !OnItsWayToNotify(Pc(After(c, s0, acts), o))
  {
    var s, q, sBefore;
    acts, sBefore, q := SleepThenCommit(c, p, s0);
    acts, s, q := Do(c, s0, acts, sBefore, q, Notify(p));
    forall o: nat ensures Pc(s, o) == Idle {
      assert o != p ==> Pc(s, o) == Pc(sBefore, o);
    }
    ReachedInv(c, s0, acts, s, q);
    LookAtRun(c, s0, acts, s, q);
    HeadHeader(c, s, q);
    RecordIsThere(c, s, q);
  }

  lemma NoWakeupIsLostIff(c: Config)
    requires ValidConfig(c)
    ensures NeverLosesWakeups(c) <==> AllForced(c)
  {
    if AllForced(c) {
      forall s0: State, acts: seq<Action> | LimitedRun(c, s0, acts) && Asleep(c, After(c, s0, acts))
        ensures exists p: nat :: OnItsWayToNotify(Pc(After(c, s0, acts), p))
      {
        NoLostWakeup(c, s0, acts);
      }
    } else {
      var p: nat :| p !in c.forced;
      var s0 := State(seq<byte>(c.layout.dataSize, i => 0), 0, 0, false, 0, map[], Ready(false));
      var acts := UnforcedProducerLosesWakeup(c, p, s0);
    }
  }
}
