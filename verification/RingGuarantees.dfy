/** What a user of the ring buffer relies on, in every reachable state. */
module RingGuarantees {
  import opened Words
  import opened RingMemory
  import opened RingProtocol
  import opened RingSafety
  import F = FifoQueue

  // ------------------------------------------------------------- exclusiveness

  /** The slots of the ring that reservation `r` covers. */
  ghost predicate Covers(n: nat, r: F.Reservation, slot: nat)
    requires n > 0
  {
    exists x: nat :: r.pos <= x < EndOf(r) && x % n == slot
  }

  lemma NothingShared(c: Config, s: State, q: F.Queue, i: nat, j: nat, slot: nat)
    requires ValidConfig(c) && LogInv(c.layout.dataSize, s.prod, s.cons, q) && q.head <= i < j < |q.log|
    ensures !(Covers(c.layout.dataSize, q.log[i], slot) && Covers(c.layout.dataSize, q.log[j], slot))
  {
    var n := c.layout.dataSize;
    if Covers(n, q.log[i], slot) && Covers(n, q.log[j], slot) {
      var x: nat :| q.log[i].pos <= x < EndOf(q.log[i]) && x % n == slot;
      var y: nat :| q.log[j].pos <= y < EndOf(q.log[j]) && y % n == slot;
      PendingIsLive(c, s, q, i);
      LookAtLog(n, s.prod, s.cons, q);
      SlotsDistinct(x, y, n);
    }
  }

  /** Although the consumer position used for the space check is stale, no two
      unconsumed records share a byte of the ring, and at most one producer is
      between lock and unlock. */
  lemma OwnershipIsExclusive(c: Config, s0: State, acts: seq<Action>)
    requires ValidConfig(c) && LimitedRun(c, s0, acts)
    ensures var (s, q) := (After(c, s0, acts), QueueAfter(c, s0, acts));
      && (forall i: nat, j: nat, slot: nat | q.head <= i < j < |q.log| ::
            !(Covers(c.layout.dataSize, q.log[i], slot) && Covers(c.layout.dataSize, q.log[j], slot)))
      && (forall p: nat, p': nat | HasLock(Pc(s, p)) && HasLock(Pc(s, p')) :: p == p')
      && (forall p: nat | Pc(s, p).Checking? :: Pc(s, p).seen <= s.cons <= Pc(s, p).pos)
  {
    RingRefinesFifo(c, s0, acts);
    var n, s, q := c.layout.dataSize, After(c, s0, acts), QueueAfter(c, s0, acts);
    LookAtLock(s);
    forall i: nat, j: nat, slot: nat
        | q.head <= i < j < |q.log| && Covers(n, q.log[i], slot) && Covers(n, q.log[j], slot)
      ensures false
    {
      NothingShared(c, s, q, i, j, slot);
    }
    forall p: nat | Pc(s, p).Checking? ensures Pc(s, p).seen <= s.cons <= Pc(s, p).pos {
      SpaceCheckNeverUnderflows(c, s, q, p);
    }
  }

  predicate ActsFor(a: Action, p: nat) {
    match a
    case NotifyByHand => false
    case ReadPositions => false
    case ReadHeader => false
    case AdvancePast => false
    case Peek => false
    case DropRecord => false
    case Wait => false
    case Wake => false
    case _ => a.p == p
  }

  /** Inside `reserve`, before anything was written. */
  predicate Attempting(pc: ProducerPc) {
    pc.Acquiring? || pc.Spinning? || pc.Locked? || pc.Checking?
  }

  ghost function StateAt(c: Config, s0: State, acts: seq<Action>, k: nat): State
    requires ValidConfig(c) && k <= |acts|
  {
    After(c, s0, acts[..k])
  }

  lemma {:induction false} RunPrefix(c: Config, s0: State, acts: seq<Action>, k: nat)
    requires ValidConfig(c) && Run(c, s0, acts) && k < |acts|
    ensures Run(c, s0, acts[..k]) && Enabled(c, StateAt(c, s0, acts, k), acts[k])
    ensures StateAt(c, s0, acts, k + 1) == Step(c, StateAt(c, s0, acts, k), acts[k])
  {
    if k == |acts| - 1 {
      assert acts[..k + 1] == acts;
    } else {
      RunPrefix(c, s0, acts[..|acts| - 1], k);
      assert acts[..|acts| - 1][..k] == acts[..k];
      assert acts[..|acts| - 1][..k + 1] == acts[..k + 1];
    }
  }

  lemma PcChangesOnlyByOwner(c: Config, s: State, a: Action, p: nat)
    requires ValidConfig(c) && Enabled(c, s, a) && !ActsFor(a, p)
    ensures Pc(Step(c, s, a), p) == Pc(s, p)
  {
  }

  /** An attempt that got past the space check ends only by notifying. */
  lemma {:induction false} PastTheCheck(c: Config, s0: State, acts: seq<Action>, p: nat, k: nat)
    requires ValidConfig(c) && Run(c, s0, acts) && k < |acts|
    requires forall j: nat | k <= j < |acts| :: !Pc(StateAt(c, s0, acts, j), p).Idle?
    requires !Attempting(Pc(StateAt(c, s0, acts, k), p))
    requires Pc(StateAt(c, s0, acts, |acts|), p).Idle?
    ensures acts[|acts| - 1] == Notify(p)
    decreases |acts| - k
  {
    RunPrefix(c, s0, acts, k);
    var s, a := StateAt(c, s0, acts, k), acts[k];
    if !ActsFor(a, p) { PcChangesOnlyByOwner(c, s, a, p); }
    if k + 1 < |acts| {
      PastTheCheck(c, s0, acts, p, k + 1);
    }
  }

  /** A `reserve` that gives up, on the lock or for lack of space, has changed
      no position and no byte: none of its own actions did. */
  lemma FailedReserveLeavesNoTrace(c: Config, s0: State, acts: seq<Action>, p: nat, m: nat, k: nat)
    requires ValidConfig(c) && Run(c, s0, acts) && m <= k < |acts|
    requires Pc(StateAt(c, s0, acts, m), p).Idle? && Pc(StateAt(c, s0, acts, |acts|), p).Idle?
    requires forall j: nat | m < j < |acts| :: !Pc(StateAt(c, s0, acts, j), p).Idle?
    requires acts[|acts| - 1] != Notify(p)
    requires ActsFor(acts[k], p)
    ensures var (s, s') := (StateAt(c, s0, acts, k), StateAt(c, s0, acts, k + 1));
      s'.mem == s.mem && s'.prod == s.prod && s'.cons == s.cons
  {
    RunPrefix(c, s0, acts, k);
    if k > m && !Attempting(Pc(StateAt(c, s0, acts, k), p)) {
      PastTheCheck(c, s0, acts, p, k);
      assert false;
    }
    if acts[k] == WriteHeader(p) {
      if k + 1 < |acts| { PastTheCheck(c, s0, acts, p, k + 1); }
      assert false;
    }
  }

  // ------------------------------------------------------------------- bounds

  /** A header access at `pos` is aligned and inside the first copy. */
  ghost predicate HeaderInside(l: Layout, pos: nat)
    requires l.dataSize > 0
  {
    Offset(l, pos) % 8 == 0 && Offset(l, pos) + HEADER_SIZE <= l.dataSize
  }

  /** A payload of `size` bytes behind the header at `pos` stays inside the two copies. */
  ghost predicate PayloadInside(l: Layout, pos: nat, size: nat)
    requires l.dataSize > 0
  {
    HeaderInside(l, pos) && Offset(l, pos) + HEADER_SIZE + size <= 2 * l.dataSize
  }

  lemma SmallRecordInside(l: Layout, pos: nat, size: nat)
    requires ValidLayout(l) && pos % 8 == 0 && TotalSize(size) < l.dataSize
    ensures PayloadInside(l, pos, size)
  {
    OffsetFacts(l, pos);
  }

  /** Every header access any enabled action makes stays inside the first copy,
      and every payload inside the two, provided the space check was right. */
  lemma AccessesStayInside(c: Config, s0: State, acts: seq<Action>, a: Action)
    requires ValidConfig(c) && LimitedRun(c, s0, acts) && Enabled(c, After(c, s0, acts), a)
    ensures var s := After(c, s0, acts);
      match a
      case WriteHeader(p) =>
        && HeaderInside(c.layout, Pc(s, p).pos)
        && (!Lacks(c, Pc(s, p).size, Pc(s, p).seen, Pc(s, p).pos) ==>
              PayloadInside(c.layout, Pc(s, p).pos, Pc(s, p).size))
      case Fill(p, i, _) => PayloadInside(c.layout, Pc(s, p).pos, Pc(s, p).size) && i < Pc(s, p).size
      case LoadDiscard(p) => HeaderInside(c.layout, Pc(s, p).pos)
      case StoreDiscard(p) => HeaderInside(c.layout, Pc(s, p).pos)
      case DropCheck(p) => HeaderInside(c.layout, Pc(s, p).pos)
      case LoadCommit(p) => HeaderInside(c.layout, Pc(s, p).pos)
      case StoreCommit(p) => HeaderInside(c.layout, Pc(s, p).pos)
      case ReadHeader =>
        HeaderInside(c.layout, s.cons)
        && (!IsBusy(Header(c, s, s.cons)) ==> PayloadInside(c.layout, s.cons, HeaderLen(Header(c, s, s.cons))))
      case Peek => PayloadInside(c.layout, s.cons, s.consumer.len)
      case _ => true
  {
    RingRefinesFifo(c, s0, acts);
    var s, q := After(c, s0, acts), QueueAfter(c, s0, acts);
    match a {
      case WriteHeader(p) => NewRecordInside(c, s, q, p);
      case Fill(p, _, _) => BufferInside(c, s, q, p);
      case LoadDiscard(p) => OwnHeaderInside(c, s, q, p);
      case StoreDiscard(p) => OwnHeaderInside(c, s, q, p);
      case DropCheck(p) => OwnHeaderInside(c, s, q, p);
      case LoadCommit(p) => OwnHeaderInside(c, s, q, p);
      case StoreCommit(p) => OwnHeaderInside(c, s, q, p);
      case ReadHeader => HeadInside(c, s, q);
      case Peek => HeadInside(c, s, q);
      case _ =>
    }
  }

  lemma NewRecordInside(c: Config, s: State, q: F.Queue, p: nat)
    requires ValidConfig(c) && Inv(c, s, q) && Enabled(c, s, WriteHeader(p))
    ensures HeaderInside(c.layout, Pc(s, p).pos)
    ensures !Lacks(c, Pc(s, p).size, Pc(s, p).seen, Pc(s, p).pos) ==>
      PayloadInside(c.layout, Pc(s, p).pos, Pc(s, p).size)
  {
    PcOf(c, s, q, p);
    LookAtLog(c.layout.dataSize, s.prod, s.cons, q);
    OffsetFacts(c.layout, Pc(s, p).pos);
    if !Lacks(c, Pc(s, p).size, Pc(s, p).seen, Pc(s, p).pos) {
      SmallRecordInside(c.layout, Pc(s, p).pos, Pc(s, p).size);
    }
  }

  /** Holding a buffer, or dropping it. */
  predicate HasPosition(pc: ProducerPc) {
    pc.Filling? || pc.Rejecting? || pc.Rejected? || pc.Dropping? || pc.Committing?
  }

  lemma OwnHeaderInside(c: Config, s: State, q: F.Queue, p: nat)
    requires ValidConfig(c) && Inv(c, s, q) && HasPosition(Pc(s, p))
    ensures HeaderInside(c.layout, Pc(s, p).pos)
  {
    PcOf(c, s, q, p);
    EntryFacts(c.layout.dataSize, s.prod, s.cons, q, q.owner[p]);
    OffsetFacts(c.layout, Pc(s, p).pos);
  }

  lemma BufferInside(c: Config, s: State, q: F.Queue, p: nat)
    requires ValidConfig(c) && Inv(c, s, q) && Pc(s, p).Filling?
    ensures PayloadInside(c.layout, Pc(s, p).pos, Pc(s, p).size)
  {
    PcOf(c, s, q, p);
    PendingAfterHead(c, s, q, q.owner[p]);
    PendingIsLive(c, s, q, q.owner[p]);
    EntryFacts(c.layout.dataSize, s.prod, s.cons, q, q.owner[p]);
    SmallRecordInside(c.layout, Pc(s, p).pos, Pc(s, p).size);
  }

  lemma HeadInside(c: Config, s: State, q: F.Queue)
    requires ValidConfig(c) && Inv(c, s, q) && q.head < |q.log|
    ensures PayloadInside(c.layout, s.cons, q.log[q.head].size)
    ensures HeaderLen(Header(c, s, s.cons)) == q.log[q.head].size
  {
    HeadHeader(c, s, q);
    EntryFacts(c.layout.dataSize, s.prod, s.cons, q, q.head);
    SmallRecordInside(c.layout, s.cons, q.log[q.head].size);
  }

  // ------------------------------------------------------------------ wakeups

  /** Between making its record visible and notifying the consumer. */
  predicate OnItsWayToNotify(pc: ProducerPc) { pc.Rejected? || pc.Notifying? }

  /** The consumer sleeps, or is about to, after being told there was nothing to read. */
  predicate Drained(pc: ConsumerPc) { pc == Ready(true) || pc == Blocked(true) }

  /** A finished record at the head, and a consumer nobody has woken. */
  predicate NeedsWakeup(s: State, q: F.Queue) {
    Drained(s.consumer) && q.head < |q.log| && q.log[q.head].status != F.Pending && s.eventfd == 0
  }

  ghost predicate WakeInv(s: State, q: F.Queue) {
    NeedsWakeup(s, q) ==> exists p: nat :: OnItsWayToNotify(Pc(s, p))
  }

  ghost predicate AllForced(c: Config) { forall p: nat :: p in c.forced }

  /** Only finishing the head record creates the need. */
  lemma NeedArises(c: Config, s: State, q: F.Queue, a: Action)
    requires ValidConfig(c) && Inv(c, s, q) && Enabled(c, s, a)
    requires !NeedsWakeup(s, q) && NeedsWakeup(Step(c, s, a), F.Record(q, Emit(c, s, a)))
    ensures a.StoreCommit? || a.StoreDiscard?
  {
    if OfConsumer(a) { ConsumerNeedsNothing(c, s, q, a); }
  }

  /** The consumer does not go to sleep on a finished record. */
  lemma ConsumerNeedsNothing(c: Config, s: State, q: F.Queue, a: Action)
    requires ValidConfig(c) && Inv(c, s, q) && Enabled(c, s, a) && OfConsumer(a)
    requires NeedsWakeup(Step(c, s, a), F.Record(q, Emit(c, s, a)))
    ensures NeedsWakeup(s, q)
  {
    if a.ReadHeader? { HeadHeader(c, s, q); }
    if q.head < |q.log| { EntryFacts(c.layout.dataSize, s.prod, s.cons, q, q.head); }
  }

  /** A producer on its way stays so until it notifies. */
  lemma StaysOnItsWay(c: Config, s: State, q: F.Queue, a: Action, p: nat)
    requires ValidConfig(c) && Inv(c, s, q) && Enabled(c, s, a) && WithinLimits(c, s, a)
    requires OnItsWayToNotify(Pc(s, p)) && a != Notify(p)
    ensures OnItsWayToNotify(Pc(Step(c, s, a), p))
  {
    if ActsFor(a, p) {
      if Pc(s, p).Rejected? { RejectedDropNotifies(c, s, q, p); }
    } else {
      PcChangesOnlyByOwner(c, s, a, p);
    }
  }

  lemma WakeStep(c: Config, s: State, q: F.Queue, a: Action)
    requires ValidConfig(c) && Inv(c, s, q) && Enabled(c, s, a) && WithinLimits(c, s, a)
    requires AllForced(c) && WakeInv(s, q)
    ensures WakeInv(Step(c, s, a), F.Record(q, Emit(c, s, a)))
  {
    var s', q' := Step(c, s, a), F.Record(q, Emit(c, s, a));
    if NeedsWakeup(s', q') {
      if NeedsWakeup(s, q) {
        var p: nat :| OnItsWayToNotify(Pc(s, p));
        StaysOnItsWay(c, s, q, a, p);
        assert OnItsWayToNotify(Pc(s', p));
      } else {
        NeedArises(c, s, q, a);
        assert OnItsWayToNotify(Pc(s', a.p));
      }
    }
  }

  lemma {:induction false} WakeInvariant(c: Config, s0: State, acts: seq<Action>)
    requires ValidConfig(c) && LimitedRun(c, s0, acts) && AllForced(c)
    ensures WakeInv(After(c, s0, acts), QueueAfter(c, s0, acts))
  {
    if acts != [] {
      var before, a := acts[..|acts| - 1], acts[|acts| - 1];
      WakeInvariant(c, s0, before);
      RingRefinesFifo(c, s0, before);
      assert Trace(c, s0, acts)[..|acts| - 1] == Trace(c, s0, before);
      WakeStep(c, After(c, s0, before), QueueAfter(c, s0, before), a);
    }
  }

  /** The consumer sleeps on a zero count while a finished record waits at the head. */
  ghost predicate Asleep(c: Config, s: State)
    requires ValidConfig(c)
  {
    && s.consumer == Blocked(true) && s.eventfd == 0
    && s.cons < s.prod && !IsBusy(Header(c, s, s.cons))
  }

  /** No wakeup is lost: if every producer forces wakeups, a consumer that
      found nothing and then waits sleeps on a finished record only while some
      producer is between finishing and notifying. */
  lemma NoLostWakeup(c: Config, s0: State, acts: seq<Action>)
    requires ValidConfig(c) && LimitedRun(c, s0, acts) && AllForced(c)
    requires Asleep(c, After(c, s0, acts))
    ensures exists p: nat :: OnItsWayToNotify(Pc(After(c, s0, acts), p))
  {
    RingRefinesFifo(c, s0, acts);
    WakeInvariant(c, s0, acts);
    var s, q := After(c, s0, acts), QueueAfter(c, s0, acts);
    assert q.head < |q.log|;
    HeadHeader(c, s, q);
  }
}
