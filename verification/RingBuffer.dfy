/** `Producer`, `Consumer` and the spinlock as code over shared memory. Run
    without interruption, each method amounts to the protocol's actions taken
    one after the other; ghost fields carry the program points and the queue. */
module RingBuffer {
  import opened Words
  import opened RingMemory
  import opened RingProtocol
  import opened RingSafety
  import F = FifoQueue

  // ------------------------------------------------------------- the spinlock

  // What one attempt meets: `held(t)` says whether the flag is set at its `t`-th
  // access, `weak(t)` whether the weak exchange then fails spuriously.

  /** Whether the `t`-th access is an exchange: the first is, and one after a look that found the flag clear. */
  predicate Exchanges(held: nat -> bool, t: nat) { t == 0 || (!Exchanges(held, t - 1) && !held(t - 1)) }

  predicate Takes(held: nat -> bool, weak: nat -> bool, t: nat) { Exchanges(held, t) && !held(t) && !weak(t) }

  /** An exchange that fails, or a look that finds the flag set. */
  predicate Fails(held: nat -> bool, weak: nat -> bool, t: nat) { held(t) || (Exchanges(held, t) && weak(t)) }

  function FailuresBefore(held: nat -> bool, weak: nat -> bool, t: nat): nat {
    if t == 0 then 0 else FailuresBefore(held, weak, t - 1) + if Fails(held, weak, t - 1) then 1 else 0
  }

  class Spinlock {
    var locked: bool

    constructor ()
      ensures !locked
    {
      locked := false;
    }

    /** `try_lock`, whatever others do to the flag meanwhile: it takes the flag at
        its first exchange that succeeds, unless failed exchanges and looks that
        found it set number 100 000 before. */
    method TryLock(held: nat -> bool, weak: nat -> bool) returns (ok: bool, accesses: nat)
      modifies this
      ensures forall t: nat | t < accesses :: !Takes(held, weak, t)
      ensures if ok then Takes(held, weak, accesses) && FailuresBefore(held, weak, accesses) < 100_000
              else FailuresBefore(held, weak, accesses) == 100_000
      ensures locked == (old(locked) || ok)
    {
      var iterations: nat := 0;
      accesses := 0;
      while true
        invariant Exchanges(held, accesses) && forall t: nat | t < accesses :: !Takes(held, weak, t)
        invariant locked == old(locked) && iterations == FailuresBefore(held, weak, accesses) < SPIN_LIMIT
        decreases SPIN_LIMIT - iterations
      {
        if !held(accesses) && !weak(accesses) {
          locked := true;
          return true, accesses;
        }
        iterations, accesses := iterations + 1, accesses + 1;
        if iterations >= SPIN_LIMIT {
          return false, accesses;
        }
        while held(accesses)
          invariant !Exchanges(held, accesses) && forall t: nat | t < accesses :: !Takes(held, weak, t)
          invariant locked == old(locked) && iterations == FailuresBefore(held, weak, accesses) < SPIN_LIMIT
          decreases SPIN_LIMIT - iterations
        {
          iterations, accesses := iterations + 1, accesses + 1;
          if iterations >= SPIN_LIMIT {
            return false, accesses;
          }
        }
        accesses := accesses + 1;
      }
    }

    method Unlock()
      modifies this
      ensures !locked
    {
      locked := false;
    }
  }

  /** Nobody else runs, and the first `weakFailures` exchanges of a clear flag fail spuriously. */
  ghost predicate Alone(held: nat -> bool, weak: nat -> bool, flag: bool, weakFailures: nat) {
    (forall t: nat :: held(t) == flag) && (forall t: nat :: weak(t) == (t < 2 * weakFailures))
  }

  lemma {:induction false} FailuresAlone(held: nat -> bool, weak: nat -> bool, weakFailures: nat, t: nat)
    requires Alone(held, weak, false, weakFailures) && t <= 2 * weakFailures
    ensures Exchanges(held, t) <==> t % 2 == 0
    ensures FailuresBefore(held, weak, t) == (t + 1) / 2
  {
    if t > 0 { FailuresAlone(held, weak, weakFailures, t - 1); }
  }

  /** Then the attempt succeeds exactly if the flag is clear and these do not use up the budget. */
  lemma Uncontended(held: nat -> bool, weak: nat -> bool, flag: bool, weakFailures: nat, ok: bool, accesses: nat)
    requires Alone(held, weak, flag, weakFailures)
    requires forall t: nat | t < accesses :: !Takes(held, weak, t)
    requires if ok then Takes(held, weak, accesses) && FailuresBefore(held, weak, accesses) < SPIN_LIMIT
             else FailuresBefore(held, weak, accesses) == SPIN_LIMIT
    ensures ok <==> !flag && weakFailures < SPIN_LIMIT
  {
    if !flag {
      FailuresAlone(held, weak, weakFailures, 2 * weakFailures);
      assert Takes(held, weak, 2 * weakFailures);
      assert accesses <= 2 * weakFailures;
      FailuresAlone(held, weak, weakFailures, accesses);
    }
  }

  // ------------------------------------------ whole calls as protocol actions

  /** A call by `p` that left the consumer alone. */
  ghost predicate ProducerCall(s: State, s': State, p: nat, pc': ProducerPc) {
    && s'.cons == s.cons && s'.consumer == s.consumer && Pc(s', p) == pc'
    && forall o: nat | o != p :: Pc(s', o) == Pc(s, o)
  }

  lemma LockedCheck(c: Config, s: State, q: F.Queue, p: nat, size: nat) returns (s': State)
    requires ValidConfig(c) && Inv(c, s, q) && Pc(s, p).Idle? && !s.lock
    ensures Inv(c, s', q) && ProducerCall(s, s', p, Checking(size, s.cons, s.prod))
    ensures s'.mem == s.mem && s'.prod == s.prod && s'.eventfd == s.eventfd
  {
    LocalStep(c, s, q, p, Checking(size, s.cons, s.prod), true, s.eventfd);
    s' := SetPc(s, p, Checking(size, s.cons, s.prod)).(lock := true, eventfd := s.eventfd);
  }

  lemma HeaderThenPosition(c: Config, s: State, q: F.Queue, p: nat, size: nat) returns (s': State)
    requires ValidConfig(c) && Inv(c, s, q) && Pc(s, p) == Checking(size, s.cons, s.prod) && size < U32
    requires !NoRoom(c, size, s.cons, s.prod) && s.prod + TotalSize(size) < U64
    ensures Inv(c, s', F.Record(q, F.Reserve(p, size))) && ProducerCall(s, s', p, Published(size, s.prod))
    ensures s'.mem == StoreWord(s.mem, Offset(c.layout, s.prod), BusyHeader(size))
    ensures s'.prod == s.prod + TotalSize(size) && s'.eventfd == s.eventfd
  {
    var s1 := Step(c, s, WriteHeader(p));
    WriteHeaderAction(c, s, q, p);
    SumFits64(size, 0, s.prod);
    s' := Step(c, s1, Publish(p));
    PublishAction(c, s1, q, p);
  }

  lemma UnlockCall(c: Config, s: State, q: F.Queue, p: nat, size: nat, pos: nat) returns (s': State)
    requires ValidConfig(c) && Inv(c, s, q) && Pc(s, p) == Published(size, pos)
    ensures Inv(c, s', q) && ProducerCall(s, s', p, Filling(size, pos)) && !s'.lock
    ensures s'.mem == s.mem && s'.prod == s.prod && s'.eventfd == s.eventfd
  {
    s' := Step(c, s, Unlock(p));
    LocalActions(c, s, q, Unlock(p));
  }

  /** A `reserve` that finds the lock free and room: all its actions in one go. */
  lemma ReserveCall(c: Config, s: State, q: F.Queue, p: nat, size: nat) returns (s': State)
    requires ValidConfig(c) && Inv(c, s, q) && Pc(s, p).Idle? && !s.lock && size < U32
    requires !NoRoom(c, size, s.cons, s.prod) && s.prod + TotalSize(size) < U64
    ensures Inv(c, s', F.Record(q, F.Reserve(p, size))) && ProducerCall(s, s', p, Filling(size, s.prod))
    ensures s'.mem == StoreWord(s.mem, Offset(c.layout, s.prod), BusyHeader(size))
    ensures s'.prod == s.prod + TotalSize(size) && !s'.lock && s'.eventfd == s.eventfd
  {
    s' := LockedCheck(c, s, q, p, size);
    s' := HeaderThenPosition(c, s', q, p, size);
    s' := UnlockCall(c, s', F.Record(q, F.Reserve(p, size)), p, size, s.prod);
  }

  lemma FillCall(c: Config, s: State, q: F.Queue, p: nat, i: nat, b: byte) returns (s': State)
    requires ValidConfig(c) && Inv(c, s, q) && Pc(s, p).Filling? && i < Pc(s, p).size
    ensures Inv(c, s', F.Record(q, F.Write(p, i, b))) && ProducerCall(s, s', p, Pc(s, p))
    ensures s'.mem == StoreByte(s.mem, Offset(c.layout, Pc(s, p).pos) + HEADER_SIZE + i, b)
    ensures s'.prod == s.prod && s'.lock == s.lock && s'.eventfd == s.eventfd
  {
    FillAction(c, s, q, p, i, b);
    s' := Step(c, s, Fill(p, i, b));
  }

  /** Dropping a buffer that was not discarded. */
  lemma CommitCall(c: Config, s: State, q: F.Queue, p: nat) returns (s': State)
    requires ValidConfig(c) && Inv(c, s, q) && Pc(s, p).Filling?
    ensures Inv(c, s', F.Record(q, F.Commit(p))) && ProducerCall(s, s', p, Notifying)
    ensures !IsDiscarded(Header(c, s, Pc(s, p).pos))
    ensures s'.mem == StoreWord(s.mem, Offset(c.layout, Pc(s, p).pos), CommitHeader(Header(c, s, Pc(s, p).pos)))
    ensures s'.prod == s.prod && s'.lock == s.lock && s'.eventfd == s.eventfd
  {
    var s1 := DropSeesNoMark(c, s, q, p);
    LoadAction(c, s1, q, LoadCommit(p));
    s' := StoreCommitCall(c, Step(c, s1, LoadCommit(p)), q, p);
    assert Header(c, s1, Pc(s, p).pos) == Header(c, s, Pc(s, p).pos);
  }

  lemma StoreCommitCall(c: Config, s: State, q: F.Queue, p: nat) returns (s': State)
    requires ValidConfig(c) && Inv(c, s, q) && Pc(s, p).Committing?
    ensures Inv(c, s', F.Record(q, F.Commit(p))) && ProducerCall(s, s', p, Notifying)
    ensures s'.mem == StoreWord(s.mem, Offset(c.layout, Pc(s, p).pos), CommitHeader(Pc(s, p).word))
    ensures s'.prod == s.prod && s'.lock == s.lock && s'.eventfd == s.eventfd
  {
    PcOf(c, s, q, p);
    StoreCommitAction(c, s, q, p);
    s' := Step(c, s, StoreCommit(p));
  }

  lemma DropSeesNoMark(c: Config, s: State, q: F.Queue, p: nat) returns (s': State)
    requires ValidConfig(c) && Inv(c, s, q) && Pc(s, p).Filling?
    ensures Inv(c, s', q) && ProducerCall(s, s', p, Dropping(Pc(s, p).size, Pc(s, p).pos, false))
    ensures !IsDiscarded(Header(c, s, Pc(s, p).pos))
    ensures s'.mem == s.mem && s'.prod == s.prod && s'.lock == s.lock && s'.eventfd == s.eventfd
  {
    PcOf(c, s, q, p);
    OwnedHeader(c, s, q, p);
    HeaderStates(Pc(s, p).size);
    DropCheckAction(c, s, q, p);
    s' := Step(c, s, DropCheck(p));
  }

  /** A drop that follows its `discard` at once keeps within the limits. */
  lemma ImmediateDropIsTimely(c: Config, s: State, q: F.Queue, p: nat)
    requires ValidConfig(c) && Inv(c, s, q) && Pc(s, p).Rejecting?
    ensures WithinLimits(c, Step(c, s, StoreDiscard(p)), DropCheck(p))
  {
    PcOf(c, s, q, p);
    PendingAfterHead(c, s, q, q.owner[p]);
    PendingIsLive(c, s, q, q.owner[p]);
  }

  /** `discard` and the drop behind it. */
  lemma DiscardCall(c: Config, s: State, q: F.Queue, p: nat) returns (s': State)
    requires ValidConfig(c) && Inv(c, s, q) && Pc(s, p).Filling?
    ensures Inv(c, s', F.Record(q, F.Discard(p))) && ProducerCall(s, s', p, Notifying)
    ensures s'.mem == StoreWord(s.mem, Offset(c.layout, Pc(s, p).pos), DiscardHeader(Header(c, s, Pc(s, p).pos)))
    ensures IsDiscarded(LoadWord(s'.mem, Offset(c.layout, Pc(s, p).pos)))
    ensures s'.prod == s.prod && s'.lock == s.lock && s'.eventfd == s.eventfd
  {
    LoadAction(c, s, q, LoadDiscard(p));
    s' := StoreDiscardCall(c, Step(c, s, LoadDiscard(p)), q, p);
  }

  lemma StoreDiscardCall(c: Config, s: State, q: F.Queue, p: nat) returns (s': State)
    requires ValidConfig(c) && Inv(c, s, q) && Pc(s, p).Rejecting?
    ensures Inv(c, s', F.Record(q, F.Discard(p))) && ProducerCall(s, s', p, Notifying)
    ensures s'.mem == StoreWord(s.mem, Offset(c.layout, Pc(s, p).pos), DiscardHeader(Pc(s, p).word))
    ensures IsDiscarded(LoadWord(s'.mem, Offset(c.layout, Pc(s, p).pos)))
    ensures s'.prod == s.prod && s'.lock == s.lock && s'.eventfd == s.eventfd
  {
    PcOf(c, s, q, p);
    StoreDiscardAction(c, s, q, p);
    ImmediateDropIsTimely(c, s, q, p);
    var s1, q1 := Step(c, s, StoreDiscard(p)), F.Record(q, F.Discard(p));
    DropCheckAction(c, s1, q1, p);
    s' := Step(c, s1, DropCheck(p));
    PcOf(c, s', q1, p);
  }

  lemma NotifyCall(c: Config, s: State, q: F.Queue, p: nat) returns (s': State)
    requires ValidConfig(c) && Inv(c, s, q) && Pc(s, p).Notifying?
    ensures Inv(c, s', q) && ProducerCall(s, s', p, Idle) && s'.mem == s.mem && s'.prod == s.prod && s'.lock == s.lock
    ensures s'.eventfd == if p in c.forced then s.eventfd + 1 else s.eventfd
  {
    LocalActions(c, s, q, Notify(p));
    s' := Step(c, s, Notify(p));
  }

  /** Drop and notification. */
  lemma CommitAndNotifyCall(c: Config, s: State, q: F.Queue, p: nat) returns (s': State)
    requires ValidConfig(c) && Inv(c, s, q) && Pc(s, p).Filling?
    ensures Inv(c, s', F.Record(q, F.Commit(p))) && ProducerCall(s, s', p, Idle)
    ensures !IsDiscarded(Header(c, s, Pc(s, p).pos))
    ensures s'.mem == StoreWord(s.mem, Offset(c.layout, Pc(s, p).pos), CommitHeader(Header(c, s, Pc(s, p).pos)))
    ensures s'.prod == s.prod && s'.lock == s.lock
    ensures s'.eventfd == if p in c.forced then s.eventfd + 1 else s.eventfd
  {
    var s1 := CommitCall(c, s, q, p);
    s' := NotifyCall(c, s1, F.Record(q, F.Commit(p)), p);
  }

  /** `discard`, drop and notification. */
  lemma DiscardAndNotifyCall(c: Config, s: State, q: F.Queue, p: nat) returns (s': State)
    requires ValidConfig(c) && Inv(c, s, q) && Pc(s, p).Filling?
    ensures Inv(c, s', F.Record(q, F.Discard(p))) && ProducerCall(s, s', p, Idle)
    ensures s'.mem == StoreWord(s.mem, Offset(c.layout, Pc(s, p).pos), DiscardHeader(Header(c, s, Pc(s, p).pos)))
    ensures IsDiscarded(LoadWord(s'.mem, Offset(c.layout, Pc(s, p).pos)))
    ensures s'.prod == s.prod && s'.lock == s.lock
    ensures s'.eventfd == if p in c.forced then s.eventfd + 1 else s.eventfd
  {
    var s1 := DiscardCall(c, s, q, p);
    s' := NotifyCall(c, s1, F.Record(q, F.Discard(p)), p);
  }

  // ------------------------------------------------------ `consume`, piecewise

  lemma HeadRecord(c: Config, s: State, q: F.Queue)
    requires ValidConfig(c) && Inv(c, s, q) && s.cons < s.prod
    ensures q.head < |q.log| && HeaderLen(Header(c, s, s.cons)) == q.log[q.head].size
    ensures IsBusy(Header(c, s, s.cons)) <==> q.log[q.head].status == F.Pending
    ensures !IsBusy(Header(c, s, s.cons)) ==>
      (IsDiscarded(Header(c, s, s.cons)) <==> q.log[q.head].status == F.Discarded)
    ensures Offset(c.layout, s.cons) + 8 <= |s.mem|
    ensures F.Matches(q.log[q.head], Payload(c, s, q.log[q.head].size))
  {
    NoRecordIff(c, s, q);
    HeadHeader(c, s, q);
    PayloadMatches(c, s, q);
    EntryFacts(c.layout.dataSize, s.prod, s.cons, q, q.head);
    OffsetFacts(c.layout, s.cons);
  }

  /** The end of the head record, which the consumer computes in 64 bits, does not wrap. */
  lemma HeadEnds64(c: Config, s: State, q: F.Queue)
    requires ValidConfig(c) && Inv(c, s, q) && q.head < |q.log|
    ensures var len := q.log[q.head].size;
      s.cons + TotalSize(len) < U64 && (s.cons + RoundUpTo8(HEADER_SIZE + len)) % U64 == s.cons + TotalSize(len)
  {
    EntryFacts(c.layout.dataSize, s.prod, s.cons, q, q.head);
  }

  lemma NoRecordIff(c: Config, s: State, q: F.Queue)
    requires ValidConfig(c) && Inv(c, s, q)
    ensures s.cons >= s.prod <==> q.head == |q.log|
  {
    if q.head < |q.log| { EntryFacts(c.layout.dataSize, s.prod, s.cons, q, q.head); }
  }

  predicate MayConsume(pc: ConsumerPc) { pc.Ready? || pc.Looping? }

  /** One turn of the loop over a discarded record. */
  lemma SkipCall(c: Config, s: State, q: F.Queue)
    requires ValidConfig(c) && Inv(c, s, q) && MayConsume(s.consumer)
    requires q.head < |q.log| && q.log[q.head].status == F.Discarded
    ensures Inv(c, s.(cons := s.cons + TotalSize(q.log[q.head].size), consumer := Looping), F.Record(q, F.Skip))
  {
    EntryFacts(c.layout.dataSize, s.prod, s.cons, q, q.head);
    HeadFreed(c, s, q, Looping);
  }

  /** The turn that finds a finished record. */
  lemma FoundCall(c: Config, s: State, q: F.Queue, bytes: seq<byte>, next: nat)
    requires ValidConfig(c) && Inv(c, s, q) && MayConsume(s.consumer) && F.HeadIs(q, F.Committed)
    requires bytes == Payload(c, s, q.log[q.head].size) && next == s.cons + TotalSize(q.log[q.head].size)
    ensures Inv(c, s.(consumer := Holding(|bytes|, next)), q.(holding := true, out := q.out + [bytes]))
    ensures F.Matches(q.log[q.head], bytes)
  {
    PayloadMatches(c, s, q);
    EntryFacts(c.layout.dataSize, s.prod, s.cons, q, q.head);
    ConsumerStep(c, s, q, s.(consumer := Holding(|bytes|, next)), q.(holding := true, out := q.out + [bytes]));
  }

  /** The turn that finds nothing. */
  lemma NothingCall(c: Config, s: State, q: F.Queue)
    requires ValidConfig(c) && Inv(c, s, q) && MayConsume(s.consumer)
    ensures Inv(c, s.(consumer := Ready(true)), q)
  {
    ConsumerStep(c, s, q, s.(consumer := Ready(true)), q);
  }

  /** The discarded records between two points of the log. */
  ghost predicate OnlyDiscarded(log: seq<F.Reservation>, from: nat, to: nat) {
    from <= to <= |log| && forall i | from <= i < to :: log[i].status == F.Discarded
  }

  /** The queue after the consumer stepped over `q'.head - q.head` records. */
  ghost predicate Skipped(q: F.Queue, q': F.Queue) {
    q' == q.(head := q'.head) && OnlyDiscarded(q.log, q.head, q'.head)
  }

  // ------------------------------------------------------------- the buffer

  datatype ReserveResult =
    | Reserved(pos: nat)
    | LockTimeout
    | InsufficientSpace(newProducerPos: nat, consumerPos: nat, sizeMask: nat)

  datatype ConsumeResult = Nothing | Found(bytes: seq<byte>)

  class Ring {
    const layout: Layout
    const mem: array<byte>
    const spinlock: Spinlock
    ghost const forced: iset<nat>
    var producer: nat
    var consumer: nat
    var eventfd: nat
    var heldNext: nat               // `Record::total_len` of the record last returned
    ghost var pcs: map<nat, ProducerPc>
    ghost var consumerPc: ConsumerPc
    ghost var queue: F.Queue

    ghost function Setup(): Config { Config(layout, forced) }

    ghost function View(): State
      reads this, mem, spinlock
    {
      State(mem[..], producer, consumer, spinlock.locked, eventfd, pcs, consumerPc)
    }

    ghost predicate Valid()
      reads this, mem, spinlock
    {
      && ValidLayout(layout) && Inv(Setup(), View(), queue)
      && (consumerPc.Holding? ==> heldNext == consumerPc.next)
    }

    constructor (l: Layout, ghost forced: iset<nat>)
      requires ValidLayout(l)
      ensures Valid() && queue == F.EmptyQueue && layout == l && this.forced == forced
      ensures fresh(mem) && fresh(spinlock) && consumerPc == Ready(false) && pcs == map[]
    {
      layout := l;
      mem := new byte[l.dataSize](_ => 0);
      spinlock := new Spinlock();
      producer, consumer, eventfd, heldNext := 0, 0, 0, 0;
      this.forced := forced;
      pcs, consumerPc, queue := map[], Ready(false), F.EmptyQueue;
      new;
      InitInv(Setup(), View());
    }

    method LoadHeader(o: nat) returns (w: nat)
      requires mem.Length > 0
      ensures w == LoadWord(mem[..], o)
    {
      w := LoadWord(mem[..], o);
    }

    method StoreHeader(o: nat, w: nat)
      requires o + 8 <= mem.Length
      modifies mem
      ensures mem[..] == StoreWord(old(mem[..]), o, w)
    {
      var bytes := Encode(w, 8);
      forall i | 0 <= i < 8 {
        mem[o + i] := bytes[i];
      }
    }

    /** `Producer::reserve`, in 64-bit arithmetic. On failure nothing has changed.
        On success the queue has one more reservation, at the old producer position,
        provided the position behind it is below 2^64 and its length fits the
        header; the latter follows from the former in every ring of at most 2^32 bytes. */
    method Reserve(ghost p: nat, size: u64, weakFailures: nat) returns (r: ReserveResult)
      requires Valid() && Pc(View(), p).Idle?
      modifies this, mem, spinlock
      ensures r == if old(spinlock.locked) || weakFailures >= SPIN_LIMIT then LockTimeout
                   else if NoRoom(Setup(), size, old(consumer), old(producer))
                   then InsufficientSpace(NextPos(size, old(producer)), old(consumer), layout.dataSize - 1)
                   else Reserved(old(producer))
      ensures old(producer) + TotalSize(size) < U64 ==>
        && (NoRoom(Setup(), size, old(consumer), old(producer))
            <==> Lacks(Setup(), size, old(consumer), old(producer)))
        && NextPos(size, old(producer)) == old(producer) + TotalSize(size)
        && (r.Reserved? && layout.dataSize <= U32 ==> size < U32)
      ensures !r.Reserved? ==> Valid() && View() == old(View()) && queue == old(queue)
      ensures r.Reserved? && size < U32 && old(producer) + TotalSize(size) < U64 ==>
        && Valid() && queue == F.Record(old(queue), F.Reserve(p, size))
        && ProducerCall(old(View()), View(), p, Filling(size, r.pos))
      ensures r.Reserved? ==>
        && mem[..] == StoreWord(old(mem[..]), Offset(layout, r.pos), BusyHeader(size))
        && producer == NextPos(size, r.pos) && consumer == old(consumer) && !spinlock.locked
      ensures eventfd == old(eventfd) && heldNext == old(heldNext)
    {
      if producer + TotalSize(size) < U64 { CheckedSum(size); }
      var totalSize := TotalOf(size);
      var consumerPos := consumer;
      var flag := spinlock.locked;
      var held, weak := (t: nat) => flag, (t: nat) => t < 2 * weakFailures;
      var ok, accesses := spinlock.TryLock(held, weak);
      Uncontended(held, weak, flag, weakFailures, ok, accesses);
      if !ok {
        return LockTimeout;
      }
      var producerPos := producer;
      var newProducerPos, full := SpaceCheck(size, totalSize, consumerPos, producerPos);
      if full {
        spinlock.Unlock();
        return InsufficientSpace(newProducerPos, consumerPos, layout.dataSize - 1);
      }
      ghost var before := View().(lock := false);
      NextHeaderFits();
      WriteRecord(size, producerPos, newProducerPos);
      if size < U32 && producerPos + TotalSize(size) < U64 { NoteReservation(p, size, before); }
      return Reserved(producerPos);
    }

    /** The second half of `reserve`: header first, position next, lock last. */
    method WriteRecord(size: nat, producerPos: nat, newProducerPos: nat)
      requires layout.dataSize > 0 && Offset(layout, producerPos) + 8 <= mem.Length
      modifies this`producer, mem, spinlock
      ensures mem[..] == StoreWord(old(mem[..]), Offset(layout, producerPos), BusyHeader(size))
      ensures producer == newProducerPos && !spinlock.locked
    {
      StoreHeader(Offset(layout, producerPos), BusyHeader(size));
      producer := newProducerPos;
      spinlock.Unlock();
    }

    /** The queue has one more reservation. */
    ghost method NoteReservation(p: nat, size: nat, before: State)
      requires ValidLayout(layout) && Inv(Setup(), before, queue) && Pc(before, p).Idle? && !before.lock && size < U32
      requires !NoRoom(Setup(), size, before.cons, before.prod) && before.prod + TotalSize(size) < U64
      requires View() == before.(mem := StoreWord(before.mem, Offset(layout, before.prod), BusyHeader(size)),
                                 prod := before.prod + TotalSize(size))
      requires consumerPc.Holding? ==> heldNext == consumerPc.next
      modifies `pcs, `queue
      ensures Valid() && queue == F.Record(old(queue), F.Reserve(p, size))
      ensures ProducerCall(before, View(), p, Filling(size, before.prod))
    {
      var s' := ReserveCall(Setup(), before, queue, p, size);
      pcs, queue := s'.producers, F.Record(queue, F.Reserve(p, size));
      assert View() == s';
    }

    method TotalOf(size: u64) returns (total: nat)
      ensures total == Total64(size)
    {
      total := RoundUpTo8((size + HEADER_SIZE) % U64) % U64;
    }

    method SpaceCheck(ghost size: u64, totalSize: nat, consumerPos: nat, producerPos: nat)
      returns (newProducerPos: nat, full: bool)
      requires totalSize == Total64(size)
      ensures newProducerPos == NextPos(size, producerPos)
      ensures full <==> NoRoom(Setup(), size, consumerPos, producerPos)
    {
      newProducerPos := (producerPos + totalSize) % U64;
      full := (newProducerPos - consumerPos) % U64 > layout.dataSize - 1;
    }

    /** What the space check comes to when its sum does not wrap. */
    lemma CheckedSum(size: nat)
      requires LogInv(layout.dataSize, producer, consumer, queue) && producer + TotalSize(size) < U64
      ensures NextPos(size, producer) == producer + TotalSize(size)
      ensures NoRoom(Setup(), size, consumer, producer) <==> Lacks(Setup(), size, consumer, producer)
      ensures !NoRoom(Setup(), size, consumer, producer) && layout.dataSize <= U32 ==> size < U32
    {
      SumFits64(size, consumer, producer);
    }

    lemma NextHeaderFits()
      requires ValidLayout(layout) && LogInv(layout.dataSize, producer, consumer, queue)
      requires mem.Length == layout.dataSize
      ensures Offset(layout, producer) + 8 <= mem.Length
    {
      LookAtLog(layout.dataSize, producer, consumer, queue);
      OffsetFacts(layout, producer);
    }

    method StoreOneByte(o: nat, b: byte)
      requires mem.Length > 0
      modifies mem
      ensures mem[..] == StoreByte(old(mem[..]), o, b)
    {
      mem[o % mem.Length] := b;
    }

    /** Writing one byte through `as_mut_slice`. */
    method Write(ghost p: nat, pos: nat, ghost size: nat, i: nat, b: byte)
      requires Valid() && Pc(View(), p) == Filling(size, pos) && i < size
      modifies this, mem
      ensures Valid() && queue == F.Record(old(queue), F.Write(p, i, b))
      ensures ProducerCall(old(View()), View(), p, Filling(size, pos))
      ensures producer == old(producer) && eventfd == old(eventfd)
    {
      ghost var s' := FillCall(Setup(), View(), queue, p, i, b);
      StoreOneByte(Offset(layout, pos) + HEADER_SIZE + i, b);
      pcs, queue := s'.producers, F.Record(queue, F.Write(p, i, b));
      assert View() == s';
    }

    /** `Drop for ReservedBuffer`: commit unless the discard mark is there, then notify. */
    method DropBuffer(o: nat, wake: bool)
      requires o + 8 <= mem.Length
      modifies this`eventfd, mem
      ensures var w := LoadWord(old(mem[..]), o);
        mem[..] == if IsDiscarded(w) then old(mem[..]) else StoreWord(old(mem[..]), o, CommitHeader(w))
      ensures eventfd == if wake then old(eventfd) + 1 else old(eventfd)
    {
      var w := LoadHeader(o);
      if !IsDiscarded(w) {
        StoreHeader(o, CommitHeader(w));
      }
      if wake { eventfd := eventfd + 1; }
    }

    /** Dropping a filled buffer. */
    method Commit(ghost p: nat, pos: nat, ghost size: nat, wake: bool)
      requires Valid() && Pc(View(), p) == Filling(size, pos) && (wake <==> p in forced)
      modifies this, mem
      ensures Valid() && queue == F.Record(old(queue), F.Commit(p))
      ensures ProducerCall(old(View()), View(), p, Idle)
      ensures producer == old(producer) && eventfd == if wake then old(eventfd) + 1 else old(eventfd)
    {
      ghost var s' := CommitAndNotifyCall(Setup(), View(), queue, p);
      CallerOwnsHeader(p, pos, size);
      DropBuffer(Offset(layout, pos), wake);
      pcs, queue := s'.producers, F.Record(queue, F.Commit(p));
      assert View() == s';
    }

    lemma CallerOwnsHeader(p: nat, pos: nat, size: nat)
      requires Valid() && Pc(View(), p) == Filling(size, pos)
      ensures Offset(layout, pos) + 8 <= mem.Length
    {
      PcOf(Setup(), View(), queue, p);
      OwnedHeader(Setup(), View(), queue, p);
      OffsetFacts(layout, pos);
    }

    /** `ReservedBuffer::discard`, with the drop it ends in. */
    method Discard(ghost p: nat, pos: nat, ghost size: nat, wake: bool)
      requires Valid() && Pc(View(), p) == Filling(size, pos) && (wake <==> p in forced)
      modifies this, mem
      ensures Valid() && queue == F.Record(old(queue), F.Discard(p))
      ensures ProducerCall(old(View()), View(), p, Idle)
      ensures producer == old(producer) && eventfd == if wake then old(eventfd) + 1 else old(eventfd)
    {
      ghost var s' := DiscardAndNotifyCall(Setup(), View(), queue, p);
      CallerOwnsHeader(p, pos, size);
      var o := Offset(layout, pos);
      var w := LoadHeader(o);
      StoreHeader(o, DiscardHeader(w));
      DropBuffer(o, wake);
      pcs, queue := s'.producers, F.Record(queue, F.Discard(p));
      assert View() == s';
    }

    /** What a turn of the loop in `consume` does to queue `q`. */
    ghost predicate Turned(q: F.Queue, r: ConsumeResult, again: bool)
      reads this
    {
      if again then r.Nothing? && MayConsume(consumerPc) && F.HeadIs(q, F.Discarded) && queue == F.Record(q, F.Skip)
      else Ended(q, r)
    }

    /** What `consume` reports of queue `q`: its head if that is finished and kept, else nothing. */
    ghost predicate Ended(q: F.Queue, r: ConsumeResult)
      reads this
    {
      match r
      case Nothing => consumerPc == Ready(true) && queue == q && (q.head == |q.log| || F.HeadIs(q, F.Pending))
      case Found(bytes) =>
        && consumerPc.Holding? && queue == F.Record(q, F.Deliver(bytes))
        && F.HeadIs(q, F.Committed) && F.Matches(q.log[q.head], bytes)
    }

    method Turn() returns (r: ConsumeResult, again: bool)
      requires Valid() && MayConsume(consumerPc)
      modifies this
      ensures Valid() && Turned(old(queue), r, again)
      ensures pcs == old(pcs) && producer == old(producer) && eventfd == old(eventfd)
    {
      var consumerPos := consumer;
      var producerPos := producer;
      NoRecordIff(Setup(), View(), queue);
      if consumerPos >= producerPos {
        NothingCall(Setup(), View(), queue);
        consumerPc := Ready(true);
        return Nothing, false;
      }
      HeadRecord(Setup(), View(), queue);
      var offset := Offset(layout, consumerPos);
      var w := LoadHeader(offset);
      if IsBusy(w) {
        NothingCall(Setup(), View(), queue);
        consumerPc := Ready(true);
        return Nothing, false;
      }
      r, again := Recognise(consumerPos, offset, w);
    }

    method Recognise(consumerPos: nat, offset: nat, w: nat) returns (r: ConsumeResult, again: bool)
      requires Valid() && MayConsume(consumerPc) && consumerPos == consumer < producer
      requires offset == Offset(layout, consumer) && w == Header(Setup(), View(), consumer) && !IsBusy(w)
      modifies this
      ensures Valid() && Turned(old(queue), r, again)
      ensures pcs == old(pcs) && producer == old(producer) && eventfd == old(eventfd)
    {
      HeadRecord(Setup(), View(), queue);
      var len := HeaderLen(w);
      var totalLen := RoundUpTo8(HEADER_SIZE + len);
      if !IsDiscarded(w) {
        r := HandOut(consumerPos, offset, len, totalLen);
        again := false;
      } else {
        StepOver(consumerPos, totalLen);
        r, again := Nothing, true;
      }
    }

    method HandOut(consumerPos: nat, offset: nat, len: nat, totalLen: nat) returns (r: ConsumeResult)
      requires Valid() && MayConsume(consumerPc) && consumerPos == consumer && offset == Offset(layout, consumer)
      requires F.HeadIs(queue, F.Committed) && len == queue.log[queue.head].size && totalLen == TotalSize(len)
      modifies this`heldNext, this`consumerPc, this`queue
      ensures Valid() && r.Found? && Ended(old(queue), r)
    {
      ghost var s, q := View(), queue;
      var bytes := LoadBytes(mem[..], offset + HEADER_SIZE, len);
      HeadEnds64(Setup(), s, q);
      heldNext := (consumerPos + totalLen) % U64;
      FoundCall(Setup(), s, q, bytes, heldNext);
      consumerPc := Holding(len, heldNext);
      queue := q.(holding := true, out := q.out + [bytes]);
      assert View() == s.(consumer := Holding(|bytes|, heldNext));
      return Found(bytes);
    }

    method StepOver(consumerPos: nat, totalLen: nat)
      requires Valid() && MayConsume(consumerPc) && consumerPos == consumer
      requires F.HeadIs(queue, F.Discarded) && totalLen == TotalSize(queue.log[queue.head].size)
      modifies this`consumer, this`consumerPc, this`queue
      ensures Valid() && consumerPc == Looping && queue == F.Record(old(queue), F.Skip)
    {
      SkipCall(Setup(), View(), queue);
      HeadEnds64(Setup(), View(), queue);
      consumer := (consumerPos + totalLen) % U64;
      consumerPc, queue := Looping, F.Record(queue, F.Skip);
    }

    /** `Consumer::consume`: steps over discarded records for good; hands out
        the first other record if it is finished. */
    method Consume() returns (r: ConsumeResult, ghost skipped: F.Queue)
      requires Valid() && MayConsume(consumerPc)
      modifies this
      ensures Valid() && pcs == old(pcs) && producer == old(producer) && eventfd == old(eventfd)
      ensures Skipped(old(queue), skipped) && Ended(skipped, r)
    {
      var again := true;
      r, skipped := Nothing, queue;
      while again
        invariant Valid() && pcs == old(pcs) && producer == old(producer) && eventfd == old(eventfd)
        invariant Skipped(old(queue), skipped)
        invariant if again then MayConsume(consumerPc) && queue == skipped else Ended(skipped, r)
        decreases |skipped.log| - skipped.head, again
      {
        r, again := Turn();
        if again { skipped := queue; }
      }
    }

    /** Dropping a `Record`: only now is its space given back. */
    method Release()
      requires Valid() && consumerPc.Holding?
      modifies this
      ensures Valid() && consumerPc == Ready(false) && queue == F.Record(old(queue), F.Release)
      ensures consumer == StartOf(old(queue), old(queue).head + 1) && consumer > old(consumer)
      ensures pcs == old(pcs) && producer == old(producer) && eventfd == old(eventfd)
    {
      EntryFacts(layout.dataSize, producer, consumer, queue, queue.head);
      FreeAction(Setup(), View(), queue, DropRecord);
      consumer := heldNext;
      consumerPc, queue := Ready(false), F.Record(queue, F.Release);
    }

    /** `Notification::wait` once the count is positive: it takes the whole count. */
    method Wait()
      requires Valid() && consumerPc.Ready? && eventfd > 0
      modifies this
      ensures Valid() && eventfd == 0 && consumerPc == Ready(false)
      ensures queue == old(queue) && pcs == old(pcs) && producer == old(producer) && consumer == old(consumer)
    {
      ConsumerStep(Setup(), View(), queue, View().(consumer := Ready(false), eventfd := 0), queue);
      eventfd := 0;
      consumerPc := Ready(false);
    }
  }
}
