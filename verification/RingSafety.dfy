/** The protocol implements the queue: an invariant over all runs, and what follows from it. */
module RingSafety {
  import opened Words
  import opened RingMemory
  import opened RingProtocol
  import F = FifoQueue

  // -------------------------------------------------------------- invariant

  /** Where reservation `i` starts, or would start. */
  function StartOf(q: F.Queue, i: nat): nat {
    if i < |q.log| then q.log[i].pos else q.tail
  }

  function EndOf(r: F.Reservation): nat { r.pos + TotalSize(r.size) }

  // The quantified parts of the invariant stay folded: each holds "whenever it
  // is looked at", so that a proof meets its quantifiers only where it calls the
  // lemma that looks (LookAtLog, LookAtMemory, PcOf, LookAtLock, LookAtOwners).

  predicate Looking(k: nat) { true }

  /** Reservations tile the stream up to the producer position. */
  ghost predicate Tiled(prod: nat, q: F.Queue) {
    && prod % 8 == 0 && StartOf(q, 0) == 0
    && (forall i: nat | i < |q.log| ::
          q.log[i].pos % 8 == 0 && q.log[i].size < U32 && EndOf(q.log[i]) <= prod)
    && (forall j: nat {:trigger StartOf(q, j)} | 0 < j <= |q.log| :: StartOf(q, j) == EndOf(q.log[j - 1]))
    && (forall i: nat, j: nat | i < j < |q.log| :: EndOf(q.log[i]) <= q.log[j].pos)
    && (forall i: nat | i < q.head :: i < |q.log| && q.log[i].status != F.Pending)
  }

  /** The log is tiled; the consumer stands at the start of a reservation; less
      than a full ring is outstanding. */
  ghost predicate LogInv(n: nat, prod: nat, cons: nat, q: F.Queue) {
    && q.tail == prod < U64 && q.head <= |q.log| && cons == StartOf(q, q.head) && cons <= prod < cons + n
    && forall k: nat {:trigger Looking(k)} | Looking(k) :: Tiled(prod, q)
  }

  lemma LookAtLog(n: nat, prod: nat, cons: nat, q: F.Queue)
    requires LogInv(n, prod, cons, q)
    ensures Tiled(prod, q)
  {
    assert Looking(0);
  }

  function WordOf(r: F.Reservation): nat {
    match r.status
    case Pending => BusyHeader(r.size)
    case Committed => CommitHeader(BusyHeader(r.size))
    case Discarded => DiscardHeader(BusyHeader(r.size))
  }

  /** The memory holds the reservation's header and every byte written for it. */
  ghost predicate InMemory(mem: seq<byte>, r: F.Reservation)
    requires mem != []
  {
    && WordAt(mem, r.pos, WordOf(r))
    && forall k | k in r.written :: k < r.size && At(mem, r.pos + HEADER_SIZE + k) == r.written[k]
  }

  /** Every reservation the producers have not yet come round to is in memory. */
  ghost predicate Stored(n: nat, mem: seq<byte>, prod: nat, log: seq<F.Reservation>)
    requires mem != []
  {
    forall i: nat | i < |log| && prod < log[i].pos + n :: InMemory(mem, log[i])
  }

  ghost predicate MemInv(n: nat, mem: seq<byte>, prod: nat, log: seq<F.Reservation>) {
    && |mem| == n && mem != []
    && forall k: nat {:trigger Looking(k)} | Looking(k) :: Stored(n, mem, prod, log)
  }

  lemma LookAtMemory(n: nat, mem: seq<byte>, prod: nat, log: seq<F.Reservation>)
    requires MemInv(n, mem, prod, log)
    ensures Stored(n, mem, prod, log)
  {
    assert Looking(0);
  }

  predicate HasLock(pc: ProducerPc) {
    pc.Locked? || pc.Checking? || pc.HeaderWritten? || pc.Published?
  }

  predicate HasBuffer(pc: ProducerPc) {
    pc.Published? || pc.Filling? || pc.Rejecting? || pc.Dropping? || pc.Committing?
  }

  ghost predicate OwnsAt(q: F.Queue, p: nat, pos: nat, size: nat, st: F.Status) {
    F.Owned(q, p) && var r := q.log[q.owner[p]]; r.pos == pos && r.size == size && r.status == st
  }

  ghost predicate PcInv(n: nat, mem: seq<byte>, prod: nat, cons: nat, q: F.Queue, p: nat, pc: ProducerPc) {
    match pc
    case Acquiring(_, seen, _) => seen <= cons
    case Spinning(_, seen, _) => seen <= cons
    case Locked(_, seen) => seen <= cons
    case Checking(_, seen, pos) => seen <= cons && pos == prod
    case HeaderWritten(size, pos) =>
      && size < U32 && pos == prod && pos + TotalSize(size) < cons + n && pos + TotalSize(size) < U64
      && mem != [] && WordAt(mem, pos, BusyHeader(size))
    case Published(size, pos) => OwnsAt(q, p, pos, size, F.Pending)
    case Filling(size, pos) => OwnsAt(q, p, pos, size, F.Pending)
    case Rejecting(size, pos, word) => word == BusyHeader(size) && OwnsAt(q, p, pos, size, F.Pending)
    case Rejected(size, pos) => OwnsAt(q, p, pos, size, F.Discarded)
    case Dropping(size, pos, rejected) => !rejected && OwnsAt(q, p, pos, size, F.Pending)
    case Committing(size, pos, rejected, word) =>
      !rejected && word == BusyHeader(size) && OwnsAt(q, p, pos, size, F.Pending)
    case _ => true
  }

  ghost predicate AllPcs(n: nat, mem: seq<byte>, prod: nat, cons: nat, q: F.Queue, s: State) {
    forall p: nat :: PcInv(n, mem, prod, cons, q, p, Pc(s, p))
  }

  ghost predicate ProducersInv(c: Config, s: State, q: F.Queue) {
    forall k: nat {:trigger Looking(k)} | Looking(k) :: AllPcs(c.layout.dataSize, s.mem, s.prod, s.cons, q, s)
  }

  /** At most one lock guard is alive, and only while the flag is set. */
  ghost predicate OneGuard(s: State) {
    && (forall p: nat | HasLock(Pc(s, p)) :: s.lock)
    && (forall p: nat, p': nat | HasLock(Pc(s, p)) && HasLock(Pc(s, p')) :: p == p')
  }

  ghost predicate LockInv(s: State) { forall k: nat {:trigger Looking(k)} | Looking(k) :: OneGuard(s) }

  lemma LookAtLock(s: State)
    requires LockInv(s)
    ensures OneGuard(s)
  {
    assert Looking(0);
  }

  /** No two buffers belong to one reservation. */
  ghost predicate OneOwner(s: State, q: F.Queue) {
    forall p: nat, p': nat | HasBuffer(Pc(s, p)) && HasBuffer(Pc(s, p')) && F.Owned(q, p) && F.Owned(q, p')
      && q.owner[p] == q.owner[p'] :: p == p'
  }

  ghost predicate OwnerInv(s: State, q: F.Queue) { forall k: nat {:trigger Looking(k)} | Looking(k) :: OneOwner(s, q) }

  lemma LookAtOwners(s: State, q: F.Queue)
    requires OwnerInv(s, q)
    ensures OneOwner(s, q)
  {
    assert Looking(0);
  }

  /** A held record is the committed head of the queue, and still shows what was delivered. */
  ghost predicate ConsumerInv(l: Layout, mem: seq<byte>, cons: nat, pc: ConsumerPc, q: F.Queue)
    requires l.dataSize > 0
  {
    && (pc.Holding? <==> q.holding)
    && match pc
       case SawRecord => q.head < |q.log|
       case Skipping(next) => F.HeadIs(q, F.Discarded) && next == StartOf(q, q.head + 1)
       case Holding(len, next) =>
         && F.HeadIs(q, F.Committed) && next == StartOf(q, q.head + 1)
         && len == q.log[q.head].size && q.out != []
         && q.out[|q.out| - 1] == LoadBytes(mem, Offset(l, cons) + HEADER_SIZE, len)
       case _ => true
  }

  ghost predicate Inv(c: Config, s: State, q: F.Queue)
    requires ValidConfig(c)
  {
    && LogInv(c.layout.dataSize, s.prod, s.cons, q)
    && MemInv(c.layout.dataSize, s.mem, s.prod, q.log)
    && ProducersInv(c, s, q) && LockInv(s) && OwnerInv(s, q)
    && ConsumerInv(c.layout, s.mem, s.cons, s.consumer, q)
  }

  // ------------------------------------------- steps of one program point only

  lemma InitInv(c: Config, s: State)
    requires ValidConfig(c) && Init(c, s)
    ensures Inv(c, s, F.EmptyQueue)
  {
    LayoutFacts(c.layout);
  }

  ghost predicate LockMove(lock: bool, pc: ProducerPc, lock': bool, pc': ProducerPc) {
    && (HasLock(pc') ==> lock' && (HasLock(pc) || !lock))
    && (lock' == lock || HasLock(pc) || HasLock(pc'))
    && (!lock' && lock ==> HasLock(pc))
  }

  lemma LockStep(s: State, p: nat, s': State)
    requires LockInv(s) && s'.producers == s.producers[p := Pc(s', p)]
    requires LockMove(s.lock, Pc(s, p), s'.lock, Pc(s', p))
    ensures LockInv(s')
  {
    assert forall r: nat | r != p :: Pc(s', r) == Pc(s, r);
  }

  lemma OwnerStep(s: State, q: F.Queue, p: nat, s': State)
    requires OwnerInv(s, q) && s'.producers == s.producers[p := Pc(s', p)]
    requires HasBuffer(Pc(s', p)) ==> HasBuffer(Pc(s, p))
    ensures OwnerInv(s', q)
  {
    assert forall r: nat | r != p :: Pc(s', r) == Pc(s, r);
  }

  /** One producer moves, perhaps taking or giving the lock; memory, positions and queue stay. */
  lemma LocalStep(c: Config, s: State, q: F.Queue, p: nat, pc': ProducerPc, lock': bool, eventfd': nat)
    requires ValidConfig(c) && Inv(c, s, q)
    requires PcInv(c.layout.dataSize, s.mem, s.prod, s.cons, q, p, pc')
    requires LockMove(s.lock, Pc(s, p), lock', pc') && (HasBuffer(pc') ==> HasBuffer(Pc(s, p)))
    ensures Inv(c, SetPc(s, p, pc').(lock := lock', eventfd := eventfd'), q)
  {
    var s' := SetPc(s, p, pc').(lock := lock', eventfd := eventfd');
    LockStep(s, p, s');
    OwnerStep(s, q, p, s');
    forall r: nat ensures PcInv(c.layout.dataSize, s'.mem, s'.prod, s'.cons, q, r, Pc(s', r)) {
      PcOf(c, s, q, r);
      if r != p { assert Pc(s', r) == Pc(s, r); }
    }
  }

  // ------------------------------------------------- steps that write memory

  /** A full ring of positions, ending where the next header would. */
  function WindowStart(n: nat, prod: nat): nat {
    if prod + 8 >= n then prod + 8 - n else 0
  }

  lemma AlignedGap(a: nat, b: nat, n: nat)
    requires a % 8 == 0 && b % 8 == 0 && n % 8 == 0 && a < b + n
    ensures a + 8 <= b + n
  {
  }

  /** What the log says of one reservation. */
  lemma EntryFacts(n: nat, prod: nat, cons: nat, q: F.Queue, i: nat)
    requires LogInv(n, prod, cons, q) && i < |q.log|
    ensures q.log[i].pos % 8 == 0 && q.log[i].size < U32 && EndOf(q.log[i]) <= prod
    ensures StartOf(q, i + 1) == EndOf(q.log[i])
  {
    LookAtLog(n, prod, cons, q);
    assert StartOf(q, i + 1) == EndOf(q.log[i]);
  }

  lemma InWindow(c: Config, s: State, q: F.Queue, i: nat)
    requires ValidConfig(c) && LogInv(c.layout.dataSize, s.prod, s.cons, q)
    requires i < |q.log| && s.prod < q.log[i].pos + c.layout.dataSize
    ensures WindowStart(c.layout.dataSize, s.prod) <= q.log[i].pos
    ensures EndOf(q.log[i]) <= s.prod < WindowStart(c.layout.dataSize, s.prod) + c.layout.dataSize
  {
    LookAtLog(c.layout.dataSize, s.prod, s.cons, q);
    LayoutFacts(c.layout);
    AlignedGap(s.prod, q.log[i].pos, c.layout.dataSize);
  }

  lemma PendingIsLive(c: Config, s: State, q: F.Queue, i: nat)
    requires LogInv(c.layout.dataSize, s.prod, s.cons, q)
    requires q.head <= i < |q.log|
    ensures s.cons <= q.log[i].pos && s.prod < q.log[i].pos + c.layout.dataSize
  {
    LookAtLog(c.layout.dataSize, s.prod, s.cons, q);
  }

  lemma RecordKept(mem: seq<byte>, mem': seq<byte>, r: F.Reservation, lo: nat, from: nat, to: nat)
    requires OnlyChanged(mem, mem', lo, from, to)
    requires lo <= r.pos && EndOf(r) <= lo + |mem| && (EndOf(r) <= from || to <= r.pos)
    requires InMemory(mem, r)
    ensures InMemory(mem', r)
  {
    forall j | 0 <= j < 8 ensures At(mem', r.pos + j) == Encode(WordOf(r), 8)[j] {
      assert At(mem, r.pos + j) == Encode(WordOf(r), 8)[j];
    }
  }

  lemma PayloadKept(l: Layout, mem: seq<byte>, mem': seq<byte>, pos: nat, len: nat, lo: nat, from: nat, to: nat)
    requires ValidLayout(l) && |mem| == l.dataSize && OnlyChanged(mem, mem', lo, from, to)
    requires lo <= pos && pos + 8 + len <= lo + |mem| && (pos + 8 + len <= from || to <= pos)
    ensures LoadBytes(mem', Offset(l, pos) + HEADER_SIZE, len) == LoadBytes(mem, Offset(l, pos) + HEADER_SIZE, len)
  {
    var o := Offset(l, pos) + HEADER_SIZE;
    forall k | 0 <= k < len ensures LoadBytes(mem', o, len)[k] == LoadBytes(mem, o, len)[k] {
      LinearIsCircular(l, mem, pos, HEADER_SIZE + k);
      LinearIsCircular(l, mem', pos, HEADER_SIZE + k);
      assert At(mem', pos + (HEADER_SIZE + k)) == At(mem, pos + (HEADER_SIZE + k));
    }
  }

  /** Two reservations never overlap. */
  lemma Disjoint(n: nat, prod: nat, cons: nat, q: F.Queue, i: nat, j: nat)
    requires LogInv(n, prod, cons, q) && i < |q.log| && j < |q.log| && i != j
    ensures EndOf(q.log[i]) <= q.log[j].pos || EndOf(q.log[j]) <= q.log[i].pos
  {
    LookAtLog(n, prod, cons, q);
  }

  /** The held record is not touched by a write elsewhere. */
  lemma ConsumerKept(c: Config, s: State, q: F.Queue, mem': seq<byte>, q': F.Queue, from: nat, to: nat)
    requires ValidConfig(c) && Inv(c, s, q)
    requires OnlyChanged(s.mem, mem', WindowStart(c.layout.dataSize, s.prod), from, to)
    requires q.holding && q.head < |q.log| ==> EndOf(q.log[q.head]) <= from || to <= q.log[q.head].pos
    requires q' == q.(log := q'.log) && |q'.log| == |q.log| && StartOf(q', q.head + 1) == StartOf(q, q.head + 1)
    requires q.head < |q.log| && q.log[q.head].status != F.Pending ==> q'.log[q.head] == q.log[q.head]
    ensures ConsumerInv(c.layout, mem', s.cons, s.consumer, q')
  {
    if q.holding {
      InWindow(c, s, q, q.head);
      PayloadKept(c.layout, s.mem, mem', s.cons, s.consumer.len, WindowStart(c.layout.dataSize, s.prod), from, to);
    }
  }

  ghost predicate BuffersAt(s: State, q: F.Queue, p: nat) {
    && (Pc(s, p).Filling? || Pc(s, p).Rejecting? || Pc(s, p).Dropping? || Pc(s, p).Committing?)
    && OwnsAt(q, p, Pc(s, p).pos, Pc(s, p).size, F.Pending)
  }

  lemma HeaderKept(mem: seq<byte>, mem': seq<byte>, pos: nat, w: nat, lo: nat, from: nat, to: nat)
    requires OnlyChanged(mem, mem', lo, from, to) && WordAt(mem, pos, w)
    requires lo <= pos && pos + 8 <= lo + |mem| && to <= pos
    ensures WordAt(mem', pos, w)
  {
    forall j | 0 <= j < 8 ensures At(mem', pos + j) == Encode(w, 8)[j] {
      assert At(mem, pos + j) == Encode(w, 8)[j];
    }
  }

  lemma OtherPcKept(c: Config, s: State, q: F.Queue, p: nat, r': F.Reservation, o: nat, mem': seq<byte>, from: nat,
                    to: nat)
    requires ValidConfig(c) && Inv(c, s, q) && o != p && BuffersAt(s, q, p) && to <= s.prod
    requires OnlyChanged(s.mem, mem', WindowStart(c.layout.dataSize, s.prod), from, to)
    ensures PcInv(c.layout.dataSize, mem', s.prod, s.cons, q.(log := q.log[q.owner[p] := r']), o, Pc(s, o))
  {
    LayoutFacts(c.layout);
    var pc := Pc(s, o);
    PcOf(c, s, q, o);
    LookAtOwners(s, q);
    if pc.HeaderWritten? {
      HeaderKept(s.mem, mem', pc.pos, BusyHeader(pc.size), WindowStart(c.layout.dataSize, s.prod), from, to);
    } else if HasBuffer(pc) {
      assert q.owner[o] != q.owner[p];
    } else if pc.Rejected? {
      assert q.owner[o] != q.owner[p];
    }
  }

  lemma MemoryAfterOwnerWrites(c: Config, s: State, q: F.Queue, k: nat, mem': seq<byte>, r': F.Reservation, from: nat,
                               to: nat)
    requires ValidConfig(c) && LogInv(c.layout.dataSize, s.prod, s.cons, q)
    requires MemInv(c.layout.dataSize, s.mem, s.prod, q.log)
    requires q.head <= k < |q.log| && q.log[k].pos <= from && to <= EndOf(q.log[k]) && InMemory'(mem', r')
    requires OnlyChanged(s.mem, mem', WindowStart(c.layout.dataSize, s.prod), from, to)
    ensures MemInv(c.layout.dataSize, mem', s.prod, q.log[k := r'])
  {
    var n := c.layout.dataSize;
    forall i: nat | i < |q.log| && i != k && s.prod < q.log[i].pos + n ensures InMemory(mem', q.log[i]) {
      InWindow(c, s, q, i);
      Disjoint(n, s.prod, s.cons, q, i, k);
      LookAtMemory(n, s.mem, s.prod, q.log);
      RecordKept(s.mem, mem', q.log[i], WindowStart(n, s.prod), from, to);
    }
  }

  ghost predicate InMemory'(mem: seq<byte>, r: F.Reservation) { mem != [] && InMemory(mem, r) }

  lemma LogAfterOwnerWrites(n: nat, prod: nat, cons: nat, q: F.Queue, k: nat, r': F.Reservation)
    requires LogInv(n, prod, cons, q) && q.head <= k < |q.log|
    requires r'.pos == q.log[k].pos && r'.size == q.log[k].size
    ensures LogInv(n, prod, cons, q.(log := q.log[k := r']))
  {
    var q' := q.(log := q.log[k := r']);
    assert forall i: nat | i < |q.log| :: q'.log[i].pos == q.log[i].pos && EndOf(q'.log[i]) == EndOf(q.log[i]);
    assert forall j: nat :: StartOf(q', j) == StartOf(q, j);
  }

  lemma PendingAfterHead(c: Config, s: State, q: F.Queue, k: nat)
    requires LogInv(c.layout.dataSize, s.prod, s.cons, q) && k < |q.log| && q.log[k].status == F.Pending
    ensures q.head <= k
  {
    LookAtLog(c.layout.dataSize, s.prod, s.cons, q);
  }

  /** The owner of a pending reservation rewrites bytes inside it. */
  lemma OwnerWrites(c: Config, s: State, q: F.Queue, p: nat, pc': ProducerPc, mem': seq<byte>,
                    r': F.Reservation, from: nat, to: nat)
    requires ValidConfig(c) && Inv(c, s, q) && BuffersAt(s, q, p)
    requires var r := q.log[q.owner[p]]; r'.pos == r.pos && r'.size == r.size && r.pos <= from && to <= EndOf(r)
    requires OnlyChanged(s.mem, mem', WindowStart(c.layout.dataSize, s.prod), from, to)
    requires InMemory'(mem', r')
    requires PcInv(c.layout.dataSize, mem', s.prod, s.cons, q.(log := q.log[q.owner[p] := r']), p, pc')
    requires !HasLock(pc') && (HasBuffer(pc') ==> HasBuffer(Pc(s, p)))
    ensures Inv(c, SetPc(s, p, pc').(mem := mem'), q.(log := q.log[q.owner[p] := r']))
  {
    var n, k := c.layout.dataSize, q.owner[p];
    var s', q' := SetPc(s, p, pc').(mem := mem'), q.(log := q.log[k := r']);
    PendingAfterHead(c, s, q, k);
    LockStep(s, p, s');
    OwnerStep(s, q, p, s');
    LogAfterOwnerWrites(n, s.prod, s.cons, q, k, r');
    MemoryAfterOwnerWrites(c, s, q, k, mem', r', from, to);
    EntryFacts(n, s.prod, s.cons, q, k);
    forall o: nat ensures PcInv(n, mem', s.prod, s.cons, q', o, Pc(s', o)) {
      if o != p { OtherPcKept(c, s, q, p, r', o, mem', from, to); }
    }
    if q.head < |q.log| && q.log[q.head].status != F.Pending { Disjoint(n, s.prod, s.cons, q, q.head, k); }
    ConsumerKept(c, s, q, mem', q', from, to);
  }

  // ------------------------------------------------------- the single actions

  /** An action keeps the invariant and looks like a queue operation. */
  ghost predicate Refines(c: Config, s: State, q: F.Queue, a: Action)
    requires ValidConfig(c) && Enabled(c, s, a)
  {
    F.Allowed(q, Emit(c, s, a)) && Inv(c, Step(c, s, a), F.Record(q, Emit(c, s, a)))
  }

  lemma PcOf(c: Config, s: State, q: F.Queue, p: nat)
    requires ValidConfig(c) && Inv(c, s, q)
    ensures PcInv(c.layout.dataSize, s.mem, s.prod, s.cons, q, p, Pc(s, p))
  {
    assert Looking(0);
    assert AllPcs(c.layout.dataSize, s.mem, s.prod, s.cons, q, s);
  }

  predicate IsLocal(a: Action) {
    a.BeginReserve? || a.TryLock? || a.SpinRead? || a.ReadProducer? || a.Refuse? || a.Unlock? || a.Notify?
  }

  /** What a step of one program point has to do to the producer and the lock. */
  ghost predicate LocalMove(c: Config, s: State, q: F.Queue, p: nat, s': State) {
    && s' == SetPc(s, p, Pc(s', p)).(lock := s'.lock, eventfd := s'.eventfd)
    && PcInv(c.layout.dataSize, s.mem, s.prod, s.cons, q, p, Pc(s', p))
    && LockMove(s.lock, Pc(s, p), s'.lock, Pc(s', p)) && (HasBuffer(Pc(s', p)) ==> HasBuffer(Pc(s, p)))
  }

  lemma LocalMoves(c: Config, s: State, q: F.Queue, a: Action)
    requires ValidConfig(c) && Inv(c, s, q) && Enabled(c, s, a) && IsLocal(a)
    ensures LocalMove(c, s, q, a.p, Step(c, s, a)) && F.Allowed(q, Emit(c, s, a)) && F.Record(q, Emit(c, s, a)) == q
  {
    PcOf(c, s, q, a.p);
    LookAtLock(s);
  }

  lemma LocalActions(c: Config, s: State, q: F.Queue, a: Action)
    requires ValidConfig(c) && Inv(c, s, q) && Enabled(c, s, a) && IsLocal(a)
    ensures Refines(c, s, q, a)
  {
    LocalMoves(c, s, q, a);
    var s' := Step(c, s, a);
    LocalStep(c, s, q, a.p, Pc(s', a.p), s'.lock, s'.eventfd);
  }

  /** Neither the sum of the space check nor the subtraction from it wraps,
      as long as the position asked for is below 2^64. */
  lemma SpaceCheckNeverUnderflows(c: Config, s: State, q: F.Queue, p: nat)
    requires ValidConfig(c) && Inv(c, s, q) && Pc(s, p).Checking?
    ensures var Checking(size, seen, pos) := Pc(s, p);
      && seen <= s.cons <= s.prod == pos < U64
      && (NextPos(size, pos) == pos + TotalSize(size) <==> pos + TotalSize(size) < U64)
      && (pos + TotalSize(size) < U64 ==>
            seen <= NextPos(size, pos) && Outstanding(size, seen, pos) == NextPos(size, pos) - seen)
  {
    PcOf(c, s, q, p);
    var Checking(size, seen, pos) := Pc(s, p);
    if pos + TotalSize(size) < U64 { SumFits64(size, seen, pos); }
  }

  /** The room a record of `size` bytes really leaves: none if it would overlap an unconsumed byte. */
  predicate Lacks(c: Config, size: nat, seen: nat, pos: nat) {
    pos + TotalSize(size) - seen > c.layout.dataSize - 1
  }

  /** The space check is right exactly if the amount it is about is below 2^64,
      or so far above that what is left of it exceeds the mask all the same. */
  lemma SpaceCheckIsRightIff(c: Config, s: State, q: F.Queue, p: nat)
    requires ValidConfig(c) && Inv(c, s, q) && Pc(s, p).Checking?
    ensures var Checking(size, seen, pos) := Pc(s, p);
      var amount := pos - seen + TotalSize(size);
      && ((NoRoom(c, size, seen, pos) <==> Lacks(c, size, seen, pos))
          <==> amount < U64 || amount % U64 >= c.layout.dataSize)
      && (NoRoom(c, size, seen, pos) ==> Lacks(c, size, seen, pos))
  {
    PcOf(c, s, q, p);
    var Checking(size, seen, pos) := Pc(s, p);
    OutstandingWraps(size, seen, pos);
    WrappedComparison(pos - seen + TotalSize(size), c.layout.dataSize);
  }

  lemma WrappedComparison(amount: nat, n: nat)
    requires 0 < n < U64
    ensures (amount % U64 > n - 1 <==> amount > n - 1) <==> amount < U64 || amount % U64 >= n
    ensures amount % U64 > n - 1 ==> amount > n - 1
  {
    if amount < U64 { assert amount % U64 == amount; }
  }

  lemma HeaderKeepsMemory(c: Config, s: State, q: F.Queue, mem': seq<byte>)
    requires ValidConfig(c) && Inv(c, s, q)
    requires OnlyChanged(s.mem, mem', WindowStart(c.layout.dataSize, s.prod), s.prod, s.prod + 8)
    ensures MemInv(c.layout.dataSize, mem', s.prod, q.log)
  {
    var n := c.layout.dataSize;
    LookAtMemory(n, s.mem, s.prod, q.log);
    forall i: nat | i < |q.log| && s.prod < q.log[i].pos + n ensures InMemory'(mem', q.log[i]) {
      InWindow(c, s, q, i);
      RecordKept(s.mem, mem', q.log[i], WindowStart(n, s.prod), s.prod, s.prod + 8);
    }
  }

  lemma HeaderKeepsPcs(c: Config, s: State, q: F.Queue, p: nat, o: nat)
    requires ValidConfig(c) && Inv(c, s, q) && Enabled(c, s, WriteHeader(p))
    requires LengthFits(s, WriteHeader(p)) && SumFits(s, WriteHeader(p))
    requires WithHeader(c, s, p) != [] && WordAt(WithHeader(c, s, p), s.prod, BusyHeader(Pc(s, p).size))
    ensures var s' := Step(c, s, WriteHeader(p));
      PcInv(c.layout.dataSize, s'.mem, s.prod, s.cons, q, o, Pc(s', o))
  {
    PcOf(c, s, q, p);
    PcOf(c, s, q, o);
    LookAtLock(s);
    SumFits64(Pc(s, p).size, Pc(s, p).seen, Pc(s, p).pos);
    if o != p { assert Pc(Step(c, s, WriteHeader(p)), o) == Pc(s, o); }
  }

  /** The memory with the busy header at the producer's position. */
  ghost function WithHeader(c: Config, s: State, p: nat): seq<byte>
    requires ValidConfig(c) && Pc(s, p).Checking?
  {
    StoreWord(s.mem, Offset(c.layout, Pc(s, p).pos), BusyHeader(Pc(s, p).size))
  }

  lemma WriteHeaderAction(c: Config, s: State, q: F.Queue, p: nat)
    requires ValidConfig(c) && Inv(c, s, q) && Enabled(c, s, WriteHeader(p))
    requires LengthFits(s, WriteHeader(p)) && SumFits(s, WriteHeader(p))
    ensures Refines(c, s, q, WriteHeader(p))
  {
    var n, pos, size := c.layout.dataSize, Pc(s, p).pos, Pc(s, p).size;
    var s' := Step(c, s, WriteHeader(p));
    PcOf(c, s, q, p);
    HeaderStored(c, s, q, p);
    HeaderKeepsMemory(c, s, q, s'.mem);
    LookAtLock(s);
    LockStep(s, p, s');
    OwnerStep(s, q, p, s');
    forall o: nat ensures PcInv(n, s'.mem, s.prod, s.cons, q, o, Pc(s', o)) {
      HeaderKeepsPcs(c, s, q, p, o);
    }
    HeadEnds(c, s, q);
    ConsumerKept(c, s, q, s'.mem, q, pos, pos + 8);
  }

  lemma HeaderStored(c: Config, s: State, q: F.Queue, p: nat)
    requires ValidConfig(c) && Inv(c, s, q) && Enabled(c, s, WriteHeader(p))
    ensures WithHeader(c, s, p) != [] && WordAt(WithHeader(c, s, p), s.prod, BusyHeader(Pc(s, p).size))
    ensures OnlyChanged(s.mem, WithHeader(c, s, p), WindowStart(c.layout.dataSize, s.prod), s.prod, s.prod + 8)
  {
    PcOf(c, s, q, p);
    LayoutFacts(c.layout);
    LookAtLog(c.layout.dataSize, s.prod, s.cons, q);
    StoreWordEffect(c.layout, s.mem, s.prod, BusyHeader(Pc(s, p).size), WindowStart(c.layout.dataSize, s.prod));
  }

  lemma HeadEnds(c: Config, s: State, q: F.Queue)
    requires LogInv(c.layout.dataSize, s.prod, s.cons, q)
    ensures q.head < |q.log| ==> EndOf(q.log[q.head]) <= s.prod
  {
    LookAtLog(c.layout.dataSize, s.prod, s.cons, q);
  }

  lemma TiledAfterPublish(prod: nat, q: F.Queue, q': F.Queue, r: F.Reservation)
    requires Tiled(prod, q) && q.tail == prod && q.head <= |q.log| && r.pos == prod && r.size < U32
    requires q'.log == q.log + [r] && q'.tail == EndOf(r) && q'.head == q.head
    ensures Tiled(EndOf(r), q')
  {
    var n := |q.log|;
    assert forall i: nat | i < n :: q'.log[i] == q.log[i];
    assert q'.log[n] == r;
    forall j: nat | 0 < j <= n + 1 ensures StartOf(q', j) == EndOf(q'.log[j - 1]) {
      if j <= n { assert StartOf(q, j) == EndOf(q.log[j - 1]); }
    }
  }

  lemma LogAfterPublish(n: nat, prod: nat, cons: nat, q: F.Queue, p: nat, size: nat)
    requires LogInv(n, prod, cons, q) && size < U32 && prod + TotalSize(size) < cons + n
    requires prod + TotalSize(size) < U64
    ensures LogInv(n, prod + TotalSize(size), cons, F.Record(q, F.Reserve(p, size)))
  {
    LookAtLog(n, prod, cons, q);
    TiledAfterPublish(prod, q, F.Record(q, F.Reserve(p, size)), F.Reservation(prod, size, F.Pending, map[]));
  }

  lemma PublishKeepsPcs(c: Config, s: State, q: F.Queue, p: nat, o: nat)
    requires ValidConfig(c) && Inv(c, s, q) && Enabled(c, s, Publish(p)) && o != p
    ensures var s' := Step(c, s, Publish(p));
      var q' := F.Record(q, Emit(c, s, Publish(p)));
      && Pc(s', o) == Pc(s, o)
      && PcInv(c.layout.dataSize, s'.mem, s'.prod, s'.cons, q', o, Pc(s', o))
      && (HasBuffer(Pc(s, o)) ==> F.Owned(q, o) && q'.owner[o] == q.owner[o])
  {
    PcOf(c, s, q, o);
    LookAtLock(s);
    PublishedPos(c, s, q, p);
  }

  /** The new producer position does not wrap. */
  lemma PublishedPos(c: Config, s: State, q: F.Queue, p: nat)
    requires ValidConfig(c) && Inv(c, s, q) && Enabled(c, s, Publish(p))
    ensures var HeaderWritten(size, pos) := Pc(s, p);
      pos == s.prod && Step(c, s, Publish(p)).prod == pos + TotalSize(size) < U64
  {
    PcOf(c, s, q, p);
    SumFits64(Pc(s, p).size, 0, Pc(s, p).pos);
  }

  lemma PublishKeepsMemory(c: Config, s: State, q: F.Queue, p: nat)
    requires ValidConfig(c) && Inv(c, s, q) && Enabled(c, s, Publish(p))
    ensures MemInv(c.layout.dataSize, s.mem, s.prod + TotalSize(Pc(s, p).size),
                   F.Record(q, F.Reserve(p, Pc(s, p).size)).log)
  {
    PcOf(c, s, q, p);
    var q' := F.Record(q, F.Reserve(p, Pc(s, p).size));
    assert forall i: nat | i < |q.log| :: q'.log[i] == q.log[i];
  }

  lemma PublishKeepsOwners(c: Config, s: State, q: F.Queue, p: nat)
    requires ValidConfig(c) && Inv(c, s, q) && Enabled(c, s, Publish(p))
    ensures OwnerInv(Step(c, s, Publish(p)), F.Record(q, Emit(c, s, Publish(p))))
  {
    var s', q' := Step(c, s, Publish(p)), F.Record(q, Emit(c, s, Publish(p)));
    forall o: nat, o': nat | HasBuffer(Pc(s', o)) && HasBuffer(Pc(s', o')) && F.Owned(q', o) && F.Owned(q', o')
        && q'.owner[o] == q'.owner[o'] ensures o == o'
    {
      LookAtOwners(s, q);
      if o != p { PublishKeepsPcs(c, s, q, p, o); }
      if o' != p { PublishKeepsPcs(c, s, q, p, o'); }
    }
  }

  lemma PublishKeepsConsumer(c: Config, s: State, q: F.Queue, p: nat, size: nat)
    requires ValidConfig(c) && Inv(c, s, q)
    ensures ConsumerInv(c.layout, s.mem, s.cons, s.consumer, F.Record(q, F.Reserve(p, size)))
  {
    var q' := F.Record(q, F.Reserve(p, size));
    if q.head < |q.log| {
      assert q'.log[q.head] == q.log[q.head];
      assert StartOf(q', q.head + 1) == StartOf(q, q.head + 1);
    }
  }

  lemma PublishKeepsAllPcs(c: Config, s: State, q: F.Queue, p: nat)
    requires ValidConfig(c) && Inv(c, s, q) && Enabled(c, s, Publish(p))
    ensures ProducersInv(c, Step(c, s, Publish(p)), F.Record(q, Emit(c, s, Publish(p))))
  {
    var n, s', q' := c.layout.dataSize, Step(c, s, Publish(p)), F.Record(q, Emit(c, s, Publish(p)));
    forall o: nat ensures PcInv(n, s'.mem, s'.prod, s'.cons, q', o, Pc(s', o)) {
      if o != p {
        PublishKeepsPcs(c, s, q, p, o);
      } else {
        PublishedPc(c, s, q, p);
      }
    }
  }

  lemma PublishKeepsLock(c: Config, s: State, q: F.Queue, p: nat)
    requires ValidConfig(c) && Inv(c, s, q) && Enabled(c, s, Publish(p))
    ensures LockInv(Step(c, s, Publish(p)))
  {
    LookAtLock(s);
    LockStep(s, p, Step(c, s, Publish(p)));
  }

  lemma PublishAction(c: Config, s: State, q: F.Queue, p: nat)
    requires ValidConfig(c) && Inv(c, s, q) && Enabled(c, s, Publish(p))
    ensures Refines(c, s, q, Publish(p))
  {
    PcOf(c, s, q, p);
    PublishedPos(c, s, q, p);
    LogAfterPublish(c.layout.dataSize, s.prod, s.cons, q, p, Pc(s, p).size);
    PublishKeepsMemory(c, s, q, p);
    PublishKeepsAllPcs(c, s, q, p);
    PublishKeepsLock(c, s, q, p);
    PublishKeepsOwners(c, s, q, p);
    PublishKeepsConsumer(c, s, q, p, Pc(s, p).size);
  }

  lemma PublishedPc(c: Config, s: State, q: F.Queue, p: nat)
    requires ValidConfig(c) && Inv(c, s, q) && Enabled(c, s, Publish(p))
    ensures var s' := Step(c, s, Publish(p));
      PcInv(c.layout.dataSize, s'.mem, s'.prod, s'.cons, F.Record(q, Emit(c, s, Publish(p))), p, Pc(s', p))
  {
    PcOf(c, s, q, p);
  }

  lemma OwnedHeader(c: Config, s: State, q: F.Queue, p: nat)
    requires ValidConfig(c) && Inv(c, s, q) && BuffersAt(s, q, p)
    ensures q.head <= q.owner[p] && Header(c, s, Pc(s, p).pos) == BusyHeader(Pc(s, p).size)
    ensures InWindow'(c, s, q.log[q.owner[p]]) && InMemory'(s.mem, q.log[q.owner[p]])
    ensures Pc(s, p).size < U32 && Pc(s, p).pos % 8 == 0
  {
    PendingAfterHead(c, s, q, q.owner[p]);
    PendingIsLive(c, s, q, q.owner[p]);
    InWindow(c, s, q, q.owner[p]);
    EntryFacts(c.layout.dataSize, s.prod, s.cons, q, q.owner[p]);
    LookAtMemory(c.layout.dataSize, s.mem, s.prod, q.log);
    HeaderStates(Pc(s, p).size);
    LoadWordAt(c.layout, s.mem, Pc(s, p).pos, BusyHeader(Pc(s, p).size));
  }

  ghost predicate InWindow'(c: Config, s: State, r: F.Reservation) {
    && WindowStart(c.layout.dataSize, s.prod) <= r.pos
    && EndOf(r) <= s.prod < WindowStart(c.layout.dataSize, s.prod) + c.layout.dataSize
  }

  lemma FillEffect(mem: seq<byte>, mem': seq<byte>, r: F.Reservation, i: nat, b: byte, lo: nat)
    requires mem != [] && InMemory(mem, r) && i < r.size && r.status == F.Pending
    requires var at := r.pos + HEADER_SIZE + i; OnlyChanged(mem, mem', lo, at, at + 1) && At(mem', at) == b
    requires lo <= r.pos && EndOf(r) <= lo + |mem|
    ensures InMemory(mem', r.(written := r.written[i := b]))
  {
    var r' := r.(written := r.written[i := b]);
    forall j | 0 <= j < 8 ensures At(mem', r.pos + j) == Encode(WordOf(r'), 8)[j] {
      assert At(mem, r.pos + j) == Encode(WordOf(r), 8)[j];
    }
  }

  lemma FillStoredAt(l: Layout, mem: seq<byte>, r: F.Reservation, i: nat, b: byte, lo: nat)
    requires ValidLayout(l) && |mem| == l.dataSize && InMemory'(mem, r) && i < r.size && r.status == F.Pending
    requires lo <= r.pos && EndOf(r) <= lo + |mem|
    ensures var (mem', at) := (StoreByte(mem, Offset(l, r.pos) + HEADER_SIZE + i, b), r.pos + HEADER_SIZE + i);
      OnlyChanged(mem, mem', lo, at, at + 1) && InMemory'(mem', r.(written := r.written[i := b]))
  {
    StoreByteEffect(l, mem, r.pos, HEADER_SIZE + i, b, lo);
    FillEffect(mem, StoreByte(mem, Offset(l, r.pos) + HEADER_SIZE + i, b), r, i, b, lo);
  }

  lemma FillStored(c: Config, s: State, q: F.Queue, p: nat, i: nat, b: byte)
    requires ValidConfig(c) && Inv(c, s, q) && BuffersAt(s, q, p) && i < Pc(s, p).size
    ensures var r := q.log[q.owner[p]];
      var (mem', at) := (StoreByte(s.mem, Offset(c.layout, r.pos) + HEADER_SIZE + i, b), r.pos + HEADER_SIZE + i);
      && OnlyChanged(s.mem, mem', WindowStart(c.layout.dataSize, s.prod), at, at + 1)
      && InMemory'(mem', r.(written := r.written[i := b])) && at + 1 <= EndOf(r)
  {
    OwnedHeader(c, s, q, p);
    FillStoredAt(c.layout, s.mem, q.log[q.owner[p]], i, b, WindowStart(c.layout.dataSize, s.prod));
  }

  lemma FillAction(c: Config, s: State, q: F.Queue, p: nat, i: nat, b: byte)
    requires ValidConfig(c) && Inv(c, s, q) && Enabled(c, s, Fill(p, i, b))
    ensures Refines(c, s, q, Fill(p, i, b))
  {
    PcOf(c, s, q, p);
    FillStored(c, s, q, p, i, b);
    var r, s' := q.log[q.owner[p]], Step(c, s, Fill(p, i, b));
    var at := r.pos + HEADER_SIZE + i;
    OwnerWrites(c, s, q, p, Pc(s, p), s'.mem, r.(written := r.written[i := b]), at, at + 1);
    SamePc(s, p, s'.mem, s');
  }

  lemma SamePc(s: State, p: nat, mem': seq<byte>, s': State)
    requires p in s.producers && s' == s.(mem := mem')
    ensures s' == SetPc(s, p, Pc(s, p)).(mem := mem')
  {
    assert s.producers[p := s.producers[p]] == s.producers;
  }

  /** The owner overwrites its own busy header. */
  lemma FinishAction(c: Config, s: State, q: F.Queue, p: nat, pc': ProducerPc, st: F.Status)
    requires ValidConfig(c) && Inv(c, s, q) && BuffersAt(s, q, p)
    requires (pc' == Notifying && st == F.Committed)
      || (pc' == Rejected(Pc(s, p).size, Pc(s, p).pos) && st == F.Discarded)
    ensures var pos := Pc(s, p).pos;
      var w := WordOf(q.log[q.owner[p]].(status := st));
      Inv(c, SetPc(s, p, pc').(mem := StoreWord(s.mem, Offset(c.layout, pos), w)), F.SetStatus(q, p, st))
  {
    OwnedHeader(c, s, q, p);
    var pos, r := Pc(s, p).pos, q.log[q.owner[p]];
    var r' := r.(status := st);
    var lo := WindowStart(c.layout.dataSize, s.prod);
    StoreWordEffect(c.layout, s.mem, pos, WordOf(r'), lo);
    OwnerWrites(c, s, q, p, pc', StoreWord(s.mem, Offset(c.layout, pos), WordOf(r')), r', pos, pos + 8);
  }

  predicate LoadsHeader(a: Action) { a.LoadDiscard? || a.LoadCommit? }

  /** The owner loads its own busy header. */
  lemma LoadAction(c: Config, s: State, q: F.Queue, a: Action)
    requires ValidConfig(c) && Inv(c, s, q) && Enabled(c, s, a) && LoadsHeader(a)
    ensures Refines(c, s, q, a) && Header(c, s, Pc(s, a.p).pos) == BusyHeader(Pc(s, a.p).size)
  {
    PcOf(c, s, q, a.p);
    OwnedHeader(c, s, q, a.p);
    var s' := Step(c, s, a);
    LocalStep(c, s, q, a.p, Pc(s', a.p), s.lock, s.eventfd);
    assert s' == SetPc(s, a.p, Pc(s', a.p)).(lock := s.lock, eventfd := s.eventfd);
  }

  lemma StoreDiscardAction(c: Config, s: State, q: F.Queue, p: nat)
    requires ValidConfig(c) && Inv(c, s, q) && Enabled(c, s, StoreDiscard(p))
    ensures Refines(c, s, q, StoreDiscard(p))
  {
    PcOf(c, s, q, p);
    FinishAction(c, s, q, p, Rejected(Pc(s, p).size, Pc(s, p).pos), F.Discarded);
  }

  lemma StoreCommitAction(c: Config, s: State, q: F.Queue, p: nat)
    requires ValidConfig(c) && Inv(c, s, q) && Enabled(c, s, StoreCommit(p))
    ensures Refines(c, s, q, StoreCommit(p))
  {
    PcOf(c, s, q, p);
    FinishAction(c, s, q, p, Notifying, F.Committed);
  }

  lemma DropCheckAction(c: Config, s: State, q: F.Queue, p: nat)
    requires ValidConfig(c) && Inv(c, s, q) && Enabled(c, s, DropCheck(p)) && Timely(c, s, DropCheck(p))
    ensures Refines(c, s, q, DropCheck(p))
    ensures Step(c, s, DropCheck(p)).mem == s.mem
  {
    PcOf(c, s, q, p);
    var s' := Step(c, s, DropCheck(p));
    EntryFacts(c.layout.dataSize, s.prod, s.cons, q, q.owner[p]);
    HeaderStates(q.log[q.owner[p]].size);
    if Pc(s, p).Filling? {
      OwnedHeader(c, s, q, p);
    } else {
      LookAtMemory(c.layout.dataSize, s.mem, s.prod, q.log);
      LoadWordAt(c.layout, s.mem, Pc(s, p).pos, DiscardHeader(BusyHeader(Pc(s, p).size)));
    }
    LocalStep(c, s, q, p, Pc(s', p), s.lock, s.eventfd);
    assert s' == SetPc(s, p, Pc(s', p)).(lock := s.lock, eventfd := s.eventfd);
  }

  /** A timely drop after `discard` sees its own mark. */
  lemma RejectedDropNotifies(c: Config, s: State, q: F.Queue, p: nat)
    requires ValidConfig(c) && Inv(c, s, q) && Pc(s, p).Rejected? && Timely(c, s, DropCheck(p))
    ensures Step(c, s, DropCheck(p)) == SetPc(s, p, Notifying)
  {
    PcOf(c, s, q, p);
    EntryFacts(c.layout.dataSize, s.prod, s.cons, q, q.owner[p]);
    HeaderStates(Pc(s, p).size);
    LookAtMemory(c.layout.dataSize, s.mem, s.prod, q.log);
    LoadWordAt(c.layout, s.mem, Pc(s, p).pos, DiscardHeader(BusyHeader(Pc(s, p).size)));
  }

  lemma HeadHeader(c: Config, s: State, q: F.Queue)
    requires ValidConfig(c) && Inv(c, s, q) && q.head < |q.log|
    ensures Header(c, s, s.cons) == WordOf(q.log[q.head]) && InMemory'(s.mem, q.log[q.head])
    ensures HeaderLen(WordOf(q.log[q.head])) == q.log[q.head].size
    ensures IsBusy(Header(c, s, s.cons)) <==> q.log[q.head].status == F.Pending
    ensures !IsBusy(Header(c, s, s.cons)) ==>
      (IsDiscarded(Header(c, s, s.cons)) <==> q.log[q.head].status == F.Discarded)
  {
    PendingIsLive(c, s, q, q.head);
    EntryFacts(c.layout.dataSize, s.prod, s.cons, q, q.head);
    LookAtMemory(c.layout.dataSize, s.mem, s.prod, q.log);
    HeaderStates(q.log[q.head].size);
    LoadWordAt(c.layout, s.mem, s.cons, WordOf(q.log[q.head]));
  }

  lemma PayloadMatches(c: Config, s: State, q: F.Queue)
    requires ValidConfig(c) && Inv(c, s, q) && q.head < |q.log|
    ensures F.Matches(q.log[q.head], Payload(c, s, q.log[q.head].size))
  {
    HeadHeader(c, s, q);
    var r := q.log[q.head];
    forall i | i in r.written ensures i < r.size && Payload(c, s, r.size)[i] == r.written[i] {
      LinearIsCircular(c.layout, s.mem, s.cons, HEADER_SIZE + i);
      assert At(s.mem, r.pos + HEADER_SIZE + i) == r.written[i];
    }
  }

  /** Everything but the consumer's own part of the invariant, for steps that leave the positions alone. */
  lemma ConsumerStep(c: Config, s: State, q: F.Queue, s': State, q': F.Queue)
    requires ValidConfig(c) && Inv(c, s, q)
    requires s' == s.(consumer := s'.consumer, eventfd := s'.eventfd)
    requires q' == q.(holding := q'.holding, out := q'.out)
    requires ConsumerInv(c.layout, s.mem, s.cons, s'.consumer, q')
    ensures Inv(c, s', q')
  {
    forall p: nat ensures PcInv(c.layout.dataSize, s.mem, s.prod, s.cons, q', p, Pc(s', p)) {
      PcOf(c, s, q, p);
      assert Pc(s', p) == Pc(s, p);
    }
    LogIgnoresOutput(c.layout.dataSize, s.prod, s.cons, q, q');
    assert forall p: nat :: Pc(s', p) == Pc(s, p);
    assert LockInv(s');
    assert OwnerInv(s', q');
  }

  lemma LogIgnoresOutput(n: nat, prod: nat, cons: nat, q: F.Queue, q': F.Queue)
    requires LogInv(n, prod, cons, q) && q' == q.(holding := q'.holding, out := q'.out)
    ensures LogInv(n, prod, cons, q')
  {
    assert forall j: nat :: StartOf(q', j) == StartOf(q, j);
  }

  lemma ReadHeaderAction(c: Config, s: State, q: F.Queue)
    requires ValidConfig(c) && Inv(c, s, q) && Enabled(c, s, ReadHeader)
    ensures Refines(c, s, q, ReadHeader)
  {
    HeadHeader(c, s, q);
    PayloadMatches(c, s, q);
    EntryFacts(c.layout.dataSize, s.prod, s.cons, q, q.head);
    SumFits64(q.log[q.head].size, 0, s.cons);
    ConsumerStep(c, s, q, Step(c, s, ReadHeader), F.Record(q, Emit(c, s, ReadHeader)));
  }

  /** The consumer gives back the head reservation. */
  lemma LogAfterRelease(n: nat, prod: nat, cons: nat, q: F.Queue, q': F.Queue)
    requires LogInv(n, prod, cons, q) && q.head < |q.log| && q.log[q.head].status != F.Pending
    requires q' == q.(holding := q'.holding, head := q.head + 1)
    ensures LogInv(n, prod, StartOf(q, q.head + 1), q') && cons <= StartOf(q, q.head + 1)
  {
    assert forall j: nat :: StartOf(q', j) == StartOf(q, j);
    EntryFacts(n, prod, cons, q, q.head);
  }

  lemma HeadFreed(c: Config, s: State, q: F.Queue, pc': ConsumerPc)
    requires ValidConfig(c) && Inv(c, s, q) && q.head < |q.log| && q.log[q.head].status != F.Pending
    requires pc' == Looping || pc'.Ready?
    ensures Inv(c, s.(cons := StartOf(q, q.head + 1), consumer := pc'), q.(holding := false, head := q.head + 1))
  {
    var s', q' := s.(cons := StartOf(q, q.head + 1), consumer := pc'), q.(holding := false, head := q.head + 1);
    LogAfterRelease(c.layout.dataSize, s.prod, s.cons, q, q');
    forall p: nat ensures PcInv(c.layout.dataSize, s.mem, s.prod, s'.cons, q', p, Pc(s', p)) {
      PcOf(c, s, q, p);
      assert Pc(s', p) == Pc(s, p);
    }
    assert forall p: nat :: Pc(s', p) == Pc(s, p);
    assert LockInv(s') && OwnerInv(s', q');
  }

  predicate FreesSpace(a: Action) { a.AdvancePast? || a.DropRecord? }

  lemma FreeAction(c: Config, s: State, q: F.Queue, a: Action)
    requires ValidConfig(c) && Inv(c, s, q) && Enabled(c, s, a) && FreesSpace(a)
    ensures Refines(c, s, q, a)
  {
    var pc' := Step(c, s, a).consumer;
    HeadFreed(c, s, q, pc');
    assert Step(c, s, a) == s.(cons := StartOf(q, q.head + 1), consumer := pc');
    assert F.Record(q, Emit(c, s, a)) == q.(holding := false, head := q.head + 1);
  }

  lemma ReadPositionsAction(c: Config, s: State, q: F.Queue)
    requires ValidConfig(c) && Inv(c, s, q) && Enabled(c, s, ReadPositions)
    ensures Refines(c, s, q, ReadPositions)
  {
    if q.head < |q.log| { EntryFacts(c.layout.dataSize, s.prod, s.cons, q, q.head); }
    assert s.cons >= s.prod <==> q.head == |q.log|;
    ConsumerStep(c, s, q, Step(c, s, ReadPositions), q);
  }

  lemma QuietActions(c: Config, s: State, q: F.Queue, a: Action)
    requires ValidConfig(c) && Inv(c, s, q) && Enabled(c, s, a)
    requires a.NotifyByHand? || a.Peek? || a.Wait? || a.Wake?
    ensures Refines(c, s, q, a)
  {
    ConsumerStep(c, s, q, Step(c, s, a), q);
  }

  predicate OfConsumer(a: Action) {
    a.ReadPositions? || a.ReadHeader? || FreesSpace(a) || a.NotifyByHand? || a.Peek? || a.Wait? || a.Wake?
  }

  lemma ConsumerAction(c: Config, s: State, q: F.Queue, a: Action)
    requires ValidConfig(c) && Inv(c, s, q) && Enabled(c, s, a) && OfConsumer(a)
    ensures Refines(c, s, q, a)
  {
    if a.ReadPositions? { ReadPositionsAction(c, s, q); }
    else if a.ReadHeader? { ReadHeaderAction(c, s, q); }
    else if FreesSpace(a) { FreeAction(c, s, q, a); }
    else { QuietActions(c, s, q, a); }
  }

  lemma EveryAction(c: Config, s: State, q: F.Queue, a: Action)
    requires ValidConfig(c) && Inv(c, s, q) && Enabled(c, s, a) && WithinLimits(c, s, a)
    ensures Refines(c, s, q, a)
  {
    if OfConsumer(a) { ConsumerAction(c, s, q, a); }
    else if IsLocal(a) { LocalActions(c, s, q, a); }
    else if LoadsHeader(a) { LoadAction(c, s, q, a); }
    else {
      match a
      case WriteHeader(p) => WriteHeaderAction(c, s, q, p);
      case Publish(p) => PublishAction(c, s, q, p);
      case Fill(p, i, b) => FillAction(c, s, q, p, i, b);
      case StoreDiscard(p) => StoreDiscardAction(c, s, q, p);
      case DropCheck(p) => DropCheckAction(c, s, q, p);
      case StoreCommit(p) => StoreCommitAction(c, s, q, p);
    }
  }

  // ------------------------------------------------------------ main results

  ghost function QueueAfter(c: Config, s0: State, acts: seq<Action>): F.Queue
    requires ValidConfig(c) && Run(c, s0, acts)
  {
    F.Observe(Trace(c, s0, acts))
  }

  /** Every interleaving of any number of producers with the consumer is a run of the queue. */
  lemma {:induction false} RingRefinesFifo(c: Config, s0: State, acts: seq<Action>)
    requires ValidConfig(c) && LimitedRun(c, s0, acts)
    ensures F.FifoTrace(Trace(c, s0, acts))
    ensures Inv(c, After(c, s0, acts), QueueAfter(c, s0, acts))
  {
    if acts == [] {
      InitInv(c, s0);
    } else {
      var before, a := acts[..|acts| - 1], acts[|acts| - 1];
      RingRefinesFifo(c, s0, before);
      var s, q := After(c, s0, before), QueueAfter(c, s0, before);
      EveryAction(c, s, q, a);
      assert Trace(c, s0, acts)[..|acts| - 1] == Trace(c, s0, before);
    }
  }

  /** What the consumer was given, in order, is a prefix of the reservations
      that were not discarded, each one committed and byte for byte as written. */
  lemma DeliveredInOrder(c: Config, s0: State, acts: seq<Action>)
    requires ValidConfig(c) && LimitedRun(c, s0, acts)
    ensures var q := QueueAfter(c, s0, acts);
      |q.out| <= |F.Kept(q.log)| && F.DeliveredFrom(F.Kept(q.log)[..|q.out|], q.out)
  {
    RingRefinesFifo(c, s0, acts);
    F.DeliveryIsPrefix(Trace(c, s0, acts));
  }
}
