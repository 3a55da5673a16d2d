/** The ring buffer as it runs: any number of reservations in flight, each at
    its own program point, and one consumer, over shared memory. Every action
    performs at most one access to a location another thread may touch. */
module RingProtocol {
  import opened Words
  import opened RingMemory
  import F = FifoQueue

  const SPIN_LIMIT: nat := 100_000

  /** Where a reservation attempt, and later its buffer, stands
      (mpscbuf/src/producer.rs, mpscbuf/src/sync.rs). A producer may hold many
      buffers at once: each is a separate index. */
  datatype ProducerPc =
    | Idle
    | Acquiring(size: nat, seen: nat, spins: nat)       // about to compare-and-exchange
    | Spinning(size: nat, seen: nat, spins: nat)        // about to re-read the lock
    | Locked(size: nat, seen: nat)                      // about to read the producer position
    | Checking(size: nat, seen: nat, pos: nat)          // about to test for space
    | HeaderWritten(size: nat, pos: nat)                // about to advance the producer position
    | Published(size: nat, pos: nat)                    // about to release the lock
    | Filling(size: nat, pos: nat)                      // buffer handed to the caller
    | Rejecting(size: nat, pos: nat, word: nat)         // `discard` loaded the header, about to store
    | Rejected(size: nat, pos: nat)                     // `discard` stored, its drop still to run
    | Dropping(size: nat, pos: nat, rejected: bool)     // drop saw no discard flag, about to load
    | Committing(size: nat, pos: nat, rejected: bool, word: nat) // `commit` loaded the header, about to store
    | Notifying                                         // about to notify

  datatype ConsumerPc =
    | Ready(drained: bool)            // between calls; the last call returned nothing iff drained
    | Looping                         // inside `consume`, after a discarded record
    | SawRecord                       // inside `consume`, a record is there
    | Skipping(next: nat)             // inside `consume`, about to advance past a discarded record
    | Holding(len: nat, next: nat)    // a `Record` is alive
    | Blocked(drained: bool)          // inside `wait`

  datatype State = State(mem: seq<byte>, prod: nat, cons: nat, lock: bool, eventfd: nat,
                         producers: map<nat, ProducerPc>, consumer: ConsumerPc)

  /** `forced` are the producers with `WakeupStrategy::Forced`. */
  datatype Config = Config(layout: Layout, forced: iset<nat>)

  datatype Action =
    | BeginReserve(p: nat, size: nat)
    | TryLock(p: nat, spurious: bool)
    | SpinRead(p: nat)
    | ReadProducer(p: nat)
    | Refuse(p: nat)
    | WriteHeader(p: nat)
    | Publish(p: nat)
    | Unlock(p: nat)
    | Fill(p: nat, i: nat, b: byte)
    | LoadDiscard(p: nat)
    | StoreDiscard(p: nat)
    | DropCheck(p: nat)
    | LoadCommit(p: nat)
    | StoreCommit(p: nat)
    | Notify(p: nat)
    | NotifyByHand
    | ReadPositions
    | ReadHeader
    | AdvancePast
    | Peek
    | DropRecord
    | Wait
    | Wake

  function Pc(s: State, p: nat): ProducerPc {
    if p in s.producers then s.producers[p] else Idle
  }

  function SetPc(s: State, p: nat, pc: ProducerPc): State {
    s.(producers := s.producers[p := pc])
  }

  ghost predicate Init(c: Config, s: State) {
    && |s.mem| == c.layout.dataSize && s.prod == s.cons == 0 && !s.lock && s.eventfd == 0
    && s.producers == map[] && s.consumer == Ready(false)
  }

  ghost predicate ValidConfig(c: Config) { ValidLayout(c.layout) }

  /** `new_prod_pos - consumer_pos > size_mask`, in 64 bits that wrap. */
  predicate NoRoom(c: Config, size: nat, seen: nat, pos: nat) {
    Outstanding(size, seen, pos) > c.layout.dataSize - 1
  }

  ghost predicate Enabled(c: Config, s: State, a: Action) {
    match a
    case BeginReserve(p, size) => Pc(s, p).Idle? && size < U64
    case TryLock(p, spurious) => Pc(s, p).Acquiring?
    case SpinRead(p) => Pc(s, p).Spinning?
    case ReadProducer(p) => Pc(s, p).Locked?
    case Refuse(p) => Pc(s, p).Checking? && NoRoom(c, Pc(s, p).size, Pc(s, p).seen, Pc(s, p).pos)
    case WriteHeader(p) => Pc(s, p).Checking? && !NoRoom(c, Pc(s, p).size, Pc(s, p).seen, Pc(s, p).pos)
    case Publish(p) => Pc(s, p).HeaderWritten?
    case Unlock(p) => Pc(s, p).Published?
    case Fill(p, i, b) => Pc(s, p).Filling? && i < Pc(s, p).size
    case LoadDiscard(p) => Pc(s, p).Filling?
    case StoreDiscard(p) => Pc(s, p).Rejecting?
    case DropCheck(p) => Pc(s, p).Filling? || Pc(s, p).Rejected?
    case LoadCommit(p) => Pc(s, p).Dropping?
    case StoreCommit(p) => Pc(s, p).Committing?
    case Notify(p) => Pc(s, p).Notifying?
    case NotifyByHand => true
    case ReadPositions => s.consumer.Ready? || s.consumer.Looping?
    case ReadHeader => s.consumer.SawRecord?
    case AdvancePast => s.consumer.Skipping?
    case Peek => s.consumer.Holding?
    case DropRecord => s.consumer.Holding?
    case Wait => s.consumer.Ready?
    case Wake => s.consumer.Blocked? && s.eventfd > 0
  }

  /** The header word the owner of a buffer at `pos` reads. */
  function Header(c: Config, s: State, pos: nat): nat
    requires c.layout.dataSize > 0
  {
    LoadWord(s.mem, Offset(c.layout, pos))
  }

  /** The slice a `Record` of `len` bytes at the consumer position shows. */
  function Payload(c: Config, s: State, len: nat): (bs: seq<byte>)
    requires c.layout.dataSize > 0
    ensures |bs| == len
  {
    LoadBytes(s.mem, Offset(c.layout, s.cons) + HEADER_SIZE, len)
  }

  function AfterFailedSpin(size: nat, seen: nat, spins: nat): ProducerPc {
    if spins + 1 >= SPIN_LIMIT then Idle else Spinning(size, seen, spins + 1)
  }

  ghost function Step(c: Config, s: State, a: Action): (s': State)
    requires ValidConfig(c) && Enabled(c, s, a)
  {
    var l := c.layout;
    match a
    case BeginReserve(p, size) => SetPc(s, p, Acquiring(size, s.cons, 0))
    case TryLock(p, spurious) =>
      var Acquiring(size, seen, spins) := Pc(s, p);
      if !s.lock && !spurious then SetPc(s, p, Locked(size, seen)).(lock := true)
      else SetPc(s, p, AfterFailedSpin(size, seen, spins))
    case SpinRead(p) =>
      var Spinning(size, seen, spins) := Pc(s, p);
      SetPc(s, p, if s.lock then AfterFailedSpin(size, seen, spins) else Acquiring(size, seen, spins))
    case ReadProducer(p) =>
      var Locked(size, seen) := Pc(s, p);
      SetPc(s, p, Checking(size, seen, s.prod))
    case Refuse(p) => SetPc(s, p, Idle).(lock := false)
    case WriteHeader(p) =>
      var Checking(size, _, pos) := Pc(s, p);
      SetPc(s, p, HeaderWritten(size, pos)).(mem := StoreWord(s.mem, Offset(l, pos), BusyHeader(size)))
    case Publish(p) =>
      var HeaderWritten(size, pos) := Pc(s, p);
      SetPc(s, p, Published(size, pos)).(prod := NextPos(size, pos))
    case Unlock(p) =>
      var Published(size, pos) := Pc(s, p);
      SetPc(s, p, Filling(size, pos)).(lock := false)
    case Fill(p, i, b) =>
      s.(mem := StoreByte(s.mem, Offset(l, Pc(s, p).pos) + HEADER_SIZE + i, b))
    case LoadDiscard(p) =>
      var Filling(size, pos) := Pc(s, p);
      SetPc(s, p, Rejecting(size, pos, Header(c, s, pos)))
    case StoreDiscard(p) =>
      var Rejecting(size, pos, word) := Pc(s, p);
      SetPc(s, p, Rejected(size, pos)).(mem := StoreWord(s.mem, Offset(l, pos), DiscardHeader(word)))
    case DropCheck(p) =>
      var pc := Pc(s, p);
      SetPc(s, p, if IsDiscarded(Header(c, s, pc.pos)) then Notifying
                  else Dropping(pc.size, pc.pos, pc.Rejected?))
    case LoadCommit(p) =>
      var Dropping(size, pos, rejected) := Pc(s, p);
      SetPc(s, p, Committing(size, pos, rejected, Header(c, s, pos)))
    case StoreCommit(p) =>
      var Committing(_, pos, _, word) := Pc(s, p);
      SetPc(s, p, Notifying).(mem := StoreWord(s.mem, Offset(l, pos), CommitHeader(word)))
    case Notify(p) =>
      SetPc(s, p, Idle).(eventfd := if p in c.forced then s.eventfd + 1 else s.eventfd)
    case NotifyByHand => s.(eventfd := s.eventfd + 1)
    case ReadPositions => s.(consumer := if s.cons >= s.prod then Ready(true) else SawRecord)
    case ReadHeader =>
      var w := Header(c, s, s.cons);
      var next := NextPos(HeaderLen(w), s.cons);
      s.(consumer := if IsBusy(w) then Ready(true)
                     else if IsDiscarded(w) then Skipping(next)
                     else Holding(HeaderLen(w), next))
    case AdvancePast => s.(cons := s.consumer.next, consumer := Looping)
    case Peek => s
    case DropRecord => s.(cons := s.consumer.next, consumer := Ready(false))
    case Wait => s.(consumer := Blocked(s.consumer.drained))
    case Wake => s.(eventfd := 0, consumer := Ready(false))
  }

  /** What an observer of the queue sees of an action. */
  ghost function Emit(c: Config, s: State, a: Action): F.Event
    requires ValidConfig(c) && Enabled(c, s, a)
  {
    match a
    case Publish(p) => F.Reserve(p, Pc(s, p).size)
    case Fill(p, i, b) => F.Write(p, i, b)
    case StoreDiscard(p) => F.Discard(p)
    case StoreCommit(p) => if Pc(s, p).rejected then F.Silent else F.Commit(p)
    case ReadPositions => if s.cons >= s.prod then F.FoundEmpty else F.Silent
    case ReadHeader =>
      var w := Header(c, s, s.cons);
      if IsBusy(w) then F.FoundBusy
      else if IsDiscarded(w) then F.Silent
      else F.Deliver(Payload(c, s, HeaderLen(w)))
    case AdvancePast => F.Skip
    case Peek => F.Reread(Payload(c, s, s.consumer.len))
    case DropRecord => F.Release
    case _ => F.Silent
  }

  /** A length that is written must survive its truncation to 32 bits. */
  ghost predicate LengthFits(s: State, a: Action) { a.WriteHeader? && Pc(s, a.p).Checking? ==> Pc(s, a.p).size < U32 }

  /** The position behind a record that is written must be below 2^64. */
  ghost predicate SumFits(s: State, a: Action) {
    a.WriteHeader? && Pc(s, a.p).Checking? ==> Pc(s, a.p).pos + TotalSize(Pc(s, a.p).size) < U64
  }

  /** Since the drop after `discard` re-reads a header the consumer may already
      have given back, it must run before the producers come round to that header again. */
  ghost predicate Timely(c: Config, s: State, a: Action) {
    a.DropCheck? && Pc(s, a.p).Rejected? ==> s.prod < Pc(s, a.p).pos + c.layout.dataSize
  }

  /** The things the code leaves to its callers. */
  ghost predicate WithinLimits(c: Config, s: State, a: Action) { LengthFits(s, a) && Careful(c, s, a) }

  /** The same, whatever the lengths. */
  ghost predicate Careful(c: Config, s: State, a: Action) { SumFits(s, a) && Timely(c, s, a) }

  /** The state a sequence of actions leads to; an action that is not enabled does nothing. */
  ghost function After(c: Config, s0: State, acts: seq<Action>): State
    requires ValidConfig(c)
  {
    if acts == [] then s0
    else
      var s := After(c, s0, acts[..|acts| - 1]);
      if Enabled(c, s, acts[|acts| - 1]) then Step(c, s, acts[|acts| - 1]) else s
  }

  /** A run: it starts fresh and every action is enabled when taken. */
  ghost predicate Run(c: Config, s0: State, acts: seq<Action>)
    requires ValidConfig(c)
  {
    if acts == [] then Init(c, s0)
    else Run(c, s0, acts[..|acts| - 1]) && Enabled(c, After(c, s0, acts[..|acts| - 1]), acts[|acts| - 1])
  }

  /** The same, every action keeping within the limits. */
  ghost predicate LimitedRun(c: Config, s0: State, acts: seq<Action>)
    requires ValidConfig(c)
  {
    Run(c, s0, acts)
    && (acts != [] ==>
          LimitedRun(c, s0, acts[..|acts| - 1])
          && WithinLimits(c, After(c, s0, acts[..|acts| - 1]), acts[|acts| - 1]))
  }

  /** The same, whatever the lengths. */
  ghost predicate CarefulRun(c: Config, s0: State, acts: seq<Action>)
    requires ValidConfig(c)
  {
    Run(c, s0, acts)
    && (acts != [] ==>
          CarefulRun(c, s0, acts[..|acts| - 1])
          && Careful(c, After(c, s0, acts[..|acts| - 1]), acts[|acts| - 1]))
  }

  ghost function Trace(c: Config, s0: State, acts: seq<Action>): (es: seq<F.Event>)
    requires ValidConfig(c) && Run(c, s0, acts)
    ensures |es| == |acts|
  {
    if acts == [] then []
    else
      Trace(c, s0, acts[..|acts| - 1])
      + [Emit(c, After(c, s0, acts[..|acts| - 1]), acts[|acts| - 1])]
  }
}
