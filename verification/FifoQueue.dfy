/** What the ring buffer is for, stated without its memory: a first-in first-out
    queue of reservations, observed only through events. Of the memory it knows
    only how many bytes of the stream a record takes. */
module FifoQueue {
  import opened Words
  import opened RingMemory

  datatype Status = Pending | Committed | Discarded

  /** A reservation at its place in the stream, with the payload bytes its producer has written. */
  datatype Reservation = Reservation(pos: nat, size: nat, status: Status, written: map<nat, byte>)

  datatype Event =
    | Silent
    | Reserve(p: nat, size: nat)
    | Write(p: nat, i: nat, b: byte)
    | Commit(p: nat)
    | Discard(p: nat)
    | Deliver(bytes: seq<byte>)      // `consume` returned a record
    | Reread(bytes: seq<byte>)       // the holder of the record looked at it again
    | Release                        // the record was dropped
    | Skip                           // `consume` stepped over a discarded record
    | FoundEmpty                     // `consume` returned nothing: no record left
    | FoundBusy                      // `consume` returned nothing: next record not finished

  /** `owner` maps each producer to its latest reservation; `head` counts the
      reservations whose space was given back; `out` is everything delivered. */
  datatype Queue = Queue(log: seq<Reservation>, owner: map<nat, nat>, tail: nat,
                         head: nat, holding: bool, out: seq<seq<byte>>)

  const EmptyQueue := Queue([], map[], 0, 0, false, [])

  predicate Owned(q: Queue, p: nat) {
    p in q.owner && q.owner[p] < |q.log|
  }

  function SetStatus(q: Queue, p: nat, st: Status): Queue {
    if Owned(q, p) then
      q.(log := q.log[q.owner[p] := q.log[q.owner[p]].(status := st)])
    else q
  }

  function Record(q: Queue, e: Event): Queue {
    match e
    case Reserve(p, size) =>
      q.(log := q.log + [Reservation(q.tail, size, Pending, map[])],
         owner := q.owner[p := |q.log|], tail := q.tail + TotalSize(size))
    case Write(p, i, b) =>
      if Owned(q, p) then
        var r := q.log[q.owner[p]];
        q.(log := q.log[q.owner[p] := r.(written := r.written[i := b])])
      else q
    case Commit(p) => SetStatus(q, p, Committed)
    case Discard(p) => SetStatus(q, p, Discarded)
    case Deliver(bytes) => q.(holding := true, out := q.out + [bytes])
    case Release => q.(holding := false, head := q.head + 1)
    case Skip => q.(head := q.head + 1)
    case _ => q
  }

  /** A payload the consumer may see for a reservation: right length, every written byte in place. */
  predicate Matches(r: Reservation, bytes: seq<byte>) {
    |bytes| == r.size && forall i | i in r.written :: i < r.size && bytes[i] == r.written[i]
  }

  predicate HeadIs(q: Queue, st: Status) {
    q.head < |q.log| && q.log[q.head].status == st
  }

  predicate OwnsPending(q: Queue, p: nat) {
    Owned(q, p) && q.log[q.owner[p]].status == Pending
  }

  /** When a FIFO queue may do `e`. */
  predicate Allowed(q: Queue, e: Event) {
    match e
    case Silent => true
    case Reserve(_, _) => true
    case Write(p, i, _) => OwnsPending(q, p) && i < q.log[q.owner[p]].size
    case Commit(p) => OwnsPending(q, p)
    case Discard(p) => OwnsPending(q, p)
    case Deliver(bytes) => !q.holding && HeadIs(q, Committed) && Matches(q.log[q.head], bytes)
    case Reread(bytes) => q.holding && q.out != [] && bytes == q.out[|q.out| - 1]
    case Release => q.holding
    case Skip => !q.holding && HeadIs(q, Discarded)
    case FoundEmpty => !q.holding && q.head == |q.log|
    case FoundBusy => !q.holding && HeadIs(q, Pending)
  }

  function Observe(es: seq<Event>): Queue {
    if es == [] then EmptyQueue
    else Record(Observe(es[..|es| - 1]), es[|es| - 1])
  }

  predicate FifoTrace(es: seq<Event>) {
    es == [] || (FifoTrace(es[..|es| - 1]) && Allowed(Observe(es[..|es| - 1]), es[|es| - 1]))
  }

  // --------------------------------------------- what a FIFO trace delivers

  /** The reservations that were not discarded, in reservation order. */
  function Kept(log: seq<Reservation>): (kept: seq<Reservation>)
    ensures |kept| <= |log|
  {
    if log == [] then []
    else
      var last := log[|log| - 1];
      Kept(log[..|log| - 1]) + (if last.status == Discarded then [] else [last])
  }

  function Delivered(q: Queue): nat { q.head + if q.holding then 1 else 0 }

  ghost predicate DeliveredFrom(kept: seq<Reservation>, out: seq<seq<byte>>) {
    |kept| == |out| && forall k | 0 <= k < |out| :: kept[k].status == Committed && Matches(kept[k], out[k])
  }

  ghost predicate QueueInv(q: Queue) {
    && Delivered(q) <= |q.log|
    && (q.holding ==> q.out != [])
    && (forall i | 0 <= i < Delivered(q) :: q.log[i].status != Pending)
    && DeliveredFrom(Kept(q.log[..Delivered(q)]), q.out)
  }

  lemma QueueStep(q: Queue, e: Event)
    requires QueueInv(q) && Allowed(q, e)
    ensures QueueInv(Record(q, e))
  {
    var d, q' := Delivered(q), Record(q, e);
    match e {
      case Deliver(_) =>
        assert q'.log[..d + 1][..d] == q.log[..d];
      case Skip =>
        assert q'.log[..d + 1][..d] == q.log[..d];
      case Reserve(_, _) => assert q'.log[..d] == q.log[..d];
      case Write(p, _, _) => assert q'.log[..d] == q.log[..d];
      case Commit(p) => assert q'.log[..d] == q.log[..d];
      case Discard(p) => assert q'.log[..d] == q.log[..d];
      case _ =>
    }
  }

  lemma {:induction false} TraceInv(es: seq<Event>)
    requires FifoTrace(es)
    ensures QueueInv(Observe(es))
  {
    if es != [] {
      TraceInv(es[..|es| - 1]);
      QueueStep(Observe(es[..|es| - 1]), es[|es| - 1]);
    }
  }

  lemma {:induction false} KeptPrefix(log: seq<Reservation>, n: nat)
    requires n <= |log|
    ensures Kept(log[..n]) <= Kept(log)
  {
    if n < |log| {
      KeptPrefix(log[..|log| - 1], n);
      assert log[..|log| - 1][..n] == log[..n];
    } else {
      assert log[..n] == log;
    }
  }

  /** The delivered payloads are, in order, those of a prefix of the kept
      reservations, and each of these had been committed. */
  lemma DeliveryIsPrefix(es: seq<Event>)
    requires FifoTrace(es)
    ensures var q := Observe(es);
      |q.out| <= |Kept(q.log)| && DeliveredFrom(Kept(q.log)[..|q.out|], q.out)
  {
    TraceInv(es);
    var q := Observe(es);
    KeptPrefix(q.log, Delivered(q));
    assert Kept(q.log)[..|q.out|] == Kept(q.log[..Delivered(q)]);
  }

  /** Nothing is lost: when the consumer finds the queue empty, every kept
      reservation has been delivered; when it finds a busy record, every kept
      reservation before that record has been. */
  lemma EmptyMeansAllDelivered(es: seq<Event>)
    requires FifoTrace(es) && es != [] && es[|es| - 1] in {FoundEmpty, FoundBusy}
    ensures var q := Observe(es);
      q.head <= |q.log| && DeliveredFrom(Kept(q.log[..q.head]), q.out)
      && (es[|es| - 1] == FoundEmpty ==> DeliveredFrom(Kept(q.log), q.out))
      && (es[|es| - 1] == FoundBusy ==> HeadIs(q, Pending))
  {
    TraceInv(es);
    var q := Observe(es);
    if es[|es| - 1] == FoundEmpty {
      assert q.log[..q.head] == q.log;
    }
  }

  /** A finished reservation never changes again, and reservations never move. */
  lemma {:induction false} ReservationsAreStable(es: seq<Event>, n: nat, i: nat)
    requires FifoTrace(es) && n <= |es| && i < |Observe(es[..n]).log|
    ensures i < |Observe(es).log|
    ensures var (r, r') := (Observe(es[..n]).log[i], Observe(es).log[i]);
      r.pos == r'.pos && r.size == r'.size && (r.status != Pending ==> r == r')
  {
    if n == |es| {
      assert es[..n] == es;
    } else {
      assert es[..|es| - 1][..n] == es[..n];
      ReservationsAreStable(es[..|es| - 1], n, i);
    }
  }
}
