/** How an attempt to take the lock ends, counted from what the producer did and
    found on its way. */
module RingLocking {
  import opened RingMemory
  import opened RingProtocol
  import opened RingSafety

  /** `p` has begun an attempt. */
  predicate Began(acts: seq<Action>, p: nat) { exists k :: 0 <= k < |acts| && acts[k].BeginReserve? && acts[k].p == p }

  /** The size of its latest attempt. */
  function Wanted(acts: seq<Action>, p: nat): nat {
    if acts == [] then 0
    else
      var a := acts[|acts| - 1];
      if a.BeginReserve? && a.p == p then a.size else Wanted(acts[..|acts| - 1], p)
  }

  /** The consumer position when it began. */
  ghost function ConsumerThen(c: Config, s0: State, acts: seq<Action>, p: nat): nat
    requires ValidConfig(c)
  {
    if acts == [] then 0
    else
      var (before, a) := (acts[..|acts| - 1], acts[|acts| - 1]);
      if a.BeginReserve? && a.p == p then After(c, s0, before).cons else ConsumerThen(c, s0, before, p)
  }

  /** An exchange of the flag that fails: the flag is set, or it fails spuriously. */
  predicate FailsToTake(s: State, a: Action, p: nat) { a.TryLock? && a.p == p && (s.lock || a.spurious) }

  /** A look that finds the flag set. */
  predicate FindsItSet(s: State, a: Action, p: nat) { a == SpinRead(p) && s.lock }

  /** Failed exchanges and looks that found the flag set, since `p` last began an attempt. */
  ghost function Failures(c: Config, s0: State, acts: seq<Action>, p: nat): nat
    requires ValidConfig(c)
  {
    if acts == [] then 0
    else
      var (before, a) := (acts[..|acts| - 1], acts[|acts| - 1]);
      var s := After(c, s0, before);
      if a.BeginReserve? && a.p == p then 0
      else Failures(c, s0, before, p) + if FailsToTake(s, a, p) || FindsItSet(s, a, p) then 1 else 0
  }

  /** `p` exchanged a clear flag since it last began an attempt. */
  ghost predicate Took(c: Config, s0: State, acts: seq<Action>, p: nat)
    requires ValidConfig(c)
  {
    acts != []
    && var (before, a) := (acts[..|acts| - 1], acts[|acts| - 1]);
       if a.BeginReserve? && a.p == p then false
       else Took(c, s0, before, p) || (a == TryLock(p, false) && !After(c, s0, before).lock)
  }

  /** What `p` did last, if not begin: a look that found the flag clear, or a failure. */
  ghost predicate SawItClear(c: Config, s0: State, acts: seq<Action>, p: nat)
    requires ValidConfig(c)
  {
    acts != []
    && var (before, a) := (acts[..|acts| - 1], acts[|acts| - 1]);
       var s := After(c, s0, before);
       if a.BeginReserve? && a.p == p then true
       else if FailsToTake(s, a, p) || FindsItSet(s, a, p) then false
       else if a == SpinRead(p) then true
       else SawItClear(c, s0, before, p)
  }

  /** Where an attempt that never took the lock stands, by what it met. */
  predicate Stands(pc: ProducerPc, size: nat, seen: nat, failures: nat, clear: bool) {
    && failures <= SPIN_LIMIT
    && (pc.Idle? <==> failures == SPIN_LIMIT)
    && (failures < SPIN_LIMIT ==>
          if clear then pc.Acquiring? && pc.size == size && pc.seen == seen
          else pc.Spinning? && pc.size == size && pc.seen == seen)
  }

  /** The same, with the count the program point carries. */
  ghost predicate Counted(pc: ProducerPc, size: nat, seen: nat, failures: nat, clear: bool) {
    && Stands(pc, size, seen, failures, clear)
    && ((pc.Acquiring? || pc.Spinning?) ==> pc.spins == failures)
  }

  lemma OthersLeaveAlone(c: Config, s: State, a: Action, p: nat)
    requires ValidConfig(c) && Enabled(c, s, a) && (Pc(s, p).Idle? || Pc(s, p).Acquiring? || Pc(s, p).Spinning?)
    requires !(a.BeginReserve? && a.p == p) && !(a.TryLock? && a.p == p) && a != SpinRead(p)
    ensures Pc(Step(c, s, a), p) == Pc(s, p)
  {
  }

  lemma OwnStep(c: Config, s: State, a: Action, p: nat, size: nat, seen: nat, failures: nat, clear: bool)
    requires ValidConfig(c) && Enabled(c, s, a) && Counted(Pc(s, p), size, seen, failures, clear)
    requires (a.TryLock? && a.p == p) || a == SpinRead(p)
    requires !(a == TryLock(p, false) && !s.lock)
    ensures var failed := FailsToTake(s, a, p) || FindsItSet(s, a, p);
      Counted(Pc(Step(c, s, a), p), size, seen, if failed then failures + 1 else failures, !failed)
  {
  }

  lemma {:induction false} AlwaysCounted(c: Config, s0: State, acts: seq<Action>, p: nat)
    requires ValidConfig(c) && Run(c, s0, acts) && Began(acts, p) && !Took(c, s0, acts, p)
    ensures Counted(Pc(After(c, s0, acts), p), Wanted(acts, p), ConsumerThen(c, s0, acts, p),
                    Failures(c, s0, acts, p), SawItClear(c, s0, acts, p))
  {
    var before, a := acts[..|acts| - 1], acts[|acts| - 1];
    var s := After(c, s0, before);
    if !(a.BeginReserve? && a.p == p) {
      assert Began(before, p) by {
        var k :| 0 <= k < |acts| && acts[k].BeginReserve? && acts[k].p == p;
        assert before[k] == acts[k];
      }
      AlwaysCounted(c, s0, before, p);
      if (a.TryLock? && a.p == p) || a == SpinRead(p) {
        OwnStep(c, s, a, p, Wanted(before, p), ConsumerThen(c, s0, before, p), Failures(c, s0, before, p),
                SawItClear(c, s0, before, p));
      } else {
        OthersLeaveAlone(c, s, a, p);
      }
    }
  }

  /** Over every run: as long as an attempt has not taken the lock, it has given up if
      and only if its failed exchanges and its looks that found the flag set number
      100 000, and with fewer it is still trying: to exchange the flag if it has just
      begun or last saw the flag clear, to see it clear otherwise. */
  lemma GivesUpIff(c: Config, s0: State, acts: seq<Action>, p: nat)
    requires ValidConfig(c) && Run(c, s0, acts) && Began(acts, p) && !Took(c, s0, acts, p)
    ensures var (pc, n) := (Pc(After(c, s0, acts), p), Failures(c, s0, acts, p));
      && n <= 100_000 && (pc.Idle? <==> n == 100_000)
      && (n < 100_000 ==>
            && (if SawItClear(c, s0, acts, p) then pc.Acquiring? else pc.Spinning?)
            && pc.size == Wanted(acts, p) && pc.seen == ConsumerThen(c, s0, acts, p))
  {
    AlwaysCounted(c, s0, acts, p);
  }

  /** An exchange that does not fail spuriously takes a clear flag, however long the
      attempt has been trying, and nobody else takes it then. */
  lemma ExchangeTakesClearFlag(c: Config, s0: State, acts: seq<Action>, p: nat)
    requires ValidConfig(c) && Run(c, s0, acts) && Began(acts, p) && !Took(c, s0, acts, p)
    requires Enabled(c, After(c, s0, acts), TryLock(p, false)) && !After(c, s0, acts).lock
    ensures var (s, s') := (After(c, s0, acts), Step(c, After(c, s0, acts), TryLock(p, false)));
      && s'.lock && Pc(s', p) == Locked(Wanted(acts, p), ConsumerThen(c, s0, acts, p))
      && forall o: nat | o != p :: Pc(s', o) == Pc(s, o)
  {
    AlwaysCounted(c, s0, acts, p);
  }

  // ------------------------------------------------------- the flag and its holder

  /** The flag is set exactly while one attempt holds the lock, and no two do. */
  ghost predicate FlagTellsHolder(s: State) {
    && (s.lock <==> exists p: nat :: HasLock(Pc(s, p)))
    && forall p: nat, o: nat | HasLock(Pc(s, p)) && HasLock(Pc(s, o)) :: p == o
  }

  /** A producer's step moves the flag along with its own hold on it. */
  lemma ProducerHold(c: Config, s: State, a: Action)
    requires ValidConfig(c) && Enabled(c, s, a) && !OfConsumer(a) && (HasLock(Pc(s, a.p)) ==> s.lock)
    ensures var s' := Step(c, s, a);
      && (s'.lock <==> if HasLock(Pc(s, a.p)) || HasLock(Pc(s', a.p)) then HasLock(Pc(s', a.p)) else s.lock)
      && (HasLock(Pc(s', a.p)) && !HasLock(Pc(s, a.p)) ==> !s.lock)
  {
  }

  lemma OnlyOwnMoves(c: Config, s: State, a: Action)
    requires ValidConfig(c) && Enabled(c, s, a)
    ensures forall o: nat | OfConsumer(a) || o != a.p :: Pc(Step(c, s, a), o) == Pc(s, o)
    ensures OfConsumer(a) ==> Step(c, s, a).lock == s.lock
  {
  }

  /** In every run the flag is set exactly while one attempt holds the lock. */
  lemma {:induction false} FlagIsHeldIff(c: Config, s0: State, acts: seq<Action>)
    requires ValidConfig(c) && Run(c, s0, acts)
    ensures FlagTellsHolder(After(c, s0, acts))
  {
    if acts != [] {
      var before, a := acts[..|acts| - 1], acts[|acts| - 1];
      FlagIsHeldIff(c, s0, before);
      HoldKept(c, After(c, s0, before), a);
    }
  }

  lemma HoldKept(c: Config, s: State, a: Action)
    requires ValidConfig(c) && Enabled(c, s, a) && FlagTellsHolder(s)
    ensures FlagTellsHolder(Step(c, s, a))
  {
    var s' := Step(c, s, a);
    OnlyOwnMoves(c, s, a);
    if !OfConsumer(a) { ProducerHold(c, s, a); }
    if s.lock {
      var o: nat :| HasLock(Pc(s, o));
      if s'.lock { assert HasLock(Pc(s', o)) || HasLock(Pc(s', a.p)); }
    }
  }
}
