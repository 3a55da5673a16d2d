/** Periodic sampling of counters that live in evictable map entries: each
    sample is reported as its difference from the previous one, unless the
    entry was recreated in between, which its first-seen time gives away. */
module Deltas {

  import opened Basics

  /** A map entry at sampling time; `generation` is its first-seen time. */
  datatype Sample = Sample(generation: nat, counters: seq<nat>)

  function CounterOf(s: Sample, k: nat): nat { if k < |s.counters| then s.counters[k] else 0 }

  /** The reported change of counter `k`. */
  function DeltaOf(current: Sample, previous: Option<Sample>, k: nat): nat {
    if previous.Some? && previous.value.generation == current.generation
    then SaturatingSub(CounterOf(current, k), CounterOf(previous.value, k))
    else CounterOf(current, k)
  }

  function Last(samples: seq<Sample>): Option<Sample> {
    if samples == [] then None else Some(samples[|samples| - 1])
  }

  /** The sum of everything reported for counter `k`. */
  function Reported(samples: seq<Sample>, k: nat): nat {
    if samples == [] then 0
    else
      var before := samples[..|samples| - 1];
      Reported(before, k) + DeltaOf(samples[|samples| - 1], Last(before), k)
  }

  /** What each generation had counted when it was last sampled, summed. */
  function Counted(samples: seq<Sample>, k: nat): nat
    decreases samples, 0
  {
    if samples == [] then 0
    else
      var before, current := samples[..|samples| - 1], samples[|samples| - 1];
      Superseded(before, current.generation, k) + CounterOf(current, k)
  }

  /** The same, leaving out the last sample if `generation` continues it. */
  function Superseded(samples: seq<Sample>, generation: nat, k: nat): nat
    decreases samples, 1
  {
    if samples == [] then 0
    else if samples[|samples| - 1].generation == generation
    then Superseded(samples[..|samples| - 1], generation, k)
    else Counted(samples, k)
  }

  /** Counter `k` never falls between samples of one generation. */
  predicate MonotoneWithin(samples: seq<Sample>, k: nat) {
    forall i: nat | i + 1 < |samples| && samples[i].generation == samples[i + 1].generation ::
      CounterOf(samples[i], k) <= CounterOf(samples[i + 1], k)
  }

  /** Deltas never lose counts across eviction and recreation, and they conserve
      them exactly for the counters that do not fall within a generation. */
  lemma {:induction false} DeltasConserveCounts(samples: seq<Sample>, k: nat)
    ensures Reported(samples, k) >= Counted(samples, k)
    ensures Reported(samples, k) == Counted(samples, k) <==> MonotoneWithin(samples, k)
  {
    if samples != [] {
      var before, current := samples[..|samples| - 1], samples[|samples| - 1];
      DeltasConserveCounts(before, k);
      assert MonotoneWithin(samples, k) ==> MonotoneWithin(before, k) by {
        assert forall i | 0 <= i < |before| :: before[i] == samples[i];
      }
      if before != [] {
        var last := before[|before| - 1];
        assert last == samples[|samples| - 2];
        assert Counted(before, k) == Superseded(before[..|before| - 1], last.generation, k) + CounterOf(last, k);
        if last.generation == current.generation {
          assert Superseded(before, current.generation, k) == Superseded(before[..|before| - 1], current.generation, k);
          assert MonotoneWithin(samples, k) <==>
              MonotoneWithin(before, k) && CounterOf(last, k) <= CounterOf(current, k) by {
            LastPair(samples, k);
          }
        } else {
          LastPair(samples, k);
        }
      }
    }
  }

  lemma LastPair(samples: seq<Sample>, k: nat)
    requires |samples| >= 2
    ensures var n := |samples|;
      MonotoneWithin(samples, k) <==>
        MonotoneWithin(samples[..n - 1], k)
        && (samples[n - 2].generation == samples[n - 1].generation ==>
              CounterOf(samples[n - 2], k) <= CounterOf(samples[n - 1], k))
  {
    var n := |samples|;
    assert forall i | 0 <= i < n - 1 :: samples[..n - 1][i] == samples[i];
    if MonotoneWithin(samples[..n - 1], k)
       && (samples[n - 2].generation == samples[n - 1].generation ==>
             CounterOf(samples[n - 2], k) <= CounterOf(samples[n - 1], k)) {
      forall i: nat | i + 1 < n && samples[i].generation == samples[i + 1].generation
        ensures CounterOf(samples[i], k) <= CounterOf(samples[i + 1], k)
      {
        if i + 1 < n - 1 { assert samples[..n - 1][i + 1] == samples[i + 1]; }
      }
    }
  }

  /** Without eviction there is one generation, and the deltas sum to the final sample. */
  lemma {:induction false} DeltasSumToLast(samples: seq<Sample>, k: nat)
    requires samples != [] && MonotoneWithin(samples, k)
    requires forall i | 0 <= i < |samples| :: samples[i].generation == samples[0].generation
    ensures Reported(samples, k) == CounterOf(samples[|samples| - 1], k)
  {
    DeltasConserveCounts(samples, k);
    NothingSuperseded(samples[..|samples| - 1], samples[0].generation, k);
  }

  lemma {:induction false} NothingSuperseded(samples: seq<Sample>, generation: nat, k: nat)
    requires forall i | 0 <= i < |samples| :: samples[i].generation == generation
    ensures Superseded(samples, generation, k) == 0
  {
    if samples != [] { NothingSuperseded(samples[..|samples| - 1], generation, k); }
  }

  // ---------------------------------------------- entries and their first sight

  // The first-seen time only stands for the entry. Below, `lives[i]` carries a
  // number of its own for each entry that ever was, `seen[i]` what the sampler goes by.

  /** The sampler takes the last sample for a continuation of the one before, and it is not. */
  predicate MistakenLast(seen: seq<Sample>, lives: seq<Sample>)
    requires |seen| == |lives| >= 2
  {
    var n := |seen|;
    seen[n - 1].generation == seen[n - 2].generation && lives[n - 1].generation != lives[n - 2].generation
  }

  /** Two samples in a row that the sampler takes for one entry are of one. */
  predicate ToldApartAt(seen: seq<Sample>, lives: seq<Sample>, i: nat)
    requires |seen| == |lives| && i + 1 < |seen|
  {
    seen[i].generation == seen[i + 1].generation ==> lives[i].generation == lives[i + 1].generation
  }

  predicate ToldApart(seen: seq<Sample>, lives: seq<Sample>)
    requires |seen| == |lives|
  {
    forall i: nat | i + 1 < |seen| :: ToldApartAt(seen, lives, i)
  }

  lemma {:induction false} ToldApartIsHarmless(seen: seq<Sample>, lives: seq<Sample>, k: nat)
    requires |seen| == |lives| && ToldApart(seen, lives)
    ensures Harmless(seen, lives, k)
  {
    var n := |seen|;
    if n >= 2 {
      var seen', lives' := seen[..n - 1], lives[..n - 1];
      forall i: nat | i + 1 < n - 1 ensures ToldApartAt(seen', lives', i) {
        assert ToldApartAt(seen, lives, i);
      }
      ToldApartIsHarmless(seen', lives', k);
      assert ToldApartAt(seen, lives, n - 2);
    }
  }

  /** Wherever an entry was mistaken for the one before, one of the two had counted nothing. */
  predicate Harmless(seen: seq<Sample>, lives: seq<Sample>, k: nat)
    requires |seen| == |lives|
  {
    var n := |seen|;
    n < 2 || (
      && Harmless(seen[..n - 1], lives[..n - 1], k)
      && (MistakenLast(seen, lives) ==> CounterOf(seen[n - 2], k) == 0 || CounterOf(seen[n - 1], k) == 0))
  }

  /** Two labellings of the same counters, one entry always under one first-seen time. */
  predicate Relabelled(seen: seq<Sample>, lives: seq<Sample>) {
    && |seen| == |lives|
    && (forall i | 0 <= i < |seen| :: seen[i].counters == lives[i].counters)
    && (forall i: nat | i + 1 < |lives| && lives[i].generation == lives[i + 1].generation ::
          seen[i].generation == seen[i + 1].generation)
  }

  lemma LastDeltas(seen: seq<Sample>, lives: seq<Sample>, k: nat)
    requires Relabelled(seen, lives) && |seen| >= 2
    ensures var n := |seen|;
      var (d, e) := (DeltaOf(seen[n - 1], Some(seen[n - 2]), k), DeltaOf(lives[n - 1], Some(lives[n - 2]), k));
      d <= e && (d == e <==> (MistakenLast(seen, lives) ==>
                                CounterOf(seen[n - 2], k) == 0 || CounterOf(seen[n - 1], k) == 0))
  {
    var n := |seen|;
    assert seen[n - 1].counters == lives[n - 1].counters && seen[n - 2].counters == lives[n - 2].counters;
    assert lives[n - 2].generation == lives[n - 1].generation ==> seen[n - 2].generation == seen[n - 1].generation;
  }

  lemma {:induction false} MistakesLoseCounts(seen: seq<Sample>, lives: seq<Sample>, k: nat)
    requires Relabelled(seen, lives)
    ensures Reported(seen, k) <= Reported(lives, k)
    ensures Reported(seen, k) == Reported(lives, k) <==> Harmless(seen, lives, k)
  {
    var n := |seen|;
    if n >= 1 {
      MistakesLoseCounts(seen[..n - 1], lives[..n - 1], k);
      if n >= 2 { LastDeltas(seen, lives, k); }
    }
  }

  /** What is reported equals what every entry had counted when last sampled if
      and only if no entry that had counted was mistaken for one that had. */
  lemma ReportsAreExactIff(seen: seq<Sample>, lives: seq<Sample>, k: nat)
    requires Relabelled(seen, lives) && MonotoneWithin(lives, k)
    ensures Reported(seen, k) <= Counted(lives, k)
    ensures Reported(seen, k) == Counted(lives, k) <==> Harmless(seen, lives, k)
  {
    MistakesLoseCounts(seen, lives, k);
    DeltasConserveCounts(lives, k);
  }
}
