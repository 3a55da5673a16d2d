# Kinetrace, verified

Kinetrace collects traces from running programs and from the kernel and writes
them as Perfetto traces. This project models the parts of it whose correctness
cannot be seen from one function alone, and proves what they promise, for every
input, every interleaving and every run:

- **The shared-memory ring buffer** (`mpscbuf`). Producers of any number lock,
  append a busy header, release, fill their bytes and clear the flag; one consumer
  walks the headers. `RingProtocol` is the step system, one shared access per
  step and 64-bit arithmetic; `FifoQueue` is the queue the ring is meant to be, with
  sizes and payloads but no memory; `RingSafety` proves that every interleaving is a
  run of the queue, `RingGuarantees` what follows from that, `RingScenarios` what
  wakeups need, `RingLocking` how an attempt to lock ends, `RingLimits` which sizes the
  code leaves to its callers, `RingDrops` what a late drop does, `RingBuffer` the code as classes over a byte array, each call
  refining the protocol. `Words` and `RingMemory` hold the bytes, masks, headers and
  the double mapping.
- **Block-I/O accounting**. `BlockTrack` is the table-to-table meaning of the
  tracepoint handlers, `BlockTracker` the handlers field by field. `BlockRequests`,
  `BlockIntegrals` and `BlockCounts` say what the tables hold: each request what its own
  events make of it, each integral and maximum the time and the largest counters between
  events, each counter a sum over events. `BlockLaws` is Little's
  law between the two accounting schemes, `BlockSampling` the lazy
  snapshots and their differences, `BlockQuantiles` the histograms and the quantiles
  read from them, `BlockRounds` what is reported of the operations each round. `Sums`
  are finite sums.
- **Stack interning**. `Interning` is the incremental encoder, `InterningLaws` a
  reader of its output and the round trip.
- **CPU time and scheduling**. `CpuUtil`/`CpuLaws`: per-CPU probes, an unordered
  lossy delivery, per-thread statistics; `CpuShares`: where a thread's time goes, from
  the probes alone. `SchedTrace`/`SchedLaws`: spans of running, blocked and runnable
  time; `SchedSpans`: which spans there are, from the moves alone.
- **The agent's session protocol**. `Agent`/`AgentLaws`; `AgentSessions`: who is
  connected, who holds the session and what is answered, from the events alone.
- **Network counters**. `NetTrack`/`NetLaws`, with `Deltas` for counters in
  evictable map entries; `NetCounts`: what each counter counts, from the operations alone.
- **Conversion to Perfetto**. `Converter`/`ConverterLaws`; `ConverterMessages`: what is
  written, from the messages alone.

`Basics` holds what all of them share.

Code that updates state in place is a class whose methods do what the source does
step by step, each proved equal to a function on values; the theorems are about
those functions and hold over all runs; those said
above to speak of events, moves, probes or messages alone are stated without them, so
that a function that does something else does not satisfy them. What the outside world decides (clock
readings, room in a kernel map or ring buffer, the outcome of a callback, of the
extension, of symbolization, which entry an LRU map drops) is a parameter of
each step and universally quantified in the theorems.

Some statements one would like to make hold only under a condition. Each is given
with that condition and with a run, or an input, on the other side of it:

- The sizes and positions of `reserve` are computed in 64 bits that wrap. The space
  check is right exactly if the amount it is about is below 2^64, or so far above that
  what is left of it exceeds the mask all the same (`SpaceCheckIsRightIff`); it never
  refuses wrongly. A request of 2^64 - 1 bytes is accepted in every ring and breaks the
  queue (`WrappedTotalBreaksFifo`).
- A record of 2^32 bytes or more loses the upper part of its length in the header and
  reaches the consumer cut short (`OverlongRecordBreaksFifo`). As long as the positions
  asked for stay below 2^64, and as far as lengths go, the ring is a queue in every run
  if and only if it has at most 2^32 bytes (`LengthsAreSafeIff`). For a single attempt of
  any size in an idle ring, `AttemptIsSafeIff` gives both conditions at once.
- The drop that follows `discard` re-reads a header that the consumer may already
  have given back. Until the producers have come round to that header it writes
  nothing (`TimelyDropIsHarmless`). From then on the word is not its own
  (`LateDropTouchesForeignWord`). Left uninterrupted, the drop changes memory exactly if
  that word bears no discard mark and is not below 2^32 (`LateDropChangesMemoryIff`);
  interrupted between its load and its store, exactly if the low 32 bits it loaded are
  not the word that is there by then (`StoreChangesMemoryIff`). In every ring there is a
  run in which it commits somebody else's unfinished record (`LateDropBreaksFifo`), and
  one in which it undoes a byte written after its load (`InterruptedDropLosesByte`).
- No wakeup is lost if and only if every producer forces wakeups
  (`NoWakeupIsLostIff`, `UnforcedProducerLosesWakeup`).
- A request issued and completed at one clock reading leaves the inflight counter too
  high for good (bpf/src/bpf/blocktrack.bpf.c:614; `InstantCompletionLeaks`). The
  counter is exact if and only if no completion was instantaneous
  (`InflightIsExactIff`), and `LittlesLawIff` says exactly which runs keep the two
  accounting schemes in balance.
- Every completion splits its latency exactly, throughout a run, if and only if no
  requeue of the run comes at the clock reading of the issue (`LatencySplitsIff`,
  `InstantRequeueBreaksSplit`).
- A network entry that is evicted and recreated within one clock reading is taken for
  its predecessor (`MistakenIff`); a counter is then reported in full if and only if
  one of the two had counted nothing in it (`ReportsConserveCountsIff`,
  `HastyRunLosesCounts`).
- A change the consumer of the messages refuses is lost for good
  (`RefusedChangeIsLost`): what it was given is what was counted if and only if, besides,
  nothing but zeros was refused (`DeliveredIsCountedIff`).
- Stacks whose frame lists collide under the 64-bit hash share one callstack id
  (`StacksKnownIff`, `CollisionConfusesStacks`).
- A track's name reaches the trace if and only if no earlier message brought the track up,
  except that a process declared with itself or one of its threads as its parent loses
  its name (`NameIsWrittenIff`).
- Successful extension starts and stops alternate if and only if no stop before the
  last call failed (`SuccessfulCallsAlternateIff`, `FailedStopBreaksAlternation`).

## Model

| member | source | states |
|---|---|---|
| RingMemory.Map | mpscbuf/src/memory.rs:52-64 | a mapping is set up exactly for power-of-two sizes of at least a page; the two refusals otherwise |
| RingMemory.DoubleMappingIsCircular | mpscbuf/src/memory.rs:66-102 | through the three mappings, every offset behind the data pointer shows the file byte at that offset modulo the data size |
| RingMemory.LinearIsCircular | mpscbuf/src/producer.rs:124-145 | reading linearly at `pos & mask` plus `k` is reading a circular array at stream position `pos + k` |
| RingMemory.OffsetFacts | mpscbuf/src/ringbuf.rs:48-51 | masking is reduction modulo the size, and aligned positions give aligned headers wholly inside the first copy |
| RingMemory.StoreWordEffect | mpscbuf/src/producer.rs:127-130 | a header store puts exactly that word at its position and changes no other byte of the outstanding window |
| RingMemory.StoreByteEffect | mpscbuf/src/producer.rs:177-179 | a payload byte store changes that stream position and no other of the outstanding window |
| RingMemory.HeaderStates | mpscbuf/src/common.rs:74-109 | busy, discarded and committed headers are told apart and all carry the length |
| RingMemory.TotalSize | mpscbuf/src/consumer.rs:190-193 | a record takes the next multiple of eight that holds header and payload, if that is below 2^64 |
| RingMemory.TotalWraps | mpscbuf/src/producer.rs:86 | computed in 64 bits that wrap, the total is that amount reduced modulo 2^64, for every size |
| RingMemory.OutstandingWraps | mpscbuf/src/producer.rs:95-109 | total, sum and subtraction together: what is compared with the mask is the true amount reduced modulo 2^64 |
| Words.MaskIsModulo | mpscbuf/src/ringbuf.rs:48-51 | a bitwise and with `n - 1` is reduction modulo `n` for every power of two |
| FifoQueue.DeliveryIsPrefix | mpscbuf/src/consumer.rs:92-160 | in every run of the queue, what was delivered is in order a prefix of the reservations not discarded, each committed, with every byte written for it |
| FifoQueue.EmptyMeansAllDelivered | mpscbuf/src/consumer.rs:103-105 | nothing is lost: finding nothing means everything before the end, or before the unfinished head, was delivered |
| FifoQueue.ReservationsAreStable | mpscbuf/src/producer.rs:124-134 | a reservation never moves, and once finished never changes |
| RingSafety.RingRefinesFifo | mpscbuf/src/producer.rs:85-148 | every interleaving of any number of producers with the consumer, of attempts of any size, is a run of the queue and keeps the protocol invariant, as long as written lengths fit their header, the positions behind written records stay below 2^64, and drops after `discard` are timely |
| RingSafety.EveryAction | mpscbuf/src/producer.rs:190-212 | each single step of any participant keeps the invariant and is a step the queue allows |
| RingSafety.DeliveredInOrder | mpscbuf/src/consumer.rs:92-160 | the consumer receives a prefix of the kept reservations in order, byte for byte, none twice, none before it was committed |
| RingSafety.SpaceCheckNeverUnderflows | mpscbuf/src/producer.rs:87-109 | the stale consumer position never exceeds the producer position read under the lock; the sum is exact if and only if the position asked for is below 2^64, and then the subtraction from it does not wrap either |
| RingSafety.SpaceCheckIsRightIff | mpscbuf/src/producer.rs:109 | the check decides rightly if and only if the amount is below 2^64 or what is left of it modulo 2^64 does not fit the ring; a refusal is always right |
| RingGuarantees.OwnershipIsExclusive | mpscbuf/src/producer.rs:85-122 | no two unconsumed records share a byte of the ring, and at most one lock guard is alive |
| RingGuarantees.FailedReserveLeavesNoTrace | mpscbuf/src/producer.rs:89-122 | a `reserve` that times out or finds no room has changed no position and no byte, whatever ran in between |
| RingGuarantees.AccessesStayInside | mpscbuf/src/consumer.rs:107-149 | every header access of every reachable step is aligned inside the first copy, every payload inside the two copies, that of a new record provided there was room for it |
| RingGuarantees.WakeInvariant | mpscbuf/src/sync.rs:132-144 | a drained consumer with a finished record at the head and nobody having notified implies a producer on its way to notify |
| RingGuarantees.NoLostWakeup | mpscbuf/src/producer.rs:190-212 | with forced producers, a consumer sleeps on a finished record only while a producer is between finishing and notifying |
| RingScenarios.NoWakeupIsLostIff | mpscbuf/src/producer.rs:204-210 | no run loses a wakeup if and only if every producer forces wakeups |
| RingScenarios.UnforcedProducerLosesWakeup | mpscbuf/src/producer.rs:204-210 | a run in which one producer without wakeups leaves the consumer asleep for good |
| RingLimits.CarefulRunsAreLimited | mpscbuf/src/producer.rs:109-122 | in a ring of at most 2^32 bytes, as long as positions asked for stay below 2^64, the space check itself refuses every length that would not fit its header |
| RingLimits.AttemptIsSafeIff | mpscbuf/src/producer.rs:85-148 | from any idle ring, for an attempt of any size: what follows, a refusal or a record used and looked for, is a run of the queue if and only if it was refused or its length is below 2^32 and the position behind it below 2^64 |
| RingLimits.WrappedTotalBreaksFifo | mpscbuf/src/producer.rs:86-109 | in every ring, every attempt whose total size wraps, 2^64 - 1 bytes among them, is accepted without room and breaks the queue |
| RingLimits.OverlongRecordBreaksFifo | mpscbuf/src/producer.rs:128 | in any larger ring, any record of 2^32 bytes or more that finds room reaches the consumer cut short |
| RingLimits.LengthsAreSafeIff | mpscbuf/src/producer.rs:128 | all runs with positions below 2^64 and timely drops are runs of the queue if and only if the ring has at most 2^32 bytes |
| RingDrops.TimelyDropIsHarmless | mpscbuf/src/producer.rs:185-203 | until the producers come round, the drop after `discard` sees its mark and writes nothing |
| RingDrops.LateDropTouchesForeignWord | mpscbuf/src/producer.rs:185-203 | the word the drop reads lies in a later reservation, or is the next header, exactly when the producers have come round |
| RingDrops.StoreChangesMemoryIff | mpscbuf/src/common.rs:88-94 | whatever came between its load and its store, a drop changes memory exactly if the low 32 bits it loaded are not the word that is there when it stores |
| RingDrops.LateDropChangesMemoryIff | mpscbuf/src/producer.rs:192-203 | an uninterrupted drop after `discard` stores exactly if the word it finds bears no discard mark, and then changes memory exactly if that word is not below 2^32 |
| RingDrops.LateDropBreaksFifo | mpscbuf/src/producer.rs:185-203 | in every ring, a run in which the late drop commits another producer's unfinished record and the consumer is handed unwritten bytes |
| RingDrops.InterruptedDropLosesByte | mpscbuf/src/common.rs:88-94 | in every ring, a run in which the late drop stores over a word below 2^32 and undoes a byte its owner wrote after the drop's load |
| RingLocking.GivesUpIff | mpscbuf/src/sync.rs:47-73 | over every run of the steps, an attempt that has not taken the lock has given up if and only if its failed exchanges and its looks that found the flag set number 100 000; with fewer it is still trying, to exchange the flag or to see it clear |
| RingLocking.ExchangeTakesClearFlag | mpscbuf/src/sync.rs:53-59 | however long an attempt has been trying, its exchange of a clear flag takes the lock unless it fails spuriously |
| RingLocking.FlagIsHeldIff | mpscbuf/src/sync.rs:76-82 | in every run the flag is set exactly while one attempt holds the lock, and no two do |
| RingBuffer.Spinlock.TryLock | mpscbuf/src/sync.rs:47-73 | whatever others do to the flag meanwhile, it takes the flag at its first exchange that succeeds, unless failed exchanges and looks that found it set number 100 000 before, and then it gives up at that access |
| RingBuffer.Ring.constructor | mpscbuf/src/common.rs:56-65 | a fresh ring is a valid empty queue |
| RingBuffer.Ring.Reserve | mpscbuf/src/producer.rs:85-148 | for every size, which of its three outcomes and what it writes; on failure the whole state is unchanged, on success the queue has one more pending reservation at the old producer position if the position behind it is below 2^64 and the length fits its header, which then follows in rings of at most 2^32 bytes |
| RingBuffer.Ring.Write | mpscbuf/src/producer.rs:177-179 | a byte of the caller's own payload is recorded, and nothing else changes |
| RingBuffer.Ring.DropBuffer | mpscbuf/src/producer.rs:192-212 | the header is committed unless it carries the discard mark, then the count is raised if wakeups are forced |
| RingBuffer.Ring.Commit | mpscbuf/src/producer.rs:190-212 | dropping a filled buffer commits its reservation and notifies |
| RingBuffer.Ring.Discard | mpscbuf/src/producer.rs:185-203 | discarding marks the reservation, and the drop behind it leaves the mark |
| RingBuffer.Ring.Consume | mpscbuf/src/consumer.rs:92-160 | it steps over discarded records only and for good, and returns the next one with its bytes if finished, nothing otherwise |
| RingBuffer.Ring.Release | mpscbuf/src/consumer.rs:46-50 | dropping a record gives back exactly its space, and nothing did before |
| RingBuffer.Ring.Wait | mpscbuf/src/sync.rs:139-144 | waiting takes the whole count |
| BlockTracker.FindBucket | bpf/src/bpf/blocktrack.bpf.c:311-338 | the five shifts compute the latency bucket |
| BlockTracker.Tracker.AdjustDepth | bpf/src/bpf/blocktrack.bpf.c:275-309 | elapsed time is charged to the old depths before the counters move, not below zero, and maxima follow |
| BlockTracker.Tracker.GetStats | bpf/src/bpf/blocktrack.bpf.c:248-268 | the entry is found or created if there is room, and its first sight is stamped once |
| BlockTracker.Tracker.RecordTransfer | bpf/src/bpf/blocktrack.bpf.c:340-355 | bytes and errors of one operation grow as configured, nothing else |
| BlockTracker.Tracker.RecordLatency | bpf/src/bpf/blocktrack.bpf.c:357-379 | one completion adds its three latencies and one entry to each of the two histograms of its operation |
| BlockTracker.Tracker.CreateRequest | bpf/src/bpf/blocktrack.bpf.c:398-423 | a new request is stored and counted as queued if inserted; without room only the loss is counted |
| BlockTracker.Tracker.OnInsert | bpf/src/bpf/blocktrack.bpf.c:467-495 | the handler is one insert step of the tables |
| BlockTracker.Tracker.OnMerge | bpf/src/bpf/blocktrack.bpf.c:497-510 | the handler is one merge step of the tables |
| BlockTracker.Tracker.OnIssue | bpf/src/bpf/blocktrack.bpf.c:512-547 | the handler, with its two depth updates, is one issue step of the tables |
| BlockTracker.Tracker.OnRequeue | bpf/src/bpf/blocktrack.bpf.c:549-585 | the handler is one requeue step of the tables |
| BlockTracker.Tracker.OnComplete | bpf/src/bpf/blocktrack.bpf.c:587-633 | the handler, partial or final, is one completion step of the tables |
| BlockCounts.StatsAreCounted | bpf/src/bpf/blocktrack.bpf.c:340-396 | in every run bytes, operations, errors, the three latency sums, requeues and lost requests are each the sum of what the events count, spelled out event by event: which device and operation, under which settings, with an entry or room for one |
| BlockCounts.OperationsAreTimed | bpf/src/bpf/blocktrack.bpf.c:357-379 | with operations and latency enabled every operation counted has its times recorded, and the service and total sums are those of the times |
| BlockRequests.RequestIsItsHistory | bpf/src/bpf/blocktrack.bpf.c:467-633 | in every run a request's first sight, attempt in service, time served, bytes left and place in the queue are what its own events since it entered the table make of them |
| BlockIntegrals.SumsAreTimes | bpf/src/bpf/blocktrack.bpf.c:275-309 | in every run the four sums are the time with requests in service, with requests waiting, and both weighted with their number, and the maxima the largest counters there have been |
| BlockLaws.DepthCountersAreExact | bpf/src/bpf/blocktrack.bpf.c:295-306 | in every run `queued` is the number of live waiting requests, `inflight` that of requests in service plus the attempts never charged, and no request is both |
| BlockLaws.InflightIsExactIff | bpf/src/bpf/blocktrack.bpf.c:614-618 | after a run `inflight` is the number of requests in service if and only if no completion of it was instantaneous |
| BlockLaws.InstantCompletionLeaks | bpf/src/bpf/blocktrack.bpf.c:614-618 | issue and completion at one reading leave `inflight` one above the requests in service, and above it however the run goes on |
| BlockLaws.CountersInOrderlyRuns | bpf/src/bpf/blocktrack.bpf.c:512-633 | in orderly runs both counters are exact |
| BlockLaws.LittlesLaw | bpf/src/bpf/blocktrack.bpf.c:275-309 | in every run, at every time, the inflight integral minus recorded and running service time is the sum of the drifts of single events |
| BlockLaws.DriftVanishesIff | bpf/src/bpf/blocktrack.bpf.c:574-614 | exactly the orderly events (no later second issue, a later clock when an attempt ends, room for the record) leave the balance alone |
| BlockLaws.LittlesLawIff | bpf/src/bpf/blocktrack.bpf.c:357-379 | the law holds after every event and at every later time if and only if the run is orderly |
| BlockLaws.LatencySplitsIff | bpf/src/bpf/blocktrack.bpf.c:574-627 | throughout a run, the parts of every completion there could be add up to the request's age, if and only if no requeue of the run comes at the very reading of the issue |
| BlockLaws.CompletionSplits | bpf/src/bpf/blocktrack.bpf.c:614-627 | after a run without such a requeue, the next completion of any live request records parts that add up to the time since it was first seen |
| BlockLaws.InstantRequeueBreaksSplit | bpf/src/bpf/blocktrack.bpf.c:574-583 | a requeue at the instant of the issue makes the completion charge all time since boot |
| BlockSampling.SnapshotAgreesIff | bpf/src/blocktrack.rs:375-399 | the lazy snapshot is what a zero update at that moment would leave in 64 bits that wrap, exactly when every sum fits or wraps to the largest number, and the entry was ever stamped or has nothing to charge |
| BlockSampling.DifferencesWithinElapsed | bpf/src/blocktrack.rs:402-420 | between two samples of any run, busy and saturated differences are at most the time between |
| BlockSampling.DifferencesSumToSnapshot | bpf/src/blocktrack.rs:1135-1138 | over any rounds of sampling of any run, the differences of each of the four sums add up to the last snapshot |
| BlockSampling.SnapshotDeltaIsDelta | bpf/src/blocktrack.rs:402-420 | the snapshot difference is the generation-aware difference of each of its sums |
| BlockQuantiles.BucketBrackets | bpf/src/bpf/blocktrack.bpf.c:311-338 | the branchy search finds the binary logarithm: bucket `b` holds 2^b to 2^(b+1) microseconds |
| BlockQuantiles.HistogramPercentile | bpf/src/blocktrack.rs:1209-1227 | the loop returns the upper end of the first bucket by which the rank aimed at, the total times the quantile rounded up, is reached, and 0 for an empty histogram |
| BlockQuantiles.QuantileIsTight | bpf/src/blocktrack.rs:1209-1227 | for any latencies and any quantile above 0 and up to 1, the value is at least the latency whose rank is the least integer not below their number times the quantile and, if above 1, at most twice it |
| BlockQuantiles.HistogramsAreOfRecordedTimes | bpf/src/bpf/blocktrack.bpf.c:357-379 | in every run both histograms of an operation of a device are those of exactly the times recorded for it |
| BlockQuantiles.RunsAddHistograms | bpf/src/bpf/blocktrack.bpf.c:357-379 | from any tables on, a run adds to both histograms those of exactly the times it records |
| BlockRounds.StatsDeltaIsDelta | bpf/src/blocktrack.rs:324-341 | the difference of the statistics is the generation-aware difference of each counter |
| BlockRounds.DifferencesAreOfRoundTimes | bpf/src/blocktrack.rs:273-341 | in every round of sampling of any run the difference of each histogram is the histogram of exactly the times recorded since the round before |
| BlockRounds.RoundQuantilesAreTight | bpf/src/blocktrack.rs:950-975 | so every quantile reported in a round is tight for the service, respectively total, times recorded since the round before |
| BlockRounds.StatsDifferencesSumToLast | bpf/src/blocktrack.rs:1081-1085 | over any rounds the differences of each counter of an operation add up to the last sample |
| Deltas.DeltasConserveCounts | bpf/src/nettrack.rs:304-332 | reported differences never fall short of the last value of each generation summed, and equal it if and only if no counter fell within a generation |
| Deltas.DeltasSumToLast | bpf/src/nettrack.rs:304-332 | with one generation the differences add up to the last sample |
| Deltas.ReportsAreExactIff | bpf/src/nettrack.rs:304-307 | going by first-seen times, what is reported never exceeds what each entry had counted when last sampled, and equals it if and only if no entry that had counted was taken for an earlier one that had |
| Interning.InternedCache.constructor | interned-symbolizer/src/lib.rs:51-63 | a new cache is empty |
| Interning.InternedCache.ReserveFrame | interned-symbolizer/src/lib.rs:74-83 | a known frame keeps its id, a new one gets the next |
| Interning.InternedCache.ReserveCallstack | interned-symbolizer/src/lib.rs:85-95 | a known hash keeps its id, a new one gets the next |
| Interning.InternedCache.GetOrCreateUnknownFunctionId | interned-symbolizer/src/lib.rs:103-112 | one id for unknown functions, taken once |
| Interning.InternedCache.InternSite | interned-symbolizer/src/lib.rs:228-256 | one frame: its id is listed, and if new it is defined with its own function name or the unknown one |
| Interning.InternedCache.Data | interned-symbolizer/src/lib.rs:192-312 | both loops and the decision to emit: tables, callstack id and message are those of the encoder function |
| InterningLaws.RunKeeps | interned-symbolizer/src/lib.rs:199-225 | after every run each code address seen has its own frame with its address and first-seen name at the reader |
| InterningLaws.StacksKnownIff | interned-symbolizer/src/lib.rs:284-310 | the reader knows every callstack id returned so far with its own frames if and only if no two lists collide under the hash |
| InterningLaws.ListsAreFaithful | interned-symbolizer/src/lib.rs:226-280 | two samples have equal frame-id lists exactly if they have the same depth and line by line the same process and address, read off their fields |
| InterningLaws.RoundTrip | interned-symbolizer/src/lib.rs:191-312 | each returned id resolves, at every later time, to as many lines as the sample has frames: its user addresses from last to first, then its kernel addresses, each named by the symbol that stood at its index in the first line of any sample at that address of that process |
| InterningLaws.SeenIsFirst | interned-symbolizer/src/lib.rs:228-256 | the name kept for an address of a process is that of the first line at it, read off the samples, the unknown name if that line has no symbol |
| InterningLaws.ReferencesDefined | interned-symbolizer/src/lib.rs:204-225 | whatever the hash does, every frame, name, mapping and build id referred to is defined |
| InterningLaws.CollisionConfusesStacks | interned-symbolizer/src/lib.rs:97-101 | two colliding one-frame stacks leave one id without its stack |
| CpuUtil.Tracer.OnSwitch | bpf/src/bpf/cpuutil.bpf.c:109-139 | the probe ends the previous stretch with an event if tracked and starts the next |
| CpuUtil.Tracer.OnEnter | bpf/src/bpf/cpuutil.bpf.c:141-163 | entry into the kernel is stamped once |
| CpuUtil.Tracer.OnExit | bpf/src/bpf/cpuutil.bpf.c:165-190 | the time in the kernel is accumulated |
| CpuUtil.Tracer.OnBoundary | bpf/src/bpf/cpuutil.bpf.c:192-219 | the stretch is reported and restarted, also in the middle of a system call |
| CpuUtil.Collector.ReportRound | bpf/src/cpuutil.rs:197-305 | every thread is reported with its sums and span and then reset, in any order, until a message is refused |
| CpuUtil.Collector.OnEvent | bpf/src/cpuutil.rs:187-304 | one event is folded in and, with the last boundary, ends the round |
| CpuLaws.StretchesAreDisjoint | bpf/src/bpf/cpuutil.bpf.c:85-219 | if no thread is current on two CPUs at once, the stretches of a thread never overlap and kernel time lies within each |
| CpuLaws.TimesAreBounded | bpf/src/cpuutil.rs:187-304 | for any selection and order of the events and any refusals, kernel time <= CPU time <= the span, for every thread at every moment |
| CpuLaws.ReportsAreBounded | bpf/src/cpuutil.rs:202-225 | the same of the numbers reported when a round ends |
| CpuLaws.TimeIsConserved | bpf/src/cpuutil.rs:187-304 | for CPU time and for kernel time, what was reported in all rounds plus what is pending is what was delivered |
| CpuLaws.RoundsEndIff | bpf/src/cpuutil.rs:197-200 | a round ends exactly with every boundary delivered whose number is a multiple of that of the CPUs |
| CpuLaws.ReportedSpan | bpf/src/cpuutil.rs:202-203 | whatever was delivered in whatever order, the span a report divides by runs from the latest end there was at the thread's last report, or an earlier start delivered since, to the latest end of all |
| CpuShares.CpuTimeIsEmitted | bpf/src/bpf/cpuutil.bpf.c:85-219 | on every CPU, a tracked thread's emitted stretches plus the open one add up to the time between its being switched in and out, and their kernel times to the time between its entering and leaving the kernel, both read off the probes |
| CpuShares.SharesAreConserved | bpf/src/bpf/cpuutil.bpf.c:85-219 | the same over all CPUs, all its stretches being under its own process |
| CpuShares.AllLabelled | bpf/src/bpf/cpuutil.bpf.c:109-219 | every stretch is of an existing CPU, of a process to be reported unless a boundary ended it, and of a tracked thread under that thread's process |
| SchedTrace.Tracer.EmitSpan | bpf/src/bpf/schedtrace.bpf.c:103-134 | empty and unstamped spans are skipped, others appended if there is room |
| SchedTrace.Tracer.TaskOff | bpf/src/bpf/schedtrace.bpf.c:145-206 | leaving the CPU closes running time and starts waiting, or forgets an exiting thread |
| SchedTrace.Tracer.TaskOn | bpf/src/bpf/schedtrace.bpf.c:208-271 | entering the CPU closes waiting time and starts running |
| SchedTrace.Tracer.TaskWakeup | bpf/src/bpf/schedtrace.bpf.c:273-323 | a wakeup closes blocked time, or starts a thread not seen before |
| SchedTrace.Tracer.OnProcessExit | bpf/src/bpf/schedtrace.bpf.c:353-387 | the thread is marked as exiting, known or not |
| SchedTrace.Tracer.OnSwitch | bpf/src/bpf/schedtrace.bpf.c:325-337 | a context switch is both moves at one time |
| SchedLaws.SpansNeverOverlap | bpf/src/bpf/schedtrace.bpf.c:145-323 | in every run the spans of each thread are ordered, of positive length and do not overlap |
| SchedLaws.SpansTileIff | bpf/src/bpf/schedtrace.bpf.c:145-323 | while a thread stays in the table, its spans add up to the time between its first and its current state if and only if every closing move was in its place |
| SchedLaws.WholeLifeIsCoveredIff | bpf/src/bpf/schedtrace.bpf.c:178-183 | from first sight to the switch after its exit, a thread's spans cover exactly its life under the same condition |
| SchedLaws.OthersDoNotMatter | bpf/src/bpf/schedtrace.bpf.c:145-323 | moves of other threads never change a thread's state or spans |
| SchedSpans.SpansAreOfMoves | bpf/src/bpf/schedtrace.bpf.c:103-323 | in every run the spans are, in order, those the moves end: time on a CPU is running, time after falling asleep blocked, time after a wakeup, a preemption or a switch away in state 0 runnable with that reason, each from the move that began it to the one that ended it |
| SchedSpans.StateIsOfItsMove | bpf/src/bpf/schedtrace.bpf.c:186-203 | in every run the table knows exactly the threads that a move put somewhere, and of each its time, kind, CPU, frame and reason as that move says |
| Agent.AgentState.constructor | agent/src/agent_state.rs:106-121 | a new agent has no clients and id 1 next |
| Agent.AgentState.RegisterClient | agent/src/agent_state.rs:127-141 | the next id is given to a pending client stamped with the time |
| Agent.AgentState.HandleDisconnect | agent/src/agent_state.rs:143-159 | the started client's disconnect stops an active extension and frees the slot; any disconnect asks for removal |
| Agent.AgentState.HandleStart | agent/src/agent_state.rs:182-334 | all refusals of a start request in order, the failed producer, and the start |
| Agent.AgentState.HandleMessage | agent/src/agent_state.rs:161-378 | state and answers of every message in every client state |
| Agent.AgentState.Timer | agent/src/agent_state.rs:380-444 | exactly the expired clients are asked to be removed, and an expired started client is released |
| Agent.EventLoop.ProcessActions | agent/src/epoll_thread.rs:188-217 | answers go to the clients that have a socket, in order; deletions are collected |
| Agent.EventLoop.OnConnect | agent/src/epoll_thread.rs:60-86 | a connection is registered, and the loop stays consistent |
| Agent.EventLoop.OnHangUp | agent/src/epoll_thread.rs:87-99 | a hang-up is handled and its client removed, also if it is gone already |
| Agent.EventLoop.OnReadable | agent/src/epoll_thread.rs:100-173 | a message or read error of a connected client is handled and its removals done |
| Agent.EventLoop.OnTimer | agent/src/epoll_thread.rs:176-183 | a sweep never fails on the started client and removes exactly the expired |
| AgentLaws.AtMostOneStarted | agent/src/agent_state.rs:365-376 | after every run `another_started` holds iff a started client is named, which is registered and the only one started, tables agree, ids are below the counter |
| AgentLaws.StartSucceedsIff | agent/src/agent_state.rs:182-334 | a start is acknowledged if and only if nobody is started and nothing is wrong with it, and otherwise changes nothing |
| AgentLaws.IdsAreNeverReused | agent/src/agent_state.rs:127-131 | no two connections ever get the same id |
| AgentLaws.CallsAlternate | agent/src/agent_state.rs:143-159 | in every run extension starts and stops take turns, beginning with a start, and the extension is active exactly in between |
| AgentLaws.SuccessfulCallsAlternateIff | agent/src/agent_state.rs:147-151 | successful starts and successful stops alternate if and only if no stop before the last call failed |
| AgentLaws.FailedStopBreaksAlternation | agent/src/agent_state.rs:147-151 | a run with two successful starts and no successful stop between them |
| AgentLaws.PendingKeepsItsTime | agent/src/agent_state.rs:295-317 | whatever a pending client sends, its timestamp stays the time it connected |
| AgentLaws.SurvivorsWereAlive | agent/src/agent_state.rs:80-84 | a client survives a sweep exactly if no more than the timeout has passed since its timestamp when it is looked at, so if not when the sweep ends, and only if not when it began, and survives unchanged |
| AgentSessions.SessionsAreOfEvents | agent/src/agent_state.rs:127-444 | in every run, read off the events: the clients registered are those that connected and did not leave, the started one is the one granted the session last, and every timestamp is the time of its client's last sign, a `Continue` of the session's holder among them |
| AgentSessions.AnswersAre | agent/src/agent_state.rs:161-378 | what a connected client is answered in every run: its version request, an acknowledgement exactly of the start that gives it the session and of `Continue` and `Stop` while it has it, a refusal of every other start that does not end its connection |
| NetTrack.SocketCounter.UpdateStats | bpf/src/bpf/nettrack.bpf.c:135-213 | the nested branches count one operation |
| NetTrack.SocketCounter.CountOperation | bpf/src/bpf/nettrack.bpf.c:215-237 | the entry of the key is updated, or created with the operation counted if there is room |
| NetTrack.SocketCounter.AccountSocketIo | bpf/src/bpf/nettrack.bpf.c:327-356 | one operation is counted once in every enabled scope |
| NetTrack.ReadGlobal | bpf/src/nettrack.rs:593-607 | the per-CPU values are added up, stopping at the largest 64-bit number |
| NetTrack.Sampler.SampleRound | bpf/src/nettrack.rs:893-931 | each reading yields its change and becomes the previous value, also the one of which a message is refused, which ends the round |
| NetCounts.HostCountsOperations | bpf/src/bpf/nettrack.bpf.c:135-213 | in every run each of the ten host counters of a protocol, summed over CPUs, is the sum over its operations of what they add to it, spelled out operation by operation: direction, outcome, protocol, settings and filter |
| NetCounts.CpusCountOperations | bpf/src/bpf/nettrack.bpf.c:327-356 | the same of each CPU's entry and the operations on it |
| NetCounts.EntriesCountOperations | bpf/src/bpf/nettrack.bpf.c:215-237 | the same of each process's and each peer's entry and its operations since the entry was created |
| NetLaws.ScopesAgree | bpf/src/bpf/nettrack.bpf.c:327-356 | in every run each host counter summed over CPUs is the sum over processes plus what that table lost, and over peers plus what that one lost |
| NetLaws.NoLossWithoutEviction | bpf/src/bpf/nettrack.bpf.c:135-237 | without eviction the host counter is the sum of the process counters, and the peers' at most that |
| NetLaws.HostTotalIsRead | bpf/src/nettrack.rs:593-607 | that host counter is what the sampler adds up over the CPUs, up to the largest 64-bit number |
| NetLaws.ComputedIsDeltas | bpf/src/nettrack.rs:893-931 | what the sampler computes for a key is the generation-aware differences of what it read, refused or not |
| NetLaws.RefusedChangeIsLost | bpf/src/nettrack.rs:914-926 | after a refused change, reading the same entry again delivers nothing |
| NetLaws.DeliveredIsCountedIff | bpf/src/nettrack.rs:893-931 | kernel, sampler and consumer in one: over every run, sampling and refusal, what was delivered and refused never exceeds what every entry of the key had counted when last read, and what was delivered equals it if and only if no entry that had counted was taken for an earlier one that had, and only zeros were refused |
| NetLaws.FirstSeenAtBirth | bpf/src/bpf/nettrack.bpf.c:215-237 | an entry's first-seen time is the reading of the operation that created it |
| NetLaws.EntriesGrow | bpf/src/bpf/nettrack.bpf.c:215-237 | entries of a key at two moments are one entry, which has kept its first-seen time and only grown, or the later was created in between |
| NetLaws.MistakenIff | bpf/src/nettrack.rs:304-307 | an entry is taken for an earlier one of its key if and only if it was recreated at the very reading of that one's first sight |
| NetLaws.MistakenWithinOneReading | bpf/src/nettrack.rs:304-307 | on a clock that never runs backwards, everything from that first sight to the recreation then happened at one reading |
| NetLaws.LivesToldApartIff | bpf/src/nettrack.rs:304-307 | first-seen times tell all entries read of a key apart if and only if none was so recreated |
| NetLaws.ReportsConserveCountsIff | bpf/src/nettrack.rs:304-332 | for processes and peers, over every run with evictions and recreations and any sampling, the changes computed add up to what every entry of the key had counted when last read, if and only if no entry that had counted was taken for an earlier one that had |
| NetLaws.ReportsConserveCounts | bpf/src/nettrack.rs:304-332 | they do, for every counter, if no entry was recreated at the reading of its read predecessor's first sight |
| NetLaws.HastyRunLosesCounts | bpf/src/nettrack.rs:304-332 | a run at one reading in which ten of thirteen bytes are reported |
| NetLaws.HostHasOneGeneration | bpf/src/nettrack.rs:845-849 | host entries keep the first-seen time zero, so host changes are always differences |
| Converter.PerfettoConverter.EnsureProcessTrack | kinetrace/src/converter.rs:35-47 | a process is described once and keeps its uuid |
| Converter.PerfettoConverter.EnsureThreadTrack | kinetrace/src/converter.rs:49-78 | a thread is described under its process, again if it gets a name, always with its own uuid |
| Converter.PerfettoConverter.NextTrackUuid | perfetto-format/src/lib.rs:44-48 | uuids are handed out one by one |
| Converter.PerfettoConverter.ConvertSpan | kinetrace/src/converter.rs:144-179 | begin and end on the track's uuid, the track being made if it may |
| Converter.PerfettoConverter.ConvertInstant | kinetrace/src/converter.rs:181-214 | one event on the track's uuid, the track being made if it may |
| Converter.PerfettoConverter.ConvertCounter | kinetrace/src/converter.rs:120-142 | one value on a declared track, nothing otherwise |
| Converter.PerfettoConverter.DeclareTrack | kinetrace/src/converter.rs:216-266 | a new track is described under its parent, which is made first if it may be; a known one is left alone |
| ConverterLaws.UuidsAreDistinctAndStay | perfetto-format/src/lib.rs:44-48 | distinct tracks have distinct nonzero uuids, which never change |
| ConverterLaws.TracesAreWellFormed | kinetrace/src/converter.rs:120-266 | every uuid used by an event or as a nonzero parent was described earlier, and each slice begin is immediately followed by its end on the same track |
| ConverterLaws.UuidMeansOneTrack | perfetto-format/src/lib.rs:50-95 | all descriptors of a uuid describe one and the same track |
| ConverterMessages.KnownIffSeen | kinetrace/src/converter.rs:35-266 | the converter knows exactly the tracks the messages brought up: by use, by declaration, or as a parent |
| ConverterMessages.TracesSayTheMessages | kinetrace/src/converter.rs:144-214 | the events written are, in order, those the messages tell: a slice's begin with its name and its end, each at its own time, every instant, value and sample, each on the uuid of its own track, that of no other |
| ConverterMessages.DescriptorsAreTruthful | kinetrace/src/converter.rs:216-266 | each descriptor has the uuid, name, unit and parent that the message that brought up its track gives it; threads are under their processes |
| ConverterMessages.NameIsWrittenIff | kinetrace/src/converter.rs:216-266 | a declared name is written if and only if the track was not known before, except for a process whose parent is itself or one of its threads |

## Left out

- Memory orderings below sequential consistency: steps of the ring buffer interleave; the acquire and release annotations are taken to justify that.
- RingProtocol: an eventfd count that overflows is not modelled. Arithmetic wraps as in a release build; a build with overflow checks panics instead.
- RingSafety.RingRefinesFifo: over runs in which written lengths fit their header, positions behind written records stay below 2^64 and drops after `discard` are timely. `LengthsAreSafeIff` says when the first comes for free; without either of the others every ring has a run that breaks the queue (`WrappedTotalBreaksFifo`, `LateDropBreaksFifo`), but a late drop that finds a harmless word is left outside the queue's runs as well.
- RingBuffer.Spinlock.TryLock: what others do to the flag is a parameter, so that mutual exclusion is not a property of this class; it is proved of the step system (`FlagIsHeldIff`).
- RingBuffer.Ring.Reserve: the class runs one call at a time; interleavings are the step system's.
- The dropped-records counter and `available_records` of the ring buffer: independent counters without a law.
- Creating the file, the mappings and the eventfd, and their failures; descriptor validation beyond valid or not.
- BlockTrack: a handler is one step, counters are unbounded, a request's device and operation do not change while it lives; the optional timeline of request spans with its random sampling is not modelled.
- BlockTracker.Tracker.OnRequeue: does not model the timeline span it may emit, which changes no counter but its own.
- BlockTracker.Tracker.OnComplete: the same.
- BlockLaws.LittlesLaw: for devices whose depth entry exists from loading and with saturation tracking enabled; otherwise the integral is not kept at all.
- BlockQuantiles.HistogramPercentile: the product of total and quantile is exact; its floating-point rounding is not modelled.
- Interning: symbolization is an input; the calls that fail before `data` leave the cache untouched. The hash is an arbitrary function.
- CpuShares.CpuTimeIsEmitted: for what a kernel guarantees of its probes: positive times, switches away from the thread switched to, threads that keep their process.
- CpuUtil: percentages, track announcements and labels; a handler is one step and reads the clock once.
- SchedTrace: the kernel stack read for the blocking frame is an input.
- Agent: socket reads and writes, archived message decoding, edge-triggered readiness, random process ids and shutdown; failures of `epoll` itself end the loop.
- NetTrack: how a peer's address is read from socket or message is an input; rates and track names.
- Converter: labels, interned data and samples are opaque; the run stops at a failed write, and only successful writes are modelled.
- Protobuf and rkyv encodings, the command line, configuration, filters by process name, perf counters and thread tracking.
