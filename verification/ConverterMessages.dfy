/** What is written is what the messages say: each slice, instant, value and
    sample on its message's own track, and each track under its own parent. */
module ConverterMessages {
  import opened Basics
  import opened Converter
  import opened ConverterLaws

  // --------------------------------------------------- read off the messages

  /** The tracks that using `a` brings into being: a process, or a thread with its process. */
  predicate Brings(a: TrackId, id: TrackId) {
    (a.Process? && id == a) || (a.Thread? && (id == a || id == Process(a.pid)))
  }

  /** Whether a track was brought up by the messages so far. Slices and instants
      bring up processes and threads; a declaration brings up its own track, of
      whatever kind, and a parent as use would, unless its track is known. */
  predicate Seen(es: seq<Event>, id: TrackId) {
    if es == [] then false
    else
      var before, e := es[..|es| - 1], es[|es| - 1];
      Seen(before, id) || match e
        case Track(_, t, parent) =>
          !Seen(before, t.id) && (id == t.id || Brings(t.id, id) || (parent.Some? && Brings(parent.value.id, id)))
        case Span(track, _, _, _) => Brings(track, id)
        case Instant(track, _, _) => Brings(track, id)
        case _ => false
  }

  /** A track that can be written on after `es`. */
  predicate Usable(es: seq<Event>, id: TrackId) { id.Thread? || id.Process? || Seen(es, id) }

  function At(uuids: map<TrackId, nat>, id: TrackId): nat { if id in uuids then uuids[id] else 0 }

  /** What a message says, besides descriptors, after `es`. */
  function Says(es: seq<Event>, e: Event, uuids: map<TrackId, nat>): seq<Packet> {
    match e
    case Track(_, _, _) => []
    case Span(track, name, start, end) =>
      if Usable(es, track) then [SliceBegin(At(uuids, track), name, start), SliceEnd(At(uuids, track), end)] else []
    case Instant(track, name, timestamp) =>
      if Usable(es, track) then [InstantEvent(At(uuids, track), name, timestamp)] else []
    case CounterValue(track, value, timestamp) =>
      if Seen(es, track) then [CounterEvent(At(uuids, track), value, timestamp)] else []
    case Interned(continuation) => [InternedPacket(continuation)]
    case PerfSample(track, callstack, timestamp) =>
      match track
      case Thread(tid, pid) => [SamplePacket(pid, tid, callstack, timestamp)]
      case _ => []
  }

  function Said(es: seq<Event>, uuids: map<TrackId, nat>): seq<Packet> {
    if es == [] then []
    else Said(es[..|es| - 1], uuids) + Says(es[..|es| - 1], es[|es| - 1], uuids)
  }

  /** The output without its descriptors. */
  function Events(out: seq<Packet>): seq<Packet> {
    if out == [] then []
    else
      var p := out[|out| - 1];
      Events(out[..|out| - 1]) + if IsDescriptor(p) then [] else [p]
  }

  // ------------------------------------------------------------ what is known

  /** Every thread's process is known. */
  predicate Housed(tracks: map<TrackId, nat>) {
    forall id | id in tracks && id.Thread? :: Process(id.pid) in tracks
  }

  lemma TrackBrings(s: State, a: TrackId)
    requires Housed(s.tracks)
    ensures Housed(EnsureTrack(s, a).tracks)
    ensures forall id :: id in EnsureTrack(s, a).tracks <==> id in s.tracks || Brings(a, id)
  {
  }

  lemma DeclarationBrings(s: State, name: string, t: TrackType, parent: Option<TrackType>)
    requires Housed(s.tracks) && t.id !in s.tracks
    ensures var tracks := ConvertTrack(s, name, t, parent).tracks;
      && Housed(tracks)
      && forall id :: id in tracks <==>
           id in s.tracks || id == t.id || Brings(t.id, id) || (parent.Some? && Brings(parent.value.id, id))
  {
    if parent.Some? { TrackBrings(s, parent.value.id); }
  }

  /** The converter knows exactly the tracks the messages brought up. */
  lemma {:induction false} KnownIffSeen(es: seq<Event>, id: TrackId)
    ensures id in After(es).tracks <==> Seen(es, id)
    ensures Housed(After(es).tracks)
  {
    if es != [] {
      var before, e := es[..|es| - 1], es[|es| - 1];
      KnownIffSeen(before, id);
      match e {
        case Track(name, t, parent) =>
          KnownIffSeen(before, t.id);
          if t.id !in After(before).tracks { DeclarationBrings(After(before), name, t, parent); }
        case Span(track, _, _, _) => TrackBrings(After(before), track);
        case Instant(track, _, _) => TrackBrings(After(before), track);
        case _ =>
      }
    }
  }

  // --------------------------------------------------------------- the events

  lemma OneMore(out: seq<Packet>, p: Packet)
    ensures Events(out + [p]) == Events(out) + if IsDescriptor(p) then [] else [p]
  {
    assert (out + [p])[..|out|] == out;
  }

  lemma ProcessSilent(s: State, pid: int, name: Option<string>)
    ensures Events(EnsureProcess(s, pid, name).out) == Events(s.out)
  {
    OneMore(s.out, ProcessDescriptor(s.nextUuid, pid, name));
  }

  lemma ThreadSilent(s: State, pid: int, tid: int, name: Option<string>)
    ensures Events(EnsureThread(s, pid, tid, name).out) == Events(s.out)
  {
    var p := EnsureProcess(s, pid, None);
    ProcessSilent(s, pid, None);
    var uuid := if Thread(tid, pid) in s.tracks then p.tracks[Thread(tid, pid)] else p.nextUuid;
    OneMore(p.out, ThreadDescriptor(uuid, p.tracks[Process(pid)], pid, tid, name));
  }

  /** Making a track writes descriptors only. */
  lemma TrackSilent(s: State, id: TrackId)
    ensures Events(EnsureTrack(s, id).out) == Events(s.out)
  {
    match id {
      case Thread(tid, pid) => ThreadSilent(s, pid, tid, None);
      case Process(pid) => ProcessSilent(s, pid, None);
      case _ =>
    }
  }

  lemma DeclareSilent(p: State, name: string, t: TrackType, parentUuid: nat)
    ensures Events(Declare(p, name, t, parentUuid).out) == Events(p.out)
  {
    match t.id {
      case Thread(tid, pid) => ThreadSilent(p, pid, tid, Some(name));
      case Process(pid) => ProcessSilent(p, pid, Some(name));
      case Counter(_) => OneMore(p.out, CounterDescriptor(p.nextUuid, parentUuid, name, t.counterUnit));
      case _ => OneMore(p.out, GenericDescriptor(p.nextUuid, parentUuid, name));
    }
  }

  lemma DeclarationSilent(s: State, name: string, t: TrackType, parent: Option<TrackType>)
    ensures Events(ConvertTrack(s, name, t, parent).out) == Events(s.out)
  {
    if t.id !in s.tracks {
      var p := if parent.Some? then EnsureTrack(s, parent.value.id) else s;
      if parent.Some? { TrackSilent(s, parent.value.id); }
      DeclareSilent(p, name, t, if parent.Some? then Uuid(p, parent.value.id) else 0);
    }
  }

  lemma OneEvent(out: seq<Packet>, p: Packet)
    requires !IsDescriptor(p)
    ensures Events(out + [p]) == Events(out) + [p]
  {
    OneMore(out, p);
  }

  lemma OneSlice(out: seq<Packet>, begin: Packet, finish: Packet)
    requires !IsDescriptor(begin) && !IsDescriptor(finish)
    ensures Events(out + [begin, finish]) == Events(out) + [begin, finish]
  {
    OneEvent(out, begin);
    OneEvent(out + [begin], finish);
    assert out + [begin] + [finish] == out + [begin, finish];
  }

  /** After making a track, it can be written on exactly if it is usable, on its lasting uuid. */
  lemma MadeIfUsable(es: seq<Event>, id: TrackId, uuids: map<TrackId, nat>)
    requires Extends(EnsureTrack(After(es), id).tracks, uuids)
    ensures var p := EnsureTrack(After(es), id);
      && (id in p.tracks <==> Usable(es, id)) && (id in p.tracks ==> p.tracks[id] == At(uuids, id))
      && Events(p.out) == Events(After(es).out)
  {
    TrackSilent(After(es), id);
    KnownIffSeen(es, id);
  }

  lemma SpanSays(es: seq<Event>, track: TrackId, name: string, start: nat, end: nat, uuids: map<TrackId, nat>)
    requires Extends(EnsureTrack(After(es), track).tracks, uuids)
    ensures var e := Span(track, name, start, end);
      Events(Convert(After(es), e).out) == Events(After(es).out) + Says(es, e, uuids)
  {
    MadeIfUsable(es, track, uuids);
    var p := EnsureTrack(After(es), track);
    if track in p.tracks {
      OneSlice(p.out, SliceBegin(p.tracks[track], name, start), SliceEnd(p.tracks[track], end));
    }
  }

  lemma InstantSays(es: seq<Event>, track: TrackId, name: string, timestamp: nat, uuids: map<TrackId, nat>)
    requires Extends(EnsureTrack(After(es), track).tracks, uuids)
    ensures var e := Instant(track, name, timestamp);
      Events(Convert(After(es), e).out) == Events(After(es).out) + Says(es, e, uuids)
  {
    MadeIfUsable(es, track, uuids);
    var p := EnsureTrack(After(es), track);
    if track in p.tracks { OneEvent(p.out, InstantEvent(p.tracks[track], name, timestamp)); }
  }

  lemma OtherSays(es: seq<Event>, e: Event, uuids: map<TrackId, nat>)
    requires !e.Track? && !e.Span? && !e.Instant? && Extends(After(es).tracks, uuids)
    ensures Events(Convert(After(es), e).out) == Events(After(es).out) + Says(es, e, uuids)
  {
    var s := After(es);
    match e {
      case CounterValue(track, value, timestamp) =>
        KnownIffSeen(es, track);
        if track in s.tracks { OneEvent(s.out, CounterEvent(s.tracks[track], value, timestamp)); }
      case Interned(continuation) => OneEvent(s.out, InternedPacket(continuation));
      case PerfSample(track, callstack, timestamp) =>
        if track.Thread? { OneEvent(s.out, SamplePacket(track.pid, track.tid, callstack, timestamp)); }
    }
  }

  lemma StepSays(es: seq<Event>, e: Event, uuids: map<TrackId, nat>)
    requires Extends(Convert(After(es), e).tracks, uuids)
    ensures Events(Convert(After(es), e).out) == Events(After(es).out) + Says(es, e, uuids)
  {
    match e {
      case Track(name, t, parent) => DeclarationSilent(After(es), name, t, parent);
      case Span(track, name, start, end) => SpanSays(es, track, name, start, end, uuids);
      case Instant(track, name, timestamp) => InstantSays(es, track, name, timestamp, uuids);
      case _ => OtherSays(es, e, uuids);
    }
  }

  lemma {:induction false} EventsAreSaid(es: seq<Event>, uuids: map<TrackId, nat>)
    requires Extends(After(es).tracks, uuids)
    ensures Events(After(es).out) == Said(es, uuids)
  {
    if es != [] {
      var before, e := es[..|es| - 1], es[|es| - 1];
      TracesAreGood(before);
      ConvertGood(After(before), e);
      EventsAreSaid(before, uuids);
      StepSays(before, e, uuids);
    }
  }

  // ----------------------------------------------------------- main theorems

  /** For every sequence of messages, the events written are, in order, those the
      messages tell: a slice's begin with its name and its end, each at its own
      time, and every instant and value, on the one uuid of its own track; of
      tracks that are neither thread nor process only once they were declared. */
  lemma TracesSayTheMessages(es: seq<Event>)
    ensures Events(After(es).out) == Said(es, After(es).tracks)
    ensures forall id :: Seen(es, id) <==> At(After(es).tracks, id) != 0
    ensures forall a, b :: Seen(es, a) && At(After(es).tracks, a) == At(After(es).tracks, b) ==> a == b
  {
    EventsAreSaid(es, After(es).tracks);
    TracesAreGood(es);
    forall id ensures id in After(es).tracks <==> Seen(es, id) {
      KnownIffSeen(es, id);
    }
  }

  /** The message `k` is the one that brings up the track `id` under this name. */
  predicate Declares(es: seq<Event>, k: nat, id: TrackId, name: string) {
    k < |es| && es[k].Track? && es[k].trackType.id == id && es[k].name == name && !Seen(es[..k], id)
  }

  /** The uuid of the parent a message names: that of a process or thread, that
      of any other track if it was known before, else none. */
  function ParentOf(es: seq<Event>, e: Event, uuids: map<TrackId, nat>): nat
    requires e.Track?
  {
    if e.parent.Some? && Usable(es, e.parent.value.id) then At(uuids, e.parent.value.id) else 0
  }

  /** A descriptor that says of its track what the messages say. */
  ghost predicate Truthful(es: seq<Event>, uuids: map<TrackId, nat>, p: Packet) {
    match p
    case ProcessDescriptor(uuid, pid, name) =>
      uuid == At(uuids, Process(pid)) && (name.Some? ==> exists k :: Declares(es, k, Process(pid), name.value))
    case ThreadDescriptor(uuid, parent, pid, tid, name) =>
      && uuid == At(uuids, Thread(tid, pid)) && parent == At(uuids, Process(pid))
      && (name.Some? ==> exists k :: Declares(es, k, Thread(tid, pid), name.value))
    case GenericDescriptor(uuid, parent, name) =>
      exists k: nat, id :: Declares(es, k, id, name) && (id.Cpu? || id.Custom?) && uuid == At(uuids, id)
        && parent == ParentOf(es[..k], es[k], uuids)
    case CounterDescriptor(uuid, parent, name, counterUnit) =>
      exists k: nat, id :: Declares(es, k, id, name) && id.Counter? && uuid == At(uuids, id)
        && parent == ParentOf(es[..k], es[k], uuids) && counterUnit == es[k].trackType.counterUnit
    case _ => true
  }

  ghost predicate AllTruthful(es: seq<Event>, uuids: map<TrackId, nat>, out: seq<Packet>) {
    forall p | p in out :: Truthful(es, uuids, p)
  }

  /** A name, if there is one, is from the message that brings up the track. */
  ghost predicate NameIsDeclared(es: seq<Event>, id: TrackId, name: Option<string>) {
    name.Some? ==> exists k :: Declares(es, k, id, name.value)
  }

  lemma ProcessTruthful(es: seq<Event>, uuids: map<TrackId, nat>, s: State, pid: int, name: Option<string>)
    requires AllTruthful(es, uuids, s.out) && NameIsDeclared(es, Process(pid), name)
    requires Extends(EnsureProcess(s, pid, name).tracks, uuids)
    ensures AllTruthful(es, uuids, EnsureProcess(s, pid, name).out)
  {
    assert Process(pid) in EnsureProcess(s, pid, name).tracks;
  }

  lemma ThreadTruthful(es: seq<Event>, uuids: map<TrackId, nat>, s: State, pid: int, tid: int, name: Option<string>)
    requires AllTruthful(es, uuids, s.out) && NameIsDeclared(es, Thread(tid, pid), name)
    requires Extends(EnsureThread(s, pid, tid, name).tracks, uuids)
    ensures AllTruthful(es, uuids, EnsureThread(s, pid, tid, name).out)
  {
    ThreadShape(s, pid, tid, name);
    if Thread(tid, pid) !in s.tracks || name.Some? {
      var p, after := EnsureProcess(s, pid, None), EnsureThread(s, pid, tid, name);
      assert Extends(p.tracks, after.tracks);
      ProcessTruthful(es, uuids, s, pid, None);
      assert Thread(tid, pid) in after.tracks && Process(pid) in after.tracks;
    }
  }

  lemma TrackTruthful(es: seq<Event>, uuids: map<TrackId, nat>, s: State, id: TrackId)
    requires AllTruthful(es, uuids, s.out) && Extends(EnsureTrack(s, id).tracks, uuids)
    ensures AllTruthful(es, uuids, EnsureTrack(s, id).out)
  {
    match id {
      case Thread(tid, pid) => ThreadTruthful(es, uuids, s, pid, tid, None);
      case Process(pid) => ProcessTruthful(es, uuids, s, pid, None);
      case _ =>
    }
  }

  lemma DeclareTruthful(es: seq<Event>, uuids: map<TrackId, nat>, p: State, k: nat, parentUuid: nat)
    requires k < |es| && es[k].Track? && AllTruthful(es, uuids, p.out)
    requires Declares(es, k, es[k].trackType.id, es[k].name) && parentUuid == ParentOf(es[..k], es[k], uuids)
    requires Extends(Declare(p, es[k].name, es[k].trackType, parentUuid).tracks, uuids)
    ensures AllTruthful(es, uuids, Declare(p, es[k].name, es[k].trackType, parentUuid).out)
  {
    var (name, t) := (es[k].name, es[k].trackType);
    match t.id {
      case Thread(tid, pid) => ThreadTruthful(es, uuids, p, pid, tid, Some(name));
      case Process(pid) => ProcessTruthful(es, uuids, p, pid, Some(name));
      case _ => assert t.id in Declare(p, name, t, parentUuid).tracks;
    }
  }

  /** The parent's uuid as the converter finds it is the one the messages name. */
  lemma ParentIsNamed(es: seq<Event>, e: Event, uuids: map<TrackId, nat>)
    requires e.Track? && e.parent.Some? && Extends(EnsureTrack(After(es), e.parent.value.id).tracks, uuids)
    ensures Uuid(EnsureTrack(After(es), e.parent.value.id), e.parent.value.id) == ParentOf(es, e, uuids)
  {
    MadeIfUsable(es, e.parent.value.id, uuids);
  }

  /** A new declaration settles its parent and then declares the track itself. */
  lemma DeclarationShape(s: State, e: Event) returns (p: State, parentUuid: nat)
    requires Good(s) && e.Track? && e.trackType.id !in s.tracks
    ensures p == (if e.parent.Some? then EnsureTrack(s, e.parent.value.id) else s)
    ensures parentUuid == if e.parent.Some? then Uuid(p, e.parent.value.id) else 0
    ensures Convert(s, e) == Declare(p, e.name, e.trackType, parentUuid) && Extends(p.tracks, Convert(s, e).tracks)
  {
    p, parentUuid := ParentGood(s, e.parent);
    if !e.trackType.id.Thread? && !e.trackType.id.Process? { OtherStaysNew(s, e.parent, e.trackType.id); }
    DeclareGood(p, e.name, e.trackType, parentUuid);
  }

  lemma DeclarationTruthful(es: seq<Event>, uuids: map<TrackId, nat>, k: nat)
    requires k < |es| && es[k].Track? && AllTruthful(es, uuids, After(es[..k]).out)
    requires Extends(Convert(After(es[..k]), es[k]).tracks, uuids)
    ensures AllTruthful(es, uuids, Convert(After(es[..k]), es[k]).out)
  {
    var (s, e) := (After(es[..k]), es[k]);
    KnownIffSeen(es[..k], e.trackType.id);
    if e.trackType.id !in s.tracks {
      TracesAreGood(es[..k]);
      var p, parentUuid := DeclarationShape(s, e);
      if e.parent.Some? {
        ParentIsNamed(es[..k], e, uuids);
        TrackTruthful(es, uuids, s, e.parent.value.id);
      }
      DeclareTruthful(es, uuids, p, k, parentUuid);
    }
  }

  lemma SliceTruthful(es: seq<Event>, uuids: map<TrackId, nat>, s: State, e: Event)
    requires e.Span? || e.Instant?
    requires AllTruthful(es, uuids, s.out) && Extends(Convert(s, e).tracks, uuids)
    ensures AllTruthful(es, uuids, Convert(s, e).out)
  {
    TrackTruthful(es, uuids, s, e.track);
  }

  lemma StepTruthful(es: seq<Event>, uuids: map<TrackId, nat>, k: nat)
    requires k < |es| && AllTruthful(es, uuids, After(es[..k]).out)
    requires Extends(Convert(After(es[..k]), es[k]).tracks, uuids)
    ensures AllTruthful(es, uuids, Convert(After(es[..k]), es[k]).out)
  {
    match es[k] {
      case Track(_, _, _) => DeclarationTruthful(es, uuids, k);
      case Span(_, _, _, _) => SliceTruthful(es, uuids, After(es[..k]), es[k]);
      case Instant(_, _, _) => SliceTruthful(es, uuids, After(es[..k]), es[k]);
      case _ =>
    }
  }

  lemma {:induction false} TruthfulUpTo(es: seq<Event>, uuids: map<TrackId, nat>, n: nat)
    requires n <= |es| && Extends(After(es[..n]).tracks, uuids)
    ensures AllTruthful(es, uuids, After(es[..n]).out)
  {
    if n > 0 {
      assert es[..n][..n - 1] == es[..n - 1];
      TracesAreGood(es[..n - 1]);
      ConvertGood(After(es[..n - 1]), es[n - 1]);
      TruthfulUpTo(es, uuids, n - 1);
      StepTruthful(es, uuids, n - 1);
    }
  }

  /** For every sequence of messages, each track written is described as the
      message that brought it up says, by its name and unit, under the uuid of the
      parent named there; threads under their processes. */
  lemma DescriptorsAreTruthful(es: seq<Event>, i: nat)
    requires i < |After(es).out|
    ensures Truthful(es, After(es).tracks, After(es).out[i])
  {
    assert es[..|es|] == es;
    TruthfulUpTo(es, After(es).tracks, |es|);
  }

  predicate Names(p: Packet, uuid: nat, name: string) {
    match p
    case ProcessDescriptor(u, _, n) => u == uuid && n == Some(name)
    case ThreadDescriptor(u, _, _, _, n) => u == uuid && n == Some(name)
    case GenericDescriptor(u, _, n) => u == uuid && n == name
    case CounterDescriptor(u, _, n, _) => u == uuid && n == name
    case _ => false
  }

  /** Making a track on use writes no name. */
  lemma TrackNamesNothing(s: State, id: TrackId, uuid: nat, name: string)
    ensures s.out <= EnsureTrack(s, id).out
    ensures var out := EnsureTrack(s, id).out; s.out < out ==> !Names(out[|out| - 1], uuid, name)
  {
  }

  lemma ThreadIsNamed(p: State, pid: int, tid: int, name: string)
    ensures var after := EnsureThread(p, pid, tid, Some(name));
      && p.out < after.out && Thread(tid, pid) in after.tracks
      && Names(after.out[|after.out| - 1], after.tracks[Thread(tid, pid)], name)
  {
  }

  /** The declaration itself, its parent being settled, writes the name, unless of a known process. */
  lemma DeclareNames(p: State, name: string, t: TrackType, parentUuid: nat)
    requires t.id.Thread? || t.id.Process? || t.id !in p.tracks
    ensures var after := Declare(p, name, t, parentUuid);
      if t.id.Process? && t.id in p.tracks then after == p
      else p.out < after.out && Names(after.out[|after.out| - 1], At(after.tracks, t.id), name)
  {
    match t.id {
      case Thread(tid, pid) => ThreadIsNamed(p, pid, tid, name);
      case _ =>
    }
  }

  /** The output has grown, and by the naming of a track at last. */
  predicate WritesName(before: seq<Packet>, after: seq<Packet>, uuid: nat, name: string) {
    before < after && Names(after[|after| - 1], uuid, name)
  }

  lemma NewTrackIsNamedIff(s: State, e: Event)
    requires e.Track? && e.trackType.id !in s.tracks && Housed(s.tracks)
    ensures var (id, after) := (e.trackType.id, Convert(s, e));
      && s.out <= after.out
      && (WritesName(s.out, after.out, At(after.tracks, id), e.name)
          <==> !(id.Process? && e.parent.Some? && Brings(e.parent.value.id, id)))
  {
    var (t, parent) := (e.trackType, e.parent);
    var p := if parent.Some? then EnsureTrack(s, parent.value.id) else s;
    var parentUuid := if parent.Some? then Uuid(p, parent.value.id) else 0;
    assert Convert(s, e) == Declare(p, e.name, t, parentUuid);
    if parent.Some? {
      TrackBrings(s, parent.value.id);
      TrackNamesNothing(s, parent.value.id, At(p.tracks, t.id), e.name);
    }
    DeclareNames(p, e.name, t, parentUuid);
  }

  /** A declaration's name is written if and only if the track was not known
      before, except that a process named together with a parent of its own, itself
      or one of its threads, loses its name. */
  lemma NameIsWrittenIff(es: seq<Event>, name: string, t: TrackType, parent: Option<TrackType>)
    ensures var (before, after) := (After(es), After(es + [Track(name, t, parent)]));
      && before.out <= after.out
      && (WritesName(before.out, after.out, At(after.tracks, t.id), name)
          <==> !Seen(es, t.id) && !(t.id.Process? && parent.Some? && Brings(parent.value.id, t.id)))
  {
    var e := Track(name, t, parent);
    assert (es + [e])[..|es|] == es;
    KnownIffSeen(es, t.id);
    if t.id !in After(es).tracks { NewTrackIsNamedIff(After(es), e); }
  }
}
