/** Converted traces are well formed. */
module ConverterLaws {
  import opened Basics
  import opened Converter

  function After(es: seq<Event>): State {
    if es == [] then START else Convert(After(es[..|es| - 1]), es[|es| - 1])
  }

  predicate IsDescriptor(p: Packet) {
    p.ProcessDescriptor? || p.ThreadDescriptor? || p.GenericDescriptor? || p.CounterDescriptor?
  }

  /** Events carry the uuid of the track they are on. */
  predicate IsEvent(p: Packet) { p.SliceBegin? || p.SliceEnd? || p.InstantEvent? || p.CounterEvent? }

  predicate HasParent(p: Packet) { IsDescriptor(p) && !p.ProcessDescriptor? && p.parent != 0 }

  /** The uuids that have a descriptor. */
  function Described(out: seq<Packet>): set<nat> {
    if out == [] then {}
    else
      var p := out[|out| - 1];
      Described(out[..|out| - 1]) + if IsDescriptor(p) then {p.uuid} else {}
  }

  /** A packet as it may follow what was written before. */
  predicate Fits(before: seq<Packet>, p: Packet) {
    && (IsEvent(p) ==> p.uuid in Described(before))
    && (HasParent(p) ==> p.parent in Described(before))
    && if p.SliceEnd? then before != [] && before[|before| - 1].SliceBegin? && before[|before| - 1].uuid == p.uuid
       else Settled(before)
  }

  /** No slice is open. */
  predicate Settled(out: seq<Packet>) { out != [] ==> !out[|out| - 1].SliceBegin? }

  predicate WellFormed(out: seq<Packet>) {
    out == [] || (WellFormed(out[..|out| - 1]) && Fits(out[..|out| - 1], out[|out| - 1]))
  }

  /** The descriptor of a track says which track it is. */
  predicate Suits(p: Packet, id: TrackId) {
    match p
    case ProcessDescriptor(_, pid, _) => id == Process(pid)
    case ThreadDescriptor(_, _, pid, tid, _) => id == Thread(tid, pid)
    case GenericDescriptor(_, _, _) => id.Cpu? || id.Custom?
    case CounterDescriptor(_, _, _, _) => id.Counter?
    case _ => false
  }

  /** One uuid per track, one track per uuid, each described. */
  predicate Sound(tracks: map<TrackId, nat>, nextUuid: nat, uuids: set<nat>) {
    && nextUuid >= FIRST_UUID
    && (forall id | id in tracks :: FIRST_UUID <= tracks[id] < nextUuid && tracks[id] in uuids)
    && (forall a, b | a in tracks && b in tracks && tracks[a] == tracks[b] :: a == b)
  }

  /** Every descriptor in the output is that of a track with its uuid. */
  ghost predicate Owned(tracks: map<TrackId, nat>, out: seq<Packet>) {
    out == [] || (
      && Owned(tracks, out[..|out| - 1])
      && (IsDescriptor(out[|out| - 1]) ==> HasOwner(tracks, out[|out| - 1])))
  }

  ghost predicate HasOwner(tracks: map<TrackId, nat>, p: Packet)
    requires IsDescriptor(p)
  {
    exists id | id in tracks :: tracks[id] == p.uuid && Suits(p, id)
  }

  ghost predicate Good(s: State) {
    Sound(s.tracks, s.nextUuid, Described(s.out)) && Owned(s.tracks, s.out) && WellFormed(s.out) && Settled(s.out)
  }

  lemma Appended(out: seq<Packet>, p: Packet)
    ensures Described(out + [p]) == Described(out) + if IsDescriptor(p) then {p.uuid} else {}
    ensures WellFormed(out + [p]) <==> WellFormed(out) && Fits(out, p)
    ensures forall tracks: map<TrackId, nat> | Owned(tracks, out) && (IsDescriptor(p) ==> HasOwner(tracks, p)) ::
        Owned(tracks, out + [p])
  {
    assert (out + [p])[..|out|] == out;
  }

  /** The table only grows. */
  predicate Extends(small: map<TrackId, nat>, large: map<TrackId, nat>) {
    forall id | id in small :: id in large && large[id] == small[id]
  }

  lemma {:induction false} OwnedGrows(small: map<TrackId, nat>, large: map<TrackId, nat>, out: seq<Packet>)
    requires Owned(small, out) && Extends(small, large)
    ensures Owned(large, out)
  {
    if out != [] {
      OwnedGrows(small, large, out[..|out| - 1]);
      var p := out[|out| - 1];
      if IsDescriptor(p) {
        var id :| id in small && small[id] == p.uuid && Suits(p, id);
        assert id in large && large[id] == p.uuid;
      }
    }
  }

  /** A descriptor whose parent is zero or known may be written again for its track. */
  lemma RepeatKeepsGood(s: State, id: TrackId, p: Packet)
    requires Good(s) && IsDescriptor(p) && Suits(p, id) && (HasParent(p) ==> p.parent in Described(s.out))
    requires id in s.tracks && p.uuid == s.tracks[id]
    ensures Good(s.(out := s.out + [p]))
  {
    Appended(s.out, p);
  }

  lemma SoundGrows(tracks: map<TrackId, nat>, nextUuid: nat, uuids: set<nat>, id: TrackId)
    requires Sound(tracks, nextUuid, uuids) && id !in tracks
    ensures Sound(tracks[id := nextUuid], nextUuid + 1, uuids + {nextUuid})
  {
  }

  /** A new track may be described. */
  lemma AddKeepsGood(s: State, id: TrackId, p: Packet)
    requires Good(s) && IsDescriptor(p) && Suits(p, id) && (HasParent(p) ==> p.parent in Described(s.out))
    requires id !in s.tracks && p.uuid == s.nextUuid
    ensures Good(AddTrack(s, id, p))
  {
    var tracks := s.tracks[id := s.nextUuid];
    SoundGrows(s.tracks, s.nextUuid, Described(s.out), id);
    OwnedGrows(s.tracks, tracks, s.out);
    Appended(s.out, p);
    assert HasOwner(tracks, p) by { assert id in tracks && tracks[id] == p.uuid; }
  }

  lemma PacketKeepsGood(s: State, p: Packet)
    requires Good(s) && !IsDescriptor(p) && !p.SliceBegin? && !p.SliceEnd?
    requires (IsEvent(p) ==> p.uuid in Described(s.out))
    ensures Good(s.(out := s.out + [p]))
  {
    Appended(s.out, p);
  }

  lemma SliceKeepsGood(s: State, begin: Packet, end: Packet)
    requires Good(s) && begin.SliceBegin? && end.SliceEnd? && begin.uuid == end.uuid && begin.uuid in Described(s.out)
    ensures Good(s.(out := s.out + [begin, end]))
  {
    Appended(s.out, begin);
    Appended(s.out + [begin], end);
    assert s.out + [begin] + [end] == s.out + [begin, end];
  }

  lemma ProcessGood(s: State, pid: int, name: Option<string>)
    requires Good(s)
    ensures Good(EnsureProcess(s, pid, name)) && Extends(s.tracks, EnsureProcess(s, pid, name).tracks)
  {
    if Process(pid) !in s.tracks {
      AddKeepsGood(s, Process(pid), ProcessDescriptor(s.nextUuid, pid, name));
    }
  }

  function WithThread(p: State, pid: int, tid: int, name: Option<string>): State
    requires Process(pid) in p.tracks
  {
    var id := Thread(tid, pid);
    if id in p.tracks then p.(out := p.out + [ThreadDescriptor(p.tracks[id], p.tracks[Process(pid)], pid, tid, name)])
    else AddTrack(p, id, ThreadDescriptor(p.nextUuid, p.tracks[Process(pid)], pid, tid, name))
  }

  /** A thread's descriptor, new or repeated, under a process that has a track. */
  lemma ThreadDescriptorGood(s: State, pid: int, tid: int, name: Option<string>)
    requires Good(s) && Process(pid) in s.tracks
    ensures Good(WithThread(s, pid, tid, name))
  {
    var id := Thread(tid, pid);
    if id in s.tracks {
      RepeatKeepsGood(s, id, ThreadDescriptor(s.tracks[id], s.tracks[Process(pid)], pid, tid, name));
    } else {
      AddKeepsGood(s, id, ThreadDescriptor(s.nextUuid, s.tracks[Process(pid)], pid, tid, name));
    }
  }

  lemma ThreadShape(s: State, pid: int, tid: int, name: Option<string>)
    ensures Extends(s.tracks, EnsureThread(s, pid, tid, name).tracks)
    ensures EnsureThread(s, pid, tid, name)
      == if Thread(tid, pid) in s.tracks && name.None? then s
         else WithThread(EnsureProcess(s, pid, None), pid, tid, name)
  {
  }

  lemma ThreadGood(s: State, pid: int, tid: int, name: Option<string>)
    requires Good(s)
    ensures Good(EnsureThread(s, pid, tid, name)) && Extends(s.tracks, EnsureThread(s, pid, tid, name).tracks)
  {
    ThreadShape(s, pid, tid, name);
    ProcessGood(s, pid, None);
    ThreadDescriptorGood(EnsureProcess(s, pid, None), pid, tid, name);
  }

  lemma TrackGood(s: State, id: TrackId)
    requires Good(s)
    ensures Good(EnsureTrack(s, id)) && Extends(s.tracks, EnsureTrack(s, id).tracks)
  {
    if id !in s.tracks {
      match id {
        case Thread(tid, pid) => ThreadGood(s, pid, tid, None);
        case Process(pid) => ProcessGood(s, pid, None);
        case _ =>
      }
    }
  }

  lemma ParentGood(s: State, parent: Option<TrackType>) returns (p: State, parentUuid: nat)
    requires Good(s)
    ensures p == (if parent.Some? then EnsureTrack(s, parent.value.id) else s)
    ensures parentUuid == if parent.Some? then Uuid(p, parent.value.id) else 0
    ensures Good(p) && Extends(s.tracks, p.tracks) && (parentUuid != 0 ==> parentUuid in Described(p.out))
  {
    if parent.Some? { TrackGood(s, parent.value.id); }
    p := if parent.Some? then EnsureTrack(s, parent.value.id) else s;
    parentUuid := if parent.Some? then Uuid(p, parent.value.id) else 0;
  }

  /** A declared track other than a thread or process, its parent being settled. */
  lemma OtherTrackGood(p: State, id: TrackId, name: string, counterUnit: Option<string>, parentUuid: nat)
    requires Good(p) && id !in p.tracks && (parentUuid != 0 ==> parentUuid in Described(p.out))
    ensures id.Cpu? || id.Custom? ==> Good(AddTrack(p, id, GenericDescriptor(p.nextUuid, parentUuid, name)))
    ensures id.Counter? ==> Good(AddTrack(p, id, CounterDescriptor(p.nextUuid, parentUuid, name, counterUnit)))
  {
    if id.Counter? {
      AddKeepsGood(p, id, CounterDescriptor(p.nextUuid, parentUuid, name, counterUnit));
    } else if id.Cpu? || id.Custom? {
      AddKeepsGood(p, id, GenericDescriptor(p.nextUuid, parentUuid, name));
    }
  }

  /** The track itself, its parent being settled. */
  function Declare(p: State, name: string, t: TrackType, parentUuid: nat): State {
    match t.id
    case Cpu(_) => AddTrack(p, t.id, GenericDescriptor(p.nextUuid, parentUuid, name))
    case Custom(_) => AddTrack(p, t.id, GenericDescriptor(p.nextUuid, parentUuid, name))
    case Counter(_) => AddTrack(p, t.id, CounterDescriptor(p.nextUuid, parentUuid, name, t.counterUnit))
    case Thread(tid, pid) => EnsureThread(p, pid, tid, Some(name))
    case Process(pid) => EnsureProcess(p, pid, Some(name))
  }

  lemma DeclareGood(p: State, name: string, t: TrackType, parentUuid: nat)
    requires Good(p) && (parentUuid != 0 ==> parentUuid in Described(p.out))
    requires t.id.Thread? || t.id.Process? || t.id !in p.tracks
    ensures Good(Declare(p, name, t, parentUuid)) && Extends(p.tracks, Declare(p, name, t, parentUuid).tracks)
  {
    match t.id {
      case Thread(tid, pid) => ThreadGood(p, pid, tid, Some(name));
      case Process(pid) => ProcessGood(p, pid, Some(name));
      case _ => OtherTrackGood(p, t.id, name, t.counterUnit, parentUuid);
    }
  }

  lemma DeclarationGood(s: State, name: string, t: TrackType, parent: Option<TrackType>)
    requires Good(s)
    ensures Good(ConvertTrack(s, name, t, parent)) && Extends(s.tracks, ConvertTrack(s, name, t, parent).tracks)
  {
    if t.id !in s.tracks {
      var p, parentUuid := ParentGood(s, parent);
      if !t.id.Thread? && !t.id.Process? { OtherStaysNew(s, parent, t.id); }
      DeclareGood(p, name, t, parentUuid);
      assert ConvertTrack(s, name, t, parent) == Declare(p, name, t, parentUuid);
    }
  }

  /** Settling a parent never declares a track that is no thread or process. */
  lemma OtherStaysNew(s: State, parent: Option<TrackType>, id: TrackId)
    requires id !in s.tracks && !id.Thread? && !id.Process?
    ensures parent.Some? ==> id !in EnsureTrack(s, parent.value.id).tracks
  {
  }

  lemma ConvertGood(s: State, e: Event)
    requires Good(s)
    ensures Good(Convert(s, e)) && Extends(s.tracks, Convert(s, e).tracks)
  {
    match e {
      case Track(name, t, parent) => DeclarationGood(s, name, t, parent);
      case Span(track, name, start, end) =>
        TrackGood(s, track);
        var p := EnsureTrack(s, track);
        if track in p.tracks {
          SliceKeepsGood(p, SliceBegin(p.tracks[track], name, start), SliceEnd(p.tracks[track], end));
        }
      case Instant(track, name, timestamp) =>
        TrackGood(s, track);
        var p := EnsureTrack(s, track);
        if track in p.tracks { PacketKeepsGood(p, InstantEvent(p.tracks[track], name, timestamp)); }
      case CounterValue(track, value, timestamp) =>
        if track in s.tracks { PacketKeepsGood(s, CounterEvent(s.tracks[track], value, timestamp)); }
      case Interned(continuation) => PacketKeepsGood(s, InternedPacket(continuation));
      case PerfSample(track, callstack, timestamp) =>
        if track.Thread? { PacketKeepsGood(s, SamplePacket(track.pid, track.tid, callstack, timestamp)); }
    }
  }

  lemma {:induction false} TracesAreGood(es: seq<Event>)
    ensures Good(After(es))
  {
    if es != [] {
      TracesAreGood(es[..|es| - 1]);
      ConvertGood(After(es[..|es| - 1]), es[|es| - 1]);
    }
  }

  // ----------------------------------------------------------- main theorems

  /** Distinct tracks have distinct nonzero uuids, and a uuid, once given, is never changed. */
  lemma {:induction false} UuidsAreDistinctAndStay(es: seq<Event>, i: nat, a: TrackId, b: TrackId)
    requires i <= |es| && a in After(es[..i]).tracks
    ensures a in After(es).tracks && After(es).tracks[a] == After(es[..i]).tracks[a] != 0
    ensures b in After(es).tracks && a != b ==> After(es).tracks[b] != After(es).tracks[a]
  {
    TracesAreGood(es);
    if i == |es| {
      assert es[..i] == es;
    } else {
      var before := es[..|es| - 1];
      assert before[..i] == es[..i];
      UuidsAreDistinctAndStay(before, i, a, b);
      TracesAreGood(before);
      ConvertGood(After(before), es[|es| - 1]);
    }
  }

  lemma {:induction false} WellFormedAt(out: seq<Packet>, i: nat)
    requires WellFormed(out) && i < |out|
    ensures Fits(out[..i], out[i])
  {
    var n := |out| - 1;
    if i < n {
      WellFormedAt(out[..n], i);
      assert out[..n][..i] == out[..i];
    }
  }

  /** For every sequence of messages: each event and each nonzero parent refers to
      a track described earlier in the output, and slices come as a begin
      immediately followed by its end on the same track. */
  lemma TracesAreWellFormed(es: seq<Event>, i: nat)
    requires i < |After(es).out|
    ensures var out := After(es).out;
      && (IsEvent(out[i]) ==> exists j | 0 <= j < i :: IsDescriptor(out[j]) && out[j].uuid == out[i].uuid)
      && (HasParent(out[i]) ==> exists j | 0 <= j < i :: IsDescriptor(out[j]) && out[j].uuid == out[i].parent)
      && SlicePaired(out, i)
  {
    TracesAreGood(es);
    WellFormedAt(After(es).out, i);
    EarlierDescriptor(After(es).out, i);
    SlicesPair(After(es).out, i);
  }

  predicate SlicePaired(out: seq<Packet>, i: nat)
    requires i < |out|
  {
    && (out[i].SliceBegin? ==> i + 1 < |out| && out[i + 1].SliceEnd? && out[i + 1].uuid == out[i].uuid)
    && (out[i].SliceEnd? ==> i > 0 && out[i - 1].SliceBegin? && out[i - 1].uuid == out[i].uuid)
  }

  lemma SlicesPair(out: seq<Packet>, i: nat)
    requires i < |out| && WellFormed(out) && Settled(out)
    ensures SlicePaired(out, i)
  {
    WellFormedAt(out, i);
    if out[i].SliceEnd? { assert out[..i][i - 1] == out[i - 1]; }
    if out[i].SliceBegin? {
      WellFormedAt(out, i + 1);
      assert out[..i + 1][i] == out[i];
    }
  }

  lemma {:induction false} DescribedAt(out: seq<Packet>, uuid: nat)
    requires uuid in Described(out)
    ensures exists j | 0 <= j < |out| :: IsDescriptor(out[j]) && out[j].uuid == uuid
  {
    var n := |out| - 1;
    if !IsDescriptor(out[n]) || out[n].uuid != uuid {
      DescribedAt(out[..n], uuid);
      var j :| 0 <= j < n && IsDescriptor(out[..n][j]) && out[..n][j].uuid == uuid;
      assert out[j] == out[..n][j];
    }
  }

  lemma DescribedBefore(out: seq<Packet>, i: nat, uuid: nat)
    requires i <= |out| && uuid in Described(out[..i])
    ensures exists j | 0 <= j < i :: IsDescriptor(out[j]) && out[j].uuid == uuid
  {
    DescribedAt(out[..i], uuid);
    var j :| 0 <= j < i && IsDescriptor(out[..i][j]) && out[..i][j].uuid == uuid;
    assert out[j] == out[..i][j];
  }

  lemma EarlierDescriptor(out: seq<Packet>, i: nat)
    requires i < |out| && Fits(out[..i], out[i])
    ensures IsEvent(out[i]) ==> exists j | 0 <= j < i :: IsDescriptor(out[j]) && out[j].uuid == out[i].uuid
    ensures HasParent(out[i]) ==> exists j | 0 <= j < i :: IsDescriptor(out[j]) && out[j].uuid == out[i].parent
  {
    if IsEvent(out[i]) { DescribedBefore(out, i, out[i].uuid); }
    if HasParent(out[i]) { DescribedBefore(out, i, out[i].parent); }
  }

  lemma {:induction false} OwnedAt(tracks: map<TrackId, nat>, out: seq<Packet>, i: nat)
    requires Owned(tracks, out) && i < |out| && IsDescriptor(out[i])
    ensures HasOwner(tracks, out[i])
  {
    if i < |out| - 1 { OwnedAt(tracks, out[..|out| - 1], i); }
  }

  /** All descriptors of one uuid describe the same kind of track, and for
      processes and threads the same one. */
  lemma UuidMeansOneTrack(es: seq<Event>, i: nat, j: nat)
    requires i < |After(es).out| && j < |After(es).out|
    requires var out := After(es).out; IsDescriptor(out[i]) && IsDescriptor(out[j]) && out[i].uuid == out[j].uuid
    ensures exists id | id in After(es).tracks ::
      (After(es).tracks[id] == After(es).out[i].uuid && Suits(After(es).out[i], id) && Suits(After(es).out[j], id))
  {
    TracesAreGood(es);
    var s := After(es);
    OwnedAt(s.tracks, s.out, i);
    OwnedAt(s.tracks, s.out, j);
    var a :| a in s.tracks && s.tracks[a] == s.out[i].uuid && Suits(s.out[i], a);
    var b :| b in s.tracks && s.tracks[b] == s.out[j].uuid && Suits(s.out[j], b);
    assert a == b;
  }
}
