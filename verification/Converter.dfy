/** Conversion of trace messages to Perfetto packets (kinetrace/src/converter.rs
    over perfetto-format/src/lib.rs), packets being abstract values. */
module Converter {

  import opened Basics

  const FIRST_UUID: nat := 1000

  datatype TrackId =
    | Cpu(cpu: nat)
    | Thread(tid: int, pid: int)
    | Process(pid: int)
    | Custom(id: nat)
    | Counter(id: nat)

  /** A track's type is its id and, for a counter, its unit. */
  datatype TrackType = TrackType(id: TrackId, counterUnit: Option<string>)

  datatype Event =
    | Track(name: string, trackType: TrackType, parent: Option<TrackType>)
    | Span(track: TrackId, name: string, start: nat, end: nat)
    | Instant(track: TrackId, name: string, timestamp: nat)
    | CounterValue(track: TrackId, value: int, timestamp: nat)
    | Interned(continuation: bool)
    | PerfSample(track: TrackId, callstack: nat, timestamp: nat)

  datatype Packet =
    | ProcessDescriptor(uuid: nat, pid: int, processName: Option<string>)
    | ThreadDescriptor(uuid: nat, parent: nat, pid: int, tid: int, threadName: Option<string>)
    | GenericDescriptor(uuid: nat, parent: nat, name: string)
    | CounterDescriptor(uuid: nat, parent: nat, name: string, counterUnit: Option<string>)
    | SliceBegin(uuid: nat, name: string, timestamp: nat)
    | SliceEnd(uuid: nat, timestamp: nat)
    | InstantEvent(uuid: nat, name: string, timestamp: nat)
    | CounterEvent(uuid: nat, value: int, timestamp: nat)
    | InternedPacket(continuation: bool)
    | SamplePacket(pid: int, tid: int, callstack: nat, timestamp: nat)

  datatype State = State(tracks: map<TrackId, nat>, nextUuid: nat, out: seq<Packet>)

  const START: State := State(map[], FIRST_UUID, [])

  // --------------------------------------------------------- what is written

  function EnsureProcess(s: State, pid: int, name: Option<string>): (s': State)
    ensures Process(pid) in s'.tracks
  {
    if Process(pid) in s.tracks then s
    else State(s.tracks[Process(pid) := s.nextUuid], s.nextUuid + 1, s.out + [ProcessDescriptor(s.nextUuid, pid, name)])
  }

  function EnsureThread(s: State, pid: int, tid: int, name: Option<string>): (s': State)
    ensures Thread(tid, pid) in s'.tracks
  {
    var id := Thread(tid, pid);
    if id in s.tracks && name.None? then s
    else
      var p := EnsureProcess(s, pid, None);
      if id in s.tracks then p.(out := p.out + [ThreadDescriptor(p.tracks[id], p.tracks[Process(pid)], pid, tid, name)])
      else State(p.tracks[id := p.nextUuid], p.nextUuid + 1,
                 p.out + [ThreadDescriptor(p.nextUuid, p.tracks[Process(pid)], pid, tid, name)])
  }

  /** Threads and processes get a track on first use; others have to be declared. */
  function EnsureTrack(s: State, id: TrackId): State {
    if id in s.tracks then s
    else match id
      case Thread(tid, pid) => EnsureThread(s, pid, tid, None)
      case Process(pid) => EnsureProcess(s, pid, None)
      case _ => s
  }

  function AddTrack(s: State, id: TrackId, descriptor: Packet): State {
    State(s.tracks[id := s.nextUuid], s.nextUuid + 1, s.out + [descriptor])
  }

  function Uuid(s: State, id: TrackId): nat { if id in s.tracks then s.tracks[id] else 0 }

  function ConvertTrack(s: State, name: string, t: TrackType, parent: Option<TrackType>): State {
    if t.id in s.tracks then s
    else
      var p := if parent.Some? then EnsureTrack(s, parent.value.id) else s;
      var parentUuid := if parent.Some? then Uuid(p, parent.value.id) else 0;
      match t.id
      case Cpu(_) => AddTrack(p, t.id, GenericDescriptor(p.nextUuid, parentUuid, name))
      case Custom(_) => AddTrack(p, t.id, GenericDescriptor(p.nextUuid, parentUuid, name))
      case Counter(_) => AddTrack(p, t.id, CounterDescriptor(p.nextUuid, parentUuid, name, t.counterUnit))
      case Thread(tid, pid) => EnsureThread(p, pid, tid, Some(name))
      case Process(pid) => EnsureProcess(p, pid, Some(name))
  }

  function Convert(s: State, e: Event): State {
    match e
    case Track(name, t, parent) => ConvertTrack(s, name, t, parent)
    case Span(track, name, start, end) =>
      var p := EnsureTrack(s, track);
      if track in p.tracks
      then p.(out := p.out + [SliceBegin(p.tracks[track], name, start), SliceEnd(p.tracks[track], end)]) else p
    case Instant(track, name, timestamp) =>
      var p := EnsureTrack(s, track);
      if track in p.tracks then p.(out := p.out + [InstantEvent(p.tracks[track], name, timestamp)]) else p
    case CounterValue(track, value, timestamp) =>
      if track in s.tracks then s.(out := s.out + [CounterEvent(s.tracks[track], value, timestamp)]) else s
    case Interned(continuation) => s.(out := s.out + [InternedPacket(continuation)])
    case PerfSample(track, callstack, timestamp) =>
      if track.Thread? then s.(out := s.out + [SamplePacket(track.pid, track.tid, callstack, timestamp)]) else s
  }

  /** The converter and the writer it owns. */
  class PerfettoConverter {
    var trackMap: map<TrackId, nat>
    var trackUuidCounter: nat
    var packets: seq<Packet>

    ghost function Contents(): State
      reads this
    {
      State(trackMap, trackUuidCounter, packets)
    }

    constructor ()
      ensures Contents() == START
    {
      trackMap, trackUuidCounter, packets := map[], FIRST_UUID, [];
    }

    method NextTrackUuid() returns (uuid: nat)
      modifies `trackUuidCounter
      ensures uuid == old(trackUuidCounter) && trackUuidCounter == uuid + 1
    {
      uuid := trackUuidCounter;
      trackUuidCounter := trackUuidCounter + 1;
    }

    method WritePacket(p: Packet)
      modifies `packets
      ensures packets == old(packets) + [p]
    {
      packets := packets + [p];
    }

    method EnsureProcessTrack(pid: int, name: Option<string>) returns (uuid: nat)
      modifies this
      ensures Contents() == EnsureProcess(old(Contents()), pid, name) && uuid == trackMap[Process(pid)]
    {
      if Process(pid) in trackMap {
        return trackMap[Process(pid)];
      }
      uuid := NextTrackUuid();
      WritePacket(ProcessDescriptor(uuid, pid, name));
      trackMap := trackMap[Process(pid) := uuid];
    }

    method EnsureThreadTrack(pid: int, tid: int, name: Option<string>) returns (uuid: nat)
      modifies this
      ensures Contents() == EnsureThread(old(Contents()), pid, tid, name) && uuid == trackMap[Thread(tid, pid)]
    {
      var id := Thread(tid, pid);
      if id in trackMap {
        uuid := trackMap[id];
        if name.Some? {
          var process := EnsureProcessTrack(pid, None);
          WritePacket(ThreadDescriptor(uuid, process, pid, tid, name));
        }
      } else {
        var process := EnsureProcessTrack(pid, None);
        uuid := NextTrackUuid();
        WritePacket(ThreadDescriptor(uuid, process, pid, tid, name));
        trackMap := trackMap[id := uuid];
      }
    }

    /** The opening of `convert_span`, `convert_instant` and the parent part of `convert_track`. */
    method FindTrack(id: TrackId) returns (uuid: Option<nat>)
      modifies this
      ensures Contents() == EnsureTrack(old(Contents()), id)
      ensures uuid == if id in trackMap then Some(trackMap[id]) else None
    {
      if id in trackMap {
        return Some(trackMap[id]);
      }
      match id {
        case Thread(tid, pid) =>
          var u := EnsureThreadTrack(pid, tid, None);
          trackMap := trackMap[id := u];
          return Some(u);
        case Process(pid) =>
          var u := EnsureProcessTrack(pid, None);
          trackMap := trackMap[id := u];
          return Some(u);
        case _ => return None;
      }
    }

    method ConvertSpan(track: TrackId, name: string, start: nat, end: nat)
      modifies this
      ensures Contents() == Convert(old(Contents()), Span(track, name, start, end))
    {
      var uuid := FindTrack(track);
      if uuid.None? {
        return;
      }
      WritePacket(SliceBegin(uuid.value, name, start));
      WritePacket(SliceEnd(uuid.value, end));
      assert packets == EnsureTrack(old(Contents()), track).out
          + [SliceBegin(uuid.value, name, start), SliceEnd(uuid.value, end)];
    }

    method ConvertInstant(track: TrackId, name: string, timestamp: nat)
      modifies this
      ensures Contents() == Convert(old(Contents()), Instant(track, name, timestamp))
    {
      var uuid := FindTrack(track);
      if uuid.Some? {
        WritePacket(InstantEvent(uuid.value, name, timestamp));
      }
    }

    method ConvertCounter(track: TrackId, value: int, timestamp: nat)
      modifies this
      ensures Contents() == Convert(old(Contents()), CounterValue(track, value, timestamp))
    {
      if track in trackMap {
        WritePacket(CounterEvent(trackMap[track], value, timestamp));
      }
    }

    method DeclareTrack(name: string, t: TrackType, parent: Option<TrackType>)
      modifies this
      ensures Contents() == Convert(old(Contents()), Track(name, t, parent))
    {
      if t.id in trackMap {
        return;
      }
      var parentUuid := 0;
      if parent.Some? {
        var found := FindTrack(parent.value.id);
        parentUuid := if found.Some? then found.value else 0;
      }
      var uuid;
      match t.id {
        case Cpu(_) =>
          uuid := NextTrackUuid();
          WritePacket(GenericDescriptor(uuid, parentUuid, name));
        case Custom(_) =>
          uuid := NextTrackUuid();
          WritePacket(GenericDescriptor(uuid, parentUuid, name));
        case Counter(_) =>
          uuid := NextTrackUuid();
          WritePacket(CounterDescriptor(uuid, parentUuid, name, t.counterUnit));
        case Thread(tid, pid) => uuid := EnsureThreadTrack(pid, tid, Some(name));
        case Process(pid) => uuid := EnsureProcessTrack(pid, Some(name));
      }
      trackMap := trackMap[t.id := uuid];
    }
  }
}
