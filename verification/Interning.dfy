/** Incremental interning of sampled stacks (interned-symbolizer/src/lib.rs):
    each sample yields a callstack id and, when anything is new, a message that
    defines the strings, frames, mappings and callstacks it refers to. */
module Interning {

  import opened Basics

  const FAKE_MAPPING_ID: nat := 1
  const KERNEL: int := -1

  // ----------------------------------------------------- what is emitted

  datatype InternedString = InternedString(iid: nat, str: string)

  datatype Frame = Frame(iid: nat, functionNameId: nat, mappingId: nat, relPc: nat)

  datatype Mapping = Mapping(iid: nat, buildId: nat, start: nat, end: nat)

  datatype Callstack = Callstack(iid: nat, frameIds: seq<nat>)

  datatype InternedData = InternedData(
    functionNames: seq<InternedString>, frames: seq<Frame>, callstacks: seq<Callstack>,
    mappings: seq<Mapping>, buildIds: seq<InternedString>, continuation: bool)

  // --------------------------------------------------------- what is sampled

  /** A code address in a process (or the kernel) and the symbol found for it. */
  datatype Site = Site(pid: int, addr: nat, symbol: Option<string>)

  /** A sample: addresses innermost first, with what symbolization returned. */
  datatype Sample = Sample(pid: int, user: seq<nat>, userSymbols: seq<Option<string>>,
                           kernel: seq<nat>, kernelSymbols: seq<Option<string>>)

  /** Symbols paired with addresses, as far as both go. */
  function Zip(pid: int, symbols: seq<Option<string>>, addresses: seq<nat>): seq<Site> {
    seq(Min(|symbols|, |addresses|),
        i requires 0 <= i < Min(|symbols|, |addresses|) => Site(pid, addresses[i], symbols[i]))
  }

  function Reversed(sites: seq<Site>): seq<Site> {
    seq(|sites|, i requires 0 <= i < |sites| => sites[|sites| - 1 - i])
  }

  /** A sample's frames, outermost user frame first, then the kernel's. */
  function Sites(s: Sample): seq<Site> {
    Reversed(Zip(s.pid, s.userSymbols, s.user)) + Zip(KERNEL, s.kernelSymbols, s.kernel)
  }

  // ---------------------------------------------------------- what is cached

  datatype Tables = Tables(
    frames: map<(int, nat), nat>, nextFrame: nat, callstacks: map<nat, nat>, nextCallstack: nat,
    unknownFunction: Option<nat>, nextFunction: nat, fakeMapping: Option<nat>, nextMapping: nat, isFirst: bool)

  const EMPTY: Tables := Tables(map[], 0, map[], 0, None, 0, None, 0, true)

  /** A message under construction. */
  datatype Draft = Draft(tables: Tables, ids: seq<nat>, names: seq<InternedString>, frames: seq<Frame>)

  function Opening(t: Tables): Draft {
    var t1 := if t.unknownFunction.None?
              then t.(unknownFunction := Some(t.nextFunction), nextFunction := t.nextFunction + 1) else t;
    var t2 := if t.fakeMapping.None?
              then t1.(fakeMapping := Some(FAKE_MAPPING_ID), nextMapping := FAKE_MAPPING_ID + 1) else t1;
    Draft(t2, [], if t.unknownFunction.None? then [InternedString(t.nextFunction, "<unknown>")] else [], [])
  }

  /** Add one frame. */
  function Extend(d: Draft, site: Site): Draft {
    var (t, key) := (d.tables, (site.pid, site.addr));
    if key in t.frames then d.(ids := d.ids + [t.frames[key]])
    else
      var id := t.nextFrame;
      var t1 := t.(frames := t.frames[key := id], nextFrame := id + 1);
      if site.symbol.Some? then
        Draft(t1.(nextFunction := t.nextFunction + 1), d.ids + [id],
              d.names + [InternedString(t.nextFunction, site.symbol.value)],
              d.frames + [Frame(id, t.nextFunction, FAKE_MAPPING_ID, site.addr)])
      else if t.unknownFunction.Some? then
        Draft(t1, d.ids + [id], d.names, d.frames + [Frame(id, t.unknownFunction.value, FAKE_MAPPING_ID, site.addr)])
      else
        Draft(t1.(unknownFunction := Some(t.nextFunction), nextFunction := t.nextFunction + 1), d.ids + [id],
              d.names, d.frames + [Frame(id, t.nextFunction, FAKE_MAPPING_ID, site.addr)])
  }

  function ExtendAll(d: Draft, sites: seq<Site>): Draft {
    if sites == [] then d else Extend(ExtendAll(d, sites[..|sites| - 1]), sites[|sites| - 1])
  }

  lemma {:induction false} ExtendAllJoins(d: Draft, first: seq<Site>, second: seq<Site>)
    ensures ExtendAll(ExtendAll(d, first), second) == ExtendAll(d, first + second)
  {
    if second == [] {
      assert first + second == first;
    } else {
      var front := second[..|second| - 1];
      ExtendAllJoins(d, first, front);
      var all := first + second;
      assert all[..|all| - 1] == first + front && all[|all| - 1] == second[|second| - 1];
    }
  }

  function Drafted(t: Tables, s: Sample): Draft { ExtendAll(Opening(t), Sites(s)) }

  function NewMappings(t: Tables): seq<Mapping> {
    if t.fakeMapping.None? then [Mapping(FAKE_MAPPING_ID, 1, 0, 0x7fff_ffff_ffff_ffff)] else []
  }

  function NewBuildIds(t: Tables): seq<InternedString> {
    if t.fakeMapping.None? then [InternedString(1, "unknown")] else []
  }

  function ReserveStack(hash: seq<nat> -> nat, t: Tables, ids: seq<nat>): Tables {
    if hash(ids) in t.callstacks then t
    else t.(callstacks := t.callstacks[hash(ids) := t.nextCallstack], nextCallstack := t.nextCallstack + 1)
  }

  /** Whether the sample brings anything new. */
  predicate News(hash: seq<nat> -> nat, t: Tables, s: Sample) {
    var d := Drafted(t, s);
    hash(d.ids) !in d.tables.callstacks || d.names != [] || d.frames != [] || t.fakeMapping.None?
  }

  /** The tables after a sample, its callstack id and the message it yields. */
  function TablesAfter(hash: seq<nat> -> nat, t: Tables, s: Sample): Tables {
    var d := Drafted(t, s);
    var t1 := ReserveStack(hash, d.tables, d.ids);
    if News(hash, t, s) then t1.(isFirst := false) else t1
  }

  function StackId(hash: seq<nat> -> nat, t: Tables, s: Sample): nat {
    var d := Drafted(t, s);
    ReserveStack(hash, d.tables, d.ids).callstacks[hash(d.ids)]
  }

  function Message(hash: seq<nat> -> nat, t: Tables, s: Sample): Option<InternedData> {
    var d := Drafted(t, s);
    if News(hash, t, s) then
      Some(InternedData(d.names, d.frames, [Callstack(StackId(hash, t, s), d.ids)], NewMappings(t), NewBuildIds(t),
                        !d.tables.isFirst))
    else None
  }

  // -------------------------------------------------------------- the code

  /** `InternedCache`, with its hash function. */
  class InternedCache {
    const hash: seq<nat> -> nat
    var pidFrameToSequence: map<(int, nat), nat>
    var nextFrameSequence: nat
    var callstackHashToSequence: map<nat, nat>
    var nextCallstackSequence: nat
    var unknownFunctionId: Option<nat>
    var nextFunctionId: nat
    var fakeMappingId: Option<nat>
    var nextMappingId: nat
    var isFirstInternedData: bool

    function Contents(): Tables
      reads this
    {
      Tables(pidFrameToSequence, nextFrameSequence, callstackHashToSequence, nextCallstackSequence,
             unknownFunctionId, nextFunctionId, fakeMappingId, nextMappingId, isFirstInternedData)
    }

    constructor (hash: seq<nat> -> nat)
      ensures this.hash == hash && Contents() == EMPTY
    {
      this.hash := hash;
      pidFrameToSequence, nextFrameSequence := map[], 0;
      callstackHashToSequence, nextCallstackSequence := map[], 0;
      unknownFunctionId, nextFunctionId := None, 0;
      fakeMappingId, nextMappingId := None, 0;
      isFirstInternedData := true;
    }

    method ReserveFrame(pid: int, addr: nat) returns (id: nat)
      modifies `pidFrameToSequence, `nextFrameSequence
      ensures (pid, addr) in pidFrameToSequence && id == pidFrameToSequence[(pid, addr)]
      ensures (pid, addr) in old(pidFrameToSequence) ==>
        pidFrameToSequence == old(pidFrameToSequence) && nextFrameSequence == old(nextFrameSequence)
      ensures (pid, addr) !in old(pidFrameToSequence) ==>
        && pidFrameToSequence == old(pidFrameToSequence)[(pid, addr) := old(nextFrameSequence)]
        && nextFrameSequence == old(nextFrameSequence) + 1
    {
      if (pid, addr) !in pidFrameToSequence {
        pidFrameToSequence := pidFrameToSequence[(pid, addr) := nextFrameSequence];
        nextFrameSequence := nextFrameSequence + 1;
      }
      id := pidFrameToSequence[(pid, addr)];
    }

    method ReserveCallstack(ids: seq<nat>) returns (id: nat)
      modifies `callstackHashToSequence, `nextCallstackSequence
      ensures Contents() == ReserveStack(hash, old(Contents()), ids)
      ensures hash(ids) in callstackHashToSequence && id == callstackHashToSequence[hash(ids)]
    {
      if hash(ids) !in callstackHashToSequence {
        callstackHashToSequence := callstackHashToSequence[hash(ids) := nextCallstackSequence];
        nextCallstackSequence := nextCallstackSequence + 1;
      }
      id := callstackHashToSequence[hash(ids)];
    }

    method GetOrCreateUnknownFunctionId() returns (id: nat)
      modifies `unknownFunctionId, `nextFunctionId
      ensures unknownFunctionId == Some(id)
      ensures old(unknownFunctionId).Some? ==>
          unknownFunctionId == old(unknownFunctionId) && nextFunctionId == old(nextFunctionId)
      ensures old(unknownFunctionId).None? ==> id == old(nextFunctionId) && nextFunctionId == old(nextFunctionId) + 1
    {
      if unknownFunctionId.None? {
        unknownFunctionId := Some(nextFunctionId);
        nextFunctionId := nextFunctionId + 1;
      }
      id := unknownFunctionId.value;
    }

    /** The body of both loops of `Interned::data`. */
    method InternSite(site: Site, ghost before: Draft, ids: seq<nat>, names: seq<InternedString>, frames: seq<Frame>)
      returns (ids': seq<nat>, names': seq<InternedString>, frames': seq<Frame>)
      requires before == Draft(Contents(), ids, names, frames)
      modifies this
      ensures Draft(Contents(), ids', names', frames') == Extend(before, site)
    {
      names', frames' := names, frames;
      var isNew := (site.pid, site.addr) !in pidFrameToSequence;
      var frameId := ReserveFrame(site.pid, site.addr);
      ids' := ids + [frameId];
      if isNew {
        var functionId;
        if site.symbol.Some? {
          functionId := nextFunctionId;
          nextFunctionId := nextFunctionId + 1;
          names' := names' + [InternedString(functionId, site.symbol.value)];
        } else {
          functionId := GetOrCreateUnknownFunctionId();
        }
        frames' := frames' + [Frame(frameId, functionId, FAKE_MAPPING_ID, site.addr)];
      }
    }

    /** The opening of `Interned::data`: the definitions every trace begins with. */
    method Prepare() returns (names: seq<InternedString>, mappings: seq<Mapping>, buildIds: seq<InternedString>)
      modifies this
      ensures Opening(old(Contents())) == Draft(Contents(), [], names, [])
      ensures mappings == NewMappings(old(Contents())) && buildIds == NewBuildIds(old(Contents()))
    {
      names, mappings, buildIds := [], [], [];
      var needMapping := fakeMappingId.None?;
      if unknownFunctionId.None? {
        var id := GetOrCreateUnknownFunctionId();
        names := [InternedString(id, "<unknown>")];
      }
      if needMapping {
        fakeMappingId := Some(FAKE_MAPPING_ID);
        nextMappingId := FAKE_MAPPING_ID + 1;
        mappings := [Mapping(FAKE_MAPPING_ID, 1, 0, 0x7fff_ffff_ffff_ffff)];
        buildIds := [InternedString(1, "unknown")];
      }
    }

    /** The first loop: user frames, from the last to the first. */
    method InternUser(users: seq<Site>, names: seq<InternedString>)
      returns (ids: seq<nat>, names': seq<InternedString>, frames: seq<Frame>)
      modifies this
      ensures Draft(Contents(), ids, names', frames)
          == ExtendAll(Draft(old(Contents()), [], names, []), Reversed(users))
    {
      ghost var d0, all := Draft(Contents(), [], names, []), Reversed(users);
      ids, names', frames := [], names, [];
      var i := |users|;
      while i > 0
        invariant 0 <= i <= |users|
        invariant Draft(Contents(), ids, names', frames) == ExtendAll(d0, all[..|users| - i])
      {
        i := i - 1;
        ghost var n := |users| - i;
        assert all[n - 1] == users[i] && all[..n][..n - 1] == all[..n - 1];
        ids, names', frames := InternSite(users[i], Draft(Contents(), ids, names', frames), ids, names', frames);
      }
      assert all[..|users|] == all;
    }

    /** The second loop: kernel frames in order. */
    method InternKernel(kernel: seq<Site>, ids: seq<nat>, names: seq<InternedString>, frames: seq<Frame>)
      returns (ids': seq<nat>, names': seq<InternedString>, frames': seq<Frame>)
      modifies this
      ensures Draft(Contents(), ids', names', frames') == ExtendAll(Draft(old(Contents()), ids, names, frames), kernel)
    {
      ghost var d0 := Draft(Contents(), ids, names, frames);
      ids', names', frames' := ids, names, frames;
      for k := 0 to |kernel|
        invariant Draft(Contents(), ids', names', frames') == ExtendAll(d0, kernel[..k])
      {
        assert kernel[..k + 1][..k] == kernel[..k];
        ids', names', frames' := InternSite(kernel[k], Draft(Contents(), ids', names', frames'), ids', names', frames');
      }
      assert kernel[..|kernel|] == kernel;
    }

    /** `Interned::data`. */
    method Data(s: Sample) returns (id: nat, data: Option<InternedData>)
      modifies this
      ensures Contents() == TablesAfter(hash, old(Contents()), s)
      ensures id == StackId(hash, old(Contents()), s)
      ensures data == Message(hash, old(Contents()), s)
    {
      ghost var t := Contents();
      var names, mappings, buildIds := Prepare();
      var users, kernel := Zip(s.pid, s.userSymbols, s.user), Zip(KERNEL, s.kernelSymbols, s.kernel);
      var ids, frames;
      ids, names, frames := InternUser(users, names);
      ids, names, frames := InternKernel(kernel, ids, names, frames);
      ExtendAllJoins(Opening(t), Reversed(users), kernel);
      assert Draft(Contents(), ids, names, frames) == Drafted(t, s);
      var newCallstack := hash(ids) !in callstackHashToSequence;
      id := ReserveCallstack(ids);
      data := None;
      if newCallstack || names != [] || frames != [] || mappings != [] {
        var continuation := !isFirstInternedData;
        isFirstInternedData := false;
        data := Some(InternedData(names, frames, [Callstack(id, ids)], mappings, buildIds, continuation));
      }
    }
  }
}
