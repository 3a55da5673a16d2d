/** Reading back the interned stream: every callstack id stands for exactly the
    stack it was returned for. */
module InterningLaws {
  import opened Basics
  import opened Interning

  // -------------------------------------------------------------- the reader

  datatype Reader = Reader(
    names: map<nat, string>, frames: map<nat, Frame>, callstacks: map<nat, seq<nat>>,
    mappings: map<nat, Mapping>, buildIds: map<nat, string>)

  const NOTHING: Reader := Reader(map[], map[], map[], map[], map[])

  function DefineStrings(m: map<nat, string>, xs: seq<InternedString>): map<nat, string> {
    if xs == [] then m else DefineStrings(m, xs[..|xs| - 1])[xs[|xs| - 1].iid := xs[|xs| - 1].str]
  }

  function DefineFrames(m: map<nat, Frame>, xs: seq<Frame>): map<nat, Frame> {
    if xs == [] then m else DefineFrames(m, xs[..|xs| - 1])[xs[|xs| - 1].iid := xs[|xs| - 1]]
  }

  function DefineMappings(m: map<nat, Mapping>, xs: seq<Mapping>): map<nat, Mapping> {
    if xs == [] then m else DefineMappings(m, xs[..|xs| - 1])[xs[|xs| - 1].iid := xs[|xs| - 1]]
  }

  function DefineStacks(m: map<nat, seq<nat>>, xs: seq<Callstack>): map<nat, seq<nat>> {
    if xs == [] then m else DefineStacks(m, xs[..|xs| - 1])[xs[|xs| - 1].iid := xs[|xs| - 1].frameIds]
  }

  /** A message that does not continue the stream starts it afresh. */
  function Receive(r: Reader, m: InternedData): Reader {
    var b := if m.continuation then r else NOTHING;
    Reader(DefineStrings(b.names, m.functionNames), DefineFrames(b.frames, m.frames),
           DefineStacks(b.callstacks, m.callstacks),
           DefineMappings(b.mappings, m.mappings), DefineStrings(b.buildIds, m.buildIds))
  }

  // -------------------------------------------------------------------- runs

  function TablesOf(hash: seq<nat> -> nat, samples: seq<Sample>): Tables {
    if samples == [] then EMPTY
    else TablesAfter(hash, TablesOf(hash, samples[..|samples| - 1]), samples[|samples| - 1])
  }

  /** A reader that held `r0` when the stream began, after the messages of the samples. */
  function ReaderOf(hash: seq<nat> -> nat, r0: Reader, samples: seq<Sample>): Reader {
    if samples == [] then r0
    else
      var before := samples[..|samples| - 1];
      var m := Message(hash, TablesOf(hash, before), samples[|samples| - 1]);
      if m.Some? then Receive(ReaderOf(hash, r0, before), m.value) else ReaderOf(hash, r0, before)
  }

  /** The list of frame ids, respectively the callstack id, of each sample. */
  function Lists(hash: seq<nat> -> nat, samples: seq<Sample>): (lists: seq<seq<nat>>)
    ensures |lists| == |samples|
  {
    if samples == [] then []
    else
      var before := samples[..|samples| - 1];
      Lists(hash, before) + [Drafted(TablesOf(hash, before), samples[|samples| - 1]).ids]
  }

  function Ids(hash: seq<nat> -> nat, samples: seq<Sample>): (ids: seq<nat>)
    ensures |ids| == |samples|
  {
    if samples == [] then []
    else
      var before := samples[..|samples| - 1];
      Ids(hash, before) + [StackId(hash, TablesOf(hash, before), samples[|samples| - 1])]
  }

  /** The name of a code address is the one it was first seen with. */
  function Note(seen: map<(int, nat), string>, site: Site): map<(int, nat), string> {
    if (site.pid, site.addr) in seen then seen
    else seen[(site.pid, site.addr) := if site.symbol.Some? then site.symbol.value else "<unknown>"]
  }

  function NoteAll(seen: map<(int, nat), string>, sites: seq<Site>): map<(int, nat), string> {
    if sites == [] then seen else Note(NoteAll(seen, sites[..|sites| - 1]), sites[|sites| - 1])
  }

  function Seen(samples: seq<Sample>): map<(int, nat), string> {
    if samples == [] then map[] else NoteAll(Seen(samples[..|samples| - 1]), Sites(samples[|samples| - 1]))
  }

  // ------------------------------------------------------------------ frames

  /** A frame id is defined, with this address and name and the one mapping. */
  predicate FrameIs(names: map<nat, string>, frames: map<nat, Frame>, id: nat, addr: nat, name: string) {
    && id in frames && frames[id].relPc == addr && frames[id].mappingId == FAKE_MAPPING_ID
    && frames[id].functionNameId in names && names[frames[id].functionNameId] == name
  }

  /** Names below the counter, among them the one for unknown functions. */
  predicate NamesOk(unknown: Option<nat>, nextFunction: nat, names: map<nat, string>) {
    && unknown.Some? && unknown.value in names && names[unknown.value] == "<unknown>"
    && forall n | n in names :: n < nextFunction
  }

  /** Frames below the counter, their references defined. */
  predicate ReferencesOk(nextFrame: nat, names: map<nat, string>, frames: map<nat, Frame>) {
    forall f | f in frames ::
      f < nextFrame && frames[f].functionNameId in names && frames[f].mappingId == FAKE_MAPPING_ID
  }

  /** Each code address seen has its own frame, with its address and first-seen name. */
  predicate KeysOk(table: map<(int, nat), nat>, names: map<nat, string>, frames: map<nat, Frame>,
                   seen: map<(int, nat), string>)
  {
    && table.Keys == seen.Keys
    && (forall k | k in table :: FrameIs(names, frames, table[k], k.1, seen[k]))
    && (forall k, l | k in table && l in table && table[k] == table[l] :: k == l)
  }

  predicate FramesOk(t: Tables, names: map<nat, string>, frames: map<nat, Frame>, seen: map<(int, nat), string>) {
    && NamesOk(t.unknownFunction, t.nextFunction, names) && ReferencesOk(t.nextFrame, names, frames)
    && KeysOk(t.frames, names, frames, seen)
  }

  predicate DraftOk(d: Draft, names: map<nat, string>, frames: map<nat, Frame>, seen: map<(int, nat), string>) {
    FramesOk(d.tables, DefineStrings(names, d.names), DefineFrames(frames, d.frames), seen)
  }

  lemma DefineFrame(m: map<nat, Frame>, xs: seq<Frame>, x: Frame)
    ensures DefineFrames(m, xs + [x]) == DefineFrames(m, xs)[x.iid := x]
  {
    assert (xs + [x])[..|xs|] == xs;
  }

  lemma DefineString(m: map<nat, string>, xs: seq<InternedString>, x: InternedString)
    ensures DefineStrings(m, xs + [x]) == DefineStrings(m, xs)[x.iid := x.str]
  {
    assert (xs + [x])[..|xs|] == xs;
  }

  /** What adding one unknown frame does to both ends. */
  lemma ExtendShape(d: Draft, names: map<nat, string>, frames: map<nat, Frame>, site: Site)
    requires (site.pid, site.addr) !in d.tables.frames && d.tables.unknownFunction.Some?
    ensures var (t, e, named) := (d.tables, Extend(d, site), site.symbol.Some?);
      var fn := if named then t.nextFunction else t.unknownFunction.value;
      && e.tables == t.(frames := t.frames[(site.pid, site.addr) := t.nextFrame], nextFrame := t.nextFrame + 1,
                        nextFunction := if named then t.nextFunction + 1 else t.nextFunction)
      && DefineFrames(frames, e.frames)
          == DefineFrames(frames, d.frames)[t.nextFrame := Frame(t.nextFrame, fn, FAKE_MAPPING_ID, site.addr)]
      && DefineStrings(names, e.names) ==
           (if named then DefineStrings(names, d.names)[fn := site.symbol.value] else DefineStrings(names, d.names))
  {
    var t := d.tables;
    var fn := if site.symbol.Some? then t.nextFunction else t.unknownFunction.value;
    DefineFrame(frames, d.frames, Frame(t.nextFrame, fn, FAKE_MAPPING_ID, site.addr));
    if site.symbol.Some? { DefineString(names, d.names, InternedString(fn, site.symbol.value)); }
  }

  /** Tables that differ in new names and one new frame only. */
  lemma AddKey(table: map<(int, nat), nat>, nextFrame: nat, names: map<nat, string>, frames: map<nat, Frame>,
               seen: map<(int, nat), string>, key: (int, nat), names': map<nat, string>, fn: nat)
    requires KeysOk(table, names, frames, seen) && ReferencesOk(nextFrame, names, frames) && key !in table
    requires (forall n | n in names :: n in names' && names'[n] == names[n]) && fn in names'
    ensures KeysOk(table[key := nextFrame], names', frames[nextFrame := Frame(nextFrame, fn, FAKE_MAPPING_ID, key.1)],
                   seen[key := names'[fn]])
  {
  }

  lemma AddFrame(t: Tables, names: map<nat, string>, frames: map<nat, Frame>, seen: map<(int, nat), string>,
                 key: (int, nat),
                 symbol: Option<string>, names': map<nat, string>, t': Tables)
    requires FramesOk(t, names, frames, seen) && key !in t.frames
    requires names' == if symbol.Some? then names[t.nextFunction := symbol.value] else names
    requires t' == t.(frames := t.frames[key := t.nextFrame], nextFrame := t.nextFrame + 1,
                      nextFunction := if symbol.Some? then t.nextFunction + 1 else t.nextFunction)
    ensures var fn := if symbol.Some? then t.nextFunction else t.unknownFunction.value;
      FramesOk(t', names', frames[t.nextFrame := Frame(t.nextFrame, fn, FAKE_MAPPING_ID, key.1)],
               seen[key := if symbol.Some? then symbol.value else "<unknown>"])
  {
    var fn := if symbol.Some? then t.nextFunction else t.unknownFunction.value;
    AddKey(t.frames, t.nextFrame, names, frames, seen, key, names', fn);
  }

  lemma ExtendKeeps(d: Draft, names: map<nat, string>, frames: map<nat, Frame>, seen: map<(int, nat), string>,
                    site: Site)
    requires DraftOk(d, names, frames, seen)
    ensures DraftOk(Extend(d, site), names, frames, Note(seen, site))
  {
    var key := (site.pid, site.addr);
    if key !in d.tables.frames {
      ExtendShape(d, names, frames, site);
      AddFrame(d.tables, DefineStrings(names, d.names), DefineFrames(frames, d.frames), seen, key, site.symbol,
               DefineStrings(names, Extend(d, site).names), Extend(d, site).tables);
    }
  }

  lemma {:induction false} ExtendAllKeeps(d: Draft, names: map<nat, string>, frames: map<nat, Frame>,
                                          seen: map<(int, nat), string>, sites: seq<Site>)
    requires DraftOk(d, names, frames, seen)
    ensures DraftOk(ExtendAll(d, sites), names, frames, NoteAll(seen, sites))
  {
    if sites != [] {
      var front := sites[..|sites| - 1];
      ExtendAllKeeps(d, names, frames, seen, front);
      ExtendKeeps(ExtendAll(d, front), names, frames, NoteAll(seen, front), sites[|sites| - 1]);
    }
  }

  /** The ids of a list of sites, as the frame table has them. */
  predicate IdsOf(table: map<(int, nat), nat>, sites: seq<Site>, ids: seq<nat>) {
    && |ids| == |sites|
    && forall i | 0 <= i < |sites| ::
         (sites[i].pid, sites[i].addr) in table && ids[i] == table[(sites[i].pid, sites[i].addr)]
  }

  predicate Within(small: map<(int, nat), nat>, large: map<(int, nat), nat>) {
    forall k | k in small :: k in large && large[k] == small[k]
  }

  /** The parts of the tables that drafting leaves alone. */
  predicate SameStacks(t: Tables, t': Tables) {
    && t'.callstacks == t.callstacks && t'.nextCallstack == t.nextCallstack
    && t'.isFirst == t.isFirst && t'.fakeMapping == t.fakeMapping
  }

  lemma ExtendFrames(d: Draft, site: Site)
    ensures var (e, key) := (Extend(d, site), (site.pid, site.addr));
      && SameStacks(d.tables, e.tables) && Within(d.tables.frames, e.tables.frames)
      && key in e.tables.frames && e.ids == d.ids + [e.tables.frames[key]]
  {
  }

  lemma IdsGrow(small: map<(int, nat), nat>, large: map<(int, nat), nat>, sites: seq<Site>, ids: seq<nat>)
    requires IdsOf(small, sites, ids) && Within(small, large)
    ensures IdsOf(large, sites, ids)
  {
  }

  lemma IdsAppend(table: map<(int, nat), nat>, sites: seq<Site>, ids: seq<nat>, site: Site)
    requires IdsOf(table, sites, ids) && (site.pid, site.addr) in table
    ensures IdsOf(table, sites + [site], ids + [table[(site.pid, site.addr)]])
  {
  }

  /** Drafting only adds frames, lists the sites' ids and leaves callstacks alone. */
  lemma {:induction false} ExtendAllShape(d: Draft, sites: seq<Site>)
    requires d.ids == []
    ensures var e := ExtendAll(d, sites);
      IdsOf(e.tables.frames, sites, e.ids) && Within(d.tables.frames, e.tables.frames) && SameStacks(d.tables, e.tables)
  {
    if sites != [] {
      var front, site := sites[..|sites| - 1], sites[|sites| - 1];
      ExtendAllShape(d, front);
      var e := ExtendAll(d, front);
      ExtendFrames(e, site);
      IdsGrow(e.tables.frames, Extend(e, site).tables.frames, front, e.ids);
      IdsAppend(Extend(e, site).tables.frames, front, e.ids, site);
      assert sites == front + [site];
    }
  }

  // ---------------------------------------------------- one sample, both ends

  /** What the reader holds when a sample's message arrives. */
  function Base(t: Tables, r: Reader): Reader { if t.isFirst then NOTHING else r }

  predicate Ready(t: Tables) { t.isFirst <==> t.fakeMapping.None? }

  lemma DraftedShape(t: Tables, s: Sample)
    ensures var d := Drafted(t, s);
      && IdsOf(d.tables.frames, Sites(s), d.ids) && Within(t.frames, d.tables.frames)
      && d.tables.callstacks == t.callstacks && d.tables.nextCallstack == t.nextCallstack
      && d.tables.isFirst == t.isFirst
      && d.tables.fakeMapping.Some?
  {
    ExtendAllShape(Opening(t), Sites(s));
  }

  lemma DefineOne(m: map<nat, seq<nat>>, x: Callstack)
    ensures DefineStacks(m, [x]) == m[x.iid := x.frameIds]
  {
    assert [x][..0] == [];
  }

  lemma ReceiveShape(hash: seq<nat> -> nat, t: Tables, r: Reader, s: Sample)
    requires Ready(t)
    ensures var (d, b, m) := (Drafted(t, s), Base(t, r), Message(hash, t, s));
      var r' := if m.Some? then Receive(r, m.value) else r;
      && r'.names == DefineStrings(b.names, d.names) && r'.frames == DefineFrames(b.frames, d.frames)
      && r'.callstacks == (if m.Some? then b.callstacks[StackId(hash, t, s) := d.ids] else b.callstacks)
      && r'.mappings == DefineMappings(b.mappings, NewMappings(t))
      && r'.buildIds == DefineStrings(b.buildIds, NewBuildIds(t))
      && (t.isFirst ==> m.Some?)
      && (hash(d.ids) !in t.callstacks ==> m.Some?)
  {
    DraftedShape(t, s);
    DefineOne(Base(t, r).callstacks, Callstack(StackId(hash, t, s), Drafted(t, s).ids));
  }

  /** Everything a reader needs in order to resolve frames. */
  predicate ReaderOk(t: Tables, r: Reader, seen: map<(int, nat), string>) {
    && FramesOk(t, r.names, r.frames, seen)
    && FAKE_MAPPING_ID in r.mappings && r.mappings[FAKE_MAPPING_ID].buildId in r.buildIds
  }

  lemma OpeningOk(t: Tables, r: Reader, seen: map<(int, nat), string>)
    requires Ready(t)
    requires if t.isFirst then t == EMPTY && seen == map[] else ReaderOk(t, r, seen)
    ensures DraftOk(Opening(t), Base(t, r).names, Base(t, r).frames, seen)
  {
    if t.isFirst {
      var xs := Opening(t).names;
      assert xs[..0] == [];
      assert DefineStrings(map[], xs) == map[0 := "<unknown>"];
    }
  }

  lemma MappingsKept(t: Tables, b: Reader)
    requires t.isFirst <==> t.fakeMapping.None?
    requires t.isFirst || (FAKE_MAPPING_ID in b.mappings && b.mappings[FAKE_MAPPING_ID].buildId in b.buildIds)
    ensures var (mappings, ids) := (DefineMappings(b.mappings, NewMappings(t)),
                                    DefineStrings(b.buildIds, NewBuildIds(t)));
      FAKE_MAPPING_ID in mappings && mappings[FAKE_MAPPING_ID].buildId in ids
  {
    if t.isFirst { assert NewMappings(t)[..0] == [] && NewBuildIds(t)[..0] == []; }
  }

  lemma SampleKeeps(hash: seq<nat> -> nat, t: Tables, r: Reader, seen: map<(int, nat), string>, s: Sample)
    requires Ready(t)
    requires if t.isFirst then t == EMPTY && seen == map[] else ReaderOk(t, r, seen)
    ensures var m := Message(hash, t, s);
      && ReaderOk(TablesAfter(hash, t, s), if m.Some? then Receive(r, m.value) else r, NoteAll(seen, Sites(s)))
      && Ready(TablesAfter(hash, t, s)) && !TablesAfter(hash, t, s).isFirst
  {
    OpeningOk(t, r, seen);
    ExtendAllKeeps(Opening(t), Base(t, r).names, Base(t, r).frames, seen, Sites(s));
    DraftedShape(t, s);
    ReceiveShape(hash, t, r, s);
    MappingsKept(t, Base(t, r));
  }

  lemma {:induction false} RunKeeps(hash: seq<nat> -> nat, r0: Reader, samples: seq<Sample>)
    ensures Ready(TablesOf(hash, samples)) && (TablesOf(hash, samples).isFirst <==> samples == [])
    ensures samples != [] ==> ReaderOk(TablesOf(hash, samples), ReaderOf(hash, r0, samples), Seen(samples))
  {
    if samples != [] {
      var before := samples[..|samples| - 1];
      RunKeeps(hash, r0, before);
      SampleKeeps(hash, TablesOf(hash, before), ReaderOf(hash, r0, before), Seen(before), samples[|samples| - 1]);
    }
  }

  // ------------------------------------------ what a sample says of its frames

  // Read straight off the fields of a sample, line by line: line `k` is the
  // `k`-th from last user address that has a symbol entry, outermost first, and
  // behind these the kernel addresses in order.

  function UserDepth(s: Sample): nat { if |s.user| < |s.userSymbols| then |s.user| else |s.userSymbols| }

  function KernelDepth(s: Sample): nat { if |s.kernel| < |s.kernelSymbols| then |s.kernel| else |s.kernelSymbols| }

  function Depth(s: Sample): nat { UserDepth(s) + KernelDepth(s) }

  function PidAt(s: Sample, k: nat): int { if k < UserDepth(s) then s.pid else KERNEL }

  function AddrAt(s: Sample, k: nat): nat
    requires k < Depth(s)
  {
    var n := UserDepth(s);
    if k < n then s.user[n - 1 - k] else s.kernel[k - n]
  }

  function SymbolAt(s: Sample, k: nat): Option<string>
    requires k < Depth(s)
  {
    var n := UserDepth(s);
    if k < n then s.userSymbols[n - 1 - k] else s.kernelSymbols[k - n]
  }

  function NameAt(s: Sample, k: nat): string
    requires k < Depth(s)
  {
    if SymbolAt(s, k).Some? then SymbolAt(s, k).value else "<unknown>"
  }

  lemma SitesAt(s: Sample)
    ensures |Sites(s)| == Depth(s)
    ensures forall k: nat | k < Depth(s) :: Sites(s)[k] == Site(PidAt(s, k), AddrAt(s, k), SymbolAt(s, k))
  {
  }

  /** Line `k` of a sample is at this address of this process. */
  predicate IsAt(s: Sample, k: nat, pid: int, addr: nat) {
    k < Depth(s) && PidAt(s, k) == pid && AddrAt(s, k) == addr
  }

  /** Line `b` of sample `a` comes before line `k` of sample `i`. */
  predicate Earlier(a: nat, b: nat, i: nat, k: nat) { a < i || (a == i && b < k) }

  /** Line `b` of sample `a` is the first of all at this address of this process. */
  ghost predicate FirstAt(samples: seq<Sample>, a: nat, b: nat, pid: int, addr: nat) {
    && a < |samples| && IsAt(samples[a], b, pid, addr)
    && forall i: nat, k: nat | i < |samples| && Earlier(i, k, a, b) :: !IsAt(samples[i], k, pid, addr)
  }

  /** A name is that of the first line at the address, whatever later samples said. */
  ghost predicate NamedAsFirst(samples: seq<Sample>, pid: int, addr: nat, name: string) {
    exists a: nat, b: nat :: FirstAt(samples, a, b, pid, addr) && name == NameAt(samples[a], b)
  }

  lemma {:induction false} FirstInSites(seen: map<(int, nat), string>, sites: seq<Site>, key: (int, nat))
    returns (b: nat)
    requires key !in seen && key in NoteAll(seen, sites)
    ensures b < |sites| && (sites[b].pid, sites[b].addr) == key
    ensures forall k | 0 <= k < b :: (sites[k].pid, sites[k].addr) != key
    ensures NoteAll(seen, sites)[key] == if sites[b].symbol.Some? then sites[b].symbol.value else "<unknown>"
  {
    var n := |sites| - 1;
    if key in NoteAll(seen, sites[..n]) {
      b := FirstInSites(seen, sites[..n], key);
    } else {
      b := n;
      NamesStay(seen, sites[..n]);
      forall k | 0 <= k < b ensures (sites[k].pid, sites[k].addr) != key { assert sites[..n][k] == sites[k]; }
    }
  }

  /** The name kept for an address is that of its first line. */
  lemma {:induction false} SeenIsFirst(samples: seq<Sample>, pid: int, addr: nat)
    requires (pid, addr) in Seen(samples)
    ensures NamedAsFirst(samples, pid, addr, Seen(samples)[(pid, addr)])
  {
    var n, key := |samples| - 1, (pid, addr);
    var before, s := samples[..n], samples[n];
    NamesStay(Seen(before), Sites(s));
    if key in Seen(before) {
      SeenIsFirst(before, pid, addr);
      var a: nat, b: nat :| FirstAt(before, a, b, pid, addr) && Seen(before)[key] == NameAt(before[a], b);
      assert FirstAt(samples, a, b, pid, addr);
    } else {
      SitesAt(s);
      var b := FirstInSites(Seen(before), Sites(s), key);
      forall i: nat, k: nat | i < |samples| && Earlier(i, k, n, b) ensures !IsAt(samples[i], k, pid, addr) {
        if i < n && k < Depth(samples[i]) {
          SeenStays(before, i);
          SitesAt(samples[i]);
          assert (Sites(before[i])[k].pid, Sites(before[i])[k].addr) in Seen(before);
        }
      }
      assert FirstAt(samples, n, b, pid, addr);
    }
  }

  // -------------------------------------------------------------- callstacks

  lemma SampleShape(hash: seq<nat> -> nat, t: Tables, s: Sample)
    ensures Within(t.frames, TablesAfter(hash, t, s).frames)
    ensures IdsOf(TablesAfter(hash, t, s).frames, Sites(s), Drafted(t, s).ids)
  {
    DraftedShape(t, s);
  }

  /** Frame ids, once given out, stay. */
  lemma {:induction false} FrameIdsStay(hash: seq<nat> -> nat, samples: seq<Sample>, i: nat)
    requires i < |samples|
    ensures IdsOf(TablesOf(hash, samples).frames, Sites(samples[i]), Lists(hash, samples)[i])
  {
    var before := samples[..|samples| - 1];
    SampleShape(hash, TablesOf(hash, before), samples[|samples| - 1]);
    if i < |before| {
      FrameIdsStay(hash, before, i);
      IdsGrow(TablesOf(hash, before).frames, TablesOf(hash, samples).frames, Sites(samples[i]),
              Lists(hash, samples)[i]);
    }
  }

  /** The processes and addresses of a stack. */
  function Places(sites: seq<Site>): (places: seq<(int, nat)>)
    ensures |places| == |sites|
  {
    seq(|sites|, i requires 0 <= i < |sites| => (sites[i].pid, sites[i].addr))
  }

  lemma IdsDetermine(table: map<(int, nat), nat>, a: seq<Site>, aIds: seq<nat>, b: seq<Site>, bIds: seq<nat>)
    requires IdsOf(table, a, aIds) && IdsOf(table, b, bIds)
    requires forall k, l | k in table && l in table && table[k] == table[l] :: k == l
    ensures aIds == bIds <==> Places(a) == Places(b)
  {
    if aIds == bIds {
      forall i | 0 <= i < |a| ensures Places(a)[i] == Places(b)[i] { assert aIds[i] == bIds[i]; }
    } else if |a| == |b| {
      var i :| 0 <= i < |a| && aIds[i] != bIds[i];
      assert Places(a)[i] != Places(b)[i];
    }
  }

  /** Two samples are at the same addresses of the same processes. */
  predicate SamePlaces(s: Sample, t: Sample) {
    Depth(s) == Depth(t) && forall k: nat | k < Depth(s) :: IsAt(s, k, PidAt(t, k), AddrAt(t, k))
  }

  lemma SamePlacesIff(s: Sample, t: Sample)
    ensures SamePlaces(s, t) <==> Places(Sites(s)) == Places(Sites(t))
  {
    SitesAt(s);
    SitesAt(t);
    if SamePlaces(s, t) {
      forall k | 0 <= k < |Sites(s)| ensures Places(Sites(s))[k] == Places(Sites(t))[k] {
        assert IsAt(s, k, PidAt(t, k), AddrAt(t, k));
      }
    } else if |Sites(s)| == |Sites(t)| {
      var k: nat :| k < Depth(s) && !IsAt(s, k, PidAt(t, k), AddrAt(t, k));
      assert Places(Sites(s))[k] != Places(Sites(t))[k];
    }
  }

  /** Two samples have the same list of frame ids exactly if they are at the same
      addresses of the same processes. */
  lemma ListsAreFaithful(hash: seq<nat> -> nat, samples: seq<Sample>, i: nat, j: nat)
    requires i < |samples| && j < |samples|
    ensures Lists(hash, samples)[i] == Lists(hash, samples)[j] <==> SamePlaces(samples[i], samples[j])
  {
    FrameIdsStay(hash, samples, i);
    FrameIdsStay(hash, samples, j);
    RunKeeps(hash, NOTHING, samples);
    IdsDetermine(TablesOf(hash, samples).frames, Sites(samples[i]), Lists(hash, samples)[i],
                 Sites(samples[j]), Lists(hash, samples)[j]);
    SamePlacesIff(samples[i], samples[j]);
  }

  /** The callstack table: ids below the counter, one per hash, every hash that of a list. */
  predicate StacksOk(hash: seq<nat> -> nat, table: map<nat, nat>, next: nat, lists: seq<seq<nat>>, ids: seq<nat>) {
    && |lists| == |ids|
    && (forall h | h in table :: table[h] < next && exists i | 0 <= i < |lists| :: hash(lists[i]) == h)
    && (forall g, h | g in table && h in table && table[g] == table[h] :: g == h)
    && (forall i | 0 <= i < |lists| :: hash(lists[i]) in table && ids[i] == table[hash(lists[i])])
  }

  lemma StacksAppend(hash: seq<nat> -> nat, table: map<nat, nat>, next: nat, lists: seq<seq<nat>>, ids: seq<nat>,
                     list: seq<nat>, table': map<nat, nat>, next': nat)
    requires StacksOk(hash, table, next, lists, ids)
    requires if hash(list) in table then table' == table && next' == next
             else table' == table[hash(list) := next] && next' == next + 1
    ensures StacksOk(hash, table', next', lists + [list], ids + [table'[hash(list)]])
  {
    forall h | h in table' ensures exists i | 0 <= i < |lists + [list]| :: hash((lists + [list])[i]) == h {
      if h in table {
        var i :| 0 <= i < |lists| && hash(lists[i]) == h;
        assert (lists + [list])[i] == lists[i];
      } else {
        assert (lists + [list])[|lists|] == list;
      }
    }
  }

  lemma {:induction false} RunStacks(hash: seq<nat> -> nat, samples: seq<Sample>)
    ensures var t := TablesOf(hash, samples);
      StacksOk(hash, t.callstacks, t.nextCallstack, Lists(hash, samples), Ids(hash, samples))
  {
    if samples != [] {
      var before, s := samples[..|samples| - 1], samples[|samples| - 1];
      RunStacks(hash, before);
      var t, t' := TablesOf(hash, before), TablesOf(hash, samples);
      DraftedShape(t, s);
      StacksAppend(hash, t.callstacks, t.nextCallstack, Lists(hash, before), Ids(hash, before),
                   Drafted(t, s).ids, t'.callstacks, t'.nextCallstack);
    }
  }

  /** No two different lists of frame ids have the same hash. */
  predicate NoCollision(hash: seq<nat> -> nat, lists: seq<seq<nat>>) {
    forall i, j | 0 <= i < |lists| && 0 <= j < |lists| && hash(lists[i]) == hash(lists[j]) :: lists[i] == lists[j]
  }

  /** Every callstack id is defined as its own list of frames. */
  predicate Known(callstacks: map<nat, seq<nat>>, lists: seq<seq<nat>>, ids: seq<nat>) {
    |lists| == |ids| && forall i | 0 <= i < |ids| :: ids[i] in callstacks && callstacks[ids[i]] == lists[i]
  }

  lemma KnownAppend(hash: seq<nat> -> nat, table: map<nat, nat>, next: nat, lists: seq<seq<nat>>, ids: seq<nat>,
                    list: seq<nat>, id: nat, callstacks: map<nat, seq<nat>>, callstacks': map<nat, seq<nat>>)
    requires StacksOk(hash, table, next, lists, ids) && Known(callstacks, lists, ids)
    requires NoCollision(hash, lists + [list])
    requires id == if hash(list) in table then table[hash(list)] else next
    requires callstacks' == callstacks[id := list] || (callstacks' == callstacks && hash(list) in table)
    ensures Known(callstacks', lists + [list], ids + [id])
  {
    var all := lists + [list];
    forall i | 0 <= i < |ids| ensures ids[i] == id ==> lists[i] == list {
      if ids[i] == id { assert hash(all[i]) == hash(all[|lists|]); }
    }
    if hash(list) in table {
      var j :| 0 <= j < |lists| && hash(lists[j]) == hash(list);
      assert ids[j] == id;
    }
  }

  lemma {:induction false} AllKnown(hash: seq<nat> -> nat, r0: Reader, samples: seq<Sample>)
    requires NoCollision(hash, Lists(hash, samples))
    ensures Known(ReaderOf(hash, r0, samples).callstacks, Lists(hash, samples), Ids(hash, samples))
  {
    if samples != [] {
      var before, s := samples[..|samples| - 1], samples[|samples| - 1];
      var t, r := TablesOf(hash, before), ReaderOf(hash, r0, before);
      NoCollisionBefore(hash, Lists(hash, before), Drafted(t, s).ids);
      AllKnown(hash, r0, before);
      RunKeeps(hash, r0, before);
      RunStacks(hash, before);
      ReceiveShape(hash, t, r, s);
      DraftedShape(t, s);
      KnownAppend(hash, t.callstacks, t.nextCallstack, Lists(hash, before), Ids(hash, before), Drafted(t, s).ids,
                  StackId(hash, t, s), Base(t, r).callstacks, ReaderOf(hash, r0, samples).callstacks);
    }
  }

  lemma NoCollisionBefore(hash: seq<nat> -> nat, lists: seq<seq<nat>>, list: seq<nat>)
    requires NoCollision(hash, lists + [list])
    ensures NoCollision(hash, lists)
  {
    assert forall i | 0 <= i < |lists| :: (lists + [list])[i] == lists[i];
  }

  /** For every sequence of samples and whatever the reader held before: it
      resolves every callstack id returned so far to the frames of its sample if
      and only if no two of the lists collide under the hash. */
  lemma StacksKnownIff(hash: seq<nat> -> nat, r0: Reader, samples: seq<Sample>)
    ensures Known(ReaderOf(hash, r0, samples).callstacks, Lists(hash, samples), Ids(hash, samples))
      <==> NoCollision(hash, Lists(hash, samples))
  {
    if NoCollision(hash, Lists(hash, samples)) { AllKnown(hash, r0, samples); }
    RunStacks(hash, samples);
  }

  // --------------------------------------------------------- the round trip

  lemma {:induction false} NamesStay(seen: map<(int, nat), string>, sites: seq<Site>)
    ensures forall k | k in seen :: k in NoteAll(seen, sites) && NoteAll(seen, sites)[k] == seen[k]
    ensures forall i | 0 <= i < |sites| :: (sites[i].pid, sites[i].addr) in NoteAll(seen, sites)
  {
    if sites != [] { NamesStay(seen, sites[..|sites| - 1]); }
  }

  lemma {:induction false} SeenStays(samples: seq<Sample>, i: nat)
    requires i < |samples|
    ensures forall k | k in Seen(samples[..i + 1]) ::
        k in Seen(samples) && Seen(samples)[k] == Seen(samples[..i + 1])[k]
    ensures forall k | 0 <= k < |Sites(samples[i])| ::
        (Sites(samples[i])[k].pid, Sites(samples[i])[k].addr) in Seen(samples[..i + 1])
  {
    var before, n := samples[..|samples| - 1], |samples| - 1;
    NamesStay(Seen(before), Sites(samples[n]));
    if i < n {
      SeenStays(before, i);
      assert before[..i + 1] == samples[..i + 1];
    } else {
      assert samples[..i + 1] == samples;
    }
  }

  /** A frame as a user sees it. */
  datatype Line = Line(addr: nat, name: string)

  /** Resolve a callstack id through the reader's tables; None if any reference is undefined. */
  function Resolve(r: Reader, id: nat): Option<seq<Line>> {
    if id in r.callstacks then ResolveFrames(r, r.callstacks[id]) else None
  }

  function ResolveFrames(r: Reader, ids: seq<nat>): Option<seq<Line>> {
    if ids == [] then Some([])
    else
      var (front, f) := (ResolveFrames(r, ids[..|ids| - 1]), ids[|ids| - 1]);
      if front.Some? && f in r.frames && r.frames[f].functionNameId in r.names && r.frames[f].mappingId in r.mappings
      then Some(front.value + [Line(r.frames[f].relPc, r.names[r.frames[f].functionNameId])])
      else None
  }

  lemma {:induction false} ResolveLines(r: Reader, ids: seq<nat>, lines: seq<Line>)
    requires |ids| == |lines| && FAKE_MAPPING_ID in r.mappings
    requires forall k | 0 <= k < |ids| :: FrameIs(r.names, r.frames, ids[k], lines[k].addr, lines[k].name)
    ensures ResolveFrames(r, ids) == Some(lines)
  {
    if ids != [] {
      var n := |ids| - 1;
      ResolveLines(r, ids[..n], lines[..n]);
      assert lines == lines[..n] + [lines[n]];
    }
  }

  /** The round trip: for every sequence of samples, each callstack id resolves
      at every later time to that sample's frames in order, each with its address
      and the name of the first line ever at that address of its process, unless
      two lists collide. */
  lemma RoundTrip(hash: seq<nat> -> nat, r0: Reader, samples: seq<Sample>, i: nat) returns (lines: seq<Line>)
    requires i < |samples| && NoCollision(hash, Lists(hash, samples))
    ensures Resolve(ReaderOf(hash, r0, samples), Ids(hash, samples)[i]) == Some(lines)
    ensures |lines| == Depth(samples[i])
    ensures forall k: nat | k < |lines| ::
      && lines[k].addr == AddrAt(samples[i], k)
      && NamedAsFirst(samples, PidAt(samples[i], k), AddrAt(samples[i], k), lines[k].name)
  {
    var r, t, sites := ReaderOf(hash, r0, samples), TablesOf(hash, samples), Sites(samples[i]);
    AllKnown(hash, r0, samples);
    RunKeeps(hash, r0, samples);
    FrameIdsStay(hash, samples, i);
    SeenStays(samples, i);
    SitesAt(samples[i]);
    var ids := Lists(hash, samples)[i];
    lines := seq(|sites|, k requires 0 <= k < |sites| =>
      Line(sites[k].addr, Seen(samples)[(sites[k].pid, sites[k].addr)]));
    forall k | 0 <= k < |ids|
      ensures FrameIs(r.names, r.frames, ids[k], lines[k].addr, lines[k].name)
      ensures NamedAsFirst(samples, PidAt(samples[i], k), AddrAt(samples[i], k), lines[k].name)
    {
      assert FrameIs(r.names, r.frames, t.frames[(sites[k].pid, sites[k].addr)], sites[k].addr,
                     Seen(samples)[(sites[k].pid, sites[k].addr)]);
      SeenIsFirst(samples, sites[k].pid, sites[k].addr);
    }
    ResolveLines(r, ids, lines);
  }

  /** Whatever the hash does, no definition ever refers to an undefined frame, name, mapping or build id. */
  lemma {:induction false} ReferencesDefined(hash: seq<nat> -> nat, r0: Reader, samples: seq<Sample>)
    requires samples != []
    ensures var r := ReaderOf(hash, r0, samples);
      && (forall f | f in r.frames :: r.frames[f].functionNameId in r.names && r.frames[f].mappingId in r.mappings)
      && (forall c, k | c in r.callstacks && 0 <= k < |r.callstacks[c]| :: r.callstacks[c][k] in r.frames)
      && (FAKE_MAPPING_ID in r.mappings && r.mappings[FAKE_MAPPING_ID].buildId in r.buildIds)
  {
    RunKeeps(hash, r0, samples);
    StackFramesDefined(hash, r0, samples);
  }

  predicate StackFrames(callstacks: map<nat, seq<nat>>, frames: map<nat, Frame>) {
    forall c, k | c in callstacks && 0 <= k < |callstacks[c]| :: callstacks[c][k] in frames
  }

  lemma IdsDefined(t: Tables, names: map<nat, string>, frames: map<nat, Frame>, seen: map<(int, nat), string>,
                   sites: seq<Site>, ids: seq<nat>)
    requires FramesOk(t, names, frames, seen) && IdsOf(t.frames, sites, ids)
    ensures forall k | 0 <= k < |ids| :: ids[k] in frames
  {
    forall k | 0 <= k < |ids| ensures ids[k] in frames {
      assert (sites[k].pid, sites[k].addr) in t.frames;
    }
  }

  lemma StackFramesGrow(callstacks: map<nat, seq<nat>>, frames: map<nat, Frame>, frames': map<nat, Frame>, id: nat,
                        ids: seq<nat>)
    requires StackFrames(callstacks, frames) && (forall f | f in frames :: f in frames')
    requires forall k | 0 <= k < |ids| :: ids[k] in frames'
    ensures StackFrames(callstacks, frames') && StackFrames(callstacks[id := ids], frames')
  {
  }

  lemma {:induction false} StackFramesDefined(hash: seq<nat> -> nat, r0: Reader, samples: seq<Sample>)
    requires samples != []
    ensures StackFrames(ReaderOf(hash, r0, samples).callstacks, ReaderOf(hash, r0, samples).frames)
  {
    var n := |samples| - 1;
    var before := samples[..n];
    var t, r, r' := TablesOf(hash, before), ReaderOf(hash, r0, before), ReaderOf(hash, r0, samples);
    if before != [] { StackFramesDefined(hash, r0, before); }
    RunKeeps(hash, r0, before);
    RunKeeps(hash, r0, samples);
    FrameIdsStay(hash, samples, n);
    IdsDefined(TablesOf(hash, samples), r'.names, r'.frames, Seen(samples), Sites(samples[n]), Lists(hash, samples)[n]);
    ReceiveShape(hash, t, r, samples[n]);
    FramesGrow(Base(t, r).frames, Drafted(t, samples[n]).frames);
    StackFramesGrow(Base(t, r).callstacks, Base(t, r).frames, r'.frames, StackId(hash, t, samples[n]),
                    Lists(hash, samples)[n]);
  }

  lemma {:induction false} FramesGrow(m: map<nat, Frame>, xs: seq<Frame>)
    ensures forall f | f in m :: f in DefineFrames(m, xs)
  {
    if xs != [] { FramesGrow(m, xs[..|xs| - 1]); }
  }

  /** One frame at this address of a process. */
  function Leaf(addr: nat): Sample { Sample(7, [addr], [None], [], []) }

  lemma LeavesDiffer(hash: seq<nat> -> nat)
    ensures var lists := Lists(hash, [Leaf(10), Leaf(20)]); lists[0] != lists[1]
  {
    ListsAreFaithful(hash, [Leaf(10), Leaf(20)], 0, 1);
    assert !IsAt(Leaf(10), 0, PidAt(Leaf(20), 0), AddrAt(Leaf(20), 0));
  }

  /** The other half: two samples whose lists collide, here under any constant
      hash, leave one of the two ids without its stack. */
  lemma CollisionConfusesStacks(hash: seq<nat> -> nat)
    requires forall a, b :: hash(a) == hash(b)
    ensures var samples := [Leaf(10), Leaf(20)];
      !Known(ReaderOf(hash, NOTHING, samples).callstacks, Lists(hash, samples), Ids(hash, samples))
  {
    LeavesDiffer(hash);
    var lists := Lists(hash, [Leaf(10), Leaf(20)]);
    assert hash(lists[0]) == hash(lists[1]);
    StacksKnownIff(hash, NOTHING, [Leaf(10), Leaf(20)]);
  }
}
