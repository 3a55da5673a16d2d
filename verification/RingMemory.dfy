/** The shared mapping of the ring buffer (mpscbuf/src/memory.rs) and the
    record header stored in it (mpscbuf/src/common.rs). */
module RingMemory {
  import opened Words

  // ---------------------------------------------------------------- layout

  /** A successfully built mapping: one metadata page followed by `dataSize`
      bytes, those bytes being mapped a second time right behind themselves. */
  datatype Layout = Layout(pageSize: nat, dataSize: nat)

  datatype LayoutError = SizeNotAligned(size: nat) | SizeTooSmall(minimum: nat)

  datatype LayoutResult = Mapped(layout: Layout) | Refused(error: LayoutError)

  /** The size checks of `Memory::from_fd`; the mapping calls are taken to succeed. */
  function Map(pageSize: nat, dataSize: nat): (r: LayoutResult)
    ensures r.Mapped? <==> IsPowerOfTwo(dataSize) && dataSize >= pageSize
  {
    if !IsPowerOfTwo(dataSize) then Refused(SizeNotAligned(dataSize))
    else if dataSize < pageSize then Refused(SizeTooSmall(pageSize))
    else Mapped(Layout(pageSize, dataSize))
  }

  /** A layout `Map` can return on a machine whose page size is a power of two of
      at least 4096, its mappings inside the 64-bit address space. */
  predicate ValidLayout(l: Layout) {
    && IsPowerOfTwo(l.pageSize) && l.pageSize >= 4096 && Map(l.pageSize, l.dataSize) == Mapped(l)
    && l.pageSize + 2 * l.dataSize < U64
  }

  /** The three mappings `from_fd` sets up, as a translation from an offset in
      the virtual range to an offset in the file. */
  function FileOffset(l: Layout, v: nat): nat
    requires v < l.pageSize + 2 * l.dataSize
  {
    var totalSize := l.pageSize + l.dataSize;
    if v < totalSize then v else l.pageSize + (v - totalSize)
  }

  /** Seen from the data pointer, the two copies form one circular array. */
  lemma DoubleMappingIsCircular(l: Layout, o: nat)
    requires ValidLayout(l) && o < 2 * l.dataSize
    ensures FileOffset(l, l.pageSize + o) == l.pageSize + o % l.dataSize
  {
    if o < l.dataSize {
      ModuloUnique(o, l.dataSize, 0, o);
    } else {
      ModuloUnique(o, l.dataSize, 1, o - l.dataSize);
    }
  }

  /** The offset of a stream position in the first copy: `pos & size_mask`. */
  function Offset(l: Layout, pos: nat): nat
    requires l.dataSize > 0
  {
    BitAnd(pos, l.dataSize - 1)
  }

  lemma LayoutFacts(l: Layout)
    requires ValidLayout(l)
    ensures l.dataSize >= 4096 && l.dataSize % 8 == 0 && l.dataSize % 16 == 0
  {
    PowerOfTwoDivisible(l.dataSize);
  }

  lemma OffsetIsModulo(l: Layout, pos: nat)
    requires ValidLayout(l)
    ensures Offset(l, pos) == pos % l.dataSize
  {
    MaskIsModulo(pos, l.dataSize);
  }

  lemma OffsetFacts(l: Layout, pos: nat)
    requires ValidLayout(l)
    ensures Offset(l, pos) == pos % l.dataSize
    ensures pos % 8 == 0 ==> Offset(l, pos) % 8 == 0 && Offset(l, pos) + 8 <= l.dataSize
  {
    LayoutFacts(l);
    OffsetIsModulo(l, pos);
    if pos % 8 == 0 { SlotAligned(pos, l.dataSize); }
  }

  // ------------------------------------------------------- loads and stores

  /** Byte `o` of the linear view that starts at the data pointer. */
  function LoadByte(mem: seq<byte>, o: nat): byte {
    if mem == [] then 0 else mem[o % |mem|]
  }

  function LoadBytes(mem: seq<byte>, o: nat, n: nat): (bs: seq<byte>)
    ensures |bs| == n
  {
    seq<byte>(n, k requires 0 <= k < n => LoadByte(mem, o + k))
  }

  function LoadWord(mem: seq<byte>, o: nat): nat {
    Decode(LoadBytes(mem, o, 8))
  }

  function StoreByte(mem: seq<byte>, o: nat, b: byte): (mem': seq<byte>)
    ensures |mem'| == |mem|
  {
    if mem == [] then mem else mem[o % |mem| := b]
  }

  /** An aligned 64-bit store inside the first copy. */
  function StoreWord(mem: seq<byte>, o: nat, w: nat): (mem': seq<byte>)
    ensures |mem'| == |mem|
  {
    seq(|mem|, i requires 0 <= i < |mem| => if o <= i < o + 8 then Encode(w, 8)[i - o] else mem[i])
  }

  // ----------------------------------------------------------- the stream

  /** The byte the ring holds for stream position `x`. */
  function At(mem: seq<byte>, x: nat): byte
    requires mem != []
  {
    mem[x % |mem|]
  }

  /** Linear access at the masked offset and circular access by position agree. */
  lemma LinearIsCircular(l: Layout, mem: seq<byte>, pos: nat, k: nat)
    requires ValidLayout(l) && |mem| == l.dataSize
    ensures LoadByte(mem, Offset(l, pos) + k) == At(mem, pos + k)
  {
    LayoutFacts(l);
    OffsetFacts(l, pos);
    SlotShift(pos, k, l.dataSize);
  }

  predicate WordAt(mem: seq<byte>, pos: nat, w: nat)
    requires mem != []
  {
    forall j {:trigger Encode(w, 8)[j]} | 0 <= j < 8 :: At(mem, pos + j) == Encode(w, 8)[j]
  }

  lemma LoadWordAt(l: Layout, mem: seq<byte>, pos: nat, w: nat)
    requires ValidLayout(l) && |mem| == l.dataSize && w < U64
    requires mem != [] && WordAt(mem, pos, w)
    ensures LoadWord(mem, Offset(l, pos)) == w
  {
    var got := LoadBytes(mem, Offset(l, pos), 8);
    forall j | 0 <= j < 8 ensures got[j] == Encode(w, 8)[j] {
      LinearIsCircular(l, mem, pos, j);
    }
    assert got == Encode(w, 8);
    WordRoundTrip(w);
  }

  /** Nothing in the window of positions `[lo, lo + |mem|)` changed outside `[from, to)`. */
  ghost predicate OnlyChanged(mem: seq<byte>, mem': seq<byte>, lo: nat, from: nat, to: nat) {
    && mem != [] && |mem'| == |mem|
    && forall x: nat {:trigger At(mem', x)} | lo <= x < lo + |mem| && !(from <= x < to) :: At(mem', x) == At(mem, x)
  }

  lemma HeaderSlot(l: Layout, pos: nat, j: nat)
    requires ValidLayout(l) && pos % 8 == 0 && j < 8
    ensures (pos + j) % l.dataSize == Offset(l, pos) + j
  {
    LayoutFacts(l);
    OffsetFacts(l, pos);
    SlotShift(pos, j, l.dataSize);
    ModuloUnique(Offset(l, pos) + j, l.dataSize, 0, Offset(l, pos) + j);
  }

  lemma StoreWordKeeps(l: Layout, mem: seq<byte>, pos: nat, w: nat, lo: nat, x: nat)
    requires ValidLayout(l) && |mem| == l.dataSize && pos % 8 == 0
    requires lo <= pos && pos + 8 <= lo + l.dataSize
    requires lo <= x < lo + l.dataSize && !(pos <= x < pos + 8) && mem != []
    ensures At(StoreWord(mem, Offset(l, pos), w), x) == At(mem, x)
  {
    var o, s := Offset(l, pos), x % l.dataSize;
    if o <= s < o + 8 {
      HeaderSlot(l, pos, s - o);
      SlotsDistinct(x, pos + (s - o), l.dataSize);
      assert false;
    }
  }

  lemma StoreWordEffect(l: Layout, mem: seq<byte>, pos: nat, w: nat, lo: nat)
    requires ValidLayout(l) && |mem| == l.dataSize && pos % 8 == 0
    requires lo <= pos && pos + 8 <= lo + l.dataSize
    ensures var mem' := StoreWord(mem, Offset(l, pos), w);
      OnlyChanged(mem, mem', lo, pos, pos + 8) && WordAt(mem', pos, w)
  {
    LayoutFacts(l);
    var mem' := StoreWord(mem, Offset(l, pos), w);
    forall j | 0 <= j < 8 ensures At(mem', pos + j) == Encode(w, 8)[j] {
      HeaderSlot(l, pos, j);
    }
    forall x: nat | lo <= x < lo + |mem| && !(pos <= x < pos + 8) ensures At(mem', x) == At(mem, x) {
      StoreWordKeeps(l, mem, pos, w, lo, x);
    }
  }

  lemma StoreByteEffect(l: Layout, mem: seq<byte>, pos: nat, k: nat, b: byte, lo: nat)
    requires ValidLayout(l) && |mem| == l.dataSize
    requires lo <= pos + k < lo + l.dataSize
    ensures var mem' := StoreByte(mem, Offset(l, pos) + k, b);
      OnlyChanged(mem, mem', lo, pos + k, pos + k + 1) && At(mem', pos + k) == b
  {
    LayoutFacts(l);
    OffsetFacts(l, pos);
    SlotShift(pos, k, l.dataSize);
    var mem' := StoreByte(mem, Offset(l, pos) + k, b);
    forall x: nat | lo <= x < lo + |mem| && x != pos + k ensures At(mem', x) == At(mem, x) {
      if x % |mem| == (pos + k) % |mem| {
        SlotsDistinct(x, pos + k, |mem|);
        assert false;
      }
    }
  }

  lemma LoadIsSlice(mem: seq<byte>, o: nat)
    requires o + 8 <= |mem|
    ensures LoadBytes(mem, o, 8) == mem[o..o + 8]
  {
    var loaded, slice := LoadBytes(mem, o, 8), mem[o..o + 8];
    forall k | 0 <= k < 8 ensures loaded[k] == slice[k] { InFirstCopy(mem, o + k); }
  }

  lemma StoreIsSlice(mem: seq<byte>, o: nat, w: nat)
    requires o + 8 <= |mem|
    ensures StoreWord(mem, o, w) == mem <==> Encode(w, 8) == mem[o..o + 8]
  {
    var mem' := StoreWord(mem, o, w);
    assert mem'[o..o + 8] == Encode(w, 8);
    if Encode(w, 8) == mem[o..o + 8] {
      forall i | 0 <= i < |mem| ensures mem'[i] == mem[i] {
        if o <= i < o + 8 { assert mem[i] == mem[o..o + 8][i - o]; }
      }
    }
  }

  /** A store changes the memory exactly if it stores something new. */
  lemma StoreWordSameIff(mem: seq<byte>, o: nat, w: nat)
    requires o + 8 <= |mem| && w < U64
    ensures StoreWord(mem, o, w) == mem <==> w == LoadWord(mem, o)
  {
    LoadIsSlice(mem, o);
    StoreIsSlice(mem, o, w);
    EncodeDecode(mem[o..o + 8]);
    WordRoundTrip(w);
  }

  lemma InFirstCopy(mem: seq<byte>, o: nat)
    requires o < |mem|
    ensures LoadByte(mem, o) == mem[o]
  {
    ModuloUnique(o, |mem|, 0, o);
  }

  // -------------------------------------------------------- record headers

  const BUSY_FLAG: nat := 0x8000_0000
  const DISCARD_FLAG: nat := 0x4000_0000
  const HEADER_SIZE: nat := 8

  /** `RecordHeader::new(size as u32)`: the length keeps only its low 32 bits. */
  function BusyHeader(size: nat): nat { size % U32 + BUSY_FLAG * U32 }

  /** What `discard` stores over the word `w`. */
  function DiscardHeader(w: nat): nat { w % U32 + DISCARD_FLAG * U32 }

  /** What `commit` stores over the word `w`. */
  function CommitHeader(w: nat): nat { w % U32 }

  function HeaderLen(w: nat): nat { w % U32 }

  predicate IsBusy(w: nat) { (w / U32) / BUSY_FLAG % 2 == 1 }

  predicate IsDiscarded(w: nat) { (w / U32) / DISCARD_FLAG % 2 == 1 }

  function RoundUpTo8(n: nat): (r: nat)
    ensures r % 8 == 0 && n <= r < n + 8
  {
    (n + 7) / 8 * 8
  }

  /** Bytes of the ring a record with a `size`-byte payload takes. */
  function TotalSize(size: nat): (t: nat)
    ensures t % 8 == 0 && HEADER_SIZE + size <= t < HEADER_SIZE + size + 8
  {
    RoundUpTo8(size + HEADER_SIZE)
  }

  /** The same as the producer computes it, in 64 bits that wrap. */
  function Total64(size: nat): nat { RoundUpTo8((size + HEADER_SIZE) % U64) % U64 }

  /** Where the producer position would move, computed likewise. */
  function NextPos(size: nat, pos: nat): nat { (pos + Total64(size)) % U64 }

  /** What the space check compares with the mask: an unsigned subtraction of the consumer position seen. */
  function Outstanding(size: nat, seen: nat, pos: nat): nat { (NextPos(size, pos) - seen) % U64 }

  lemma ModuloSum(x: int, y: int)
    ensures (x + y % U64) % U64 == (x + y) % U64
  {
  }

  lemma TotalWraps(size: nat)
    ensures Total64(size) == TotalSize(size) % U64
  {
    var k, r := (size + HEADER_SIZE) / U64, (size + HEADER_SIZE) % U64;
    assert size + HEADER_SIZE == k * U64 + r;
    assert TotalSize(size) == k * U64 + RoundUpTo8(r);
  }

  /** All wrapping amounts to one: what is compared is the true amount reduced modulo 2^64. */
  lemma OutstandingWraps(size: nat, seen: nat, pos: nat)
    ensures NextPos(size, pos) == (pos + TotalSize(size)) % U64
    ensures Outstanding(size, seen, pos) == (pos + TotalSize(size) - seen) % U64
  {
    TotalWraps(size);
    ModuloSum(pos, TotalSize(size));
    ModuloSum(0 - seen as int, pos + TotalSize(size));
  }

  lemma SumFits64(size: nat, seen: nat, pos: nat)
    requires seen <= pos && pos + TotalSize(size) < U64
    ensures NextPos(size, pos) == pos + TotalSize(size)
    ensures Outstanding(size, seen, pos) == pos + TotalSize(size) - seen
  {
    OutstandingWraps(size, seen, pos);
  }

  /** Each header state is recognised for what it is and all of them carry the length. */
  lemma HeaderStates(size: nat)
    requires size < U32
    ensures var b := BusyHeader(size); b < U64 && HeaderLen(b) == size && IsBusy(b) && !IsDiscarded(b)
    ensures var d := DiscardHeader(BusyHeader(size)); d < U64 && HeaderLen(d) == size && !IsBusy(d) && IsDiscarded(d)
    ensures var c := CommitHeader(BusyHeader(size)); c < U64 && HeaderLen(c) == size && !IsBusy(c) && !IsDiscarded(c)
  {
  }
}
