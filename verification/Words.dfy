/** Byte-level representation of the 64-bit words the ring buffer shares
    between processes: little-endian encoding and the masking arithmetic. */
module Words {

  type byte = b: nat | b < 0x100

  const U32: nat := 0x1_0000_0000
  const U64: nat := 0x1_0000_0000_0000_0000

  type u64 = n: nat | n < U64

  function Pow(b: nat, n: nat): nat {
    if n == 0 then 1 else b * Pow(b, n - 1)
  }

  /** The `n` low bytes of `w`, least significant first. */
  function Encode(w: nat, n: nat): (bs: seq<byte>)
    ensures |bs| == n
  {
    if n == 0 then [] else [w % 0x100] + Encode(w / 0x100, n - 1)
  }

  function Decode(bs: seq<byte>): nat {
    if bs == [] then 0 else bs[0] + 0x100 * Decode(bs[1..])
  }

  lemma {:induction false} DecodeEncode(w: nat, n: nat)
    requires w < Pow(0x100, n)
    ensures Decode(Encode(w, n)) == w
  {
    if n > 0 {
      assert w / 0x100 < Pow(0x100, n - 1);
      DecodeEncode(w / 0x100, n - 1);
      assert Encode(w, n)[1..] == Encode(w / 0x100, n - 1);
    }
  }

  lemma PowEight()
    ensures Pow(0x100, 8) == U64
  {
    assert Pow(0x100, 4) == 0x1_0000_0000;
    assert Pow(0x100, 6) == 0x1_0000_0000_0000;
  }

  lemma WordRoundTrip(w: nat)
    requires w < U64
    ensures Decode(Encode(w, 8)) == w
  {
    PowEight();
    DecodeEncode(w, 8);
  }

  predicate IsPowerOfTwo(n: nat) {
    n == 1 || (n > 1 && n % 2 == 0 && IsPowerOfTwo(n / 2))
  }

  /** Bitwise conjunction of two unsigned integers. */
  function BitAnd(a: nat, b: nat): nat {
    if a == 0 || b == 0 then 0
    else (if a % 2 == 1 && b % 2 == 1 then 1 else 0) + 2 * BitAnd(a / 2, b / 2)
  }

  /** Masking with `n - 1` is reduction modulo `n` exactly because `n` is a power of two. */
  lemma {:induction false} MaskIsModulo(a: nat, n: nat)
    requires IsPowerOfTwo(n)
    ensures BitAnd(a, n - 1) == a % n
  {
    if n > 1 {
      var m := Half(n);
      MaskIsModulo(a / 2, m);
      MaskDouble(a, m);
    }
  }

  /** Half of a larger power of two is a power of two. */
  lemma Half(n: nat) returns (m: nat)
    requires IsPowerOfTwo(n) && n > 1
    ensures 0 < m < n && n == 2 * m && IsPowerOfTwo(m)
  {
    m := n / 2;
  }

  lemma MaskDouble(a: nat, m: nat)
    requires m > 0 && BitAnd(a / 2, m - 1) == (a / 2) % m
    ensures BitAnd(a, 2 * m - 1) == a % (2 * m)
  {
    HalveModulo(a, m);
    if a > 0 { MaskStep(a, m); }
  }

  /** The mask of `2 * m` is the mask of `m` with a low bit added. */
  lemma MaskStep(a: nat, m: nat)
    requires m > 0 && a > 0
    ensures BitAnd(a, 2 * m - 1) == a % 2 + 2 * BitAnd(a / 2, m - 1)
  {
    assert (2 * m - 1) / 2 == m - 1 && (2 * m - 1) % 2 == 1;
  }

  lemma HalveModulo(a: nat, m: nat)
    requires m > 0
    ensures a % (2 * m) == a % 2 + 2 * ((a / 2) % m)
  {
    var q, r := (a / 2) / m, (a / 2) % m;
    assert a / 2 == m * q + r;
    assert a == (2 * m) * q + (2 * r + a % 2);
    ModuloUnique(a, 2 * m, q, 2 * r + a % 2);
  }

  lemma ModuloUnique(a: nat, n: nat, q: nat, r: nat)
    requires r < n && a == n * q + r
    ensures a % n == r && a / n == q
  {
    assert n * (a / n - q) == r - a % n;
    NoSmallMultiple(n, a / n - q);
  }

  lemma NoSmallMultiple(n: int, d: int)
    requires n > 0 && -n < n * d < n
    ensures d == 0
  {
    MultiplesAreLarge(n, d);
  }

  lemma MultiplesAreLarge(n: int, d: int)
    requires n > 0
    ensures d >= 1 ==> n * d >= n
    ensures d <= -1 ==> n * d <= -n
  {
    if d >= 1 {
      assert n * d == n + n * (d - 1);
    } else if d <= -1 {
      assert n * d == n * (d + 1) - n;
    }
  }

  /** Two positions less than `n` apart share a slot of an `n`-byte ring only if they are equal. */
  lemma SlotsDistinct(x: nat, y: nat, n: nat)
    requires n > 0 && x % n == y % n
    requires x < y + n && y < x + n
    ensures x == y
  {
    assert x - y == n * (x / n - y / n);
    NoSmallMultiple(n, x / n - y / n);
  }

  lemma SlotShift(x: nat, k: nat, n: nat)
    requires n > 0
    ensures (x % n + k) % n == (x + k) % n
  {
    var q := x / n;
    var q' := (x % n + k) / n;
    assert x == n * q + x % n;
    assert x % n + k == n * q' + (x % n + k) % n;
    assert x + k == n * (q + q') + (x % n + k) % n;
    ModuloUnique(x + k, n, q + q', (x % n + k) % n);
  }

  lemma {:induction false} PowerOfTwoDivisible(n: nat)
    requires IsPowerOfTwo(n) && n >= 16
    ensures n % 8 == 0 && n % 16 == 0
  {
    var a := Half(n);
    var b := Half(a);
    var d := Half(b);
    var e := Half(d);
    assert n == 16 * e;
  }

  /** Eight bytes are the encoding of the word they decode to. */
  lemma {:induction false} EncodeDecode(bs: seq<byte>)
    ensures Decode(bs) < Pow(0x100, |bs|) && Encode(Decode(bs), |bs|) == bs
  {
    if bs != [] {
      EncodeDecode(bs[1..]);
      var w := Decode(bs);
      assert w % 0x100 == bs[0] && w / 0x100 == Decode(bs[1..]);
      assert bs == [bs[0]] + bs[1..];
    }
  }

  /** Reduction modulo a multiple of 8 keeps a position's alignment, and leaves room for a header. */
  lemma SlotAligned(x: nat, n: nat)
    requires n > 0 && n % 8 == 0 && x % 8 == 0
    ensures (x % n) % 8 == 0 && x % n + 8 <= n
  {
    var q, r, m := x / n, x % n, n / 8;
    assert x == n * q + r;
    assert n == 8 * m;
    assert n * q == 8 * (m * q);
    assert r == 8 * (x / 8 - m * q);
    RoomForEight(r, n);
  }

  lemma RoomForEight(r: nat, n: nat)
    requires r % 8 == 0 && n % 8 == 0 && r < n
    ensures r + 8 <= n
  {
  }
}
