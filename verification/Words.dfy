/** Bytes and machine words: the big-endian wire form of put_u32, put_u64, get_u32 and get_u64, and
    the little-endian loads of a host that reads words with memcpy. */
module Words {

  type byte = bv8

  function Xor(a: bv64, b: bv64): bv64 { a ^ b }
  function Add(a: bv64, b: bv64): bv64 { a + b }

  // The bytes of a stream that arrives in chunks.
  function Flatten(chunks: seq<seq<byte>>): seq<byte> {
    if chunks == [] then [] else Flatten(chunks[..|chunks| - 1]) + chunks[|chunks| - 1]
  }

  lemma Whole(iov: seq<seq<byte>>)
    ensures |iov| == 1 ==> Flatten(iov) == iov[0]
    ensures |iov| == 2 ==> Flatten(iov) == iov[0] + iov[1]
  {
    assert Flatten([]) == [];
    if |iov| == 1 { assert iov[..0] == []; }
    if |iov| == 2 { assert iov[..1] == [iov[0]] && [iov[0]][..0] == []; }
  }

  // ---------- big-endian ----------

  function PutU32(x: bv32): (r: seq<byte>)
    ensures |r| == 4
  {
    [((x >> 24) & 0xff) as bv8, ((x >> 16) & 0xff) as bv8, ((x >> 8) & 0xff) as bv8, (x & 0xff) as bv8]
  }

  function GetU32(s: seq<byte>): bv32
    requires |s| == 4
  {
    ((s[0] as bv32) << 24) | ((s[1] as bv32) << 16) | ((s[2] as bv32) << 8) | (s[3] as bv32)
  }

  // `(uint8_t)x`
  function Low8(x: bv64): byte { (x & 0xff) as bv8 }

  function PutU64(x: bv64): (r: seq<byte>)
    ensures |r| == 8
  {
    [Low8(x >> 56), Low8(x >> 48), Low8(x >> 40), Low8(x >> 32),
     Low8(x >> 24), Low8(x >> 16), Low8(x >> 8), Low8(x)]
  }

  function GetU64(s: seq<byte>): bv64
    requires |s| == 8
  {
    ((s[0] as bv64) << 56) | ((s[1] as bv64) << 48) | ((s[2] as bv64) << 40) | ((s[3] as bv64) << 32) |
    ((s[4] as bv64) << 24) | ((s[5] as bv64) << 16) | ((s[6] as bv64) << 8) | (s[7] as bv64)
  }

  lemma GetPut32(x: bv32)
    ensures GetU32(PutU32(x)) == x
  {
  }

  lemma PutGet32(s: seq<byte>)
    requires |s| == 4
    ensures PutU32(GetU32(s)) == s
  {
  }

  lemma GetPut64(x: bv64)
    ensures GetU64(PutU64(x)) == x
  {
  }

  lemma PutGet64(s: seq<byte>)
    requires |s| == 8
    ensures PutU64(GetU64(s)) == s
  {
  }

  // `get_u64`, byte by byte.
  method ReadU64(data: seq<byte>, off: nat) returns (value: bv64)
    requires off + 8 <= |data|
    ensures value == GetU64(data[off..off + 8])
  {
    hide Shift8, GetU64;
    ghost var s := data[off..off + 8];
    value := 0;
    var i := 0;
    while i < 8
      invariant 0 <= i <= 8
      invariant value == Horner(s, i)
    {
      value := Shift8(value, data[off + i]);
      i := i + 1;
    }
    HornerAll(s);
  }

  // `(value << 8) | b`.
  function Shift8(value: bv64, b: byte): bv64 {
    (value << 8) | (b as bv64)
  }

  // The first i bytes shifted in one after the other.
  function Horner(s: seq<byte>, i: nat): bv64
    requires i <= |s|
  {
    if i == 0 then 0 else Shift8(Horner(s, i - 1), s[i - 1])
  }

  lemma HornerAll(s: seq<byte>)
    requires |s| == 8
    ensures Horner(s, 8) == GetU64(s)
  {
    hide Shift8, GetU64;
    assert Horner(s, 2) == Shift8(Shift8(0, s[0]), s[1]) by { assert Horner(s, 1) == Shift8(0, s[0]); }
    assert Horner(s, 4) == Shift8(Shift8(Horner(s, 2), s[2]), s[3]) by {
      assert Horner(s, 3) == Shift8(Horner(s, 2), s[2]);
    }
    assert Horner(s, 6) == Shift8(Shift8(Horner(s, 4), s[4]), s[5]) by {
      assert Horner(s, 5) == Shift8(Horner(s, 4), s[4]);
    }
    assert Horner(s, 8) == Shift8(Shift8(Horner(s, 6), s[6]), s[7]) by {
      assert Horner(s, 7) == Shift8(Horner(s, 6), s[6]);
    }
    Shifts(s);
  }

  lemma Shifts(s: seq<byte>)
    requires |s| == 8
    ensures Shift8(Shift8(Shift8(Shift8(Shift8(Shift8(Shift8(Shift8(0, s[0]), s[1]), s[2]), s[3]), s[4]), s[5]), s[6]),
                   s[7])
         == GetU64(s)
  {
  }

  // ---------- 32-bit lengths as numbers ----------

  const U32_LIMIT: nat := 0x1_0000_0000

  function OfNat(n: nat): byte
    requires n < 256
  {
    if n == 0 then 0 else OfNat(n - 1) + 1
  }

  function Bit(b: byte, mask: byte, weight: nat): nat {
    if b & mask != 0 then weight else 0
  }

  function ToNat(b: byte): (n: nat)
    ensures n < 256
  {
    Bit(b, 1, 1) + Bit(b, 2, 2) + Bit(b, 4, 4) + Bit(b, 8, 8) +
    Bit(b, 16, 16) + Bit(b, 32, 32) + Bit(b, 64, 64) + Bit(b, 128, 128)
  }

  lemma {:induction false} ToOfNat(n: nat)
    requires n < 256
    ensures ToNat(OfNat(n)) == n
  {
    if n > 0 {
      ToOfNat(n - 1);
      Successor(OfNat(n - 1));
    }
  }

  lemma Successor(b: byte)
    requires b != 255
    ensures ToNat(b + 1) == ToNat(b) + 1
  {
  }

  lemma ToNatInjective(a: byte, b: byte)
    requires ToNat(a) == ToNat(b)
    ensures a == b
  {
  }

  lemma OfToNat(b: byte)
    ensures OfNat(ToNat(b)) == b
  {
    ToOfNat(ToNat(b));
    ToNatInjective(OfNat(ToNat(b)), b);
  }

  // The uint32_t with the given value, and the value of a uint32_t.
  function Bits32(n: nat): bv32
    requires n < U32_LIMIT
  {
    GetU32([OfNat(n / 0x1000000), OfNat(n / 0x10000 % 256), OfNat(n / 0x100 % 256), OfNat(n % 256)])
  }

  function Join(a: nat, b: nat, c: nat, d: nat): nat {
    a * 0x1000000 + b * 0x10000 + c * 0x100 + d
  }

  function Nat32(x: bv32): nat {
    var s := PutU32(x);
    Join(ToNat(s[0]), ToNat(s[1]), ToNat(s[2]), ToNat(s[3]))
  }

  lemma Nat32Bound(x: bv32)
    ensures Nat32(x) < U32_LIMIT
  {
    hide PutU32, ToNat;
  }

  lemma NatBits(n: nat)
    requires n < U32_LIMIT
    ensures Nat32(Bits32(n)) == n
  {
    hide GetU32, PutU32, ToNat, OfNat, Join;
    var s := [OfNat(n / 0x1000000), OfNat(n / 0x10000 % 256), OfNat(n / 0x100 % 256), OfNat(n % 256)];
    PutGet32(s);
    ToOfNat(n / 0x1000000);
    ToOfNat(n / 0x10000 % 256);
    ToOfNat(n / 0x100 % 256);
    ToOfNat(n % 256);
    Rejoin(n);
  }

  lemma Rejoin(n: nat)
    requires n < U32_LIMIT
    ensures Join(n / 0x1000000, n / 0x10000 % 256, n / 0x100 % 256, n % 256) == n
  {
    assert n / 0x10000 == n / 0x100 / 0x100 && n / 0x1000000 == n / 0x10000 / 0x100;
  }

  lemma BitsNat(x: bv32)
    ensures Nat32(x) < U32_LIMIT && Bits32(Nat32(x)) == x
  {
    hide GetU32, PutU32, ToNat, OfNat;
    Nat32Bound(x);
    var s := PutU32(x);
    Digits(ToNat(s[0]), ToNat(s[1]), ToNat(s[2]), ToNat(s[3]));
    OfToNat(s[0]);
    OfToNat(s[1]);
    OfToNat(s[2]);
    OfToNat(s[3]);
    assert [s[0], s[1], s[2], s[3]] == s;
    GetPut32(x);
  }

  lemma Digits(a: nat, b: nat, c: nat, d: nat)
    requires a < 256 && b < 256 && c < 256 && d < 256
    ensures var n := Join(a, b, c, d);
            n / 0x1000000 == a && n / 0x10000 % 256 == b && n / 0x100 % 256 == c && n % 256 == d
  {
    var n := Join(a, b, c, d);
    assert n / 0x100 == a * 0x10000 + b * 0x100 + c;
    assert n / 0x10000 == a * 0x100 + b;
    assert n / 0x1000000 == a;
  }

  // ---------- 64-bit words as numbers ----------

  const U64_LIMIT: nat := 0x1_0000_0000_0000_0000

  function High32(x: bv64): bv32 { ((x >> 32) & 0xffff_ffff) as bv32 }
  function Low32(x: bv64): bv32 { (x & 0xffff_ffff) as bv32 }
  function Pack(high: bv32, low: bv32): bv64 { ((high as bv64) << 32) | (low as bv64) }

  lemma PackSplit(high: bv32, low: bv32)
    ensures High32(Pack(high, low)) == high && Low32(Pack(high, low)) == low
  {
  }

  lemma SplitPack(x: bv64)
    ensures Pack(High32(x), Low32(x)) == x
  {
  }

  function Nat64(x: bv64): nat {
    Nat32(High32(x)) * U32_LIMIT + Nat32(Low32(x))
  }

  function Bits64(n: nat): bv64
    requires n < U64_LIMIT
  {
    Pack(Bits32(n / U32_LIMIT), Bits32(n % U32_LIMIT))
  }

  lemma NatBits64(n: nat)
    requires n < U64_LIMIT
    ensures Nat64(Bits64(n)) == n
  {
    hide High32, Low32, Pack, Nat32, Bits32;
    PackSplit(Bits32(n / U32_LIMIT), Bits32(n % U32_LIMIT));
    NatBits(n / U32_LIMIT);
    NatBits(n % U32_LIMIT);
  }

  lemma BitsNat64(x: bv64)
    ensures Nat64(x) < U64_LIMIT && Bits64(Nat64(x)) == x
  {
    hide High32, Low32, Pack, Nat32, Bits32;
    var h, l := Nat32(High32(x)), Nat32(Low32(x));
    BitsNat(High32(x));
    BitsNat(Low32(x));
    assert (h * U32_LIMIT + l) / U32_LIMIT == h && (h * U32_LIMIT + l) % U32_LIMIT == l;
    SplitPack(x);
  }

  // Multiplication of 64-bit words: modulo 2^64.
  function Times(x: bv64, c: nat): bv64 {
    Bits64(Nat64(x) * c % U64_LIMIT)
  }

  // A factor with an inverse modulo 2^64 loses nothing.
  lemma TimesInjective(x: bv64, y: bv64, c: nat, d: nat, k: nat)
    requires c * d == k * U64_LIMIT + 1 && Times(x, c) == Times(y, c)
    ensures x == y
  {
    hide Nat64, Bits64;
    BitsNat64(x);
    BitsNat64(y);
    NatBits64(Nat64(x) * c % U64_LIMIT);
    NatBits64(Nat64(y) * c % U64_LIMIT);
    Inverse(Nat64(x), c, d, k);
    Inverse(Nat64(y), c, d, k);
  }

  lemma Inverse(n: nat, c: nat, d: nat, k: nat)
    requires n < U64_LIMIT && c * d == k * U64_LIMIT + 1
    ensures (n * c % U64_LIMIT) * d % U64_LIMIT == n
  {
    var r, q := n * c % U64_LIMIT, n * c / U64_LIMIT;
    var z := n * k - q * d;
    assert r * d == n + z * U64_LIMIT by {
      assert r == n * c - q * U64_LIMIT;
      assert r * d == (n * c) * d - (q * U64_LIMIT) * d;
      assert (n * c) * d == n * (k * U64_LIMIT + 1);
    }
    Residue(n, z);
  }

  lemma Residue(n: nat, z: int)
    requires n < U64_LIMIT
    ensures (n + z * U64_LIMIT) % U64_LIMIT == n
  {
  }

  // ---------- little-endian loads ----------

  // `get_u64_native` and `sip_load64`: up to eight bytes copied into a zeroed word.
  function LoadLE(s: seq<byte>): bv64 {
    if s == [] then 0 else Cons8(s[0], LoadLE(s[1..]))
  }

  function Cons8(b: byte, x: bv64): bv64 {
    (b as bv64) | (x << 8)
  }

  // `(uint64_t)b << (k * 8)`.
  function ByteAt(b: byte, k: nat): bv64
    requires k < 8
  {
    var w := b as bv64;
    if k == 0 then w else if k == 1 then w << 8 else if k == 2 then w << 16 else if k == 3 then w << 24
    else if k == 4 then w << 32 else if k == 5 then w << 40 else if k == 6 then w << 48 else w << 56
  }

  // `w |= (uint64_t)b << (k * 8)`.
  function PutByte(w: bv64, b: byte, k: nat): bv64
    requires k < 8
  {
    Or(w, ByteAt(b, k))
  }

  function Or(x: bv64, y: bv64): bv64 {
    x | y
  }

  function Up8(x: bv64): bv64 {
    x << 8
  }

  // OR-ing one more byte into a partial word.
  lemma {:induction false} LoadSnoc(s: seq<byte>, b: byte)
    requires |s| < 8
    ensures LoadLE(s + [b]) == PutByte(LoadLE(s), b, |s|)
  {
    hide Cons8, PutByte;
    if s == [] {
      assert s + [b] == [b];
      assert [b][1..] == [];
      PutFirst(b);
    } else {
      LoadSnoc(s[1..], b);
      assert (s + [b])[1..] == s[1..] + [b];
      PutNext(s[0], LoadLE(s[1..]), b, |s| - 1);
    }
  }

  lemma PutFirst(b: byte)
    ensures Cons8(b, 0) == PutByte(0, b, 0)
  {
  }

  lemma PutNext(a: byte, x: bv64, b: byte, k: nat)
    requires k < 7
    ensures Cons8(a, PutByte(x, b, k)) == PutByte(Cons8(a, x), b, k + 1)
  {
    hide ByteAt, Cons8, Or, Up8;
    ByteAtNext(b, k);
    OrUp(a, x, ByteAt(b, k));
  }

  lemma ByteAtNext(b: byte, k: nat)
    requires k < 7
    ensures Up8(ByteAt(b, k)) == ByteAt(b, k + 1)
  {
    var w := b as bv64;
    assert (w << 8) << 8 == w << 16 && (w << 16) << 8 == w << 24 && (w << 24) << 8 == w << 32;
    assert (w << 32) << 8 == w << 40 && (w << 40) << 8 == w << 48 && (w << 48) << 8 == w << 56;
  }

  lemma OrUp(a: byte, x: bv64, y: bv64)
    ensures Cons8(a, Or(x, y)) == Or(Cons8(a, x), Up8(y))
  {
  }

  // A load loses nothing: up to eight bytes can be read back from the word.
  lemma {:induction false} LoadInjective(s: seq<byte>, t: seq<byte>)
    requires |s| == |t| <= 8 && LoadLE(s) == LoadLE(t)
    ensures s == t
  {
    hide LoadLE;
    if s != [] {
      FirstByte(s, t);
      LoadInjective(s[1..], t[1..]);
      assert s == [s[0]] + s[1..] && t == [t[0]] + t[1..];
    }
  }

  lemma FirstByte(s: seq<byte>, t: seq<byte>)
    requires 0 < |s| == |t| <= 8 && LoadLE(s) == LoadLE(t)
    ensures s[0] == t[0] && LoadLE(s[1..]) == LoadLE(t[1..])
  {
    hide High, Cons8, LoadLE;
    LoadCons(s);
    LoadCons(t);
    LoadTop(s[1..]);
    LoadTop(t[1..]);
    Split(s[0], LoadLE(s[1..]), t[0], LoadLE(t[1..]));
  }

  lemma LoadCons(s: seq<byte>)
    requires s != []
    ensures LoadLE(s) == Cons8(s[0], LoadLE(s[1..]))
  {
    hide Cons8;
  }

  lemma LoadTop(s: seq<byte>)
    requires |s| <= 7
    ensures LoadLE(s) & High(7) == 0
  {
    LoadBound(s);
    hide LoadLE;
  }

  // k bytes fill at most k * 8 bits.
  lemma {:induction false} LoadBound(s: seq<byte>)
    requires |s| <= 7
    ensures LoadLE(s) & High(|s|) == 0
  {
    if s != [] {
      LoadBound(s[1..]);
      HighShift(s[0], LoadLE(s[1..]), |s|);
    }
  }

  // The bits above the first k bytes.
  function High(k: nat): bv64
    requires k <= 7
  {
    if k == 0 then 0xffff_ffff_ffff_ffff else if k == 1 then 0xffff_ffff_ffff_ff00
    else if k == 2 then 0xffff_ffff_ffff_0000 else if k == 3 then 0xffff_ffff_ff00_0000
    else if k == 4 then 0xffff_ffff_0000_0000 else if k == 5 then 0xffff_ff00_0000_0000
    else if k == 6 then 0xffff_0000_0000_0000 else 0xff00_0000_0000_0000
  }

  lemma HighShift(a: byte, x: bv64, k: nat)
    requires 0 < k <= 7 && x & High(k - 1) == 0
    ensures Cons8(a, x) & High(k) == 0
    ensures x & High(7) == 0
  {
  }

  lemma Split(a: byte, x: bv64, b: byte, y: bv64)
    requires Cons8(a, x) == Cons8(b, y)
    requires x & High(7) == 0 && y & High(7) == 0
    ensures a == b && x == y
  {
  }

  // ---------- what a load is ----------

  lemma LoadNone()
    ensures LoadLE([]) == 0
  {
  }

  // Four loads at the front.
  lemma LoadFour(s: seq<byte>)
    requires |s| >= 4
    ensures LoadLE(s) == Cons8(s[0], Cons8(s[1], Cons8(s[2], Cons8(s[3], LoadLE(s[4..])))))
  {
    hide Cons8, LoadLE;
    LoadCons(s);
    LoadCons(s[1..]);
    LoadCons(s[2..]);
    LoadCons(s[3..]);
    assert s[1..][1..] == s[2..] && s[2..][1..] == s[3..] && s[3..][1..] == s[4..];
  }

  lemma Conses(s: seq<byte>)
    requires |s| == 8
    ensures Cons8(s[0], Cons8(s[1], Cons8(s[2], Cons8(s[3], Cons8(s[4], Cons8(s[5], Cons8(s[6], Cons8(s[7], 0))))))))
         == GetU64([s[7], s[6], s[5], s[4], s[3], s[2], s[1], s[0]])
  {
  }

  // A little-endian load is the big-endian one of the bytes in reverse.
  lemma LoadReversed(s: seq<byte>)
    requires |s| == 8
    ensures LoadLE(s) == GetU64([s[7], s[6], s[5], s[4], s[3], s[2], s[1], s[0]])
  {
    hide Cons8, LoadLE, GetU64;
    LoadFour(s);
    LoadFour(s[4..]);
    assert s[4..][4..] == [];
    LoadNone();
    Conses(s);
  }

  lemma PutZero(w: bv64, k: nat)
    requires k < 8
    ensures PutByte(w, 0, k) == w
  {
  }

  // Zero bytes behind it do not change a load.
  lemma {:induction false} LoadPadded(s: seq<byte>, n: nat)
    requires |s| + n <= 8
    ensures LoadLE(s + seq(n, _ => 0)) == LoadLE(s)
  {
    hide LoadLE, PutByte;
    if n == 0 {
      assert s + seq(n, _ => 0) == s;
    } else {
      LoadPadded(s, n - 1);
      assert s + seq(n, _ => 0) == s + seq(n - 1, _ => 0) + [0];
      LoadSnoc(s + seq(n - 1, _ => 0), 0);
      PutZero(LoadLE(s), |s| + n - 1);
    }
  }
}
