/** The word-wise checksum of src/protocol.c, and what its 64-bit state distinguishes. */
module Checksum {
  import opened Words
  import opened Headers

  // ---------- mixing ----------

  function Rotl17(x: bv64): bv64 { (x << 17) | (x >> 47) }
  function Rotl27(x: bv64): bv64 { (x << 27) | (x >> 37) }
  function Rotl41(x: bv64): bv64 { (x << 41) | (x >> 23) }

  // `x >> k` for the shifts of mix64 and their doubles.
  function Shr(x: bv64, k: nat): bv64 {
    if k == 27 then x >> 27 else if k == 30 then x >> 30 else if k == 31 then x >> 31
    else if k == 54 then x >> 54 else if k == 60 then x >> 60 else x >> 62
  }

  function Xs(x: bv64, k: nat): bv64 { Xor(x, Shr(x, k)) }

  const A: nat := 0xbf58476d1ce4e5b9
  const B: nat := 0x94d049bb133111eb
  const C: nat := 0x3c79ac492ba7b653

  function Mix64(x: bv64): bv64 {
    Xs(Times(Xs(Times(Xs(x, 30), A), 27), B), 31)
  }

  // Each ingredient loses nothing.

  lemma XorSelf(a: bv64, b: bv64)
    ensures Xor(Xor(a, b), b) == a
  {
  }

  lemma XorCommutes(a: bv64, b: bv64)
    ensures Xor(a, b) == Xor(b, a)
  {
  }

  lemma XorZero(a: bv64)
    ensures Xor(a, 0) == a
  {
  }

  lemma XorCancel(h: bv64, w: bv64, h': bv64, w': bv64)
    requires Xor(h, w) == Xor(h', w') && (h == h' || w == w')
    ensures h == h' && w == w'
  {
    hide Xor;
    XorSelf(h, w);
    XorSelf(h', w');
    XorSelf(w, h);
    XorSelf(w', h');
    XorCommutes(h, w);
    XorCommutes(h', w');
  }

  lemma ShrXor27(a: bv64, b: bv64)
    ensures Shr(Xor(a, b), 27) == Xor(Shr(a, 27), Shr(b, 27))
  {
  }

  lemma ShrXor30(a: bv64, b: bv64)
    ensures Shr(Xor(a, b), 30) == Xor(Shr(a, 30), Shr(b, 30))
  {
  }

  lemma ShrXor31(a: bv64, b: bv64)
    ensures Shr(Xor(a, b), 31) == Xor(Shr(a, 31), Shr(b, 31))
  {
  }

  lemma ShrXor54(a: bv64, b: bv64)
    ensures Shr(Xor(a, b), 54) == Xor(Shr(a, 54), Shr(b, 54))
  {
  }

  lemma ShrXor60(a: bv64, b: bv64)
    ensures Shr(Xor(a, b), 60) == Xor(Shr(a, 60), Shr(b, 60))
  {
  }

  lemma ShrXor62(a: bv64, b: bv64)
    ensures Shr(Xor(a, b), 62) == Xor(Shr(a, 62), Shr(b, 62))
  {
  }

  lemma ShrXor(a: bv64, b: bv64, k: nat)
    requires k in {27, 30, 31, 54, 60, 62}
    ensures Shr(Xor(a, b), k) == Xor(Shr(a, k), Shr(b, k))
  {
    hide Xor, Shr;
    ShrXor27(a, b);
    ShrXor30(a, b);
    ShrXor31(a, b);
    ShrXor54(a, b);
    ShrXor60(a, b);
    ShrXor62(a, b);
  }

  lemma ShrTwice(x: bv64, k: nat)
    requires k in {27, 30, 31}
    ensures Shr(Shr(x, k), k) == Shr(x, 2 * k) && Shr(Shr(x, k), 2 * k) == 0
  {
    assert (x >> 27) >> 27 == x >> 54 && (x >> 30) >> 30 == x >> 60 && (x >> 31) >> 31 == x >> 62;
  }

  // An xorshift keeps the top bits, which give the middle ones, which give the rest.
  lemma XsInjective(x: bv64, y: bv64, k: nat)
    requires k in {27, 30, 31} && Xs(x, k) == Xs(y, k)
    ensures x == y
  {
    hide Xor, Shr;
    ShrXor(x, Shr(x, k), 2 * k);
    ShrXor(y, Shr(y, k), 2 * k);
    ShrXor(x, Shr(x, k), k);
    ShrXor(y, Shr(y, k), k);
    ShrTwice(x, k);
    ShrTwice(y, k);
    XorZero(Shr(x, 2 * k));
    XorZero(Shr(y, 2 * k));
    XorCancel(Shr(x, k), Shr(x, 2 * k), Shr(y, k), Shr(y, 2 * k));
    XorCancel(x, Shr(x, k), y, Shr(y, k));
  }

  lemma Rotl17Injective(x: bv64, y: bv64)
    requires Rotl17(x) == Rotl17(y)
    ensures x == y
  {
  }

  lemma Rotl27Injective(x: bv64, y: bv64)
    requires Rotl27(x) == Rotl27(y)
    ensures x == y
  {
  }

  lemma Rotl41Injective(x: bv64, y: bv64)
    requires Rotl41(x) == Rotl41(y)
    ensures x == y
  {
  }

  // The multipliers are odd and so have inverses modulo 2^64.
  lemma Mix64Injective(x: bv64, y: bv64)
    requires Mix64(x) == Mix64(y)
    ensures x == y
  {
    hide Xs, Times;
    XsInjective(Times(Xs(Times(Xs(x, 30), A), 27), B), Times(Xs(Times(Xs(y, 30), A), 27), B), 31);
    TimesInjective(Xs(Times(Xs(x, 30), A), 27), Xs(Times(Xs(y, 30), A), 27), B, 0x319642b2d24d8ec3, 0x1cd336eda85f1453);
    XsInjective(Times(Xs(x, 30), A), Times(Xs(y, 30), A), 27);
    TimesInjective(Xs(x, 30), Xs(y, 30), A, 0x96de1b173f119089, 0x70c3bca78f27f46c);
    XsInjective(x, y, 30);
  }

  lemma AbsorbInjective(h: bv64, w: bv64, h': bv64, w': bv64)
    requires Absorb(h, w) == Absorb(h', w') && (h == h' || w == w')
    ensures h == h' && w == w'
  {
    hide Rotl27, Times, Xor;
    AddCancel(Times(Rotl27(Xor(h, w)), C), Times(Rotl27(Xor(h', w')), C), 0x1c69b3f74ac4ae35);
    TimesInjective(Rotl27(Xor(h, w)), Rotl27(Xor(h', w')), C, 0xc09c5fe5bd6dfddb, 0x2d80320349da7791);
    Rotl27Injective(Xor(h, w), Xor(h', w'));
    XorCancel(h, w, h', w');
  }

  lemma AddCancel(x: bv64, y: bv64, k: bv64)
    requires x + k == y + k
    ensures x == y
  {
  }

  // ---------- absorbing words ----------

  // The full word and the tail word enter the hash differently.
  function Full(w: bv64): bv64 { Mix64(w + 0x9e3779b97f4a7c15) }

  function LenTag(n: nat): bv64
    requires n < 8
  {
    ByteAt(OfNat(n), 7)
  }

  function Tail(s: seq<byte>): bv64
    requires |s| < 8
  {
    Mix64(Xor(LoadLE(s), LenTag(|s|)))
  }

  function Absorb(hash: bv64, w: bv64): bv64 {
    Times(Rotl27(Xor(hash, w)), C) + 0x1c69b3f74ac4ae35
  }

  function HashBytes(hash: bv64, data: seq<byte>): bv64
    decreases |data|
  {
    if |data| >= 8 then HashBytes(Absorb(hash, Full(LoadLE(data[..8]))), data[8..])
    else if |data| > 0 then Absorb(hash, Tail(data))
    else hash
  }

  function MetaBits(op: byte, flags: byte, size: nat): bv64
    requires size < U32_LIMIT
  {
    ((op as bv64) << 56) | ((flags as bv64) << 48) | ((Bits32(size) as bv64) << 16)
  }

  function Seed(h: Header): bv64
    requires h.size < U32_LIMIT
  {
    Mix64(Xor(Xor(Xor(0x9e3779b97f4a7c15, MetaBits(h.op, h.flags, h.size)), Rotl17(h.procId)), Rotl41(h.callId)))
  }

  // The 64-bit hash before it is folded to 32 bits.
  function Hash64(h: Header, payload: seq<byte>): bv64
    requires h.size < U32_LIMIT
  {
    Mix64(HashBytes(Xor(Seed(h), 0xa0761d6478bd642f), payload))
  }

  function Fold(x: bv64): bv32 {
    ((x ^ (x >> 32)) & 0xffff_ffff) as bv32
  }

  // `wirecall_packet_checksum`.
  function PacketChecksum(h: Header, payload: seq<byte>): bv32
    requires h.size < U32_LIMIT
  {
    if |payload| > MAX_PAYLOAD then 0 else Fold(Hash64(h, payload))
  }

  // `cheap_hash_update`.
  method CheapHashUpdate(hash: bv64, data: seq<byte>) returns (r: bv64)
    ensures r == Mix64(HashBytes(hash, data))
  {
    hide Mix64, Absorb, Full, Tail, LoadLE;
    r := hash;
    var off := 0;
    while |data| - off >= 8
      invariant 0 <= off <= |data|
      invariant HashBytes(r, data[off..]) == HashBytes(hash, data)
    {
      assert data[off..][..8] == data[off..off + 8] && data[off..][8..] == data[off + 8..];
      r := Absorb(r, Full(LoadLE(data[off..off + 8])));
      off := off + 8;
    }
    if off < |data| { r := Absorb(r, Tail(data[off..])); }
    r := Mix64(r);
  }

  // ---------- what the 64-bit hash distinguishes ----------

  lemma FullInjective(w: bv64, w': bv64)
    requires Full(w) == Full(w')
    ensures w == w'
  {
    hide Mix64;
    Mix64Injective(w + 0x9e3779b97f4a7c15, w' + 0x9e3779b97f4a7c15);
    AddCancel(w, w', 0x9e3779b97f4a7c15);
  }

  lemma TailInjective(s: seq<byte>, t: seq<byte>)
    requires |s| == |t| < 8 && Tail(s) == Tail(t)
    ensures s == t
  {
    hide Mix64, LenTag, LoadLE, Xor;
    Mix64Injective(Xor(LoadLE(s), LenTag(|s|)), Xor(LoadLE(t), LenTag(|t|)));
    XorCancel(LoadLE(s), LenTag(|s|), LoadLE(t), LenTag(|t|));
    LoadInjective(s, t);
  }

  // The incoming hash is never lost, whatever the payload.
  lemma {:induction false} StateInjective(h: bv64, h': bv64, data: seq<byte>)
    requires HashBytes(h, data) == HashBytes(h', data)
    ensures h == h'
    decreases |data|
  {
    hide Absorb, Full, Tail, LoadLE;
    if |data| >= 8 {
      var w := Full(LoadLE(data[..8]));
      StateInjective(Absorb(h, w), Absorb(h', w), data[8..]);
      AbsorbInjective(h, w, h', w);
    } else if |data| > 0 {
      AbsorbInjective(h, Tail(data), h', Tail(data));
    }
  }

  // Payloads that differ inside a single 8-byte word (or inside the tail) have different hashes.
  lemma {:induction false} WordInjective(h: bv64, p: seq<byte>, q: seq<byte>, i: nat)
    requires |p| == |q| && 8 * i <= |p| && p[..8 * i] == q[..8 * i]
    requires 8 * i + 8 <= |p| ==> p[8 * i + 8..] == q[8 * i + 8..]
    requires HashBytes(h, p) == HashBytes(h, q)
    ensures p == q
    decreases i
  {
    hide Absorb, Full, Tail, LoadLE;
    if |p| < 8 {
      if |p| > 0 {
        AbsorbInjective(h, Tail(p), h, Tail(q));
        TailInjective(p, q);
      }
    } else {
      assert p == p[..8] + p[8..] && q == q[..8] + q[8..];
      var w, w' := Full(LoadLE(p[..8])), Full(LoadLE(q[..8]));
      if i == 0 {
        assert p[8..] == q[8..];
        StateInjective(Absorb(h, w), Absorb(h, w'), p[8..]);
        AbsorbInjective(h, w, h, w');
        FullInjective(LoadLE(p[..8]), LoadLE(q[..8]));
        LoadInjective(p[..8], q[..8]);
      } else {
        assert p[..8] == p[..8 * i][..8] && q[..8] == q[..8 * i][..8];
        assert p[8..][..8 * (i - 1)] == p[..8 * i][8..] && q[8..][..8 * (i - 1)] == q[..8 * i][8..];
        if 8 * i + 8 <= |p| {
          assert p[8..][8 * (i - 1) + 8..] == p[8 * i + 8..] && q[8..][8 * (i - 1) + 8..] == q[8 * i + 8..];
        }
        WordInjective(Absorb(h, w), p[8..], q[8..], i - 1);
      }
    }
  }

  lemma MetaInjective(op: byte, flags: byte, size: nat, op': byte, flags': byte, size': nat)
    requires size < U32_LIMIT && size' < U32_LIMIT && MetaBits(op, flags, size) == MetaBits(op', flags', size')
    ensures op == op' && flags == flags' && size == size'
  {
    hide Bits32, Nat32;
    MetaFields(op, flags, Bits32(size), op', flags', Bits32(size'));
    NatBits(size);
    NatBits(size');
  }

  lemma MetaFields(op: byte, flags: byte, size: bv32, op': byte, flags': byte, size': bv32)
    requires ((op as bv64) << 56) | ((flags as bv64) << 48) | ((size as bv64) << 16)
          == ((op' as bv64) << 56) | ((flags' as bv64) << 48) | ((size' as bv64) << 16)
    ensures op == op' && flags == flags' && size == size'
  {
  }

  lemma XorCancel3(k: bv64, m: bv64, p: bv64, c: bv64, m': bv64, p': bv64, c': bv64)
    requires Xor(Xor(Xor(k, m), p), c) == Xor(Xor(Xor(k, m'), p'), c')
    ensures p == p' && c == c' ==> m == m'
    ensures m == m' && c == c' ==> p == p'
    ensures m == m' && p == p' ==> c == c'
  {
    hide Xor;
    if c == c' || (m == m' && p == p') { XorCancel(Xor(Xor(k, m), p), c, Xor(Xor(k, m'), p'), c'); }
    if c == c' && (p == p' || m == m') { XorCancel(Xor(k, m), p, Xor(k, m'), p'); }
    if c == c' && p == p' { XorCancel(k, m, k, m'); }
  }

  // With everything else fixed, the hash determines proc_id, call_id, and op, flags and size together.
  lemma HeaderInjective(h: Header, h': Header, payload: seq<byte>)
    requires h.size < U32_LIMIT && h'.size < U32_LIMIT && Hash64(h, payload) == Hash64(h', payload)
    ensures h.op == h'.op && h.flags == h'.flags && h.size == h'.size && h.callId == h'.callId ==> h.procId == h'.procId
    ensures h.op == h'.op && h.flags == h'.flags && h.size == h'.size && h.procId == h'.procId ==> h.callId == h'.callId
    ensures h.procId == h'.procId && h.callId == h'.callId ==> h.op == h'.op && h.flags == h'.flags && h.size == h'.size
  {
    hide Mix64, HashBytes, MetaBits, Rotl17, Rotl41, Xor;
    var m, p, c := MetaBits(h.op, h.flags, h.size), Rotl17(h.procId), Rotl41(h.callId);
    var m', p', c' := MetaBits(h'.op, h'.flags, h'.size), Rotl17(h'.procId), Rotl41(h'.callId);
    Mix64Injective(HashBytes(Xor(Seed(h), 0xa0761d6478bd642f), payload),
                   HashBytes(Xor(Seed(h'), 0xa0761d6478bd642f), payload));
    StateInjective(Xor(Seed(h), 0xa0761d6478bd642f), Xor(Seed(h'), 0xa0761d6478bd642f), payload);
    XorCancel(Seed(h), 0xa0761d6478bd642f, Seed(h'), 0xa0761d6478bd642f);
    Mix64Injective(Xor(Xor(Xor(0x9e3779b97f4a7c15, m), p), c), Xor(Xor(Xor(0x9e3779b97f4a7c15, m'), p'), c'));
    XorCancel3(0x9e3779b97f4a7c15, m, p, c, m', p', c');
    if m == m' && c == c' { Rotl17Injective(h.procId, h'.procId); }
    if m == m' && p == p' { Rotl41Injective(h.callId, h'.callId); }
    if p == p' && c == c' { MetaInjective(h.op, h.flags, h.size, h'.op, h'.flags, h'.size); }
  }

  // The same for one payload word of a packet.
  lemma PayloadInjective(h: Header, p: seq<byte>, q: seq<byte>, i: nat)
    requires h.size < U32_LIMIT && |p| == |q| && 8 * i <= |p| && p[..8 * i] == q[..8 * i]
    requires 8 * i + 8 <= |p| ==> p[8 * i + 8..] == q[8 * i + 8..]
    requires Hash64(h, p) == Hash64(h, q)
    ensures p == q
  {
    hide Mix64, HashBytes, Seed, Xor;
    var s := Xor(Seed(h), 0xa0761d6478bd642f);
    Mix64Injective(HashBytes(s, p), HashBytes(s, q));
    WordInjective(s, p, q, i);
  }
}
