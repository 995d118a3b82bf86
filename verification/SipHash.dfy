/** Streaming SipHash-2-4 as in src/protocol.c, against its definition in section 2 of the SipHash
    paper by Aumasson and Bernstein. */
module SipHash {
  import opened Words

  datatype V = V(v0: bv64, v1: bv64, v2: bv64, v3: bv64)

  function Rotl(x: bv64, k: nat): bv64
    requires k in {13, 16, 17, 21, 32}
  {
    if k == 13 then (x << 13) | (x >> 51) else if k == 16 then (x << 16) | (x >> 48)
    else if k == 17 then (x << 17) | (x >> 47) else if k == 21 then (x << 21) | (x >> 43)
    else (x << 32) | (x >> 32)
  }

  // ---------- the definition ----------

  // SipRound in the paper's order: the two halves of each step side by side.
  function SipRound(v: V): V {
    var a0 := Add(v.v0, v.v1);
    var a2 := Add(v.v2, v.v3);
    var a1 := Xor(Rotl(v.v1, 13), a0);
    var a3 := Xor(Rotl(v.v3, 16), a2);
    var b2 := Add(a2, a1);
    var b0 := Add(Rotl(a0, 32), a3);
    V(b0, Xor(Rotl(a1, 17), b2), Rotl(b2, 32), Xor(Rotl(a3, 21), b0))
  }

  function Compress(v: V, m: bv64): V {
    var w := SipRound(SipRound(v.(v3 := Xor(v.v3, m))));
    w.(v0 := Xor(w.v0, m))
  }

  function Start(k0: bv64, k1: bv64): V {
    V(Xor(0x736f6d6570736575, k0), Xor(0x646f72616e646f6d, k1), Xor(0x6c7967656e657261, k0),
      Xor(0x7465646279746573, k1))
  }

  // All 64-bit little-endian words of m, in order.
  function AbsorbAll(v: V, m: seq<byte>): V
    requires |m| % 8 == 0
    decreases |m|
  {
    if m == [] then v else Compress(AbsorbAll(v, m[..|m| - 8]), LoadLE(m[|m| - 8..]))
  }

  // The last word: the remaining bytes, and the length modulo 256 in the top byte.
  function LastWord(rest: seq<byte>, length: nat): bv64
    requires |rest| < 8
  {
    PutByte(LoadLE(rest), OfNat(length % 256), 7)
  }

  // The last word is the little-endian load of the remaining bytes, padded with zeros, and the length modulo 256.
  lemma LastWordPads(rest: seq<byte>, length: nat)
    requires |rest| < 8
    ensures LastWord(rest, length) == LoadLE(rest + seq(7 - |rest|, _ => 0) + [OfNat(length % 256)])
  {
    hide LoadLE, PutByte, OfNat;
    LoadPadded(rest, 7 - |rest|);
    LoadSnoc(rest + seq(7 - |rest|, _ => 0), OfNat(length % 256));
  }

  function Finalize(v: V): bv64 {
    var w := SipRound(SipRound(SipRound(SipRound(v.(v2 := Xor(v.v2, 0xff))))));
    Xor(Xor(Xor(w.v0, w.v1), w.v2), w.v3)
  }

  function Digest(start: V, m: seq<byte>): bv64 {
    var full := |m| - |m| % 8;
    Finalize(Compress(AbsorbAll(start, m[..full]), LastWord(m[full..], |m|)))
  }

  function SipHash24(k0: bv64, k1: bv64, m: seq<byte>): bv64 {
    Digest(Start(k0, k1), m)
  }

  // ---------- the streaming form ----------

  // After the bytes of m: whole words are absorbed, the last n bytes wait in `tail`.
  ghost predicate Holds(start: V, v: V, tail: bv64, n: nat, m: seq<byte>) {
    && n <= 8 && n <= |m| && (|m| - n) % 8 == 0
    && tail == LoadLE(m[|m| - n..])
    && v == AbsorbAll(start, m[..|m| - n])
  }

  lemma HoldByte(start: V, v: V, tail: bv64, n: nat, m: seq<byte>, b: byte)
    requires Holds(start, v, tail, n, m) && n < 8
    ensures Holds(start, v, PutByte(tail, b, n), n + 1, m + [b])
  {
    hide PutByte, LoadLE;
    LoadSnoc(m[|m| - n..], b);
    assert (m + [b])[|m| - n..] == m[|m| - n..] + [b];
    assert (m + [b])[..|m| - n] == m[..|m| - n];
  }

  lemma HoldFull(start: V, v: V, tail: bv64, m: seq<byte>)
    requires Holds(start, v, tail, 8, m)
    ensures Holds(start, Compress(v, tail), 0, 0, m)
  {
    hide Compress;
    assert m[..|m|] == m && m[|m|..] == [];
  }

  lemma HoldWord(start: V, v: V, tail: bv64, m: seq<byte>, w: seq<byte>)
    requires Holds(start, v, tail, 0, m) && |w| == 8
    ensures Holds(start, Compress(v, LoadLE(w)), 0, 0, m + w)
  {
    hide Compress, LoadLE, AbsorbAll, Holds;
    HeldWhole(start, v, tail, m);
    AbsorbSnoc(start, m, w);
    HoldWhole(start, Compress(v, LoadLE(w)), m + w);
  }

  lemma AbsorbSnoc(v: V, m: seq<byte>, w: seq<byte>)
    requires |m| % 8 == 0 && |w| == 8
    ensures AbsorbAll(v, m + w) == Compress(AbsorbAll(v, m), LoadLE(w))
  {
    hide Compress, LoadLE;
    var all := m + w;
    assert all[..|all| - 8] == m && all[|all| - 8..] == w;
  }

  lemma HeldWhole(start: V, v: V, tail: bv64, m: seq<byte>)
    requires Holds(start, v, tail, 0, m)
    ensures |m| % 8 == 0 && v == AbsorbAll(start, m)
  {
    hide AbsorbAll, LoadLE;
    assert m[..|m|] == m;
  }

  lemma HoldWhole(start: V, v: V, m: seq<byte>)
    requires |m| % 8 == 0 && v == AbsorbAll(start, m)
    ensures Holds(start, v, 0, 0, m)
  {
    hide AbsorbAll;
    assert m[..|m|] == m && m[|m|..] == [];
  }

  // uint64_t counters.
  function Wrap(n: nat): nat { n % U64_LIMIT }

  lemma WrapAdd(a: nat, b: nat)
    ensures Wrap(Wrap(a) + b) == Wrap(a + b)
  {
  }

  lemma Recombine(m: seq<byte>, data: seq<byte>, i: nat, j: nat)
    requires i <= j <= |data|
    ensures m + data[..i] + data[i..j] + data[j..] == m + data
  {
    assert data == data[..i] + data[i..j] + data[j..];
  }

  class Hasher {
    var v0: bv64
    var v1: bv64
    var v2: bv64
    var v3: bv64
    var totalLen: nat
    var tail: bv64
    var tailLen: nat
    const start: V
    ghost var msg: seq<byte>

    ghost predicate Valid()
      reads this
    {
      && Holds(start, V(v0, v1, v2, v3), tail, tailLen, msg)
      && tailLen < 8
      && totalLen == Wrap(|msg|)
    }

    constructor (k0: bv64, k1: bv64)
      ensures Valid() && msg == [] && start == Start(k0, k1)
    {
      var s := Start(k0, k1);
      start, v0, v1, v2, v3 := s, s.v0, s.v1, s.v2, s.v3;
      totalLen, tail, tailLen, msg := 0, 0, 0, [];
    }

    // `sip_round`: the same additions, rotations and exclusive ors, one at a time.
    method Round()
      modifies this`v0, this`v1, this`v2, this`v3
      ensures V(v0, v1, v2, v3) == SipRound(V(old(v0), old(v1), old(v2), old(v3)))
    {
      hide Rotl, Xor, Add;
      v0 := Add(v0, v1);
      v1 := Rotl(v1, 13);
      v1 := Xor(v1, v0);
      v0 := Rotl(v0, 32);
      v2 := Add(v2, v3);
      v3 := Rotl(v3, 16);
      v3 := Xor(v3, v2);
      v0 := Add(v0, v3);
      v3 := Rotl(v3, 21);
      v3 := Xor(v3, v0);
      v2 := Add(v2, v1);
      v1 := Rotl(v1, 17);
      v1 := Xor(v1, v2);
      v2 := Rotl(v2, 32);
    }

    method CompressWord(m: bv64)
      modifies this`v0, this`v1, this`v2, this`v3
      ensures V(v0, v1, v2, v3) == Compress(V(old(v0), old(v1), old(v2), old(v3)), m)
    {
      hide SipRound, Xor;
      v3 := Xor(v3, m);
      Round();
      Round();
      v0 := Xor(v0, m);
    }

    ghost predicate Held()
      reads this
    {
      Holds(start, V(v0, v1, v2, v3), tail, tailLen, msg)
    }

    // Byte by byte into a word that is already begun.
    method FillTail(data: seq<byte>) returns (i: nat)
      requires Held() && tailLen < 8
      modifies this`v0, this`v1, this`v2, this`v3, this`tail, this`tailLen, this`msg
      ensures Held() && i <= |data| && msg == old(msg) + data[..i] && tailLen < 8
      ensures tailLen == 0 || i == |data|
    {
      hide Compress, LoadLE, PutByte, Holds;
      i := 0;
      assert msg + data[..0] == msg;
      if tailLen != 0 {
        while i < |data| && tailLen < 8
          invariant 0 <= i <= |data| && tailLen <= 8 && Held() && msg == old(msg) + data[..i]
        {
          HoldByte(start, V(v0, v1, v2, v3), tail, tailLen, msg, data[i]);
          assert old(msg) + data[..i + 1] == msg + [data[i]];
          tail := PutByte(tail, data[i], tailLen);
          tailLen := tailLen + 1;
          msg := msg + [data[i]];
          i := i + 1;
        }
        if tailLen == 8 {
          HoldFull(start, V(v0, v1, v2, v3), tail, msg);
          CompressWord(tail);
          tail := 0;
          tailLen := 0;
        }
      }
    }

    method TakeWords(data: seq<byte>, from: nat) returns (i: nat)
      requires Held() && from <= |data| && (tailLen == 0 || from == |data|)
      modifies this`v0, this`v1, this`v2, this`v3, this`msg
      ensures Held() && from <= i <= |data| && |data| - i < 8 && msg == old(msg) + data[from..i]
      ensures tailLen == 0 || i == |data|
    {
      hide Compress, LoadLE, Holds;
      i := from;
      assert msg + data[from..from] == msg;
      while |data| - i >= 8
        invariant from <= i <= |data| && Held() && msg == old(msg) + data[from..i]
        decreases |data| - i
      {
        HoldWord(start, V(v0, v1, v2, v3), tail, msg, data[i..i + 8]);
        HoldEmpty(start, V(v0, v1, v2, v3), tail, msg);
        assert old(msg) + data[from..i + 8] == msg + data[i..i + 8];
        CompressWord(LoadLE(data[i..i + 8]));
        msg := msg + data[i..i + 8];
        i := i + 8;
      }
    }

    method KeepRest(data: seq<byte>, from: nat)
      requires Held() && from <= |data| && tailLen + (|data| - from) < 8
      modifies this`tail, this`tailLen, this`msg
      ensures Held() && msg == old(msg) + data[from..] && tailLen < 8
    {
      hide LoadLE, PutByte, Holds;
      var i := from;
      assert msg + data[from..from] == msg;
      while i < |data|
        invariant from <= i <= |data| && tailLen + (|data| - i) < 8 && Held() && msg == old(msg) + data[from..i]
      {
        HoldByte(start, V(v0, v1, v2, v3), tail, tailLen, msg, data[i]);
        assert old(msg) + data[from..i + 1] == msg + [data[i]];
        tail := PutByte(tail, data[i], tailLen);
        tailLen := tailLen + 1;
        msg := msg + [data[i]];
        i := i + 1;
      }
      assert data[from..i] == data[from..];
    }

    // `sip_update`: finish the waiting word, take whole words, keep the rest.
    method Update(data: seq<byte>)
      requires Valid()
      modifies this
      ensures Valid() && msg == old(msg) + data
    {
      hide Holds;
      totalLen := Wrap(totalLen + |data|);
      WrapAdd(|msg|, |data|);
      hide Wrap;
      var i := FillTail(data);
      var j := TakeWords(data, i);
      KeepRest(data, j);
      Recombine(old(msg), data, i, j);
    }

    method Finish() returns (mac: bv64)
      requires Valid()
      modifies this
      ensures mac == Digest(start, old(msg))
    {
      hide SipRound, Xor, Compress, Holds, AbsorbAll, LastWord, Seal;
      HoldSize(start, V(v0, v1, v2, v3), tail, tailLen, msg);
      HoldLast(start, V(v0, v1, v2, v3), tail, tailLen, msg, totalLen);
      CompressWord(Seal(tail, totalLen));
      v2 := Xor(v2, 0xff);
      Round();
      Round();
      Round();
      Round();
      mac := Xor(Xor(Xor(v0, v1), v2), v3);
    }
  }

  // `tail | (total_len << 56)`
  function Seal(tail: bv64, total: nat): bv64 {
    PutByte(tail, OfNat(total % 256), 7)
  }

  lemma HoldSize(start: V, v: V, tail: bv64, n: nat, m: seq<byte>)
    requires Holds(start, v, tail, n, m)
    ensures n <= |m|
  {
    hide AbsorbAll, LoadLE;
  }

  // Tail and length are the last word.
  lemma HoldLast(start: V, v: V, tail: bv64, n: nat, m: seq<byte>, total: nat)
    requires n < 8 && n <= |m| && total == Wrap(|m|)
    requires Holds(start, v, tail, n, m)
    ensures n == |m| % 8
    ensures v == AbsorbAll(start, m[..|m| - n]) && Seal(tail, total) == LastWord(m[|m| - n..], |m|)
  {
    hide AbsorbAll, LoadLE, PutByte, OfNat, Wrap;
    LowByte(|m|);
    Remainder(n, |m|);
  }

  lemma LowByte(n: nat)
    ensures Wrap(n) % 256 == n % 256
  {
  }

  lemma Remainder(n: nat, len: nat)
    requires n < 8 && n <= len && (len - n) % 8 == 0
    ensures n == len % 8
  {
  }

  lemma HoldEmpty(start: V, v: V, tail: bv64, m: seq<byte>)
    requires Holds(start, v, tail, 0, m)
    ensures tail == 0
  {
    assert m[|m|..] == [];
  }

  // However a message is cut into chunks, streaming it gives its SipHash-2-4.
  method HashChunks(k0: bv64, k1: bv64, chunks: seq<seq<byte>>) returns (mac: bv64)
    ensures mac == SipHash24(k0, k1, Flatten(chunks))
  {
    hide Compress, AbsorbAll, Finalize, LastWord, Holds, Start;
    var h := new Hasher(k0, k1);
    var i := 0;
    while i < |chunks|
      invariant 0 <= i <= |chunks|
      invariant h.Valid() && h.start == Start(k0, k1) && fresh(h)
      invariant h.msg == Flatten(chunks[..i])
    {
      assert chunks[..i + 1][..i] == chunks[..i];
      h.Update(chunks[i]);
      i := i + 1;
    }
    assert chunks[..i] == chunks;
    mac := h.Finish();
  }
}
