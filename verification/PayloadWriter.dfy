/** The growing writer of src/payload.c. */
module PayloadWriter {
  import Buffers
  import Headers
  import opened Options
  import opened Sequences
  import opened Words
  import opened Payload

  const MAX_PAYLOAD: nat := Headers.MAX_PAYLOAD

  // The type and length in front of bytes and strings.
  function Prefix(v: Value): (r: seq<byte>)
    requires (v.Bytes? || v.Str?) && Writable(v)
    ensures |r| == 5
  {
    [Tag(v)] + PutU32(Bits32(|v.data|))
  }

  lemma PrefixThenData(v: Value)
    requires (v.Bytes? || v.Str?) && Writable(v)
    ensures Encode(v) == Prefix(v) + v.data && Encode(v)[..5] == Prefix(v)
  {
    hide PutU32, Bits32;
  }

  // ---------- capacities ----------

  // The growth loop of `writer_reserve`: double, but not past the maximum.
  function Doubled(cap: nat, need: nat): (r: nat)
    requires 0 < cap <= MAX_PAYLOAD && need <= MAX_PAYLOAD
    ensures need <= r && cap <= r <= MAX_PAYLOAD
    decreases need - cap
  {
    if need <= cap then cap else if cap > MAX_PAYLOAD / 2 then MAX_PAYLOAD else Doubled(cap * 2, need)
  }

  // The capacity after room was made for `need` bytes.
  function Grown(cap: nat, need: nat): (r: nat)
    requires cap <= MAX_PAYLOAD && need <= MAX_PAYLOAD
    ensures need <= r && cap <= r <= MAX_PAYLOAD
  {
    if need <= cap then cap else Doubled(if cap != 0 then cap else 64, need)
  }

  // Whether `extra` more bytes can be had: within the maximum, and within the capacity unless memory is given.
  predicate Fits(len: nat, cap: nat, extra: nat, memory: bool) {
    len + extra <= MAX_PAYLOAD && (len + extra <= cap || memory)
  }

  // Whether both pushes of a text succeed.
  predicate TextFits(len: nat, cap: nat, n: nat, memory: bool, more: bool)
    requires cap <= MAX_PAYLOAD
  {
    Fits(len, cap, 5, memory) && Fits(len + 5, Grown(cap, len + 5), n, more)
  }

  class Writer {
    var data: array<byte>
    var len: nat

    ghost predicate Valid()
      reads this
    {
      len <= data.Length <= MAX_PAYLOAD
    }

    ghost function Contents(): seq<byte>
      reads this, data
      requires Valid()
    {
      data[..len]
    }

    constructor ()
      ensures Valid() && Contents() == [] && data.Length == 0 && fresh(data)
    {
      data, len := new byte[0], 0;
    }

    // `wirecall_writer_reset`
    method Reset()
      requires Valid()
      modifies this`len
      ensures Valid() && Contents() == []
    {
      len := 0;
    }

    // `writer_reserve`; `memory` says whether realloc would succeed.
    method Reserve(extra: nat, memory: bool) returns (ok: bool)
      requires Valid()
      modifies this`data
      ensures Valid() && Contents() == old(Contents())
      ensures ok == Fits(len, old(data.Length), extra, memory)
      ensures ok ==> data.Length == Grown(old(data.Length), len + extra)
      ensures data == old(data) || fresh(data)
      ensures !ok ==> data == old(data)
    {
      if extra > MAX_PAYLOAD || len > MAX_PAYLOAD - extra { return false; }
      var need := len + extra;
      if need <= data.Length { return true; }
      var cap := if data.Length != 0 then data.Length else 64;
      while cap < need
        invariant 0 < cap <= MAX_PAYLOAD && data.Length <= cap
        invariant Doubled(cap, need) == Grown(data.Length, need)
        decreases need - cap
      {
        if cap > MAX_PAYLOAD / 2 {
          cap := MAX_PAYLOAD;
          break;
        }
        cap := cap * 2;
      }
      if !memory { return false; }
      var next := new byte[cap];
      forall i | 0 <= i < data.Length { next[i] := data[i]; }
      data := next;
      return true;
    }

    // `writer_push`
    method Push(bytes: seq<byte>, memory: bool) returns (ok: bool)
      requires Valid()
      modifies this, data
      ensures Valid()
      ensures ok == Fits(old(len), old(data.Length), |bytes|, memory)
      ensures Contents() == if ok then old(Contents()) + bytes else old(Contents())
      ensures len == if ok then old(len) + |bytes| else old(len)
      ensures data.Length == if ok then Grown(old(data.Length), old(len) + |bytes|) else old(data.Length)
      ensures data == old(data) || fresh(data)
    {
      hide Grown;
      ok := Reserve(|bytes|, memory);
      if ok {
        Buffers.Copy(data, len, bytes);
        len := len + |bytes|;
      }
    }

    // `wirecall_writer_null`, `_bool`, `_i64`, `_u64` and `_f64`: one push.
    method WriteScalar(v: Value, memory: bool) returns (ok: bool)
      requires Valid() && !v.Bytes? && !v.Str?
      modifies this, data
      ensures Valid()
      ensures ok == Fits(old(len), old(data.Length), |Encode(v)|, memory)
      ensures Contents() == if ok then old(Contents()) + Encode(v) else old(Contents())
      ensures data == old(data) || fresh(data)
    {
      hide PutU64, PutU32, Bits32;
      ok := Push(Encode(v), memory);
    }

    // `wirecall_writer_bytes` and `_string`: two pushes, so a failure can leave the 5-byte prefix behind.
    method WriteText(v: Value, memory: bool, more: bool) returns (ok: bool)
      requires Valid() && (v.Bytes? || v.Str?) && Writable(v)
      modifies this, data
      ensures Valid()
      ensures ok == TextFits(old(len), old(data.Length), |v.data|, memory, more)
      ensures ok ==> Contents() == old(Contents()) + Encode(v)
      ensures !ok ==>
                Contents() == old(Contents()) + if Fits(old(len), old(data.Length), 5, memory) then Prefix(v) else []
      ensures data == old(data) || fresh(data)
    {
      hide Encode, Prefix, Grown, Fits;
      ghost var before := Contents();
      PrefixThenData(v);
      Assoc(before, Prefix(v), v.data);
      ok := Push(Prefix(v), memory);
      if !ok {
        assert before + [] == before;
        return;
      }
      ok := Push(v.data, more);
    }

    // The write call for a value; texts push twice and so ask for memory twice.
    method Write(v: Value, memory: bool, more: bool) returns (ok: bool)
      requires Valid() && Writable(v)
      modifies this, data
      ensures Valid() && (data == old(data) || fresh(data))
      ensures ok ==> Contents() == old(Contents()) + Encode(v)
      ensures !ok ==> old(Contents()) <= Contents() < old(Contents()) + Encode(v)
      ensures ok == if v.Bytes? || v.Str? then TextFits(old(len), old(data.Length), |v.data|, memory, more)
                    else Fits(old(len), old(data.Length), |Encode(v)|, memory)
      ensures memory && more ==> ok == (old(len) + |Encode(v)| <= MAX_PAYLOAD)
    {
      hide Encode;
      if v.Bytes? || v.Str? {
        PrefixThenData(v);
        ok := WriteText(v, memory, more);
        if !ok {
          assert old(Contents()) + Encode(v) == old(Contents()) + Prefix(v) + v.data;
        }
      } else {
        ok := WriteScalar(v, memory);
      }
    }
  }

  // ---------- a failed text write ----------

  // A 60-byte text into a fresh writer when the first allocation succeeds and the second does not: the call
  // reports failure, the prefix stays, and what is in the writer is not a payload.
  method StrayPrefix(data: seq<byte>) returns (ok: bool, left: seq<byte>)
    requires |data| == 60
    ensures !ok && left == Prefix(Bytes(data)) && Decode(left).None?
  {
    var w := new Writer();
    assert Grown(0, 5) == 64;
    ok := w.WriteText(Bytes(data), true, false);
    left := w.data[..w.len];
    CutShort(Bytes(data));
  }

  // The same with memory to spare, when the text does not fit into the maximum payload.
  method StrayPrefixTooLong(data: seq<byte>) returns (ok: bool, left: seq<byte>)
    requires MAX_PAYLOAD - 5 < |data| < U32_LIMIT
    ensures !ok && left == Prefix(Bytes(data)) && Decode(left).None?
  {
    var w := new Writer();
    ok := w.WriteText(Bytes(data), true, true);
    left := w.data[..w.len];
    CutShort(Bytes(data));
  }

  // A prefix that promises bytes and has none behind it does not decode.
  lemma CutShort(v: Value)
    requires (v.Bytes? || v.Str?) && Writable(v) && v.data != []
    ensures Decode(Prefix(v)).None?
  {
    hide PutU32, GetU32, Bits32, Nat32;
    var s := Prefix(v);
    assert s[1..5] == PutU32(Bits32(|v.data|));
    GetPut32(Bits32(|v.data|));
    NatBits(|v.data|);
    assert DecodeOne(s) == Malformed;
  }

  // ---------- runs of the writer ----------

  // One write call after the other, stopping at the first failure. `memory` answers the requests for memory,
  // two per value.
  method WriteAll(w: Writer, vs: seq<Value>, memory: nat -> bool) returns (ok: bool)
    requires w.Valid() && AllWritable(vs)
    modifies w, w.data
    ensures w.Valid() && (w.data == old(w.data) || fresh(w.data))
    ensures ok ==> w.Contents() == old(w.Contents()) + EncodeAll(vs)
    ensures !ok ==> old(w.Contents()) <= w.Contents() < old(w.Contents()) + EncodeAll(vs)
    ensures (forall i :: memory(i)) ==> ok == (old(w.len) + |EncodeAll(vs)| <= MAX_PAYLOAD)
  {
    hide Encode, Writable;
    ghost var before := w.Contents();
    var i := 0;
    assert vs[..0] == [] && EncodeAll([]) == [] && before + [] == before;
    while i < |vs|
      invariant 0 <= i <= |vs| && w.Valid() && (w.data == old(w.data) || fresh(w.data))
      invariant w.Contents() == before + EncodeAll(vs[..i])
    {
      assert vs[..i + 1][..i] == vs[..i];
      Assoc(before, EncodeAll(vs[..i]), Encode(vs[i]));
      Continues(vs, i + 1);
      ok := w.Write(vs[i], memory(2 * i), memory(2 * i + 1));
      if !ok {
        Shorter(before, w.Contents(), EncodeAll(vs[..i + 1]), EncodeAll(vs));
        return;
      }
      i := i + 1;
    }
    assert vs[..i] == vs;
    ok := true;
  }

  lemma Shorter(a: seq<byte>, x: seq<byte>, b: seq<byte>, c: seq<byte>)
    requires a <= x < a + b && b <= c
    ensures x < a + c
  {
    assert a + b <= a + c;
  }

  // The encoding of the first values is a prefix of the encoding of all.
  lemma {:induction false} Continues(vs: seq<Value>, k: nat)
    requires AllWritable(vs) && k <= |vs|
    ensures EncodeAll(vs[..k]) <= EncodeAll(vs)
  {
    hide Encode, Writable;
    if k == |vs| {
      assert vs[..k] == vs;
    } else {
      var init := vs[..|vs| - 1];
      Continues(init, k);
      assert init[..k] == vs[..k];
    }
  }

  // What a successful run wrote decodes to exactly the values, whatever memory did; with memory the run
  // succeeds exactly when the whole encoding fits.
  method WriteThenDecode(vs: seq<Value>, memory: nat -> bool) returns (ok: bool, payload: seq<byte>)
    requires AllWritable(vs)
    ensures ok ==> Decode(payload) == Some(vs) && |payload| <= MAX_PAYLOAD
    ensures (forall i :: memory(i)) ==> ok == (|EncodeAll(vs)| <= MAX_PAYLOAD)
  {
    hide Encode, EncodeAll, Decode;
    var w := new Writer();
    ok := WriteAll(w, vs, memory);
    payload := w.data[..w.len];
    assert [] + EncodeAll(vs) == EncodeAll(vs);
    DecodeEncode(vs);
  }

  // Any accepted payload of at most the maximum size is what writing its values produces.
  method DecodeThenWrite(s: seq<byte>) returns (ok: bool, payload: seq<byte>)
    requires Decode(s).Some?
    ensures ok == (|s| <= MAX_PAYLOAD) && (ok ==> payload == s)
  {
    EncodeDecode(s);
    hide Encode, EncodeAll, Decode;
    var w := new Writer();
    ok := WriteAll(w, Decode(s).value, _ => true);
    payload := w.data[..w.len];
    assert [] + s == s;
  }
}
