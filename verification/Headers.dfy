/** The 34-byte packet header of src/protocol.c. */
module Headers {
  import opened Options
  import opened Words

  const HEADER_SIZE: nat := 34
  const MAX_PAYLOAD: nat := 1048576

  const OP_RPC: byte := 1
  const OP_PING: byte := 2
  const OP_DISCONNECT: byte := 3
  const OP_RESPONSE: byte := 4
  const OP_ERROR: byte := 5

  datatype Header = Header(op: byte, flags: byte, procId: bv64, size: nat, callId: bv64, checksum: bv32, mac: bv64)

  predicate ValidOp(op: byte) {
    op == OP_RPC || op == OP_PING || op == OP_DISCONNECT || op == OP_RESPONSE || op == OP_ERROR
  }

  predicate Encodable(h: Header) {
    ValidOp(h.op) && h.size <= MAX_PAYLOAD
  }

  // The layout of the fields, and of the metadata a MAC covers (all but the MAC itself).
  function Meta(h: Header): (r: seq<byte>)
    requires h.size < U32_LIMIT
    ensures |r| == 26
  {
    [h.op, h.flags] + PutU64(h.procId) + PutU32(Bits32(h.size)) + PutU64(h.callId) + PutU32(h.checksum)
  }

  function Layout(h: Header): (r: seq<byte>)
    requires h.size < U32_LIMIT
    ensures |r| == HEADER_SIZE
  {
    Meta(h) + PutU64(h.mac)
  }

  function Decode(s: seq<byte>): Option<Header>
    requires |s| == HEADER_SIZE
  {
    var h := Header(s[0], s[1], GetU64(s[2..10]), Nat32(GetU32(s[10..14])), GetU64(s[14..22]), GetU32(s[22..26]),
                    GetU64(s[26..34]));
    if ValidOp(s[0]) && h.size <= MAX_PAYLOAD then Some(h) else None
  }

  // Where the fields are.
  lemma Fields<T>(a: seq<T>, b: seq<T>, c: seq<T>, d: seq<T>, e: seq<T>, f: seq<T>)
    requires |a| == 2 && |b| == 8 && |c| == 4 && |d| == 8 && |e| == 4 && |f| == 8
    ensures var s := a + b + c + d + e + f;
            && |s| == HEADER_SIZE && s[0] == a[0] && s[1] == a[1]
            && s[2..10] == b && s[10..14] == c && s[14..22] == d && s[22..26] == e && s[26..34] == f
  {
  }

  // Decoding undoes encoding, on every header that can be encoded.
  lemma DecodeEncode(h: Header)
    requires Encodable(h)
    ensures Decode(Layout(h)) == Some(h)
  {
    hide PutU32, PutU64, GetU32, GetU64, Bits32, Nat32;
    Fields([h.op, h.flags], PutU64(h.procId), PutU32(Bits32(h.size)), PutU64(h.callId), PutU32(h.checksum),
           PutU64(h.mac));
    GetPut64(h.procId);
    GetPut32(Bits32(h.size));
    NatBits(h.size);
    GetPut64(h.callId);
    GetPut32(h.checksum);
    GetPut64(h.mac);
  }

  // Encoding undoes decoding, on every 34 bytes that are accepted: no two byte strings mean the same header.
  lemma EncodeDecode(s: seq<byte>)
    requires |s| == HEADER_SIZE && Decode(s).Some?
    ensures Encodable(Decode(s).value) && Layout(Decode(s).value) == s
  {
    hide PutU32, PutU64, GetU32, GetU64, Bits32, Nat32;
    PutGet64(s[2..10]);
    PutGet32(s[10..14]);
    BitsNat(GetU32(s[10..14]));
    PutGet64(s[14..22]);
    PutGet32(s[22..26]);
    PutGet64(s[26..34]);
    assert s == [s[0], s[1]] + s[2..10] + s[10..14] + s[14..22] + s[22..26] + s[26..34];
  }

  // ---------- writing a header into a buffer ----------

  // `(uint8_t)(value >> (i * 8))`.
  function ByteOf(x: bv64, i: nat): byte
    requires i < 8
  {
    if i == 0 then Low8(x) else if i == 1 then Low8(x >> 8) else if i == 2 then Low8(x >> 16)
    else if i == 3 then Low8(x >> 24) else if i == 4 then Low8(x >> 32) else if i == 5 then Low8(x >> 40)
    else if i == 6 then Low8(x >> 48) else Low8(x >> 56)
  }

  // The byte i places from the low end is the one 7 - i places from the front of the wire form.
  lemma ByteOfPut(x: bv64, i: nat)
    requires i < 8
    ensures ByteOf(x, i) == PutU64(x)[7 - i]
  {
    hide Low8;
  }

  // `put_u64`: byte by byte, the highest first.
  method StoreU64(out: array<byte>, off: nat, value: bv64)
    requires off + 8 <= out.Length
    modifies out
    ensures out[..] == old(out[..off]) + PutU64(value) + old(out[off + 8..])
  {
    hide PutU64, ByteOf;
    var i := 7;
    while i >= 0
      invariant -1 <= i <= 7
      invariant forall k :: 0 <= k < out.Length && !(off <= k < off + 7 - i) ==> out[k] == old(out[k])
      invariant forall k :: off <= k < off + 7 - i ==> out[k] == PutU64(value)[k - off]
    {
      ByteOfPut(value, i);
      out[off + 7 - i] := ByteOf(value, i);
      i := i - 1;
    }
  }

  // `put_u32`: four shifts.
  method StoreU32(out: array<byte>, off: nat, value: bv32)
    requires off + 4 <= out.Length
    modifies out
    ensures out[..] == old(out[..off]) + PutU32(value) + old(out[off + 4..])
  {
    ghost var want := PutU32(value);
    var a, b := ((value >> 24) & 0xff) as bv8, ((value >> 16) & 0xff) as bv8;
    var c, d := ((value >> 8) & 0xff) as bv8, (value & 0xff) as bv8;
    assert want == [a, b, c, d];
    hide PutU32;
    out[off] := a;
    out[off + 1] := b;
    out[off + 2] := c;
    out[off + 3] := d;
  }

  method EncodeHeader(h: Header, out: array<byte>) returns (ok: bool)
    requires out.Length == HEADER_SIZE && h.size < U32_LIMIT
    modifies out
    ensures ok == Encodable(h)
    ensures out[..] == if ok then Layout(h) else old(out[..])
  {
    ok := Encodable(h);
    if ok {
      hide PutU32, PutU64, Bits32;
      out[0] := h.op;
      out[1] := h.flags;
      assert out[..2] == [h.op, h.flags];
      StoreU64(out, 2, h.procId);
      assert out[..10] == [h.op, h.flags] + PutU64(h.procId);
      StoreU32(out, 10, Bits32(h.size));
      assert out[..14] == [h.op, h.flags] + PutU64(h.procId) + PutU32(Bits32(h.size));
      StoreU64(out, 14, h.callId);
      assert out[..22] == [h.op, h.flags] + PutU64(h.procId) + PutU32(Bits32(h.size)) + PutU64(h.callId);
      StoreU32(out, 22, h.checksum);
      assert out[..26] == Meta(h);
      StoreU64(out, 26, h.mac);
      assert out[..] == Layout(h);
    }
  }
}
