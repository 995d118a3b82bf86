/** The typed payload encoding of src/payload.c: what the writer produces and the decoder accepts. */
module Payload {
  import opened Options
  import opened Words

  // Integers and floating-point numbers are their 64-bit patterns.
  datatype Value =
    | Null
    | Bool(flag: bool)
    | I64(bits: bv64)
    | U64(bits: bv64)
    | F64(bits: bv64)
    | Bytes(data: seq<byte>)
    | Str(data: seq<byte>)

  const TYPE_NULL: byte := 0
  const TYPE_BOOL: byte := 1
  const TYPE_I64: byte := 2
  const TYPE_U64: byte := 3
  const TYPE_F64: byte := 4
  const TYPE_BYTES: byte := 5
  const TYPE_STRING: byte := 6

  function Tag(v: Value): byte {
    match v
    case Null => TYPE_NULL
    case Bool(_) => TYPE_BOOL
    case I64(_) => TYPE_I64
    case U64(_) => TYPE_U64
    case F64(_) => TYPE_F64
    case Bytes(_) => TYPE_BYTES
    case Str(_) => TYPE_STRING
  }

  // Lengths are uint32_t.
  predicate Writable(v: Value) {
    v.Bytes? || v.Str? ==> |v.data| < U32_LIMIT
  }

  function Body(v: Value): seq<byte>
    requires Writable(v)
  {
    match v
    case Null => []
    case Bool(flag) => [if flag then 1 else 0]
    case I64(bits) => PutU64(bits)
    case U64(bits) => PutU64(bits)
    case F64(bits) => PutU64(bits)
    case Bytes(data) => PutU32(Bits32(|data|)) + data
    case Str(data) => PutU32(Bits32(|data|)) + data
  }

  function Encode(v: Value): (r: seq<byte>)
    requires Writable(v)
    ensures |r| > 0
  {
    [Tag(v)] + Body(v)
  }

  // The bytes of each kind of value.
  lemma Encoded(v: Value)
    requires Writable(v)
    ensures v.Null? ==> Encode(v) == [0]
    ensures v.Bool? ==> Encode(v) == [1, if v.flag then 1 else 0]
    ensures v.I64? ==> Encode(v) == [2] + PutU64(v.bits)
    ensures v.U64? ==> Encode(v) == [3] + PutU64(v.bits)
    ensures v.F64? ==> Encode(v) == [4] + PutU64(v.bits)
    ensures v.Bytes? ==> Encode(v) == [5] + PutU32(Bits32(|v.data|)) + v.data
    ensures v.Str? ==> Encode(v) == [6] + PutU32(Bits32(|v.data|)) + v.data
  {
    hide PutU64, PutU32, Bits32;
  }

  predicate AllWritable(vs: seq<Value>) {
    forall i :: 0 <= i < |vs| ==> Writable(vs[i])
  }

  function EncodeAll(vs: seq<Value>): seq<byte>
    requires AllWritable(vs)
  {
    if vs == [] then [] else EncodeAll(vs[..|vs| - 1]) + Encode(vs[|vs| - 1])
  }

  // ---------- decoding ----------

  datatype Item = Malformed | Item(value: Value, used: nat)

  // One value at the front of s.
  function DecodeOne(s: seq<byte>): Item
    requires s != []
  {
    var tag := s[0];
    if tag == TYPE_NULL then Item(Null, 1)
    else if tag == TYPE_BOOL then
      if |s| < 2 || (s[1] != 0 && s[1] != 1) then Malformed else Item(Bool(s[1] != 0), 2)
    else if tag == TYPE_I64 || tag == TYPE_U64 || tag == TYPE_F64 then
      if |s| < 9 then Malformed else Item(Word(tag, GetU64(s[1..9])), 9)
    else if tag == TYPE_BYTES || tag == TYPE_STRING then
      if |s| < 5 then Malformed
      else DecodeText(tag, s[5..], Nat32(GetU32(s[1..5])))
    else Malformed
  }

  // The n bytes behind a length.
  function DecodeText(tag: byte, rest: seq<byte>, n: nat): Item {
    if |rest| < n then Malformed else Item(Text(tag, rest[..n]), 5 + n)
  }

  lemma DecodeOneUsed(s: seq<byte>)
    requires s != [] && DecodeOne(s).Item?
    ensures 0 < DecodeOne(s).used <= |s|
  {
    hide GetU64, GetU32, Nat32;
  }

  function Word(tag: byte, bits: bv64): Value {
    if tag == TYPE_I64 then I64(bits) else if tag == TYPE_U64 then U64(bits) else F64(bits)
  }

  function Text(tag: byte, data: seq<byte>): Value {
    if tag == TYPE_BYTES then Bytes(data) else Str(data)
  }

  function Decode(s: seq<byte>): Option<seq<Value>> {
    if s == [] then Some([])
    else match DecodeOne(s)
      case Malformed => None
      case Item(v, used) =>
        DecodeOneUsed(s);
        match Decode(s[used..])
        case None => None
        case Some(vs) => Some([v] + vs)
  }

  // ---------- the codec is a bijection ----------

  lemma DecodeOneEncode(v: Value, rest: seq<byte>)
    requires Writable(v)
    ensures DecodeOne(Encode(v) + rest) == Item(v, |Encode(v)|)
  {
    hide PutU64, GetU64, PutU32, GetU32, Bits32, Nat32;
    var s := Encode(v) + rest;
    match v
    case Null =>
    case Bool(flag) => assert s[1] == if flag then 1 else 0;
    case I64(bits) => assert s[1..9] == PutU64(bits); GetPut64(bits);
    case U64(bits) => assert s[1..9] == PutU64(bits); GetPut64(bits);
    case F64(bits) => assert s[1..9] == PutU64(bits); GetPut64(bits);
    case Bytes(data) => TextFront(s, data, rest);
    case Str(data) => TextFront(s, data, rest);
  }

  lemma TextFront(s: seq<byte>, data: seq<byte>, rest: seq<byte>)
    requires |data| < U32_LIMIT && s != [] && s[1..] == PutU32(Bits32(|data|)) + data + rest
    ensures |s| >= 5 + |data| && Nat32(GetU32(s[1..5])) == |data| && s[5..][..|data|] == data
  {
    hide PutU32, GetU32, Bits32, Nat32;
    assert s[1..5] == s[1..][..4] == PutU32(Bits32(|data|));
    assert s[5..][..|data|] == s[1..][4..4 + |data|];
    GetPut32(Bits32(|data|));
    NatBits(|data|);
  }

  lemma EncodeDecodeOne(s: seq<byte>)
    requires s != [] && DecodeOne(s).Item?
    ensures var i := DecodeOne(s); 0 < i.used <= |s| && Writable(i.value) && Encode(i.value) == s[..i.used]
  {
    var tag := s[0];
    DecodeOneUsed(s);
    if tag == TYPE_BYTES || tag == TYPE_STRING {
      TextBack(s);
    } else {
      hide PutU64, GetU64, PutU32, GetU32, Bits32, Nat32, DecodeText;
      if tag == TYPE_BOOL {
        assert s[..2] == [s[0], s[1]];
      } else if tag != TYPE_NULL {
        PutGet64(s[1..9]);
      }
    }
  }

  lemma TextBack(s: seq<byte>)
    requires s != [] && DecodeOne(s).Item? && (s[0] == TYPE_BYTES || s[0] == TYPE_STRING)
    ensures var i := DecodeOne(s); 0 < i.used <= |s| && Writable(i.value) && Encode(i.value) == s[..i.used]
  {
    hide PutU64, GetU64, PutU32, GetU32, Bits32, Nat32;
    var head := s[1..5];
    var n := Nat32(GetU32(head));
    PutGet32(head);
    BitsNat(GetU32(head));
    assert s[..5 + n] == [s[0]] + (head + s[5..][..n]);
  }

  lemma {:induction false} EncodeAllCons(v: Value, vs: seq<Value>)
    requires Writable(v) && AllWritable(vs)
    ensures EncodeAll([v] + vs) == Encode(v) + EncodeAll(vs)
  {
    hide Encode, Writable;
    if vs == [] {
      assert [v] + vs == [v] && [v][..0] == [];
      assert EncodeAll([]) == [];
    } else {
      EncodeAllCons(v, vs[..|vs| - 1]);
      assert ([v] + vs)[..|vs|] == [v] + vs[..|vs| - 1];
    }
  }

  // Decoding what was written gives back the values ...
  lemma {:induction false} DecodeEncode(vs: seq<Value>)
    requires AllWritable(vs)
    ensures Decode(EncodeAll(vs)) == Some(vs)
  {
    hide Encode, DecodeOne;
    if vs != [] {
      var v, tail := vs[0], vs[1..];
      assert vs == [v] + tail;
      EncodeAllCons(v, tail);
      DecodeOneEncode(v, EncodeAll(tail));
      var s := Encode(v) + EncodeAll(tail);
      assert s[|Encode(v)|..] == EncodeAll(tail);
      DecodeEncode(tail);
    }
  }

  // ... and writing what was decoded gives back the bytes: no two payloads decode alike.
  lemma {:induction false} EncodeDecode(s: seq<byte>)
    requires Decode(s).Some?
    ensures AllWritable(Decode(s).value) && EncodeAll(Decode(s).value) == s
    decreases |s|
  {
    hide Encode, DecodeOne;
    if s != [] {
      var i := DecodeOne(s);
      DecodeOneUsed(s);
      EncodeDecodeOne(s);
      EncodeDecode(s[i.used..]);
      EncodeAllCons(i.value, Decode(s[i.used..]).value);
      assert s == s[..i.used] + s[i.used..];
    }
  }

  // What the decoder accepts is exactly what a writer can produce.
  lemma AcceptsExactly(s: seq<byte>)
    ensures Decode(s).Some? <==> exists vs :: AllWritable(vs) && EncodeAll(vs) == s
  {
    hide Decode, EncodeAll;
    if Decode(s).Some? {
      EncodeDecode(s);
      assert AllWritable(Decode(s).value);
    }
    forall vs | AllWritable(vs) && EncodeAll(vs) == s ensures Decode(s).Some? {
      DecodeEncode(vs);
    }
  }
}
