/** Signing and verifying packets, src/protocol.c. */
module Integrity {
  import opened Options
  import opened Words
  import opened Headers
  import opened Checksum
  import opened SipHash

  // The integrity flags of a peer and its 16-byte key, if it has one.
  datatype Policy = Policy(checksum: bool, mac: bool, key: Option<Key>)

  type Key = k: seq<byte> | |k| == 16 witness seq(16, _ => 0)

  // ---------- the MAC ----------

  // The 30 bytes of metadata, then the payload.
  function MacInput(h: Header, payload: seq<byte>): seq<byte>
    requires h.size < U32_LIMIT && |payload| < U32_LIMIT
  {
    Meta(h) + PutU32(Bits32(|payload|)) + payload
  }

  function PacketMac(h: Header, payload: seq<byte>, key: Key): bv64
    requires h.size < U32_LIMIT
  {
    if |payload| > MAX_PAYLOAD then 0
    else SipHash24(LoadLE(key[..8]), LoadLE(key[8..]), MacInput(h, payload))
  }

  // `wirecall_packet_mac`: one update for the metadata, one for the payload.
  method ComputeMac(h: Header, payload: seq<byte>, key: Key) returns (mac: bv64)
    requires h.size < U32_LIMIT
    ensures mac == PacketMac(h, payload, key)
  {
    hide Digest, Start, Meta, PutU32, Bits32, LoadLE, Holds;
    if |payload| > MAX_PAYLOAD { return 0; }
    var s := new Hasher(LoadLE(key[..8]), LoadLE(key[8..]));
    var meta := Meta(h) + PutU32(Bits32(|payload|));
    s.Update(meta);
    s.Update(payload);
    assert s.msg == MacInput(h, payload);
    mac := s.Finish();
  }

  // ---------- sign and verify ----------

  predicate Refused(h: Header, payload: seq<byte>, policy: Policy) {
    |payload| > MAX_PAYLOAD || h.size != |payload| || (policy.mac && policy.key.None?)
  }

  function Sign(h: Header, payload: seq<byte>, policy: Policy): Option<Header> {
    if Refused(h, payload, policy) then None
    else
      var h1 := h.(checksum := if policy.checksum then PacketChecksum(h, payload) else 0);
      Some(h1.(mac := if policy.mac then PacketMac(h1, payload, policy.key.value) else 0))
  }

  predicate Verify(h: Header, payload: seq<byte>, policy: Policy) {
    && !Refused(h, payload, policy)
    && (policy.checksum ==> PacketChecksum(h, payload) == h.checksum)
    && (policy.mac ==> PacketMac(h, payload, policy.key.value) == h.mac)
  }

  // Neither code covers itself: the checksum ignores checksum and MAC, the MAC ignores the MAC.
  lemma CodesIgnoreThemselves(h: Header, payload: seq<byte>, key: Key, checksum: bv32, mac: bv64)
    requires h.size < U32_LIMIT
    ensures PacketChecksum(h.(checksum := checksum, mac := mac), payload) == PacketChecksum(h, payload)
    ensures PacketMac(h.(mac := mac), payload, key) == PacketMac(h, payload, key)
  {
    hide Mix64, HashBytes, Fold, MetaBits, SipHash24, Xor;
    assert Seed(h.(checksum := checksum, mac := mac)) == Seed(h);
    assert Meta(h.(mac := mac)) == Meta(h);
  }

  // What a peer signs, a peer with the same policy accepts.
  lemma SignedVerifies(h: Header, payload: seq<byte>, policy: Policy)
    requires Sign(h, payload, policy).Some?
    ensures Verify(Sign(h, payload, policy).value, payload, policy)
    ensures var s := Sign(h, payload, policy).value; s == h.(checksum := s.checksum, mac := s.mac)
  {
    hide PacketChecksum, PacketMac;
    var h1 := h.(checksum := if policy.checksum then PacketChecksum(h, payload) else 0);
    var s := Sign(h, payload, policy).value;
    var key := if policy.key.Some? then policy.key.value else seq(16, _ => 0);
    CodesIgnoreThemselves(h, payload, key, h1.checksum, s.mac);
    CodesIgnoreThemselves(h1, payload, key, h1.checksum, s.mac);
  }

  // With both codes on, acceptance means exactly: this is what signing the packet produces.
  lemma VerifyIffSigned(h: Header, payload: seq<byte>, policy: Policy)
    requires policy.checksum && policy.mac
    ensures Verify(h, payload, policy) <==> Sign(h, payload, policy) == Some(h)
  {
    hide PacketChecksum, PacketMac;
    if Verify(h, payload, policy) {
      assert h.(checksum := h.checksum) == h;
    } else if Sign(h, payload, policy) == Some(h) {
      SignedVerifies(h, payload, policy);
    }
  }

  // What can be signed and what can be accepted: the size is right, and there is a key if the MAC is on.
  lemma SignsIff(h: Header, payload: seq<byte>, policy: Policy)
    ensures Sign(h, payload, policy).Some? <==>
              h.size == |payload| <= MAX_PAYLOAD && (policy.mac ==> policy.key.Some?)
    ensures Verify(h, payload, policy) ==> Sign(h, payload, policy).Some?
  {
    hide PacketChecksum, PacketMac;
  }

  // Acceptance under any policy: the codes that are on are those that signing produces. A peer that checks the MAC
  // alone does so over the checksum field as it came, which signing clears.
  lemma VerifyIff(h: Header, payload: seq<byte>, policy: Policy)
    ensures var s := Sign(h, payload, policy);
            && (policy.checksum && !policy.mac ==>
                  (Verify(h, payload, policy) <==> s.Some? && s.value.checksum == h.checksum))
            && (!policy.checksum && policy.mac && h.checksum == 0 ==>
                  (Verify(h, payload, policy) <==> s.Some? && s.value.mac == h.mac))
            && (!policy.checksum && !policy.mac ==> (Verify(h, payload, policy) <==> s.Some?))
            && (policy.checksum && policy.mac ==> (Verify(h, payload, policy) <==> s == Some(h)))
  {
    hide PacketChecksum, PacketMac;
    if policy.checksum && policy.mac { VerifyIffSigned(h, payload, policy); }
    assert h.checksum == 0 ==> h.(checksum := 0) == h;
  }

  // A code that is on has one value: packets that are accepted and differ in that field alone are the same.
  lemma OneCode(h: Header, g: Header, payload: seq<byte>, policy: Policy)
    requires Verify(h, payload, policy) && Verify(g, payload, policy)
    ensures policy.checksum && g == h.(checksum := g.checksum) ==> g == h
    ensures policy.mac && g == h.(mac := g.mac) ==> g == h
    ensures policy.checksum && policy.mac && g == h.(checksum := g.checksum, mac := g.mac) ==> g == h
  {
    hide PacketChecksum, PacketMac;
    var key := if policy.key.Some? then policy.key.value else seq(16, _ => 0);
    CodesIgnoreThemselves(h, payload, key, g.checksum, h.mac);
    CodesIgnoreThemselves(h, payload, key, g.checksum, g.mac);
    CodesIgnoreThemselves(h, payload, key, h.checksum, g.mac);
    assert h.(checksum := h.checksum) == h && h.(mac := h.mac) == h;
    assert h.(checksum := g.checksum, mac := h.mac) == h.(checksum := g.checksum);
  }

  // And it has one: whatever the checksum field holds, some MAC is accepted where the checksum is not looked at.
  lemma SomeMac(h: Header, payload: seq<byte>, policy: Policy)
    requires Sign(h, payload, policy).Some? && !policy.checksum
    ensures exists mac :: Verify(h.(mac := mac), payload, policy)
  {
    hide PacketChecksum, PacketMac;
    var key := if policy.key.Some? then policy.key.value else seq(16, _ => 0);
    var mac := PacketMac(h, payload, key);
    CodesIgnoreThemselves(h, payload, key, h.checksum, mac);
    assert Verify(h.(mac := mac), payload, policy);
  }
}
