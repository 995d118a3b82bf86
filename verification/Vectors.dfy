/** Published and worked values: the test vector of the SipHash paper, and one packet in all its bytes. */
module Vectors {
  import opened Options
  import opened Words
  import opened Headers
  import opened Checksum
  import opened SipHash
  import opened Integrity
  import opened RouteTable
  import opened RouteIndexing

  // ---------- appendix A of the SipHash paper ----------

  // The key 00 01 .. 0f as two little-endian words, and the message 00 01 .. 0e.
  const K0: bv64 := 0x0706050403020100
  const K1: bv64 := 0x0f0e0d0c0b0a0908
  const MESSAGE: seq<byte> := [0, 1, 2, 3, 4, 5, 6, 7, 8, 9, 10, 11, 12, 13, 14]

  const PAPER_START: V :=
    V(0x7469686173716475, 0x6b617f6d656e6665, 0x6b7f62616d677361, 0x7b6b696e727e6c7b)
  const PAPER_1: V :=
    V(0x4a017198de0a59e0, 0x0d52f6f62a4f59a4, 0x634cb3577b01fd3d, 0xa5224d6f55c7d9c8)
  const PAPER_2: V :=
    V(0x3c85b3ab6f55be51, 0x414fc3fb98efe374, 0xccf13ea527b9f4bd, 0x5293f5da84008f82)

  lemma Paper1()
    ensures Compress(PAPER_START, 0x0706050403020100) == PAPER_1
  {
    var a := V(0x7469686173716475, 0x6b617f6d656e6665, 0x6b7f62616d677361, 0x7c6d6c6a717c6d7b);
    var b := V(0x64668a929363847f, 0x4ed232083d9aa8dc, 0xf2f74892d8141a2e, 0x9290f9810552f4a8);
    assert SipRound(a) == b;
    assert SipRound(b) == V(0x4d07749cdd0858e0, 0x0d52f6f62a4f59a4, 0x634cb3577b01fd3d, 0xa5224d6f55c7d9c8);
    hide SipRound;
  }

  lemma Paper2()
    ensures Compress(PAPER_1, 0x0f0e0d0c0b0a0908) == PAPER_2
  {
    var a := V(0x4a017198de0a59e0, 0x0d52f6f62a4f59a4, 0x634cb3577b01fd3d, 0xaa2c40635ecdd0c0);
    var b := V(0x557560fb6063d060, 0x4c8e675bd961133e, 0xbd3d002b1703a181, 0xfb9441179a4a7315);
    assert SipRound(a) == b;
    assert SipRound(b) == V(0x338bbea7645fb759, 0x414fc3fb98efe374, 0xccf13ea527b9f4bd, 0x5293f5da84008f82);
    hide SipRound;
  }

  lemma PaperEnd()
    ensures Finalize(PAPER_2) == 0xa129ca6149be45e5
  {
    var a := V(0x3c85b3ab6f55be51, 0x414fc3fb98efe374, 0xccf13ea527b9f442, 0x5293f5da84008f82);
    var b := V(0xf2a55244a20e48fe, 0xac5ad16ccc3ca6e4, 0x9fe5adb0a52f393a, 0xfd41d55e88f30308);
    var c := V(0xb6c3fbdecc2ae4b4, 0x1638c86adc6b3cf0, 0x28b8b6ab62553d46, 0xc9465e86ec43eb95);
    var d := V(0x58101b167209a5e6, 0xf8792ae75b66e7dd, 0x1da14c3ec7f0b4f7, 0x7624ba8a41bc4ad9);
    assert SipRound(a) == b;
    assert SipRound(b) == c;
    assert SipRound(c) == d;
    assert SipRound(d) == V(0xf6bcd53893fecff1, 0x54b9964c7ea0d937, 0x1b38329c099bb55a, 0x1814bb89ad7be679);
    hide SipRound;
  }

  lemma WordIs(s: seq<byte>, x: bv64)
    requires |s| == 8 && GetU64([s[7], s[6], s[5], s[4], s[3], s[2], s[1], s[0]]) == x
    ensures LoadLE(s) == x
  {
    hide LoadLE, GetU64;
    LoadReversed(s);
  }

  lemma ByteIs(b: byte, n: nat)
    requires ToNat(b) == n
    ensures OfNat(n) == b
  {
    hide ToNat, OfNat;
    OfToNat(b);
  }

  lemma LastIs(rest: seq<byte>, length: nat, b: byte, x: bv64)
    requires |rest| == 7 && ToNat(b) == length % 256
    requires GetU64([b, rest[6], rest[5], rest[4], rest[3], rest[2], rest[1], rest[0]]) == x
    ensures LastWord(rest, length) == x
  {
    hide LoadLE, OfNat, LastWord, ToNat, GetU64;
    ByteIs(b, length % 256);
    LastWordPads(rest, length);
    assert rest + seq(0, _ => 0) + [b] == rest + [b];
    WordIs(rest + [b], x);
  }

  lemma AbsorbNone(v: V)
    ensures AbsorbAll(v, []) == v
  {
  }

  lemma PaperWords()
    ensures LoadLE([0, 1, 2, 3, 4, 5, 6, 7]) == K0 && LastWord([8, 9, 10, 11, 12, 13, 14], 15) == 0x0f0e0d0c0b0a0908
  {
    hide LoadLE, OfNat, LastWord;
    WordIs([0, 1, 2, 3, 4, 5, 6, 7], K0);
    LastIs([8, 9, 10, 11, 12, 13, 14], 15, 15, 0x0f0e0d0c0b0a0908);
  }

  // SipHash-2-4 of the message under the key.
  lemma PaperVector()
    ensures SipHash24(K0, K1, MESSAGE) == 0xa129ca6149be45e5
  {
    assert Start(K0, K1) == PAPER_START;
    hide Start, Compress, Finalize, AbsorbAll, LoadLE, LastWord;
    var w := [0, 1, 2, 3, 4, 5, 6, 7];
    assert MESSAGE[..8] == [] + w && MESSAGE[8..] == [8, 9, 10, 11, 12, 13, 14];
    AbsorbNone(PAPER_START);
    AbsorbSnoc(PAPER_START, [], w);
    PaperWords();
    Paper1();
    Paper2();
    PaperEnd();
  }

  // ---------- one packet ----------

  // A call of procedure 0x0102030405060708 with 9 bytes of payload, under both codes.
  const PAYLOAD: seq<byte> := [119, 105, 114, 101, 99, 97, 108, 108, 33]
  const KEY: Key := [0, 1, 2, 3, 4, 5, 6, 7, 8, 9, 10, 11, 12, 13, 14, 15]
  const PLAIN: Header := Header(OP_RPC, 0, 0x0102030405060708, 9, 0x1112131415161718, 0, 0)
  const SUM: bv32 := 0x04a858e3
  const MAC: bv64 := 0x9424eea4fa28c5e8

  lemma TimesIs(x: bv64, n: nat, c: nat, y: bv64, m: nat, q: nat)
    requires Nat64(x) == n && Nat64(y) == m && n * c == q * U64_LIMIT + m
    ensures Times(x, c) == y
  {
    hide Nat64, Bits64;
    BitsNat64(y);
    assert n * c % U64_LIMIT == m;
  }

  lemma NatIs(x: bv64, h: bv32, l: bv32, n: nat, m: nat)
    requires High32(x) == h && Low32(x) == l && Nat32(h) == n && Nat32(l) == m
    ensures Nat64(x) == n * U32_LIMIT + m
  {
  }

  lemma Times1()
    ensures Times(0xb511439581305866, A) == 0xbd60d9c27ddb1fb6
  {
    hide Times, Nat64;
    NatIs(0xb511439581305866, 0xb5114395, 0x81305866, 3037807509, 2167429222);
    NatIs(0xbd60d9c27ddb1fb6, 0xbd60d9c2, 0x7ddb1fb6, 3177241026, 2111512502);
    TimesIs(0xb511439581305866, 13047283904865654886, A, 0xbd60d9c27ddb1fb6, 13646146300290998198,
            9752072068808016206);
  }

  lemma Times2()
    ensures Times(0xbd60d9d5d1c027f9, B) == 0x47f0c6d76fb53a93
  {
    hide Times, Nat64;
    NatIs(0xbd60d9d5d1c027f9, 0xbd60d9d5, 0xd1c027f9, 3177241045, 3519031289);
    NatIs(0x47f0c6d76fb53a93, 0x47f0c6d7, 0x6fb53a93, 1206961879, 1874147987);
    TimesIs(0xbd60d9d5d1c027f9, 13646146383302895609, B, 0x47f0c6d76fb53a93, 5183861799697857171,
            7932548871699109938);
  }

  lemma Times3()
    ensures Times(0x0aa3db1cce3389ff, A) == 0x577edfd6e8cbd447
  {
    hide Times, Nat64;
    NatIs(0x0aa3db1cce3389ff, 0x0aa3db1c, 0xce3389ff, 178510620, 3459484159);
    NatIs(0x577edfd6e8cbd447, 0x577edfd6, 0xe8cbd447, 1467932630, 3905672263);
    TimesIs(0x0aa3db1cce3389ff, 766697278348167679, A, 0x577edfd6e8cbd447, 6304722642486940743,
            573060812344397203);
  }

  lemma Times4()
    ensures Times(0x577edfdc07102e9a, B) == 0x97349d7ee86d015e
  {
    hide Times, Nat64;
    NatIs(0x577edfdc07102e9a, 0x577edfdc, 0x07102e9a, 1467932636, 118501018);
    NatIs(0x97349d7ee86d015e, 0x97349d7e, 0xe86d015e, 2536807806, 3899457886);
    TimesIs(0x577edfdc07102e9a, 6304722664469573274, B, 0x97349d7ee86d015e, 10895506566906970462,
            3664955603847842777);
  }

  lemma Times5()
    ensures Times(0x0100000004000021, A) == 0x17d4c8a79d819cd9
  {
    hide Times, Nat64;
    NatIs(0x0100000004000021, 0x01000000, 0x04000021, 16777216, 67108897);
    NatIs(0x17d4c8a79d819cd9, 0x17d4c8a7, 0x9d819cd9, 399820967, 2642517209);
    TimesIs(0x0100000004000021, 72057594105036833, A, 0x17d4c8a79d819cd9, 1717217980162612441,
            53858784398427676);
  }

  lemma Times6()
    ensures Times(0x17d4c8a56718882a, B) == 0xe7d62a297299c88e
  {
    hide Times, Nat64;
    NatIs(0x17d4c8a56718882a, 0x17d4c8a5, 0x6718882a, 399820965, 1729660970);
    NatIs(0xe7d62a297299c88e, 0xe7d62a29, 0x7299c88e, 3889572393, 1922680974);
    TimesIs(0x17d4c8a56718882a, 1717217970659821610, B, 0xe7d62a297299c88e, 16705586225282140302,
            998224340630440488);
  }

  lemma Times7()
    ensures Times(0xfa717db5ecdaebba, A) == 0xbbed6e4c48b9bb6a
  {
    hide Times, Nat64;
    NatIs(0xfa717db5ecdaebba, 0xfa717db5, 0xecdaebba, 4201741749, 3973770170);
    NatIs(0xbbed6e4c48b9bb6a, 0xbbed6e4c, 0x48b9bb6a, 3152899660, 1220131690);
    TimesIs(0xfa717db5ecdaebba, 18046343402166610874, A, 0xbbed6e4c48b9bb6a, 13541600928489651050,
            13488573002596815831);
  }

  lemma Times8()
    ensures Times(0xbbed6e5b351472e3, B) == 0x5ad0b081ebd98961
  {
    hide Times, Nat64;
    NatIs(0xbbed6e5b351472e3, 0xbbed6e5b, 0x351472e3, 3152899675, 890532579);
    NatIs(0x5ad0b081ebd98961, 0x5ad0b081, 0xebd98961, 1523626113, 3956902241);
    TimesIs(0xbbed6e5b351472e3, 13541600992584561379, B, 0x5ad0b081ebd98961, 6543924330623502689,
            7871776299143476885);
  }

  lemma Times9()
    ensures Times(0x62f76f458b859236, C) == 0x8efaf1d4a57acb82
  {
    hide Times, Nat64;
    NatIs(0x62f76f458b859236, 0x62f76f45, 0x8b859236, 1660383045, 2340786742);
    NatIs(0x8efaf1d4a57acb82, 0x8efaf1d4, 0xa57acb82, 2398810580, 2776288130);
    TimesIs(0x62f76f458b859236, 7131290879448683062, C, 0x8efaf1d4a57acb82, 10302812993175079810,
            1684636129804163727);
  }

  lemma Times10()
    ensures Times(0x1a68572b5a65947f, C) == 0xde07c9beba5a6f2d
  {
    hide Times, Nat64;
    NatIs(0x1a68572b5a65947f, 0x1a68572b, 0x5a65947f, 443045675, 1516606591);
    NatIs(0xde07c9beba5a6f2d, 0xde07c9be, 0xba5a6f2d, 3725052350, 3126488877);
    TimesIs(0x1a68572b5a65947f, 1902866686275851391, C, 0xde07c9beba5a6f2d, 15998978022264434477,
            449517208607938669);
  }

  lemma MixSeed()
    ensures Mix64(0xb51143975575563b) == 0x47f0c6d7e054b73d
  {
    hide Times;
    Times1();
    Times2();
    assert Xs(0xb51143975575563b, 30) == 0xb511439581305866;
    assert Xs(0xbd60d9c27ddb1fb6, 27) == 0xbd60d9d5d1c027f9;
    assert Xs(0x47f0c6d76fb53a93, 31) == 0x47f0c6d7e054b73d;
  }

  lemma MixWord()
    ensures Mix64(0x0aa3db1ce4bce58c) == 0x97349d7fc6043ba3
  {
    hide Times;
    Times3();
    Times4();
    assert Xs(0x0aa3db1ce4bce58c, 30) == 0x0aa3db1cce3389ff;
    assert Xs(0x577edfd6e8cbd447, 27) == 0x577edfdc07102e9a;
    assert Xs(0x97349d7ee86d015e, 31) == 0x97349d7fc6043ba3;
  }

  lemma MixRest()
    ensures Mix64(0x0100000000000021) == 0xe7d62a28bd359cdc
  {
    hide Times;
    Times5();
    Times6();
    assert Xs(0x0100000000000021, 30) == 0x0100000004000021;
    assert Xs(0x17d4c8a79d819cd9, 27) == 0x17d4c8a56718882a;
    assert Xs(0xe7d62a297299c88e, 31) == 0xe7d62a28bd359cdc;
  }

  lemma MixHash()
    ensures Mix64(0xfa717db6051f1d62) == 0x5ad0b0815e78e862
  {
    hide Times;
    Times7();
    Times8();
    assert Xs(0xfa717db6051f1d62, 30) == 0xfa717db5ecdaebba;
    assert Xs(0xbbed6e4c48b9bb6a, 27) == 0xbbed6e5b351472e3;
    assert Xs(0x5ad0b081ebd98961, 31) == 0x5ad0b0815e78e862;
  }

  lemma AbsorbWord()
    ensures Absorb(0xe786dbb398e9d312, 0x97349d7fc6043ba3) == 0xab64a5cbf03f79b7
  {
    hide Times;
    Times9();
    assert Rotl27(Xor(0xe786dbb398e9d312, 0x97349d7fc6043ba3)) == 0x62f76f458b859236;
  }

  lemma AbsorbRest()
    ensures Absorb(0xab64a5cbf03f79b7, 0xe7d62a28bd359cdc) == 0xfa717db6051f1d62
  {
    hide Times;
    Times10();
    assert Rotl27(Xor(0xab64a5cbf03f79b7, 0xe7d62a28bd359cdc)) == 0x1a68572b5a65947f;
  }

  lemma NineIs()
    ensures Bits32(9) == 9
  {
    assert Nat32(9) == 9;
    hide Bits32, Nat32;
    BitsNat(9);
  }

  lemma PacketSeed()
    ensures Xor(Seed(PLAIN), 0xa0761d6478bd642f) == 0xe786dbb398e9d312
  {
    hide Mix64, Bits32;
    NineIs();
    var m := MetaBits(1, 0, 9);
    assert Xor(Xor(Xor(0x9e3779b97f4a7c15, m), Rotl17(0x0102030405060708)), Rotl41(0x1112131415161718))
        == 0xb51143975575563b;
    MixSeed();
  }

  lemma PacketRest()
    ensures Tail([33]) == 0xe7d62a28bd359cdc
  {
    hide Mix64, OfNat;
    ByteIs(1, 1);
    assert LoadLE([33]) == 33 by { assert [33][1..] == []; }
    assert Xor(33, LenTag(1)) == 0x0100000000000021;
    MixRest();
  }

  lemma PacketWord()
    ensures Full(LoadLE(PAYLOAD[..8])) == 0x97349d7fc6043ba3
  {
    hide Mix64;
    assert PAYLOAD[..8] == [119, 105, 114, 101, 99, 97, 108, 108];
    WordIs(PAYLOAD[..8], 0x6c6c616365726977);
    hide LoadLE;
    MixWord();
  }

  // Eight bytes and a rest.
  lemma HashTwo(hash: bv64, a: seq<byte>, b: seq<byte>)
    requires |a| == 8 && 0 < |b| < 8
    ensures HashBytes(hash, a + b) == Absorb(Absorb(hash, Full(LoadLE(a))), Tail(b))
  {
    hide Absorb, Full, Tail, LoadLE;
    assert (a + b)[..8] == a && (a + b)[8..] == b;
  }

  lemma PacketHash()
    ensures HashBytes(0xe786dbb398e9d312, PAYLOAD) == 0xfa717db6051f1d62
  {
    hide Absorb, Full, Tail, LoadLE, HashBytes;
    assert PAYLOAD == PAYLOAD[..8] + [33];
    HashTwo(0xe786dbb398e9d312, PAYLOAD[..8], [33]);
    PacketWord();
    PacketRest();
    AbsorbWord();
    AbsorbRest();
  }

  // The checksum of the packet.
  lemma ChecksumVector()
    ensures PacketChecksum(PLAIN, PAYLOAD) == SUM
  {
    hide Mix64, Seed, HashBytes, Absorb;
    PacketSeed();
    PacketHash();
    MixHash();
    assert Fold(0x5ad0b0815e78e862) == SUM;
  }

  const PACKET_START: V :=
    V(0x7469686173716475, 0x6b617f6d656e6665, 0x6b7f62616d677361, 0x7b6b696e727e6c7b)
  const PACKET_1: V :=
    V(0xf54dfde34aadbb37, 0xd6402d126cc0a1ff, 0xdbf1315d62a25b1b, 0x1cfbb6fffac8d20e)
  const PACKET_2: V :=
    V(0x8e94fbd4aa66e464, 0x7b3ee4b7a3edce85, 0x6e6201d46687f08a, 0xce6132f80f99a6ea)
  const PACKET_3: V :=
    V(0xd9ff108d0fdfc3bb, 0xfc24fd9f8abf4cef, 0x4e5f079982eeb5f7, 0xa07223520fb7c1d6)
  const PACKET_4: V :=
    V(0xa4ba119a2410ffa3, 0xaad15e8fcf078c43, 0x0015d25b50f88f2e, 0x47f8dd64f63d6dcf)
  const PACKET_5: V :=
    V(0xfca92bf13dc6b6a5, 0xdc84196c00213d37, 0x3f4c089bc9015ec5, 0x9e705e582877bde7)

  lemma Packet1()
    ensures Compress(PACKET_START, 0x0605040302010001) == PACKET_1
  {
    var a := V(0x7469686173716475, 0x6b617f6d656e6665, 0x6b7f62616d677361, 0x7d6e6d6d707f6c7a);
    var b := V(0x5e608a8c91678a83, 0x4fd333173e97a7df, 0xf1fa4791d9151b31, 0xa856b918c7d73a94);
    assert SipRound(a) == b;
    assert SipRound(b) == V(0xf348f9e048acbb36, 0xd6402d126cc0a1ff, 0xdbf1315d62a25b1b, 0x1cfbb6fffac8d20e);
    hide SipRound;
  }

  lemma Packet2()
    ensures Compress(PACKET_1, 0x1211090000000807) == PACKET_2
  {
    var a := V(0xf54dfde34aadbb37, 0xd6402d126cc0a1ff, 0xdbf1315d62a25b1b, 0x0eeabffffac8da09);
    var b := V(0x0c9268cc52f066c3, 0x77d31e684f41417a, 0x00bcdd22b90858cb, 0x7e22848b2b3ac242);
    assert SipRound(a) == b;
    assert SipRound(b) == V(0x9c85f2d4aa66ec63, 0x7b3ee4b7a3edce85, 0x6e6201d46687f08a, 0xce6132f80f99a6ea);
    hide SipRound;
  }

  lemma Packet3()
    ensures Compress(PACKET_2, 0xa804181716151413) == PACKET_3
  {
    var a := V(0x8e94fbd4aa66e464, 0x7b3ee4b7a3edce85, 0x6e6201d46687f08a, 0x66652aef198cb2f9);
    var b := V(0x4c7ce8383cc1a672, 0x83efaebd4c856b9b, 0x7798c111aa0c41b5, 0xe59ab580801e6374);
    assert SipRound(a) == b;
    assert SipRound(b) == V(0x71fb089a19cad7a8, 0xfc24fd9f8abf4cef, 0x4e5f079982eeb5f7, 0xa07223520fb7c1d6);
    hide SipRound;
  }

  lemma Packet4()
    ensures Compress(PACKET_3, 0x697709000000e358) == PACKET_4
  {
    var a := V(0xd9ff108d0fdfc3bb, 0xfc24fd9f8abf4cef, 0x4e5f079982eeb5f7, 0xc9052a520fb7228e);
    var b := V(0xd7d54f07864f1fac, 0x9e0ad762dbf4549c, 0x05a8c7b360fc3167, 0x1c434a65b648b96b);
    assert SipRound(a) == b;
    assert SipRound(b) == V(0xcdcd189a24101cfb, 0xaad15e8fcf078c43, 0x0015d25b50f88f2e, 0x47f8dd64f63d6dcf);
    hide SipRound;
  }

  lemma Packet5()
    ensures Compress(PACKET_4, 0x27216c6c61636572) == PACKET_5
  {
    var a := V(0xa4ba119a2410ffa3, 0xaad15e8fcf078c43, 0x0015d25b50f88f2e, 0x60d9b108975e08bd);
    var b := V(0xc4ffa0243077675b, 0xd6d8080d179f5e12, 0xeae796a7c54a0d2c, 0x4343bd5ad62d5bb9);
    assert SipRound(a) == b;
    assert SipRound(b) == V(0xdb88479d5ca5d3d7, 0xdc84196c00213d37, 0x3f4c089bc9015ec5, 0x9e705e582877bde7);
    hide SipRound;
  }

  lemma PacketEnd()
    ensures Finalize(PACKET_5) == 0x9424eea4fa28c5e8
  {
    var a := V(0xfca92bf13dc6b6a5, 0xdc84196c00213d37, 0x3f4c089bc9015e3a, 0x9e705e582877bde7);
    var b := V(0xc1cc426125cbc7ae, 0xbd0f18cf1b22906c, 0x0bba246d37bd2c4d, 0x1145d1b16ffbbb27);
    var c := V(0x0e3cf1ff9b7b5161, 0xca6a8bb525eb8caa, 0xba9cb72fbac2ae72, 0x329f62015d42f8b2);
    var d := V(0x50a4227fb95f136f, 0xc51e93ddc6743dc9, 0xc8f92e6a770df23a, 0xded8348d0e2ef4c7);
    assert SipRound(a) == b;
    assert SipRound(b) == c;
    assert SipRound(c) == d;
    assert SipRound(d) == V(0x132fbe1187bdf036, 0x72ad815fae90dfee, 0x7da7509c6f8a718b, 0x88018176bc8f9bbb);
    hide SipRound;
  }

  // The 30 bytes of metadata.
  lemma PacketMeta()
    ensures Meta(PLAIN.(checksum := SUM)) + PutU32(Bits32(9))
         == [1, 0, 1, 2, 3, 4, 5, 6, 7, 8, 0, 0, 0, 9, 17,
             18, 19, 20, 21, 22, 23, 24, 4, 168, 88, 227, 0, 0, 0, 9]
  {
    hide Bits32;
    NineIs();
  }

  lemma PacketWords()
    ensures LoadLE([1, 0, 1, 2, 3, 4, 5, 6]) == 0x0605040302010001
    ensures LoadLE([7, 8, 0, 0, 0, 9, 17, 18]) == 0x1211090000000807
    ensures LoadLE([19, 20, 21, 22, 23, 24, 4, 168]) == 0xa804181716151413
    ensures LoadLE([88, 227, 0, 0, 0, 9, 119, 105]) == 0x697709000000e358
    ensures LastWord([114, 101, 99, 97, 108, 108, 33], 39) == 0x27216c6c61636572
  {
    hide LoadLE, OfNat, LastWord;
    WordIs([1, 0, 1, 2, 3, 4, 5, 6], 0x0605040302010001);
    WordIs([7, 8, 0, 0, 0, 9, 17, 18], 0x1211090000000807);
    WordIs([19, 20, 21, 22, 23, 24, 4, 168], 0xa804181716151413);
    WordIs([88, 227, 0, 0, 0, 9, 119, 105], 0x697709000000e358);
    LastIs([114, 101, 99, 97, 108, 108, 33], 39, 39, 0x27216c6c61636572);
  }

  lemma PacketAbsorbs()
    ensures AbsorbAll(PACKET_START, [1, 0, 1, 2, 3, 4, 5, 6, 7, 8, 0, 0, 0, 9, 17, 18,
                                       19, 20, 21, 22, 23, 24, 4, 168, 88, 227, 0, 0, 0, 9, 119, 105])
         == PACKET_4
  {
    hide Compress, AbsorbAll, LoadLE, LastWord;
    var a: seq<byte> := [1, 0, 1, 2, 3, 4, 5, 6];
    var b: seq<byte> := [7, 8, 0, 0, 0, 9, 17, 18];
    var c: seq<byte> := [19, 20, 21, 22, 23, 24, 4, 168];
    var d: seq<byte> := [88, 227, 0, 0, 0, 9, 119, 105];
    AbsorbNone(PACKET_START);
    AbsorbSnoc(PACKET_START, [], a);
    AbsorbSnoc(PACKET_START, [] + a, b);
    AbsorbSnoc(PACKET_START, [] + a + b, c);
    AbsorbSnoc(PACKET_START, [] + a + b + c, d);
    assert [] + a + b + c + d
        == [1, 0, 1, 2, 3, 4, 5, 6, 7, 8, 0, 0, 0, 9, 17, 18,
            19, 20, 21, 22, 23, 24, 4, 168, 88, 227, 0, 0, 0, 9, 119, 105];
    PacketWords();
    Packet1();
    Packet2();
    Packet3();
    Packet4();
  }

  lemma PacketKey()
    ensures LoadLE(KEY[..8]) == K0 && LoadLE(KEY[8..]) == K1
  {
    hide LoadLE;
    WordIs(KEY[..8], K0);
    WordIs(KEY[8..], K1);
  }

  lemma PacketInput()
    ensures var m := MacInput(PLAIN.(checksum := SUM), PAYLOAD);
            && |m| == 39 && m[32..] == [114, 101, 99, 97, 108, 108, 33]
            && m[..32] == [1, 0, 1, 2, 3, 4, 5, 6, 7, 8, 0, 0, 0, 9, 17, 18,
                           19, 20, 21, 22, 23, 24, 4, 168, 88, 227, 0, 0, 0, 9, 119, 105]
  {
    hide Meta, PutU32, Bits32;
    PacketMeta();
  }

  // The MAC of the packet with its checksum.
  lemma MacVector()
    ensures PacketMac(PLAIN.(checksum := SUM), PAYLOAD, KEY) == MAC
  {
    assert Start(K0, K1) == PACKET_START;
    hide Start, Compress, Finalize, AbsorbAll, LoadLE, LastWord, MacInput;
    PacketKey();
    PacketInput();
    PacketAbsorbs();
    PacketWords();
    Packet5();
    PacketEnd();
  }

  // Signed under both codes.
  lemma SignedVector()
    ensures Sign(PLAIN, PAYLOAD, Policy(true, true, Some(KEY))) == Some(PLAIN.(checksum := SUM, mac := MAC))
  {
    hide PacketChecksum, PacketMac;
    ChecksumVector();
    MacVector();
  }

  // And in bytes: which field is where, and its highest byte first.
  lemma LayoutVector()
    ensures Layout(PLAIN.(checksum := SUM, mac := MAC))
         == [1, 0, 1, 2, 3, 4, 5, 6, 7, 8, 0, 0, 0, 9, 17, 18, 19,
             20, 21, 22, 23, 24, 4, 168, 88, 227, 148, 36, 238, 164, 250, 40, 197, 232]
  {
    hide Bits32;
    NineIs();
  }

  // ---------- where a procedure is found ----------

  lemma Index1()
    ensures Times(0x010203040587068a, FIRST) == 0x1b3f48073285b482
  {
    hide Times, Nat64;
    NatIs(0x010203040587068a, 0x01020304, 0x0587068a, 16909060, 92735114);
    NatIs(0x1b3f48073285b482, 0x1b3f4807, 0x3285b482, 457132039, 847623298);
    TimesIs(0x010203040587068a, 72623859798836874, FIRST, 0x1b3f48073285b482, 1963367158306419842,
            72430694348274280);
  }

  lemma Index2()
    ensures Times(0x1b3f48073f1a1081, SECOND) == 0xd1af0fbb29af45d3
  {
    hide Times, Nat64;
    NatIs(0x1b3f48073f1a1081, 0x1b3f4807, 0x3f1a1081, 457132039, 1058672769);
    NatIs(0xd1af0fbb29af45d3, 0xd1af0fbb, 0x29af45d3, 3517910971, 699352531);
    TimesIs(0x1b3f48073f1a1081, 1963367158517469313, SECOND, 0xd1af0fbb29af45d3, 15109312571383956947,
            1509396219368971710);
  }

  // The page and the slot of the procedure that the packet calls.
  lemma IndexVector()
    ensures RouteIndex(0x0102030405060708) == 0x4178c20e
    ensures Home(Pid(0x0102030405060708)) == Slot(Page(0x4178), 0xc20e)
  {
    hide Times;
    assert Folded(0x0102030405060708) == 0x010203040587068a && Folded(0x1b3f48073285b482) == 0x1b3f48073f1a1081;
    assert Folded(0xd1af0fbb29af45d3) == 0xd1af0fbb4178c20e;
    Index1();
    Index2();
  }
}
