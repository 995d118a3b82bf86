/** The fixed arena of include/arena.h: equal slots, a watermark, and a free list threaded through the
    first word of each free slot. */
module Arena {
  import opened Sequences
  import opened Words

  const WORD: nat := 8

  // `n + a - 1` in a `size_t`.
  function Raised(n: nat): (r: nat)
    requires n < U64_LIMIT
    ensures r < U64_LIMIT
  {
    if n + WORD - 1 < U64_LIMIT then n + WORD - 1 else n + WORD - 1 - U64_LIMIT
  }

  // `m & ~(a - 1)`
  function Cleared(m: nat): nat
    requires m < U64_LIMIT
  {
    Nat64(Bits64(m) & 0xffff_ffff_ffff_fff8)
  }

  // `wirecall_arena_align`: add the word size minus one, clear the bits below the word size.
  function Align(n: nat): nat
    requires n < U64_LIMIT
  {
    Cleared(Raised(n))
  }

  // Clearing three bits rounds down to a multiple of eight.
  lemma ClearLowRounds(x: bv64)
    ensures Nat64(x & 0xffff_ffff_ffff_fff8) == Nat64(x) / WORD * WORD
  {
    hide High32, Low32, Nat32;
    ClearHigh(x);
    ClearBelow(x);
    ClearLow32Rounds(Low32(x));
    Rounded(Nat32(High32(x)), Nat32(Low32(x)));
  }

  lemma Rounded(h: nat, l: nat)
    ensures h * U32_LIMIT + l / WORD * WORD == (h * U32_LIMIT + l) / WORD * WORD
  {
    assert h * U32_LIMIT == h * (U32_LIMIT / WORD) * WORD;
    assert (h * (U32_LIMIT / WORD) * WORD + l) / WORD == h * (U32_LIMIT / WORD) + l / WORD;
  }

  lemma ClearHigh(x: bv64)
    ensures High32(x & 0xffff_ffff_ffff_fff8) == High32(x)
  {
  }

  lemma ClearBelow(x: bv64)
    ensures Low32(x & 0xffff_ffff_ffff_fff8) == Low32(x) & 0xffff_fff8
  {
  }

  lemma ClearLow32Rounds(y: bv32)
    ensures Nat32(y & 0xffff_fff8) == Nat32(y) / WORD * WORD
  {
    ClearLastByte(y);
    hide PutU32, ToNat;
    var s := PutU32(y);
    ClearLowByte(s[3]);
    JoinRounds(ToNat(s[0]), ToNat(s[1]), ToNat(s[2]), ToNat(s[3]));
  }

  lemma JoinRounds(a: nat, b: nat, c: nat, d: nat)
    ensures Join(a, b, c, d / WORD * WORD) == Join(a, b, c, d) / WORD * WORD
  {
    var k := a * 0x200000 + b * 0x2000 + c * 0x20;
    assert Join(a, b, c, d) == k * WORD + d;
    assert (k * WORD + d) / WORD == k + d / WORD;
  }

  lemma ClearLastByte(y: bv32)
    ensures var s, r := PutU32(y), PutU32(y & 0xffff_fff8);
            r[0] == s[0] && r[1] == s[1] && r[2] == s[2] && r[3] == s[3] & 0xf8
  {
  }

  lemma ClearLowByte(b: byte)
    ensures ToNat(b & 0xf8) == ToNat(b) / WORD * WORD
  {
    KeptBits(b);
    HighBits(b);
    hide Bit;
    var low := Bit(b, 1, 1) + Bit(b, 2, 2) + Bit(b, 4, 4);
    var high := Bit(b, 8, 1) + Bit(b, 16, 2) + Bit(b, 32, 4) + Bit(b, 64, 8) + Bit(b, 128, 16);
    assert ToNat(b) == high * WORD + low;
  }

  lemma KeptBits(b: byte)
    ensures var c := b & 0xf8;
            && Bit(c, 1, 1) == 0 && Bit(c, 2, 2) == 0 && Bit(c, 4, 4) == 0
            && Bit(c, 8, 8) == Bit(b, 8, 8) && Bit(c, 16, 16) == Bit(b, 16, 16) && Bit(c, 32, 32) == Bit(b, 32, 32)
            && Bit(c, 64, 64) == Bit(b, 64, 64) && Bit(c, 128, 128) == Bit(b, 128, 128)
  {
  }

  lemma HighBits(b: byte)
    ensures Bit(b, 8, 8) == 8 * Bit(b, 8, 1) && Bit(b, 16, 16) == 8 * Bit(b, 16, 2)
    ensures Bit(b, 32, 32) == 8 * Bit(b, 32, 4)
    ensures Bit(b, 64, 64) == 8 * Bit(b, 64, 8) && Bit(b, 128, 128) == 8 * Bit(b, 128, 16)
    ensures Bit(b, 1, 1) + Bit(b, 2, 2) + Bit(b, 4, 4) < 8
  {
  }

  lemma ClearedRounds(m: nat)
    requires m < U64_LIMIT
    ensures Cleared(m) == m / WORD * WORD
  {
    hide Nat64, Bits64;
    NatBits64(m);
    ClearLowRounds(Bits64(m));
  }

  // The least multiple of the word size that is not below n, if a `size_t` can hold one; else 0.
  lemma AlignLeast(n: nat, m: nat)
    requires n < U64_LIMIT && m % WORD == 0 && n <= m
    ensures Align(n) % WORD == 0
    ensures n + WORD - 1 < U64_LIMIT ==> n <= Align(n) <= m
    ensures n + WORD - 1 >= U64_LIMIT ==> Align(n) == 0 && U64_LIMIT <= m
  {
    hide Cleared;
    ClearedRounds(Raised(n));
    assert m == m / WORD * WORD;
    assert n + WORD - 1 < U64_LIMIT ==> Raised(n) / WORD <= m / WORD;
    assert n + WORD - 1 >= U64_LIMIT ==> Raised(n) / WORD == 0;
    assert U64_LIMIT == U64_LIMIT / WORD * WORD;
  }

  function Address(base: nat, elem: nat, k: nat): nat { base + k * elem }

  // Slots are disjoint, aligned and inside the pages.
  lemma SlotsApart(base: nat, elem: nat, j: nat, k: nat)
    requires j < k
    ensures Address(base, elem, j) + elem <= Address(base, elem, k)
  {
    assert (j + 1) * elem <= k * elem;
  }

  lemma SlotAligned(base: nat, elem: nat, k: nat)
    requires base % WORD == 0 && elem % WORD == 0
    ensures Address(base, elem, k) % WORD == 0
  {
    var q := elem / WORD;
    assert k * elem == k * q * WORD;
    assert base + k * q * WORD == (base / WORD + k * q) * WORD;
  }

  lemma SameSlot(base: nat, elem: nat, j: nat, k: nat)
    requires 0 < elem && Address(base, elem, j) == Address(base, elem, k)
    ensures j == k
  {
    if j < k { SlotsApart(base, elem, j, k); }
    if k < j { SlotsApart(base, elem, k, j); }
  }

  // The free slots, first to last, each once, linked through their first words; 0 is the null pointer.
  ghost predicate Linked(words: map<nat, nat>, base: nat, elem: nat, head: nat, free: seq<nat>)
    decreases |free|
  {
    if free == [] then head == 0
    else
      && head == Address(base, elem, free[0]) && head in words
      && Linked(words, base, elem, words[head], free[1..])
  }

  // Writing the first word of a slot that is not on the list.
  lemma {:induction false} LinkedElsewhere(words: map<nat, nat>, base: nat, elem: nat, head: nat, free: seq<nat>,
                                          k: nat, value: nat)
    requires Linked(words, base, elem, head, free) && k !in free && 0 < elem
    ensures Linked(words[Address(base, elem, k) := value], base, elem, head, free)
    decreases |free|
  {
    if free != [] {
      if head == Address(base, elem, k) { SameSlot(base, elem, free[0], k); }
      LinkedElsewhere(words, base, elem, words[head], free[1..], k, value);
    }
  }

  // Every slot below the watermark is either live or free.
  ghost predicate Partition(live: set<nat>, free: seq<nat>, watermark: nat) {
    && Distinct(free)
    && (forall k: nat :: k in live || k in free <==> k < watermark)
    && (forall k :: k in live ==> k !in free)
    && |live| + |free| == watermark
  }

  predicate Layout(base: nat, elem: nat) {
    0 < base && base % WORD == 0 && WORD <= elem && elem % WORD == 0
  }

  class FixedArena {
    const base: nat
    const elem: nat
    const capacity: nat
    var watermark: nat
    var freeList: nat
    var words: map<nat, nat>
    ghost var live: set<nat>
    ghost var free: seq<nat>

    ghost predicate Valid()
      reads this
    {
      && Layout(base, elem)
      && watermark <= capacity
      && Partition(live, free, watermark)
      && Linked(words, base, elem, freeList, free)
    }

    // `wirecall_fixed_arena_init` on pages that the system returned at `pages`.
    constructor (size: nat, capacity: nat, pages: nat)
      requires 0 < pages && pages % WORD == 0 && size + WORD <= U64_LIMIT
      requires pages + Align(if size < WORD then WORD else size) * capacity <= U64_LIMIT
      ensures Valid() && live == {} && this.capacity == capacity && base == pages && size <= elem
    {
      hide Align;
      var n := if size < WORD then WORD else size;
      AlignLeast(n, (n + WORD) * WORD);
      base, elem, this.capacity := pages, Align(n), capacity;
      watermark, freeList, words := 0, 0, map[];
      live, free := {}, [];
    }

    // `wirecall_fixed_arena_alloc`: null exactly when `capacity` slots are live.
    method Alloc() returns (p: nat, ghost slot: nat)
      requires Valid()
      modifies this
      ensures Valid()
      ensures p == 0 <==> |old(live)| == capacity
      ensures p == 0 ==> live == old(live) && words == old(words)
      ensures p != 0 ==> slot !in old(live) && slot < capacity && live == old(live) + {slot}
      ensures p != 0 ==> p == Address(base, elem, slot) && words == old(words)[p := 0]
    {
      Full(live, free, watermark, capacity);
      Head(words, base, elem, freeList, free);
      NotNull(base, elem, watermark);
      hide Partition, Linked, Layout, Address;
      p, slot := 0, 0;
      if freeList != 0 {
        slot := free[0];
        p := freeList;
        freeList := words[p];
        TakeFree(live, free, watermark);
        free, live := free[1..], live + {slot};
      } else if watermark < capacity {
        slot := watermark;
        p := Address(base, elem, watermark);
        TakeNext(live, free, watermark);
        watermark, live := watermark + 1, live + {slot};
      }
      if p != 0 {
        LinkedElsewhere(words, base, elem, freeList, free, slot, 0);
        words := words[p := 0];
      }
    }

    // `wirecall_fixed_arena_free`: of null, or of a live slot.
    method Free(p: nat, ghost slot: nat)
      requires Valid() && (p == 0 || (slot in live && p == Address(base, elem, slot)))
      modifies this
      ensures Valid() && live == if p == 0 then old(live) else old(live) - {slot}
      ensures watermark == old(watermark)
    {
      if p == 0 { return; }
      LinkedElsewhere(words, base, elem, freeList, free, slot, freeList);
      GiveBack(live, free, watermark, slot);
      words := words[p := freeList];
      freeList := p;
      free, live := [slot] + free, live - {slot};
      assert free[1..] == old(free);
    }

    // The owner of a live slot may write what it likes there.
    method Store(p: nat, value: nat, ghost slot: nat)
      requires Valid() && slot in live && p == Address(base, elem, slot)
      modifies this`words
      ensures Valid() && words == old(words)[p := value]
    {
      LinkedElsewhere(words, base, elem, freeList, free, slot, value);
      words := words[p := value];
    }

    // A live slot is aligned and within the pages.
    lemma LiveInside(k: nat)
      requires Valid() && k in live
      ensures var a := Address(base, elem, k);
              a % WORD == 0 && 0 < base <= a && a + elem <= Address(base, elem, capacity)
    {
      hide Linked;
      SlotAligned(base, elem, k);
      assert k < watermark;
      SlotsApart(base, elem, k, capacity);
    }

    // Two live slots do not overlap.
    lemma LiveApart(j: nat, k: nat)
      requires Valid() && j in live && k in live && j != k
      ensures var a, b := Address(base, elem, j), Address(base, elem, k); a + elem <= b || b + elem <= a
    {
      if j < k { SlotsApart(base, elem, j, k); } else { SlotsApart(base, elem, k, j); }
    }
  }

  lemma NotNull(base: nat, elem: nat, k: nat)
    requires Layout(base, elem)
    ensures 0 < Address(base, elem, k) && 0 < elem
  {
  }

  lemma Full(live: set<nat>, free: seq<nat>, watermark: nat, capacity: nat)
    requires Partition(live, free, watermark) && watermark <= capacity
    ensures |live| == capacity <==> free == [] && watermark == capacity
    ensures forall k :: k in free ==> k < watermark
  {
  }

  lemma Head(words: map<nat, nat>, base: nat, elem: nat, head: nat, free: seq<nat>)
    requires Linked(words, base, elem, head, free) && 0 < base
    ensures head == 0 <==> free == []
    ensures free != [] ==> head in words && Linked(words, base, elem, words[head], free[1..])
    ensures free != [] ==> head == Address(base, elem, free[0])
  {
  }

  lemma TakeFree(live: set<nat>, free: seq<nat>, watermark: nat)
    requires Partition(live, free, watermark) && free != []
    ensures Partition(live + {free[0]}, free[1..], watermark) && free[0] !in live && free[0] !in free[1..]
  {
    assert free[0] in free;
    forall k ensures k in free <==> k == free[0] || k in free[1..] {
      assert free == [free[0]] + free[1..];
    }
  }

  lemma TakeNext(live: set<nat>, free: seq<nat>, watermark: nat)
    requires Partition(live, free, watermark)
    ensures Partition(live + {watermark}, free, watermark + 1) && watermark !in free
  {
  }

  lemma GiveBack(live: set<nat>, free: seq<nat>, watermark: nat, slot: nat)
    requires Partition(live, free, watermark) && slot in live
    ensures Partition(live - {slot}, [slot] + free, watermark)
  {
    var longer := [slot] + free;
    forall k ensures k in longer <==> k == slot || k in free {
      if k == slot { assert longer[0] == slot; }
      if k in free { var i :| 0 <= i < |free| && free[i] == k; assert longer[i + 1] == k; }
    }
  }
}
