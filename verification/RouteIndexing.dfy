/** `route_index` and its split into a page and a slot within the page. */
module RouteIndexing {
  import opened Words
  import opened RouteTable

  // The finalizer of MurmurHash3: `x ^= x >> 33` around two multiplications.
  function Shifted(x: bv64): bv64 { x >> 33 }
  function Folded(x: bv64): bv64 { Xor(x, Shifted(x)) }

  const FIRST: nat := 0xff51afd7ed558ccd
  const SECOND: nat := 0xc4ceb9fe1a85ec53

  function Mix(x: bv64): bv64 {
    Folded(Times(Folded(Times(Folded(x), FIRST)), SECOND))
  }

  function RouteIndex(procId: bv64): bv32 {
    Low32(Mix(procId))
  }

  // ---------- what it distinguishes ----------

  lemma ShiftedFolds(a: bv64, b: bv64)
    ensures Shifted(Xor(a, b)) == Xor(Shifted(a), Shifted(b))
  {
  }

  lemma ShiftedOut(x: bv64)
    ensures Shifted(Shifted(x)) == 0
  {
  }

  lemma XorTwice(a: bv64, b: bv64)
    ensures Xor(Xor(a, b), b) == a && Xor(a, 0) == a
  {
  }

  lemma FoldedTwice(x: bv64)
    ensures Folded(Folded(x)) == x
  {
    hide Xor, Shifted;
    ShiftedFolds(x, Shifted(x));
    ShiftedOut(x);
    XorTwice(x, Shifted(x));
    XorTwice(Shifted(x), 0);
  }

  // The multipliers are odd and so have inverses modulo 2^64.
  lemma MixInjective(x: bv64, y: bv64)
    requires Mix(x) == Mix(y)
    ensures x == y
  {
    hide Folded, Times;
    var a, b := Times(Folded(x), FIRST), Times(Folded(y), FIRST);
    FoldedTwice(Times(Folded(a), SECOND));
    FoldedTwice(Times(Folded(b), SECOND));
    TimesInjective(Folded(a), Folded(b), SECOND, 0x9cb4b2f8129337db, 0x7878e44812b2d581);
    FoldedTwice(a);
    FoldedTwice(b);
    TimesInjective(Folded(x), Folded(y), FIRST, 0x4f74430c22a54005, 0x4f3e2925cb7c5b4e);
    FoldedTwice(x);
    FoldedTwice(y);
  }

  // Ids share an index only because half of the mixed bits are dropped: two that do differ in the other half.
  lemma SharedIndex(x: bv64, y: bv64)
    ensures RouteIndex(x) == RouteIndex(y) && High32(Mix(x)) == High32(Mix(y)) <==> x == y
  {
    hide Mix, Low32, High32;
    SplitPack(Mix(x));
    SplitPack(Mix(y));
    if Mix(x) == Mix(y) { MixInjective(x, y); }
  }

  // ---------- pages and slots ----------

  // WIRECALL_ROUTE_PAGE_BITS is 16.
  function SlotAt(index: bv32): Slot {
    Slot(Page(index >> 16), index & 0xffff)
  }

  function Home(pid: Pid): Slot {
    SlotAt(RouteIndex(pid.bits))
  }

  lemma Rejoined(i: bv32)
    ensures ((i >> 16) << 16) | (i & 0xffff) == i
    ensures i >> 16 < 0x10000 && i & 0xffff < 0x10000
  {
  }

  // The two-level table is a flat one: page and slot together determine the index, and both are
  // within the root and page sizes.
  lemma SlotIsIndex(i: bv32, j: bv32)
    ensures SlotAt(i) == SlotAt(j) <==> i == j
    ensures SlotAt(i).page.bits < 0x10000 && SlotAt(i).index < 0x10000
  {
    Rejoined(i);
    Rejoined(j);
  }

  // Two process ids share a chain exactly if they mix to the same index.
  lemma SharedChain(p: Pid, q: Pid)
    ensures Home(p) == Home(q) <==> RouteIndex(p.bits) == RouteIndex(q.bits)
  {
    hide RouteIndex, SlotAt;
    SlotIsIndex(RouteIndex(p.bits), RouteIndex(q.bits));
  }
}
