/** The steps that build, publish, retire and free generations preserve the invariant. */
module RouteMutation {
  import opened Options
  import opened RouteTable
  import opened RouteInvariant
  import opened RouteSteps

  // ---------- the same nodes at other stages ----------

  // Same nodes; stages, `fin` and the amount freed may differ.
  ghost predicate Morph(gens: seq<Gen>, gens': seq<Gen>) {
    && |gens'| == |gens|
    && forall t :: 0 <= t < |gens| ==> SameBody(gens[t], gens'[t])
  }

  predicate SameBody(g: Gen, g': Gen) {
    g'.addrs == g.addrs && g'.pairs == g.pairs && g'.slot == g.slot
  }

  lemma MorphHeap(heap: map<Addr, Node>, gens: seq<Gen>, gens': seq<Gen>)
    requires HeapOk(heap, gens) && Morph(gens, gens')
    requires forall t :: 0 <= t < |gens| ==> gens'[t].freed == gens[t].freed
    ensures HeapOk(heap, gens')
  {
    forall t, i | 0 <= t < |gens'| && gens'[t].freed <= i < |gens'[t].addrs| ensures NodeOk(heap, gens'[t], t, i) {
      assert SameBody(gens[t], gens'[t]);
      assert NodeOk(heap, gens[t], t, i);
    }
    forall t | 0 <= t < |gens'| ensures |gens'[t].addrs| == |gens'[t].pairs| { assert SameBody(gens[t], gens'[t]); }
    forall a | a in heap
      ensures heap[a].tok < |gens'| && gens'[heap[a].tok].freed <= heap[a].pos < |gens'[heap[a].tok].addrs|
                                 && gens'[heap[a].tok].addrs[heap[a].pos] == a
    {
      assert SameBody(gens[heap[a].tok], gens'[heap[a].tok]);
    }
  }

  lemma MorphTable(home: Pid -> Slot, table: map<Pid, Reg>, cur: map<Slot, Token>, gens: seq<Gen>, gens': seq<Gen>)
    requires TableOk(home, table, cur, gens) && Morph(gens, gens')
    ensures TableOk(home, table, cur, gens')
  {
    forall pid ensures CurPairs(cur, gens, home(pid)) == CurPairs(cur, gens', home(pid)) {
      var k := home(pid);
      if k in cur && cur[k] < |gens| { assert SameBody(gens[cur[k]], gens'[cur[k]]); }
    }
  }

  lemma MorphSlots(pages: set<Page>, slots: map<Slot, Addr>, cur: map<Slot, Token>, gens: seq<Gen>, gens': seq<Gen>)
    requires SlotsOk(pages, slots, cur, gens) && Morph(gens, gens')
    requires forall t :: 0 <= t < |gens| ==> (gens[t].stage == Published <==> gens'[t].stage == Published)
    ensures SlotsOk(pages, slots, cur, gens')
  {
    forall t | 0 <= t < |gens| ensures SameBody(gens[t], gens'[t]) {}
  }

  lemma MorphThreads(threads: map<Tid, PC>, gens: seq<Gen>, gens': seq<Gen>)
    requires ThreadsOk(threads, gens) && Morph(gens, gens')
    requires Counted(threads) == {} ||
             forall t :: 0 <= t < |gens| && Visible(gens[t].stage) && gens[t].addrs != [] ==> Visible(gens'[t].stage)
    ensures ThreadsOk(threads, gens')
  {
    forall th | th in threads ensures ThreadOk(threads[th], gens') {
      assert ThreadOk(threads[th], gens);
      if threads[th].RWalk? {
        assert th in Counted(threads);
        assert SameBody(gens[threads[th].rtok], gens'[threads[th].rtok]);
      }
    }
  }

  // Every generation owes what it owed before.
  lemma MorphStatus(table: map<Pid, Reg>, gens: seq<Gen>, gens': seq<Gen>, status: map<Reg, Status>, log: seq<Reg>)
    requires StatusOk(table, gens, status, log) && |gens'| == |gens|
    requires forall t :: 0 <= t < |gens| ==>
               Owes(gens'[t]) == Owes(gens[t]) && (Owes(gens[t]) ==> FinReg(gens'[t]) == FinReg(gens[t]))
    ensures StatusOk(table, gens', status, log)
  {
    hide Owes, FinReg;
  }

  lemma ListKeep(es: seq<Entry>, gens: seq<Gen>, gens': seq<Gen>, stage: Stage)
    requires ListOk(es, gens, stage) && |gens| <= |gens'|
    requires forall t :: 0 <= t < |gens| && (gens[t].stage == stage || gens'[t].stage == stage) ==> gens'[t] == gens[t]
    requires forall t :: |gens| <= t < |gens'| ==> gens'[t].stage != stage
    ensures ListOk(es, gens', stage)
  {
    forall k | 0 <= k < |es| ensures Fits(es[k], gens', stage) { assert Fits(es[k], gens, stage); }
    forall t | 0 <= t < |gens'| && gens'[t].stage == stage ensures Lists(es, t) { assert gens'[t] == gens[t]; }
  }

  // ---------- reclamation ----------

  lemma NobodyCounted(threads: map<Tid, PC>)
    requires CountOk(threads, 0)
    ensures Counted(threads) == {}
  {
  }

  // With no reader counted, every retired generation can be doomed at once.
  lemma DoomAll(home: Pid -> Slot, s: State, h: PC, out: Outcome)
    requires Inv(home, s) && s.readers == 0 && h == Holder(s.threads, s.lock) && (h.RFree? || h.MRecheck?)
    ensures var gens := DoomRetired(s.gens);
            && GensOk(home, gens) && HeapOk(s.heap, gens) && SlotsOk(s.pages, s.slots, s.cur, gens)
            && TableOk(home, s.table, s.cur, gens) && StatusOk(s.table, gens, s.status, s.log)
            && ThreadsOk(s.threads, gens)
            && HolderOk(home, Freeing(s.retired, out), s.pages, s.slots, s.cur, gens, [])
  {
    hide HeapOk, SlotsOk, TableOk, StatusOk, ThreadsOk, CountOk, LockOk, FlightOk, HolderOk, WatchedOk, GensOk;
    var gens := DoomRetired(s.gens);
    MorphHeap(s.heap, s.gens, gens);
    MorphTable(home, s.table, s.cur, s.gens, gens);
    MorphSlots(s.pages, s.slots, s.cur, s.gens, gens);
    NobodyCounted(s.threads);
    MorphThreads(s.threads, s.gens, gens);
    MorphStatus(s.table, s.gens, gens, s.status, s.log);
    DoomGens(home, s.gens);
    DoomLists(home, h, s, out);
  }

  lemma DoomGens(home: Pid -> Slot, gens: seq<Gen>)
    requires GensOk(home, gens)
    ensures GensOk(home, DoomRetired(gens))
  {
    forall t | 0 <= t < |gens| ensures GenOk(home, DoomRetired(gens)[t]) { assert GenOk(home, gens[t]); }
  }

  lemma DoomLists(home: Pid -> Slot, h: PC, s: State, out: Outcome)
    requires HolderOk(home, h, s.pages, s.slots, s.cur, s.gens, s.retired) && (h.RFree? || h.MRecheck?)
    ensures HolderOk(home, Freeing(s.retired, out), s.pages, s.slots, s.cur, DoomRetired(s.gens), [])
  {
    var gens := DoomRetired(s.gens);
    forall k | 0 <= k < |s.retired| ensures Fits(s.retired[k], gens, Doomed) {
      assert Fits(s.retired[k], s.gens, Retired);
    }
    forall t | 0 <= t < |gens| && gens[t].stage == Doomed ensures Lists(s.retired, t) {
      assert !Lists([], t);
    }
    assert StageOk(Freeing(s.retired, out), gens);
  }

  lemma TakeAll(home: Pid -> Slot, s: State, th: Tid, out: Outcome)
    requires Inv(home, s) && th in s.threads && s.readers == 0 && OutcomeOk(out)
    requires s.threads[th].RFree? || s.threads[th].MRecheck?
    ensures Inv(home, Go(s, th, Freeing(s.retired, out)).(retired := [], gens := DoomRetired(s.gens)))
  {
    hide GensOk, HeapOk, SlotsOk, TableOk, StatusOk, ThreadsOk, CountOk, LockOk, FlightOk, HolderOk, WatchedOk;
    hide DoomRetired;
    var pc := Freeing(s.retired, out);
    LockMove(s.threads, s.lock, th, pc);
    FlightKeep(s.threads, s.status, th, pc);
    DoomAll(home, s, s.threads[th], out);
    NothingToWatch(s.readers, pc, s.threads[th := pc]);
    ThreadsMove(s.threads, DoomRetired(s.gens), th, pc);
    CountKeep(s.threads, s.readers, th, pc);
  }

  lemma TakeNone(home: Pid -> Slot, s: State, th: Tid, out: Outcome)
    requires Inv(home, s) && th in s.threads && s.readers != 0 && OutcomeOk(out)
    requires s.threads[th].RFree? || s.threads[th].MRecheck?
    ensures Inv(home, Go(s, th, Unlock(out)))
  {
    hide GensOk, HeapOk, SlotsOk, TableOk, StatusOk, ThreadsOk, CountOk, LockOk, FlightOk, HolderOk, WatchedOk;
    var pc := Unlock(out);
    LockMove(s.threads, s.lock, th, pc);
    FlightKeep(s.threads, s.status, th, pc);
    StillWatched(s.retired, s.readers, s.threads[th], s.readers, pc, s.threads, th, pc);
    HolderMove(home, s.threads[th], pc, s, s.pages);
    ThreadsMove(s.threads, s.gens, th, pc);
    CountKeep(s.threads, s.readers, th, pc);
  }

  lemma NothingToWatch(readers: nat, h: PC, threads: map<Tid, PC>)
    ensures WatchedOk([], readers, h, threads)
  {
  }

  // One unlinked generation moves on.
  lemma Settle(home: Pid -> Slot, s: State, h: PC, h': PC, stage: Stage, t: Token, retired: seq<Entry>)
    requires Inv(home, s) && h == Holder(s.threads, s.lock) && (h.MRetire? || h.MPush?) && h.prevTok == Some(t)
    requires stage in {Retired, Leaked} || (stage == Doomed && Counted(s.threads) == {})
             || (stage == Gone && h.prev == NULL)
    requires retired == if stage == Retired then [Entry(h.prev, h.fin, h.op.pid, t)] + s.retired else s.retired
    requires if stage == Doomed then h'.Freeing? && h'.work == [Entry(h.prev, h.fin, h.op.pid, t)]
             else !Carries(h') && !h'.MLoad?
    ensures var gens := SetStage(s.gens, Some(t), stage, 0);
            && GensOk(home, gens) && HeapOk(s.heap, gens) && SlotsOk(s.pages, s.slots, s.cur, gens)
            && TableOk(home, s.table, s.cur, gens)
            && ThreadsOk(s.threads, gens)
            && HolderOk(home, h', s.pages, s.slots, s.cur, gens, retired)
            && (stage != Leaked ==> StatusOk(s.table, gens, s.status, s.log))
  {
    hide GensOk, HeapOk, SlotsOk, TableOk, StatusOk, ThreadsOk, CountOk, LockOk, FlightOk, WatchedOk, ListOk, StageOk;
    var gens := SetStage(s.gens, Some(t), stage, 0);
    assert Fits(Entry(h.prev, h.fin, h.op.pid, t), s.gens, Unlinked);
    SettleGens(home, s, h, stage, t);
    MorphHeap(s.heap, s.gens, gens);
    MorphTable(home, s.table, s.cur, s.gens, gens);
    MorphSlots(s.pages, s.slots, s.cur, s.gens, gens);
    MorphThreads(s.threads, s.gens, gens);
    if stage != Leaked { MorphStatus(s.table, s.gens, gens, s.status, s.log); }
    SettleLists(h, h', s.gens, stage, t, s.retired);
  }

  lemma SettleGens(home: Pid -> Slot, s: State, h: PC, stage: Stage, t: Token)
    requires GensOk(home, s.gens) && HeapOk(s.heap, s.gens) && (h.MRetire? || h.MPush?)
    requires Fits(Entry(h.prev, h.fin, h.op.pid, t), s.gens, Unlinked)
    requires stage in {Retired, Doomed, Leaked} || (stage == Gone && h.prev == NULL)
    ensures GensOk(home, SetStage(s.gens, Some(t), stage, 0)) && Morph(s.gens, SetStage(s.gens, Some(t), stage, 0))
    ensures s.gens[t].freed == 0
    ensures stage == Gone ==> s.gens[t].addrs == [] && FinReg(s.gens[t]).None?
  {
    var g := s.gens[t];
    assert GenOk(home, g);
    if |g.addrs| > 0 { assert NodeOk(s.heap, g, t, 0); }
    hide HeapOk, NodeOk;
    var gens' := SetStage(s.gens, Some(t), stage, 0);
    assert GenOk(home, gens'[t]);
    SameElsewhere(home, s.gens, t, gens'[t]);
  }

  lemma SameElsewhere(home: Pid -> Slot, gens: seq<Gen>, t: Token, g: Gen)
    requires GensOk(home, gens) && t < |gens| && GenOk(home, g)
    ensures GensOk(home, gens[t := g])
  {
    hide GenOk;
  }

  lemma SettleLists(h: PC, h': PC, gens: seq<Gen>, stage: Stage, t: Token, retired: seq<Entry>)
    requires h.MRetire? || h.MPush?
    requires StageOk(h, gens) && ListOk(retired, gens, Retired) && ListOk([], gens, Doomed)
    requires h.prevTok == Some(t) && Fits(Entry(h.prev, h.fin, h.op.pid, t), gens, Unlinked) && gens[t].freed == 0
    requires !(h'.MStore? || h'.MRetire? || h'.MPush?) && stage in {Retired, Doomed, Leaked, Gone}
    ensures var gens' := SetStage(gens, Some(t), stage, 0);
            var e := Entry(h.prev, h.fin, h.op.pid, t);
            && StageOk(h', gens')
            && ListOk(if stage == Retired then [e] + retired else retired, gens', Retired)
            && ListOk(if stage == Doomed then [e] else [], gens', Doomed)
  {
    var gens' := SetStage(gens, Some(t), stage, 0);
    var e := Entry(h.prev, h.fin, h.op.pid, t);
    if stage == Retired { PushList(e, retired, gens, stage); } else { ListKeep(retired, gens, gens', Retired); }
    if stage == Doomed {
      PushList(e, [], gens, stage);
      assert [e] + [] == [e];
    } else {
      ListKeep([], gens, gens', Doomed);
    }
  }

  lemma PushList(e: Entry, es: seq<Entry>, gens: seq<Gen>, stage: Stage)
    requires ListOk(es, gens, stage) && stage != Unlinked && Fits(e, gens, Unlinked) && gens[e.tok].freed == 0
    ensures ListOk([e] + es, SetStage(gens, Some(e.tok), stage, 0), stage)
  {
    var gens' := SetStage(gens, Some(e.tok), stage, 0);
    var more := [e] + es;
    forall k | 0 <= k < |more| ensures Fits(more[k], gens', stage) {
      if k > 0 { assert Fits(es[k - 1], gens, stage); }
    }
    forall t | 0 <= t < |gens'| && gens'[t].stage == stage ensures Lists(more, t) {
      if t == e.tok { assert more[0].tok == t; }
      else { var k :| 0 <= k < |es| && es[k].tok == t; assert more[k + 1].tok == t; }
    }
    forall j, k | 0 <= j < k < |more| ensures more[j].tok != more[k].tok {
      if j == 0 { assert Fits(es[k - 1], gens, stage); } else { assert es[j - 1].tok != es[k - 1].tok; }
    }
  }

  // The chain is freed at once, or it was empty: no entry, no leak.
  lemma SettleNow(home: Pid -> Slot, s: State, th: Tid, pc: PC, stage: Stage)
    requires Inv(home, s) && th in s.threads && s.threads[th].MRetire? && s.threads[th].prevTok.Some?
    requires var w := s.threads[th]; var out := Mutated(w.op, 0, true);
             if stage == Doomed then
               s.readers == 0 && pc == Freeing([Entry(w.prev, w.fin, w.op.pid, w.prevTok.value)], out)
             else stage == Gone && w.prev == NULL && pc == Unlock(out)
    ensures Inv(home, Go(s, th, pc).(gens := SetStage(s.gens, s.threads[th].prevTok, stage, 0)))
  {
    hide GensOk, HeapOk, SlotsOk, TableOk, StatusOk, ThreadsOk, CountOk, LockOk, FlightOk, HolderOk, WatchedOk;
    hide SetStage;
    var was := s.threads[th];
    LockMove(s.threads, s.lock, th, pc);
    FlightKeep(s.threads, s.status, th, pc);
    if stage == Doomed { NobodyCounted(s.threads); }
    Settle(home, s, was, pc, stage, was.prevTok.value, s.retired);
    StillWatched(s.retired, s.readers, was, s.readers, pc, s.threads, th, pc);
    ThreadsMove(s.threads, SetStage(s.gens, was.prevTok, stage, 0), th, pc);
    CountKeep(s.threads, s.readers, th, pc);
  }

  lemma NothingUnlinked(home: Pid -> Slot, s: State, th: Tid)
    requires Inv(home, s) && th in s.threads && s.threads[th].MRetire? && s.threads[th].prevTok.None?
    ensures Inv(home, Go(s, th, Unlock(Mutated(s.threads[th].op, 0, true))))
  {
    hide GensOk, HeapOk, SlotsOk, TableOk, StatusOk, ThreadsOk, CountOk, LockOk, FlightOk, HolderOk, WatchedOk;
    var pc := Unlock(Mutated(s.threads[th].op, 0, true));
    var was := s.threads[th];
    LockMove(s.threads, s.lock, th, pc);
    FlightKeep(s.threads, s.status, th, pc);
    StillWatched(s.retired, s.readers, was, s.readers, pc, s.threads, th, pc);
    ThreadsMove(s.threads, s.gens, th, pc);
    CountKeep(s.threads, s.readers, th, pc);
    HolderRetire(home, s, was, pc);
  }

  lemma HolderRetire(home: Pid -> Slot, s: State, h: PC, h': PC)
    requires HolderOk(home, h, s.pages, s.slots, s.cur, s.gens, s.retired) && h.MRetire?
    requires if h'.MPush? then h' == MPush(h.op, h.prev, h.prevTok, h.fin) && h.prev != NULL
             else h'.Unlock? && h.prevTok.None?
    ensures HolderOk(home, h', s.pages, s.slots, s.cur, s.gens, s.retired)
  {
    hide ListOk, Fits;
  }

  lemma Postpone(home: Pid -> Slot, s: State, th: Tid)
    requires Inv(home, s) && th in s.threads && s.threads[th].MRetire? && s.threads[th].prev != NULL
    ensures var w := s.threads[th]; Inv(home, Go(s, th, MPush(w.op, w.prev, w.prevTok, w.fin)))
  {
    hide GensOk, HeapOk, SlotsOk, TableOk, StatusOk, ThreadsOk, CountOk, LockOk, FlightOk, HolderOk, WatchedOk;
    var was := s.threads[th];
    var pc := MPush(was.op, was.prev, was.prevTok, was.fin);
    LockMove(s.threads, s.lock, th, pc);
    FlightKeep(s.threads, s.status, th, pc);
    StillWatched(s.retired, s.readers, was, s.readers, pc, s.threads, th, pc);
    ThreadsMove(s.threads, s.gens, th, pc);
    CountKeep(s.threads, s.readers, th, pc);
    HolderRetire(home, s, was, pc);
  }

  lemma RetireInv(home: Pid -> Slot, s: State, th: Tid, act: Act, s': State)
    requires Inv(home, s) && Next(home, s, th, act, s') && s.threads[th].MRetire?
    ensures Inv(home, s')
  {
    hide Inv;
    var was := s.threads[th];
    assert was.prevTok.None? ==> was.prev == NULL by { PrevKnown(home, s, th); }
    if was.prev != NULL && s.readers != 0 {
      Postpone(home, s, th);
    } else if was.prevTok.None? {
      NothingUnlinked(home, s, th);
    } else {
      SettleNow(home, s, th, s'.threads[th], if was.prev == NULL then Gone else Doomed);
    }
  }

  lemma PrevKnown(home: Pid -> Slot, s: State, th: Tid)
    requires Inv(home, s) && th in s.threads && (s.threads[th].MRetire? || s.threads[th].MPush?)
    ensures s.threads[th].prevTok.None? ==> s.threads[th].prev == NULL
    ensures s.threads[th].MPush? ==> s.threads[th].prevTok.Some?
    ensures s.threads[th].prevTok.Some? ==> s.threads[th].prevTok.value < |s.gens|
  {
    hide GensOk, HeapOk, SlotsOk, TableOk, StatusOk, ThreadsOk, CountOk, LockOk, FlightOk, WatchedOk, StageOk, ListOk;
    LockMove(s.threads, s.lock, th, s.threads[th]);
  }

  lemma PushOk(home: Pid -> Slot, s: State, th: Tid)
    requires Inv(home, s) && th in s.threads && s.threads[th].MPush? && s.threads[th].prevTok.Some?
    ensures var w := s.threads[th];
            Inv(home, Go(s, th, MRecheck(w.op)).(
                      retired := [Entry(w.prev, w.fin, w.op.pid, w.prevTok.value)] + s.retired,
                      gens := SetStage(s.gens, w.prevTok, Retired, 0)))
  {
    hide GensOk, HeapOk, SlotsOk, TableOk, StatusOk, ThreadsOk, CountOk, LockOk, FlightOk, HolderOk, WatchedOk;
    hide SetStage;
    var was := s.threads[th];
    var pc := MRecheck(was.op);
    var retired := [Entry(was.prev, was.fin, was.op.pid, was.prevTok.value)] + s.retired;
    LockMove(s.threads, s.lock, th, pc);
    FlightKeep(s.threads, s.status, th, pc);
    Settle(home, s, was, pc, Retired, was.prevTok.value, retired);
    ThreadsMove(s.threads, SetStage(s.gens, was.prevTok, Retired, 0), th, pc);
    CountKeep(s.threads, s.readers, th, pc);
    assert WatchedOk(retired, s.readers, pc, s.threads[th := pc]) by {
      Rechecking(retired, s.readers, pc, s.threads[th := pc]);
    }
  }

  lemma Rechecking(retired: seq<Entry>, readers: nat, h: PC, threads: map<Tid, PC>)
    requires h.MRecheck?
    ensures WatchedOk(retired, readers, h, threads)
  {
  }

  // A leaked generation takes the registration it owed with it.
  lemma LeakStatus(home: Pid -> Slot, s: State, t: Token)
    requires StatusOk(s.table, s.gens, s.status, s.log) && t < |s.gens| && s.gens[t].stage == Unlinked
    requires s.gens[t].freed == 0
    ensures StatusOk(s.table, SetStage(s.gens, Some(t), Leaked, 0), Mark(s.status, FinReg(s.gens[t]), Lost), s.log)
  {
    var g := s.gens[t];
    if FinReg(g).Some? { assert Owes(g); }
    hide FinReg;
  }

  lemma PushLeak(home: Pid -> Slot, s: State, th: Tid)
    requires Inv(home, s) && th in s.threads && s.threads[th].MPush?
    requires s.threads[th].prevTok.Some? && s.threads[th].prevTok.value < |s.gens|
    ensures var w := s.threads[th];
            Inv(home, Go(s, th, Unlock(Mutated(w.op, -1, true))).(
                      gens := SetStage(s.gens, w.prevTok, Leaked, 0),
                      status := Mark(s.status, FinReg(s.gens[w.prevTok.value]), Lost)))
  {
    hide GensOk, HeapOk, SlotsOk, TableOk, StatusOk, ThreadsOk, CountOk, LockOk, FlightOk, HolderOk, WatchedOk;
    hide SetStage, FinReg;
    var was := s.threads[th];
    var pc := Unlock(Mutated(was.op, -1, true));
    LockMove(s.threads, s.lock, th, pc);
    FlightKeep(s.threads, s.status, th, pc);
    Settle(home, s, was, pc, Leaked, was.prevTok.value, s.retired);
    ThreadsMove(s.threads, SetStage(s.gens, was.prevTok, Leaked, 0), th, pc);
    CountKeep(s.threads, s.readers, th, pc);
    StillWatched(s.retired, s.readers, was, s.readers, pc, s.threads, th, pc);
    LeakFacts(home, s, th);
    FlightMark(s.threads[th := pc], s.status, FinReg(s.gens[was.prevTok.value]), Lost);
  }

  lemma LeakFacts(home: Pid -> Slot, s: State, th: Tid)
    requires Inv(home, s) && th in s.threads && s.threads[th].MPush?
    requires s.threads[th].prevTok.Some? && s.threads[th].prevTok.value < |s.gens|
    ensures var t := s.threads[th].prevTok.value;
            && StatusOk(s.table, SetStage(s.gens, Some(t), Leaked, 0), Mark(s.status, FinReg(s.gens[t]), Lost), s.log)
            && (FinReg(s.gens[t]).Some? ==>
                FinReg(s.gens[t]).value in s.status && s.status[FinReg(s.gens[t]).value].Dying?)
  {
    hide HeapOk, SlotsOk, TableOk, ThreadsOk, CountOk, LockOk, FlightOk, WatchedOk, StageOk, ListOk;
    LockMove(s.threads, s.lock, th, s.threads[th]);
    var t := s.threads[th].prevTok.value;
    assert GenOk(home, s.gens[t]);
    assert Fits(Entry(s.threads[th].prev, s.threads[th].fin, s.threads[th].op.pid, t), s.gens, Unlinked);
    LeakStatus(home, s, t);
    assert FinReg(s.gens[t]).Some? ==> Owes(s.gens[t]);
  }

  // Registrations that are not in flight may change status freely.
  lemma FlightMark(threads: map<Tid, PC>, status: map<Reg, Status>, r: Option<Reg>, st: Status)
    requires FlightOk(threads, status) && !st.InFlight?
    requires r.Some? ==> r.value in status && !status[r.value].InFlight?
    ensures FlightOk(threads, Mark(status, r, st))
  {
    hide Pending;
  }

  lemma PushInv(home: Pid -> Slot, s: State, th: Tid, act: Act, s': State)
    requires Inv(home, s) && Next(home, s, th, act, s') && s.threads[th].MPush?
    ensures Inv(home, s')
  {
    hide Inv;
    PrevKnown(home, s, th);
    if act.ok { PushOk(home, s, th); } else { PushLeak(home, s, th); }
  }

  // ---------- freeing ----------

  // The next node of a doomed generation is live and is the one its entry points to.
  lemma NextDoomed(home: Pid -> Slot, s: State, e: Entry)
    requires GensOk(home, s.gens) && HeapOk(s.heap, s.gens) && Fits(e, s.gens, Doomed)
    ensures var g := s.gens[e.tok];
            && g.freed <= |g.addrs|
            && if g.freed == |g.addrs| then e.head == NULL
            else e.head != NULL && NodeOk(s.heap, g, e.tok, g.freed) && e.head == g.addrs[g.freed]
  {
    var g := s.gens[e.tok];
    assert GenOk(home, g);
    if g.freed < |g.addrs| { assert NodeOk(s.heap, g, e.tok, g.freed); }
  }

  lemma FreeHeap(home: Pid -> Slot, s: State, t: Token)
    requires GensOk(home, s.gens) && HeapOk(s.heap, s.gens)
    requires t < |s.gens| && s.gens[t].freed < |s.gens[t].addrs| && s.gens[t].stage == Doomed
    ensures var g := s.gens[t];
            HeapOk(s.heap - {g.addrs[g.freed]}, SetStage(s.gens, Some(t), Doomed, g.freed + 1))
  {
    var g := s.gens[t];
    var heap := s.heap - {g.addrs[g.freed]};
    var gens := SetStage(s.gens, Some(t), Doomed, g.freed + 1);
    assert GenOk(home, g);
    assert NodeOk(s.heap, g, t, g.freed);
    forall u, i | 0 <= u < |gens| && gens[u].freed <= i < |gens[u].addrs| ensures NodeOk(heap, gens[u], u, i) {
      assert NodeOk(s.heap, s.gens[u], u, i);
    }
  }

  lemma FreeGens(home: Pid -> Slot, gens: seq<Gen>, t: Token, stage: Stage, freed: nat)
    requires GensOk(home, gens) && t < |gens| && gens[t].stage == Doomed && freed <= |gens[t].addrs|
    requires stage == Doomed || (stage == Gone && freed == |gens[t].addrs|)
    ensures GensOk(home, SetStage(gens, Some(t), stage, freed)) && Morph(gens, SetStage(gens, Some(t), stage, freed))
  {
    var g := gens[t].(stage := stage, freed := freed);
    assert GenOk(home, gens[t]);
    assert GenOk(home, g);
    hide GenOk;
  }

  // Freeing a node calls the finalizer exactly for the registration its generation owes.
  lemma FreeStatus(home: Pid -> Slot, s: State, e: Entry, n: Node)
    requires GensOk(home, s.gens) && StatusOk(s.table, s.gens, s.status, s.log) && Fits(e, s.gens, Doomed)
    requires s.gens[e.tok].freed < |s.gens[e.tok].pairs|
    requires (n.pid, n.reg) == s.gens[e.tok].pairs[s.gens[e.tok].freed]
    ensures var last := e.finOne && n.pid == e.finPid;
            && StatusOk(s.table, SetStage(s.gens, Some(e.tok), Doomed, s.gens[e.tok].freed + 1),
                        if last then s.status[n.reg := Finalized] else s.status,
                        if last then s.log + [n.reg] else s.log)
            && (last ==> n.reg in s.status && s.status[n.reg].Dying?)
  {
    hide StatusOk;
    var g := s.gens[e.tok];
    var g' := g.(freed := g.freed + 1);
    assert GenOk(home, g);
    assert FinReg(g') == FinReg(g);
    if e.finOne && n.pid == e.finPid {
      assert g.fin.value == g.freed;
      assert Owes(g) && !Owes(g') && FinReg(g) == Some(n.reg);
      FinishStatus(s.table, s.gens, s.status, s.log, e.tok, g');
    } else {
      assert Owes(g') == Owes(g);
      MorphStatus(s.table, s.gens, s.gens[e.tok := g'], s.status, s.log);
    }
  }

  lemma FinishStatus(table: map<Pid, Reg>, gens: seq<Gen>, status: map<Reg, Status>, log: seq<Reg>, t: Token, g': Gen)
    requires StatusOk(table, gens, status, log) && t < |gens| && Owes(gens[t]) && !Owes(g')
    ensures FinReg(gens[t]).value in status && status[FinReg(gens[t]).value] == Dying(t)
    ensures StatusOk(table, gens[t := g'], status[FinReg(gens[t]).value := Finalized], log + [FinReg(gens[t]).value])
  {
    var r := FinReg(gens[t]).value;
    assert status[r] == Dying(t);
    hide Owes, FinReg;
    assert (log + [r])[|log|] == r;
    assert forall q :: q in log ==> q in log + [r];
  }

  lemma StepHead(work: seq<Entry>, gens: seq<Gen>, freed: nat)
    requires ListOk(work, gens, Doomed) && work != [] && Fits(work[0], gens, Doomed)
    ensures var t := work[0].tok;
            ListOk(work[0 := work[0].(head := PtrAt(gens[t].addrs, freed))], SetStage(gens, Some(t), Doomed, freed),
                   Doomed)
  {
    var t := work[0].tok;
    var gens' := SetStage(gens, Some(t), Doomed, freed);
    var work' := work[0 := work[0].(head := PtrAt(gens[t].addrs, freed))];
    forall k | 0 <= k < |work'| ensures Fits(work'[k], gens', Doomed) {
      assert Fits(work[k], gens, Doomed) && work'[k].tok == work[k].tok;
    }
    forall u | 0 <= u < |gens'| && gens'[u].stage == Doomed ensures Lists(work', u) {
      var k :| 0 <= k < |work| && work[k].tok == u;
      assert work'[k].tok == u;
    }
  }

  lemma DropHead(work: seq<Entry>, gens: seq<Gen>, freed: nat)
    requires ListOk(work, gens, Doomed) && work != [] && Fits(work[0], gens, Doomed)
    ensures ListOk(work[1..], SetStage(gens, Some(work[0].tok), Gone, freed), Doomed)
  {
    var gens' := SetStage(gens, Some(work[0].tok), Gone, freed);
    forall k | 0 <= k < |work| - 1 ensures Fits(work[1..][k], gens', Doomed) {
      assert Fits(work[k + 1], gens, Doomed);
    }
    forall u | 0 <= u < |gens'| && gens'[u].stage == Doomed ensures Lists(work[1..], u) {
      var k :| 0 <= k < |work| && work[k].tok == u;
      assert work[1..][k - 1].tok == u;
    }
  }

  // The work list moves on; the retired list is untouched.
  lemma FreeHolder(home: Pid -> Slot, s: State, h: PC, stage: Stage, freed: nat)
    requires h.Freeing? && h.work != [] && HolderOk(home, h, s.pages, s.slots, s.cur, s.gens, s.retired)
    requires stage in {Doomed, Gone} && Fits(h.work[0], s.gens, Doomed)
    ensures var t := h.work[0].tok;
            var work := if stage == Gone then h.work[1..]
                        else h.work[0 := h.work[0].(head := PtrAt(s.gens[t].addrs, freed))];
            HolderOk(home, Freeing(work, h.out), s.pages, s.slots, s.cur, SetStage(s.gens, Some(t), stage, freed),
                     s.retired)
  {
    hide ListOk;
    ListKeep(s.retired, s.gens, SetStage(s.gens, Some(h.work[0].tok), stage, freed), Retired);
    if stage == Gone { DropHead(h.work, s.gens, freed); } else { StepHead(h.work, s.gens, freed); }
  }

  lemma FreeFits(home: Pid -> Slot, s: State, th: Tid)
    requires Inv(home, s) && th in s.threads && s.threads[th].Freeing? && s.threads[th].work != []
    ensures Holder(s.threads, s.lock) == s.threads[th] && s.lock == Some(th)
    ensures Fits(s.threads[th].work[0], s.gens, Doomed)
  {
    hide GensOk, HeapOk, SlotsOk, TableOk, StatusOk, ThreadsOk, CountOk, LockOk, FlightOk, WatchedOk, StageOk, Fits,
         Lists;
    LockMove(s.threads, s.lock, th, s.threads[th]);
  }

  lemma FreeNode(home: Pid -> Slot, s: State, th: Tid)
    requires Inv(home, s) && th in s.threads && s.threads[th].Freeing? && s.threads[th].work != []
    requires Fits(s.threads[th].work[0], s.gens, Doomed) && s.threads[th].work[0].head in s.heap
    requires var e := s.threads[th].work[0]; s.gens[e.tok].freed < |s.gens[e.tok].addrs|
    ensures var pc := s.threads[th]; var e := pc.work[0]; var n := s.heap[e.head];
            var last := e.finOne && n.pid == e.finPid;
            Inv(home, Go(s, th, Freeing(pc.work[0 := e.(head := n.next)], pc.out)).(
                      heap := s.heap - {e.head},
                      log := if last then s.log + [n.reg] else s.log,
                      gens := SetStage(s.gens, Some(e.tok), Doomed, s.gens[e.tok].freed + 1),
                      status := if last then s.status[n.reg := Finalized] else s.status))
  {
    hide GensOk, HeapOk, SlotsOk, TableOk, StatusOk, ThreadsOk, CountOk, LockOk, FlightOk, HolderOk, WatchedOk;
    hide SetStage, NodeOk;
    var was := s.threads[th];
    var e := was.work[0];
    var n := s.heap[e.head];
    NextIs(home, s, e);
    var pc := Freeing(was.work[0 := e.(head := n.next)], was.out);
    var freed := s.gens[e.tok].freed;
    var gens := SetStage(s.gens, Some(e.tok), Doomed, freed + 1);
    FreeRest(home, s, th, Doomed, freed + 1);
    FreeHeap(home, s, e.tok);
    FreeStatus(home, s, e, n);
    LockMove(s.threads, s.lock, th, pc);
    FreeHolder(home, s, was, Doomed, freed + 1);
    FlightKeep(s.threads, s.status, th, pc);
    FlightMark(s.threads[th := pc], s.status, if e.finOne && n.pid == e.finPid then Some(n.reg) else None, Finalized);
    StillWatched(s.retired, s.readers, was, s.readers, pc, s.threads, th, pc);
    ThreadsMove(s.threads, gens, th, pc);
    CountKeep(s.threads, s.readers, th, pc);
  }

  lemma NextIs(home: Pid -> Slot, s: State, e: Entry)
    requires GensOk(home, s.gens) && HeapOk(s.heap, s.gens) && Fits(e, s.gens, Doomed) && e.head in s.heap
    requires s.gens[e.tok].freed < |s.gens[e.tok].addrs|
    ensures var g := s.gens[e.tok];
            && g.freed < |g.addrs| == |g.pairs| && g.stage == Doomed && e.head == g.addrs[g.freed]
            && s.heap[e.head].next == PtrAt(g.addrs, g.freed + 1)
            && (s.heap[e.head].pid, s.heap[e.head].reg) == g.pairs[g.freed]
  {
    NextDoomed(home, s, e);
  }

  // What freeing cannot touch: published chains, the map and the readers.
  lemma FreeRest(home: Pid -> Slot, s: State, th: Tid, stage: Stage, freed: nat)
    requires Inv(home, s) && th in s.threads && s.threads[th].Freeing? && s.threads[th].work != []
    requires Fits(s.threads[th].work[0], s.gens, Doomed)
    requires freed <= |s.gens[s.threads[th].work[0].tok].addrs|
    requires stage == Doomed || (stage == Gone && freed == |s.gens[s.threads[th].work[0].tok].addrs|)
    ensures var gens := SetStage(s.gens, Some(s.threads[th].work[0].tok), stage, freed);
            && GensOk(home, gens) && SlotsOk(s.pages, s.slots, s.cur, gens)
            && TableOk(home, s.table, s.cur, gens) && ThreadsOk(s.threads, gens)
    ensures ThreadOk(Freeing([], s.threads[th].out), s.gens)
  {
    hide GensOk, HeapOk, SlotsOk, TableOk, StatusOk, ThreadsOk, CountOk, LockOk, FlightOk, HolderOk, WatchedOk;
    var t := s.threads[th].work[0].tok;
    var gens := SetStage(s.gens, Some(t), stage, freed);
    FreeGens(home, s.gens, t, stage, freed);
    MorphTable(home, s.table, s.cur, s.gens, gens);
    MorphSlots(s.pages, s.slots, s.cur, s.gens, gens);
    MorphThreads(s.threads, s.gens, gens);
    OutKnown(s.threads, s.gens, th);
  }

  lemma OutKnown(threads: map<Tid, PC>, gens: seq<Gen>, th: Tid)
    requires ThreadsOk(threads, gens) && th in threads && threads[th].Freeing?
    ensures OutcomeOk(threads[th].out)
  {
    assert ThreadOk(threads[th], gens);
  }

  lemma FreeEntry(home: Pid -> Slot, s: State, th: Tid)
    requires Inv(home, s) && th in s.threads && s.threads[th].Freeing? && s.threads[th].work != []
    requires Fits(s.threads[th].work[0], s.gens, Doomed) && s.threads[th].work[0].head == NULL
    ensures var pc := s.threads[th]; var t := pc.work[0].tok;
            Inv(home,
                Go(s, th, Freeing(pc.work[1..], pc.out)).(gens := SetStage(s.gens, Some(t), Gone, s.gens[t].freed)))
  {
    hide GensOk, HeapOk, SlotsOk, TableOk, StatusOk, ThreadsOk, CountOk, LockOk, FlightOk, HolderOk, WatchedOk;
    hide SetStage, NodeOk;
    var was := s.threads[th];
    var t := was.work[0].tok;
    var pc := Freeing(was.work[1..], was.out);
    var freed := s.gens[t].freed;
    var gens := SetStage(s.gens, Some(t), Gone, freed);
    NextDoomed(home, s, was.work[0]);
    GoneHeap(home, s, t);
    FreeRest(home, s, th, Gone, freed);
    LockMove(s.threads, s.lock, th, pc);
    FreeHolder(home, s, was, Gone, freed);
    FlightKeep(s.threads, s.status, th, pc);
    StillWatched(s.retired, s.readers, was, s.readers, pc, s.threads, th, pc);
    ThreadsMove(s.threads, gens, th, pc);
    CountKeep(s.threads, s.readers, th, pc);
  }

  lemma GoneHeap(home: Pid -> Slot, s: State, t: Token)
    requires GensOk(home, s.gens) && HeapOk(s.heap, s.gens) && StatusOk(s.table, s.gens, s.status, s.log)
    requires t < |s.gens| && s.gens[t].freed == |s.gens[t].addrs|
    ensures var gens := SetStage(s.gens, Some(t), Gone, s.gens[t].freed);
            HeapOk(s.heap, gens) && StatusOk(s.table, gens, s.status, s.log)
  {
    hide HeapOk, StatusOk;
    var gens := SetStage(s.gens, Some(t), Gone, s.gens[t].freed);
    assert GenOk(home, s.gens[t]);
    assert Morph(s.gens, gens);
    MorphHeap(s.heap, s.gens, gens);
    MorphStatus(s.table, s.gens, gens, s.status, s.log);
  }

  lemma FreeDone(home: Pid -> Slot, s: State, th: Tid)
    requires Inv(home, s) && th in s.threads && s.threads[th].Freeing? && s.threads[th].work == []
    ensures Inv(home, Go(s, th, Unlock(s.threads[th].out)))
  {
    hide GensOk, HeapOk, SlotsOk, TableOk, StatusOk, ThreadsOk, CountOk, LockOk, FlightOk, HolderOk, WatchedOk;
    var was := s.threads[th];
    var pc := Unlock(was.out);
    LockMove(s.threads, s.lock, th, pc);
    FlightKeep(s.threads, s.status, th, pc);
    StillWatched(s.retired, s.readers, was, s.readers, pc, s.threads, th, pc);
    OutKnown(s.threads, s.gens, th);
    ThreadsMove(s.threads, s.gens, th, pc);
    CountKeep(s.threads, s.readers, th, pc);
    HolderDone(home, s, was, pc);
  }

  lemma HolderDone(home: Pid -> Slot, s: State, h: PC, h': PC)
    requires HolderOk(home, h, s.pages, s.slots, s.cur, s.gens, s.retired)
    requires h.Freeing? && h.work == [] && h'.Unlock?
    ensures HolderOk(home, h', s.pages, s.slots, s.cur, s.gens, s.retired)
  {
    hide ListOk;
  }

  lemma FreeInv(home: Pid -> Slot, s: State, th: Tid, act: Act, s': State)
    requires Inv(home, s) && Next(home, s, th, act, s') && s.threads[th].Freeing?
    ensures Inv(home, s')
  {
    hide Inv, Fits, SetStage;
    var pc := s.threads[th];
    if pc.work == [] {
      FreeDone(home, s, th);
    } else {
      NotYetFreed(home, s, th);
      if pc.work[0].head == NULL {
        FreeEntry(home, s, th);
      } else {
        FreeNode(home, s, th);
      }
    }
  }

  lemma NotYetFreed(home: Pid -> Slot, s: State, th: Tid)
    requires Inv(home, s) && th in s.threads && s.threads[th].Freeing? && s.threads[th].work != []
    ensures var e := s.threads[th].work[0];
            && Fits(e, s.gens, Doomed)
            && (e.head != NULL ==> e.head in s.heap && s.gens[e.tok].freed < |s.gens[e.tok].addrs|)
  {
    hide GensOk, HeapOk, SlotsOk, TableOk, StatusOk, ThreadsOk, CountOk, LockOk, FlightOk, HolderOk, WatchedOk;
    FreeFits(home, s, th);
    NextDoomed(home, s, s.threads[th].work[0]);
  }

  // ---------- building a chain ----------

  // What memory holds from position i on is the rest of the generation.
  lemma {:induction false} ReadsGen(home: Pid -> Slot, s: State, t: Token, i: nat)
    requires GensOk(home, s.gens) && HeapOk(s.heap, s.gens)
    requires t < |s.gens| && s.gens[t].freed <= i <= |s.gens[t].addrs|
    ensures |s.gens[t].addrs| == |s.gens[t].pairs|
    ensures Reads(s.heap, PtrAt(s.gens[t].addrs, i), s.gens[t].pairs[i..])
    decreases |s.gens[t].addrs| - i
  {
    var g := s.gens[t];
    assert GenOk(home, g);
    if i < |g.addrs| {
      assert NodeOk(s.heap, g, t, i);
      ReadsGen(home, s, t, i + 1);
      assert g.pairs[i..][1..] == g.pairs[i + 1..];
    }
  }

  lemma {:induction false} ReadsUnique(heap: map<Addr, Node>, p: Addr, a: Pairs, b: Pairs)
    requires NULL !in heap && Reads(heap, p, a) && Reads(heap, p, b)
    ensures a == b
    decreases |a|
  {
    if a != [] && b != [] {
      ReadsUnique(heap, heap[p].next, a[1..], b[1..]);
      assert a == [a[0]] + a[1..] && b == [b[0]] + b[1..];
    }
  }

  lemma NullFree(heap: map<Addr, Node>, gens: seq<Gen>)
    requires HeapOk(heap, gens)
    ensures NULL !in heap
  {
    assert forall a :: a in heap ==> NodeOk(heap, gens[heap[a].tok], heap[a].tok, heap[a].pos);
  }

  // A mutator reads exactly the current generation of its slot.
  lemma SeenIsCurrent(home: Pid -> Slot, s: State, k: Slot, seen: Pairs)
    requires GensOk(home, s.gens) && HeapOk(s.heap, s.gens) && SlotsOk(s.pages, s.slots, s.cur, s.gens)
    requires Reads(s.heap, SlotPtr(s.slots, k), seen)
    ensures seen == CurPairs(s.cur, s.gens, k)
  {
    if k in s.cur {
      assert GenOk(home, s.gens[s.cur[k]]);
      ReadsGen(home, s, s.cur[k], 0);
      assert s.gens[s.cur[k]].pairs[0..] == s.gens[s.cur[k]].pairs;
    }
    NullFree(s.heap, s.gens);
    ReadsUnique(s.heap, SlotPtr(s.slots, k), seen, CurPairs(s.cur, s.gens, k));
  }

  // The rebuilt chain again has one node per proc_id, all in the same slot.
  lemma RebuiltOk(home: Pid -> Slot, op: Op, ps: Pairs, k: Slot)
    requires k == home(op.pid)
    requires forall i :: 0 <= i < |ps| ==> home(ps[i].0) == k
    requires forall i, j :: 0 <= i < j < |ps| ==> ps[i].0 != ps[j].0
    ensures forall i :: 0 <= i < |Rebuilt(op, ps)| ==> home(Rebuilt(op, ps)[i].0) == k
    ensures forall i, j :: 0 <= i < j < |Rebuilt(op, ps)| ==> Rebuilt(op, ps)[i].0 != Rebuilt(op, ps)[j].0
  {
    WithoutSub(ps, op.pid);
    var w := Without(ps, op.pid);
    forall i | 0 <= i < |w| ensures home(w[i].0) == k {
      assert w[i] in ps;
    }
  }

  lemma GrowHeap(home: Pid -> Slot, heap: map<Addr, Node>, gens: seq<Gen>, g: Gen, heap': map<Addr, Node>)
    requires HeapOk(heap, gens) && Built(heap, heap', g.addrs, g.pairs, |gens|) && g.freed == 0
    ensures HeapOk(heap', gens + [g])
  {
    var gens' := gens + [g];
    forall t, i | 0 <= t < |gens'| && gens'[t].freed <= i < |gens'[t].addrs| ensures NodeOk(heap', gens'[t], t, i) {
      if t < |gens| { assert NodeOk(heap, gens[t], t, i); } else { assert BuiltAt(heap', g.addrs, g.pairs, |gens|, i); }
    }
    forall a | a in heap'
      ensures heap'[a].tok < |gens'| && gens'[heap'[a].tok].freed <= heap'[a].pos < |gens'[heap'[a].tok].addrs|
                                 && gens'[heap'[a].tok].addrs[heap'[a].pos] == a
    {
      if a !in heap {
        var i :| 0 <= i < |g.addrs| && g.addrs[i] == a;
        assert BuiltAt(heap', g.addrs, g.pairs, |gens|, i);
      }
    }
  }

  lemma GrowRest(home: Pid -> Slot, s: State, g: Gen)
    requires GensOk(home, s.gens) && SlotsOk(s.pages, s.slots, s.cur, s.gens) && TableOk(home, s.table, s.cur, s.gens)
    requires ThreadsOk(s.threads, s.gens) && g.stage == Fresh && GenOk(home, g)
    ensures var gens := s.gens + [g];
            && GensOk(home, gens) && SlotsOk(s.pages, s.slots, s.cur, gens) && TableOk(home, s.table, s.cur, gens)
            && ThreadsOk(s.threads, gens)
  {
    hide GenOk;
    var gens := s.gens + [g];
    forall pid ensures CurPairs(s.cur, s.gens, home(pid)) == CurPairs(s.cur, gens, home(pid)) {}
    forall th | th in s.threads ensures ThreadOk(s.threads[th], gens) { assert ThreadOk(s.threads[th], s.gens); }
  }

  lemma GrowStatus(table: map<Pid, Reg>, gens: seq<Gen>, status: map<Reg, Status>, log: seq<Reg>, g: Gen)
    requires StatusOk(table, gens, status, log) && g.stage == Fresh
    ensures StatusOk(table, gens + [g], status, log)
  {
    assert !Owes(g);
    hide Owes, FinReg;
  }

  lemma GrowHolder(home: Pid -> Slot, s: State, h: PC, h': PC, g: Gen)
    requires HolderOk(home, h, s.pages, s.slots, s.cur, s.gens, s.retired) && SlotsOk(s.pages, s.slots, s.cur, s.gens)
    requires h.MLoad? && g.stage == Fresh && g.slot == home(h.op.pid)
    requires var k := home(h.op.pid);
             var pairs := CurPairs(s.cur, s.gens, k);
             && g.pairs == Rebuilt(h.op, pairs)
             && (h.op.Remove? ==> Find(pairs, h.op.pid).Some?)
             && h' == MStore(h.op, PtrAt(g.addrs, 0), |s.gens|, SlotPtr(s.slots, k), PrevTok(s, k),
                             Find(pairs, h.op.pid).Some?)
    ensures HolderOk(home, h', s.pages, s.slots, s.cur, s.gens + [g], s.retired)
  {
    hide ListOk, StageOk, Rebuilt, Find, SlotsOk;
    GrowLists(s.retired, s.gens, g);
    GrowStage(h, h', s.gens, g);
    GrowPairs(s, home(h.op.pid), g);
  }

  lemma GrowLists(retired: seq<Entry>, gens: seq<Gen>, g: Gen)
    requires ListOk(retired, gens, Retired) && ListOk([], gens, Doomed) && g.stage == Fresh
    ensures ListOk(retired, gens + [g], Retired) && ListOk([], gens + [g], Doomed)
  {
    hide ListOk;
    ListKeep(retired, gens, gens + [g], Retired);
    ListKeep([], gens, gens + [g], Doomed);
  }

  lemma GrowStage(h: PC, h': PC, gens: seq<Gen>, g: Gen)
    requires h.MLoad? && StageOk(h, gens) && g.stage == Fresh && h'.MStore? && h'.newTok == |gens|
    ensures StageOk(h', gens + [g])
  {
  }

  lemma GrowPairs(s: State, k: Slot, g: Gen)
    requires SlotsOk(s.pages, s.slots, s.cur, s.gens)
    ensures CurPairs(s.cur, s.gens, k) == CurPairs(s.cur, s.gens + [g], k)
  {
  }

  lemma CopyGen(home: Pid -> Slot, s: State, op: Op, blocks: seq<Addr>)
    requires GensOk(home, s.gens) && SlotsOk(s.pages, s.slots, s.cur, s.gens)
    requires |blocks| == |Rebuilt(op, CurPairs(s.cur, s.gens, home(op.pid)))|
    ensures GenOk(home, Gen(blocks, Rebuilt(op, CurPairs(s.cur, s.gens, home(op.pid))), home(op.pid), Fresh, 0, None))
  {
    var k := home(op.pid);
    if k in s.cur { assert GenOk(home, s.gens[s.cur[k]]); }
    RebuiltOk(home, op, CurPairs(s.cur, s.gens, k), k);
  }

  lemma CopyMade(home: Pid -> Slot, s: State, th: Tid, g: Gen, pc: PC, heap: map<Addr, Node>)
    requires Inv(home, s) && th in s.threads && s.threads[th].MLoad?
    requires Built(s.heap, heap, g.addrs, g.pairs, |s.gens|)
    requires var op := s.threads[th].op;
             var k := home(op.pid);
             var pairs := CurPairs(s.cur, s.gens, k);
             && (op.Remove? ==> Find(pairs, op.pid).Some?)
             && g == Gen(g.addrs, Rebuilt(op, pairs), k, Fresh, 0, None)
             && pc == MStore(op, PtrAt(g.addrs, 0), |s.gens|, SlotPtr(s.slots, k), PrevTok(s, k),
                             Find(pairs, op.pid).Some?)
    ensures Inv(home, Go(s, th, pc).(heap := heap, gens := s.gens + [g]))
  {
    hide GensOk, HeapOk, SlotsOk, TableOk, StatusOk, ThreadsOk, CountOk, LockOk, FlightOk, HolderOk, WatchedOk;
    hide Rebuilt, Find, CurPairs;
    var was := s.threads[th];
    assert |g.addrs| == |g.pairs|;
    hide Built;
    CopyGen(home, s, was.op, g.addrs);
    GrowHeap(home, s.heap, s.gens, g, heap);
    GrowRest(home, s, g);
    GrowStatus(s.table, s.gens, s.status, s.log, g);
    LockMove(s.threads, s.lock, th, pc);
    GrowHolder(home, s, was, pc, g);
    FlightKeep(s.threads, s.status, th, pc);
    StillWatched(s.retired, s.readers, was, s.readers, pc, s.threads, th, pc);
    ThreadsMove(s.threads, s.gens + [g], th, pc);
    CountKeep(s.threads, s.readers, th, pc);
  }

  lemma CopyInv(home: Pid -> Slot, s: State, th: Tid, act: Act, s': State)
    requires Inv(home, s) && Next(home, s, th, act, s') && s.threads[th].MLoad?
    ensures Inv(home, s')
  {
    hide GensOk, HeapOk, SlotsOk, TableOk, StatusOk, ThreadsOk, CountOk, LockOk, FlightOk, HolderOk, WatchedOk;
    var op := s.threads[th].op;
    SeenIsCurrent(home, s, home(op.pid), act.seen);
    hide Inv, Built, Reads, Rebuilt, Find, CurPairs;
    if s'.threads[th].Unlock? {
      GiveUp(home, s, th, op, s');
    } else {
      CopyMade(home, s, th, Gen(act.blocks, Rebuilt(op, act.seen), home(op.pid), Fresh, 0, None), s'.threads[th],
               s'.heap);
    }
  }

  // ---------- publication ----------

  // The holder has built `h.newTok` from the current chain of its slot.
  ghost predicate Poised(home: Pid -> Slot, s: State, h: PC) {
    h.MStore? && StoreReady(home, h, s.pages, s.slots, s.cur, s.gens)
  }

  // What the store does to the generations.
  ghost predicate Swaps(gens: seq<Gen>, gens': seq<Gen>, n: Token, prev: Option<Token>, fin: Option<nat>) {
    && |gens'| == |gens|
    && n < |gens|
    && gens[n].stage == Fresh
    && gens'[n] == gens[n].(stage := Published)
    && (prev.Some? ==>
          && prev.value < |gens|
          && gens[prev.value].stage == Published
          && gens'[prev.value] == gens[prev.value].(stage := Unlinked, fin := fin))
    && (forall t :: 0 <= t < |gens| && t != n && Some(t) != prev ==> gens'[t] == gens[t])
  }

  lemma SwapShape(home: Pid -> Slot, s: State, h: PC)
    requires Poised(home, s, h) && GensOk(home, s.gens) && SlotsOk(s.pages, s.slots, s.cur, s.gens)
    ensures var k := home(h.op.pid);
            var pairs := CurPairs(s.cur, s.gens, k);
            && Swaps(s.gens, Swapped(s.gens, h), h.newTok, h.prevTok, IndexOf(pairs, h.op.pid))
            && h.prevTok == Get(s.cur, k)
            && (h.prevTok.Some? ==> s.gens[h.prevTok.value].pairs == pairs && s.gens[h.prevTok.value].slot == k)
            && (h.prevTok.None? ==> pairs == [])
            && s.gens[h.newTok].slot == k
            && h.head == PtrAt(s.gens[h.newTok].addrs, 0)
            && k.page in s.pages
            && h.fin == IndexOf(pairs, h.op.pid).Some?
            && h.prev == if k in s.slots then s.slots[k] else NULL
  {
    assert GenOk(home, s.gens[h.newTok]);
    hide Rebuilt, GensOk;
  }

  lemma SwapGens(home: Pid -> Slot, gens: seq<Gen>, gens': seq<Gen>, n: Token, prev: Option<Token>, fin: Option<nat>)
    requires Swaps(gens, gens', n, prev, fin) && GensOk(home, gens)
    requires prev.Some? && fin.Some? ==> fin.value < |gens[prev.value].pairs|
    ensures GensOk(home, gens') && Morph(gens, gens')
    ensures forall t :: 0 <= t < |gens| ==> gens'[t].freed == gens[t].freed
    ensures forall t :: 0 <= t < |gens| && Visible(gens[t].stage) ==> Visible(gens'[t].stage)
  {
    forall t | 0 <= t < |gens| ensures GenOk(home, gens'[t]) {
      assert GenOk(home, gens[t]);
    }
  }

  lemma SwapSlots(s: State, k: Slot, head: Addr, gens': seq<Gen>, n: Token, prev: Option<Token>, fin: Option<nat>)
    requires Swaps(s.gens, gens', n, prev, fin) && SlotsOk(s.pages, s.slots, s.cur, s.gens)
    requires k.page in s.pages && prev == Get(s.cur, k) && s.gens[n].slot == k && head == PtrAt(s.gens[n].addrs, 0)
    ensures SlotsOk(s.pages, s.slots[k := head], s.cur[k := n], gens')
  {
    hide SlotsOk, Swaps;
    var slots, cur := s.slots[k := head], s.cur[k := n];
    SwapNew(s, gens', n, prev, fin);
    assert slots.Keys == cur.Keys by { SlotKeys(s); }
    forall q | q in cur
      ensures q.page in s.pages && cur[q] < |gens'| && gens'[cur[q]].stage == Published
      ensures gens'[cur[q]].slot == q && slots[q] == PtrAt(gens'[cur[q]].addrs, 0)
    {
      if q != k { SwapOther(s, k, gens', n, prev, fin, q); }
    }
    forall t | 0 <= t < |gens'| && gens'[t].stage == Published ensures gens'[t].slot in cur && cur[gens'[t].slot] == t {
      if t != n { SwapStays(s, k, gens', n, prev, fin, t); }
    }
    SlotsAll(s.pages, slots, cur, gens');
  }

  lemma SlotsAll(pages: set<Page>, slots: map<Slot, Addr>, cur: map<Slot, Token>, gens: seq<Gen>)
    requires slots.Keys == cur.Keys
    requires forall q :: q in cur ==> q.page in pages && cur[q] < |gens| && gens[cur[q]].stage == Published
                                      && gens[cur[q]].slot == q && slots[q] == PtrAt(gens[cur[q]].addrs, 0)
    requires forall t :: 0 <= t < |gens| && gens[t].stage == Published ==> gens[t].slot in cur && cur[gens[t].slot] == t
    ensures SlotsOk(pages, slots, cur, gens)
  {
  }

  lemma SwapNew(s: State, gens': seq<Gen>, n: Token, prev: Option<Token>, fin: Option<nat>)
    requires Swaps(s.gens, gens', n, prev, fin)
    ensures n < |gens'| == |s.gens| && gens'[n] == s.gens[n].(stage := Published)
  {
  }

  lemma SlotKeys(s: State)
    requires SlotsOk(s.pages, s.slots, s.cur, s.gens)
    ensures s.slots.Keys == s.cur.Keys
  {
  }

  // Another slot keeps its generation.
  lemma SwapOther(s: State, k: Slot, gens': seq<Gen>, n: Token, prev: Option<Token>, fin: Option<nat>, q: Slot)
    requires Swaps(s.gens, gens', n, prev, fin) && SlotsOk(s.pages, s.slots, s.cur, s.gens)
    requires prev == Get(s.cur, k) && q in s.cur && q != k
    ensures q.page in s.pages && q in s.slots && s.cur[q] < |s.gens| && gens'[s.cur[q]] == s.gens[s.cur[q]]
    ensures s.gens[s.cur[q]].stage == Published && s.gens[s.cur[q]].slot == q
    ensures s.slots[q] == PtrAt(s.gens[s.cur[q]].addrs, 0)
  {
  }

  // Any other published generation was, and is, the current one of its slot.
  lemma SwapStays(s: State, k: Slot, gens': seq<Gen>, n: Token, prev: Option<Token>, fin: Option<nat>, t: Token)
    requires Swaps(s.gens, gens', n, prev, fin) && SlotsOk(s.pages, s.slots, s.cur, s.gens)
    requires prev == Get(s.cur, k) && t < |gens'| && t != n && gens'[t].stage == Published
    ensures gens'[t] == s.gens[t] && gens'[t].slot in s.cur && s.cur[gens'[t].slot] == t && gens'[t].slot != k
  {
  }

  lemma FindRebuilt(op: Op, ps: Pairs, q: Pid)
    ensures Find(Rebuilt(op, ps), q)
         == if q != op.pid then Find(ps, q) else if op.Add? then Some(op.reg) else None
  {
    FindWithout(ps, op.pid, q);
    assert op.Add? ==> Rebuilt(op, ps)[1..] == Without(ps, op.pid);
  }

  lemma SwapTable(home: Pid -> Slot, s: State, h: PC)
    requires Poised(home, s, h) && SlotsOk(s.pages, s.slots, s.cur, s.gens) && TableOk(home, s.table, s.cur, s.gens)
    requires Morph(s.gens, Swapped(s.gens, h))
    ensures TableOk(home, Apply(h.op, s.table), s.cur[home(h.op.pid) := h.newTok], Swapped(s.gens, h))
  {
    hide Swapped, Rebuilt;
    var k := home(h.op.pid);
    var gens := Swapped(s.gens, h);
    var cur := s.cur[k := h.newTok];
    forall pid ensures Get(Apply(h.op, s.table), pid) == Find(CurPairs(cur, gens, home(pid)), pid) {
      if home(pid) == k {
        FindRebuilt(h.op, CurPairs(s.cur, s.gens, k), pid);
        assert SameBody(s.gens[h.newTok], gens[h.newTok]);
      } else if home(pid) in s.cur {
        assert SameBody(s.gens[cur[home(pid)]], gens[cur[home(pid)]]);
      }
    }
  }

  // What the swap does to debts: the unlinked chain owes exactly the replaced registration.
  ghost predicate NewDebt(s: State, gens: seq<Gen>, prev: Option<Token>, pid: Pid) {
    && |gens| == |s.gens|
    && (forall t :: 0 <= t < |gens| && Some(t) != prev ==>
          Owes(gens[t]) == Owes(s.gens[t]) && FinReg(gens[t]) == FinReg(s.gens[t]))
    && (prev.None? ==> pid !in s.table)
    && (prev.Some? ==>
          && prev.value < |gens|
          && !Owes(s.gens[prev.value])
          && Owes(gens[prev.value]) == (pid in s.table)
          && (pid in s.table ==> FinReg(gens[prev.value]) == Some(s.table[pid])))
  }

  lemma SwapOwes(s: State, pid: Pid, gens': seq<Gen>, n: Token, prev: Option<Token>, pairs: Pairs)
    requires Swaps(s.gens, gens', n, prev, IndexOf(pairs, pid)) && Get(s.table, pid) == Find(pairs, pid)
    requires if prev.Some? then s.gens[prev.value].pairs == pairs && s.gens[prev.value].freed == 0 else pairs == []
    ensures NewDebt(s, gens', prev, pid)
  {
    if prev.None? { assert Find(pairs, pid).None?; }
    hide Find;
    var fin := IndexOf(pairs, pid);
    assert fin.Some? == (pid in s.table);
    assert FinReg(s.gens[n]).None? || !InLimbo(gens'[n]);
    forall t | 0 <= t < |gens'| && Some(t) != prev
      ensures Owes(gens'[t]) == Owes(s.gens[t]) && FinReg(gens'[t]) == FinReg(s.gens[t])
    {
    }
    if prev.Some? { assert !Owes(s.gens[prev.value]); }
  }

  lemma SwapStatus(s: State, h: PC, gens: seq<Gen>)
    requires h.MStore? && StatusOk(s.table, s.gens, s.status, s.log) && NewDebt(s, gens, h.prevTok, h.op.pid)
    requires h.op.Add? ==> h.op.reg in s.status && s.status[h.op.reg].InFlight?
    ensures StatusOk(Apply(h.op, s.table), gens, SwappedStatus(s, h), s.log)
  {
    hide Owes, FinReg;
    var pid := h.op.pid;
    if pid in s.table {
      var st := s.status[s.table[pid] := Dying(h.prevTok.value)];
      DropLive(s.table, s.gens, s.status, s.log, pid, h.prevTok.value, gens);
      if h.op.Add? {
        AddLive(s.table - {pid}, gens, st, s.log, pid, h.op.reg);
        assert (s.table - {pid})[pid := h.op.reg] == s.table[pid := h.op.reg];
      }
    } else {
      MorphStatus(s.table, s.gens, gens, s.status, s.log);
      assert s.table - {pid} == s.table;
      if h.op.Add? { AddLive(s.table, gens, s.status, s.log, pid, h.op.reg); }
    }
  }

  lemma DropLive(table: map<Pid, Reg>, gens: seq<Gen>, status: map<Reg, Status>, log: seq<Reg>, pid: Pid, t: Token,
                 gens': seq<Gen>)
    requires StatusOk(table, gens, status, log) && pid in table && t < |gens| == |gens'|
    requires forall u :: 0 <= u < |gens| && u != t ==>
               Owes(gens'[u]) == Owes(gens[u]) && FinReg(gens'[u]) == FinReg(gens[u])
    requires !Owes(gens[t]) && Owes(gens'[t]) && FinReg(gens'[t]) == Some(table[pid])
    ensures StatusOk(table - {pid}, gens', status[table[pid] := Dying(t)], log)
  {
    hide Owes;
    var status' := status[table[pid] := Dying(t)];
    forall r | r in status' ensures Accounted(table - {pid}, gens', log, r, status'[r]) {
      if r != table[pid] { assert Accounted(table, gens, log, r, status[r]); }
    }
  }

  lemma AddLive(table: map<Pid, Reg>, gens: seq<Gen>, status: map<Reg, Status>, log: seq<Reg>, pid: Pid, r: Reg)
    requires StatusOk(table, gens, status, log) && pid !in table && r in status && status[r].InFlight?
    ensures StatusOk(table[pid := r], gens, status[r := Live(pid)], log)
  {
    hide Owes;
    var status' := status[r := Live(pid)];
    forall q | q in status' ensures Accounted(table[pid := r], gens, log, q, status'[q]) {
      if q != r { assert Accounted(table, gens, log, q, status[q]); }
    }
  }

  lemma SwapHolder(home: Pid -> Slot, s: State, h: PC)
    requires Poised(home, s, h) && HolderOk(home, h, s.pages, s.slots, s.cur, s.gens, s.retired)
    requires GensOk(home, s.gens) && SlotsOk(s.pages, s.slots, s.cur, s.gens)
    ensures var k := home(h.op.pid);
            HolderOk(home, MRetire(h.op, h.prev, h.prevTok, h.fin), s.pages, s.slots[k := h.head], s.cur[k := h.newTok],
                     Swapped(s.gens, h), s.retired)
  {
    assert h.MStore?;
    hide Poised, StoreReady, Swapped, ListOk, CurPairs, Find, StageOk, RetireReady, GensOk, SlotsOk, Swaps, IndexOf;
    SwapShape(home, s, h);
    SwapReady(home, s, h);
    var gens := Swapped(s.gens, h);
    var fin := IndexOf(CurPairs(s.cur, s.gens, home(h.op.pid)), h.op.pid);
    SwapLists(s.retired, s.gens, gens, h.newTok, h.prevTok, fin);
    SwapStage(h, s.gens, gens, fin);
  }

  lemma SwapLists(retired: seq<Entry>, gens: seq<Gen>, gens': seq<Gen>, n: Token, prev: Option<Token>, fin: Option<nat>)
    requires Swaps(gens, gens', n, prev, fin) && ListOk(retired, gens, Retired) && ListOk([], gens, Doomed)
    ensures ListOk(retired, gens', Retired) && ListOk([], gens', Doomed)
  {
    hide ListOk;
    ListKeep(retired, gens, gens', Retired);
    ListKeep([], gens, gens', Doomed);
  }

  // The new generation is no longer fresh; the old one is the only unlinked one.
  lemma SwapStage(h: PC, gens: seq<Gen>, gens': seq<Gen>, fin: Option<nat>)
    requires h.MStore? && StageOk(h, gens) && Swaps(gens, gens', h.newTok, h.prevTok, fin)
    ensures StageOk(MRetire(h.op, h.prev, h.prevTok, h.fin), gens')
  {
  }

  // The entry for the old generation fits.
  lemma SwapReady(home: Pid -> Slot, s: State, h: PC)
    requires Poised(home, s, h) && GensOk(home, s.gens) && SlotsOk(s.pages, s.slots, s.cur, s.gens)
    ensures RetireReady(MRetire(h.op, h.prev, h.prevTok, h.fin), Swapped(s.gens, h))
  {
    SwapShape(home, s, h);
    if h.prevTok.Some? { assert GenOk(home, s.gens[h.prevTok.value]); }
    hide Poised, StoreReady, Swapped, CurPairs, Find, GensOk;
    if h.prevTok.Some? { assert s.slots[home(h.op.pid)] == PtrAt(s.gens[h.prevTok.value].addrs, 0); }
  }

  lemma SwapFlight(home: Pid -> Slot, s: State, th: Tid, pc: PC)
    requires FlightOk(s.threads, s.status) && th in s.threads && s.threads[th].MStore? && Flying(pc).None?
    requires var op := s.threads[th].op;
             op.pid in s.table ==> s.table[op.pid] in s.status && s.status[s.table[op.pid]] == Live(op.pid)
    ensures FlightOk(s.threads[th := pc], SwappedStatus(s, s.threads[th]))
    ensures s.threads[th].op.Add? ==> s.threads[th].op.reg in s.status && s.status[s.threads[th].op.reg].InFlight?
  {
    hide FlightOk;
    var h := s.threads[th];
    var dying := if h.op.pid in s.table && h.prevTok.Some? then Some(s.table[h.op.pid]) else None;
    FlightMark(s.threads, s.status, dying, Dying(TokOf(h.prevTok)));
    if h.op.Add? {
      FlightEnd(s.threads, Mark(s.status, dying, Dying(TokOf(h.prevTok))), th, pc, Live(h.op.pid));
      StillFlying(s.threads, s.status, th);
    } else {
      FlightKeep(s.threads, Mark(s.status, dying, Dying(TokOf(h.prevTok))), th, pc);
    }
  }

  lemma StillFlying(threads: map<Tid, PC>, status: map<Reg, Status>, th: Tid)
    requires FlightOk(threads, status) && th in threads && Flying(threads[th]).Some?
    ensures Flying(threads[th]).value in status && status[Flying(threads[th]).value] == InFlight(th)
  {
  }

  lemma StoreReadyHolds(home: Pid -> Slot, s: State, th: Tid)
    requires Inv(home, s) && th in s.threads && s.threads[th].MStore?
    ensures Poised(home, s, s.threads[th])
  {
    hide GensOk, HeapOk, SlotsOk, TableOk, StatusOk, ThreadsOk, CountOk, LockOk, FlightOk, WatchedOk, StageOk, ListOk,
         StoreReady;
    LockMove(s.threads, s.lock, th, s.threads[th]);
  }

  lemma Publish(home: Pid -> Slot, s: State, th: Tid)
    requires Inv(home, s) && th in s.threads && s.threads[th].MStore? && Poised(home, s, s.threads[th])
    ensures var h := s.threads[th]; var k := home(h.op.pid);
            Inv(home, Go(s, th, MRetire(h.op, h.prev, h.prevTok, h.fin)).(
                      slots := s.slots[k := h.head],
                      cur := s.cur[k := h.newTok],
                      gens := Swapped(s.gens, h),
                      table := Apply(h.op, s.table),
                      status := SwappedStatus(s, h)))
  {
    hide GensOk, HeapOk, SlotsOk, TableOk, StatusOk, ThreadsOk, CountOk, LockOk, FlightOk, HolderOk, WatchedOk;
    hide Poised, Swapped, SwappedStatus, Apply, StoreReady;
    var h := s.threads[th];
    var pc := MRetire(h.op, h.prev, h.prevTok, h.fin);
    LockMove(s.threads, s.lock, th, pc);
    SwapData(home, s, h);
    SwapDebts(home, s, th, pc);
    SwapHolder(home, s, h);
    StillWatched(s.retired, s.readers, h, s.readers, pc, s.threads, th, pc);
    ThreadsMove(s.threads, Swapped(s.gens, h), th, pc);
    CountKeep(s.threads, s.readers, th, pc);
  }

  lemma StoreInv(home: Pid -> Slot, s: State, th: Tid, act: Act, s': State)
    requires Inv(home, s) && Next(home, s, th, act, s') && s.threads[th].MStore?
    ensures Inv(home, s')
  {
    hide Inv, Poised, Swapped, SwappedStatus, Apply;
    StoreReadyHolds(home, s, th);
    Publish(home, s, th);
  }

  lemma SwapData(home: Pid -> Slot, s: State, h: PC)
    requires Poised(home, s, h) && GensOk(home, s.gens) && HeapOk(s.heap, s.gens) && ThreadsOk(s.threads, s.gens)
    requires SlotsOk(s.pages, s.slots, s.cur, s.gens) && TableOk(home, s.table, s.cur, s.gens)
    ensures var k := home(h.op.pid);
            var gens := Swapped(s.gens, h);
            && GensOk(home, gens) && HeapOk(s.heap, gens) && ThreadsOk(s.threads, gens)
            && SlotsOk(s.pages, s.slots[k := h.head], s.cur[k := h.newTok], gens)
            && TableOk(home, Apply(h.op, s.table), s.cur[k := h.newTok], gens)
  {
    hide GensOk, HeapOk, ThreadsOk, SlotsOk, TableOk, StoreReady, Swapped, Swaps, Morph, CurPairs, Apply;
    var k := home(h.op.pid);
    var gens := Swapped(s.gens, h);
    var fin := IndexOf(CurPairs(s.cur, s.gens, k), h.op.pid);
    SwapShape(home, s, h);
    assert h.newTok < |s.gens| && (h.prevTok.Some? ==> h.prevTok.value < |s.gens|) by {
      InRange(s.gens, gens, h.newTok, h.prevTok, fin);
    }
    SwapGens(home, s.gens, gens, h.newTok, h.prevTok, fin);
    MorphHeap(s.heap, s.gens, gens);
    SwapSlots(s, k, h.head, gens, h.newTok, h.prevTok, fin);
    SwapTable(home, s, h);
    MorphThreads(s.threads, s.gens, gens);
  }

  lemma InRange(gens: seq<Gen>, gens': seq<Gen>, n: Token, prev: Option<Token>, fin: Option<nat>)
    requires Swaps(gens, gens', n, prev, fin)
    ensures n < |gens| == |gens'| && (prev.Some? ==> prev.value < |gens|)
  {
  }

  lemma SwapDebts(home: Pid -> Slot, s: State, th: Tid, pc: PC)
    requires Inv(home, s) && th in s.threads && s.threads[th].MStore? && Flying(pc).None?
    requires Poised(home, s, s.threads[th])
    ensures StatusOk(Apply(s.threads[th].op, s.table), Swapped(s.gens, s.threads[th]), SwappedStatus(s, s.threads[th]),
                     s.log)
    ensures FlightOk(s.threads[th := pc], SwappedStatus(s, s.threads[th]))
  {
    hide GensOk, HeapOk, SlotsOk, TableOk, StatusOk, ThreadsOk, CountOk, LockOk, FlightOk, HolderOk, WatchedOk;
    hide Swapped, SwappedStatus, Apply, Owes, FinReg, StoreReady, Poised, Swaps, NewDebt;
    var h := s.threads[th];
    SwapShape(home, s, h);
    SwapOwed(home, s, h);
    if h.op.Add? { StillFlying(s.threads, s.status, th); }
    SwapStatus(s, h, Swapped(s.gens, h));
    TableLive(s.table, s.gens, s.status, s.log);
    SwapFlight(home, s, th, pc);
  }

  lemma SwapOwed(home: Pid -> Slot, s: State, h: PC)
    requires Poised(home, s, h) && GensOk(home, s.gens) && SlotsOk(s.pages, s.slots, s.cur, s.gens)
    requires TableOk(home, s.table, s.cur, s.gens)
    ensures NewDebt(s, Swapped(s.gens, h), h.prevTok, h.op.pid)
  {
    hide Swapped, StoreReady, SlotsOk;
    SwapShape(home, s, h);
    if h.prevTok.Some? { assert GenOk(home, s.gens[h.prevTok.value]); }
    SwapOwes(s, h.op.pid, Swapped(s.gens, h), h.newTok, h.prevTok, CurPairs(s.cur, s.gens, home(h.op.pid)));
  }

  lemma TableLive(table: map<Pid, Reg>, gens: seq<Gen>, status: map<Reg, Status>, log: seq<Reg>)
    requires StatusOk(table, gens, status, log)
    ensures forall pid :: pid in table ==> table[pid] in status && status[table[pid]] == Live(pid)
  {
  }

  // ---------- every step ----------

  lemma NextInv(home: Pid -> Slot, s: State, th: Tid, act: Act, s': State)
    requires Inv(home, s) && Next(home, s, th, act, s')
    ensures Inv(home, s')
  {
    hide Inv, Effect, NextPC;
    match s.threads[th]
    case Idle => BeginInv(home, s, th, act, s');
    case RPage(_) => PageInv(home, s, th, act, s');
    case RSlot(_) => SlotInv(home, s, th, act, s');
    case RWalk(_, _, _, _, _) => WalkInv(home, s, th, act, s');
    case RLeave(_) => LeaveInv(home, s, th, act, s');
    case ROwe(_) => LockInv(home, s, th, act, s');
    case RFree(out) => TakeInv(home, s, th, out, act, s');
    case MWait(_) => LockInv(home, s, th, act, s');
    case MPage(_) => MPageInv(home, s, th, act, s');
    case MPageStore(_) => MPageInv(home, s, th, act, s');
    case MLoad(_) => CopyInv(home, s, th, act, s');
    case MStore(_, _, _, _, _, _) => StoreInv(home, s, th, act, s');
    case MRetire(_, _, _, _) => RetireInv(home, s, th, act, s');
    case MPush(_, _, _, _) => PushInv(home, s, th, act, s');
    case MRecheck(op) => TakeInv(home, s, th, Mutated(op, 0, true), act, s');
    case Freeing(_, _) => FreeInv(home, s, th, act, s');
    case Unlock(_) => UnlockInv(home, s, th, act, s');
    case Done(_) => DoneInv(home, s, th, act, s');
  }

  lemma DoneInv(home: Pid -> Slot, s: State, th: Tid, act: Act, s': State)
    requires Inv(home, s) && Next(home, s, th, act, s') && s.threads[th].Done?
    ensures Inv(home, s')
  {
    hide GensOk, HeapOk, SlotsOk, TableOk, StatusOk, ThreadsOk, CountOk, LockOk, FlightOk, HolderOk, WatchedOk;
    Quiet(home, s, th, Idle);
  }

  lemma TakeInv(home: Pid -> Slot, s: State, th: Tid, out: Outcome, act: Act, s': State)
    requires Inv(home, s) && Next(home, s, th, act, s')
    requires s.threads[th] == RFree(out) || (s.threads[th].MRecheck? && out == Mutated(s.threads[th].op, 0, true))
    ensures Inv(home, s')
  {
    hide GensOk, HeapOk, SlotsOk, TableOk, StatusOk, CountOk, LockOk, FlightOk, HolderOk, WatchedOk;
    assert OutcomeOk(out) by { assert ThreadOk(s.threads[th], s.gens); }
    hide Inv;
    if s.readers == 0 { TakeAll(home, s, th, out); } else { TakeNone(home, s, th, out); }
  }
}
