/** Every step of the route table preserves the invariant: one lemma per kind of step. */
module RouteSteps {
  import opened Options
  import opened RouteTable
  import opened RouteInvariant

  lemma InitInv(home: Pid -> Slot, s: State)
    requires Init(s)
    ensures Inv(home, s)
  {
    hide StoreReady, RetireReady, GenOk, NodeOk, Owes, Fits, Lists;
    assert Counted(s.threads) == {};
  }

  // ---------- one thread moves ----------

  predicate Watches(pc: PC) {
    pc.ROwe? || pc.RFree?
  }

  lemma StillWatched(retired: seq<Entry>, readers: nat, h: PC, readers': nat, h': PC,
                     threads: map<Tid, PC>, th: Tid, pc: PC)
    requires WatchedOk(retired, readers, h, threads)
    requires th in threads && (Watches(threads[th]) ==> Watches(pc) || readers' > 0)
    requires h.MRecheck? ==> h'.MRecheck? || readers' > 0
    requires readers > 0 ==> readers' > 0 || Watches(pc)
    ensures WatchedOk(retired, readers', h', threads[th := pc])
  {
    assert threads[th := pc][th] == pc;
    if w :| w in threads && Watches(threads[w]) {
      assert threads[th := pc][w] == if w == th then pc else threads[w];
    }
  }

  function LockAfter(lock: Option<Tid>, th: Tid, was: PC, pc: PC): Option<Tid> {
    if Holds(pc) then Some(th) else if Holds(was) then None else lock
  }

  function HolderAfter(h: PC, was: PC, pc: PC): PC {
    if Holds(pc) then pc else if Holds(was) then Idle else h
  }

  lemma LockMove(threads: map<Tid, PC>, lock: Option<Tid>, th: Tid, pc: PC)
    requires LockOk(threads, lock) && th in threads
    requires Holds(pc) && !Holds(threads[th]) ==> lock.None?
    ensures LockOk(threads[th := pc], LockAfter(lock, th, threads[th], pc))
    ensures Holder(threads[th := pc], LockAfter(lock, th, threads[th], pc))
         == HolderAfter(Holder(threads, lock), threads[th], pc)
    ensures Holds(threads[th]) ==> lock == Some(th) && Holder(threads, lock) == threads[th]
  {
    hide Holds;
  }

  // The registration of a pending add.
  function Flying(pc: PC): Option<Reg> {
    if Pending(pc) && pc.op.Add? then Some(pc.op.reg) else None
  }

  lemma FlightKeep(threads: map<Tid, PC>, status: map<Reg, Status>, th: Tid, pc: PC)
    requires FlightOk(threads, status) && th in threads && Flying(pc) == Flying(threads[th])
    ensures FlightOk(threads[th := pc], status)
  {
    hide Pending;
    assert forall t :: t in threads ==> Flying(threads[th := pc][t]) == Flying(threads[t]);
  }

  lemma FlightEnd(threads: map<Tid, PC>, status: map<Reg, Status>, th: Tid, pc: PC, st: Status)
    requires FlightOk(threads, status) && th in threads && Flying(threads[th]).Some? && Flying(pc).None?
    requires !st.InFlight?
    ensures FlightOk(threads[th := pc], status[Flying(threads[th]).value := st])
  {
    hide Pending;
  }

  lemma FlightBegin(threads: map<Tid, PC>, status: map<Reg, Status>, th: Tid, pc: PC)
    requires FlightOk(threads, status) && th in threads && Flying(threads[th]).None? && Flying(pc).Some?
    requires Flying(pc).value !in status
    ensures FlightOk(threads[th := pc], status[Flying(pc).value := InFlight(th)])
  {
    hide Pending;
  }

  lemma ThreadsMove(threads: map<Tid, PC>, gens: seq<Gen>, th: Tid, pc: PC)
    requires ThreadsOk(threads, gens) && ThreadOk(pc, gens)
    ensures ThreadsOk(threads[th := pc], gens)
  {
    hide ThreadOk;
  }

  lemma CountKeep(threads: map<Tid, PC>, readers: nat, th: Tid, pc: PC)
    requires CountOk(threads, readers) && th in threads && InRegion(threads[th]) == InRegion(pc)
    ensures CountOk(threads[th := pc], readers)
  {
    hide InRegion, Counted;
    CountStep(threads, th, pc);
  }

  // ---------- readers ----------

  // A step of a thread that neither holds the lock nor enters or leaves the counted region.
  lemma Quiet(home: Pid -> Slot, s: State, th: Tid, pc: PC)
    requires Inv(home, s) && th in s.threads
    requires !Holds(s.threads[th]) && !Holds(pc) && InRegion(s.threads[th]) == InRegion(pc)
    requires Flying(s.threads[th]).None? && Flying(pc).None? && !Watches(s.threads[th])
    requires ThreadOk(pc, s.gens)
    ensures Inv(home, Go(s, th, pc))
  {
    hide GensOk, HeapOk, SlotsOk, TableOk, StatusOk, ThreadsOk, ThreadOk, CountOk, LockOk, FlightOk, HolderOk,
         WatchedOk,
         Holds, InRegion, Flying;
    CountKeep(s.threads, s.readers, th, pc);
    LockMove(s.threads, s.lock, th, pc);
    FlightKeep(s.threads, s.status, th, pc);
    ThreadsMove(s.threads, s.gens, th, pc);
    var h := Holder(s.threads, s.lock);
    StillWatched(s.retired, s.readers, h, s.readers, h, s.threads, th, pc);
  }

  // Giving a registration a status it may have without a place in the table or in a chain.
  lemma StatusSet(table: map<Pid, Reg>, gens: seq<Gen>, status: map<Reg, Status>, log: seq<Reg>, r: Reg, st: Status)
    requires StatusOk(table, gens, status, log) && (st.InFlight? || st.Failed?)
    requires r !in status || status[r].InFlight?
    ensures StatusOk(table, gens, status[r := st], log)
  {
    hide Owes, FinReg;
  }

  lemma BeginInv(home: Pid -> Slot, s: State, th: Tid, act: Act, s': State)
    requires Inv(home, s) && Next(home, s, th, act, s') && s.threads[th].Idle?
    ensures Inv(home, s')
  {
    hide GensOk, HeapOk, SlotsOk, TableOk, StatusOk, ThreadsOk, CountOk, LockOk, FlightOk, HolderOk, WatchedOk;
    var pc := s'.threads[th];
    var h := Holder(s.threads, s.lock);
    LockMove(s.threads, s.lock, th, pc);
    ThreadsMove(s.threads, s.gens, th, pc);
    if Flying(pc).Some? { FlightBegin(s.threads, s.status, th, pc); } else { FlightKeep(s.threads, s.status, th, pc); }
    if act.Lookup? {
      CountUp(s.threads, s.readers, th, pc);
    } else {
      CountKeep(s.threads, s.readers, th, pc);
      if act.op.Add? { StatusSet(s.table, s.gens, s.status, s.log, act.op.reg, InFlight(th)); }
    }
    StillWatched(s.retired, s.readers, h, s'.readers, h, s.threads, th, pc);
  }

  lemma CountUp(threads: map<Tid, PC>, readers: nat, th: Tid, pc: PC)
    requires CountOk(threads, readers) && th in threads && !InRegion(threads[th]) && InRegion(pc)
    ensures (readers + 1) % COUNTER_LIMIT == readers + 1
    ensures CountOk(threads[th := pc], readers + 1)
  {
    hide InRegion, Counted;
    CountStep(threads, th, pc);
  }

  lemma CountDown(threads: map<Tid, PC>, readers: nat, th: Tid, pc: PC)
    requires CountOk(threads, readers) && th in threads && InRegion(threads[th]) && !InRegion(pc)
    ensures 0 < readers && (readers + COUNTER_LIMIT - 1) % COUNTER_LIMIT == readers - 1
    ensures CountOk(threads[th := pc], readers - 1)
  {
    hide InRegion;
    assert th in Counted(threads);
    SubsetSize(Counted(threads), threads.Keys);
    CountStep(threads, th, pc);
  }

  lemma PageInv(home: Pid -> Slot, s: State, th: Tid, act: Act, s': State)
    requires Inv(home, s) && Next(home, s, th, act, s') && s.threads[th].RPage?
    ensures Inv(home, s')
  {
    hide GensOk, HeapOk, StatusOk, ThreadsOk, CountOk, LockOk, FlightOk, HolderOk, WatchedOk;
    var pid := s.threads[th].pid;
    assert home(pid).page !in s.pages ==> CurPairs(s.cur, s.gens, home(pid)) == [];
    Quiet(home, s, th, s'.threads[th]);
  }

  // What a slot load returns is the head of the slot's current generation.
  lemma SlotHead(home: Pid -> Slot, s: State, pid: Pid)
    requires GensOk(home, s.gens) && HeapOk(s.heap, s.gens) && SlotsOk(s.pages, s.slots, s.cur, s.gens)
    requires TableOk(home, s.table, s.cur, s.gens)
    ensures var p := SlotPtr(s.slots, home(pid));
            if p == NULL then Get(s.table, pid) == None
            else ThreadOk(RWalk(pid, p, TokOf(PrevTok(s, home(pid))), 0, Get(s.table, pid)), s.gens)
  {
    var k := home(pid);
    if k in s.cur {
      var g := s.gens[s.cur[k]];
      assert GenOk(home, g);
      assert g.pairs[0..] == g.pairs;
      if |g.addrs| > 0 { assert NodeOk(s.heap, g, s.cur[k], 0); }
    }
  }

  lemma SlotInv(home: Pid -> Slot, s: State, th: Tid, act: Act, s': State)
    requires Inv(home, s) && Next(home, s, th, act, s') && s.threads[th].RSlot?
    ensures Inv(home, s')
  {
    hide GensOk, HeapOk, SlotsOk, TableOk, StatusOk, ThreadsOk, CountOk, LockOk, FlightOk, HolderOk, WatchedOk;
    SlotHead(home, s, s.threads[th].pid);
    Quiet(home, s, th, s'.threads[th]);
  }

  // A reader's node is live, and its `next` is the next node of the same generation.
  lemma WalkNode(home: Pid -> Slot, s: State, pc: PC)
    requires pc.RWalk? && ThreadOk(pc, s.gens) && GensOk(home, s.gens) && HeapOk(s.heap, s.gens)
    ensures pc.p in s.heap
    ensures var n := s.heap[pc.p];
            if n.pid == pc.pid then pc.lin == Some(n.reg)
            else if n.next == NULL then pc.lin == None
            else ThreadOk(RWalk(pc.pid, n.next, pc.rtok, pc.i + 1, pc.lin), s.gens)
  {
    var g := s.gens[pc.rtok];
    assert GenOk(home, g) && NodeOk(s.heap, g, pc.rtok, pc.i);
    assert g.pairs[pc.i..][1..] == g.pairs[pc.i + 1..];
    if pc.i + 1 < |g.addrs| {
      assert NodeOk(s.heap, g, pc.rtok, pc.i + 1);
    } else {
      assert g.pairs[pc.i + 1..] == [];
      assert Find(g.pairs[pc.i..][1..], pc.pid) == None;
    }
  }

  lemma WalkInv(home: Pid -> Slot, s: State, th: Tid, act: Act, s': State)
    requires Inv(home, s) && Next(home, s, th, act, s') && s.threads[th].RWalk?
    ensures Inv(home, s')
  {
    hide GensOk, HeapOk, SlotsOk, TableOk, StatusOk, CountOk, LockOk, FlightOk, HolderOk, WatchedOk;
    WalkNode(home, s, s.threads[th]);
    Quiet(home, s, th, s'.threads[th]);
  }

  lemma LeaveInv(home: Pid -> Slot, s: State, th: Tid, act: Act, s': State)
    requires Inv(home, s) && Next(home, s, th, act, s') && s.threads[th].RLeave?
    ensures Inv(home, s')
  {
    hide GensOk, HeapOk, SlotsOk, TableOk, StatusOk, CountOk, LockOk, FlightOk, HolderOk, WatchedOk;
    var pc := s'.threads[th];
    var h := Holder(s.threads, s.lock);
    assert ThreadOk(s.threads[th], s.gens);
    LockMove(s.threads, s.lock, th, pc);
    FlightKeep(s.threads, s.status, th, pc);
    ThreadsMove(s.threads, s.gens, th, pc);
    CountDown(s.threads, s.readers, th, pc);
    StillWatched(s.retired, s.readers, h, s'.readers, h, s.threads, th, pc);
  }

  // ---------- the lock holder ----------

  // A step of a thread that holds the lock before or after it, with the reader count unchanged.
  lemma Locked(home: Pid -> Slot, s: State, th: Tid, pc: PC, s': State)
    requires Inv(home, s) && th in s.threads && s'.threads == s.threads[th := pc]
    requires !InRegion(s.threads[th]) && !InRegion(pc)
    requires Holds(pc) && !Holds(s.threads[th]) ==> s.lock.None?
    requires s'.lock == if Holds(pc) == Holds(s.threads[th]) then s.lock else if Holds(pc) then Some(th) else None
    requires s'.readers == s.readers
    requires ThreadsOk(s.threads, s'.gens) && ThreadOk(pc, s'.gens)
    ensures ThreadsOk(s'.threads, s'.gens) && CountOk(s'.threads, s'.readers) && LockOk(s'.threads, s'.lock)
    ensures Holder(s'.threads, s'.lock) == HolderAfter(Holder(s.threads, s.lock), s.threads[th], pc)
    ensures Holds(s.threads[th]) ==> Holder(s.threads, s.lock) == s.threads[th]
  {
    hide GensOk, HeapOk, SlotsOk, TableOk, StatusOk, ThreadsOk, CountOk, LockOk, FlightOk, HolderOk, WatchedOk,
         Holds, InRegion, ThreadOk;
    LockMove(s.threads, s.lock, th, pc);
    ThreadsMove(s.threads, s'.gens, th, pc);
    CountKeep(s.threads, s.readers, th, pc);
  }

  predicate Carries(pc: PC) {
    pc.MStore? || pc.MRetire? || pc.MPush? || pc.Freeing?
  }

  // Between two control points at which the holder carries no chain.
  lemma HolderMove(home: Pid -> Slot, h: PC, h': PC, s: State, pages: set<Page>)
    requires HolderOk(home, h, s.pages, s.slots, s.cur, s.gens, s.retired) && !Carries(h) && !Carries(h')
    requires h'.MLoad? ==> home(h'.op.pid).page in pages
    ensures HolderOk(home, h', pages, s.slots, s.cur, s.gens, s.retired)
  {
    hide ListOk;
  }

  lemma LockInv(home: Pid -> Slot, s: State, th: Tid, act: Act, s': State)
    requires Inv(home, s) && Next(home, s, th, act, s') && (s.threads[th].ROwe? || s.threads[th].MWait?)
    ensures Inv(home, s')
  {
    hide GensOk, HeapOk, SlotsOk, TableOk, StatusOk, CountOk, LockOk, FlightOk, HolderOk, WatchedOk;
    var pc := s'.threads[th];
    assert ThreadOk(s.threads[th], s.gens);
    Locked(home, s, th, pc, s');
    FlightKeep(s.threads, s.status, th, pc);
    StillWatched(s.retired, s.readers, Idle, s'.readers, pc, s.threads, th, pc);
    HolderMove(home, Idle, pc, s, s'.pages);
  }

  lemma UnlockInv(home: Pid -> Slot, s: State, th: Tid, act: Act, s': State)
    requires Inv(home, s) && Next(home, s, th, act, s') && s.threads[th].Unlock?
    ensures Inv(home, s')
  {
    hide GensOk, HeapOk, SlotsOk, TableOk, StatusOk, CountOk, LockOk, FlightOk, HolderOk, WatchedOk;
    var pc := s'.threads[th];
    assert ThreadOk(s.threads[th], s.gens);
    Locked(home, s, th, pc, s');
    FlightKeep(s.threads, s.status, th, pc);
    StillWatched(s.retired, s.readers, s.threads[th], s'.readers, Idle, s.threads, th, pc);
    HolderMove(home, s.threads[th], Idle, s, s'.pages);
  }

  lemma MorePages(pages: set<Page>, more: set<Page>, slots: map<Slot, Addr>, cur: map<Slot, Token>, gens: seq<Gen>)
    requires SlotsOk(pages, slots, cur, gens) && pages <= more
    ensures SlotsOk(more, slots, cur, gens)
  {
  }

  // A mutation that gives up before publishing.
  lemma GiveUp(home: Pid -> Slot, s: State, th: Tid, op: Op, s': State)
    requires Inv(home, s) && th in s.threads && s.threads[th] in {MPage(op), MLoad(op)}
    requires s' == Go(s, th, Unlock(Mutated(op, -1, false))).(status := Reset(s.status, op, Failed))
    ensures Inv(home, s')
  {
    hide GensOk, HeapOk, SlotsOk, TableOk, StatusOk, ThreadsOk, CountOk, LockOk, FlightOk, HolderOk, WatchedOk;
    var pc := s'.threads[th];
    Locked(home, s, th, pc, s');
    if op.Add? {
      FlightEnd(s.threads, s.status, th, pc, Failed);
      StatusSetOk(s, th, op.reg);
    } else {
      FlightKeep(s.threads, s.status, th, pc);
    }
    StillWatched(s.retired, s.readers, s.threads[th], s'.readers, pc, s.threads, th, pc);
    HolderMove(home, s.threads[th], pc, s, s.pages);
  }

  lemma Advance(home: Pid -> Slot, s: State, th: Tid, op: Op, pc: PC, pages: set<Page>)
    requires Inv(home, s) && th in s.threads && s.pages <= pages
    requires s.threads[th] in {MPage(op), MPageStore(op)} && pc in {MPageStore(op), MLoad(op)}
    requires pc.MLoad? ==> home(op.pid).page in pages
    ensures Inv(home, Go(s, th, pc).(pages := pages))
  {
    hide GensOk, HeapOk, SlotsOk, TableOk, StatusOk, ThreadsOk, CountOk, LockOk, FlightOk, HolderOk, WatchedOk;
    var s' := Go(s, th, pc).(pages := pages);
    Locked(home, s, th, pc, s');
    FlightKeep(s.threads, s.status, th, pc);
    StillWatched(s.retired, s.readers, s.threads[th], s'.readers, pc, s.threads, th, pc);
    HolderMove(home, s.threads[th], pc, s, pages);
    MorePages(s.pages, pages, s.slots, s.cur, s.gens);
  }

  lemma MPageInv(home: Pid -> Slot, s: State, th: Tid, act: Act, s': State)
    requires Inv(home, s) && Next(home, s, th, act, s') && (s.threads[th].MPage? || s.threads[th].MPageStore?)
    ensures Inv(home, s')
  {
    hide Inv;
    var op := s.threads[th].op;
    if s'.threads[th].Unlock? {
      GiveUp(home, s, th, op, s');
    } else {
      Advance(home, s, th, op, s'.threads[th], s'.pages);
    }
  }

  lemma StatusSetOk(s: State, th: Tid, r: Reg)
    requires StatusOk(s.table, s.gens, s.status, s.log) && FlightOk(s.threads, s.status)
    requires th in s.threads && Flying(s.threads[th]) == Some(r)
    ensures StatusOk(s.table, s.gens, s.status[r := Failed], s.log)
  {
    hide StatusOk;
    StatusSet(s.table, s.gens, s.status, s.log, r, Failed);
  }
}
