/** No lookup inside the counted region holds a registration whose finalizer has run, although every
    generation of a chain shares its registrations with others. */
module RouteReaders {
  import opened Options
  import opened RouteTable
  import opened RouteInvariant
  import opened RouteMutation
  import opened RouteTheorems
  import opened RouteLeaks

  // What a lookup in the counted region has found.
  function Found(pc: PC): Option<Reg> {
    if pc.RLeave? && pc.out.Looked? then pc.out.res else None
  }

  // None of the registrations on the chain has been finalized.
  ghost predicate Alive(g: Gen, log: seq<Reg>) {
    forall j :: 0 <= j < |g.pairs| ==> g.pairs[j].1 !in log
  }

  ghost predicate ReaderFine(pc: PC, s: State) {
    && (pc.RWalk? ==> pc.rtok < |s.gens| && Alive(s.gens[pc.rtok], s.log))
    && (Found(pc).Some? ==> Found(pc).value !in s.log)
  }

  // While chains are being freed, the readers that have come since see only what is published.
  ghost predicate ReaderLate(pc: PC, s: State) {
    && (pc.RWalk? ==> pc.rtok < |s.gens| && s.gens[pc.rtok].stage == Published)
    && (Found(pc).Some? ==> Found(pc).value in s.status && s.status[Found(pc).value].Live?)
  }

  ghost predicate Sheltered(s: State) {
    && (forall th :: th in s.threads ==> ReaderFine(s.threads[th], s))
    && (Holder(s.threads, s.lock).Freeing? ==> forall th :: th in s.threads ==> ReaderLate(s.threads[th], s))
  }

  // ---------- what is published is alive ----------

  lemma PublishedLive(home: Pid -> Slot, s: State, t: Token, j: nat)
    requires Inv(home, s) && t < |s.gens| && s.gens[t].stage == Published && j < |s.gens[t].pairs|
    ensures var r := s.gens[t].pairs[j].1; r in s.status && s.status[r].Live? && r !in s.log
  {
    hide HeapOk, ThreadsOk, CountOk, LockOk, FlightOk, HolderOk, WatchedOk, Find, Owes;
    var g := s.gens[t];
    assert GenOk(home, g);
    var pid := g.pairs[j].0;
    assert s.cur[g.slot] == t && home(pid) == g.slot;
    assert Get(s.table, pid) == Find(CurPairs(s.cur, s.gens, home(pid)), pid);
    FindAt(g.pairs, j);
    assert s.table[pid] == g.pairs[j].1;
  }

  lemma PublishedAlive(home: Pid -> Slot, s: State, t: Token)
    requires Inv(home, s) && t < |s.gens| && s.gens[t].stage == Published
    ensures Alive(s.gens[t], s.log)
  {
    hide Inv;
    forall j | 0 <= j < |s.gens[t].pairs| ensures s.gens[t].pairs[j].1 !in s.log { PublishedLive(home, s, t, j); }
  }

  // ---------- what steps leave alone ----------

  // Generations keep their pairs and their addresses.
  ghost predicate SamePairs(gens: seq<Gen>, gens': seq<Gen>) {
    && |gens| <= |gens'|
    && forall t :: 0 <= t < |gens| ==> gens'[t].pairs == gens[t].pairs && gens'[t].addrs == gens[t].addrs
  }

  lemma SelfPairs(gens: seq<Gen>)
    ensures SamePairs(gens, gens)
  {
  }

  lemma StagePairs(gens: seq<Gen>, t: Option<Token>, stage: Stage, freed: nat)
    ensures SamePairs(gens, SetStage(gens, t, stage, freed))
  {
  }

  lemma CopyPairs(home: Pid -> Slot, s: State, op: Op, act: Act, s': State)
    requires CopyStep(home, s, op, act, s')
    ensures SamePairs(s.gens, s'.gens) && s'.log == s.log
  {
    hide Built, Reads, Rebuilt, GivesUp, Reset;
  }

  lemma StorePairs(home: Pid -> Slot, s: State, pc: PC, s': State)
    requires pc.MStore? && StoreStep(home, s, pc, s')
    ensures SamePairs(s.gens, s'.gens) && s'.log == s.log
  {
    hide SwappedStatus, IndexOf;
  }

  lemma RetirePairs(s: State, pc: PC, act: Act, s': State)
    requires (pc.MRetire? && RetireStep(s, pc, s')) || (pc.MPush? && PushStep(s, pc, act, s'))
    ensures SamePairs(s.gens, s'.gens) && s'.log == s.log
  {
    StagePairs(s.gens, pc.prevTok, Gone, 0);
    StagePairs(s.gens, pc.prevTok, Doomed, 0);
    StagePairs(s.gens, pc.prevTok, Retired, 0);
    StagePairs(s.gens, pc.prevTok, Leaked, 0);
    hide SetStage, Mark, FinReg;
  }

  lemma FreePairs(s: State, pc: PC, s': State)
    requires pc.Freeing? && FreeStep(s, pc, s')
    ensures SamePairs(s.gens, s'.gens)
  {
    hide SetStage, SamePairs;
    if pc.work == [] {
      SelfPairs(s.gens);
    } else {
      var e := pc.work[0];
      if e.head == NULL {
        StagePairs(s.gens, Some(e.tok), Gone, s.gens[e.tok].freed);
      } else {
        StagePairs(s.gens, Some(e.tok), Doomed, s.gens[e.tok].freed + 1);
      }
    }
  }

  lemma OtherPairs(home: Pid -> Slot, s: State, th: Tid, act: Act, pc: PC, s': State)
    requires Effect(home, s, th, act, pc, s')
    requires !(pc.MLoad? || pc.MStore? || pc.MRetire? || pc.MPush? || pc.Freeing?)
    ensures SamePairs(s.gens, s'.gens) && s'.log == s.log
  {
  }

  lemma PairsKept(home: Pid -> Slot, s: State, th: Tid, act: Act, s': State)
    requires Next(home, s, th, act, s')
    ensures SamePairs(s.gens, s'.gens) && (!s.threads[th].Freeing? ==> s'.log == s.log)
  {
    hide NextPC, Apply, CopyStep, PushStep, FreeStep, StoreStep, RetireStep, SamePairs;
    var pc := s.threads[th];
    if pc.MLoad? {
      CopyPairs(home, s, pc.op, act, s');
    } else if pc.MStore? {
      StorePairs(home, s, pc, s');
    } else if pc.MRetire? || pc.MPush? {
      RetirePairs(s, pc, act, s');
    } else if pc.Freeing? {
      FreePairs(s, pc, s');
    } else {
      hide Effect;
      OtherPairs(home, s, th, act, pc, s');
    }
  }

  // ---------- while a chain is freed ----------

  // The registration finalized with a node is dying.
  lemma FreedIsDying(home: Pid -> Slot, heap: map<Addr, Node>, table: map<Pid, Reg>, gens: seq<Gen>,
                     status: map<Reg, Status>, log: seq<Reg>, e: Entry)
    requires StatusOk(table, gens, status, log) && Fits(e, gens, Doomed) && GenOk(home, gens[e.tok])
    requires gens[e.tok].freed < |gens[e.tok].addrs| && NodeOk(heap, gens[e.tok], e.tok, gens[e.tok].freed)
    ensures var n := heap[e.head];
            e.finOne && n.pid == e.finPid ==> n.reg in status && status[n.reg] == Dying(e.tok)
  {
    var g := gens[e.tok];
    if e.finOne && heap[e.head].pid == e.finPid {
      assert g.pairs[g.freed].0 == g.pairs[g.fin.value].0;
      assert g.freed == g.fin.value;
      assert Owes(g);
    }
  }

  lemma FreeingNode(home: Pid -> Slot, s: State, th: Tid)
    requires Inv(home, s) && th in s.threads && s.threads[th].Freeing? && s.threads[th].work != []
    ensures var e := s.threads[th].work[0];
            && Fits(e, s.gens, Doomed) && GenOk(home, s.gens[e.tok]) && StatusOk(s.table, s.gens, s.status, s.log)
            && (e.head != NULL ==> s.gens[e.tok].freed < |s.gens[e.tok].addrs| &&
                                   NodeOk(s.heap, s.gens[e.tok], e.tok, s.gens[e.tok].freed))
  {
    NotYetFreed(home, s, th);
    hide SlotsOk, TableOk, StatusOk, ThreadsOk, CountOk, LockOk, FlightOk, HolderOk, WatchedOk, Fits, NodeOk;
    var e := s.threads[th].work[0];
    assert GenOk(home, s.gens[e.tok]);
  }

  lemma StagePublished(gens: seq<Gen>, t: Token, stage: Stage, freed: nat)
    requires t < |gens| && gens[t].stage != Published
    ensures var gens' := SetStage(gens, Some(t), stage, freed);
            && |gens'| == |gens|
            && forall u :: 0 <= u < |gens| && gens[u].stage == Published ==> gens'[u].stage == Published
  {
  }

  // The chain being freed is not published, and its registration is not live.
  lemma FreeKeeps(home: Pid -> Slot, s: State, th: Tid, s': State)
    requires Inv(home, s) && th in s.threads && s.threads[th].Freeing? && FreeStep(s, s.threads[th], s')
    ensures |s'.gens| == |s.gens|
    ensures forall t :: 0 <= t < |s.gens| && s.gens[t].stage == Published ==> s'.gens[t].stage == Published
    ensures forall r :: r in s.status && s.status[r].Live? ==> r in s'.status && s'.status[r].Live?
  {
    hide Inv, FreeStep;
    var work := s.threads[th].work;
    if work == [] {
      NothingFreed(s, s.threads[th], s');
    } else {
      var e := work[0];
      FreeingNode(home, s, th);
      if e.head != NULL { FreedIsDying(home, s.heap, s.table, s.gens, s.status, s.log, e); }
      hide StatusOk, GenOk, NodeOk;
      FreeStages(s, s.threads[th], s');
    }
  }

  lemma NothingFreed(s: State, pc: PC, s': State)
    requires pc.Freeing? && pc.work == [] && FreeStep(s, pc, s')
    ensures s'.gens == s.gens && s'.status == s.status
  {
  }

  lemma FreeStages(s: State, pc: PC, s': State)
    requires pc.Freeing? && pc.work != [] && FreeStep(s, pc, s') && Fits(pc.work[0], s.gens, Doomed)
    requires var e := pc.work[0];
             e.head != NULL && e.finOne && s.heap[e.head].pid == e.finPid ==>
               s.heap[e.head].reg in s.status && s.status[s.heap[e.head].reg] == Dying(e.tok)
    ensures |s'.gens| == |s.gens|
    ensures forall t :: 0 <= t < |s.gens| && s.gens[t].stage == Published ==> s'.gens[t].stage == Published
    ensures forall r :: r in s.status && s.status[r].Live? ==> r in s'.status && s'.status[r].Live?
  {
    var e := pc.work[0];
    StagePublished(s.gens, e.tok, Gone, s.gens[e.tok].freed);
    StagePublished(s.gens, e.tok, Doomed, s.gens[e.tok].freed + 1);
    hide SetStage;
  }

  // ---------- preservation ----------

  // A reader that a step does not move stays fine, if the step finalizes nothing.
  lemma FineKept(pc: PC, s: State, s': State)
    requires ReaderFine(pc, s) && SamePairs(s.gens, s'.gens) && s'.log == s.log
    ensures ReaderFine(pc, s')
  {
  }

  lemma LateIsFine(home: Pid -> Slot, s: State, pc: PC)
    requires Inv(home, s) && ReaderLate(pc, s)
    ensures ReaderFine(pc, s)
  {
    hide Inv, Alive;
    if pc.RWalk? { PublishedAlive(home, s, pc.rtok); }
    if Found(pc).Some? { LiveUnlogged(home, s, Found(pc).value); }
  }

  lemma LiveUnlogged(home: Pid -> Slot, s: State, r: Reg)
    requires Inv(home, s) && r in s.status && s.status[r].Live?
    ensures r !in s.log
  {
    hide GensOk, HeapOk, SlotsOk, TableOk, ThreadsOk, CountOk, LockOk, FlightOk, HolderOk, WatchedOk, Accounted, Owes,
         FinReg;
  }

  // The node a walking reader looks at carries a registration of its chain.
  lemma WalkedReg(home: Pid -> Slot, s: State, th: Tid)
    requires Inv(home, s) && th in s.threads && s.threads[th].RWalk?
    ensures var pc := s.threads[th];
            && pc.rtok < |s.gens| && pc.i < |s.gens[pc.rtok].pairs|
            && pc.p in s.heap && s.heap[pc.p].reg == s.gens[pc.rtok].pairs[pc.i].1
  {
    hide SlotsOk, TableOk, StatusOk, CountOk, LockOk, FlightOk, HolderOk, WatchedOk, Find;
    var pc := s.threads[th];
    assert ThreadOk(pc, s.gens) && GenOk(home, s.gens[pc.rtok]) && NodeOk(s.heap, s.gens[pc.rtok], pc.rtok, pc.i);
  }

  // What a lookup holds after a step: nothing, what it held, or something published.
  lemma Looks(home: Pid -> Slot, s: State, th: Tid, act: Act)
    requires Inv(home, s) && th in s.threads && ReaderFine(s.threads[th], s)
    ensures ReaderFine(NextPC(home, s, act, s.threads[th]), s)
    ensures ReaderLate(s.threads[th], s) ==> ReaderLate(NextPC(home, s, act, s.threads[th]), s)
  {
    hide Inv, NextPC, ReaderFine, ReaderLate;
    var pc := s.threads[th];
    if pc.RSlot? {
      LooksSlot(home, s, act, pc.pid);
    } else if pc.RWalk? {
      LooksWalk(home, s, th, act);
    } else {
      LooksOther(home, s, act, pc);
    }
  }

  lemma LooksSlot(home: Pid -> Slot, s: State, act: Act, pid: Pid)
    requires Inv(home, s)
    ensures var pc' := NextPC(home, s, act, RSlot(pid)); ReaderFine(pc', s) && ReaderLate(pc', s)
  {
    hide Inv, Find;
    var pc' := NextPC(home, s, act, RSlot(pid));
    if pc'.RWalk? {
      SlotPublished(home, s, home(pid));
      assert pc'.rtok == s.cur[home(pid)];
      hide NextPC, Alive;
      PublishedAlive(home, s, pc'.rtok);
    }
  }

  lemma LooksWalk(home: Pid -> Slot, s: State, th: Tid, act: Act)
    requires Inv(home, s) && th in s.threads && s.threads[th].RWalk? && ReaderFine(s.threads[th], s)
    ensures ReaderFine(NextPC(home, s, act, s.threads[th]), s)
    ensures ReaderLate(s.threads[th], s) ==> ReaderLate(NextPC(home, s, act, s.threads[th]), s)
  {
    hide Inv;
    var pc := s.threads[th];
    WalkedReg(home, s, th);
    if ReaderLate(pc, s) { PublishedLive(home, s, pc.rtok, pc.i); }
  }

  lemma LooksOther(home: Pid -> Slot, s: State, act: Act, pc: PC)
    requires !pc.RSlot? && !pc.RWalk?
    ensures var pc' := NextPC(home, s, act, pc); ReaderFine(pc', s) && ReaderLate(pc', s)
  {
    hide Get, Find, Alive;
  }

  lemma SlotPublished(home: Pid -> Slot, s: State, k: Slot)
    requires Inv(home, s) && SlotPtr(s.slots, k) != NULL
    ensures k in s.cur && s.cur[k] < |s.gens| && s.gens[s.cur[k]].stage == Published
  {
    hide GensOk, HeapOk, TableOk, StatusOk, ThreadsOk, CountOk, LockOk, FlightOk, HolderOk, WatchedOk;
  }

  // A thread without the lock changes no chain and ends no registration.
  lemma OutsideKeeps(home: Pid -> Slot, s: State, th: Tid, act: Act, pc: PC, s': State)
    requires Effect(home, s, th, act, pc, s') && !Holds(pc)
    ensures s'.gens == s.gens
    ensures forall r :: r in s.status && s.status[r].Live? ==> r in s'.status && s'.status[r].Live?
  {
  }

  lemma LateKept(pc: PC, s: State, s': State)
    requires ReaderLate(pc, s) && |s'.gens| == |s.gens|
    requires forall t :: 0 <= t < |s.gens| && s.gens[t].stage == Published ==> s'.gens[t].stage == Published
    requires forall r :: r in s.status && s.status[r].Live? ==> r in s'.status && s'.status[r].Live?
    ensures ReaderLate(pc, s')
  {
  }

  // Freeing begins when nobody is in the counted region.
  lemma BeginsFreeing(home: Pid -> Slot, s: State, th: Tid, act: Act, s': State)
    requires Next(home, s, th, act, s') && CountOk(s.threads, s.readers)
    requires s'.threads[th].Freeing? && !s.threads[th].Freeing?
    ensures forall u :: u in s.threads ==> !InRegion(s.threads[u])
  {
    assert s'.threads[th] == NextPC(home, s, act, s.threads[th]);
    hide Effect, Find;
    assert s.readers == 0;
    forall u | u in s.threads ensures !InRegion(s.threads[u]) {
      assert InRegion(s.threads[u]) ==> u in Counted(s.threads);
    }
  }

  lemma HolderIs(threads: map<Tid, PC>, lock: Option<Tid>, th: Tid)
    requires LockOk(threads, lock) && th in threads && Holds(threads[th])
    ensures lock == Some(th) && Holder(threads, lock) == threads[th]
    ensures forall u :: u in threads && u != th ==> !Holds(threads[u])
  {
  }

  lemma InvParts(home: Pid -> Slot, s: State)
    requires Inv(home, s)
    ensures LockOk(s.threads, s.lock) && CountOk(s.threads, s.readers)
  {
    hide GensOk, HeapOk, SlotsOk, TableOk, StatusOk, ThreadsOk, CountOk, LockOk, FlightOk, HolderOk, WatchedOk;
  }

  lemma FreeGoesOn(home: Pid -> Slot, s: State, th: Tid, act: Act, s': State)
    requires Next(home, s, th, act, s') && s.threads[th].Freeing?
    ensures FreeStep(s, s.threads[th], s') && s'.threads == s.threads[th := s'.threads[th]]
    ensures s'.threads[th].Freeing? || s'.threads[th].Unlock?
  {
    hide FreeStep;
  }

  // A step of the thread that frees.
  lemma ShelteredFree(home: Pid -> Slot, s: State, th: Tid, act: Act, s': State)
    requires Inv(home, s) && Inv(home, s') && Sheltered(s) && Next(home, s, th, act, s') && s.threads[th].Freeing?
    ensures Sheltered(s')
  {
    hide Inv, Next, FreeStep, LockOk, CountOk;
    OnThread(home, s, th, act, s');
    InvParts(home, s);
    HolderIs(s.threads, s.lock, th);
    FreeGoesOn(home, s, th, act, s');
    FreeKeeps(home, s, th, s');
    forall u | u in s'.threads ensures ReaderLate(s'.threads[u], s') && ReaderFine(s'.threads[u], s') {
      if u != th {
        assert ReaderLate(s.threads[u], s);
        LateKept(s.threads[u], s, s');
      }
      LateIsFine(home, s', s'.threads[u]);
    }
  }

  // A step of any other thread.
  lemma ShelteredOther(home: Pid -> Slot, s: State, th: Tid, act: Act, s': State)
    requires Inv(home, s) && Inv(home, s') && Sheltered(s) && Next(home, s, th, act, s') && !s.threads[th].Freeing?
    ensures Sheltered(s')
  {
    PairsKept(home, s, th, act, s');
    assert s'.threads == s.threads[th := NextPC(home, s, act, s.threads[th])];
    Looks(home, s, th, act);
    hide Inv, Next, NextPC, SamePairs;
    forall u | u in s'.threads ensures ReaderFine(s'.threads[u], s') {
      FineKept(s'.threads[u], s, s');
    }
    hide ReaderFine;
    if Holder(s'.threads, s'.lock).Freeing? {
      forall u | u in s'.threads ensures ReaderLate(s'.threads[u], s') { StaysLate(home, s, th, act, s', u); }
    }
  }

  lemma StaysLate(home: Pid -> Slot, s: State, th: Tid, act: Act, s': State, u: Tid)
    requires Inv(home, s) && Inv(home, s') && Sheltered(s) && Next(home, s, th, act, s') && !s.threads[th].Freeing?
    requires Holder(s'.threads, s'.lock).Freeing? && u in s'.threads
    ensures ReaderLate(s'.threads[u], s')
  {
    InvParts(home, s);
    var h := s'.lock.value;
    assert s'.threads == s.threads[th := NextPC(home, s, act, s.threads[th])];
    if h == th {
      BeginsFreeing(home, s, th, act, s');
    } else {
      HolderIs(s.threads, s.lock, h);
      OutsideKeeps(home, s, th, act, s.threads[th], s');
      Looks(home, s, th, act);
      hide Inv, Next, NextPC, LockOk, CountOk, ReaderFine;
      assert ReaderLate(s.threads[u], s) && ReaderLate(s.threads[th], s);
      LateKept(s'.threads[u], s, s');
    }
  }

  lemma ShelteredNext(home: Pid -> Slot, s: State, th: Tid, act: Act, s': State)
    requires Inv(home, s) && Inv(home, s') && Sheltered(s) && Next(home, s, th, act, s')
    ensures Sheltered(s')
  {
    hide Inv, Next, Sheltered;
    OnThread(home, s, th, act, s');
    if s.threads[th].Freeing? { ShelteredFree(home, s, th, act, s'); } else { ShelteredOther(home, s, th, act, s'); }
  }

  lemma {:induction false} RunSheltered(home: Pid -> Slot, states: seq<State>, acts: seq<(Tid, Act)>, i: nat)
    requires Run(home, states, acts) && i < |states|
    ensures Sheltered(states[i])
  {
    hide Next, Inv;
    if i > 0 {
      RunSheltered(home, states, acts, i - 1);
      hide Sheltered;
      RunInv(home, states, acts, i - 1);
      RunInv(home, states, acts, i);
      ShelteredNext(home, states[i - 1], acts[i - 1].0, acts[i - 1].1, states[i]);
    }
  }

  // In every reachable state: no registration on a chain that a lookup is walking, and none that a lookup has found
  // and not yet carried out of the counted region, has been finalized, by whichever generation.
  lemma ReadersSeeLive(home: Pid -> Slot, s: State, th: Tid)
    requires Reachable(home, s) && th in s.threads
    ensures s.threads[th].RWalk? ==>
              s.threads[th].rtok < |s.gens| &&
              forall j :: 0 <= j < |s.gens[s.threads[th].rtok].pairs| ==>
                s.gens[s.threads[th].rtok].pairs[j].1 !in s.log
    ensures s.threads[th].RLeave? && s.threads[th].out.Looked? && s.threads[th].out.res.Some? ==>
              s.threads[th].out.res.value !in s.log
  {
    var states, acts :| Run(home, states, acts) && s == states[|acts|];
    hide Run;
    RunSheltered(home, states, acts, |acts|);
    assert ReaderFine(s.threads[th], s);
  }
}
